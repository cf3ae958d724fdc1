/** Python's `json` module on the JSON data model: `loads`, and `dumps` with `sort_keys`,
    `indent=2` and `ensure_ascii=False`. A float is represented by its literal. */
module Json {
  import opened Basics
  import opened Unicode
  import opened JsonGrammar

  /** What `loads` builds and `dumps` prints; a dict keeps its insertion order. */
  datatype Json =
    | Null
    | Bool(b: bool)
    | Int(n: int)
    | Float(literal: PyStr)
    | Str(s: PyStr)
    | Arr(items: seq<Json>)
    | Obj(members: seq<Member>)

  datatype Member = Member(key: PyStr, value: Json)

  /** A value up to Python's `==`, which ignores the insertion order of dicts. */
  datatype Value =
    | VNull
    | VBool(b: bool)
    | VInt(n: int)
    | VFloat(literal: PyStr)
    | VStr(s: PyStr)
    | VList(items: seq<Value>)
    | VDict(members: map<PyStr, Value>)

  function Denote(j: Json): Value
    decreases j, 0
  {
    match j
    case Null => VNull
    case Bool(b) => VBool(b)
    case Int(n) => VInt(n)
    case Float(literal) => VFloat(literal)
    case Str(s) => VStr(s)
    case Arr(items) => VList(DenoteItems(items))
    case Obj(members) => VDict(DenoteMembers(members))
  }

  function DenoteItems(items: seq<Json>): (r: seq<Value>)
    ensures |r| == |items|
    ensures forall i :: 0 <= i < |items| ==> r[i] == Denote(items[i])
  {
    if items == [] then [] else [Denote(items[0])] + DenoteItems(items[1..])
  }

  /** The dict of a member list; a repeated key takes its last value. */
  function DenoteMembers(members: seq<Member>): map<PyStr, Value> {
    if members == [] then map[]
    else map[members[0].key := Denote(members[0].value)] + DenoteMembers(members[1..])
  }

  // ---- Reading ----

  const NAN: PyStr := Of("NaN")
  const INFINITY: PyStr := Of("Infinity")
  const MINUS_INFINITY: PyStr := Of("-Infinity")

  function HexDigit(c: CodePoint): (n: nat)
    requires IsHexDigit(c)
    ensures n < 16
  {
    if c <= 57 then c - 48 else if c <= 70 then c - 55 else c - 87
  }

  function CodeUnit(digits: PyStr): (n: CodePoint)
    requires ValidItem(Hex(digits))
    ensures n < 0x1_0000
  {
    ((HexDigit(digits[0]) * 16 + HexDigit(digits[1])) * 16 + HexDigit(digits[2])) * 16 + HexDigit(digits[3])
  }

  function EscapedChar(letter: CodePoint): CodePoint {
    if letter == 98 then 8
    else if letter == 102 then 12
    else if letter == 110 then 10
    else if letter == 114 then 13
    else if letter == 116 then 9
    else letter
  }

  /** The text of a string literal; an escaped high and low surrogate in a row are one character. */
  function Chars(items: seq<StrItem>): PyStr
    requires ValidItems(items)
  {
    if items == [] then []
    else match items[0]
      case Plain(c) => [c] + Chars(items[1..])
      case Escape(letter) => [EscapedChar(letter)] + Chars(items[1..])
      case Hex(digits) =>
        var high := CodeUnit(digits);
        if 0xD800 <= high < 0xDC00 && |items| > 1 && items[1].Hex? && 0xDC00 <= CodeUnit(items[1].digits) < 0xE000 then
          [0x1_0000 + (high - 0xD800) * 1024 + (CodeUnit(items[1].digits) - 0xDC00)] + Chars(items[2..])
        else [high] + Chars(items[1..])
  }

  function EvalWord(word: PyStr): Json {
    if word == Of("null") then Null
    else if word == Of("true") then Bool(true)
    else if word == Of("false") then Bool(false)
    else Float(word)
  }

  function Eval(c: Cst): Json
    requires Valid(c)
    decreases c, 0
  {
    match c
    case Word(word) => EvalWord(word)
    case Number(minus, whole, frac, exp) =>
      if frac == [] && exp.NoExp? then
        var n: int := Decimal.ValueOf(whole);
        Int(if minus then -n else n)
      else Float(Text(c))
    case String(items) => Str(Chars(items))
    case Array(_, elems) => Arr(EvalElems(elems))
    case Object(_, members) => Obj(EvalPairs(members, []))
  }

  function EvalElems(elems: seq<Elem>): seq<Json>
    requires ValidElems(elems)
  {
    if elems == [] then []
    else
      assert ValidElem(elems[0]);
      [Eval(elems[0].value)] + EvalElems(elems[1..])
  }

  /** `dict(pairs)`, pair by pair. */
  function EvalPairs(pairs: seq<Pair>, dict: seq<Member>): seq<Member>
    requires ValidPairs(pairs)
  {
    if pairs == [] then dict
    else
      assert ValidPair(pairs[0]) && ValidElem(pairs[0].slot);
      EvalPairs(pairs[1..], Assign(dict, Chars(pairs[0].key), Eval(pairs[0].slot.value)))
  }

  /** `dict[key] = value` */
  function Assign(dict: seq<Member>, key: PyStr, value: Json): seq<Member> {
    if dict == [] then [Member(key, value)]
    else if dict[0].key == key then [Member(key, value)] + dict[1..]
    else [dict[0]] + Assign(dict[1..], key, value)
  }

  /** The tree of a document; None is JSONDecodeError. */
  function ParseDocument(s: PyStr): (r: Option<Cst>)
    ensures r.Some? ==> Valid(r.value)
  {
    match ParseValue(AfterWs(s))
    case Bad => None
    case Ok(c, rest) =>
      ValueSound(AfterWs(s));
      if AfterWs(rest) == [] then Some(c) else None
  }

  /** `json.loads(s)` */
  function Loads(s: PyStr): Option<Json> {
    match ParseDocument(s)
    case None => None
    case Some(c) => Some(Eval(c))
  }

  // ---- Printing ----

  function NewLine(level: nat): (r: PyStr)
    ensures AllWs(r)
  {
    [10] + seq(2 * level, _ => 32)
  }

  function HexLetter(n: nat): (c: CodePoint)
    requires n < 16
    ensures IsHexDigit(c) && HexDigit(c) == n
  {
    if n < 10 then 48 + n else 87 + n
  }

  /** How `dumps` writes one character with `ensure_ascii=False`. */
  function ItemOf(c: CodePoint): (item: StrItem)
    ensures ValidItem(item) && (item.Hex? ==> CodeUnit(item.digits) == c < 32)
  {
    if c == QUOTE || c == BACKSLASH then Escape(c)
    else if c == 8 then Escape(98)
    else if c == 12 then Escape(102)
    else if c == 10 then Escape(110)
    else if c == 13 then Escape(114)
    else if c == 9 then Escape(116)
    else if c < 32 then Hex([48, 48, HexLetter(c / 16), HexLetter(c % 16)])
    else Plain(c)
  }

  function ItemsOf(s: PyStr): (items: seq<StrItem>)
    ensures ValidItems(items)
  {
    if s == [] then [] else [ItemOf(s[0])] + ItemsOf(s[1..])
  }

  /** A finite float literal, as `repr` writes one: a number with a fraction or an exponent. */
  predicate FiniteLiteral(literal: PyStr) {
    match ParseNumber(literal)
    case Bad => false
    case Ok(c, rest) => rest == [] && c.Number? && (c.frac != [] || c.exp.Exp?)
  }

  predicate NonFinite(literal: PyStr) {
    literal == NAN || literal == INFINITY || literal == MINUS_INFINITY
  }

  predicate DistinctKeys(members: seq<Member>) {
    forall i, j :: 0 <= i < j < |members| ==> members[i].key != members[j].key
  }

  /** A value Python can hold: dict keys are distinct, float literals are float literals. */
  predicate WellFormed(j: Json) {
    match j
    case Float(literal) => FiniteLiteral(literal) || NonFinite(literal)
    case Arr(items) => forall i :: 0 <= i < |items| ==> WellFormed(items[i])
    case Obj(members) => DistinctKeys(members) && forall i :: 0 <= i < |members| ==> WellFormed(members[i].value)
    case _ => true
  }

  /** `allow_nan=False` refuses the other values. */
  predicate AllFinite(j: Json) {
    match j
    case Float(literal) => !NonFinite(literal)
    case Arr(items) => forall i :: 0 <= i < |items| ==> AllFinite(items[i])
    case Obj(members) => forall i :: 0 <= i < |members| ==> AllFinite(members[i].value)
    case _ => true
  }

  datatype Entry = Entry(key: PyStr, value: Cst)

  function Insert(e: Entry, sorted: seq<Entry>): seq<Entry> {
    if sorted == [] || Less(e.key, sorted[0].key) then [e] + sorted
    else [sorted[0]] + Insert(e, sorted[1..])
  }

  /** `sorted(dct.items())`, whose keys are distinct. */
  function Sort(entries: seq<Entry>): seq<Entry> {
    if entries == [] then [] else Insert(entries[0], Sort(entries[1..]))
  }

  function LayoutElems(values: seq<Cst>, level: nat): seq<Elem> {
    if values == [] then []
    else
      var after := if |values| == 1 then NewLine(level) else [];
      [Elem(NewLine(level + 1), values[0], after)] + LayoutElems(values[1..], level)
  }

  function LayoutPairs(entries: seq<Entry>, level: nat): seq<Pair> {
    if entries == [] then []
    else
      var after := if |entries| == 1 then NewLine(level) else [];
      [Pair(NewLine(level + 1), ItemsOf(entries[0].key), [], Elem([32], entries[0].value, after))] +
        LayoutPairs(entries[1..], level)
  }

  /** The text of `j` at a nesting level, as a syntax tree. */
  function Render(j: Json, level: nat): Cst
    requires WellFormed(j)
    decreases j, 0
  {
    match j
    case Null => Word(Of("null"))
    case Bool(b) => Word(if b then Of("true") else Of("false"))
    case Int(n) => Number(n < 0, Decimal.Digits(if n < 0 then -n else n), [], NoExp)
    case Float(literal) => if NonFinite(literal) then Word(literal) else ParseNumber(literal).value
    case Str(s) => String(ItemsOf(s))
    case Arr(items) => Array([], LayoutElems(RenderItems(items, level + 1), level))
    case Obj(members) => Object([], LayoutPairs(Sort(RenderMembers(members, level + 1)), level))
  }

  function RenderItems(items: seq<Json>, level: nat): (r: seq<Cst>)
    requires forall i :: 0 <= i < |items| ==> WellFormed(items[i])
    ensures |r| == |items|
    ensures forall i :: 0 <= i < |items| ==> r[i] == Render(items[i], level)
  {
    if items == [] then [] else [Render(items[0], level)] + RenderItems(items[1..], level)
  }

  function RenderMembers(members: seq<Member>, level: nat): (r: seq<Entry>)
    requires forall i :: 0 <= i < |members| ==> WellFormed(members[i].value)
    ensures |r| == |members|
    ensures forall i :: 0 <= i < |members| ==> r[i] == Entry(members[i].key, Render(members[i].value, level))
  {
    if members == [] then []
    else [Entry(members[0].key, Render(members[0].value, level))] + RenderMembers(members[1..], level)
  }

  /** `json.dumps(j, sort_keys=True, indent=2, ensure_ascii=False, allow_nan=False)`; None is ValueError. */
  function Dumps(j: Json): Option<PyStr>
    requires WellFormed(j)
  {
    if AllFinite(j) then Some(Text(Render(j, 0))) else None
  }
}
