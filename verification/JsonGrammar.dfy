/** The texts `json.loads` reads: the grammar of RFC 8259 (sections 2 to 7) plus the three
    words NaN, Infinity and -Infinity, as concrete syntax trees with their text, and a
    recursive-descent parser that is proved to invert the text. */
module JsonGrammar {
  import opened Unicode
  import Decimal

  const QUOTE: CodePoint := 34
  const COMMA: CodePoint := 44
  const MINUS: CodePoint := 45
  const DOT: CodePoint := 46
  const ZERO: CodePoint := 48
  const COLON: CodePoint := 58
  const LBRACKET: CodePoint := 91
  const BACKSLASH: CodePoint := 92
  const RBRACKET: CodePoint := 93
  const LETTER_U: CodePoint := 117
  const LBRACE: CodePoint := 123
  const RBRACE: CodePoint := 125

  // ---- Concrete syntax ----

  datatype StrItem =
    | Plain(c: CodePoint)
    | Escape(letter: CodePoint)
    | Hex(digits: PyStr)

  datatype Exponent = NoExp | Exp(marker: CodePoint, sign: PyStr, digits: PyStr)

  datatype Cst =
    | Word(word: PyStr)
    | Number(minus: bool, whole: PyStr, frac: PyStr, exp: Exponent)
    | String(items: seq<StrItem>)
    | Array(pad: PyStr, elems: seq<Elem>)
    | Object(pad: PyStr, members: seq<Pair>)

  datatype Elem = Elem(before: PyStr, value: Cst, after: PyStr)

  datatype Pair = Pair(before: PyStr, key: seq<StrItem>, mid: PyStr, slot: Elem)

  predicate IsWs(c: CodePoint) {
    c == 32 || c == 9 || c == 10 || c == 13
  }

  predicate AllWs(s: PyStr) {
    forall i :: 0 <= i < |s| ==> IsWs(s[i])
  }

  predicate IsHexDigit(c: CodePoint) {
    Decimal.IsDigit(c) || 65 <= c <= 70 || 97 <= c <= 102
  }

  /** The letter after a backslash, other than u: one of " \ / b f n r t */
  predicate IsEscapeLetter(c: CodePoint) {
    c == QUOTE || c == BACKSLASH || c == 47 || c == 98 || c == 102 || c == 110 || c == 114 || c == 116
  }

  predicate ValidItem(item: StrItem) {
    match item
    case Plain(c) => c != QUOTE && c != BACKSLASH && c >= 32
    case Escape(letter) => IsEscapeLetter(letter)
    case Hex(digits) => |digits| == 4 && forall i :: 0 <= i < 4 ==> IsHexDigit(digits[i])
  }

  predicate ValidItems(items: seq<StrItem>) {
    forall i :: 0 <= i < |items| ==> ValidItem(items[i])
  }

  predicate ValidExponent(e: Exponent) {
    match e
    case NoExp => true
    case Exp(marker, sign, digits) =>
      && (marker == 101 || marker == 69)
      && (sign == [] || sign == [43] || sign == [MINUS])
      && digits != [] && Decimal.AllDigits(digits)
  }

  function Words(): seq<PyStr> {
    [Of("null"), Of("true"), Of("false"), Of("NaN"), Of("Infinity"), Of("-Infinity")]
  }

  predicate Valid(c: Cst)
    decreases c, 0
  {
    match c
    case Word(word) => word in Words()
    case Number(minus, whole, frac, exp) => Decimal.Numeral(whole) && Decimal.AllDigits(frac) && ValidExponent(exp)
    case String(items) => ValidItems(items)
    case Array(pad, elems) => if elems == [] then AllWs(pad) else pad == [] && ValidElems(elems)
    case Object(pad, members) => if members == [] then AllWs(pad) else pad == [] && ValidPairs(members)
  }

  predicate ValidElem(e: Elem) {
    AllWs(e.before) && Valid(e.value) && AllWs(e.after)
  }

  predicate ValidElems(elems: seq<Elem>) {
    elems == [] || (ValidElem(elems[0]) && ValidElems(elems[1..]))
  }

  predicate ValidPair(m: Pair) {
    AllWs(m.before) && ValidItems(m.key) && AllWs(m.mid) && ValidElem(m.slot)
  }

  predicate ValidPairs(members: seq<Pair>) {
    members == [] || (ValidPair(members[0]) && ValidPairs(members[1..]))
  }

  // Each function below is the text of its first argument followed by `k`.

  function PutItem(item: StrItem, k: PyStr): PyStr {
    match item
    case Plain(c) => [c] + k
    case Escape(letter) => [BACKSLASH, letter] + k
    case Hex(digits) => [BACKSLASH, LETTER_U] + (digits + k)
  }

  /** The items and the closing quote. */
  function PutItems(items: seq<StrItem>, k: PyStr): PyStr {
    if items == [] then [QUOTE] + k else PutItem(items[0], PutItems(items[1..], k))
  }

  function PutExponent(e: Exponent, k: PyStr): PyStr {
    match e
    case NoExp => k
    case Exp(marker, sign, digits) => [marker] + (sign + (digits + k))
  }

  function PutFraction(frac: PyStr, k: PyStr): PyStr {
    if frac == [] then k else [DOT] + (frac + k)
  }

  function PutInteger(minus: bool, whole: PyStr, k: PyStr): PyStr {
    if minus then [MINUS] + (whole + k) else whole + k
  }

  function Put(c: Cst, k: PyStr): PyStr
    decreases c, 0
  {
    match c
    case Word(word) => word + k
    case Number(minus, whole, frac, exp) => PutInteger(minus, whole, PutFraction(frac, PutExponent(exp, k)))
    case String(items) => [QUOTE] + PutItems(items, k)
    case Array(pad, elems) => [LBRACKET] + (if elems == [] then pad + ([RBRACKET] + k) else PutElems(elems, k))
    case Object(pad, members) => [LBRACE] + (if members == [] then pad + ([RBRACE] + k) else PutPairs(members, k))
  }

  function PutElem(e: Elem, k: PyStr): PyStr {
    e.before + Put(e.value, e.after + k)
  }

  /** The elements and the closing bracket. */
  function PutElems(elems: seq<Elem>, k: PyStr): PyStr
    requires elems != []
  {
    PutElem(elems[0], if |elems| == 1 then [RBRACKET] + k else [COMMA] + PutElems(elems[1..], k))
  }

  function PutPair(m: Pair, k: PyStr): PyStr {
    m.before + ([QUOTE] + PutItems(m.key, m.mid + ([COLON] + PutElem(m.slot, k))))
  }

  /** The members and the closing brace. */
  function PutPairs(members: seq<Pair>, k: PyStr): PyStr
    requires members != []
  {
    PutPair(members[0], if |members| == 1 then [RBRACE] + k else [COMMA] + PutPairs(members[1..], k))
  }

  function Text(c: Cst): PyStr {
    Put(c, [])
  }

  // ---- Parser ----

  datatype Parsed<+T> = Ok(value: T, rest: PyStr) | Bad

  function WsLen(s: PyStr): (n: nat)
    ensures n <= |s| && AllWs(s[..n])
    ensures n < |s| ==> !IsWs(s[n])
  {
    if s == [] || !IsWs(s[0]) then 0
    else
      var n := WsLen(s[1..]);
      assert s[..1 + n] == [s[0]] + s[1..][..n];
      1 + n
  }

  function Ws(s: PyStr): PyStr {
    s[..WsLen(s)]
  }

  function AfterWs(s: PyStr): (r: PyStr)
    ensures s == Ws(s) + r
  {
    s[WsLen(s)..]
  }

  function DigitsLen(s: PyStr): (n: nat)
    ensures n <= |s| && Decimal.AllDigits(s[..n])
    ensures n < |s| ==> !Decimal.IsDigit(s[n])
  {
    if s == [] || !Decimal.IsDigit(s[0]) then 0
    else
      var n := DigitsLen(s[1..]);
      assert s[..1 + n] == [s[0]] + s[1..][..n];
      1 + n
  }

  predicate StartsWith(s: PyStr, c: CodePoint) {
    s != [] && s[0] == c
  }

  predicate StartsWithDigit(s: PyStr) {
    s != [] && Decimal.IsDigit(s[0])
  }

  function ParseItem(s: PyStr): (r: Parsed<StrItem>)
    requires s != [] && s[0] != QUOTE
    ensures r.Ok? ==> ValidItem(r.value) && s == PutItem(r.value, r.rest) && |r.rest| < |s|
  {
    if s[0] != BACKSLASH then
      if s[0] < 32 then Bad else Ok(Plain(s[0]), s[1..])
    else if |s| >= 2 && IsEscapeLetter(s[1]) then Ok(Escape(s[1]), s[2..])
    else if |s| >= 6 && s[1] == LETTER_U && forall i :: 2 <= i < 6 ==> IsHexDigit(s[i]) then
      Ok(Hex(s[2..6]), s[6..])
    else Bad
  }

  /** The rest of a string, after its opening quote. */
  function ParseItems(s: PyStr): (r: Parsed<seq<StrItem>>)
    ensures r.Ok? ==> ValidItems(r.value) && s == PutItems(r.value, r.rest) && |r.rest| < |s|
    decreases |s|
  {
    if s == [] then Bad
    else if s[0] == QUOTE then Ok([], s[1..])
    else match ParseItem(s)
      case Bad => Bad
      case Ok(item, t) =>
        match ParseItems(t)
        case Bad => Bad
        case Ok(items, rest) =>
          assert ([item] + items)[1..] == items;
          Ok([item] + items, rest)
  }

  /** An optional fraction; a dot without a digit after it is not part of the number. */
  function ParseFraction(s: PyStr): (r: (PyStr, PyStr))
    ensures |r.1| <= |s|
  {
    if StartsWith(s, DOT) && StartsWithDigit(s[1..]) then
      var n := DigitsLen(s[1..]);
      (s[1..][..n], s[1..][n..])
    else ([], s)
  }

  function ParseSign(s: PyStr): (r: (PyStr, PyStr))
    ensures |r.1| <= |s|
  {
    if StartsWith(s, 43) || StartsWith(s, MINUS) then ([s[0]], s[1..]) else ([], s)
  }

  function ParseExponent(s: PyStr): (r: (Exponent, PyStr))
    ensures |r.1| <= |s|
  {
    if StartsWith(s, 101) || StartsWith(s, 69) then
      var (sign, t) := ParseSign(s[1..]);
      if StartsWithDigit(t) then (Exp(s[0], sign, t[..DigitsLen(t)]), t[DigitsLen(t)..]) else (NoExp, s)
    else (NoExp, s)
  }

  /** -?(0|[1-9][0-9]*), greedily. */
  function ParseInteger(s: PyStr): (r: Parsed<(bool, PyStr)>)
    ensures r.Ok? ==> |r.rest| < |s|
  {
    var minus := StartsWith(s, MINUS);
    var t := if minus then s[1..] else s;
    if !StartsWithDigit(t) then Bad
    else
      var n := if t[0] == ZERO then 1 else DigitsLen(t);
      Ok((minus, t[..n]), t[n..])
  }

  function ParseNumber(s: PyStr): (r: Parsed<Cst>)
    ensures r.Ok? ==> |r.rest| < |s|
  {
    match ParseInteger(s)
    case Bad => Bad
    case Ok((minus, whole), t) =>
      var (frac, u) := ParseFraction(t);
      var (exp, rest) := ParseExponent(u);
      Ok(Number(minus, whole, frac, exp), rest)
  }

  function ParseWord(s: PyStr, words: seq<PyStr>): (r: Parsed<Cst>)
    ensures r.Ok? ==> r.value.Word? && r.value.word in words && s == r.value.word + r.rest
  {
    if words == [] then Bad
    else if words[0] <= s then Ok(Word(words[0]), s[|words[0]|..])
    else ParseWord(s, words[1..])
  }

  /** One value at the start of `s`, where no whitespace is skipped. */
  function ParseValue(s: PyStr): (r: Parsed<Cst>)
    ensures r.Ok? ==> |r.rest| < |s|
    decreases |s|, 0
  {
    if s == [] then Bad
    else if s[0] == QUOTE then
      match ParseItems(s[1..])
      case Bad => Bad
      case Ok(items, rest) => Ok(String(items), rest)
    else if s[0] == LBRACE then
      var t := s[1..];
      if StartsWith(AfterWs(t), RBRACE) then Ok(Object(Ws(t), []), AfterWs(t)[1..])
      else match ParsePairs(t)
        case Bad => Bad
        case Ok(members, rest) => Ok(Object([], members), rest)
    else if s[0] == LBRACKET then
      var t := s[1..];
      if StartsWith(AfterWs(t), RBRACKET) then Ok(Array(Ws(t), []), AfterWs(t)[1..])
      else match ParseElems(t)
        case Bad => Bad
        case Ok(elems, rest) => Ok(Array([], elems), rest)
    else match ParseNumber(s)
      case Ok(c, rest) => Ok(c, rest)
      case Bad => ParseWord(s, Words())
  }

  function ParseElem(s: PyStr): (r: Parsed<Elem>)
    ensures r.Ok? ==> |r.rest| < |s|
    decreases |s|, 1
  {
    match ParseValue(AfterWs(s))
    case Bad => Bad
    case Ok(value, t) => Ok(Elem(Ws(s), value, Ws(t)), AfterWs(t))
  }

  /** value (, value)* ] */
  function ParseElems(s: PyStr): (r: Parsed<seq<Elem>>)
    ensures r.Ok? ==> r.value != [] && |r.rest| < |s|
    decreases |s|, 2
  {
    match ParseElem(s)
    case Bad => Bad
    case Ok(e, t) =>
      if StartsWith(t, RBRACKET) then Ok([e], t[1..])
      else if StartsWith(t, COMMA) then
        match ParseElems(t[1..])
        case Bad => Bad
        case Ok(elems, rest) => Ok([e] + elems, rest)
      else Bad
  }

  /** "key": value */
  function ParsePair(s: PyStr): (r: Parsed<Pair>)
    ensures r.Ok? ==> |r.rest| < |s|
    decreases |s|, 2
  {
    var t := AfterWs(s);
    if !StartsWith(t, QUOTE) then Bad
    else match ParseItems(t[1..])
      case Bad => Bad
      case Ok(key, u) =>
        var v := AfterWs(u);
        if !StartsWith(v, COLON) then Bad
        else match ParseElem(v[1..])
          case Bad => Bad
          case Ok(slot, rest) => Ok(Pair(Ws(s), key, Ws(u), slot), rest)
  }

  /** "key": value (, "key": value)* } */
  function ParsePairs(s: PyStr): (r: Parsed<seq<Pair>>)
    ensures r.Ok? ==> r.value != [] && |r.rest| < |s|
    decreases |s|, 3
  {
    match ParsePair(s)
    case Bad => Bad
    case Ok(m, t) =>
      if StartsWith(t, RBRACE) then Ok([m], t[1..])
      else if StartsWith(t, COMMA) then
        match ParsePairs(t[1..])
        case Bad => Bad
        case Ok(members, rest) => Ok([m] + members, rest)
      else Bad
  }

  // ---- What the parser accepts is a text of the grammar ----

  lemma {:induction false} HeadTail(s: PyStr, c: CodePoint)
    requires StartsWith(s, c)
    ensures s == [c] + s[1..]
  {
  }

  lemma {:induction false} IntegerSound(s: PyStr)
    requires ParseInteger(s).Ok?
    ensures var Ok((minus, whole), t) := ParseInteger(s); Decimal.Numeral(whole) && s == PutInteger(minus, whole, t)
  {
  }

  lemma {:induction false} FractionSound(s: PyStr)
    ensures var (frac, t) := ParseFraction(s); Decimal.AllDigits(frac) && s == PutFraction(frac, t)
  {
  }

  lemma {:induction false} ExponentSound(s: PyStr)
    ensures var (e, t) := ParseExponent(s); ValidExponent(e) && s == PutExponent(e, t)
  {
  }

  lemma {:induction false} NumberSound(s: PyStr)
    requires ParseNumber(s).Ok?
    ensures var Ok(c, rest) := ParseNumber(s); c.Number? && Valid(c) && s == Put(c, rest)
  {
    var t := ParseInteger(s).rest;
    IntegerSound(s);
    FractionSound(t);
    ExponentSound(ParseFraction(t).1);
  }

  lemma {:induction false} BracketSound(s: PyStr)
    requires s != [] && ParseValue(s).Ok?
    requires (s[0] == LBRACE && StartsWith(AfterWs(s[1..]), RBRACE)) ||
      (s[0] == LBRACKET && StartsWith(AfterWs(s[1..]), RBRACKET))
    ensures var Ok(c, rest) := ParseValue(s); Valid(c) && s == Put(c, rest)
  {
    var t := AfterWs(s[1..]);
    assert s == [s[0]] + s[1..] && t == [t[0]] + t[1..];
  }

  lemma {:induction false} ValueSound(s: PyStr)
    requires ParseValue(s).Ok?
    ensures var Ok(c, rest) := ParseValue(s); Valid(c) && s == Put(c, rest)
    decreases |s|, 0
  {
    assert s == [s[0]] + s[1..];
    if s[0] == QUOTE {
    } else if s[0] == LBRACE {
      if StartsWith(AfterWs(s[1..]), RBRACE) {
        BracketSound(s);
      } else {
        PairsSound(s[1..]);
      }
    } else if s[0] == LBRACKET {
      if StartsWith(AfterWs(s[1..]), RBRACKET) {
        BracketSound(s);
      } else {
        ElemsSound(s[1..]);
      }
    } else if ParseNumber(s).Ok? {
      NumberSound(s);
    }
  }

  lemma {:induction false} ElemSound(s: PyStr)
    requires ParseElem(s).Ok?
    ensures var Ok(e, rest) := ParseElem(s); ValidElem(e) && s == PutElem(e, rest)
    decreases |s|, 1
  {
    ValueSound(AfterWs(s));
  }

  lemma {:induction false} ElemsSound(s: PyStr)
    requires ParseElems(s).Ok?
    ensures var Ok(elems, rest) := ParseElems(s); ValidElems(elems) && s == PutElems(elems, rest)
    decreases |s|, 2
  {
    ElemSound(s);
    var Ok(e, t) := ParseElem(s);
    if StartsWith(t, COMMA) {
      ElemsSound(t[1..]);
      HeadTail(t, COMMA);
      var elems := ParseElems(t[1..]).value;
      assert ([e] + elems)[1..] == elems;
    } else {
      HeadTail(t, RBRACKET);
    }
  }

  lemma {:induction false} PairSound(s: PyStr)
    requires ParsePair(s).Ok?
    ensures var Ok(m, rest) := ParsePair(s); ValidPair(m) && s == PutPair(m, rest)
    decreases |s|, 2
  {
    var t := AfterWs(s);
    var Ok(key, u) := ParseItems(t[1..]);
    var v := AfterWs(u);
    var Ok(slot, rest) := ParseElem(v[1..]);
    ElemSound(v[1..]);
    HeadTail(v, COLON);
    assert u == Ws(u) + ([COLON] + PutElem(slot, rest));
    HeadTail(t, QUOTE);
    assert t == [QUOTE] + PutItems(key, Ws(u) + ([COLON] + PutElem(slot, rest)));
  }

  lemma {:induction false} ConsPairs(m: Pair, members: seq<Pair>, k: PyStr)
    requires members != []
    ensures PutPairs([m] + members, k) == PutPair(m, [COMMA] + PutPairs(members, k))
    ensures ValidPair(m) && ValidPairs(members) ==> ValidPairs([m] + members)
  {
  }

  lemma {:induction false} PairsSound(s: PyStr)
    requires ParsePairs(s).Ok?
    ensures var Ok(members, rest) := ParsePairs(s); ValidPairs(members) && s == PutPairs(members, rest)
    decreases |s|, 3
  {
    PairSound(s);
    var Ok(m, t) := ParsePair(s);
    if StartsWith(t, COMMA) {
      PairsSound(t[1..]);
      HeadTail(t, COMMA);
      ConsPairs(m, ParsePairs(t[1..]).value, ParsePairs(s).rest);
    } else {
      HeadTail(t, RBRACE);
    }
  }

  // ---- The parser accepts every text of the grammar ----

  predicate IsNumberChar(c: CodePoint) {
    Decimal.IsDigit(c) || c == DOT || c == 69 || c == 101
  }

  /** A number ends where its text ends only if `k` does not continue it. */
  predicate Delimited(c: Cst, k: PyStr) {
    c.Number? && k != [] ==> !IsNumberChar(k[0])
  }

  lemma {:induction false} WsOf(w: PyStr, k: PyStr)
    requires AllWs(w) && (k != [] ==> !IsWs(k[0]))
    ensures WsLen(w + k) == |w| && Ws(w + k) == w && AfterWs(w + k) == k
  {
    if w != [] {
      assert (w + k)[1..] == w[1..] + k;
      WsOf(w[1..], k);
    }
  }

  lemma {:induction false} DigitsOf(ds: PyStr, k: PyStr)
    requires Decimal.AllDigits(ds) && (k != [] ==> !Decimal.IsDigit(k[0]))
    ensures DigitsLen(ds + k) == |ds| && (ds + k)[..|ds|] == ds && (ds + k)[|ds|..] == k
  {
  }

  /** A value starts with a character that is neither whitespace nor a closing bracket. */
  lemma {:induction false} PutHead(c: Cst, k: PyStr)
    requires Valid(c)
    ensures Put(c, k) != []
    ensures var h := Put(c, k)[0]; !IsWs(h) && h != RBRACKET && h != RBRACE && h != COLON
  {
  }

  lemma {:induction false} ItemComplete(item: StrItem, k: PyStr)
    requires ValidItem(item)
    ensures PutItem(item, k) != [] && PutItem(item, k)[0] != QUOTE
    ensures ParseItem(PutItem(item, k)) == Ok(item, k)
  {
    if item.Hex? {
      var s := PutItem(item, k);
      assert s[2..6] == item.digits && s[6..] == k;
      assert forall i :: 2 <= i < 6 ==> s[i] == item.digits[i - 2];
    }
  }

  lemma {:induction false} ItemsComplete(items: seq<StrItem>, k: PyStr)
    requires ValidItems(items)
    ensures ParseItems(PutItems(items, k)) == Ok(items, k)
    decreases |items|
  {
    if items != [] {
      ItemsComplete(items[1..], k);
      ItemComplete(items[0], PutItems(items[1..], k));
      assert items == [items[0]] + items[1..];
    }
  }

  lemma {:induction false} ExponentComplete(e: Exponent, k: PyStr)
    requires ValidExponent(e) && (k != [] ==> !IsNumberChar(k[0]))
    ensures ParseExponent(PutExponent(e, k)) == (e, k)
    ensures var s := PutExponent(e, k); s != [] ==> !Decimal.IsDigit(s[0]) && s[0] != DOT
  {
    if e.Exp? {
      DigitsOf(e.digits, k);
      assert PutExponent(e, k)[1..] == e.sign + (e.digits + k);
      assert e.sign == [] ==> e.sign + (e.digits + k) == e.digits + k;
      assert ParseSign(e.sign + (e.digits + k)) == (e.sign, e.digits + k);
    }
  }

  lemma {:induction false} FractionComplete(frac: PyStr, k: PyStr)
    requires Decimal.AllDigits(frac) && (k != [] ==> !Decimal.IsDigit(k[0]) && k[0] != DOT)
    ensures ParseFraction(PutFraction(frac, k)) == (frac, k)
    ensures var s := PutFraction(frac, k); s != [] ==> !Decimal.IsDigit(s[0])
  {
    DigitsOf(frac, k);
    if frac != [] {
      assert PutFraction(frac, k)[1..] == frac + k;
    }
  }

  lemma {:induction false} IntegerComplete(minus: bool, whole: PyStr, k: PyStr)
    requires Decimal.Numeral(whole) && (k != [] ==> !Decimal.IsDigit(k[0]))
    ensures ParseInteger(PutInteger(minus, whole, k)) == Ok((minus, whole), k)
  {
    DigitsOf(whole, k);
    if minus {
      assert PutInteger(minus, whole, k)[1..] == whole + k;
    }
  }

  lemma {:induction false} NumberComplete(c: Cst, k: PyStr)
    requires c.Number? && Valid(c) && Delimited(c, k)
    ensures ParseNumber(Put(c, k)) == Ok(c, k)
    ensures var h := Put(c, k)[0]; Decimal.IsDigit(h) || h == MINUS
  {
    ExponentComplete(c.exp, k);
    FractionComplete(c.frac, PutExponent(c.exp, k));
    IntegerComplete(c.minus, c.whole, PutFraction(c.frac, PutExponent(c.exp, k)));
  }

  lemma {:induction false} NumberValueComplete(c: Cst, k: PyStr)
    requires c.Number? && Valid(c) && Delimited(c, k)
    ensures ParseValue(Put(c, k)) == Ok(c, k)
  {
    NumberComplete(c, k);
    NumberFirst(Put(c, k));
  }

  lemma {:induction false} NumberFirst(s: PyStr)
    requires s != [] && (Decimal.IsDigit(s[0]) || s[0] == MINUS) && ParseNumber(s).Ok?
    ensures ParseValue(s) == ParseNumber(s)
  {
  }

  lemma {:induction false} WordComplete(c: Cst, k: PyStr)
    requires c.Word? && Valid(c)
    ensures ParseValue(Put(c, k)) == Ok(c, k)
  {
    var s, ws := Put(c, k), Words();
    assert c.word <= s && s[|c.word|..] == k;
    assert s[0] == c.word[0];
    if c.word == ws[5] {
      assert s[1] == c.word[1] == 73;
    }
    assert ParseNumber(s).Bad?;
    var i :| 0 <= i < |ws| && ws[i] == c.word;
    WordsApart(s, i);
    FirstWord(s, ws, i);
  }

  /** No two of the words start alike. */
  lemma {:induction false} WordsApart(s: PyStr, i: nat)
    requires i < |Words()| && Words()[i] <= s
    ensures forall j :: 0 <= j < i ==> !(Words()[j] <= s)
  {
    var ws := Words();
    assert ws[i][0] == s[0];
    assert forall j :: 0 <= j < i ==> ws[j][0] != s[0];
  }

  lemma {:induction false} FirstWord(s: PyStr, words: seq<PyStr>, i: nat)
    requires i < |words| && words[i] <= s && forall j :: 0 <= j < i ==> !(words[j] <= s)
    ensures ParseWord(s, words) == Ok(Word(words[i]), s[|words[i]|..])
  {
    if i > 0 {
      FirstWord(s, words[1..], i - 1);
    }
  }

  lemma {:induction false} ArrayStep(c: Cst, k: PyStr)
    requires c.Array? && Valid(c) && c.elems != [] && ParseElems(PutElems(c.elems, k)) == Ok(c.elems, k)
    ensures ParseValue(Put(c, k)) == Ok(c, k)
  {
    var t := PutElems(c.elems, k);
    assert ([LBRACKET] + t)[1..] == t;
    ElemsHead(c.elems, k);
  }

  lemma {:induction false} ObjectStep(c: Cst, k: PyStr)
    requires c.Object? && Valid(c) && c.members != [] && ParsePairs(PutPairs(c.members, k)) == Ok(c.members, k)
    ensures ParseValue(Put(c, k)) == Ok(c, k)
  {
    var t := PutPairs(c.members, k);
    assert ([LBRACE] + t)[1..] == t;
    PairsHead(c.members, k);
  }

  lemma {:induction false} EmptyComplete(c: Cst, k: PyStr)
    requires Valid(c) && ((c.Array? && c.elems == []) || (c.Object? && c.members == []))
    ensures ParseValue(Put(c, k)) == Ok(c, k)
  {
    var close := [if c.Array? then RBRACKET else RBRACE] + k;
    WsOf(c.pad, close);
    assert Put(c, k)[1..] == c.pad + close && close[1..] == k;
  }

  lemma {:induction false} StringComplete(c: Cst, k: PyStr)
    requires c.String? && Valid(c)
    ensures ParseValue(Put(c, k)) == Ok(c, k)
  {
    ItemsComplete(c.items, k);
    assert Put(c, k)[1..] == PutItems(c.items, k);
  }

  /** Every text of the grammar parses to its own tree, whatever follows it. */
  lemma {:induction false} ValueComplete(c: Cst, k: PyStr)
    requires Valid(c) && Delimited(c, k)
    ensures ParseValue(Put(c, k)) == Ok(c, k)
    decreases c, 0
  {
    if c.Word? {
      WordComplete(c, k);
    } else if c.Number? {
      NumberValueComplete(c, k);
    } else if c.String? {
      StringComplete(c, k);
    } else if (c.Array? && c.elems == []) || (c.Object? && c.members == []) {
      EmptyComplete(c, k);
    } else if c.Array? {
      ElemsComplete(c.elems, k);
      ArrayStep(c, k);
    } else {
      PairsComplete(c.members, k);
      ObjectStep(c, k);
    }
  }

  lemma {:induction false} ElemsHead(elems: seq<Elem>, k: PyStr)
    requires elems != [] && ValidElems(elems)
    ensures !StartsWith(AfterWs(PutElems(elems, k)), RBRACKET)
  {
    var e := elems[0];
    var rest := if |elems| == 1 then [RBRACKET] + k else [COMMA] + PutElems(elems[1..], k);
    PutHead(e.value, e.after + rest);
    WsOf(e.before, Put(e.value, e.after + rest));
  }

  lemma {:induction false} PairsHead(members: seq<Pair>, k: PyStr)
    requires members != [] && ValidPairs(members)
    ensures !StartsWith(AfterWs(PutPairs(members, k)), RBRACE)
  {
    var m := members[0];
    var rest := if |members| == 1 then [RBRACE] + k else [COMMA] + PutPairs(members[1..], k);
    WsOf(m.before, [QUOTE] + PutItems(m.key, m.mid + ([COLON] + PutElem(m.slot, rest))));
  }

  lemma {:induction false} ElemComplete(e: Elem, k: PyStr)
    requires ValidElem(e) && k != [] && !IsWs(k[0]) && !IsNumberChar(k[0])
    ensures ParseElem(PutElem(e, k)) == Ok(e, k)
    decreases e, 1
  {
    PutHead(e.value, e.after + k);
    WsOf(e.before, Put(e.value, e.after + k));
    ValueComplete(e.value, e.after + k);
    WsOf(e.after, k);
  }

  lemma {:induction false} ElemsStep(e: Elem, elems: seq<Elem>, k: PyStr)
    requires elems != [] && ValidElem(e) && ParseElems(PutElems(elems, k)) == Ok(elems, k)
    requires ParseElem(PutElem(e, [COMMA] + PutElems(elems, k))) == Ok(e, [COMMA] + PutElems(elems, k))
    ensures ParseElems(PutElems([e] + elems, k)) == Ok([e] + elems, k)
  {
    assert ([e] + elems)[1..] == elems;
    assert ([COMMA] + PutElems(elems, k))[1..] == PutElems(elems, k);
  }

  lemma {:induction false} ElemsLast(e: Elem, k: PyStr)
    requires ParseElem(PutElem(e, [RBRACKET] + k)) == Ok(e, [RBRACKET] + k)
    ensures ParseElems(PutElems([e], k)) == Ok([e], k)
  {
    assert ([RBRACKET] + k)[1..] == k;
  }

  lemma {:induction false} ElemsComplete(elems: seq<Elem>, k: PyStr)
    requires elems != [] && ValidElems(elems)
    ensures ParseElems(PutElems(elems, k)) == Ok(elems, k)
    decreases elems, 2
  {
    if |elems| > 1 {
      assert elems == [elems[0]] + elems[1..];
      ElemComplete(elems[0], [COMMA] + PutElems(elems[1..], k));
      ElemsComplete(elems[1..], k);
      ElemsStep(elems[0], elems[1..], k);
    } else {
      assert elems == [elems[0]];
      ElemComplete(elems[0], [RBRACKET] + k);
      ElemsLast(elems[0], k);
    }
  }

  lemma {:induction false} PairComplete(m: Pair, k: PyStr)
    requires ValidPair(m) && k != [] && !IsWs(k[0]) && !IsNumberChar(k[0])
    ensures ParsePair(PutPair(m, k)) == Ok(m, k)
    decreases m, 1
  {
    var slot := PutElem(m.slot, k);
    var u := m.mid + ([COLON] + slot);
    WsOf(m.before, [QUOTE] + PutItems(m.key, u));
    assert ([QUOTE] + PutItems(m.key, u))[1..] == PutItems(m.key, u);
    ItemsComplete(m.key, u);
    WsOf(m.mid, [COLON] + slot);
    assert ([COLON] + slot)[1..] == slot;
    ElemComplete(m.slot, k);
  }

  lemma {:induction false} PairsStep(m: Pair, members: seq<Pair>, k: PyStr)
    requires members != [] && ValidPair(m) && ParsePairs(PutPairs(members, k)) == Ok(members, k)
    requires ParsePair(PutPair(m, [COMMA] + PutPairs(members, k))) == Ok(m, [COMMA] + PutPairs(members, k))
    ensures ParsePairs(PutPairs([m] + members, k)) == Ok([m] + members, k)
  {
    ConsPairs(m, members, k);
    assert ([COMMA] + PutPairs(members, k))[1..] == PutPairs(members, k);
  }

  lemma {:induction false} PairsLast(m: Pair, k: PyStr)
    requires ParsePair(PutPair(m, [RBRACE] + k)) == Ok(m, [RBRACE] + k)
    ensures ParsePairs(PutPairs([m], k)) == Ok([m], k)
  {
    assert ([RBRACE] + k)[1..] == k;
  }

  lemma {:induction false} PairsComplete(members: seq<Pair>, k: PyStr)
    requires members != [] && ValidPairs(members)
    ensures ParsePairs(PutPairs(members, k)) == Ok(members, k)
    decreases members, 2
  {
    if |members| > 1 {
      assert members == [members[0]] + members[1..];
      PairComplete(members[0], [COMMA] + PutPairs(members[1..], k));
      PairsComplete(members[1..], k);
      PairsStep(members[0], members[1..], k);
    } else {
      assert members == [members[0]];
      PairComplete(members[0], [RBRACE] + k);
      PairsLast(members[0], k);
    }
  }
}
