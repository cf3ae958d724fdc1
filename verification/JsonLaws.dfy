/** What the JSON grammar accepts and what the texts mean, character by character: every code point below is written
    out, so that nothing here leans on the definitions of grammar and parser. The scanner is tied to it, too. */
module JsonLaws {
  import opened Basics
  import opened Unicode
  import opened JsonGrammar
  import opened Json
  import opened BraceScanner
  import Decimal
  import JsonRoundTrip

  // ---- White space: space, tab, line feed and carriage return, between any two tokens ----

  predicate Blanks(w: PyStr) {
    forall i :: 0 <= i < |w| ==> w[i] == 32 || w[i] == 9 || w[i] == 10 || w[i] == 13
  }

  /** The same tokens without any white space between them. */
  function Bare(c: Cst): Cst
    decreases c, 0
  {
    match c
    case Array(_, elems) => Array([], BareElems(elems))
    case Object(_, members) => Object([], BarePairs(members))
    case _ => c
  }

  function BareElem(e: Elem): Elem
    decreases e, 1
  {
    Elem([], Bare(e.value), [])
  }

  function BareElems(elems: seq<Elem>): (r: seq<Elem>)
    ensures |r| == |elems|
    decreases elems, 2
  {
    if elems == [] then [] else [BareElem(elems[0])] + BareElems(elems[1..])
  }

  function BarePairs(members: seq<Pair>): (r: seq<Pair>)
    ensures |r| == |members|
    decreases members, 2
  {
    if members == [] then []
    else [Pair([], members[0].key, [], BareElem(members[0].slot))] + BarePairs(members[1..])
  }

  /** Between the tokens there is white space only; the space in empty brackets is their own. */
  predicate Spaced(c: Cst)
    decreases c, 0
  {
    match c
    case Array(pad, elems) => (if elems == [] then Blanks(pad) else pad == []) && SpacedElems(elems)
    case Object(pad, members) => (if members == [] then Blanks(pad) else pad == []) && SpacedPairs(members)
    case _ => true
  }

  predicate SpacedElem(e: Elem)
    decreases e, 1
  {
    Blanks(e.before) && Spaced(e.value) && Blanks(e.after)
  }

  predicate SpacedElems(elems: seq<Elem>)
    decreases elems, 2
  {
    elems == [] || (SpacedElem(elems[0]) && SpacedElems(elems[1..]))
  }

  predicate SpacedPairs(members: seq<Pair>)
    decreases members, 2
  {
    || members == []
    || (&& Blanks(members[0].before) && Blanks(members[0].mid) && SpacedElem(members[0].slot)
        && SpacedPairs(members[1..]))
  }

  lemma {:induction false} BlanksAreWs(w: PyStr)
    ensures Blanks(w) <==> AllWs(w)
  {
  }

  /** A text of the grammar is one of its token sequences with white space between the tokens. */
  lemma {:induction false} WhiteSpaceAnywhere(c: Cst)
    ensures Valid(c) <==> Valid(Bare(c)) && Spaced(c)
    decreases c, 0
  {
    if c.Array? {
      BlanksAreWs(c.pad);
      ElemsSpaced(c.elems);
    } else if c.Object? {
      BlanksAreWs(c.pad);
      PairsSpaced(c.members);
    }
  }

  lemma {:induction false} ElemSpaced(e: Elem)
    ensures ValidElem(e) <==> ValidElem(BareElem(e)) && SpacedElem(e)
    decreases e, 1
  {
    BlanksAreWs(e.before);
    BlanksAreWs(e.after);
    WhiteSpaceAnywhere(e.value);
  }

  lemma {:induction false} ElemsSpaced(elems: seq<Elem>)
    ensures ValidElems(elems) <==> ValidElems(BareElems(elems)) && SpacedElems(elems)
    decreases elems, 2
  {
    if elems != [] {
      ElemSpaced(elems[0]);
      ElemsSpaced(elems[1..]);
      assert BareElems(elems)[1..] == BareElems(elems[1..]);
    }
  }

  lemma {:induction false} PairSpaced(m: Pair)
    ensures ValidPair(m) <==>
      && ValidPair(Pair([], m.key, [], BareElem(m.slot)))
      && Blanks(m.before) && Blanks(m.mid) && SpacedElem(m.slot)
    decreases m, 1
  {
    hide SpacedElem, ValidElem, Blanks;
    BlanksAreWs(m.before);
    BlanksAreWs(m.mid);
    ElemSpaced(m.slot);
  }

  lemma {:induction false} PairsSpaced(members: seq<Pair>)
    ensures ValidPairs(members) <==> ValidPairs(BarePairs(members)) && SpacedPairs(members)
    decreases members, 2
  {
    if members != [] {
      hide ValidPair, SpacedElem, Blanks;
      var bare := BarePairs(members);
      PairSpaced(members[0]);
      PairsSpaced(members[1..]);
      assert bare[1..] == BarePairs(members[1..]);
      assert ValidPairs(bare) <==> ValidPair(bare[0]) && ValidPairs(bare[1..]);
      assert ValidPairs(members) <==> ValidPair(members[0]) && ValidPairs(members[1..]);
    }
  }

  /** White space means nothing. */
  lemma {:induction false} SameValue(c: Cst)
    requires Valid(c) && Valid(Bare(c))
    ensures Eval(Bare(c)) == Eval(c)
    decreases c, 0
  {
    if c.Array? {
      ElemsSpaced(c.elems);
      SameElems(c.elems);
    } else if c.Object? {
      PairsSpaced(c.members);
      SamePairs(c.members, []);
    }
  }

  lemma {:induction false} SameElems(elems: seq<Elem>)
    requires ValidElems(elems) && ValidElems(BareElems(elems))
    ensures EvalElems(BareElems(elems)) == EvalElems(elems)
    decreases elems, 1
  {
    if elems != [] {
      assert BareElems(elems)[1..] == BareElems(elems[1..]) && ValidElem(elems[0]) && ValidElem(BareElem(elems[0]));
      SameValue(elems[0].value);
      SameElems(elems[1..]);
    }
  }

  lemma {:induction false} SamePairs(members: seq<Pair>, dict: seq<Member>)
    requires ValidPairs(members) && ValidPairs(BarePairs(members))
    ensures EvalPairs(BarePairs(members), dict) == EvalPairs(members, dict)
    decreases members, 1
  {
    if members != [] {
      var (m, bare) := (members[0], BarePairs(members)[0]);
      assert BarePairs(members)[1..] == BarePairs(members[1..]) && ValidPair(m) && ValidPair(bare);
      assert ValidElem(m.slot) && ValidElem(bare.slot) && bare.slot == BareElem(m.slot);
      SameValue(m.slot.value);
      SamePairs(members[1..], Assign(dict, Chars(m.key), Eval(m.slot.value)));
    }
  }

  /** An object comes back whole and with the same value, whatever white space stands between its tokens and whatever
      text follows it. */
  lemma {:induction false} WhiteSpaceInObjects(c: Cst, suffix: PyStr)
    requires c.Object? && Valid(Bare(c)) && Spaced(c)
    ensures ObjectAt(Text(c) + suffix, 0) == Some(Text(c))
    ensures Loads(Text(c)).Some? && Loads(Text(c)) == Loads(Text(Bare(c)))
  {
    WhiteSpaceAnywhere(c);
    ObjectThenAnything(c, suffix);
    SameValue(c);
    DocumentLoads(c);
    DocumentLoads(Bare(c));
  }

  lemma {:induction false} DocumentLoads(c: Cst)
    requires Valid(c)
    ensures Loads(Text(c)) == Some(Eval(c))
  {
    JsonRoundTrip.DocumentComplete(c, []);
  }

  /** In particular behind the opening brace. */
  lemma {:induction false} WhiteSpaceAfterBrace(w: PyStr, rest: PyStr, suffix: PyStr)
    requires Blanks(w) && ObjectAt([123] + rest, 0) == Some([123] + rest)
    ensures ObjectAt([123] + w + rest + suffix, 0) == Some([123] + w + rest)
  {
    var s := [123] + rest;
    assert s[0..] == s;
    ValueSound(s);
    var c := ParseValue(s).value;
    var spaced := if c.members == [] then Object(w + c.pad, [])
                  else Object([], [c.members[0].(before := w + c.members[0].before)] + c.members[1..]);
    BlanksAreWs(w);
    WholeText(s, c);
    SpacedBehindBrace(c, w);
    ObjectThenAnything(spaced, suffix);
    assert Text(spaced) == [123] + w + rest;
  }

  lemma {:induction false} WholeText(s: PyStr, c: Cst)
    requires ObjectAt(s, 0) == Some(s) && ParseValue(s).Ok? && ParseValue(s).value == c && s[0..] == s
    ensures Text(c) == s && c.Object?
  {
  }

  lemma {:induction false} SpacedBehindBrace(c: Cst, w: PyStr)
    requires c.Object? && Valid(c) && AllWs(w)
    ensures var spaced := if c.members == [] then Object(w + c.pad, [])
                          else Object([], [c.members[0].(before := w + c.members[0].before)] + c.members[1..]);
      Valid(spaced) && Text(spaced) == [123] + w + Text(c)[1..]
  {
    if c.members != [] {
      var (m, first) := (c.members[0], c.members[0].(before := w + c.members[0].before));
      var members := [first] + c.members[1..];
      assert ValidPair(m) && AllWs(m.before) && ValidPair(first);
      assert members[1..] == c.members[1..] && members[0] == first && ValidPairs(members);
      var k := if |c.members| == 1 then [RBRACE] + [] else [COMMA] + PutPairs(c.members[1..], []);
      var u := [QUOTE] + PutItems(m.key, m.mid + ([COLON] + PutElem(m.slot, k)));
      assert PutPair(m, k) == m.before + u && PutPair(first, k) == (w + m.before) + u;
      assert (w + m.before) + u == w + (m.before + u);
      assert PutPairs(members, []) == PutPair(first, k) && PutPairs(c.members, []) == PutPair(m, k);
      var inside := PutPairs(c.members, []);
      assert Text(c) == [LBRACE] + inside && ([LBRACE] + inside)[1..] == inside;
      assert [LBRACE] + (w + inside) == [123] + w + inside;
    } else {
      var inside := c.pad + ([RBRACE] + []);
      assert Text(c) == [LBRACE] + inside && ([LBRACE] + inside)[1..] == inside;
      assert (w + c.pad) + ([RBRACE] + []) == w + inside;
      assert [LBRACE] + (w + inside) == [123] + w + inside;
    }
  }

  // ---- Tokens ----

  /** Exactly these words, numbers and strings are tokens. */
  lemma {:induction false} TokensExactly(c: Cst)
    ensures c.Word? ==> (Valid(c) <==> exists i: nat :: i < 6 && c.word == WordText(i))
    ensures c.Number? ==>
      (Valid(c) <==>
        && c.whole != [] && Numerals(c.whole) && (c.whole[0] == 48 ==> |c.whole| == 1) && Numerals(c.frac)
        && (c.exp.Exp? ==>
          && (c.exp.marker == 69 || c.exp.marker == 101)
          && (c.exp.sign == [] || c.exp.sign == [43] || c.exp.sign == [45])
          && c.exp.digits != [] && Numerals(c.exp.digits)))
    ensures c.String? ==>
      (Valid(c) <==> forall i :: 0 <= i < |c.items| ==>
        match c.items[i]
        case Plain(p) => p >= 32 && p != 34 && p != 92
        case Escape(letter) => EscapeMeans(letter).Some?
        case Hex(digits) => |digits| == 4 && forall k :: 0 <= k < 4 ==> Hexadecimal(digits[k]))
  {
    match c {
      case Word(word) =>
        assert forall i: nat :: i < 6 ==> WordText(i) == Words()[i];
        assert Valid(c) <==> exists i: nat :: i < 6 && word == Words()[i];
      case Number(_, _, _, _) =>
      case String(items) =>
        forall i | 0 <= i < |items| ensures ValidItem(items[i]) <==> match items[i]
            case Plain(p) => p >= 32 && p != 34 && p != 92
            case Escape(letter) => EscapeMeans(letter).Some?
            case Hex(digits) => |digits| == 4 && forall k :: 0 <= k < 4 ==> Hexadecimal(digits[k])
        {
        }
      case _ =>
    }
  }

  // ---- Strings ----

  /** The tree of {"key":0}. */
  function KeyedZero(items: seq<StrItem>): Cst {
    Object([], [Pair([], items, [], Elem([], Number(false, [48], [], NoExp), []))])
  }

  lemma {:induction false} KeyedZeroText(items: seq<StrItem>, text: PyStr)
    requires ValidItems(items) && PutItems(items, []) == text + [34]
    ensures Valid(KeyedZero(items)) && Text(KeyedZero(items)) == [123, 34] + text + [34, 58, 48, 125]
  {
    var c := KeyedZero(items);
    var (m, zero) := (c.members[0], Number(false, [48], [], NoExp));
    assert Decimal.Numeral([48]) && Valid(zero) && ValidElem(m.slot) && ValidPair(m) && ValidPairs(c.members);
    var end := [RBRACE] + [];
    assert Put(zero, [] + end) == [48] + end && PutElem(m.slot, end) == [] + ([48] + end);
    var colon := [] + ([COLON] + PutElem(m.slot, end));
    assert colon == [58, 48, 125];
    JsonRoundTrip.PutItemsThen(items, [], colon);
    assert [] + colon == colon && PutItems(items, colon) == text + [34] + colon;
    assert PutPairs(c.members, []) == [] + ([QUOTE] + PutItems(items, colon));
    assert [34] + colon == [34, 58, 48, 125];
    assert [LBRACE] + ([] + ([QUOTE] + (text + [34] + colon))) == [123, 34] + text + [34, 58, 48, 125];
  }

  /** The object {"key":0} with this key is found, and reads as one with these characters. */
  lemma {:induction false} KeyIsRead(items: seq<StrItem>, text: PyStr, suffix: PyStr)
    requires ValidItems(items) && PutItems(items, []) == text + [34]
    ensures var o := [123, 34] + text + [34, 58, 48, 125];
      && ObjectAt(o + suffix, 0) == Some(o)
      && Loads(o) == Some(Obj([Member(Chars(items), Int(0))]))
  {
    var c := KeyedZero(items);
    KeyedZeroText(items, text);
    ObjectThenAnything(c, suffix);
    DocumentLoads(c);
    assert ValidPair(c.members[0]) && ValidElem(c.members[0].slot) && c.members[1..] == [];
    assert Decimal.ValueOf([48]) == 0;
    assert EvalPairs(c.members, []) == [Member(Chars(items), Int(0))];
  }

  /** A brace before what is no member opens no object. */
  lemma {:induction false} MemberIsBad(u: PyStr)
    requires u != [] && u[0] == 34 && ParsePair(u).Bad?
    ensures ObjectAt([123] + u, 0).None?
  {
    var s := [123] + u;
    assert s[0..] == s && s[1..] == u;
    NoBlankInFront(u);
    assert ParsePairs(u).Bad?;
  }

  /** A key that cannot be read is no object. */
  lemma {:induction false} KeyIsBad(t: PyStr)
    requires ParseItems(t).Bad?
    ensures ObjectAt([123, 34] + t, 0).None?
  {
    var u := [34] + t;
    assert u[1..] == t && [123] + u == [123, 34] + t;
    NoBlankInFront(u);
    assert ParsePair(u).Bad?;
    hide ObjectAt, ParsePair, ParseItems;
    MemberIsBad(u);
  }

  /** What a letter after a backslash stands for, other than u. */
  function EscapeMeans(letter: CodePoint): Option<CodePoint> {
    if letter == 34 || letter == 92 || letter == 47 then Some(letter)
    else if letter == 98 then Some(8)
    else if letter == 102 then Some(12)
    else if letter == 110 then Some(10)
    else if letter == 114 then Some(13)
    else if letter == 116 then Some(9)
    else None
  }

  lemma {:induction false} EscapeIsRead(letter: CodePoint)
    requires EscapeMeans(letter).Some?
    ensures var items := [Escape(letter)];
      ValidItems(items) && PutItems(items, []) == [92, letter] + [34] && Chars(items) == [EscapeMeans(letter).value]
  {
    var items := [Escape(letter)];
    assert items[1..] == [] && PutItems(items[1..], []) == [34] && Chars(items[1..]) == [];
    assert PutItem(items[0], [34]) == [92, letter] + [34];
  }

  lemma {:induction false} EscapeIsBad(t: PyStr)
    requires |t| >= 3 && t[0] == 92 && EscapeMeans(t[1]).None? && t[2] == 34
    ensures ParseItems(t).Bad?
  {
    assert ParseItem(t).Bad?;
  }

  /** Exactly the letters " \ / b f n r t may follow a backslash, and each stands for its character. */
  lemma {:induction false} EscapeLetters(letter: CodePoint, suffix: PyStr)
    ensures var o := [123, 34, 92, letter, 34, 58, 48, 125];
      && (ObjectAt(o + suffix, 0) == Some(o) <==> EscapeMeans(letter).Some?)
      && (EscapeMeans(letter).Some? ==> Loads(o) == Some(Obj([Member([EscapeMeans(letter).value], Int(0))])))
  {
    hide ObjectAt, Loads, ValidItems, ParseItems, Chars;
    var o := [123, 34, 92, letter, 34, 58, 48, 125];
    if EscapeMeans(letter).Some? {
      EscapeIsRead(letter);
      KeyIsRead([Escape(letter)], [92, letter], suffix);
      assert [123, 34] + [92, letter] + [34, 58, 48, 125] == o;
    } else {
      var t := [92, letter, 34, 58, 48, 125] + suffix;
      assert o + suffix == [123, 34] + t;
      EscapeIsBad(t);
      KeyIsBad(t);
    }
  }

  predicate Hexadecimal(c: CodePoint) {
    48 <= c <= 57 || 65 <= c <= 70 || 97 <= c <= 102
  }

  /** Exactly four hexadecimal digits, in either case, may follow \u. */
  lemma {:induction false} HexEscapes(a: CodePoint, b: CodePoint, c: CodePoint, d: CodePoint, suffix: PyStr)
    ensures var o := [123, 34, 92, 117, a, b, c, d, 34, 58, 48, 125];
      ObjectAt(o + suffix, 0) == Some(o) <==> Hexadecimal(a) && Hexadecimal(b) && Hexadecimal(c) && Hexadecimal(d)
  {
    hide ObjectAt, Loads, ValidItems, ParseItems, Chars, PutItems;
    var o := [123, 34, 92, 117, a, b, c, d, 34, 58, 48, 125];
    if Hexadecimal(a) && Hexadecimal(b) && Hexadecimal(c) && Hexadecimal(d) {
      HexIsValid(a, b, c, d);
      KeyIsRead([Hex([a, b, c, d])], [92, 117, a, b, c, d], suffix);
      assert [123, 34] + [92, 117, a, b, c, d] + [34, 58, 48, 125] == o;
    } else {
      var t := [92, 117, a, b, c, d, 34, 58, 48, 125] + suffix;
      assert o + suffix == [123, 34] + t;
      HexIsBad(t);
      KeyIsBad(t);
    }
  }

  lemma {:induction false} HexIsValid(a: CodePoint, b: CodePoint, c: CodePoint, d: CodePoint)
    requires Hexadecimal(a) && Hexadecimal(b) && Hexadecimal(c) && Hexadecimal(d)
    ensures ValidItems([Hex([a, b, c, d])]) && PutItems([Hex([a, b, c, d])], []) == [92, 117, a, b, c, d] + [34]
  {
    var items := [Hex([a, b, c, d])];
    assert items[1..] == [] && PutItems(items[1..], []) == [34];
    assert PutItem(items[0], [34]) == [92, 117] + ([a, b, c, d] + [34]);
  }

  lemma {:induction false} HexIsBad(t: PyStr)
    requires |t| >= 6 && t[0] == 92 && t[1] == 117
    requires !(Hexadecimal(t[2]) && Hexadecimal(t[3]) && Hexadecimal(t[4]) && Hexadecimal(t[5]))
    ensures ParseItems(t).Bad?
  {
    assert ParseItem(t).Bad?;
  }

  /** Every other character stands for itself, unless it is a control character or ends the string. */
  lemma {:induction false} PlainCharacters(c: CodePoint, suffix: PyStr)
    requires c != 92
    ensures var o := [123, 34, c, 34, 58, 48, 125];
      && (ObjectAt(o + suffix, 0) == Some(o) <==> c >= 32 && c != 34)
      && (c >= 32 && c != 34 ==> Loads(o) == Some(Obj([Member([c], Int(0))])))
  {
    hide ObjectAt, Loads, ValidItems, Chars, PutItems;
    var o := [123, 34, c, 34, 58, 48, 125];
    var t := [c, 34, 58, 48, 125] + suffix;
    assert o + suffix == [123, 34] + t;
    if c >= 32 && c != 34 {
      PlainIsValid(c);
      KeyIsRead([Plain(c)], [c], suffix);
      assert [123, 34] + [c] + [34, 58, 48, 125] == o;
    } else if c == 34 {
      EmptyKeyThenQuote(t);
    } else {
      ControlIsBad(t);
      KeyIsBad(t);
    }
  }

  lemma {:induction false} PlainIsValid(c: CodePoint)
    requires c >= 32 && c != 34 && c != 92
    ensures var items := [Plain(c)]; ValidItems(items) && PutItems(items, []) == [c] + [34] && Chars(items) == [c]
  {
    var items := [Plain(c)];
    assert items[1..] == [] && PutItems(items[1..], []) == [34] && Chars(items[1..]) == [];
    assert PutItem(items[0], [34]) == [c] + [34];
  }

  lemma {:induction false} ControlIsBad(t: PyStr)
    requires t != [] && t[0] < 32
    ensures ParseItems(t).Bad?
  {
    assert ParseItem(t).Bad?;
  }

  /** {"" is not followed by a second key. */
  lemma {:induction false} EmptyKeyThenQuote(t: PyStr)
    requires |t| >= 2 && t[0] == 34 && t[1] == 34
    ensures ObjectAt([123, 34] + t, 0).None?
  {
    var u := [34] + t;
    assert u[1..] == t && [123] + u == [123, 34] + t;
    QuoteIsNoColon(u, t);
    hide ObjectAt, ParsePair;
    MemberIsBad(u);
  }

  lemma {:induction false} QuoteIsNoColon(u: PyStr, t: PyStr)
    requires |t| >= 2 && t[0] == 34 && t[1] == 34 && u == [34] + t && u[1..] == t
    ensures ParsePair(u).Bad?
  {
    NoBlankInFront(u);
    NoBlankInFront(t[1..]);
    assert ParseItems(t) == Ok([], t[1..]);
    hide AfterWs, WsLen, ParseItems, ParseElem;
  }

  lemma {:induction false} NoBlankInFront(s: PyStr)
    requires s != [] && s[0] == 34
    ensures AfterWs(s) == s
  {
    assert WsLen(s) == 0;
  }

  /** A hexadecimal digit in upper or lower case. */
  function Nibble(n: nat, upper: bool): (c: CodePoint)
    requires n < 16
    ensures Hexadecimal(c)
  {
    if n < 10 then 48 + n else if upper then 55 + n else 87 + n
  }

  function Unit(n: nat, upper: bool): (digits: PyStr)
    requires n < 0x1_0000
    ensures |digits| == 4 && forall i :: 0 <= i < 4 ==> Hexadecimal(digits[i])
  {
    [Nibble(n / 4096, upper), Nibble(n / 256 % 16, upper), Nibble(n / 16 % 16, upper), Nibble(n % 16, upper)]
  }

  /** A character in escapes only: its code unit, or the two of its surrogate pair. */
  function InEscapes(c: CodePoint, upper: bool): seq<StrItem> {
    if c < 0x1_0000 then [Hex(Unit(c, upper))]
    else [Hex(Unit(0xD800 + (c - 0x1_0000) / 1024, upper)), Hex(Unit(0xDC00 + (c - 0x1_0000) % 1024, upper))]
  }

  lemma {:induction false} FourDigits(n: nat)
    ensures n / 256 == n / 4096 * 16 + n / 256 % 16
    ensures n / 16 == n / 256 * 16 + n / 16 % 16
    ensures n == n / 16 * 16 + n % 16
  {
  }

  lemma {:induction false} UnitIsRead(n: nat, upper: bool)
    requires n < 0x1_0000
    ensures ValidItem(Hex(Unit(n, upper))) && CodeUnit(Unit(n, upper)) == n
  {
    FourDigits(n);
    var (a, b, c, d) := (n / 4096, n / 256 % 16, n / 16 % 16, n % 16);
    var digits := Unit(n, upper);
    hide Nibble, HexDigit;
    NibbleIsRead(a, upper);
    NibbleIsRead(b, upper);
    NibbleIsRead(c, upper);
    NibbleIsRead(d, upper);
    assert HexDigit(digits[0]) == a && HexDigit(digits[1]) == b && HexDigit(digits[2]) == c && HexDigit(digits[3]) == d;
  }

  lemma {:induction false} NibbleIsRead(n: nat, upper: bool)
    requires n < 16
    ensures IsHexDigit(Nibble(n, upper)) && HexDigit(Nibble(n, upper)) == n
  {
  }

  /** Every character reads back from its escapes, those beyond the basic plane from a surrogate pair. */
  lemma {:induction false} EscapesAreRead(c: CodePoint, upper: bool)
    ensures ValidItems(InEscapes(c, upper)) && Chars(InEscapes(c, upper)) == [c]
  {
    var items := InEscapes(c, upper);
    if c < 0x1_0000 {
      UnitIsRead(c, upper);
      OneUnit(items[0], c);
    } else {
      var (high, low) := (0xD800 + (c - 0x1_0000) / 1024, 0xDC00 + (c - 0x1_0000) % 1024);
      UnitIsRead(high, upper);
      UnitIsRead(low, upper);
      TwoUnits(items[0], items[1], high, low);
    }
  }

  lemma {:induction false} OneUnit(item: StrItem, n: nat)
    requires item.Hex? && ValidItem(item) && CodeUnit(item.digits) == n
    ensures ValidItems([item]) && Chars([item]) == [n]
  {
    assert [item][1..] == [] && Chars([item][1..]) == [];
  }

  lemma {:induction false} TwoUnits(first: StrItem, second: StrItem, high: nat, low: nat)
    requires first.Hex? && ValidItem(first) && CodeUnit(first.digits) == high && 0xD800 <= high < 0xDC00
    requires second.Hex? && ValidItem(second) && CodeUnit(second.digits) == low && 0xDC00 <= low < 0xE000
    ensures ValidItems([first, second])
    ensures Chars([first, second]) == [0x1_0000 + (high - 0xD800) * 1024 + (low - 0xDC00)]
  {
    var items := [first, second];
    assert items[2..] == [] && Chars(items[2..]) == [];
  }

  // ---- Values ----

  /** The tree of {"":value}. */
  function Boxed(value: Cst): Cst {
    Object([], [Pair([], [], [], Elem([], value, []))])
  }

  lemma {:induction false} EmptyKeyed(e: Elem, k: PyStr)
    ensures PutPair(Pair([], [], [], e), k) == [34, 34, 58] + PutElem(e, k)
  {
    var colon := [COLON] + PutElem(e, k);
    assert [] + colon == colon && PutItems([], colon) == [QUOTE] + colon;
    assert [] + ([QUOTE] + ([QUOTE] + colon)) == [34, 34, 58] + PutElem(e, k);
  }

  lemma {:induction false} PlainElem(value: Cst, k: PyStr)
    ensures PutElem(Elem([], value, []), k) == Text(value) + k
  {
    JsonRoundTrip.PutIsText(value, k);
    assert [] + k == k && [] + Put(value, k) == Put(value, k);
  }

  lemma {:induction false} BoxedValid(value: Cst)
    requires Valid(value)
    ensures Valid(Boxed(value))
  {
    var members := Boxed(value).members;
    assert AllWs([]) && ValidItems([]);
    hide AllWs, ValidItems;
    assert ValidElem(members[0].slot) && ValidPair(members[0]) && members[1..] == [] && ValidPairs([]);
    assert ValidPairs(members);
  }

  lemma {:induction false} BoxedText(value: Cst)
    requires Valid(value)
    ensures Valid(Boxed(value)) && Text(Boxed(value)) == [123, 34, 34, 58] + Text(value) + [125]
  {
    BoxedValid(value);
    BoxedPairs(value);
    hide Text, PutPair, Valid, PutPairs, PutElem;
    EmptyKeyed(Elem([], value, []), [125]);
    PlainElem(value, [125]);
    Boxing(Text(value));
  }

  lemma {:induction false} Boxing(text: PyStr)
    ensures [123] + ([34, 34, 58] + (text + [125])) == [123, 34, 34, 58] + text + [125]
  {
  }

  lemma {:induction false} BoxedPairs(value: Cst)
    ensures Text(Boxed(value)) == [123] + PutPair(Pair([], [], [], Elem([], value, [])), [125])
  {
    hide PutPair;
    var members := Boxed(value).members;
    assert [RBRACE] + [] == [125] && PutPairs(members, []) == PutPair(members[0], [125]);
  }

  lemma {:induction false} BoxedValue(value: Cst)
    requires Valid(value) && Valid(Boxed(value))
    ensures Eval(Boxed(value)) == Obj([Member([], Eval(value))])
  {
    var members := Boxed(value).members;
    assert members[1..] == [] && ValidPair(members[0]) && ValidElem(members[0].slot);
    assert EvalPairs([], Assign([], Chars([]), Eval(value))) == [Member([], Eval(value))];
  }

  /** A value in an object is found, whatever follows the object. */
  lemma {:induction false} ValueIsRead(value: Cst, text: PyStr, suffix: PyStr)
    requires Valid(value) && Text(value) == text
    ensures var o := [123, 34, 34, 58] + text + [125];
      ObjectAt(o + suffix, 0) == Some(o) && Loads(o) == Some(Obj([Member([], Eval(value))]))
  {
    BoxedText(value);
    BoxedValue(value);
    ObjectThenAnything(Boxed(value), suffix);
    DocumentLoads(Boxed(value));
  }

  /** The words null, true, false, NaN, Infinity and -Infinity. */
  function WordText(i: nat): PyStr
    requires i < 6
  {
    if i == 0 then [110, 117, 108, 108]
    else if i == 1 then [116, 114, 117, 101]
    else if i == 2 then [102, 97, 108, 115, 101]
    else if i == 3 then [78, 97, 78]
    else if i == 4 then [73, 110, 102, 105, 110, 105, 116, 121]
    else [45, 73, 110, 102, 105, 110, 105, 116, 121]
  }

  lemma {:induction false} WordsAreRead(i: nat, suffix: PyStr)
    requires i < 6
    ensures var o := [123, 34, 34, 58] + WordText(i) + [125];
      && ObjectAt(o + suffix, 0) == Some(o)
      && Loads(o) == Some(Obj([Member([],
           if i == 0 then Null else if i == 1 then Bool(true) else if i == 2 then Bool(false)
           else Float(WordText(i)))]))
  {
    var word := Word(WordText(i));
    assert WordText(i) == Words()[i] && Valid(word);
    assert Text(word) == WordText(i) + [] && WordText(i) + [] == WordText(i);
    assert Of("null") == WordText(0) && Of("true") == WordText(1) && Of("false") == WordText(2);
    ValueIsRead(word, WordText(i), suffix);
  }

  predicate Numerals(s: PyStr) {
    forall i :: 0 <= i < |s| ==> 48 <= s[i] <= 57
  }

  /** An integer: a minus or none, and digits of which only a lone one may be 0 in front. */
  lemma {:induction false} IntegersAreRead(minus: bool, digits: PyStr, suffix: PyStr)
    requires digits != [] && Numerals(digits) && (digits[0] == 48 ==> |digits| == 1)
    ensures var o := [123, 34, 34, 58] + ((if minus then [45] else []) + digits) + [125];
      && ObjectAt(o + suffix, 0) == Some(o)
      && Loads(o) == Some(Obj([Member([],
           Int(if minus then -(Decimal.ValueOf(digits) as int) else Decimal.ValueOf(digits)))]))
  {
    var number := Number(minus, digits, [], NoExp);
    IntegerText(minus, digits);
    hide ObjectAt, Loads, Valid, Text;
    ValueIsRead(number, (if minus then [45] else []) + digits, suffix);
  }

  lemma {:induction false} IntegerText(minus: bool, digits: PyStr)
    requires digits != [] && Numerals(digits) && (digits[0] == 48 ==> |digits| == 1)
    ensures var number := Number(minus, digits, [], NoExp);
      && Valid(number) && Text(number) == (if minus then [45] else []) + digits
      && Eval(number) == Int(if minus then -(Decimal.ValueOf(digits) as int) else Decimal.ValueOf(digits))
  {
    var number := Number(minus, digits, [], NoExp);
    assert Decimal.AllDigits(digits) && Valid(number);
    assert Text(number) == PutInteger(minus, digits, []) && digits + [] == digits && [] + digits == digits;
    hide Valid, Numerals, Put, Text;
    assert Eval(number) == Int(if minus then -(Decimal.ValueOf(digits) as int) else Decimal.ValueOf(digits));
  }

  /** A float: digits after a dot, an exponent with e or E and a sign or none, or both. Its literal is kept. */
  lemma {:induction false} FloatsAreRead(minus: bool, digits: PyStr, frac: PyStr, upper: bool, sign: PyStr, exp: PyStr,
      suffix: PyStr)
    requires digits != [] && Numerals(digits) && (digits[0] == 48 ==> |digits| == 1)
    requires Numerals(frac) && Numerals(exp) && (frac != [] || exp != [])
    requires sign == [] || sign == [43] || sign == [45]
    ensures var fraction := if frac == [] then [] else [46] + frac;
      var power := if exp == [] then [] else [if upper then 69 else 101] + sign + exp;
      var text := (if minus then [45] else []) + digits + fraction + power;
      var o := [123, 34, 34, 58] + text + [125];
      ObjectAt(o + suffix, 0) == Some(o) && Loads(o) == Some(Obj([Member([], Float(text))]))
  {
    var fraction := if frac == [] then [] else [46] + frac;
    var marker: CodePoint := if upper then 69 else 101;
    var power := if exp == [] then [] else [marker] + sign + exp;
    var number := Number(minus, digits, frac, if exp == [] then NoExp else Exp(marker, sign, exp));
    assert Decimal.AllDigits(digits) && Decimal.AllDigits(frac) && Decimal.AllDigits(exp) && Valid(number);
    ExponentText(number.exp, power);
    FloatText(number, fraction, power);
    ValueIsRead(number, (if minus then [45] else []) + digits + fraction + power, suffix);
  }

  lemma {:induction false} ExponentText(e: Exponent, power: PyStr)
    requires power == if e.NoExp? then [] else [e.marker] + e.sign + e.digits
    ensures PutExponent(e, []) == power
  {
    if e.Exp? {
      assert e.digits + [] == e.digits && [e.marker] + (e.sign + e.digits) == [e.marker] + e.sign + e.digits;
    }
  }

  lemma {:induction false} FloatText(number: Cst, fraction: PyStr, power: PyStr)
    requires number.Number? && PutExponent(number.exp, []) == power
    requires fraction == if number.frac == [] then [] else [46] + number.frac
    ensures Text(number) == (if number.minus then [45] else []) + number.whole + fraction + power
  {
    assert PutFraction(number.frac, power) == fraction + power by {
      assert [46] + (number.frac + power) == [46] + number.frac + power && [] + power == power;
    }
    assert Text(number) == PutInteger(number.minus, number.whole, fraction + power);
    hide PutFraction, PutExponent, Put;
    Parted(number.whole, fraction, power);
  }

  lemma {:induction false} Parted(whole: PyStr, fraction: PyStr, power: PyStr)
    ensures [45] + (whole + (fraction + power)) == [45] + whole + fraction + power
    ensures whole + (fraction + power) == [] + whole + fraction + power
  {
  }

  /** {"":[0,{}],"":[]} with any text behind it; the later value of the repeated key counts. */
  lemma {:induction false} SeparatorsAreRead(suffix: PyStr)
    ensures var o := [123, 34, 34, 58, 91, 48, 44, 123, 125, 93, 44, 34, 34, 58, 91, 93, 125];
      ObjectAt(o + suffix, 0) == Some(o) && Loads(o) == Some(Obj([Member([], Arr([]))]))
  {
    var zero := Elem([], Number(false, [48], [], NoExp), []);
    var none := Elem([], Object([], []), []);
    var list := Array([], [zero, none]);
    var (first, second) := (Pair([], [], [], Elem([], list, [])), Pair([], [], [], Elem([], Array([], []), [])));
    var c := Object([], [first, second]);
    ListValid(zero, none);
    SeparatorsValid(c, list, first, second);
    SeparatorsText(first, second, Array([], []));
    ObjectThenAnything(c, suffix);
    DocumentLoads(c);
  }

  lemma {:induction false} ListValid(zero: Elem, none: Elem)
    requires zero == Elem([], Number(false, [48], [], NoExp), []) && none == Elem([], Object([], []), [])
    ensures Valid(Array([], [zero, none])) && Text(Array([], [zero, none])) == [91, 48, 44, 123, 125, 93]
  {
    var elems := [zero, none];
    assert Decimal.Numeral([48]) && Valid(zero.value) && ValidElem(zero) && ValidElem(none);
    assert elems[1..] == [none] && [none][1..] == [] && ValidElems([none]) && ValidElems(elems);
    hide Valid, ValidElem, ValidElems, PutElem;
    TwoElems(zero, none);
    PlainElem(none.value, [93]);
    assert Text(none.value) == [123, 125] && Text(zero.value) == [48];
    assert [44] + ([123, 125] + [93]) == [44, 123, 125, 93];
    PlainElem(zero.value, [44, 123, 125, 93]);
    assert [91] + ([48] + [44, 123, 125, 93]) == [91, 48, 44, 123, 125, 93];
  }

  lemma {:induction false} SeparatorsText(first: Pair, second: Pair, value: Cst)
    requires value == Array([], []) && second == Pair([], [], [], Elem([], value, []))
    requires first.before == [] && first.key == [] && first.mid == [] && first.slot == Elem([], first.slot.value, [])
    requires Text(first.slot.value) == [91, 48, 44, 123, 125, 93]
    ensures Text(Object([], [first, second])) ==
      [123, 34, 34, 58, 91, 48, 44, 123, 125, 93, 44, 34, 34, 58, 91, 93, 125]
  {
    assert Text(value) == [91, 93];
    hide Text, PutPair, PutElem;
    TwoPairs(first, second);
    EmptyKeyed(second.slot, [125]);
    PlainElem(value, [125]);
    var (a, b) := ([91, 48, 44, 123, 125, 93], [44, 34, 34, 58, 91, 93, 125]);
    assert [44] + ([34, 34, 58] + ([91, 93] + [125])) == b;
    EmptyKeyed(first.slot, b);
    PlainElem(first.slot.value, b);
    ListThenList(a, b);
  }

  lemma {:induction false} ListThenList(a: PyStr, b: PyStr)
    requires a == [91, 48, 44, 123, 125, 93] && b == [44, 34, 34, 58, 91, 93, 125]
    ensures [123] + ([34, 34, 58] + (a + b)) ==
      [123, 34, 34, 58, 91, 48, 44, 123, 125, 93, 44, 34, 34, 58, 91, 93, 125]
  {
  }

  lemma {:induction false} TwoPairs(a: Pair, b: Pair)
    ensures Text(Object([], [a, b])) == [123] + PutPair(a, [44] + PutPair(b, [125]))
  {
    var members := [a, b];
    hide PutPair;
    assert [RBRACE] + [] == [125] && members[1..] == [b] && [b][0] == b;
    assert PutPairs([b], []) == PutPair(b, [125]);
    assert PutPairs(members, []) == PutPair(a, [COMMA] + PutPairs(members[1..], []));
  }

  lemma {:induction false} TwoElems(a: Elem, b: Elem)
    ensures Text(Array([], [a, b])) == [91] + PutElem(a, [44] + PutElem(b, [93]))
  {
    var elems := [a, b];
    hide PutElem;
    assert [RBRACKET] + [] == [93] && elems[1..] == [b] && [b][0] == b;
    assert PutElems([b], []) == PutElem(b, [93]);
    assert PutElems(elems, []) == PutElem(a, [COMMA] + PutElems(elems[1..], []));
  }

  lemma {:induction false} SeparatorsValid(c: Cst, list: Cst, first: Pair, second: Pair)
    requires Valid(list) && first == Pair([], [], [], Elem([], list, []))
    requires second == Pair([], [], [], Elem([], Array([], []), [])) && c == Object([], [first, second])
    ensures Valid(c) && Eval(c) == Obj([Member([], Arr([]))])
  {
    var (members, none) := ([first, second], Array([], []));
    assert AllWs([]) && ValidItems([]) && Valid(none) && Eval(none) == Arr([]) && Chars([]) == [];
    hide AllWs, ValidItems, Eval, Chars;
    assert ValidElem(first.slot) && ValidElem(second.slot) && ValidPair(first) && ValidPair(second);
    assert members[1..] == [second] && [second][1..] == [] && ValidPairs([]);
    assert ValidPairs([second]) && ValidPairs(members) && Valid(c);
    SeparatorsMean(members, list, none);
  }

  lemma {:induction false} SeparatorsMean(members: seq<Pair>, list: Cst, none: Cst)
    requires |members| == 2 && Valid(list) && Valid(none) && Valid(Object([], members))
    requires members[0] == Pair([], [], [], Elem([], list, [])) && members[1] == Pair([], [], [], Elem([], none, []))
    ensures Eval(Object([], members)) == Obj([Member([], Eval(none))])
  {
    assert ValidPairs(members) && ValidPairs(members[1..]) && ValidPair(members[0]) && ValidPair(members[1]);
    assert ValidElem(members[0].slot) && ValidElem(members[1].slot) && members[1..][1..] == [];
    assert Eval(Object([], members)) == Obj(EvalPairs(members, []));
    hide Valid, ValidPair, ValidElem;
    var first := [Member([], Eval(list))];
    assert Chars([]) == [] && Assign([], [], Eval(list)) == first;
    assert Assign(first, [], Eval(none)) == [Member([], Eval(none))];
    assert EvalPairs(members, []) == EvalPairs(members[1..], first);
    assert EvalPairs(members[1..], first) == EvalPairs([], [Member([], Eval(none))]);
  }
}
