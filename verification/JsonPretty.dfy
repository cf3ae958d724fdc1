/** The text that `json.dumps(..., sort_keys=True, indent=2, ensure_ascii=False)` prints, written down directly as
    text, and the printer proved to print it. */
module JsonPretty {
  import opened Basics
  import opened Unicode
  import opened JsonGrammar
  import opened Json
  import Decimal
  import JsonRoundTrip

  /** A line feed and two spaces for every level. */
  function Line(level: nat): PyStr {
    if level == 0 then [10] else Line(level - 1) + [32, 32]
  }

  /** A character inside a string: quote, backslash and control characters are escaped. */
  function Inside(c: CodePoint): PyStr {
    if c == 34 then [92, 34]
    else if c == 92 then [92, 92]
    else if c == 8 then [92, 98]
    else if c == 9 then [92, 116]
    else if c == 10 then [92, 110]
    else if c == 12 then [92, 102]
    else if c == 13 then [92, 114]
    else if c < 16 then Of("\\u000") + [if c < 10 then 48 + c else 87 + c]
    else if c < 32 then Of("\\u001") + [if c < 26 then 32 + c else 71 + c]
    else [c]
  }

  function Quoted(s: PyStr): PyStr {
    [34] + InsideAll(s) + [34]
  }

  function InsideAll(s: PyStr): PyStr {
    if s == [] then [] else Inside(s[0]) + InsideAll(s[1..])
  }

  /** The text of `j` at a nesting level, every dict in the order it has. */
  function Pretty(j: Json, level: nat): PyStr
    decreases j, 0
  {
    match j
    case Null => Of("null")
    case Bool(b) => if b then Of("true") else Of("false")
    case Int(n) => if n < 0 then [45] + Decimal.Digits(-n) else Decimal.Digits(n)
    case Float(literal) => literal
    case Str(s) => Quoted(s)
    case Arr(items) =>
      if items == [] then Of("[]") else Of("[") + Items(items, level + 1) + Line(level) + Of("]")
    case Obj(members) =>
      if members == [] then Of("{}") else Of("{") + Members(members, level + 1) + Line(level) + Of("}")
  }

  function Items(items: seq<Json>, level: nat): PyStr
    requires items != []
  {
    Line(level) + Pretty(items[0], level) + if |items| == 1 then [] else Of(",") + Items(items[1..], level)
  }

  function Members(members: seq<Member>, level: nat): PyStr
    requires members != []
  {
    Line(level) + Quoted(members[0].key) + Of(": ") + Pretty(members[0].value, level) +
      if |members| == 1 then [] else Of(",") + Members(members[1..], level)
  }

  /** The keys of every dict ascend. */
  predicate InKeyOrder(j: Json) {
    match j
    case Arr(items) => forall i :: 0 <= i < |items| ==> InKeyOrder(items[i])
    case Obj(members) =>
      && (forall i, k :: 0 <= i < k < |members| ==> Less(members[i].key, members[k].key))
      && forall i :: 0 <= i < |members| ==> InKeyOrder(members[i].value)
    case _ => true
  }

  /** Text without quotes, backslashes and control characters is printed as it is. */
  lemma {:induction false} PlainIsInside(s: PyStr)
    requires forall i :: 0 <= i < |s| ==> s[i] >= 32 && s[i] != 34 && s[i] != 92
    ensures InsideAll(s) == s
  {
    if s != [] {
      PlainIsInside(s[1..]);
      assert s == [s[0]] + s[1..];
    }
  }

  lemma {:induction false} MembersCons(m: Member, rest: seq<Member>, level: nat)
    ensures Members([m] + rest, level) ==
      Line(level) + Quoted(m.key) + Of(": ") + Pretty(m.value, level) +
        if rest == [] then [] else Of(",") + Members(rest, level)
  {
    assert ([m] + rest)[1..] == rest;
  }

  lemma {:induction false} LineIsNewLine(level: nat)
    ensures NewLine(level) == Line(level)
  {
    if level > 0 {
      LineIsNewLine(level - 1);
      assert NewLine(level) == NewLine(level - 1) + [32, 32];
    }
  }

  lemma {:induction false} PutItemInside(c: CodePoint, k: PyStr)
    ensures PutItem(ItemOf(c), k) == Inside(c) + k
  {
  }

  lemma {:induction false} PutInside(s: PyStr, k: PyStr)
    ensures PutItems(ItemsOf(s), k) == InsideAll(s) + [34] + k
  {
    if s == [] {
      assert [] + [34] + k == [34] + k;
    } else {
      PutInside(s[1..], k);
      PutItemInside(s[0], PutItems(ItemsOf(s[1..]), k));
      assert ItemsOf(s)[1..] == ItemsOf(s[1..]);
      hide Inside;
      Appended(Inside(s[0]), InsideAll(s[1..]), [34], k);
    }
  }

  lemma {:induction false} Appended(a: PyStr, b: PyStr, c: PyStr, k: PyStr)
    ensures a + (b + c + k) == (a + b) + c + k
  {
  }

  lemma {:induction false} PutQuoted(s: PyStr, k: PyStr)
    ensures [QUOTE] + PutItems(ItemsOf(s), k) == Quoted(s) + k
  {
    PutInside(s, k);
    assert [34] + (InsideAll(s) + [34] + k) == ([34] + InsideAll(s) + [34]) + k;
  }

  /** What is sorted already stays as it is. */
  lemma {:induction false} SortOfSorted(entries: seq<Entry>)
    requires forall i, k :: 0 <= i < k < |entries| ==> Less(entries[i].key, entries[k].key)
    ensures Sort(entries) == entries
  {
    if entries != [] {
      SortOfSorted(entries[1..]);
      assert |entries| > 1 ==> Less(entries[0].key, entries[1].key);
      assert entries == [entries[0]] + entries[1..];
    }
  }

  lemma {:induction false} PutFloat(literal: PyStr, k: PyStr)
    requires FiniteLiteral(literal)
    ensures Put(ParseNumber(literal).value, k) == literal + k
  {
    NumberSound(literal);
    var c := ParseNumber(literal).value;
    JsonRoundTrip.PutIsText(c, k);
  }

  lemma {:induction false} PutPretty(j: Json, level: nat, k: PyStr)
    requires WellFormed(j) && AllFinite(j) && InKeyOrder(j)
    ensures Put(Render(j, level), k) == Pretty(j, level) + k
    decreases j, 3
  {
    match j {
      case Null =>
      case Bool(_) =>
      case Int(n) => PutInt(n, level, k);
      case Float(literal) => PutFloat(literal, k);
      case Str(s) => PutQuoted(s, k);
      case Arr(items) => PutArr(items, level, k);
      case Obj(members) => PutObj(members, level, k);
    }
  }

  lemma {:induction false} PutInt(n: int, level: nat, k: PyStr)
    ensures Put(Render(Int(n), level), k) == Pretty(Int(n), level) + k
  {
    var digits: PyStr := Decimal.Digits(if n < 0 then -n else n);
    assert [MINUS] + (digits + k) == [45] + digits + k;
  }

  lemma {:induction false} Bracketed(open: PyStr, inside: PyStr, line: PyStr, close: PyStr, k: PyStr)
    ensures open + (inside + line + (close + k)) == (open + inside + line + close) + k
  {
  }

  lemma {:induction false} PutArr(items: seq<Json>, level: nat, k: PyStr)
    requires WellFormed(Arr(items)) && AllFinite(Arr(items)) && InKeyOrder(Arr(items))
    ensures Put(Render(Arr(items), level), k) == Pretty(Arr(items), level) + k
    decreases items, 2
  {
    if items == [] {
      assert [LBRACKET] + ([] + ([RBRACKET] + k)) == Of("[]") + k;
    } else {
      PutItemsPretty(items, level, k);
      PutLaidOut(items, level, k);
      hide Items, Line, WellFormed, AllFinite, InKeyOrder, Render, RenderItems, LayoutElems, PutElems, Put;
      Bracketed(Of("["), Items(items, level + 1), Line(level), Of("]"), k);
    }
  }

  lemma {:induction false} PutLaidOut(items: seq<Json>, level: nat, k: PyStr)
    requires items != [] && WellFormed(Arr(items))
    ensures var elems := LayoutElems(RenderItems(items, level + 1), level);
      elems != [] && Put(Render(Arr(items), level), k) == Of("[") + PutElems(elems, k)
  {
    var values := RenderItems(items, level + 1);
    hide WellFormed, PutElems;
    assert Render(Arr(items), level) == Array([], LayoutElems(values, level)) && Of("[") == [LBRACKET];
  }

  lemma {:induction false} PutObj(members: seq<Member>, level: nat, k: PyStr)
    requires WellFormed(Obj(members)) && AllFinite(Obj(members)) && InKeyOrder(Obj(members))
    ensures Put(Render(Obj(members), level), k) == Pretty(Obj(members), level) + k
    decreases members, 2
  {
    if members == [] {
      assert [LBRACE] + ([] + ([RBRACE] + k)) == Of("{}") + k;
    } else {
      PutMembersPretty(members, level, k);
      PutSorted(members, level, k);
      hide Members, Line, WellFormed, AllFinite, InKeyOrder, Render, RenderMembers, LayoutPairs, PutPairs, Put;
      Bracketed(Of("{"), Members(members, level + 1), Line(level), Of("}"), k);
    }
  }

  lemma {:induction false} PutSorted(members: seq<Member>, level: nat, k: PyStr)
    requires members != [] && WellFormed(Obj(members)) && InKeyOrder(Obj(members))
    ensures var pairs := LayoutPairs(RenderMembers(members, level + 1), level);
      pairs != [] && Put(Render(Obj(members), level), k) == Of("{") + PutPairs(pairs, k)
  {
    var entries := RenderMembers(members, level + 1);
    SortOfSorted(entries);
    hide Sort, Less, WellFormed, InKeyOrder, PutPairs;
    assert Render(Obj(members), level) == Object([], LayoutPairs(entries, level)) && Of("{") == [LBRACE];
  }

  /** How the pieces of a line come together: the head, the value, and what follows it. */
  lemma {:induction false} Lined(head: PyStr, value: PyStr, more: PyStr, line: PyStr, last: PyStr)
    ensures head + (value + (line + last)) == (head + value + []) + line + last
    ensures head + (value + (more + line + last)) == (head + value + more) + line + last
  {
  }

  lemma {:induction false} PutItemPretty(j: Json, level: nat, after: PyStr, k: PyStr)
    requires WellFormed(j) && AllFinite(j) && InKeyOrder(j)
    ensures PutElem(Elem(NewLine(level), Render(j, level), after), k) == Line(level) + (Pretty(j, level) + (after + k))
    decreases j, 4
  {
    LineIsNewLine(level);
    PutPretty(j, level, after + k);
  }

  lemma {:induction false} FirstElem(values: seq<Cst>, level: nat, k: PyStr)
    requires values != []
    ensures var first := (after: PyStr, rest: PyStr) => PutElem(Elem(NewLine(level + 1), values[0], after), rest);
      PutElems(LayoutElems(values, level), k) ==
        if |values| == 1 then first(NewLine(level), [RBRACKET] + k)
        else first([], [COMMA] + PutElems(LayoutElems(values[1..], level), k))
  {
    assert LayoutElems(values, level)[1..] == LayoutElems(values[1..], level);
  }

  lemma {:induction false} PutItemsPretty(items: seq<Json>, level: nat, k: PyStr)
    requires items != [] && forall i :: 0 <= i < |items| ==> WellFormed(items[i])
    requires forall i :: 0 <= i < |items| ==> AllFinite(items[i]) && InKeyOrder(items[i])
    ensures PutElems(LayoutElems(RenderItems(items, level + 1), level), k) ==
      Items(items, level + 1) + Line(level) + (Of("]") + k)
    decreases items, 1
  {
    hide PutElem, PutElems, LayoutElems, NewLine, Line, Pretty, Render, Put, InKeyOrder, WellFormed, AllFinite;
    var (values, line, last) := (RenderItems(items, level + 1), Line(level + 1), Of("]") + k);
    FirstElem(values, level, k);
    LineIsNewLine(level);
    assert [RBRACKET] == Of("]") && [COMMA] == Of(",");
    if |items| == 1 {
      PutItemPretty(items[0], level + 1, NewLine(level), last);
      Lined(line, Pretty(items[0], level + 1), [], Line(level), last);
    } else {
      assert values[1..] == RenderItems(items[1..], level + 1);
      PutItemsPretty(items[1..], level, k);
      var (tail, value) := (Items(items[1..], level + 1), Pretty(items[0], level + 1));
      assert Items(items, level + 1) == line + value + (Of(",") + tail);
      hide Items, RenderItems;
      PutItemPretty(items[0], level + 1, [], Of(",") + (tail + Line(level) + last));
      LinedOn(line, value, Of(","), tail, Line(level), last);
    }
  }

  lemma {:induction false} LinedOn(head: PyStr, value: PyStr, comma: PyStr, tail: PyStr, line: PyStr, last: PyStr)
    ensures head + (value + ([] + (comma + (tail + line + last)))) == (head + value + (comma + tail)) + line + last
  {
    var rest := comma + (tail + line + last);
    assert [] + rest == rest && rest == (comma + tail) + line + last;
    Lined(head, value, comma + tail, line, last);
  }

  lemma {:induction false} PutMemberPretty(m: Member, level: nat, after: PyStr, k: PyStr)
    requires WellFormed(m.value) && AllFinite(m.value) && InKeyOrder(m.value)
    ensures PutPair(Pair(NewLine(level), ItemsOf(m.key), [], Elem([32], Render(m.value, level), after)), k) ==
      (Line(level) + Quoted(m.key) + Of(": ")) + (Pretty(m.value, level) + (after + k))
    decreases m, 4
  {
    hide Line, NewLine, Quoted, Pretty, Render, Put, PutItems, InKeyOrder, WellFormed, AllFinite;
    LineIsNewLine(level);
    PutPretty(m.value, level, after + k);
    var value := Pretty(m.value, level) + (after + k);
    assert [] + ([COLON] + ([32] + value)) == Of(": ") + value;
    PutQuoted(m.key, Of(": ") + value);
    Joined(Line(level), Quoted(m.key), Of(": "), value);
  }

  lemma {:induction false} Joined(a: PyStr, b: PyStr, c: PyStr, d: PyStr)
    ensures a + (b + (c + d)) == (a + b + c) + d
  {
  }

  lemma {:induction false} FirstPair(entries: seq<Entry>, level: nat, k: PyStr)
    requires entries != []
    ensures var first := (after: PyStr, rest: PyStr) =>
        PutPair(Pair(NewLine(level + 1), ItemsOf(entries[0].key), [], Elem([32], entries[0].value, after)), rest);
      PutPairs(LayoutPairs(entries, level), k) ==
        if |entries| == 1 then first(NewLine(level), [RBRACE] + k)
        else first([], [COMMA] + PutPairs(LayoutPairs(entries[1..], level), k))
  {
    assert LayoutPairs(entries, level)[1..] == LayoutPairs(entries[1..], level);
  }

  lemma {:induction false} PutMembersPretty(members: seq<Member>, level: nat, k: PyStr)
    requires members != [] && forall i :: 0 <= i < |members| ==> WellFormed(members[i].value)
    requires forall i :: 0 <= i < |members| ==> AllFinite(members[i].value) && InKeyOrder(members[i].value)
    ensures PutPairs(LayoutPairs(RenderMembers(members, level + 1), level), k) ==
      Members(members, level + 1) + Line(level) + (Of("}") + k)
    decreases members, 1
  {
    hide PutPair, PutPairs, LayoutPairs, NewLine, Line, Quoted, Pretty, Render, Put, InKeyOrder, WellFormed, AllFinite;
    var (entries, last) := (RenderMembers(members, level + 1), Of("}") + k);
    var head := Line(level + 1) + Quoted(members[0].key) + Of(": ");
    FirstPair(entries, level, k);
    LineIsNewLine(level);
    assert [RBRACE] == Of("}") && [COMMA] == Of(",");
    if |members| == 1 {
      PutMemberPretty(members[0], level + 1, NewLine(level), last);
      Lined(head, Pretty(members[0].value, level + 1), [], Line(level), last);
    } else {
      assert entries[1..] == RenderMembers(members[1..], level + 1);
      PutMembersPretty(members[1..], level, k);
      var (tail, value) := (Members(members[1..], level + 1), Pretty(members[0].value, level + 1));
      assert Members(members, level + 1) == head + value + (Of(",") + tail);
      hide Members, RenderMembers;
      PutMemberPretty(members[0], level + 1, [], Of(",") + (tail + Line(level) + last));
      LinedOn(head, value, Of(","), tail, Line(level), last);
    }
  }

  lemma {:induction false} DumpsOfOrdered(j: Json)
    requires WellFormed(j) && InKeyOrder(j)
    ensures Dumps(j) == if AllFinite(j) then Some(Pretty(j, 0)) else None
  {
    if AllFinite(j) {
      PutPretty(j, 0, []);
      assert Pretty(j, 0) + [] == Pretty(j, 0);
    }
  }

  // ---- Bringing the keys in order ----

  /** The same value with the members of every dict in key order. */
  function Arranged(j: Json): Json
    decreases j, 0
  {
    match j
    case Arr(items) => Arr(ArrangedItems(items))
    case Obj(members) => Obj(SortMembers(ArrangedValues(members)))
    case _ => j
  }

  function ArrangedItems(items: seq<Json>): (r: seq<Json>)
    ensures |r| == |items| && forall i :: 0 <= i < |items| ==> r[i] == Arranged(items[i])
  {
    if items == [] then [] else [Arranged(items[0])] + ArrangedItems(items[1..])
  }

  function ArrangedValues(members: seq<Member>): (r: seq<Member>)
    ensures |r| == |members|
    ensures forall i :: 0 <= i < |members| ==> r[i] == Member(members[i].key, Arranged(members[i].value))
  {
    if members == [] then []
    else [Member(members[0].key, Arranged(members[0].value))] + ArrangedValues(members[1..])
  }

  function SortMembers(members: seq<Member>): seq<Member> {
    if members == [] then [] else WithMember(members[0], SortMembers(members[1..]))
  }

  function WithMember(m: Member, sorted: seq<Member>): seq<Member> {
    if sorted == [] || Less(m.key, sorted[0].key) then [m] + sorted else [sorted[0]] + WithMember(m, sorted[1..])
  }

  predicate Ascend(members: seq<Member>) {
    forall i, k :: 0 <= i < k < |members| ==> Less(members[i].key, members[k].key)
  }

  lemma {:induction false} WithMemberHolds(m: Member, sorted: seq<Member>)
    ensures forall x :: x in WithMember(m, sorted) <==> x == m || x in sorted
  {
    if sorted != [] && !Less(m.key, sorted[0].key) {
      WithMemberHolds(m, sorted[1..]);
      assert sorted == [sorted[0]] + sorted[1..];
    }
  }

  lemma {:induction false} WithMemberAscends(m: Member, sorted: seq<Member>)
    requires Ascend(sorted) && forall x :: x in sorted ==> x.key != m.key
    ensures Ascend(WithMember(m, sorted))
  {
    if sorted == [] {
    } else if Less(m.key, sorted[0].key) {
      forall k | 0 <= k < |sorted| ensures Less(m.key, sorted[k].key) {
        if k > 0 {
          LessTransitive(m.key, sorted[0].key, sorted[k].key);
        }
      }
    } else {
      LessTotal(m.key, sorted[0].key);
      assert sorted[0] in sorted;
      WithMemberAscends(m, sorted[1..]);
      WithMemberHolds(m, sorted[1..]);
      var rest := WithMember(m, sorted[1..]);
      forall k | 0 <= k < |rest| ensures Less(sorted[0].key, rest[k].key) {
        assert rest[k] in rest;
      }
    }
  }

  lemma {:induction false} SwappedMembers(a: Member, b: Member, rest: seq<Member>)
    requires a.key != b.key
    ensures DenoteMembers([a] + ([b] + rest)) == DenoteMembers([b] + ([a] + rest))
  {
    hide Denote;
    assert ([a] + ([b] + rest))[1..] == [b] + rest && ([b] + rest)[1..] == rest;
    assert ([b] + ([a] + rest))[1..] == [a] + rest && ([a] + rest)[1..] == rest;
  }

  lemma {:induction false} FirstDenotes(m: Member, a: seq<Member>, b: seq<Member>)
    requires DenoteMembers(a) == DenoteMembers(b)
    ensures DenoteMembers([m] + a) == DenoteMembers([m] + b)
  {
    assert ([m] + a)[1..] == a && ([m] + b)[1..] == b;
  }

  lemma {:induction false} WithMemberDenotes(m: Member, sorted: seq<Member>)
    requires forall x :: x in sorted ==> x.key != m.key
    ensures DenoteMembers(WithMember(m, sorted)) == DenoteMembers([m] + sorted)
  {
    if sorted != [] && !Less(m.key, sorted[0].key) {
      hide DenoteMembers, Less;
      assert sorted[0] in sorted && sorted == [sorted[0]] + sorted[1..];
      WithMemberDenotes(m, sorted[1..]);
      FirstDenotes(sorted[0], WithMember(m, sorted[1..]), [m] + sorted[1..]);
      SwappedMembers(m, sorted[0], sorted[1..]);
    }
  }

  lemma {:induction false} SortMembersHolds(members: seq<Member>)
    requires DistinctKeys(members)
    ensures forall x :: x in SortMembers(members) <==> x in members
    ensures Ascend(SortMembers(members)) && DenoteMembers(SortMembers(members)) == DenoteMembers(members)
  {
    if members != [] {
      var (first, rest) := (members[0], members[1..]);
      SortMembersHolds(rest);
      assert members == [first] + rest;
      assert forall x :: x in rest ==> x.key != first.key;
      WithMemberHolds(first, SortMembers(rest));
      WithMemberAscends(first, SortMembers(rest));
      WithMemberDenotes(first, SortMembers(rest));
      assert ([first] + SortMembers(rest))[1..] == SortMembers(rest);
    }
  }

  lemma {:induction false} AscendingIsDistinct(members: seq<Member>)
    requires Ascend(members)
    ensures DistinctKeys(members)
  {
    forall i, k | 0 <= i < k < |members| ensures members[i].key != members[k].key {
      LessTotal(members[i].key, members[k].key);
    }
  }

  predicate Agree(a: Json, b: Json) {
    WellFormed(a) && InKeyOrder(a) && Denote(a) == Denote(b) && (AllFinite(a) <==> AllFinite(b))
  }

  lemma {:induction false} ArrangedIsEqual(j: Json)
    requires WellFormed(j)
    ensures Agree(Arranged(j), j)
  {
    match j {
      case Arr(items) =>
        forall i | 0 <= i < |items| ensures Agree(ArrangedItems(items)[i], items[i]) {
          ArrangedIsEqual(items[i]);
        }
        ItemsAgree(ArrangedItems(items), items);
      case Obj(members) =>
        forall i | 0 <= i < |members| ensures Agree(ArrangedValues(members)[i].value, members[i].value) {
          ArrangedIsEqual(members[i].value);
        }
        MembersAgree(ArrangedValues(members), members);
      case _ =>
    }
  }

  lemma {:induction false} ItemsAgree(a: seq<Json>, b: seq<Json>)
    requires |a| == |b| && forall i :: 0 <= i < |a| ==> Agree(a[i], b[i])
    ensures Agree(Arr(a), Arr(b))
  {
    assert forall i :: 0 <= i < |a| ==> Denote(a[i]) == Denote(b[i]) && (AllFinite(a[i]) <==> AllFinite(b[i]));
    assert DenoteItems(a) == DenoteItems(b);
  }

  lemma {:induction false} SameDenotation(a: seq<Member>, b: seq<Member>)
    requires |a| == |b|
    requires forall i :: 0 <= i < |a| ==> a[i].key == b[i].key && Denote(a[i].value) == Denote(b[i].value)
    ensures DenoteMembers(a) == DenoteMembers(b)
  {
    if a != [] {
      SameDenotation(a[1..], b[1..]);
    }
  }

  predicate FiniteMembers(members: seq<Member>) {
    forall x :: x in members ==> AllFinite(x.value)
  }

  lemma {:induction false} MembersAgree(a: seq<Member>, b: seq<Member>)
    requires |a| == |b| && DistinctKeys(b)
    requires forall i :: 0 <= i < |a| ==> a[i].key == b[i].key && Agree(a[i].value, b[i].value)
    ensures Agree(Obj(SortMembers(a)), Obj(b))
  {
    var sorted := SortMembers(a);
    SortMembersHolds(a);
    AscendingIsDistinct(sorted);
    SameDenotation(a, b);
    forall i | 0 <= i < |sorted| ensures WellFormed(sorted[i].value) && InKeyOrder(sorted[i].value) {
      assert sorted[i] in a;
    }
    FinitenessKept(a, b);
    FiniteByMember(sorted);
    FiniteByMember(a);
    assert InKeyOrder(Obj(sorted)) && WellFormed(Obj(sorted));
  }

  lemma {:induction false} FiniteByMember(members: seq<Member>)
    ensures AllFinite(Obj(members)) <==> FiniteMembers(members)
  {
    if forall i :: 0 <= i < |members| ==> AllFinite(members[i].value) {
      assert FiniteMembers(members);
    } else {
      var i :| 0 <= i < |members| && !AllFinite(members[i].value);
      assert members[i] in members;
    }
  }

  lemma {:induction false} FinitenessKept(a: seq<Member>, b: seq<Member>)
    requires |a| == |b| && forall i :: 0 <= i < |a| ==> Agree(a[i].value, b[i].value)
    ensures AllFinite(Obj(a)) <==> AllFinite(Obj(b))
  {
    assert forall i :: 0 <= i < |a| ==> (AllFinite(a[i].value) <==> AllFinite(b[i].value));
  }

  /** What `dumps` prints of any value: that text, with the keys brought in order. */
  lemma {:induction false} DumpsIsPretty(j: Json)
    requires WellFormed(j)
    ensures Dumps(j) == if AllFinite(j) then Some(Pretty(Arranged(j), 0)) else None
  {
    ArrangedIsEqual(j);
    if AllFinite(j) {
      JsonRoundTrip.DumpsIsCanonical(j, Arranged(j));
      DumpsOfOrdered(Arranged(j));
    }
  }
}
