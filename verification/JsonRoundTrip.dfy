/** `loads` inverts `dumps`, and the text is canonical: it is the same exactly for values
    that are equal under Python's `==`, in whatever order their dicts were filled. */
module JsonRoundTrip {
  import opened Basics
  import opened Unicode
  import opened JsonGrammar
  import opened Json

  // ---- Texts and what follows them ----

  lemma {:induction false} PutItemsThen(items: seq<StrItem>, a: PyStr, b: PyStr)
    ensures PutItems(items, a + b) == PutItems(items, a) + b
  {
    if items != [] {
      PutItemsThen(items[1..], a, b);
      if items[0].Hex? {
        var k := PutItems(items[1..], a);
        assert items[0].digits + (k + b) == (items[0].digits + k) + b;
      }
    }
  }

  lemma {:induction false} Assoc(a: PyStr, b: PyStr, c: PyStr)
    ensures (a + b) + c == a + (b + c)
  {
  }

  lemma {:induction false} PutNumberThen(c: Cst, a: PyStr, b: PyStr)
    requires c.Number?
    ensures Put(c, a + b) == Put(c, a) + b
  {
  }

  lemma {:induction false} PutThen(c: Cst, a: PyStr, b: PyStr)
    ensures Put(c, a + b) == Put(c, a) + b
    decreases c, 0
  {
    if c.Number? {
      PutNumberThen(c, a, b);
    } else if c.String? {
      PutItemsThen(c.items, a, b);
    } else if c.Array? && c.elems != [] {
      PutElemsThen(c.elems, a, b);
    } else if c.Object? && c.members != [] {
      PutPairsThen(c.members, a, b);
    }
  }

  lemma {:induction false} PutElemThen(e: Elem, a: PyStr, b: PyStr)
    ensures PutElem(e, a + b) == PutElem(e, a) + b
    decreases e, 1
  {
    assert e.after + (a + b) == (e.after + a) + b;
    PutThen(e.value, e.after + a, b);
  }

  lemma {:induction false} PutElemsThen(elems: seq<Elem>, a: PyStr, b: PyStr)
    requires elems != []
    ensures PutElems(elems, a + b) == PutElems(elems, a) + b
    decreases elems, 2
  {
    if |elems| == 1 {
      assert [RBRACKET] + (a + b) == ([RBRACKET] + a) + b;
      PutElemThen(elems[0], [RBRACKET] + a, b);
    } else {
      PutElemsThen(elems[1..], a, b);
      var k := PutElems(elems[1..], a);
      assert [COMMA] + (k + b) == ([COMMA] + k) + b;
      PutElemThen(elems[0], [COMMA] + k, b);
    }
  }

  lemma {:induction false} PutPairThen(m: Pair, a: PyStr, b: PyStr)
    ensures PutPair(m, a + b) == PutPair(m, a) + b
    decreases m, 1
  {
    PutElemThen(m.slot, a, b);
    var slot := PutElem(m.slot, a);
    var k := m.mid + ([COLON] + slot);
    Assoc([COLON], slot, b);
    Assoc(m.mid, [COLON] + slot, b);
    PutItemsThen(m.key, k, b);
    Assoc([QUOTE], PutItems(m.key, k), b);
    Assoc(m.before, [QUOTE] + PutItems(m.key, k), b);
  }

  lemma {:induction false} PutPairsThen(members: seq<Pair>, a: PyStr, b: PyStr)
    requires members != []
    ensures PutPairs(members, a + b) == PutPairs(members, a) + b
    decreases members, 2
  {
    if |members| == 1 {
      assert [RBRACE] + (a + b) == ([RBRACE] + a) + b;
      PutPairThen(members[0], [RBRACE] + a, b);
    } else {
      PutPairsThen(members[1..], a, b);
      var k := PutPairs(members[1..], a);
      assert [COMMA] + (k + b) == ([COMMA] + k) + b;
      PutPairThen(members[0], [COMMA] + k, b);
    }
  }

  lemma {:induction false} PutIsText(c: Cst, k: PyStr)
    ensures Put(c, k) == Text(c) + k
  {
    assert [] + k == k;
    PutThen(c, [], k);
  }

  /** A document is a value with whitespace around it. */
  lemma {:induction false} DocumentComplete(c: Cst, w: PyStr)
    requires Valid(c) && AllWs(w)
    ensures ParseDocument(Put(c, w)) == Some(c)
  {
    PutHead(c, w);
    WsOf([], Put(c, w));
    assert [] + Put(c, w) == Put(c, w);
    ValueComplete(c, w);
    WsOf(w, []);
    assert w + [] == w;
  }

  // ---- Rendered trees are trees of the grammar ----

  lemma {:induction false} LayoutElemsValid(values: seq<Cst>, level: nat)
    requires forall i :: 0 <= i < |values| ==> Valid(values[i])
    ensures ValidElems(LayoutElems(values, level))
  {
    if values != [] {
      LayoutElemsValid(values[1..], level);
      assert ValidElem(LayoutElems(values, level)[0]);
      assert LayoutElems(values, level)[1..] == LayoutElems(values[1..], level);
    }
  }

  lemma {:induction false} LayoutPairsValid(entries: seq<Entry>, level: nat)
    requires forall i :: 0 <= i < |entries| ==> Valid(entries[i].value)
    ensures ValidPairs(LayoutPairs(entries, level))
  {
    if entries != [] {
      LayoutPairsValid(entries[1..], level);
      var m := LayoutPairs(entries, level)[0];
      assert ValidElem(m.slot) && ValidPair(m);
      assert LayoutPairs(entries, level)[1..] == LayoutPairs(entries[1..], level);
    }
  }

  lemma {:induction false} WordsValid()
    ensures Of("null") in Words() && Of("true") in Words() && Of("false") in Words()
    ensures NAN in Words() && INFINITY in Words() && MINUS_INFINITY in Words()
  {
  }

  lemma {:induction false} SortValid(entries: seq<Entry>)
    requires forall i :: 0 <= i < |entries| ==> Valid(entries[i].value)
    ensures forall i :: 0 <= i < |Sort(entries)| ==> Valid(Sort(entries)[i].value)
  {
    SortPermutes(entries);
    forall i | 0 <= i < |Sort(entries)| ensures Valid(Sort(entries)[i].value) {
      assert Sort(entries)[i] in multiset(entries);
    }
  }

  lemma {:induction false} RenderValid(j: Json, level: nat)
    requires WellFormed(j)
    ensures Valid(Render(j, level))
    decreases j
  {
    match j {
      case Float(literal) =>
        if !NonFinite(literal) {
          NumberSound(literal);
        }
        WordsValid();
      case Null => WordsValid();
      case Bool(b) => WordsValid();
      case Arr(items) =>
        forall i | 0 <= i < |items| ensures Valid(Render(items[i], level + 1)) {
          RenderValid(items[i], level + 1);
        }
        LayoutElemsValid(RenderItems(items, level + 1), level);
      case Obj(members) =>
        forall i | 0 <= i < |members| ensures Valid(Render(members[i].value, level + 1)) {
          RenderValid(members[i].value, level + 1);
        }
        var entries := RenderMembers(members, level + 1);
        SortValid(entries);
        LayoutPairsValid(Sort(entries), level);
      case Int(_) =>
      case Str(_) =>
    }
  }

  // ---- Sorting ----

  predicate DistinctEntries(entries: seq<Entry>) {
    forall i, j :: 0 <= i < j < |entries| ==> entries[i].key != entries[j].key
  }

  predicate Ascending(entries: seq<Entry>) {
    forall i, j :: 0 <= i < j < |entries| ==> Less(entries[i].key, entries[j].key)
  }

  lemma {:induction false} InsertPermutes(e: Entry, sorted: seq<Entry>)
    ensures multiset(Insert(e, sorted)) == multiset(sorted) + multiset{e}
  {
    if sorted != [] && !Less(e.key, sorted[0].key) {
      InsertPermutes(e, sorted[1..]);
      assert sorted == [sorted[0]] + sorted[1..];
    }
  }

  lemma {:induction false} SortPermutes(entries: seq<Entry>)
    ensures multiset(Sort(entries)) == multiset(entries)
  {
    if entries != [] {
      SortPermutes(entries[1..]);
      InsertPermutes(entries[0], Sort(entries[1..]));
      assert entries == [entries[0]] + entries[1..];
    }
  }

  lemma {:induction false} ConsAscends(e: Entry, tail: seq<Entry>)
    requires Ascending(tail) && (tail != [] ==> Less(e.key, tail[0].key))
    ensures Ascending([e] + tail)
  {
    forall i | 1 <= i < |tail| ensures Less(e.key, tail[i].key) {
      LessTransitive(e.key, tail[0].key, tail[i].key);
    }
  }

  lemma {:induction false} InsertAscends(e: Entry, sorted: seq<Entry>)
    requires Ascending(sorted) && forall i :: 0 <= i < |sorted| ==> sorted[i].key != e.key
    ensures Ascending(Insert(e, sorted))
    ensures Insert(e, sorted) != []
    ensures Insert(e, sorted)[0] == e || (sorted != [] && Insert(e, sorted)[0] == sorted[0])
  {
    if sorted == [] || Less(e.key, sorted[0].key) {
      ConsAscends(e, sorted);
    } else {
      LessTotal(e.key, sorted[0].key);
      InsertAscends(e, sorted[1..]);
      ConsAscends(sorted[0], Insert(e, sorted[1..]));
    }
  }

  lemma {:induction false} SortAscends(entries: seq<Entry>)
    requires DistinctEntries(entries)
    ensures Ascending(Sort(entries))
  {
    if entries != [] {
      SortAscends(entries[1..]);
      SortPermutes(entries[1..]);
      var sorted := Sort(entries[1..]);
      forall i | 0 <= i < |sorted| ensures sorted[i].key != entries[0].key {
        assert sorted[i] in multiset(entries[1..]);
      }
      InsertAscends(entries[0], sorted);
    }
  }

  lemma {:induction false} HeadIsNew(a: seq<Entry>)
    requires a != [] && Ascending(a)
    ensures forall e :: e in a[1..] <==> e in a && e != a[0]
  {
    forall i | 1 <= i < |a| ensures a[i] != a[0] && a[i] in a[1..] {
      LessTotal(a[0].key, a[i].key);
      assert a[1..][i - 1] == a[i];
    }
  }

  /** An ascending list is determined by its set of entries. */
  lemma {:induction false} HeadsAgree(a: seq<Entry>, b: seq<Entry>)
    requires a != [] && b != [] && Ascending(a) && Ascending(b) && a[0] in b && b[0] in a
    ensures a[0] == b[0]
  {
    var i :| 0 <= i < |b| && b[i] == a[0];
    var j :| 0 <= j < |a| && a[j] == b[0];
    LessTotal(a[0].key, b[0].key);
    assert i == 0 && j == 0;
  }

  lemma {:induction false} AscendingUnique(a: seq<Entry>, b: seq<Entry>)
    requires Ascending(a) && Ascending(b) && forall e :: e in a <==> e in b
    ensures a == b
  {
    assert forall i :: 0 <= i < |a| ==> a[i] in b;
    assert forall i :: 0 <= i < |b| ==> b[i] in a;
    if a != [] && b != [] {
      assert a[0] in b && b[0] in a;
      HeadsAgree(a, b);
      HeadIsNew(a);
      HeadIsNew(b);
      forall e ensures e in a[1..] <==> e in b[1..] {
        assert e in a[1..] <==> e in a && e != a[0];
        assert e in b[1..] <==> e in b && e != b[0];
      }
      AscendingUnique(a[1..], b[1..]);
    }
  }

  // ---- Strings ----

  lemma {:induction false} CharsOfItems(s: PyStr)
    ensures Chars(ItemsOf(s)) == s
  {
    if s != [] {
      CharsOfItems(s[1..]);
      var items := ItemsOf(s);
      assert items[1..] == ItemsOf(s[1..]);
      assert items[0] == ItemOf(s[0]);
      assert Chars(items) == [s[0]] + Chars(items[1..]);
    }
  }

  // ---- Dicts ----

  lemma {:induction false} DenoteMembersAt(members: seq<Member>)
    requires DistinctKeys(members)
    ensures forall i :: 0 <= i < |members| ==>
      members[i].key in DenoteMembers(members) && DenoteMembers(members)[members[i].key] == Denote(members[i].value)
    ensures forall k :: k in DenoteMembers(members) ==> exists i :: 0 <= i < |members| && members[i].key == k
  {
    if members != [] {
      DenoteMembersAt(members[1..]);
      var m := DenoteMembers(members[1..]);
      forall k | k in DenoteMembers(members) ensures exists i :: 0 <= i < |members| && members[i].key == k {
        if k in m {
          var i :| 0 <= i < |members[1..]| && members[1..][i].key == k;
          assert members[i + 1].key == k;
        } else {
          assert members[0].key == k;
        }
      }
      forall i | 1 <= i < |members|
        ensures members[i].key in DenoteMembers(members) &&
          DenoteMembers(members)[members[i].key] == Denote(members[i].value)
      {
        assert members[i] == members[1..][i - 1];
      }
      assert members[0].key !in m;
    }
  }

  function MembersOf(entries: seq<Entry>): (r: seq<Member>)
    requires forall i :: 0 <= i < |entries| ==> Valid(entries[i].value)
    ensures |r| == |entries|
    ensures forall i :: 0 <= i < |entries| ==> r[i] == Member(entries[i].key, Eval(entries[i].value))
  {
    if entries == [] then [] else [Member(entries[0].key, Eval(entries[0].value))] + MembersOf(entries[1..])
  }

  lemma {:induction false} AssignFresh(dict: seq<Member>, key: PyStr, value: Json)
    requires forall i :: 0 <= i < |dict| ==> dict[i].key != key
    ensures Assign(dict, key, value) == dict + [Member(key, value)]
  {
    if dict != [] {
      AssignFresh(dict[1..], key, value);
      assert dict == [dict[0]] + dict[1..];
    }
  }

  predicate FreshKeys(dict: seq<Member>, entries: seq<Entry>) {
    forall i, j :: 0 <= i < |dict| && 0 <= j < |entries| ==> dict[i].key != entries[j].key
  }

  lemma {:induction false} FreshStep(dict: seq<Member>, entries: seq<Entry>, value: Json)
    requires entries != [] && DistinctEntries(entries) && FreshKeys(dict, entries)
    ensures DistinctEntries(entries[1..]) && FreshKeys(dict + [Member(entries[0].key, value)], entries[1..])
  {
  }

  lemma {:induction false} EvalFirstPair(entries: seq<Entry>, level: nat, dict: seq<Member>)
    requires entries != [] && ValidPairs(LayoutPairs(entries, level)) && Valid(entries[0].value)
    requires FreshKeys(dict, entries)
    ensures ValidPairs(LayoutPairs(entries[1..], level))
    ensures EvalPairs(LayoutPairs(entries, level), dict) ==
      EvalPairs(LayoutPairs(entries[1..], level), dict + [Member(entries[0].key, Eval(entries[0].value))])
  {
    var pairs, e := LayoutPairs(entries, level), entries[0];
    assert pairs[1..] == LayoutPairs(entries[1..], level) && ValidPair(pairs[0]);
    CharsOfItems(e.key);
    AssignFresh(dict, e.key, Eval(e.value));
  }

  lemma {:induction false} EvalLayoutPairs(entries: seq<Entry>, level: nat, dict: seq<Member>)
    requires forall i :: 0 <= i < |entries| ==> Valid(entries[i].value)
    requires DistinctEntries(entries) && FreshKeys(dict, entries)
    requires ValidPairs(LayoutPairs(entries, level))
    ensures EvalPairs(LayoutPairs(entries, level), dict) == dict + MembersOf(entries)
    decreases |entries|
  {
    if entries != [] {
      var first := Member(entries[0].key, Eval(entries[0].value));
      EvalFirstPair(entries, level, dict);
      FreshStep(dict, entries, first.value);
      EvalLayoutPairs(entries[1..], level, dict + [first]);
      AppendMembers(dict, first, MembersOf(entries[1..]));
    }
  }

  lemma {:induction false} AppendMembers(dict: seq<Member>, first: Member, rest: seq<Member>)
    ensures (dict + [first]) + rest == dict + ([first] + rest)
  {
  }

  lemma {:induction false} EvalLayoutElems(values: seq<Cst>, level: nat)
    requires forall i :: 0 <= i < |values| ==> Valid(values[i])
    requires ValidElems(LayoutElems(values, level))
    ensures var r := EvalElems(LayoutElems(values, level));
      |r| == |values| && forall i :: 0 <= i < |values| ==> r[i] == Eval(values[i])
  {
    if values != [] {
      var elems := LayoutElems(values, level);
      assert elems[1..] == LayoutElems(values[1..], level) && ValidElem(elems[0]);
      EvalLayoutElems(values[1..], level);
    }
  }

  // ---- Round trip ----

  /** Reading a rendered tree gives the value back, up to the order of its dicts. */
  lemma {:induction false} EvalOfRender(j: Json, level: nat)
    requires WellFormed(j)
    ensures Valid(Render(j, level)) && Denote(Eval(Render(j, level))) == Denote(j)
    decreases j
  {
    RenderValid(j, level);
    match j {
      case Int(n) => Decimal.ValueOfDigits(if n < 0 then -n else n);
      case Float(literal) => FloatOfRender(literal, level);
      case Str(s) => CharsOfItems(s);
      case Arr(items) =>
        var values := RenderItems(items, level + 1);
        forall i | 0 <= i < |items|
          ensures Valid(values[i]) && Denote(Eval(values[i])) == Denote(items[i])
        {
          EvalOfRender(items[i], level + 1);
        }
        EvalLayoutElems(values, level);
        assert DenoteItems(EvalElems(LayoutElems(values, level))) == DenoteItems(items);
      case Obj(members) =>
        forall i | 0 <= i < |members|
          ensures Valid(Render(members[i].value, level + 1))
          ensures Denote(Eval(Render(members[i].value, level + 1))) == Denote(members[i].value)
        {
          EvalOfRender(members[i].value, level + 1);
        }
        MembersOfRender(members, level);
      case Null => assert Of("null")[0] == 110;
      case Bool(b) => assert Of("true")[0] == 116 && Of("false")[0] == 102 && Of("null")[0] == 110;
    }
  }

  lemma {:induction false} FloatOfRender(literal: PyStr, level: nat)
    requires WellFormed(Float(literal)) && Valid(Render(Float(literal), level))
    ensures Eval(Render(Float(literal), level)) == Float(literal)
  {
    if NonFinite(literal) {
      assert Of("NaN")[0] == 78 && Of("Infinity")[0] == 73 && Of("-Infinity")[0] == 45;
      assert Of("null")[0] == 110 && Of("true")[0] == 116 && Of("false")[0] == 102;
    } else {
      NumberSound(literal);
    }
  }

  /** The entries of `members` in sorted order: the same entries, each at most once. */
  lemma {:induction false} SortedEntries(members: seq<Member>, level: nat)
    requires WellFormed(Obj(members))
    ensures var entries := RenderMembers(members, level);
      DistinctEntries(Sort(entries)) && Ascending(Sort(entries)) && forall e :: e in Sort(entries) <==> e in entries
  {
    var entries := RenderMembers(members, level);
    var sorted := Sort(entries);
    SortPermutes(entries);
    SortAscends(entries);
    forall e ensures e in sorted <==> e in entries {
      assert e in sorted <==> e in multiset(sorted);
      assert e in entries <==> e in multiset(entries);
    }
    forall i, j | 0 <= i < j < |sorted| ensures sorted[i].key != sorted[j].key {
      LessTotal(sorted[i].key, sorted[j].key);
    }
  }

  lemma {:induction false} EvalSorted(sorted: seq<Entry>, level: nat)
    requires forall i :: 0 <= i < |sorted| ==> Valid(sorted[i].value)
    requires DistinctEntries(sorted) && ValidPairs(LayoutPairs(sorted, level))
    ensures EvalPairs(LayoutPairs(sorted, level), []) == MembersOf(sorted)
  {
    EvalLayoutPairs(sorted, level, []);
    assert [] + MembersOf(sorted) == MembersOf(sorted);
  }

  lemma {:induction false} EntriesDenote(members: seq<Member>, level: nat, entries: seq<Entry>, sorted: seq<Entry>)
    requires WellFormed(Obj(members)) && entries == RenderMembers(members, level) && sorted == Sort(entries)
    requires forall i :: 0 <= i < |members| ==>
      && Valid(Render(members[i].value, level))
      && Denote(Eval(Render(members[i].value, level))) == Denote(members[i].value)
    ensures DistinctEntries(sorted) && forall i :: 0 <= i < |sorted| ==> Valid(sorted[i].value)
    ensures DenoteMembers(MembersOf(sorted)) == DenoteMembers(members)
  {
    SortedEntries(members, level);
    forall i | 0 <= i < |sorted| ensures Valid(sorted[i].value) {
      assert sorted[i] in entries;
    }
    SameDict(members, entries, sorted);
  }

  lemma {:induction false} MembersOfRender(members: seq<Member>, level: nat)
    requires WellFormed(Obj(members)) && ValidPairs(Render(Obj(members), level).members)
    requires forall i :: 0 <= i < |members| ==>
      && Valid(Render(members[i].value, level + 1))
      && Denote(Eval(Render(members[i].value, level + 1))) == Denote(members[i].value)
    ensures DenoteMembers(EvalPairs(Render(Obj(members), level).members, [])) == DenoteMembers(members)
  {
    var entries := RenderMembers(members, level + 1);
    var sorted := Sort(entries);
    EntriesDenote(members, level + 1, entries, sorted);
    EvalSorted(sorted, level);
  }

  lemma {:induction false} SameDict(members: seq<Member>, entries: seq<Entry>, sorted: seq<Entry>)
    requires DistinctKeys(members) && DistinctEntries(sorted) && forall e :: e in sorted <==> e in entries
    requires forall i :: 0 <= i < |sorted| ==> Valid(sorted[i].value)
    requires |entries| == |members|
    requires forall i :: 0 <= i < |members| ==> entries[i].key == members[i].key
    requires forall i :: 0 <= i < |members| ==>
      Valid(entries[i].value) && Denote(Eval(entries[i].value)) == Denote(members[i].value)
    ensures DenoteMembers(MembersOf(sorted)) == DenoteMembers(members)
  {
    var read := MembersOf(sorted);
    DenoteMembersAt(read);
    var dict := DenoteMembers(read);
    forall i | 0 <= i < |members| ensures members[i].key in dict && dict[members[i].key] == Denote(members[i].value) {
      EntryRead(sorted, entries[i]);
    }
    forall k | k in dict ensures exists i :: 0 <= i < |members| && members[i].key == k {
      var j :| 0 <= j < |read| && read[j].key == k;
      assert sorted[j] in entries;
      var i :| 0 <= i < |entries| && entries[i] == sorted[j];
      assert members[i].key == k;
    }
    DictDetermined(members, dict);
  }

  lemma {:induction false} EntryRead(sorted: seq<Entry>, e: Entry)
    requires DistinctEntries(sorted) && e in sorted && forall i :: 0 <= i < |sorted| ==> Valid(sorted[i].value)
    ensures var dict := DenoteMembers(MembersOf(sorted)); e.key in dict && dict[e.key] == Denote(Eval(e.value))
  {
    var read := MembersOf(sorted);
    DenoteMembersAt(read);
    var j :| 0 <= j < |sorted| && sorted[j] == e;
    assert read[j].key == e.key;
  }

  lemma {:induction false} DictDetermined(members: seq<Member>, dict: map<PyStr, Value>)
    requires DistinctKeys(members)
    requires forall i :: 0 <= i < |members| ==>
      members[i].key in dict && dict[members[i].key] == Denote(members[i].value)
    requires forall k :: k in dict ==> exists i :: 0 <= i < |members| && members[i].key == k
    ensures dict == DenoteMembers(members)
  {
    DenoteMembersAt(members);
    assert forall k :: k in DenoteMembers(members) ==> k in dict;
    assert forall k :: k in dict ==> k in DenoteMembers(members);
  }

  lemma {:induction false} EqualItems(a: seq<Json>, b: seq<Json>)
    requires DenoteItems(a) == DenoteItems(b)
    ensures |a| == |b| && forall i :: 0 <= i < |a| ==> Denote(a[i]) == Denote(b[i])
  {
  }

  lemma {:induction false} EqualMembers(a: seq<Member>, b: seq<Member>)
    requires DistinctKeys(a) && DistinctKeys(b) && DenoteMembers(a) == DenoteMembers(b)
    ensures forall i, k :: 0 <= i < |a| && 0 <= k < |b| && a[i].key == b[k].key ==>
      Denote(a[i].value) == Denote(b[k].value)
  {
    DenoteMembersAt(a);
    DenoteMembersAt(b);
  }

  /** Equal values have the same text, whatever the insertion order of their dicts. */
  lemma {:induction false} EqualValuesRenderAlike(a: Json, b: Json, level: nat)
    requires WellFormed(a) && WellFormed(b) && Denote(a) == Denote(b)
    ensures Render(a, level) == Render(b, level)
    decreases a
  {
    match a {
      case Arr(items) =>
        EqualItems(items, b.items);
        forall i | 0 <= i < |items| ensures Render(items[i], level + 1) == Render(b.items[i], level + 1) {
          EqualValuesRenderAlike(items[i], b.items[i], level + 1);
        }
        assert RenderItems(items, level + 1) == RenderItems(b.items, level + 1);
      case Obj(members) =>
        EqualMembers(members, b.members);
        forall i, k | 0 <= i < |members| && 0 <= k < |b.members| && members[i].key == b.members[k].key
          ensures Render(members[i].value, level + 1) == Render(b.members[k].value, level + 1)
        {
          EqualValuesRenderAlike(members[i].value, b.members[k].value, level + 1);
        }
        SameEntriesSortAlike(members, b.members, level + 1);
      case _ =>
    }
  }

  lemma {:induction false} EntriesIncluded(a: seq<Member>, b: seq<Member>, level: nat)
    requires WellFormed(Obj(a)) && WellFormed(Obj(b)) && DenoteMembers(a).Keys <= DenoteMembers(b).Keys
    requires forall i, k :: 0 <= i < |a| && 0 <= k < |b| && a[i].key == b[k].key ==>
      Render(a[i].value, level) == Render(b[k].value, level)
    ensures forall e :: e in RenderMembers(a, level) ==> e in RenderMembers(b, level)
  {
    var ea, eb := RenderMembers(a, level), RenderMembers(b, level);
    DenoteMembersAt(a);
    DenoteMembersAt(b);
    forall i | 0 <= i < |ea| ensures ea[i] in eb {
      assert a[i].key in DenoteMembers(b);
      var k :| 0 <= k < |b| && b[k].key == a[i].key;
      assert eb[k] == ea[i];
    }
  }

  lemma {:induction false} SameEntriesSortAlike(a: seq<Member>, b: seq<Member>, level: nat)
    requires WellFormed(Obj(a)) && WellFormed(Obj(b)) && DenoteMembers(a).Keys == DenoteMembers(b).Keys
    requires forall i, k :: 0 <= i < |a| && 0 <= k < |b| && a[i].key == b[k].key ==>
      Render(a[i].value, level) == Render(b[k].value, level)
    ensures Sort(RenderMembers(a, level)) == Sort(RenderMembers(b, level))
  {
    SortedEntries(a, level);
    SortedEntries(b, level);
    EntriesIncluded(a, b, level);
    EntriesIncluded(b, a, level);
    AscendingUnique(Sort(RenderMembers(a, level)), Sort(RenderMembers(b, level)));
  }

  /** The text loads, and as a value equal to `j`. */
  predicate LoadsAs(text: PyStr, j: Json) {
    match Loads(text)
    case Some(k) => Denote(k) == Denote(j)
    case None => false
  }

  /** `loads(dumps(j)) == j`, also with whitespace after the document. */
  lemma {:induction false} LoadsOfDumps(j: Json, w: PyStr)
    requires WellFormed(j) && AllFinite(j) && AllWs(w)
    ensures LoadsAs(Dumps(j).value + w, j)
  {
    var c := Render(j, 0);
    EvalOfRender(j, 0);
    PutIsText(c, w);
    DocumentComplete(c, w);
  }

  /** Two values have the same canonical text exactly when they are equal. */
  lemma {:induction false} DumpsIsCanonical(a: Json, b: Json)
    requires WellFormed(a) && AllFinite(a) && WellFormed(b) && AllFinite(b)
    ensures Dumps(a) == Dumps(b) <==> Denote(a) == Denote(b)
  {
    if Denote(a) == Denote(b) {
      EqualValuesRenderAlike(a, b, 0);
    }
    LoadsOfDumps(a, []);
    LoadsOfDumps(b, []);
  }
}
