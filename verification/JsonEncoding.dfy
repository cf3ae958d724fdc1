/** Which documents `text.encode("utf-8")` accepts: exactly those whose strings and keys
    hold no surrogate. */
module JsonEncoding {
  import opened Unicode
  import opened JsonGrammar
  import opened Json
  import JsonRoundTrip

  /** No string and no dict key holds a surrogate. */
  predicate SurrogateFree(j: Json) {
    match j
    case Str(s) => Encodable(s)
    case Arr(items) => forall i :: 0 <= i < |items| ==> SurrogateFree(items[i])
    case Obj(members) => forall i :: 0 <= i < |members| ==> Encodable(members[i].key) && SurrogateFree(members[i].value)
    case _ => true
  }

  predicate CleanItems(items: seq<StrItem>) {
    forall i :: 0 <= i < |items| && items[i].Plain? ==> !IsSurrogate(items[i].c)
  }

  predicate Clean(c: Cst)
    decreases c, 0
  {
    match c
    case String(items) => CleanItems(items)
    case Array(_, elems) => CleanElems(elems)
    case Object(_, members) => CleanPairs(members)
    case _ => true
  }

  predicate CleanElems(elems: seq<Elem>) {
    elems == [] || (Clean(elems[0].value) && CleanElems(elems[1..]))
  }

  predicate CleanPairs(members: seq<Pair>) {
    members == [] || (CleanItems(members[0].key) && Clean(members[0].slot.value) && CleanPairs(members[1..]))
  }

  predicate AllAscii(s: PyStr) {
    forall c :: c in s ==> c < 128
  }

  lemma {:induction false} AsciiThen(s: PyStr, k: PyStr)
    requires AllAscii(s)
    ensures Encodable(s + k) <==> Encodable(k)
  {
  }

  lemma {:induction false} WsAscii(s: PyStr)
    ensures AllWs(s) ==> AllAscii(s)
  {
  }

  lemma {:induction false} ItemEncodable(item: StrItem, k: PyStr)
    requires ValidItem(item)
    ensures Encodable(PutItem(item, k)) <==> (item.Plain? ==> !IsSurrogate(item.c)) && Encodable(k)
  {
  }

  lemma {:induction false} ItemsEncodable(items: seq<StrItem>, k: PyStr)
    requires ValidItems(items)
    ensures Encodable(PutItems(items, k)) <==> CleanItems(items) && Encodable(k)
  {
    if items == [] {
      AsciiThen([QUOTE], k);
    } else {
      ItemsEncodable(items[1..], k);
      ItemEncodable(items[0], PutItems(items[1..], k));
      assert CleanItems(items) <==> (items[0].Plain? ==> !IsSurrogate(items[0].c)) && CleanItems(items[1..]) by {
        assert items == [items[0]] + items[1..];
      }
    }
  }

  lemma {:induction false} NumberEncodable(c: Cst, k: PyStr)
    requires c.Number? && Valid(c)
    ensures Encodable(Put(c, k)) <==> Encodable(k)
  {
  }

  lemma {:induction false} WordEncodable(c: Cst, k: PyStr)
    requires c.Word? && Valid(c)
    ensures Encodable(Put(c, k)) <==> Encodable(k)
  {
  }

  lemma {:induction false} TextEncodable(c: Cst, k: PyStr)
    requires Valid(c)
    ensures Encodable(Put(c, k)) <==> Clean(c) && Encodable(k)
    decreases c, 0
  {
    if c.Word? {
      WordEncodable(c, k);
    } else if c.Number? {
      NumberEncodable(c, k);
    } else if c.String? {
      ItemsEncodable(c.items, k);
      AsciiThen([QUOTE], PutItems(c.items, k));
    } else if c.Array? {
      if c.elems == [] {
        WsAscii(c.pad);
        AsciiThen([RBRACKET], k);
        AsciiThen(c.pad, [RBRACKET] + k);
        AsciiThen([LBRACKET], c.pad + ([RBRACKET] + k));
      } else {
        ElemsEncodable(c.elems, k);
        AsciiThen([LBRACKET], PutElems(c.elems, k));
      }
    } else {
      if c.members == [] {
        WsAscii(c.pad);
        AsciiThen([RBRACE], k);
        AsciiThen(c.pad, [RBRACE] + k);
        AsciiThen([LBRACE], c.pad + ([RBRACE] + k));
      } else {
        PairsEncodable(c.members, k);
        AsciiThen([LBRACE], PutPairs(c.members, k));
      }
    }
  }

  lemma {:induction false} ElemEncodable(e: Elem, k: PyStr)
    requires ValidElem(e)
    ensures Encodable(PutElem(e, k)) <==> Clean(e.value) && Encodable(k)
    decreases e, 1
  {
    WsAscii(e.before);
    WsAscii(e.after);
    AsciiThen(e.after, k);
    TextEncodable(e.value, e.after + k);
    AsciiThen(e.before, Put(e.value, e.after + k));
  }

  lemma {:induction false} ElemsEncodable(elems: seq<Elem>, k: PyStr)
    requires elems != [] && ValidElems(elems)
    ensures Encodable(PutElems(elems, k)) <==> CleanElems(elems) && Encodable(k)
    decreases elems, 2
  {
    if |elems| == 1 {
      AsciiThen([RBRACKET], k);
      ElemEncodable(elems[0], [RBRACKET] + k);
      assert CleanElems(elems[1..]);
    } else {
      ElemsEncodable(elems[1..], k);
      AsciiThen([COMMA], PutElems(elems[1..], k));
      ElemEncodable(elems[0], [COMMA] + PutElems(elems[1..], k));
    }
  }

  lemma {:induction false} PairEncodable(m: Pair, k: PyStr)
    requires ValidPair(m)
    ensures Encodable(PutPair(m, k)) <==> CleanItems(m.key) && Clean(m.slot.value) && Encodable(k)
    decreases m, 1
  {
    WsAscii(m.before);
    WsAscii(m.mid);
    var slot := PutElem(m.slot, k);
    ElemEncodable(m.slot, k);
    AsciiThen([COLON], slot);
    AsciiThen(m.mid, [COLON] + slot);
    var items := PutItems(m.key, m.mid + ([COLON] + slot));
    ItemsEncodable(m.key, m.mid + ([COLON] + slot));
    AsciiThen([QUOTE], items);
    AsciiThen(m.before, [QUOTE] + items);
  }

  lemma {:induction false} PairsEncodable(members: seq<Pair>, k: PyStr)
    requires members != [] && ValidPairs(members)
    ensures Encodable(PutPairs(members, k)) <==> CleanPairs(members) && Encodable(k)
    decreases members, 2
  {
    if |members| == 1 {
      AsciiThen([RBRACE], k);
      PairEncodable(members[0], [RBRACE] + k);
      assert CleanPairs(members[1..]);
    } else {
      PairsEncodable(members[1..], k);
      AsciiThen([COMMA], PutPairs(members[1..], k));
      PairEncodable(members[0], [COMMA] + PutPairs(members[1..], k));
    }
  }

  // ---- Rendered trees ----

  lemma {:induction false} ItemsOfClean(s: PyStr)
    ensures CleanItems(ItemsOf(s)) <==> Encodable(s)
  {
    if s != [] {
      ItemsOfClean(s[1..]);
      var items := ItemsOf(s);
      assert items[0] == ItemOf(s[0]) && items[1..] == ItemsOf(s[1..]);
      assert CleanItems(items) <==> (items[0].Plain? ==> !IsSurrogate(items[0].c)) && CleanItems(items[1..]) by {
        assert items == [items[0]] + items[1..];
      }
      assert s == [s[0]] + s[1..];
    }
  }

  lemma {:induction false} LayoutElemsClean(values: seq<Cst>, level: nat)
    ensures CleanElems(LayoutElems(values, level)) <==> forall i :: 0 <= i < |values| ==> Clean(values[i])
  {
    if values != [] {
      LayoutElemsClean(values[1..], level);
      assert LayoutElems(values, level)[1..] == LayoutElems(values[1..], level);
      assert values == [values[0]] + values[1..];
    }
  }

  predicate CleanEntry(e: Entry) {
    Encodable(e.key) && Clean(e.value)
  }

  lemma {:induction false} LayoutPairsClean(entries: seq<Entry>, level: nat)
    ensures CleanPairs(LayoutPairs(entries, level)) <==> forall e :: e in entries ==> CleanEntry(e)
  {
    if entries != [] {
      LayoutPairsClean(entries[1..], level);
      ItemsOfClean(entries[0].key);
      var pairs := LayoutPairs(entries, level);
      assert pairs[1..] == LayoutPairs(entries[1..], level);
      assert pairs[0].key == ItemsOf(entries[0].key) && pairs[0].slot.value == entries[0].value;
      assert CleanPairs(pairs) <==> CleanEntry(entries[0]) && CleanPairs(pairs[1..]);
      assert forall e :: e in entries <==> e == entries[0] || e in entries[1..];
    }
  }

  lemma {:induction false} SortKeeps(entries: seq<Entry>)
    ensures forall e :: e in Sort(entries) <==> e in entries
  {
    JsonRoundTrip.SortPermutes(entries);
    forall e ensures e in Sort(entries) <==> e in entries {
      assert e in Sort(entries) <==> e in multiset(Sort(entries));
      assert e in entries <==> e in multiset(entries);
    }
  }

  lemma {:induction false} MembersClean(members: seq<Member>, level: nat)
    requires WellFormed(Obj(members))
    requires forall i :: 0 <= i < |members| ==>
      (Clean(Render(members[i].value, level + 1)) <==> SurrogateFree(members[i].value))
    ensures Clean(Render(Obj(members), level)) <==> SurrogateFree(Obj(members))
  {
    var entries := RenderMembers(members, level + 1);
    SortKeeps(entries);
    LayoutPairsClean(Sort(entries), level);
    assert forall i :: 0 <= i < |members| ==>
      (CleanEntry(entries[i]) <==> Encodable(members[i].key) && SurrogateFree(members[i].value));
  }

  lemma {:induction false} ItemsClean(items: seq<Json>, level: nat)
    requires WellFormed(Arr(items))
    requires forall i :: 0 <= i < |items| ==> (Clean(Render(items[i], level + 1)) <==> SurrogateFree(items[i]))
    ensures Clean(Render(Arr(items), level)) <==> SurrogateFree(Arr(items))
  {
    LayoutElemsClean(RenderItems(items, level + 1), level);
  }

  lemma {:induction false} RenderClean(j: Json, level: nat)
    requires WellFormed(j)
    ensures Clean(Render(j, level)) <==> SurrogateFree(j)
    decreases j
  {
    if j.Str? {
      ItemsOfClean(j.s);
    } else if j.Arr? {
      forall i | 0 <= i < |j.items| ensures Clean(Render(j.items[i], level + 1)) <==> SurrogateFree(j.items[i]) {
        RenderClean(j.items[i], level + 1);
      }
      ItemsClean(j.items, level);
    } else if j.Obj? {
      forall i | 0 <= i < |j.members|
        ensures Clean(Render(j.members[i].value, level + 1)) <==> SurrogateFree(j.members[i].value)
      {
        RenderClean(j.members[i].value, level + 1);
      }
      MembersClean(j.members, level);
    } else if j.Float? && !NonFinite(j.literal) {
      NumberSound(j.literal);
    }
  }

  lemma {:induction false} DumpsEncodable(j: Json)
    requires WellFormed(j) && Dumps(j).Some?
    ensures Encodable(Dumps(j).value) <==> SurrogateFree(j)
  {
    JsonRoundTrip.RenderValid(j, 0);
    TextEncodable(Render(j, 0), []);
    RenderClean(j, 0);
  }
}
