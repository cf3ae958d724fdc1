/** `_bounded_json_object`: the brace scanner that cuts one JSON object out of a longer text. */
module BraceScanner {
  import opened Basics
  import opened Unicode
  import opened JsonGrammar
  import Json
  import JsonRoundTrip

  /** The three variables the scan keeps. */
  datatype State = State(depth: int, inString: bool, escaped: bool)

  function Outside(depth: int): State {
    State(depth, false, false)
  }

  function Inside(depth: int): State {
    State(depth, true, false)
  }

  function Next(st: State, ch: CodePoint): State {
    if st.inString then
      if st.escaped then st.(escaped := false)
      else if ch == BACKSLASH then st.(escaped := true)
      else if ch == QUOTE then st.(inString := false)
      else st
    else if ch == QUOTE then st.(inString := true)
    else if ch == LBRACE then st.(depth := st.depth + 1)
    else if ch == RBRACE then st.(depth := st.depth - 1)
    else st
  }

  /** What follows the brace at which the scan of `s` first comes back to depth 0. */
  function Scan(s: PyStr, st: State): Option<PyStr> {
    if s == [] then None
    else if !st.inString && s[0] == RBRACE && st.depth == 1 then Some(s[1..])
    else Scan(s[1..], Next(st, s[0]))
  }

  /** The object the JSON grammar has at `start`, read by the parser, not by counting braces. */
  function ObjectAt(text: PyStr, start: int): Option<PyStr> {
    if start < 0 || start >= |text| then None
    else match ParseValue(text[start..])
      case Bad => None
      case Ok(c, rest) => if c.Object? then Some(Text(c)) else None
  }

  // ---- The automaton skips whole grammatical pieces ----

  lemma {:induction false} ScanCons(c: CodePoint, k: PyStr, st: State)
    ensures Scan([c] + k, st) == if !st.inString && c == RBRACE && st.depth == 1 then Some(k) else Scan(k, Next(st, c))
  {
  }

  predicate Silent(s: PyStr) {
    forall i :: 0 <= i < |s| ==> s[i] != QUOTE && s[i] != LBRACE && s[i] != RBRACE && s[i] != BACKSLASH
  }

  lemma {:induction false} ScanSilent(s: PyStr, k: PyStr, st: State)
    requires Silent(s) && !st.escaped
    ensures Scan(s + k, st) == Scan(k, st)
  {
    if s == [] {
      assert s + k == k;
    } else {
      assert s + k == [s[0]] + (s[1..] + k);
      ScanCons(s[0], s[1..] + k, st);
      ScanSilent(s[1..], k, st);
    }
  }

  lemma {:induction false} ScanItem(item: StrItem, k: PyStr, depth: int)
    requires ValidItem(item)
    ensures Scan(PutItem(item, k), Inside(depth)) == Scan(k, Inside(depth))
  {
    match item {
      case Plain(c) => ScanCons(c, k, Inside(depth));
      case Escape(letter) =>
        assert [BACKSLASH, letter] + k == [BACKSLASH] + ([letter] + k);
        ScanCons(BACKSLASH, [letter] + k, Inside(depth));
        ScanCons(letter, k, State(depth, true, true));
      case Hex(digits) =>
        assert [BACKSLASH, LETTER_U] + (digits + k) == [BACKSLASH] + ([LETTER_U] + (digits + k));
        ScanCons(BACKSLASH, [LETTER_U] + (digits + k), Inside(depth));
        ScanCons(LETTER_U, digits + k, State(depth, true, true));
        ScanSilent(digits, k, Inside(depth));
    }
  }

  lemma {:induction false} ScanItems(items: seq<StrItem>, k: PyStr, depth: int)
    requires ValidItems(items)
    ensures Scan(PutItems(items, k), Inside(depth)) == Scan(k, Outside(depth))
  {
    if items == [] {
      ScanCons(QUOTE, k, Inside(depth));
    } else {
      ScanItem(items[0], PutItems(items[1..], k), depth);
      ScanItems(items[1..], k, depth);
    }
  }

  lemma {:induction false} ScanQuoted(items: seq<StrItem>, k: PyStr, depth: int)
    requires ValidItems(items)
    ensures Scan([QUOTE] + PutItems(items, k), Outside(depth)) == Scan(k, Outside(depth))
  {
    ScanCons(QUOTE, PutItems(items, k), Outside(depth));
    ScanItems(items, k, depth);
  }

  lemma {:induction false} ScanWord(c: Cst, k: PyStr, depth: int)
    requires c.Word? && Valid(c)
    ensures Scan(Put(c, k), Outside(depth)) == Scan(k, Outside(depth))
  {
    var i :| 0 <= i < |Words()| && Words()[i] == c.word;
    assert i == 0 || i == 1 || i == 2 || i == 3 || i == 4 || i == 5;
    ScanSilent(c.word, k, Outside(depth));
  }

  lemma {:induction false} ScanNumber(c: Cst, k: PyStr, depth: int)
    requires c.Number? && Valid(c)
    ensures Scan(Put(c, k), Outside(depth)) == Scan(k, Outside(depth))
  {
    var out := Outside(depth);
    var u := PutExponent(c.exp, k);
    if c.exp.Exp? {
      ScanSilent(c.exp.digits, k, out);
      ScanSilent(c.exp.sign, c.exp.digits + k, out);
      ScanSilent([c.exp.marker], c.exp.sign + (c.exp.digits + k), out);
    }
    ScanSilent(c.frac, u, out);
    ScanSilent([DOT], c.frac + u, out);
    var t := PutFraction(c.frac, u);
    ScanSilent(c.whole, t, out);
    ScanSilent([MINUS], c.whole + t, out);
  }

  /** What the scan does at a closing brace outside strings. */
  function Closed(k: PyStr, depth: int): Option<PyStr> {
    if depth == 1 then Some(k) else Scan(k, Outside(depth - 1))
  }

  /** Inside an object, the scan passes over a whole value, however deeply it nests. */
  lemma {:induction false} ScanValue(c: Cst, k: PyStr, depth: int)
    requires Valid(c) && depth >= 1
    ensures Scan(Put(c, k), Outside(depth)) == Scan(k, Outside(depth))
    decreases c, 1
  {
    if c.Word? {
      ScanWord(c, k, depth);
    } else if c.Number? {
      ScanNumber(c, k, depth);
    } else if c.String? {
      ScanQuoted(c.items, k, depth);
    } else if c.Array? {
      ScanSilent([LBRACKET], if c.elems == [] then c.pad + ([RBRACKET] + k) else PutElems(c.elems, k), Outside(depth));
      if c.elems == [] {
        ScanSilent(c.pad, [RBRACKET] + k, Outside(depth));
        ScanSilent([RBRACKET], k, Outside(depth));
      } else {
        ScanElems(c.elems, k, depth);
      }
    } else {
      ScanObject(c, k, depth);
    }
  }

  lemma {:induction false} ScanObject(c: Cst, k: PyStr, depth: int)
    requires c.Object? && Valid(c) && depth >= 0
    ensures Scan(Put(c, k), Outside(depth)) == Closed(k, depth + 1)
    decreases c, 0
  {
    ScanCons(LBRACE, if c.members == [] then c.pad + ([RBRACE] + k) else PutPairs(c.members, k), Outside(depth));
    if c.members == [] {
      ScanSilent(c.pad, [RBRACE] + k, Outside(depth + 1));
      ScanCons(RBRACE, k, Outside(depth + 1));
    } else {
      ScanPairs(c.members, k, depth + 1);
    }
  }

  lemma {:induction false} ScanElem(e: Elem, k: PyStr, depth: int)
    requires ValidElem(e) && depth >= 1
    ensures Scan(PutElem(e, k), Outside(depth)) == Scan(k, Outside(depth))
    decreases e, 1
  {
    ScanSilent(e.before, Put(e.value, e.after + k), Outside(depth));
    ScanValue(e.value, e.after + k, depth);
    ScanSilent(e.after, k, Outside(depth));
  }

  lemma {:induction false} ScanElems(elems: seq<Elem>, k: PyStr, depth: int)
    requires elems != [] && ValidElems(elems) && depth >= 1
    ensures Scan(PutElems(elems, k), Outside(depth)) == Scan(k, Outside(depth))
    decreases elems, 2
  {
    if |elems| == 1 {
      ScanElem(elems[0], [RBRACKET] + k, depth);
      ScanSilent([RBRACKET], k, Outside(depth));
    } else {
      ScanElem(elems[0], [COMMA] + PutElems(elems[1..], k), depth);
      ScanSilent([COMMA], PutElems(elems[1..], k), Outside(depth));
      ScanElems(elems[1..], k, depth);
    }
  }

  lemma {:induction false} ScanPair(m: Pair, k: PyStr, depth: int)
    requires ValidPair(m) && depth >= 1
    ensures Scan(PutPair(m, k), Outside(depth)) == Scan(k, Outside(depth))
    decreases m, 1
  {
    var slot := PutElem(m.slot, k);
    ScanSilent(m.before, [QUOTE] + PutItems(m.key, m.mid + ([COLON] + slot)), Outside(depth));
    ScanQuoted(m.key, m.mid + ([COLON] + slot), depth);
    ScanSilent(m.mid, [COLON] + slot, Outside(depth));
    ScanSilent([COLON], slot, Outside(depth));
    ScanElem(m.slot, k, depth);
  }

  lemma {:induction false} ScanPairs(members: seq<Pair>, k: PyStr, depth: int)
    requires members != [] && ValidPairs(members) && depth >= 1
    ensures Scan(PutPairs(members, k), Outside(depth)) == Closed(k, depth)
    decreases members, 2
  {
    if |members| == 1 {
      ScanPair(members[0], [RBRACE] + k, depth);
      ScanCons(RBRACE, k, Outside(depth));
    } else {
      ScanPair(members[0], [COMMA] + PutPairs(members[1..], k), depth);
      ScanSilent([COMMA], PutPairs(members[1..], k), Outside(depth));
      ScanPairs(members[1..], k, depth);
    }
  }

  // ---- The scanner against the parser ----

  /** Where the grammar has an object, the scan stops right behind it. */
  lemma {:induction false} ScanFindsObject(text: PyStr, start: int)
    requires ObjectAt(text, start).Some?
    ensures var o := ObjectAt(text, start).value;
      && Scan(text[start..], Outside(0)).Some? && text[start..] == o + Scan(text[start..], Outside(0)).value
      && Json.Loads(o).Some?
  {
    var Ok(c, rest) := ParseValue(text[start..]);
    ValueSound(text[start..]);
    ScanObject(c, rest, 0);
    JsonRoundTrip.PutIsText(c, rest);
    JsonRoundTrip.DocumentComplete(c, []);
  }

  lemma {:induction false} NothingAfter(o: PyStr, rest: PyStr)
    requires AfterWs(rest) == [] && o + rest != [] && !IsWs((o + rest)[|o + rest| - 1])
    ensures rest == []
  {
  }

  lemma {:induction false} ObjectSound(s: PyStr) returns (c: Cst, rest: PyStr)
    requires s != [] && s[0] == LBRACE && ParseValue(s).Ok?
    ensures ParseValue(s) == Ok(c, rest) && c.Object? && Valid(c) && s == Text(c) + rest
  {
    ValueSound(s);
    c, rest := ParseValue(s).value, ParseValue(s).rest;
    JsonRoundTrip.PutIsText(c, rest);
  }

  /** Text between braces that loads is the text of an object. */
  lemma {:induction false} LoadedText(candidate: PyStr) returns (c: Cst)
    requires |candidate| > 1 && candidate[0] == LBRACE && candidate[|candidate| - 1] == RBRACE
    requires ParseValue(candidate).Ok? && AfterWs(ParseValue(candidate).rest) == []
    ensures c.Object? && Valid(c) && candidate == Text(c)
  {
    var rest;
    c, rest := ObjectSound(candidate);
    var o := Text(c);
    NothingAfter(o, rest);
    assert o + [] == o;
  }

  lemma {:induction false} Cut(text: PyStr, start: int, end: int)
    requires 0 <= start <= end <= |text|
    ensures text[start..] == text[start..end] + text[end..]
  {
  }

  lemma {:induction false} ObjectParsed(c: Cst, suffix: PyStr)
    requires c.Object? && Valid(c)
    ensures ParseValue(Text(c) + suffix) == Ok(c, suffix)
  {
    JsonRoundTrip.PutIsText(c, suffix);
    ValueComplete(c, suffix);
  }

  lemma {:induction false} LoadsAlone(candidate: PyStr)
    requires candidate != [] && candidate[0] == LBRACE && Json.Loads(candidate).Some?
    ensures ParseValue(candidate).Ok? && AfterWs(ParseValue(candidate).rest) == []
  {
  }

  lemma {:induction false} WholeObject(candidate: PyStr, suffix: PyStr)
    requires |candidate| > 1 && candidate[0] == LBRACE && candidate[|candidate| - 1] == RBRACE &&
      Json.Loads(candidate).Some?
    ensures var p := ParseValue(candidate + suffix); p.Ok? && p.value.Object? && Text(p.value) == candidate
  {
    LoadsAlone(candidate);
    var c := LoadedText(candidate);
    ObjectParsed(c, suffix);
  }

  /** Where the candidate loads, the grammar has exactly that object. */
  lemma {:induction false} CandidateIsObject(text: PyStr, start: int, end: int)
    requires 0 <= start && start + 1 < end <= |text| && text[start] == LBRACE && text[end - 1] == RBRACE
    requires Json.Loads(text[start..end]).Some?
    ensures ObjectAt(text, start) == Some(text[start..end])
  {
    Cut(text, start, end);
    WholeObject(text[start..end], text[end..]);
  }

  /** No brace, no object. */
  lemma {:induction false} NoBraceNoObject(text: PyStr, start: int)
    requires 0 <= start < |text| && text[start] != LBRACE
    ensures ObjectAt(text, start).None?
  {
  }

  /** What the method concludes from the scan coming back to depth 0 behind text[end - 1]. */
  lemma {:induction false} StoppedAt(text: PyStr, start: int, end: int)
    requires 0 <= start && start + 1 < end <= |text| && text[start] == LBRACE && text[end - 1] == RBRACE
    requires Scan(text[start..], Outside(0)) == Some(text[end..])
    ensures ObjectAt(text, start) == if Json.Loads(text[start..end]).Some? then Some(text[start..end]) else None
  {
    Cut(text, start, end);
    if ObjectAt(text, start).Some? {
      ScanFindsObject(text, start);
      SameSuffix(ObjectAt(text, start).value, text[start..end], text[end..]);
    }
    if Json.Loads(text[start..end]).Some? {
      CandidateIsObject(text, start, end);
    }
  }

  lemma {:induction false} SameSuffix(a: PyStr, b: PyStr, suffix: PyStr)
    requires a + suffix == b + suffix
    ensures a == b
  {
    assert a == (a + suffix)[..|a|] && b == (b + suffix)[..|b|];
  }

  lemma {:induction false} NeverStopped(text: PyStr, start: int)
    requires 0 <= start < |text| && Scan(text[start..], Outside(0)).None?
    ensures ObjectAt(text, start).None?
  {
    if ObjectAt(text, start).Some? {
      ScanFindsObject(text, start);
    }
  }

  lemma {:induction false} ScanStep(text: PyStr, i: int, st: State)
    requires 0 <= i < |text|
    ensures Scan(text[i..], st) ==
      if !st.inString && text[i] == RBRACE && st.depth == 1 then Some(text[i + 1..])
      else Scan(text[i + 1..], Next(st, text[i]))
  {
  }

  /** The scanner returns what the grammar has at `start`: it never runs into the text after the
      object, never stops at a brace inside a string, and returns None exactly where no object stands. */
  method BoundedJsonObject(text: PyStr, start: int) returns (result: Option<PyStr>)
    ensures result == ObjectAt(text, start)
  {
    if start < 0 || start >= |text| {
      return None;
    }
    if text[start] != LBRACE {
      NoBraceNoObject(text, start);
      return None;
    }
    var depth := 0;
    var inString := false;
    var escaped := false;
    for i := start to |text|
      invariant i == start ==> depth == 0 && !inString && !escaped
      invariant i > start ==> depth >= 1
      invariant Scan(text[start..], Outside(0)) == Scan(text[i..], State(depth, inString, escaped))
    {
      var ch := text[i];
      ScanStep(text, i, State(depth, inString, escaped));
      if inString {
        if escaped {
          escaped := false;
        } else if ch == BACKSLASH {
          escaped := true;
        } else if ch == QUOTE {
          inString := false;
        }
        continue;
      }
      if ch == QUOTE {
        inString := true;
      } else if ch == LBRACE {
        depth := depth + 1;
      } else if ch == RBRACE {
        depth := depth - 1;
        if depth == 0 {
          var candidate := text[start..i + 1];
          StoppedAt(text, start, i + 1);
          if Json.Loads(candidate).None? {
            return None;
          }
          return Some(candidate);
        }
      }
    }
    NeverStopped(text, start);
    return None;
  }

  /** However braces, quotes and backslashes nest in it, an object followed by any text comes back whole. */
  lemma {:induction false} ObjectThenAnything(c: Cst, suffix: PyStr)
    requires c.Object? && Valid(c)
    ensures ObjectAt(Text(c) + suffix, 0) == Some(Text(c))
  {
    ObjectParsed(c, suffix);
    assert (Text(c) + suffix)[0..] == Text(c) + suffix;
  }
}
