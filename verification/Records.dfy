/** The chain record and its canonical byte form. */
module Records {
  import opened Basics
  import opened Unicode
  import opened Json
  import Framing
  import JsonEncoding
  import JsonPretty
  import JsonRoundTrip
  import Utf8

  const RECORD_SCHEMA: PyStr := Of("antigona.review-record/v1")

  /** A record; its payload is a dict in insertion order. */
  datatype ChainRecord = ChainRecord(operation: PyStr, previousRevision: PyStr, payload: seq<Member>, schema: PyStr)

  datatype Error = ChainRecordError | ChainIntegrityError | UnicodeEncodeError

  datatype Result<+T> = Success(value: T) | Failure(error: Error)

  /** What `__post_init__` and the type of a Python dict guarantee of every record. */
  predicate IsRecord(r: ChainRecord) {
    !IsBlank(r.operation) && WellFormed(Obj(r.payload))
  }

  /** Equality of records, which compares payloads as dicts. */
  predicate SameRecord(a: ChainRecord, b: ChainRecord) {
    && a.operation == b.operation && a.previousRevision == b.previousRevision && a.schema == b.schema
    && DenoteMembers(a.payload) == DenoteMembers(b.payload)
  }

  function Document(r: ChainRecord): Json {
    Obj([
      Member(Of("schema"), Str(r.schema)),
      Member(Of("operation"), Str(r.operation)),
      Member(Of("previous_revision"), Str(r.previousRevision)),
      Member(Of("payload"), Obj(r.payload))])
  }

  lemma {:induction false} DocumentWellFormed(r: ChainRecord)
    requires WellFormed(Obj(r.payload))
    ensures WellFormed(Document(r))
  {
  }

  function CanonicalRecordBytes(r: ChainRecord): Result<seq<byte>>
    requires IsRecord(r)
  {
    DocumentWellFormed(r);
    match Dumps(Document(r))
    case None => Failure(ChainRecordError)
    case Some(text) =>
      match Utf8.Encode(text)
      case None => Failure(UnicodeEncodeError)
      case Some(bytes) => Success(bytes + [10])
  }

  /** `document.get(key)` */
  function Lookup(members: seq<Member>, key: PyStr): Option<Json> {
    if members == [] then None
    else match Lookup(members[1..], key)
      case Some(value) => Some(value)
      case None => if members[0].key == key then Some(members[0].value) else None
  }

  function RecordFromBytes(data: seq<byte>): Result<ChainRecord> {
    match Utf8.Decode(data)
    case None => Failure(ChainIntegrityError)
    case Some(text) =>
      match Loads(text)
      case None => Failure(ChainIntegrityError)
      case Some(document) => RecordFromDocument(document)
  }

  function RecordFromDocument(document: Json): Result<ChainRecord> {
    if !document.Obj? then Failure(ChainIntegrityError)
    else
      var schema := Lookup(document.members, Of("schema"));
      var operation := Lookup(document.members, Of("operation"));
      var previous := Lookup(document.members, Of("previous_revision"));
      var payload := Lookup(document.members, Of("payload"));
      if schema.None? || operation.None? || previous.None? || payload.None? then Failure(ChainIntegrityError)
      else if schema.value != Str(RECORD_SCHEMA) then Failure(ChainIntegrityError)
      else if !operation.value.Str? || IsBlank(operation.value.s) then Failure(ChainIntegrityError)
      else if !previous.value.Str? then Failure(ChainIntegrityError)
      else if !payload.value.Obj? then Failure(ChainIntegrityError)
      else Success(ChainRecord(operation.value.s, previous.value.s, payload.value.members, RECORD_SCHEMA))
  }

  // ---- Round trip and canonicity ----

  lemma {:induction false} LookupDenotes(members: seq<Member>, key: PyStr)
    ensures Lookup(members, key).Some? <==> key in DenoteMembers(members)
    ensures key in DenoteMembers(members) ==> DenoteMembers(members)[key] == Denote(Lookup(members, key).value)
  {
    if members != [] {
      LookupDenotes(members[1..], key);
    }
  }

  /** Equal documents answer every lookup alike, up to equality of the values found. */
  lemma {:induction false} EqualDocumentsLookup(a: seq<Member>, b: seq<Member>, key: PyStr)
    requires DenoteMembers(a) == DenoteMembers(b)
    ensures Lookup(a, key).Some? <==> Lookup(b, key).Some?
    ensures Lookup(a, key).Some? ==> Denote(Lookup(a, key).value) == Denote(Lookup(b, key).value)
  {
    LookupDenotes(a, key);
    LookupDenotes(b, key);
  }

  lemma {:induction false} EqualTextsAlike(a: Json, b: Json, s: PyStr)
    requires Denote(a) == Denote(b)
    ensures a == Str(s) <==> b == Str(s)
    ensures a.Str? <==> b.Str?
    ensures a.Str? ==> a == b
    ensures a.Obj? <==> b.Obj?
    ensures a.Obj? ==> DenoteMembers(a.members) == DenoteMembers(b.members)
  {
  }

  /** The record read from a document depends only on the document as a value. */
  lemma {:induction false} EqualDocumentsSameRecord(a: Json, b: Json)
    requires a.Obj? && b.Obj? && DenoteMembers(a.members) == DenoteMembers(b.members)
    ensures RecordFromDocument(a).Success? <==> RecordFromDocument(b).Success?
    ensures RecordFromDocument(a).Success? ==> SameRecord(RecordFromDocument(a).value, RecordFromDocument(b).value)
  {
    forall key | key in {Of("schema"), Of("operation"), Of("previous_revision"), Of("payload")}
      ensures Lookup(a.members, key).Some? <==> Lookup(b.members, key).Some?
      ensures Lookup(a.members, key).Some? ==>
        var (x, y) := (Lookup(a.members, key).value, Lookup(b.members, key).value);
        && (x.Str? <==> y.Str?) && (x.Str? ==> x == y) && (x == Str(RECORD_SCHEMA) <==> y == Str(RECORD_SCHEMA))
        && (x.Obj? <==> y.Obj?) && (x.Obj? ==> DenoteMembers(x.members) == DenoteMembers(y.members))
    {
      EqualDocumentsLookup(a.members, b.members, key);
      if Lookup(a.members, key).Some? {
        EqualTextsAlike(Lookup(a.members, key).value, Lookup(b.members, key).value, RECORD_SCHEMA);
      }
    }
  }

  lemma {:induction false} LookupFirst(first: Member, rest: seq<Member>, key: PyStr)
    ensures Lookup([first] + rest, key) ==
      if Lookup(rest, key).Some? then Lookup(rest, key) else if first.key == key then Some(first.value) else None
  {
  }

  lemma {:induction false} LookupInDocument(r: ChainRecord, key: PyStr)
    ensures Lookup(Document(r).members, key) ==
      if key == Of("payload") then Some(Obj(r.payload))
      else if key == Of("previous_revision") then Some(Str(r.previousRevision))
      else if key == Of("operation") then Some(Str(r.operation))
      else if key == Of("schema") then Some(Str(r.schema))
      else None
  {
    var members := Document(r).members;
    assert members == [members[0]] + ([members[1]] + ([members[2]] + ([members[3]] + [])));
    LookupFirst(members[3], [], key);
    LookupFirst(members[2], [members[3]] + [], key);
    LookupFirst(members[1], [members[2]] + ([members[3]] + []), key);
    LookupFirst(members[0], [members[1]] + ([members[2]] + ([members[3]] + [])), key);
  }

  lemma {:induction false} RecordOfItsDocument(r: ChainRecord)
    requires !IsBlank(r.operation)
    ensures RecordFromDocument(Document(r)) ==
      if r.schema == RECORD_SCHEMA then Success(r) else Failure(ChainIntegrityError)
  {
    KeysDiffer();
    LookupInDocument(r, Of("schema"));
    LookupInDocument(r, Of("operation"));
    LookupInDocument(r, Of("previous_revision"));
    LookupInDocument(r, Of("payload"));
  }

  lemma {:induction false} RecordOfEqualDocument(r: ChainRecord, document: Json)
    requires !IsBlank(r.operation) && Denote(document) == Denote(Document(r))
    ensures var read := RecordFromDocument(document);
      if r.schema == RECORD_SCHEMA then read.Success? && SameRecord(read.value, r)
      else read == Failure(ChainIntegrityError)
  {
    RecordOfItsDocument(r);
    EqualDocumentsSameRecord(document, Document(r));
  }

  lemma {:induction false} DocumentOfBytes(r: ChainRecord, data: seq<byte>, end: PyStr)
    requires IsRecord(r) && CanonicalRecordBytes(r) == Success(data) && end == [10]
    ensures WellFormed(Document(r)) && Dumps(Document(r)).Some?
    ensures Utf8.Decode(data) == Some(Dumps(Document(r)).value + end)
  {
    DocumentWellFormed(r);
    TextOfBytes(Dumps(Document(r)).value, end);
  }

  lemma {:induction false} BytesRoundTrip(r: ChainRecord, data: seq<byte>)
    requires IsRecord(r) && CanonicalRecordBytes(r) == Success(data)
    ensures var read := RecordFromBytes(data);
      if r.schema == RECORD_SCHEMA then read.Success? && SameRecord(read.value, r)
      else read == Failure(ChainIntegrityError)
  {
    DocumentOfBytes(r, data, [10]);
    JsonRoundTrip.LoadsOfDumps(Document(r), [10]);
    RecordOfEqualDocument(r, Loads(Dumps(Document(r)).value + [10]).value);
  }

  /** Reading the canonical bytes gives the record back; bytes written under another schema are refused. */
  lemma {:induction false} RecordRoundTrip(r: ChainRecord)
    requires IsRecord(r) && CanonicalRecordBytes(r).Success?
    ensures var read := RecordFromBytes(CanonicalRecordBytes(r).value);
      if r.schema == RECORD_SCHEMA then read.Success? && SameRecord(read.value, r)
      else read == Failure(ChainIntegrityError)
  {
    BytesRoundTrip(r, CanonicalRecordBytes(r).value);
  }

  lemma {:induction false} TextOfBytes(text: PyStr, end: PyStr)
    requires Utf8.Encode(text).Some? && end == [10]
    ensures Utf8.Decode(Utf8.Encode(text).value + [10]) == Some(text + end)
  {
    EncodedNewLine(end);
    EncodeAppend(text, end);
    Utf8.DecodeOfEncode(text + end);
  }

  lemma {:induction false} EncodedNewLine(end: PyStr)
    requires end == [10]
    ensures Utf8.Encode(end) == Some([10])
  {
    Utf8.EncodeCons(10, []);
    assert end == [10] + [];
    assert Utf8.EncodeChar(10) == [10] && [10] + [] == [10];
  }

  lemma {:induction false} BytesAssoc(a: seq<byte>, b: seq<byte>, c: seq<byte>)
    ensures a + (b + c) == (a + b) + c
  {
  }

  lemma {:induction false} EncodeAppend(a: PyStr, b: PyStr)
    requires Utf8.Encode(a).Some? && Utf8.Encode(b).Some?
    ensures Utf8.Encode(a + b) == Some(Utf8.Encode(a).value + Utf8.Encode(b).value)
  {
    var y := Utf8.Encode(b).value;
    if a == [] {
      assert a + b == b && [] + y == y;
    } else {
      EncodeAppend(a[1..], b);
      assert a == [a[0]] + a[1..] && a + b == [a[0]] + (a[1..] + b);
      Utf8.EncodeCons(a[0], a[1..]);
      Utf8.EncodeCons(a[0], a[1..] + b);
      BytesAssoc(Utf8.EncodeChar(a[0]), Utf8.Encode(a[1..]).value, y);
    }
  }

  /** One file per record: two records have the same bytes exactly when they are equal,
      predecessor link included and payload insertion order left aside. */
  lemma {:induction false} BytesAreCanonical(a: ChainRecord, b: ChainRecord)
    requires IsRecord(a) && IsRecord(b) && CanonicalRecordBytes(a).Success? && CanonicalRecordBytes(b).Success?
    ensures CanonicalRecordBytes(a) == CanonicalRecordBytes(b) <==> SameRecord(a, b)
  {
    DocumentWellFormed(a);
    DocumentWellFormed(b);
    var (ta, tb) := (Dumps(Document(a)).value, Dumps(Document(b)).value);
    JsonRoundTrip.DumpsIsCanonical(Document(a), Document(b));
    DocumentsDenote(a, b);
    if CanonicalRecordBytes(a) == CanonicalRecordBytes(b) {
      TextOfBytes(ta, [10]);
      TextOfBytes(tb, [10]);
      assert ta == (ta + [10])[..|ta|] && tb == (tb + [10])[..|tb|];
    }
  }

  lemma {:induction false} KeysDiffer()
    ensures |Of("schema")| == 6 && |Of("operation")| == 9 && |Of("previous_revision")| == 17 && |Of("payload")| == 7
  {
  }

  /** The four fields of a record, by key. */
  function Field(r: ChainRecord, key: PyStr): Option<Value> {
    if key == Of("payload") then Some(VDict(DenoteMembers(r.payload)))
    else if key == Of("previous_revision") then Some(VStr(r.previousRevision))
    else if key == Of("operation") then Some(VStr(r.operation))
    else if key == Of("schema") then Some(VStr(r.schema))
    else None
  }

  lemma {:induction false} DocumentHasFields(r: ChainRecord, key: PyStr)
    ensures var dict := DenoteMembers(Document(r).members);
      Field(r, key) == if key in dict then Some(dict[key]) else None
  {
    LookupDenotes(Document(r).members, key);
    LookupInDocument(r, key);
  }

  lemma {:induction false} SameRecordFields(a: ChainRecord, b: ChainRecord)
    ensures SameRecord(a, b) <==> forall key :: Field(a, key) == Field(b, key)
  {
    KeysDiffer();
    if forall key :: Field(a, key) == Field(b, key) {
      assert Field(a, Of("payload")) == Field(b, Of("payload"));
      assert Field(a, Of("previous_revision")) == Field(b, Of("previous_revision"));
      assert Field(a, Of("operation")) == Field(b, Of("operation"));
      assert Field(a, Of("schema")) == Field(b, Of("schema"));
    }
  }

  lemma {:induction false} FieldsDetermine(a: ChainRecord, b: ChainRecord, x: map<PyStr, Value>, y: map<PyStr, Value>)
    requires forall key :: Field(a, key) == if key in x then Some(x[key]) else None
    requires forall key :: Field(b, key) == if key in y then Some(y[key]) else None
    ensures x == y <==> forall key :: Field(a, key) == Field(b, key)
  {
  }

  lemma {:induction false} DocumentsDenote(a: ChainRecord, b: ChainRecord)
    ensures Denote(Document(a)) == Denote(Document(b)) <==> SameRecord(a, b)
  {
    var (x, y) := (DenoteMembers(Document(a).members), DenoteMembers(Document(b).members));
    forall key {
      DocumentHasFields(a, key);
    }
    forall key {
      DocumentHasFields(b, key);
    }
    SameRecordFields(a, b);
    FieldsDetermine(a, b, x, y);
  }

  // ---- The bytes themselves ----

  /** The members of the document with the keys in order. */
  function OrderedMembers(r: ChainRecord): seq<Member> {
    [
      Member(Of("operation"), Str(r.operation)),
      Member(Of("payload"), JsonPretty.Arranged(Obj(r.payload))),
      Member(Of("previous_revision"), Str(r.previousRevision)),
      Member(Of("schema"), Str(r.schema))]
  }

  lemma {:induction false} KeysAscend()
    ensures Less(Of("operation"), Of("payload")) && Less(Of("payload"), Of("previous_revision"))
    ensures Less(Of("previous_revision"), Of("schema")) && !Less(Of("previous_revision"), Of("payload"))
    ensures !Less(Of("schema"), Of("operation")) && !Less(Of("schema"), Of("payload"))
    ensures !Less(Of("schema"), Of("previous_revision"))
  {
    var (payload, previous) := (Of("payload"), Of("previous_revision"));
    assert payload[0] == previous[0] && payload[1..][0] == 97 && previous[1..][0] == 114;
    assert Less(payload[1..], previous[1..]);
    LessTotal(payload, previous);
  }

  lemma {:induction false} SortFour(s: Member, o: Member, v: Member, p: Member)
    requires Less(o.key, p.key) && !Less(v.key, p.key)
    requires !Less(s.key, o.key) && !Less(s.key, p.key) && !Less(s.key, v.key)
    ensures JsonPretty.SortMembers([s, o, v, p]) == [o, p, v, s]
  {
    hide Less;
    assert [s, o, v, p][1..] == [o, v, p] && [o, v, p][1..] == [v, p] && [v, p][1..] == [p];
    assert JsonPretty.SortMembers([p]) == [p];
    assert JsonPretty.SortMembers([v, p]) == [p] + JsonPretty.WithMember(v, [p][1..]) == [p, v];
    assert JsonPretty.SortMembers([o, v, p]) == [o, p, v];
    assert JsonPretty.WithMember(s, [v]) == [v] + JsonPretty.WithMember(s, [v][1..]) == [v, s];
    assert [p, v][1..] == [v] && [o, p, v][1..] == [p, v];
    assert JsonPretty.WithMember(s, [p, v]) == [p, v, s];
  }

  lemma {:induction false} ArrangedDocument(r: ChainRecord)
    ensures JsonPretty.Arranged(Document(r)) == Obj(OrderedMembers(r))
  {
    var (m, o) := (Document(r).members, OrderedMembers(r));
    KeysAscend();
    hide Less, JsonPretty.SortMembers;
    var v := JsonPretty.ArrangedValues(m);
    assert v == [o[3], o[0], o[2], o[1]];
    SortFour(o[3], o[0], o[2], o[1]);
  }

  lemma {:induction false} OfConcat(a: string, b: string)
    ensures Of(a + b) == Of(a) + Of(b)
  {
  }

  lemma {:induction false} QuotedKey(k: PyStr)
    requires forall i :: 0 <= i < |k| ==> 32 <= k[i] && k[i] != 34 && k[i] != 92
    ensures [10, 32, 32, 34] + (k + [34, 58, 32]) == JsonPretty.Line(1) + JsonPretty.Quoted(k) + Of(": ")
  {
    JsonPretty.PlainIsInside(k);
    var line: PyStr := [10, 32, 32];
    assert JsonPretty.Line(1) == line && Of(": ") == [58, 32];
    assert [10, 32, 32, 34] + (k + [34, 58, 32]) == line + ([34] + k + [34]) + [58, 32];
  }

  /** A key that needs no escapes, on a line of its own. */
  lemma {:induction false} KeyLine(before: string, key: string)
    requires forall i :: 0 <= i < |key| ==> ' ' <= key[i] && key[i] != '"' && key[i] != '\\'
    ensures Of(before + ("\n  \"" + (key + "\": "))) ==
      Of(before) + (JsonPretty.Line(1) + JsonPretty.Quoted(Of(key)) + Of(": "))
  {
    hide JsonPretty.Line, JsonPretty.Quoted;
    OfConcat(before, "\n  \"" + (key + "\": "));
    OfConcat("\n  \"", key + "\": ");
    OfConcat(key, "\": ");
    assert Of("\n  \"") == [10, 32, 32, 34] && Of("\": ") == [34, 58, 32];
    QuotedKey(Of(key));
  }

  lemma {:induction false} OperationLine()
    ensures Of("{") + (JsonPretty.Line(1) + JsonPretty.Quoted(Of("operation")) + Of(": ")) == Of("{\n  \"operation\": ")
  {
    hide JsonPretty.Line, JsonPretty.Quoted;
    KeyLine("{", "operation");
    assert "{" + ("\n  \"" + ("operation" + "\": ")) == "{\n  \"operation\": ";
  }

  lemma {:induction false} PayloadLine()
    ensures Of(",") + (JsonPretty.Line(1) + JsonPretty.Quoted(Of("payload")) + Of(": ")) == Of(",\n  \"payload\": ")
  {
    hide JsonPretty.Line, JsonPretty.Quoted;
    KeyLine(",", "payload");
    assert "," + ("\n  \"" + ("payload" + "\": ")) == ",\n  \"payload\": ";
  }

  lemma {:induction false} PreviousLine()
    ensures Of(",") + (JsonPretty.Line(1) + JsonPretty.Quoted(Of("previous_revision")) + Of(": ")) ==
      Of(",\n  \"previous_revision\": ")
  {
    hide JsonPretty.Line, JsonPretty.Quoted;
    KeyLine(",", "previous_revision");
    assert "," + ("\n  \"" + ("previous_revision" + "\": ")) == ",\n  \"previous_revision\": ";
  }

  lemma {:induction false} SchemaLine()
    ensures Of(",") + (JsonPretty.Line(1) + JsonPretty.Quoted(Of("schema")) + Of(": ")) == Of(",\n  \"schema\": ")
  {
    hide JsonPretty.Line, JsonPretty.Quoted;
    KeyLine(",", "schema");
    assert "," + ("\n  \"" + ("schema" + "\": ")) == ",\n  \"schema\": ";
  }

  lemma {:induction false} MemberLines(a: Member, b: Member, c: Member, d: Member)
    ensures JsonPretty.Members([a, b, c, d], 1) ==
      (JsonPretty.Line(1) + JsonPretty.Quoted(a.key) + Of(": ")) + JsonPretty.Pretty(a.value, 1) + (Of(",") +
      ((JsonPretty.Line(1) + JsonPretty.Quoted(b.key) + Of(": ")) + JsonPretty.Pretty(b.value, 1) + (Of(",") +
      ((JsonPretty.Line(1) + JsonPretty.Quoted(c.key) + Of(": ")) + JsonPretty.Pretty(c.value, 1) + (Of(",") +
      ((JsonPretty.Line(1) + JsonPretty.Quoted(d.key) + Of(": ")) + JsonPretty.Pretty(d.value, 1) + []))))))
  {
    hide JsonPretty.Members, JsonPretty.Pretty, JsonPretty.Quoted, JsonPretty.Line;
    JsonPretty.MembersCons(d, [], 1);
    JsonPretty.MembersCons(c, [d], 1);
    JsonPretty.MembersCons(b, [c, d], 1);
    JsonPretty.MembersCons(a, [b, c, d], 1);
    assert [d] + [] == [d] && [c] + [d] == [c, d] && [b] + [c, d] == [b, c, d] && [a] + [b, c, d] == [a, b, c, d];
  }

  /** The text between the braces, in pieces. */
  lemma {:induction false} Pieces(a: PyStr, ta: PyStr, b: PyStr, tb: PyStr, c: PyStr, tc: PyStr, d: PyStr, td: PyStr)
    ensures Of("{") + (a + ta + (Of(",") + (b + tb + (Of(",") + (c + tc + (Of(",") + (d + td + []))))))) + [10] +
      Of("}") == (Of("{") + a) + ta + (Of(",") + b) + tb + (Of(",") + c) + tc + (Of(",") + d) + td + Of("\n}")
  {
    assert Of("\n}") == [10] + Of("}");
  }

  lemma {:induction false} OrderedObject(m: seq<Member>, r: ChainRecord)
    requires m == OrderedMembers(r)
    ensures JsonPretty.Pretty(Obj(m), 0) == Of("{") + JsonPretty.Members(m, 1) + [10] + Of("}")
    ensures m == [m[0], m[1], m[2], m[3]]
    ensures JsonPretty.Pretty(m[0].value, 1) == JsonPretty.Quoted(r.operation)
    ensures JsonPretty.Pretty(m[2].value, 1) == JsonPretty.Quoted(r.previousRevision)
    ensures JsonPretty.Pretty(m[3].value, 1) == JsonPretty.Quoted(r.schema)
  {
  }

  lemma {:induction false} OrderedPretty(r: ChainRecord)
    ensures JsonPretty.Pretty(Obj(OrderedMembers(r)), 0) ==
      Of("{\n  \"operation\": ") + JsonPretty.Quoted(r.operation) +
      Of(",\n  \"payload\": ") + JsonPretty.Pretty(JsonPretty.Arranged(Obj(r.payload)), 1) +
      Of(",\n  \"previous_revision\": ") + JsonPretty.Quoted(r.previousRevision) +
      Of(",\n  \"schema\": ") + JsonPretty.Quoted(r.schema) + Of("\n}")
  {
    var m := OrderedMembers(r);
    OrderedObject(m, r);
    hide JsonPretty.Pretty, JsonPretty.Quoted, JsonPretty.Members, JsonPretty.Line, JsonPretty.Arranged;
    MemberLines(m[0], m[1], m[2], m[3]);
    OperationLine();
    PayloadLine();
    PreviousLine();
    SchemaLine();
    Pieces(JsonPretty.Line(1) + JsonPretty.Quoted(Of("operation")) + Of(": "), JsonPretty.Quoted(r.operation),
      JsonPretty.Line(1) + JsonPretty.Quoted(Of("payload")) + Of(": "),
      JsonPretty.Pretty(JsonPretty.Arranged(Obj(r.payload)), 1),
      JsonPretty.Line(1) + JsonPretty.Quoted(Of("previous_revision")) + Of(": "), JsonPretty.Quoted(r.previousRevision),
      JsonPretty.Line(1) + JsonPretty.Quoted(Of("schema")) + Of(": "), JsonPretty.Quoted(r.schema));
  }

  lemma {:induction false} LastLine(front: PyStr)
    ensures front + Of("\n}") + [10] == front + Of("\n}\n")
  {
    assert Of("\n}") + [10] == Of("\n}\n");
  }

  /** The canonical bytes of a record, character by character: four fields in key order, the payload with its keys in
      order, two spaces for each level, and a line feed at the end. */
  lemma {:induction false} CanonicalText(r: ChainRecord)
    requires IsRecord(r) && CanonicalRecordBytes(r).Success?
    ensures Utf8.Decode(CanonicalRecordBytes(r).value) == Some(
      Of("{\n  \"operation\": ") + JsonPretty.Quoted(r.operation) +
      Of(",\n  \"payload\": ") + JsonPretty.Pretty(JsonPretty.Arranged(Obj(r.payload)), 1) +
      Of(",\n  \"previous_revision\": ") + JsonPretty.Quoted(r.previousRevision) +
      Of(",\n  \"schema\": ") + JsonPretty.Quoted(r.schema) + Of("\n}\n"))
  {
    DocumentOfBytes(r, CanonicalRecordBytes(r).value, [10]);
    hide JsonPretty.Pretty, JsonPretty.Quoted, JsonPretty.Arranged, WellFormed, AllFinite, Dumps, IsRecord,
      OrderedMembers, Document, CanonicalRecordBytes, Utf8.Decode;
    JsonPretty.DumpsIsPretty(Document(r));
    ArrangedDocument(r);
    OrderedPretty(r);
    LastLine(Of("{\n  \"operation\": ") + JsonPretty.Quoted(r.operation) +
      Of(",\n  \"payload\": ") + JsonPretty.Pretty(JsonPretty.Arranged(Obj(r.payload)), 1) +
      Of(",\n  \"previous_revision\": ") + JsonPretty.Quoted(r.previousRevision) +
      Of(",\n  \"schema\": ") + JsonPretty.Quoted(r.schema));
  }

  // ---- When there are canonical bytes ----

  lemma {:induction false} FourMembers(a: Member, b: Member, c: Member, d: Member)
    ensures JsonEncoding.SurrogateFree(Obj([a, b, c, d])) <==>
      && Encodable(a.key) && JsonEncoding.SurrogateFree(a.value) && Encodable(b.key) &&
        JsonEncoding.SurrogateFree(b.value)
      && Encodable(c.key) && JsonEncoding.SurrogateFree(c.value) && Encodable(d.key) &&
        JsonEncoding.SurrogateFree(d.value)
    ensures AllFinite(Obj([a, b, c, d])) <==>
      AllFinite(a.value) && AllFinite(b.value) && AllFinite(c.value) && AllFinite(d.value)
  {
    var members := [a, b, c, d];
    assert members[0] == a && members[1] == b && members[2] == c && members[3] == d;
  }

  lemma {:induction false} KeysEncodable()
    ensures Encodable(Of("schema")) && Encodable(Of("operation")) && Encodable(Of("previous_revision")) &&
      Encodable(Of("payload"))
  {
  }

  lemma {:induction false} DocumentClean(r: ChainRecord)
    ensures JsonEncoding.SurrogateFree(Document(r)) <==>
      Encodable(r.schema) && Encodable(r.operation) && Encodable(r.previousRevision) &&
        JsonEncoding.SurrogateFree(Obj(r.payload))
    ensures AllFinite(Document(r)) <==> AllFinite(Obj(r.payload))
  {
    KeysEncodable();
    FourMembers(Member(Of("schema"), Str(r.schema)), Member(Of("operation"), Str(r.operation)),
      Member(Of("previous_revision"), Str(r.previousRevision)), Member(Of("payload"), Obj(r.payload)));
  }

  /** The outcome of `canonical_record_bytes`: NaN and the infinities are refused with the declared error,
      a surrogate anywhere escapes as the codec's own error, and nothing else fails. */
  lemma {:induction false} CanonicalBytesOutcome(r: ChainRecord)
    requires IsRecord(r)
    ensures CanonicalRecordBytes(r) == Failure(ChainRecordError) <==> !AllFinite(Obj(r.payload))
    ensures CanonicalRecordBytes(r).Success? <==>
      && AllFinite(Obj(r.payload)) && JsonEncoding.SurrogateFree(Obj(r.payload))
      && Encodable(r.schema) && Encodable(r.operation) && Encodable(r.previousRevision)
  {
    DocumentWellFormed(r);
    DocumentClean(r);
    if AllFinite(Document(r)) {
      JsonEncoding.DumpsEncodable(Document(r));
      Utf8.EncodeFailsExactlyOnSurrogates(Dumps(Document(r)).value);
    }
  }

  /** A record that makes the codec's own error escape: its operation is a lone surrogate. */
  lemma {:induction false} SurrogateEscapes() returns (r: ChainRecord)
    ensures IsRecord(r) && CanonicalRecordBytes(r) == Failure(UnicodeEncodeError)
  {
    r := ChainRecord([0xD800], [], [], RECORD_SCHEMA);
    assert r.operation[0] == 0xD800 && !IsSpace(0xD800);
    assert AllFinite(Obj(r.payload));
    CanonicalBytesOutcome(r);
    assert 0xD800 in r.operation && IsSurrogate(0xD800);
  }

  // ---- Content addresses ----

  function Revision(hexdigest: seq<byte> -> PyStr, data: seq<byte>): PyStr {
    Framing.REVISION_PREFIX + hexdigest(data)
  }

  /** Different bytes with the same digest. */
  predicate Collide(hexdigest: seq<byte> -> PyStr, x: seq<byte>, y: seq<byte>) {
    x != y && hexdigest(x) == hexdigest(y)
  }

  /** One address, one record: two records share a revision exactly if they are equal or their own bytes collide. */
  lemma {:induction false} RevisionBindsRecord(hexdigest: seq<byte> -> PyStr, a: ChainRecord, b: ChainRecord)
    requires IsRecord(a) && IsRecord(b) && CanonicalRecordBytes(a).Success? && CanonicalRecordBytes(b).Success?
    ensures var (x, y) := (CanonicalRecordBytes(a).value, CanonicalRecordBytes(b).value);
      Revision(hexdigest, x) == Revision(hexdigest, y) <==> SameRecord(a, b) || Collide(hexdigest, x, y)
    ensures SameRecord(a, b) <==> CanonicalRecordBytes(a) == CanonicalRecordBytes(b)
  {
    BytesAreCanonical(a, b);
    var (x, y) := (CanonicalRecordBytes(a).value, CanonicalRecordBytes(b).value);
    assert hexdigest(x) == Revision(hexdigest, x)[|Framing.REVISION_PREFIX|..];
    assert hexdigest(y) == Revision(hexdigest, y)[|Framing.REVISION_PREFIX|..];
  }

  /** The record can be stored, so it has an address. */
  predicate Storable(r: ChainRecord) {
    IsRecord(r) && CanonicalRecordBytes(r).Success?
  }

  function Address(hexdigest: seq<byte> -> PyStr, r: ChainRecord): (address: PyStr)
    requires Storable(r)
    ensures address != []
  {
    Revision(hexdigest, CanonicalRecordBytes(r).value)
  }

  predicate AddressedBy(hexdigest: seq<byte> -> PyStr, chain: seq<ChainRecord>, addresses: seq<PyStr>) {
    && |addresses| == |chain|
    && forall i {:trigger chain[i]} :: 0 <= i < |chain| ==>
         Storable(chain[i]) && addresses[i] == Address(hexdigest, chain[i])
  }

  /** The first record names no predecessor, every other one names the revision it extends. */
  predicate Linked(chain: seq<ChainRecord>, addresses: seq<PyStr>)
    requires |addresses| == |chain|
  {
    forall i :: 0 <= i < |chain| ==> chain[i].previousRevision == if i == 0 then [] else addresses[i - 1]
  }

  predicate SameChain(a: seq<ChainRecord>, b: seq<ChainRecord>) {
    |a| == |b| && forall i :: 0 <= i < |a| ==> SameRecord(a[i], b[i])
  }

  lemma {:induction false} SameChainAppend(a: seq<ChainRecord>, b: seq<ChainRecord>)
    requires a != [] && b != [] && SameChain(a[..|a| - 1], b[..|b| - 1]) && SameRecord(a[|a| - 1], b[|b| - 1])
    ensures SameChain(a, b)
  {
  }

  /** The records `k` links before the two heads are different and collide. */
  predicate CollideAt(hexdigest: seq<byte> -> PyStr, a: seq<ChainRecord>, b: seq<ChainRecord>, k: nat) {
    && k < |a| && k < |b| && Storable(a[|a| - 1 - k]) && Storable(b[|b| - 1 - k])
    && !SameRecord(a[|a| - 1 - k], b[|b| - 1 - k])
    && Collide(hexdigest, CanonicalRecordBytes(a[|a| - 1 - k]).value, CanonicalRecordBytes(b[|b| - 1 - k]).value)
  }

  /** The predecessor link is inside the hashed range, so the head revision fixes the whole lineage: two chains with the
      same head are the same, link by link, exactly if no two of their own records, equally far from the heads, are
      different and collide. */
  lemma {:induction false} HeadPinsLineage(hexdigest: seq<byte> -> PyStr, a: seq<ChainRecord>, ra: seq<PyStr>,
      b: seq<ChainRecord>, rb: seq<PyStr>)
    requires a != [] && AddressedBy(hexdigest, a, ra) && Linked(a, ra)
    requires b != [] && AddressedBy(hexdigest, b, rb) && Linked(b, rb)
    requires ra[|a| - 1] == rb[|b| - 1]
    ensures SameChain(a, b) <==> forall k: nat :: !CollideAt(hexdigest, a, b, k)
  {
    hide Storable, SameRecord, Address;
    if SameChain(a, b) {
      forall k: nat | k < |a| ensures !CollideAt(hexdigest, a, b, k) {
        assert SameRecord(a[|a| - 1 - k], b[|b| - 1 - k]);
      }
    } else {
      var k := FirstCollision(hexdigest, a, ra, b, rb);
    }
  }

  lemma {:induction false} FrontAddressed(hexdigest: seq<byte> -> PyStr, a: seq<ChainRecord>, ra: seq<PyStr>)
    requires a != [] && AddressedBy(hexdigest, a, ra) && Linked(a, ra)
    ensures |ra| == |a|
    ensures var m := |a| - 1; AddressedBy(hexdigest, a[..m], ra[..m]) && Linked(a[..m], ra[..m])
    ensures var m := |a| - 1;
      Storable(a[m]) && ra[m] == Address(hexdigest, a[m]) && a[m].previousRevision == if m == 0 then [] else ra[m - 1]
    ensures |a| > 1 ==> ra[|a| - 2] != []
  {
    hide Storable;
    var m := |a| - 1;
    if m > 0 {
      assert ra[m - 1] == Address(hexdigest, a[m - 1]);
    }
    forall i | 0 <= i < m ensures a[..m][i].previousRevision == if i == 0 then [] else ra[..m][i - 1] {
      assert a[i] == a[..m][i];
    }
  }

  lemma {:induction false} FirstCollision(hexdigest: seq<byte> -> PyStr, a: seq<ChainRecord>, ra: seq<PyStr>,
      b: seq<ChainRecord>, rb: seq<PyStr>)
    returns (k: nat)
    requires a != [] && AddressedBy(hexdigest, a, ra) && Linked(a, ra)
    requires b != [] && AddressedBy(hexdigest, b, rb) && Linked(b, rb)
    requires ra[|a| - 1] == rb[|b| - 1] && !SameChain(a, b)
    ensures CollideAt(hexdigest, a, b, k)
  {
    hide Storable, AddressedBy, Linked, SameChain, CollideAt, SameRecord, Address;
    var (m, n) := (|a| - 1, |b| - 1);
    FrontAddressed(hexdigest, a, ra);
    FrontAddressed(hexdigest, b, rb);
    if SameRecord(a[m], b[n]) {
      SamePrevious(a[m], b[n]);
      if SameChain(a[..m], b[..n]) {
        SameChainAppend(a, b);
        assert false;
      }
      NoneBefore(a[..m], b[..n]);
      k := FirstCollision(hexdigest, a[..m], ra[..m], b[..n], rb[..n]);
      CollideBefore(hexdigest, a, b, k);
      k := k + 1;
    } else {
      CollideHere(hexdigest, a, b);
      k := 0;
    }
  }

  lemma {:induction false} SamePrevious(a: ChainRecord, b: ChainRecord)
    requires SameRecord(a, b)
    ensures a.previousRevision == b.previousRevision
  {
  }

  lemma {:induction false} NoneBefore(a: seq<ChainRecord>, b: seq<ChainRecord>)
    ensures a == [] && b == [] ==> SameChain(a, b)
  {
  }

  lemma {:induction false} CollideBefore(hexdigest: seq<byte> -> PyStr, a: seq<ChainRecord>, b: seq<ChainRecord>,
      k: nat)
    requires a != [] && b != [] && CollideAt(hexdigest, a[..|a| - 1], b[..|b| - 1], k)
    ensures CollideAt(hexdigest, a, b, k + 1)
  {
    hide Storable, SameRecord, CanonicalRecordBytes;
    assert a[..|a| - 1][|a| - 2 - k] == a[|a| - 2 - k] && b[..|b| - 1][|b| - 2 - k] == b[|b| - 2 - k];
  }

  lemma {:induction false} CollideHere(hexdigest: seq<byte> -> PyStr, a: seq<ChainRecord>, b: seq<ChainRecord>)
    requires a != [] && b != [] && Storable(a[|a| - 1]) && Storable(b[|b| - 1])
    requires Address(hexdigest, a[|a| - 1]) == Address(hexdigest, b[|b| - 1]) && !SameRecord(a[|a| - 1], b[|b| - 1])
    ensures CollideAt(hexdigest, a, b, 0)
  {
    RevisionBindsRecord(hexdigest, a[|a| - 1], b[|b| - 1]);
  }
}
