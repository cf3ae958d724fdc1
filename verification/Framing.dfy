/** Domain-separated, length-prefixed hashing. The bytes fed to the hash are modelled
    exactly; the hash itself is a parameter. */
module Framing {
  import opened Basics
  import opened Unicode
  import Decimal
  import Utf8

  const NUL: byte := 0
  const REVISION_PREFIX: PyStr := Of("sha256:")
  const DOMAIN_CHAIN_IDENTITY: seq<byte> := Ascii("antigona.review-chain/v1")

  /** A bytes literal; characters outside ASCII do not occur in one. */
  function Ascii(s: string): (bs: seq<byte>)
    ensures |bs| == |s| && forall i :: 0 <= i < |s| && s[i] as int < 128 ==> bs[i] == s[i] as int
  {
    seq(|s|, i requires 0 <= i < |s| => if s[i] as int < 128 then s[i] as int else 0)
  }

  // ---- The byte stream ----

  /** decimal length, NUL, value, NUL */
  function Frame(value: seq<byte>): seq<byte> {
    Decimal.Digits(|value|) + [NUL] + value + [NUL]
  }

  function Frames(fields: seq<seq<byte>>): seq<byte> {
    if fields == [] then [] else Frame(fields[0]) + Frames(fields[1..])
  }

  function Preimage(domain: seq<byte>, fields: seq<seq<byte>>): seq<byte> {
    domain + [NUL] + Frames(fields)
  }

  /** An incremental hash object: what it will hash is all it was fed. */
  class HashWriter {
    var fed: seq<byte>

    constructor ()
      ensures fed == []
    {
      fed := [];
    }

    method Update(data: seq<byte>)
      modifies this
      ensures fed == old(fed) + data
    {
      fed := fed + data;
    }
  }

  method WriteLengthPrefixed(writer: HashWriter, value: seq<byte>)
    modifies writer
    ensures writer.fed == old(writer.fed) + Frame(value)
    ensures writer.fed == old(writer.fed) + Decimal.Digits(|value|) + [0] + value + [0]
  {
    writer.Update(Decimal.Digits(|value|));
    writer.Update([NUL]);
    writer.Update(value);
    writer.Update([NUL]);
  }

  lemma {:induction false} FramesAppend(fields: seq<seq<byte>>, last: seq<byte>)
    ensures Frames(fields + [last]) == Frames(fields) + Frame(last)
  {
    if fields == [] {
      assert [last][1..] == [];
    } else {
      FramesAppend(fields[1..], last);
      assert (fields + [last])[1..] == fields[1..] + [last];
    }
  }

  method DomainDigest(hexdigest: seq<byte> -> PyStr, domain: seq<byte>, fields: seq<seq<byte>>) returns (digest: PyStr)
    ensures digest == Of("sha256:") + hexdigest(domain + [0] + Frames(fields))
  {
    var writer := new HashWriter();
    writer.Update(domain + [NUL]);
    for i := 0 to |fields|
      invariant writer.fed == Preimage(domain, fields[..i])
    {
      FramesAppend(fields[..i], fields[i]);
      assert fields[..i] + [fields[i]] == fields[..i + 1];
      WriteLengthPrefixed(writer, fields[i]);
    }
    assert fields[..|fields|] == fields;
    digest := REVISION_PREFIX + hexdigest(writer.fed);
  }

  // ---- A decoder for the stream ----

  /** The index of the first NUL, or the length when there is none. */
  function FirstNul(bs: seq<byte>): (i: nat)
    ensures i <= |bs| && (forall k :: 0 <= k < i ==> bs[k] != NUL) && (i < |bs| ==> bs[i] == NUL)
  {
    if bs == [] || bs[0] == NUL then 0
    else 1 + FirstNul(bs[1..])
  }

  /** One framed value and the bytes after it. */
  function UnframeOne(bs: seq<byte>): (r: Option<(seq<byte>, seq<byte>)>)
    ensures r.Some? ==> |r.value.1| < |bs|
  {
    var i := FirstNul(bs);
    if i == |bs| || !Decimal.Numeral(bs[..i]) then None
    else
      var end := i + 1 + Decimal.ValueOf(bs[..i]);
      if end >= |bs| || bs[end] != NUL then None else Some((bs[i + 1..end], bs[end + 1..]))
  }

  function Unframe(bs: seq<byte>): Option<seq<seq<byte>>> {
    if bs == [] then Some([])
    else match UnframeOne(bs)
      case None => None
      case Some((value, after)) =>
        match Unframe(after)
        case None => None
        case Some(rest) => Some([value] + rest)
  }

  function DecodePreimage(bs: seq<byte>): Option<(seq<byte>, seq<seq<byte>>)> {
    var i := FirstNul(bs);
    if i == |bs| then None
    else match Unframe(bs[i + 1..])
      case None => None
      case Some(fields) => Some((bs[..i], fields))
  }

  lemma {:induction false} FirstNulIs(prefix: seq<byte>, rest: seq<byte>)
    requires NUL !in prefix
    ensures FirstNul(prefix + [NUL] + rest) == |prefix|
  {
    var bs := prefix + [NUL] + rest;
    assert forall k :: 0 <= k < |prefix| ==> bs[k] == prefix[k];
    assert bs[|prefix|] == NUL;
  }

  lemma {:induction false} UnframeOneOfFrame(value: seq<byte>, rest: seq<byte>)
    ensures UnframeOne(Frame(value) + rest) == Some((value, rest))
  {
    var ds: seq<byte> := Decimal.Digits(|value|);
    var bs, end := Frame(value) + rest, |ds| + 1 + |value|;
    assert bs == ds + [NUL] + (value + [NUL] + rest);
    FirstNulIs(ds, value + [NUL] + rest);
    Decimal.ValueOfDigits(|value|);
    assert bs[..|ds|] == ds && bs[|ds| + 1..end] == value && bs[end] == NUL && bs[end + 1..] == rest;
  }

  lemma {:induction false} UnframeOfFrames(fields: seq<seq<byte>>)
    ensures Unframe(Frames(fields)) == Some(fields)
  {
    if fields != [] {
      UnframeOneOfFrame(fields[0], Frames(fields[1..]));
      UnframeOfFrames(fields[1..]);
      assert fields == [fields[0]] + fields[1..];
    }
  }

  lemma {:induction false} FrameOfUnframeOne(bs: seq<byte>)
    requires UnframeOne(bs).Some?
    ensures var (value, rest) := UnframeOne(bs).value; bs == Frame(value) + rest
  {
    var i := FirstNul(bs);
    var end := i + 1 + Decimal.ValueOf(bs[..i]);
    Decimal.DigitsOfValue(bs[..i]);
    assert bs == bs[..i] + [NUL] + bs[i + 1..end] + [NUL] + bs[end + 1..];
  }

  lemma {:induction false} FramesOfUnframe(bs: seq<byte>)
    requires Unframe(bs).Some?
    ensures Frames(Unframe(bs).value) == bs
  {
    if bs != [] {
      var (value, rest) := UnframeOne(bs).value;
      FrameOfUnframeOne(bs);
      FramesOfUnframe(rest);
      assert Unframe(bs).value[1..] == Unframe(rest).value;
    }
  }

  /** The stream determines the domain tag and the whole field list, and nothing but the
      encoder's own output decodes. Values may hold NULs and digits; only the tag may not hold NUL. */
  lemma {:induction false} StreamIsUniquelyDecodable(domain: seq<byte>, fields: seq<seq<byte>>, bs: seq<byte>)
    requires NUL !in domain
    ensures bs == Preimage(domain, fields) <==> DecodePreimage(bs) == Some((domain, fields))
  {
    if bs == Preimage(domain, fields) {
      PreimageDecodes(domain, fields);
    }
    if DecodePreimage(bs) == Some((domain, fields)) {
      DecodedIsPreimage(bs, domain, fields);
    }
  }

  lemma {:induction false} PreimageDecodes(domain: seq<byte>, fields: seq<seq<byte>>)
    requires NUL !in domain
    ensures DecodePreimage(Preimage(domain, fields)) == Some((domain, fields))
  {
    var bs := Preimage(domain, fields);
    FirstNulIs(domain, Frames(fields));
    UnframeOfFrames(fields);
    assert bs[..|domain|] == domain && bs[|domain| + 1..] == Frames(fields);
  }

  lemma {:induction false} DecodedIsPreimage(bs: seq<byte>, domain: seq<byte>, fields: seq<seq<byte>>)
    requires DecodePreimage(bs) == Some((domain, fields))
    ensures bs == Preimage(domain, fields)
  {
    hide Unframe, Frames, FirstNul;
    var i := FirstNul(bs);
    FramesOfUnframe(bs[i + 1..]);
    assert bs == bs[..i] + [bs[i]] + bs[i + 1..];
  }

  /** Two purposes never share a stream, whatever their fields. */
  lemma {:induction false} DomainsSeparate(d1: seq<byte>, f1: seq<seq<byte>>, d2: seq<byte>, f2: seq<seq<byte>>)
    requires NUL !in d1 && NUL !in d2
    ensures Preimage(d1, f1) == Preimage(d2, f2) <==> d1 == d2 && f1 == f2
  {
    StreamIsUniquelyDecodable(d1, f1, Preimage(d1, f1));
    StreamIsUniquelyDecodable(d2, f2, Preimage(d1, f1));
  }

  /** A tag holding a NUL can collide with another tag: the restriction is needed. */
  lemma {:induction false} NulInDomainCollides()
    ensures Preimage([97, 0, 48, 0], []) == Preimage([97], [[]])
  {
  }

  // ---- Chain identity ----

  function EncodeAll(revisions: seq<PyStr>): Option<seq<seq<byte>>> {
    if revisions == [] then Some([])
    else match (Utf8.Encode(revisions[0]), EncodeAll(revisions[1..]))
      case (Some(first), Some(rest)) => Some([first] + rest)
      case _ => None
  }

  /** None is the UnicodeEncodeError of a revision holding a surrogate. */
  function ChainIdentityPreimage(revisions: seq<PyStr>): Option<seq<byte>> {
    match EncodeAll(revisions)
    case None => None
    case Some(fields) => Some(Preimage(DOMAIN_CHAIN_IDENTITY, fields))
  }

  /** These fields are the encoded revisions, in order. */
  ghost predicate Encoded(revisions: seq<PyStr>, fields: seq<seq<byte>>) {
    |fields| == |revisions| && forall i :: 0 <= i < |revisions| ==> Utf8.Encode(revisions[i]) == Some(fields[i])
  }

  lemma {:induction false} EncodeAllMeans(revisions: seq<PyStr>)
    ensures EncodeAll(revisions).None? <==> exists i :: 0 <= i < |revisions| && Utf8.Encode(revisions[i]).None?
    ensures EncodeAll(revisions).Some? ==> Encoded(revisions, EncodeAll(revisions).value)
  {
    if revisions != [] {
      EncodeAllMeans(revisions[1..]);
      forall i | 1 <= i < |revisions| ensures revisions[i] == revisions[1..][i - 1] {
      }
    }
  }

  method ChainIdentity(hexdigest: seq<byte> -> PyStr, revisions: seq<PyStr>) returns (identity: Option<PyStr>)
    // the digest over the tag and the encoded revisions, in their order; none if one of them cannot be encoded
    ensures identity.None? <==> exists i :: 0 <= i < |revisions| && Utf8.Encode(revisions[i]).None?
    ensures identity.Some? ==>
      exists fields :: Encoded(revisions, fields) &&
        identity.value == Of("sha256:") + hexdigest(Ascii("antigona.review-chain/v1") + [0] + Frames(fields))
    ensures identity == match ChainIdentityPreimage(revisions)
                        case None => None
                        case Some(bs) => Some(REVISION_PREFIX + hexdigest(bs))
  {
    EncodeAllMeans(revisions);
    match EncodeAll(revisions) {
      case None => identity := None;
      case Some(fields) =>
        var digest := DomainDigest(hexdigest, DOMAIN_CHAIN_IDENTITY, fields);
        identity := Some(digest);
    }
  }

  lemma {:induction false} EncodeAllInjective(a: seq<PyStr>, b: seq<PyStr>)
    requires EncodeAll(a).Some? && EncodeAll(a) == EncodeAll(b)
    ensures a == b
  {
    if a != [] && b != [] {
      assert EncodeAll(a).value[0] == Utf8.Encode(a[0]).value && EncodeAll(a).value[1..] == EncodeAll(a[1..]).value;
      assert EncodeAll(b).value[0] == Utf8.Encode(b[0]).value && EncodeAll(b).value[1..] == EncodeAll(b[1..]).value;
      Utf8.DecodeOfEncode(a[0]);
      Utf8.DecodeOfEncode(b[0]);
      EncodeAllInjective(a[1..], b[1..]);
      assert a == [a[0]] + a[1..] && b == [b[0]] + b[1..];
    }
  }

  /** Different lineages hash different bytes, in whatever order or length they differ: they have the same identity
      exactly if the digests of these very bytes are the same. */
  lemma {:induction false} ChainIdentityBindsLineage(hexdigest: seq<byte> -> PyStr, a: seq<PyStr>, b: seq<PyStr>)
    requires ChainIdentityPreimage(a).Some? && ChainIdentityPreimage(b).Some?
    ensures ChainIdentityPreimage(a) == ChainIdentityPreimage(b) <==> a == b
    ensures var (x, y) := (ChainIdentityPreimage(a).value, ChainIdentityPreimage(b).value);
      REVISION_PREFIX + hexdigest(x) == REVISION_PREFIX + hexdigest(y) <==>
        a == b || (x != y && hexdigest(x) == hexdigest(y))
  {
    var (x, y) := (ChainIdentityPreimage(a).value, ChainIdentityPreimage(b).value);
    DomainsSeparate(DOMAIN_CHAIN_IDENTITY, EncodeAll(a).value, DOMAIN_CHAIN_IDENTITY, EncodeAll(b).value);
    if x == y {
      EncodeAllInjective(a, b);
    }
    assert hexdigest(x) == (REVISION_PREFIX + hexdigest(x))[|REVISION_PREFIX|..];
    assert hexdigest(y) == (REVISION_PREFIX + hexdigest(y))[|REVISION_PREFIX|..];
  }
}
