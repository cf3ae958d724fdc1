/** Python text and bytes: a `str` is a sequence of code points, surrogates included,
    and UTF-8 is the strict codec of `str.encode` and `bytes.decode`. */
module Unicode {
  type CodePoint = c: int | 0 <= c < 0x11_0000
  type PyStr = seq<CodePoint>

  /** Readable spelling of a constant Python string. */
  function Of(s: string): (r: PyStr)
    ensures |r| == |s| && forall i :: 0 <= i < |s| ==> r[i] == s[i] as int
  {
    seq(|s|, i requires 0 <= i < |s| => s[i] as int)
  }

  predicate IsSurrogate(c: int) {
    0xD800 <= c < 0xE000
  }

  /** What `str.encode("utf-8")` accepts. */
  predicate Encodable(s: PyStr) {
    forall c :: c in s ==> !IsSurrogate(c)
  }

  /** The characters `str.strip()` removes. */
  predicate IsSpace(c: CodePoint) {
    || 9 <= c <= 13 || 28 <= c <= 32 || c == 0x85 || c == 0xA0 || c == 0x1680
    || 0x2000 <= c <= 0x200A || c == 0x2028 || c == 0x2029 || c == 0x202F || c == 0x205F || c == 0x3000
  }

  /** `not s.strip()` */
  predicate IsBlank(s: PyStr) {
    forall c :: c in s ==> IsSpace(c)
  }

  /** Code-point order, the order Python sorts strings by. */
  predicate Less(a: PyStr, b: PyStr) {
    if b == [] then false
    else if a == [] then true
    else a[0] < b[0] || (a[0] == b[0] && Less(a[1..], b[1..]))
  }

  /** Behind their longest common beginning the lesser text ends or has the lesser code point. */
  lemma {:induction false} LessMeans(a: PyStr, b: PyStr)
    ensures Less(a, b) <==>
      exists k: nat :: k <= |a| && k < |b| && a[..k] == b[..k] && (k == |a| || a[k] < b[k])
  {
    if b == [] {
    } else if a == [] || a[0] != b[0] {
      assert a[..0] == b[..0];
      forall k: nat | 0 < k <= |a| && k < |b| ensures a[..k] != b[..k] {
        assert a[..k][0] == a[0] && b[..k][0] == b[0];
      }
    } else {
      LessMeans(a[1..], b[1..]);
      if Less(a, b) {
        var k: nat :| k <= |a[1..]| && k < |b[1..]| && a[1..][..k] == b[1..][..k] &&
          (k == |a[1..]| || a[1..][k] < b[1..][k]);
        assert a[..k + 1] == [a[0]] + a[1..][..k] && b[..k + 1] == [b[0]] + b[1..][..k];
      }
      forall k: nat | k <= |a| && k < |b| && a[..k] == b[..k] && (k == |a| || a[k] < b[k]) ensures Less(a, b) {
        assert k > 0 && a[1..][..k - 1] == a[..k][1..] && b[1..][..k - 1] == b[..k][1..];
      }
    }
  }

  /** The white space of Unicode and the four separators of ASCII. */
  lemma {:induction false} SpacesExactly(c: CodePoint)
    ensures IsSpace(c) <==> c in {
      9, 10, 11, 12, 13, 28, 29, 30, 31, 32, 133, 160, 5760, 8192, 8193, 8194, 8195, 8196, 8197, 8198, 8199, 8200, 8201,
      8202, 8232, 8233, 8239, 8287, 12288}
  {
  }

  lemma {:induction false} LessTotal(a: PyStr, b: PyStr)
    ensures a != b ==> Less(a, b) || Less(b, a)
    ensures !(Less(a, b) && Less(b, a))
    ensures !Less(a, a)
  {
    if a != [] && b != [] && a[0] == b[0] {
      LessTotal(a[1..], b[1..]);
      assert a == [a[0]] + a[1..] && b == [b[0]] + b[1..];
    }
    if a != [] {
      LessTotal(a[1..], a[1..]);
    }
  }

  lemma {:induction false} LessTransitive(a: PyStr, b: PyStr, c: PyStr)
    requires Less(a, b) && Less(b, c)
    ensures Less(a, c)
  {
    if a != [] && a[0] == b[0] == c[0] {
      LessTransitive(a[1..], b[1..], c[1..]);
    }
  }
}

/** Strict UTF-8: decoding accepts exactly the encodings of surrogate-free strings. */
module Utf8 {
  import opened Basics
  import opened Unicode

  function EncodeChar(c: CodePoint): (bs: seq<byte>)
    requires !IsSurrogate(c)
  {
    var (high, low) := (c / 64, 0x80 + c % 64);
    if c < 0x80 then [c]
    else if c < 0x800 then [0xC0 + high, low]
    else if c < 0x1_0000 then [0xE0 + high / 64, 0x80 + high % 64, low]
    else [0xF0 + high / 64 / 64, 0x80 + high / 64 % 64, 0x80 + high % 64, low]
  }

  /** `s.encode("utf-8")`; None is UnicodeEncodeError. */
  function Encode(s: PyStr): Option<seq<byte>> {
    if s == [] then Some([])
    else if IsSurrogate(s[0]) then None
    else match Encode(s[1..])
      case None => None
      case Some(rest) => Some(EncodeChar(s[0]) + rest)
  }

  predicate Continuation(b: byte) {
    0x80 <= b < 0xC0
  }

  /** Appends the six payload bits of a continuation byte. */
  function Extend(high: nat, b: byte): (c: nat)
    requires Continuation(b)
    ensures c / 64 == high && c % 64 == b - 0x80
  {
    high * 64 + (b as int - 0x80)
  }

  /** The first code point of `bs` and the number of bytes it takes; None is UnicodeDecodeError. */
  function DecodeChar(bs: seq<byte>): (r: Option<(CodePoint, nat)>)
    requires bs != []
    ensures r.Some? ==> 1 <= r.value.1 <= |bs| && !IsSurrogate(r.value.0)
  {
    var lead: int := bs[0];
    if lead < 0x80 then Some((lead, 1))
    else if 0xC2 <= lead < 0xE0 && |bs| >= 2 && Continuation(bs[1]) then
      Some((Extend(lead - 0xC0, bs[1]), 2))
    else if 0xE0 <= lead < 0xF0 && |bs| >= 3 && Continuation(bs[1]) && Continuation(bs[2]) then
      var c := Extend(Extend(lead - 0xE0, bs[1]), bs[2]);
      if c < 0x800 || IsSurrogate(c) then None else Some((c, 3))
    else if 0xF0 <= lead < 0xF5 && |bs| >= 4 && Continuation(bs[1]) && Continuation(bs[2]) && Continuation(bs[3]) then
      var c := Extend(Extend(Extend(lead - 0xF0, bs[1]), bs[2]), bs[3]);
      if c < 0x1_0000 || c >= 0x11_0000 then None else Some((c, 4))
    else None
  }

  /** `bs.decode("utf-8")` */
  function Decode(bs: seq<byte>): Option<PyStr> {
    if bs == [] then Some([])
    else match DecodeChar(bs)
      case None => None
      case Some((c, n)) =>
        match Decode(bs[n..])
        case None => None
        case Some(rest) => Some([c] + rest)
  }

  lemma {:induction false} DecodeCharOfEncodeChar(c: CodePoint, rest: seq<byte>)
    requires !IsSurrogate(c)
    ensures DecodeChar(EncodeChar(c) + rest) == Some((c, |EncodeChar(c)|))
  {
  }

  lemma {:induction false} EncodeCharOfDecodeChar(bs: seq<byte>)
    requires bs != [] && DecodeChar(bs).Some?
    ensures var (c, n) := DecodeChar(bs).value; bs[..n] == EncodeChar(c)
  {
    var (c, n) := DecodeChar(bs).value;
    if n == 1 {
      assert bs[..1] == [bs[0]];
    } else if n == 2 {
      assert bs[..2] == [bs[0], bs[1]];
    } else if n == 3 {
      assert bs[..3] == [bs[0], bs[1], bs[2]];
      assert c / 64 == Extend(bs[0] - 0xE0, bs[1]);
    } else {
      assert bs[..4] == [bs[0], bs[1], bs[2], bs[3]];
      assert c / 64 == Extend(Extend(bs[0] - 0xF0, bs[1]), bs[2]);
    }
  }

  lemma {:induction false} EncodeFailsExactlyOnSurrogates(s: PyStr)
    ensures Encode(s).Some? <==> Encodable(s)
    ensures Encode(s).Some? <==> forall i :: 0 <= i < |s| ==> s[i] < 0xD800 || 0xDFFF < s[i]
  {
    if s != [] {
      EncodeFailsExactlyOnSurrogates(s[1..]);
      assert s == [s[0]] + s[1..];
    }
  }

  lemma {:induction false} DecodeOfEncode(s: PyStr)
    requires Encode(s).Some?
    ensures Decode(Encode(s).value) == Some(s)
  {
    if s != [] {
      DecodeOfEncode(s[1..]);
      var first, rest := EncodeChar(s[0]), Encode(s[1..]).value;
      DecodeCharOfEncodeChar(s[0], rest);
      assert (first + rest)[|first|..] == rest;
      assert s == [s[0]] + s[1..];
    }
  }

  lemma {:induction false} EncodeCons(c: CodePoint, s: PyStr)
    requires !IsSurrogate(c) && Encode(s).Some?
    ensures Encode([c] + s) == Some(EncodeChar(c) + Encode(s).value)
  {
  }

  /** Decoding takes one character off the front, and encoding that character puts it back. */
  lemma {:induction false} DecodeStep(bs: seq<byte>) returns (c: CodePoint, after: seq<byte>)
    requires bs != [] && Decode(bs).Some?
    ensures |after| < |bs| && Decode(after).Some? && Decode(bs).value == [c] + Decode(after).value
    ensures forall s :: Encode(s) == Some(after) ==> Encode([c] + s) == Some(bs)
  {
    var n := DecodeChar(bs).value.1;
    c, after := DecodeChar(bs).value.0, bs[n..];
    EncodeCharOfDecodeChar(bs);
    assert bs == bs[..n] + after;
    forall s | Encode(s) == Some(after) ensures Encode([c] + s) == Some(bs) {
      EncodeCons(c, s);
    }
  }

  lemma {:induction false} EncodeOfDecode(bs: seq<byte>)
    requires Decode(bs).Some?
    ensures Encode(Decode(bs).value) == Some(bs)
    decreases |bs|
  {
    if bs != [] {
      var c, after := DecodeStep(bs);
      EncodeOfDecode(after);
    }
  }

  /** The codec is a bijection: no byte sequence but the encoding decodes to `s`. */
  lemma {:induction false} DecodeInvertsEncode(bs: seq<byte>, s: PyStr)
    ensures Decode(bs) == Some(s) <==> Encode(s) == Some(bs)
  {
    if Encode(s) == Some(bs) {
      DecodeOfEncode(s);
    }
    if Decode(bs) == Some(s) {
      EncodeOfDecode(bs);
    }
  }
}
