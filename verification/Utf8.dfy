/** UTF-8 as the store writes it and the reader takes it. */
module Utf8 {
  import opened Common
  import opened Utf16

  type Byte = b: nat | b < 256

  /** The scalar value of a surrogate pair. */
  function Scalar(high: CodeUnit, low: CodeUnit): (c: nat)
    requires IsHigh(high) && IsLow(low)
    ensures 0x1_0000 <= c < 0x11_0000
  {
    0x1_0000 + (high - 0xD800) * 0x400 + (low - 0xDC00)
  }

  /** One character outside the surrogates in one to three bytes. */
  function EncodeUnit(u: CodeUnit): (b: seq<Byte>)
    requires !IsHigh(u) && !IsLow(u)
    ensures 1 <= |b| <= 3
  {
    if u < 0x80 then [u]
    else if u < 0x800 then [0xC0 + u / 64, 0x80 + u % 64]
    else [0xE0 + u / 4096, 0x80 + u / 64 % 64, 0x80 + u % 64]
  }

  function EncodePair(high: CodeUnit, low: CodeUnit): (b: seq<Byte>)
    requires IsHigh(high) && IsLow(low)
    ensures |b| == 4
  {
    var c := Scalar(high, low);
    [0xF0 + c / 262144, 0x80 + c / 4096 % 64, 0x80 + c / 64 % 64, 0x80 + c % 64]
  }

  /** How many units the first character takes. */
  function Width(t: Text): (n: nat)
    requires Paired(t) && t != []
    ensures 1 <= n <= |t| && Paired(t[n..])
  {
    if IsHigh(t[0]) then 2 else 1
  }

  function EncodeFirst(t: Text): (b: seq<Byte>)
    requires Paired(t) && t != []
    ensures b != []
  {
    if IsHigh(t[0]) then EncodePair(t[0], t[1]) else EncodeUnit(t[0])
  }

  function Encode(t: Text): seq<Byte>
    requires Paired(t)
  {
    if t == [] then [] else EncodeFirst(t) + Encode(t[Width(t)..])
  }

  predicate IsTail(b: Byte) { 0x80 <= b < 0xC0 }

  /** The six bits of a continuation byte. */
  function Six(b: Byte): (bits: nat)
    requires IsTail(b)
    ensures bits < 64
  {
    b as int - 0x80
  }

  /** The first character of `b` and how many bytes it takes; overlong forms and encoded surrogates are refused. */
  function DecodeFirst(b: seq<Byte>): (r: Option<(Text, nat)>)
    requires b != []
    ensures r.Some? ==> 1 <= r.value.1 <= |b| && |r.value.0| > 0
  {
    var lead := b[0];
    if lead < 0x80 then Some(([lead], 1))
    else if 0xC2 <= lead < 0xE0 && |b| >= 2 && IsTail(b[1]) then Some(([(lead as int - 0xC0) * 64 + Six(b[1])], 2))
    else if 0xE0 <= lead < 0xF0 && |b| >= 3 && IsTail(b[1]) && IsTail(b[2]) then
      var u := (lead as int - 0xE0) * 4096 + Six(b[1]) * 64 + Six(b[2]);
      if u < 0x800 || IsHigh(u) || IsLow(u) then None else Some(([u], 3))
    else if 0xF0 <= lead < 0xF5 && |b| >= 4 && IsTail(b[1]) && IsTail(b[2]) && IsTail(b[3]) then
      var c := (lead as int - 0xF0) * 262144 + Six(b[1]) * 4096 + Six(b[2]) * 64 + Six(b[3]);
      if c < 0x1_0000 || c >= 0x11_0000 then None
      else Some(([0xD800 + (c - 0x1_0000) / 0x400, 0xDC00 + (c - 0x1_0000) % 0x400], 4))
    else None
  }

  function Decode(b: seq<Byte>): Option<Text> {
    if b == [] then Some([])
    else
      var first := DecodeFirst(b);
      if first.None? then None
      else
        var rest := Decode(b[first.value.1..]);
        if rest.None? then None else Some(first.value.0 + rest.value)
  }

  lemma UnitRoundTrip(u: CodeUnit, rest: seq<Byte>)
    requires !IsHigh(u) && !IsLow(u)
    ensures DecodeFirst(EncodeUnit(u) + rest) == Some(([u], |EncodeUnit(u)|))
  {}

  /** A number below 2^24 from its digits to the base 64, and the digits from the number. */
  lemma Base64Digits(c: nat)
    ensures c == c / 262144 * 262144 + c / 4096 % 64 * 4096 + c / 64 % 64 * 64 + c % 64
  {
    assert c / 4096 == c / 64 / 64 && c / 262144 == c / 4096 / 64;
  }

  lemma FromBase64Digits(a: nat, d: nat, e: nat, f: nat)
    requires d < 64 && e < 64 && f < 64
    ensures var c := a * 262144 + d * 4096 + e * 64 + f;
      c / 262144 == a && c / 4096 % 64 == d && c / 64 % 64 == e && c % 64 == f
  {
    var c := a * 262144 + d * 4096 + e * 64 + f;
    assert c / 64 == a * 4096 + d * 64 + e;
    assert c / 4096 == a * 64 + d;
  }

  lemma PairRoundTrip(high: CodeUnit, low: CodeUnit, rest: seq<Byte>)
    requires IsHigh(high) && IsLow(low)
    ensures DecodeFirst(EncodePair(high, low) + rest) == Some(([high, low], 4))
  {
    var c := Scalar(high, low);
    var b := EncodePair(high, low) + rest;
    assert (c - 0x1_0000) / 0x400 == high - 0xD800 && (c - 0x1_0000) % 0x400 == low - 0xDC00;
    Base64Digits(c);
    assert b[0] == 0xF0 + c / 262144 && b[1] == 0x80 + c / 4096 % 64 && b[2] == 0x80 + c / 64 % 64 && b[3] == 0x80 + c % 64;
    assert (b[0] as int - 0xF0) * 262144 + Six(b[1]) * 4096 + Six(b[2]) * 64 + Six(b[3]) == c;
  }

  lemma FirstRoundTrip(t: Text, rest: seq<Byte>)
    requires Paired(t) && t != []
    ensures DecodeFirst(EncodeFirst(t) + rest) == Some((t[..Width(t)], |EncodeFirst(t)|))
  {
    hide EncodePair, EncodeUnit, DecodeFirst;
    if IsHigh(t[0]) {
      PairRoundTrip(t[0], t[1], rest);
      assert t[..2] == [t[0], t[1]];
    } else {
      UnitRoundTrip(t[0], rest);
      assert t[..1] == [t[0]];
    }
  }

  /** Decoding undoes encoding. */
  lemma {:induction false} DecodeEncode(t: Text)
    requires Paired(t)
    ensures Decode(Encode(t)) == Some(t)
  {
    if t != [] {
      hide EncodeFirst, DecodeFirst, Width;
      var n, first := Width(t), EncodeFirst(t);
      FirstRoundTrip(t, Encode(t[n..]));
      assert Encode(t)[|first|..] == Encode(t[n..]);
      DecodeEncode(t[n..]);
      assert t == t[..n] + t[n..];
    }
  }

  /** What is decoded is well paired, and its encoding is what was decoded: no text has two encodings. */
  lemma {:induction false} EncodeDecode(b: seq<Byte>)
    requires Decode(b).Some?
    ensures Paired(Decode(b).value) && Encode(Decode(b).value) == b
  {
    if b != [] {
      var (units, n) := DecodeFirst(b).value;
      EncodeDecode(b[n..]);
      var t := Decode(b).value;
      FirstIsCanonical(b);
      assert t[|units|..] == Decode(b[n..]).value;
      assert t[..|units|] == units;
      assert t[0] == units[0];
      if |units| == 2 { assert t[1] == units[1]; }
      assert b == b[..n] + b[n..];
    }
  }

  lemma FirstIsCanonical(b: seq<Byte>)
    requires b != [] && DecodeFirst(b).Some?
    ensures var (units, n) := DecodeFirst(b).value;
      || (|units| == 1 && !IsHigh(units[0]) && !IsLow(units[0]) && EncodeUnit(units[0]) == b[..n])
      || (|units| == 2 && IsHigh(units[0]) && IsLow(units[1]) && EncodePair(units[0], units[1]) == b[..n])
  {
    var (units, n) := DecodeFirst(b).value;
    if n == 4 {
      var c := (b[0] as int - 0xF0) * 262144 + Six(b[1]) * 4096 + Six(b[2]) * 64 + Six(b[3]);
      FromBase64Digits(b[0] as int - 0xF0, Six(b[1]), Six(b[2]), Six(b[3]));
      assert Scalar(units[0], units[1]) == c;
      assert EncodePair(units[0], units[1]) == b[..4];
    } else if n == 3 {
      FromBase64Digits(0, b[0] as int - 0xE0, Six(b[1]), Six(b[2]));
      assert EncodeUnit(units[0]) == b[..3];
    }
  }

  lemma FirstOfAppend(s: Text, t: Text)
    requires Paired(s) && s != [] && Paired(t) && Paired(s[Width(s)..] + t)
    ensures Paired(s + t) && EncodeFirst(s + t) == EncodeFirst(s) && Width(s + t) == Width(s)
    ensures (s + t)[Width(s)..] == s[Width(s)..] + t
  {
    hide EncodePair, EncodeUnit;
    assert (s + t)[Width(s)..] == s[Width(s)..] + t;
  }

  /** Texts are encoded piece by piece. */
  lemma {:induction false} EncodeAppend(s: Text, t: Text)
    requires Paired(s) && Paired(t)
    ensures Paired(s + t) && Encode(s + t) == Encode(s) + Encode(t)
  {
    if s == [] {
      assert s + t == t;
    } else {
      EncodeAppend(s[Width(s)..], t);
      FirstOfAppend(s, t);
      hide EncodeFirst, Width, Paired;
      assert Encode(s + t) == EncodeFirst(s) + Encode(s[Width(s)..] + t);
    }
  }
}
