/** The mirror's test for well-formed text against what UTF-8 encodes. */
module Utf8 {
  import opened Mirror

  /** A Unicode scalar value: no surrogate, nothing past the last plane. */
  predicate IsScalar(c: int) {
    0 <= c < 0xD800 || 0xE000 <= c < 0x11_0000
  }

  function Byte(b: nat): char
    requires b < 256
  {
    b as char
  }

  /** A scalar value in one to four bytes, six bits to each byte after the first. */
  function Encode(c: nat): (s: string)
    requires IsScalar(c)
    ensures 1 <= |s| <= 4
  {
    if c < 0x80 then [Byte(c)]
    else if c < 0x800 then [Byte(0xC0 + c / 64), Byte(0x80 + c % 64)]
    else if c < 0x1_0000 then [Byte(0xE0 + c / 4096), Byte(0x80 + c / 64 % 64), Byte(0x80 + c % 64)]
    else [Byte(0xF0 + c / 262144), Byte(0x80 + c / 4096 % 64), Byte(0x80 + c / 64 % 64), Byte(0x80 + c % 64)]
  }

  lemma EncodedIsWide(c: nat, rest: string)
    requires IsScalar(c)
    ensures Width(Encode(c) + rest) == |Encode(c)|
  {
    WideAlone(c);
    hide Encode;
    WidthOfPrefix(Encode(c), rest);
  }

  lemma WideAlone(c: nat)
    requires IsScalar(c)
    ensures Width(Encode(c)) == |Encode(c)|
  {
  }

  lemma TwoBytes(a: nat, b: nat)
    requires 0xC2 <= a <= 0xDF && 0x80 <= b <= 0xBF
    ensures var c := (a - 0xC0) * 64 + (b - 0x80); IsScalar(c) && Encode(c) == [Byte(a), Byte(b)]
  {
  }

  lemma ThreeBytes(a: nat, b: nat, d: nat)
    requires 0xE0 <= a <= 0xEF && 0x80 <= b <= 0xBF && 0x80 <= d <= 0xBF
    requires (a == 0xE0 ==> 0xA0 <= b) && (a == 0xED ==> b <= 0x9F)
    ensures var c := (a - 0xE0) * 4096 + (b - 0x80) * 64 + (d - 0x80); IsScalar(c) && Encode(c) == [Byte(a), Byte(b), Byte(d)]
  {
    Places(a - 0xE0, b - 0x80, d - 0x80);
  }

  /** The places of a number written to base 64. */
  lemma Places(x: nat, y: nat, z: nat)
    requires y < 64 && z < 64
    ensures var c := x * 4096 + y * 64 + z; c / 4096 == x && c / 64 == x * 64 + y && c / 64 % 64 == y && c % 64 == z
  {
    var c := x * 4096 + y * 64 + z;
    assert c == 64 * (x * 64 + y) + z;
  }

  lemma FourBytes(a: nat, b: nat, d: nat, e: nat)
    requires 0xF0 <= a <= 0xF4 && 0x80 <= b <= 0xBF && 0x80 <= d <= 0xBF && 0x80 <= e <= 0xBF
    requires (a == 0xF0 ==> 0x90 <= b) && (a == 0xF4 ==> b <= 0x8F)
    ensures var c := (a - 0xF0) * 262144 + (b - 0x80) * 4096 + (d - 0x80) * 64 + (e - 0x80);
      IsScalar(c) && Encode(c) == [Byte(a), Byte(b), Byte(d), Byte(e)]
  {
    var x, y := a - 0xF0, b - 0x80;
    Places(x * 64 + y, d - 0x80, e - 0x80);
    assert (x * 64 + y) / 64 == x && (x * 64 + y) % 64 == y;
    var c := (x * 64 + y) * 4096 + (d - 0x80) * 64 + (e - 0x80);
    assert c / 262144 == c / 4096 / 64;
  }

  lemma WideIsEncoded(s: string)
    requires Width(s) > 0
    ensures exists c: nat :: IsScalar(c) && Encode(c) == s[..Width(s)]
  {
    hide Encode;
    var n := Width(s);
    if n == 1 {
      assert s[..1] == [s[0]];
      OneByte(s[0] as int);
    } else if n == 2 {
      assert s[..2] == [s[0], s[1]];
      TwoBytes(s[0] as int, s[1] as int);
    } else if n == 3 {
      assert s[..3] == [s[0], s[1], s[2]];
      ThreeBytes(s[0] as int, s[1] as int, s[2] as int);
    } else {
      assert s[..4] == [s[0], s[1], s[2], s[3]];
      FourBytes(s[0] as int, s[1] as int, s[2] as int, s[3] as int);
    }
  }

  lemma OneByte(a: nat)
    requires a <= 0x7F
    ensures IsScalar(a) && Encode(a) == [Byte(a)]
  {
  }

  /** A character is recognised at the front of a text, with the width it has, exactly when the text begins
      with the encoding of a scalar value. */
  lemma WidthIsExact(s: string, n: nat)
    requires n > 0
    ensures Width(s) == n <==> exists c: nat :: IsScalar(c) && Encode(c) <= s && |Encode(c)| == n
  {
    if Width(s) == n {
      WideIsEncoded(s);
      var c: nat :| IsScalar(c) && Encode(c) == s[..Width(s)];
      assert Encode(c) <= s;
    }
    forall c: nat | IsScalar(c) && Encode(c) <= s ensures Width(s) == |Encode(c)| {
      EncodedIsWide(c, s[|Encode(c)|..]);
      assert s == Encode(c) + s[|Encode(c)|..];
    }
  }

  function Encoded(cs: seq<nat>): string
    requires forall k :: 0 <= k < |cs| ==> IsScalar(cs[k])
  {
    if cs == [] then "" else Encode(cs[0]) + Encoded(cs[1..])
  }

  ghost predicate IsEncoding(s: string) {
    exists cs: seq<nat> :: (forall k :: 0 <= k < |cs| ==> IsScalar(cs[k])) && Encoded(cs) == s
  }

  /** Well-formed text is exactly what encoding some sequence of scalar values gives. */
  lemma {:induction false} TextIsExact(s: string)
    ensures IsUtf8(s) <==> IsEncoding(s)
    decreases |s|
  {
    hide Width, Encode, Encoded, IsEncoding;
    if s == "" {
      NothingEncoded();
    } else {
      if IsUtf8(s) {
        TextIsExact(s[Width(s)..]);
        FrontIsEncoded(s);
      }
      if IsEncoding(s) {
        RestIsEncoding(s);
        TextIsExact(s[Width(s)..]);
      }
    }
  }

  lemma NothingEncoded()
    ensures IsEncoding("")
  {
    assert Encoded([]) == "";
  }

  lemma FrontIsEncoded(s: string)
    requires Width(s) > 0 && IsEncoding(s[Width(s)..])
    ensures IsEncoding(s)
  {
    hide Width, Encode, Encoded, IsScalar;
    WideIsEncoded(s);
    var n := Width(s);
    var c: nat :| IsScalar(c) && Encode(c) == s[..n];
    var cs: seq<nat> :| (forall k :: 0 <= k < |cs| ==> IsScalar(cs[k])) && Encoded(cs) == s[n..];
    assert s == s[..n] + s[n..];
    EncodingGrows(c, cs);
  }

  lemma EncodingGrows(c: nat, cs: seq<nat>)
    requires IsScalar(c) && forall k :: 0 <= k < |cs| ==> IsScalar(cs[k])
    ensures IsEncoding(Encode(c) + Encoded(cs))
  {
    hide Encode, Encoded, IsScalar;
    OneMore(c, cs);
  }

  lemma RestIsEncoding(s: string)
    requires s != "" && IsEncoding(s)
    ensures Width(s) > 0 && IsEncoding(s[Width(s)..])
  {
    hide Width, Encode;
    var cs: seq<nat> :| (forall k :: 0 <= k < |cs| ==> IsScalar(cs[k])) && Encoded(cs) == s;
    EncodedIsWide(cs[0], Encoded(cs[1..]));
    assert s[Width(s)..] == Encoded(cs[1..]);
  }

  lemma OneMore(c: nat, cs: seq<nat>)
    requires IsScalar(c) && forall k :: 0 <= k < |cs| ==> IsScalar(cs[k])
    ensures forall k :: 0 <= k < |[c] + cs| ==> IsScalar(([c] + cs)[k])
    ensures Encoded([c] + cs) == Encode(c) + Encoded(cs)
  {
    assert ([c] + cs)[1..] == cs;
  }
}
