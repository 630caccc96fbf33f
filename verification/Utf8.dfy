/** UTF-8 (section 4 of RFC 3629), and what a JSON string makes of bytes that are not. */
module Utf8 {
  import opened Octets

  predicate IsContinuation(b: Byte) {
    0x80 <= b <= 0xBF
  }

  // The length of the well-formed character a byte string starts with, 0 when it starts with none.
  function CharLength(s: Bytes): (n: nat)
    ensures n <= |s|
  {
    if s == [] then 0
    else if s[0] < 0x80 then 1
    else if |s| >= 2 && IsContinuation(s[1]) && 0xC2 <= s[0] <= 0xDF then 2
    else if |s| >= 3 && IsContinuation(s[1]) && IsContinuation(s[2]) && 0xE0 <= s[0] <= 0xEF
            && (s[0] == 0xE0 ==> s[1] >= 0xA0) && (s[0] == 0xED ==> s[1] <= 0x9F) then 3
    else if |s| >= 4 && IsContinuation(s[1]) && IsContinuation(s[2]) && IsContinuation(s[3])
            && 0xF0 <= s[0] <= 0xF4
            && (s[0] == 0xF0 ==> s[1] >= 0x90) && (s[0] == 0xF4 ==> s[1] <= 0x8F) then 4
    else 0
  }

  predicate ValidUtf8(s: Bytes) {
    s == [] || (CharLength(s) > 0 && ValidUtf8(s[CharLength(s)..]))
  }

  // U+FFFD
  const REPLACEMENT: Bytes := [0xEF, 0xBF, 0xBD]

  /** What a reader decodes, as UTF-8, from the JSON string json.Marshal makes of a Go string: every
      byte that starts no well-formed character has become U+FFFD. */
  function ThroughJson(s: Bytes): Bytes {
    if s == [] then []
    else if CharLength(s) == 0 then REPLACEMENT + ThroughJson(s[1..])
    else s[..CharLength(s)] + ThroughJson(s[CharLength(s)..])
  }

  lemma {:induction false} JsonNeverShortens(s: Bytes)
    ensures |ThroughJson(s)| >= |s|
    ensures !ValidUtf8(s) ==> |ThroughJson(s)| > |s|
  {
    if s != [] {
      hide CharLength;
      if CharLength(s) == 0 {
        JsonNeverShortens(s[1..]);
      } else {
        JsonNeverShortens(s[CharLength(s)..]);
      }
    }
  }

  lemma {:induction false} ValidIsKept(s: Bytes)
    requires ValidUtf8(s)
    ensures ThroughJson(s) == s
  {
    if s != [] {
      hide CharLength;
      var n := CharLength(s);
      ValidIsKept(s[n..]);
      assert s == s[..n] + s[n..];
    }
  }

  /** A string survives JSON exactly when it is UTF-8. */
  lemma JsonKeepsUtf8(s: Bytes)
    ensures ThroughJson(s) == s <==> ValidUtf8(s)
  {
    hide ThroughJson, ValidUtf8;
    JsonNeverShortens(s);
    if ValidUtf8(s) {
      ValidIsKept(s);
    }
  }

  lemma CharLengthOfPrefix(a: Bytes, b: Bytes)
    requires CharLength(a) > 0
    ensures CharLength(a + b) == CharLength(a)
  {
  }

  lemma {:induction false} ValidAppend(a: Bytes, b: Bytes)
    requires ValidUtf8(a)
    ensures ValidUtf8(a + b) <==> ValidUtf8(b)
  {
    if a == [] {
      assert a + b == b;
    } else {
      var n := CharLength(a);
      CharLengthOfPrefix(a, b);
      hide CharLength;
      ValidAppend(a[n..], b);
      assert (a + b)[n..] == a[n..] + b;
    }
  }

  // ---------- Characters ----------

  // The Unicode scalar values.
  predicate IsScalar(c: nat) {
    c < 0xD800 || 0xE000 <= c <= 0x10_FFFF
  }

  // The table of section 3 of RFC 3629.
  function EncodeScalar(c: nat): (r: Bytes)
    requires IsScalar(c)
  {
    if c < 0x80 then [c]
    else if c < 0x800 then [0xC0 + c / 0x40, 0x80 + c % 0x40]
    else if c < 0x1_0000 then [0xE0 + c / 0x1000, 0x80 + c / 0x40 % 0x40, 0x80 + c % 0x40]
    else [0xF0 + c / 0x4_0000, 0x80 + c / 0x1000 % 0x40, 0x80 + c / 0x40 % 0x40, 0x80 + c % 0x40]
  }

  lemma ScalarHasLength(c: nat, rest: Bytes)
    requires IsScalar(c)
    ensures CharLength(EncodeScalar(c) + rest) == |EncodeScalar(c)|
  {
    if c >= 0x1_0000 {
      FourByteScalar(c);
    } else if c >= 0x800 {
      ThreeByteScalar(c);
    }
  }

  lemma ThreeByteScalar(c: nat)
    requires 0x800 <= c < 0x1_0000 && IsScalar(c)
    ensures var b := c / 0x1000; var d := c / 0x40 % 0x40; b <= 15 && (b == 0 ==> d >= 0x20) && (b == 13 ==> d <= 0x1F)
  {
  }

  lemma FourByteScalar(c: nat)
    requires 0x1_0000 <= c <= 0x10_FFFF
    ensures var b := c / 0x4_0000; var d := c / 0x1000 % 0x40; b <= 4 && (b == 0 ==> d >= 0x10) && (b == 4 ==> d <= 0xF)
  {
  }

  // The scalar value of the character a byte string starts with.
  function ScalarOf(s: Bytes): nat
    requires CharLength(s) > 0
  {
    match CharLength(s)
    case 1 => s[0]
    case 2 => (s[0] as int - 0xC0) * 0x40 + (s[1] as int - 0x80)
    case 3 => (s[0] as int - 0xE0) * 0x1000 + (s[1] as int - 0x80) * 0x40 + (s[2] as int - 0x80)
    case _ => (s[0] as int - 0xF0) * 0x4_0000 + (s[1] as int - 0x80) * 0x1000 + (s[2] as int - 0x80) * 0x40 + (s[3] as int - 0x80)
  }

  lemma StartsWithScalar(s: Bytes)
    requires CharLength(s) > 0
    ensures IsScalar(ScalarOf(s)) && EncodeScalar(ScalarOf(s)) == s[..CharLength(s)]
  {
    match CharLength(s)
    case 1 =>
    case 2 => TwoByteCharacter(s);
    case 3 => ThreeByteCharacter(s);
    case _ => FourByteCharacter(s);
  }

  lemma TwoByteCharacter(s: Bytes)
    requires CharLength(s) == 2
    ensures IsScalar(ScalarOf(s)) && EncodeScalar(ScalarOf(s)) == s[..2]
  {
  }

  lemma ThreeByteCharacter(s: Bytes)
    requires CharLength(s) == 3
    ensures IsScalar(ScalarOf(s)) && EncodeScalar(ScalarOf(s)) == s[..3]
  {
    ThreeDigits(s[0] as int - 0xE0, s[1] as int - 0x80, s[2] as int - 0x80);
  }

  lemma FourByteCharacter(s: Bytes)
    requires CharLength(s) == 4
    ensures IsScalar(ScalarOf(s)) && EncodeScalar(ScalarOf(s)) == s[..4]
  {
    FourDigits(s[0] as int - 0xF0, s[1] as int - 0x80, s[2] as int - 0x80, s[3] as int - 0x80);
  }

  lemma ThreeDigits(x: nat, y: nat, z: nat)
    requires y < 0x40 && z < 0x40
    ensures var c := x * 0x1000 + y * 0x40 + z; c / 0x1000 == x && c / 0x40 % 0x40 == y && c % 0x40 == z
  {
    assert (x * 0x1000 + y * 0x40 + z) / 0x40 == x * 0x40 + y;
  }

  lemma FourDigits(w: nat, x: nat, y: nat, z: nat)
    requires x < 0x40 && y < 0x40 && z < 0x40
    ensures var c := w * 0x4_0000 + x * 0x1000 + y * 0x40 + z;
            c / 0x4_0000 == w && c / 0x1000 % 0x40 == x && c / 0x40 % 0x40 == y && c % 0x40 == z
  {
    var c := w * 0x4_0000 + x * 0x1000 + y * 0x40 + z;
    assert c / 0x40 == w * 0x1000 + x * 0x40 + y;
    assert c / 0x1000 == w * 0x40 + x;
  }

  function EncodeText(scalars: seq<nat>): Bytes
    requires forall i :: 0 <= i < |scalars| ==> IsScalar(scalars[i])
  {
    if scalars == [] then [] else EncodeScalar(scalars[0]) + EncodeText(scalars[1..])
  }

  ghost predicate IsEncodedText(s: Bytes, scalars: seq<nat>) {
    (forall i :: 0 <= i < |scalars| ==> IsScalar(scalars[i])) && s == EncodeText(scalars)
  }

  /** The byte strings taken for UTF-8 are exactly the encodings of sequences of scalar values. */
  lemma {:induction false} ValidMeansEncoded(s: Bytes)
    ensures ValidUtf8(s) <==> exists scalars :: IsEncodedText(s, scalars)
  {
    if ValidUtf8(s) {
      var scalars := Scalars(s);
    }
    if scalars :| IsEncodedText(s, scalars) {
      EncodedIsValid(scalars);
    }
  }

  lemma OneMoreScalar(c: nat, later: seq<nat>)
    requires IsScalar(c) && forall i :: 0 <= i < |later| ==> IsScalar(later[i])
    ensures forall i :: 0 <= i < |[c] + later| ==> IsScalar(([c] + later)[i])
    ensures EncodeText([c] + later) == EncodeScalar(c) + EncodeText(later)
  {
    hide EncodeScalar, IsScalar;
    assert ([c] + later)[1..] == later;
  }

  lemma {:induction false} Scalars(s: Bytes) returns (scalars: seq<nat>)
    requires ValidUtf8(s)
    ensures IsEncodedText(s, scalars)
  {
    if s == [] {
      scalars := [];
    } else {
      StartsWithScalar(s);
      hide CharLength, EncodeScalar, ScalarOf, IsScalar;
      var n, c := CharLength(s), ScalarOf(s);
      var later := Scalars(s[n..]);
      scalars := [c] + later;
      OneMoreScalar(c, later);
      assert s == s[..n] + s[n..];
    }
  }

  lemma {:induction false} EncodedIsValid(scalars: seq<nat>)
    requires forall i :: 0 <= i < |scalars| ==> IsScalar(scalars[i])
    ensures ValidUtf8(EncodeText(scalars))
  {
    if scalars != [] {
      ScalarHasLength(scalars[0], EncodeText(scalars[1..]));
      NotEmpty(scalars[0]);
      hide CharLength, EncodeScalar;
      EncodedIsValid(scalars[1..]);
      var s := EncodeText(scalars);
      assert s[|EncodeScalar(scalars[0])|..] == EncodeText(scalars[1..]);
    }
  }

  lemma NotEmpty(c: nat)
    requires IsScalar(c)
    ensures EncodeScalar(c) != []
  {
  }

  /** Each byte that starts no character is replaced on its own, by U+FFFD. */
  lemma StrayBytes()
    ensures REPLACEMENT == EncodeScalar(0xFFFD)
    ensures ThroughJson([0x41, 0xE2, 0x82, 0x42, 0xFF]) == [0x41] + REPLACEMENT + REPLACEMENT + [0x42] + REPLACEMENT
  {
    assert CharLength([0x41, 0xE2, 0x82, 0x42, 0xFF]) == 1 && [0x41, 0xE2, 0x82, 0x42, 0xFF][1..] == [0xE2, 0x82, 0x42, 0xFF];
    assert CharLength([0xE2, 0x82, 0x42, 0xFF]) == 0 && [0xE2, 0x82, 0x42, 0xFF][1..] == [0x82, 0x42, 0xFF];
    assert CharLength([0x82, 0x42, 0xFF]) == 0 && [0x82, 0x42, 0xFF][1..] == [0x42, 0xFF];
    assert CharLength([0x42, 0xFF]) == 1 && [0x42, 0xFF][1..] == [0xFF];
    assert CharLength([0xFF]) == 0 && [0xFF][1..] == [];
    assert ThroughJson([0xFF]) == REPLACEMENT + [] == REPLACEMENT;
    assert ThroughJson([0x42, 0xFF]) == [0x42] + REPLACEMENT;
    assert ThroughJson([0x82, 0x42, 0xFF]) == REPLACEMENT + ([0x42] + REPLACEMENT);
  }
}
