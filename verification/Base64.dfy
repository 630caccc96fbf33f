/** Base64 as section 4 of RFC 4648 defines it, in the two dialects that meet in the row channel:
    MySQL's TO_BASE64 and Go's base64.StdEncoding. */
module Base64 {
  import opened Wrappers
  import opened Octets

  type Sextet = n: nat | n < 64

  function Symbol(n: Sextet): char {
    if n < 26 then 'A' + n as char
    else if n < 52 then 'a' + (n - 26) as char
    else if n < 62 then '0' + (n - 52) as char
    else if n == 62 then '+' else '/'
  }

  function SextetOf(c: char): Option<Sextet> {
    if 'A' <= c <= 'Z' then Some(c as int - 'A' as int)
    else if 'a' <= c <= 'z' then Some(c as int - 'a' as int + 26)
    else if '0' <= c <= '9' then Some(c as int - '0' as int + 52)
    else if c == '+' then Some(62)
    else if c == '/' then Some(63)
    else None
  }

  lemma SymbolRoundTrip(n: Sextet)
    ensures SextetOf(Symbol(n)) == Some(n)
  {
  }

  // ---------- Bits ----------

  // Three bytes as four groups of six bits, and back.
  function First6(a: Byte): Sextet { a / 4 }
  function Second6(a: Byte, b: Byte): Sextet { a % 4 * 16 + b / 16 }
  function Third6(b: Byte, c: Byte): Sextet { b % 16 * 4 + c / 64 }
  function Fourth6(c: Byte): Sextet { c % 64 }

  function First8(p: Sextet, q: Sextet): Byte { p * 4 + q / 16 }
  function Second8(q: Sextet, r: Sextet): Byte { q % 16 * 16 + r / 4 }
  function Third8(r: Sextet, t: Sextet): Byte { r % 4 * 64 + t }

  lemma Regrouped(a: Byte, b: Byte, c: Byte)
    ensures First8(First6(a), Second6(a, b)) == a
    ensures Second8(Second6(a, b), Third6(b, c)) == b
    ensures Third8(Third6(b, c), Fourth6(c)) == c
  {
  }

  // ---------- Encoding ----------

  function Encode(b: Bytes): string {
    if b == [] then ""
    else if |b| == 1 then [Symbol(First6(b[0])), Symbol(Second6(b[0], 0)), '=', '=']
    else if |b| == 2 then [Symbol(First6(b[0])), Symbol(Second6(b[0], b[1])), Symbol(Third6(b[1], 0)), '=']
    else
      [Symbol(First6(b[0])), Symbol(Second6(b[0], b[1])), Symbol(Third6(b[1], b[2])), Symbol(Fourth6(b[2]))]
      + Encode(b[3..])
  }

  // TO_BASE64 breaks its result into lines of 76 characters.
  function Wrap(s: string): string
    decreases |s|
  {
    if |s| <= 76 then s else s[..76] + "\n" + Wrap(s[76..])
  }

  function ToBase64(b: Bytes): string {
    Wrap(Encode(b))
  }

  // ---------- Decoding ----------

  predicate IsLineBreak(c: char) {
    c == '\n' || c == '\r'
  }

  function DropBreaks(s: string): string {
    if s == "" then "" else (if IsLineBreak(s[0]) then "" else [s[0]]) + DropBreaks(s[1..])
  }

  // Quadruples of symbols; padding only in the last. Stray low bits before padding are ignored.
  function DecodeQuads(s: string): Option<Bytes> {
    if s == "" then Some([])
    else if |s| < 4 then None
    else
      var p, q, r, t := SextetOf(s[0]), SextetOf(s[1]), SextetOf(s[2]), SextetOf(s[3]);
      if p.None? || q.None? then None
      else if |s| == 4 && s[2] == '=' && s[3] == '=' then Some([First8(p.value, q.value)])
      else if r.None? then None
      else if |s| == 4 && s[3] == '=' then Some([First8(p.value, q.value), Second8(q.value, r.value)])
      else
        var tail := DecodeQuads(s[4..]);
        if t.None? || tail.None? then None
        else Some([First8(p.value, q.value), Second8(q.value, r.value), Third8(r.value, t.value)] + tail.value)
  }

  // StdEncoding.DecodeString skips line breaks.
  function Decode(s: string): Option<Bytes> {
    DecodeQuads(DropBreaks(s))
  }

  // ---------- Round trip ----------

  lemma SymbolIsNotSpecial(n: Sextet)
    ensures Symbol(n) != '=' && !IsLineBreak(Symbol(n)) && Symbol(n) != '\t' && Symbol(n) != ' '
  {
  }

  lemma {:induction false} QuadsRoundTrip(b: Bytes)
    ensures DecodeQuads(Encode(b)) == Some(b)
  {
    hide Symbol, SextetOf, First6, Second6, Third6, Fourth6, First8, Second8, Third8;
    if b == [] {
    } else if |b| <= 2 {
      LastQuad(b);
    } else {
      QuadsRoundTrip(b[3..]);
      var s := Encode(b);
      var p, q, r, t := First6(b[0]), Second6(b[0], b[1]), Third6(b[1], b[2]), Fourth6(b[2]);
      SymbolRoundTrip(p);
      SymbolRoundTrip(q);
      SymbolRoundTrip(r);
      SymbolRoundTrip(t);
      SymbolIsNotSpecial(r);
      SymbolIsNotSpecial(t);
      Regrouped(b[0], b[1], b[2]);
      assert s[4..] == Encode(b[3..]);
      assert b == [b[0], b[1], b[2]] + b[3..];
    }
  }

  lemma LastQuad(b: Bytes)
    requires 1 <= |b| <= 2
    ensures DecodeQuads(Encode(b)) == Some(b)
  {
    hide Symbol, SextetOf, First6, Second6, Third6, Fourth6, First8, Second8, Third8;
    SymbolRoundTrip(First6(b[0]));
    if |b| == 1 {
      SymbolRoundTrip(Second6(b[0], 0));
      Regrouped(b[0], 0, 0);
      assert b == [b[0]];
    } else {
      SymbolRoundTrip(Second6(b[0], b[1]));
      SymbolRoundTrip(Third6(b[1], 0));
      SymbolIsNotSpecial(Third6(b[1], 0));
      Regrouped(b[0], b[1], 0);
      assert b == [b[0], b[1]];
    }
  }

  predicate IsPlain(c: char) {
    c == '=' || SextetOf(c).Some?
  }

  predicate AllPlain(s: string) {
    forall i :: 0 <= i < |s| ==> IsPlain(s[i])
  }

  lemma {:induction false} EncodedIsPlain(b: Bytes)
    ensures AllPlain(Encode(b))
    ensures Encode(b) == "" <==> b == []
  {
    if |b| >= 3 {
      EncodedIsPlain(b[3..]);
    }
  }

  lemma {:induction false} DropAppend(s: string, t: string)
    ensures DropBreaks(s + t) == DropBreaks(s) + DropBreaks(t)
  {
    if s == "" {
      assert s + t == t;
    } else {
      assert (s + t)[1..] == s[1..] + t;
      DropAppend(s[1..], t);
    }
  }

  lemma {:induction false} NothingToDrop(s: string)
    requires AllPlain(s)
    ensures DropBreaks(s) == s
  {
    if s != "" {
      NothingToDrop(s[1..]);
      assert s == [s[0]] + s[1..];
    }
  }

  /** Dropping the line breaks undoes the wrapping. */
  lemma {:induction false} DropUnwraps(s: string)
    requires AllPlain(s)
    ensures DropBreaks(Wrap(s)) == s
    decreases |s|
  {
    if |s| <= 76 {
      NothingToDrop(s);
    } else {
      DropAppend(s[..76] + "\n", Wrap(s[76..]));
      DropAppend(s[..76], "\n");
      NothingToDrop(s[..76]);
      DropUnwraps(s[76..]);
      assert s == s[..76] + s[76..];
    }
  }

  /** Go decodes what MySQL encodes, wrapped or not. */
  lemma DecodesToBase64(b: Bytes)
    ensures Decode(ToBase64(b)) == Some(b) && Decode(DropBreaks(ToBase64(b))) == Some(b)
  {
    EncodedIsPlain(b);
    DropUnwraps(Encode(b));
    NothingToDrop(Encode(b));
    QuadsRoundTrip(b);
  }

  // ---------- The standard's own terms ----------

  // Table 1 of RFC 4648.
  const UPPER := "ABCDEFGHIJKLMNOPQRSTUVWXYZ"
  const LOWER := "abcdefghijklmnopqrstuvwxyz"
  const DIGITS := "0123456789"
  const ALPHABET := UPPER + LOWER + DIGITS + "+/"

  lemma UpperAt(n: nat)
    requires n < 26
    ensures |UPPER| == 26 && UPPER[n] == 'A' + n as char
  {
  }

  lemma LowerAt(n: nat)
    requires n < 26
    ensures |LOWER| == 26 && LOWER[n] == 'a' + n as char
  {
  }

  lemma DigitAt(n: nat)
    requires n < 10
    ensures |DIGITS| == 10 && DIGITS[n] == '0' + n as char
  {
  }

  lemma AlphabetAt(n: Sextet)
    ensures |ALPHABET| == 64 && ALPHABET[n] == Symbol(n)
  {
    UpperAt(if n < 26 then n else 0);
    LowerAt(if 26 <= n < 52 then n - 26 else 0);
    DigitAt(if 52 <= n < 62 then n - 52 else 0);
    hide UPPER, LOWER, DIGITS;
  }

  /** A symbol stands for its place in the alphabet, and no other character stands for anything. */
  lemma SymbolsAreTheAlphabet(n: Sextet, c: char)
    ensures |ALPHABET| == 64
    ensures Symbol(n) == ALPHABET[n] && SextetOf(ALPHABET[n]) == Some(n)
    ensures c !in ALPHABET ==> SextetOf(c).None?
  {
    hide ALPHABET;
    AlphabetAt(n);
    if SextetOf(c).Some? {
      AlphabetAt(SextetOf(c).value);
    }
  }

  // The sextet of a symbol; 0 for any other character.
  function Place(c: char): Sextet {
    if SextetOf(c).Some? then SextetOf(c).value else 0
  }

  // What the characters of the k-th quadruple say: all symbols, or padded with one or two equal signs.
  ghost predicate QuadMeans(s: string, k: nat, b: Bytes)
    requires 4 * k + 4 <= |s|
  {
    var p, q, r, t := Place(s[4 * k]), Place(s[4 * k + 1]), Place(s[4 * k + 2]), Place(s[4 * k + 3]);
    if s[4 * k + 3] != '=' then
      && |b| >= 3 * k + 3
      && b[3 * k] as int * 0x1_0000 + b[3 * k + 1] as int * 0x100 + b[3 * k + 2] == p * 0x4_0000 + q * 0x1000 + r * 0x40 + t
    else if s[4 * k + 2] != '=' then
      && |b| == 3 * k + 2 && |s| == 4 * k + 4
      && b[3 * k] as int * 0x100 + b[3 * k + 1] == (p * 0x1000 + q * 0x40 + r) / 4
    else
      && |b| == 3 * k + 1 && |s| == 4 * k + 4
      && b[3 * k] == (p * 0x40 + q) / 16
  }

  lemma Octets24(p: Sextet, q: Sextet, r: Sextet, t: Sextet)
    ensures First8(p, q) * 0x1_0000 + Second8(q, r) * 0x100 + Third8(r, t) == p * 0x4_0000 + q * 0x1000 + r * 0x40 + t
    ensures First8(p, q) * 0x100 + Second8(q, r) == (p * 0x1000 + q * 0x40 + r) / 4
    ensures First8(p, q) == (p * 0x40 + q) / 16
  {
  }

  lemma FirstQuad(s: string)
    requires |s| >= 4 && DecodeQuads(s).Some?
    ensures QuadMeans(s, 0, DecodeQuads(s).value)
  {
    hide SextetOf, First8, Second8, Third8;
    EqualsIsNoSymbol();
    Octets24(Place(s[0]), Place(s[1]), Place(s[2]), Place(s[3]));
  }

  lemma EqualsIsNoSymbol()
    ensures SextetOf('=').None?
  {
  }

  lemma LaterQuads(s: string)
    requires |s| > 4 && DecodeQuads(s).Some?
    ensures DecodeQuads(s[4..]).Some?
    ensures var b := DecodeQuads(s).value; |b| >= 3 && b[3..] == DecodeQuads(s[4..]).value
  {
    hide SextetOf, First8, Second8, Third8;
  }

  lemma QuadShifts(s: string, k: nat, b: Bytes)
    requires 0 < k && 4 * k + 4 <= |s| && |b| >= 3 && QuadMeans(s[4..], k - 1, b[3..])
    ensures QuadMeans(s, k, b)
  {
    hide SextetOf;
  }

  /** Whatever is decoded, the octets of each quadruple are the 24-bit number its symbols make up, cut
      to whole octets where it is padded. */
  lemma {:induction false} QuadsAreNumbers(s: string, k: nat)
    requires DecodeQuads(s).Some? && 4 * k + 4 <= |s|
    ensures QuadMeans(s, k, DecodeQuads(s).value)
  {
    hide SextetOf, QuadMeans, DecodeQuads;
    if k == 0 {
      FirstQuad(s);
    } else {
      LaterQuads(s);
      QuadsAreNumbers(s[4..], k - 1);
      QuadShifts(s, k, DecodeQuads(s).value);
    }
  }

  // Symbols, then up to two equal signs.
  predicate IsPadded(s: string, pad: nat) {
    && pad <= 2 && pad <= |s|
    && (forall i :: 0 <= i < |s| - pad ==> SextetOf(s[i]).Some?)
    && (forall i :: |s| - pad <= i < |s| ==> s[i] == '=')
  }

  predicate FourSymbols(s: string)
    requires |s| >= 4
  {
    SextetOf(s[0]).Some? && SextetOf(s[1]).Some? && SextetOf(s[2]).Some? && SextetOf(s[3]).Some?
  }

  /** Decoded are exactly the quadruples of symbols with at most two equal signs at the end. */
  lemma {:induction false} DecodesExactly(s: string)
    ensures DecodeQuads(s).Some? <==> |s| % 4 == 0 && exists pad :: IsPadded(s, pad)
  {
    if s == "" {
      assert IsPadded(s, 0);
    } else if |s| < 4 {
    } else if |s| == 4 {
      OneQuad(s);
    } else {
      hide DecodeQuads;
      DecodesExactly(s[4..]);
      PaddingShifts(s);
      QuadThenRest(s);
    }
  }

  lemma QuadThenRest(s: string)
    requires |s| > 4
    ensures DecodeQuads(s).Some? <==> FourSymbols(s) && DecodeQuads(s[4..]).Some?
  {
    hide SextetOf, First8, Second8, Third8;
  }

  lemma OneQuad(s: string)
    requires |s| == 4
    ensures DecodeQuads(s).Some? <==> exists pad :: IsPadded(s, pad)
  {
    hide SextetOf, First8, Second8, Third8;
    EqualsIsNoSymbol();
    assert s[4..] == "";
    if DecodeQuads(s).Some? {
      assert IsPadded(s, if s[3] != '=' then 0 else if s[2] != '=' then 1 else 2);
    }
  }

  lemma PaddingShifts(s: string)
    requires |s| > 4
    ensures |s| % 4 == 0 && (exists pad :: IsPadded(s, pad)) <==>
            && FourSymbols(s)
            && |s[4..]| % 4 == 0 && exists pad :: IsPadded(s[4..], pad)
  {
    hide SextetOf;
    if |s| % 4 == 0 {
      forall pad ensures IsPadded(s, pad) <==> FourSymbols(s) && IsPadded(s[4..], pad) {
        PaddedTail(s, pad);
      }
    }
  }

  lemma PaddedTail(s: string, pad: nat)
    requires |s| >= 8
    ensures IsPadded(s, pad) <==> FourSymbols(s) && IsPadded(s[4..], pad)
  {
    hide SextetOf;
    var tail := s[4..];
    if FourSymbols(s) && IsPadded(tail, pad) {
      forall i | 0 <= i < |s| - pad ensures SextetOf(s[i]).Some? {
        if i >= 4 { assert tail[i - 4] == s[i]; }
      }
      forall i | |s| - pad <= i < |s| ensures s[i] == '=' {
        assert tail[i - 4] == s[i];
      }
    }
  }

  /** Go skips carriage returns and line feeds wherever they stand, and decodes the rest. */
  lemma {:induction false} BreaksDoNotMatter(s: string, t: string)
    ensures Decode(s + "\n" + t) == Decode(s + "\r" + t) == Decode(s + t)
    ensures AllPlain(s) ==> Decode(s) == DecodeQuads(s)
  {
    hide DecodeQuads;
    assert DropBreaks("\n") == "" && DropBreaks("\r") == "" && DropBreaks(s) + "" == DropBreaks(s);
    DropAppend(s + "\n", t);
    DropAppend(s, "\n");
    DropAppend(s + "\r", t);
    DropAppend(s, "\r");
    DropAppend(s, t);
    if AllPlain(s) {
      NothingToDrop(s);
    }
  }

  /** The text of the status column of a finished job. */
  lemma DoneDecodes()
    ensures Decode("ZG9uZQ==") == Some([100, 111, 110, 101])
  {
    var done := [100, 111, 110, 101];
    DoneEncodes();
    EncodedIsPlain(done);
    hide Encode, AllPlain, DropBreaks, DecodeQuads;
    NothingToDrop(Encode(done));
    QuadsRoundTrip(done);
  }

  lemma DoneEncodes()
    ensures Encode([100, 111, 110, 101]) == "ZG9uZQ=="
  {
    assert [100, 111, 110, 101][3..] == [101];
    assert Encode([101]) == "ZQ==";
  }

  // ---------- Lines ----------

  /** Every line but the last has 76 characters: the breaks stand at each 77th place and nowhere else. */
  lemma {:induction false} LinesOf76(s: string, i: nat)
    requires AllPlain(s) && i < |Wrap(s)|
    ensures Wrap(s)[i] == '\n' <==> i % 77 == 76
    decreases |s|
  {
    if |s| > 76 {
      var head := s[..76] + "\n";
      if i < 76 {
        assert Wrap(s)[i] == s[i] && IsPlain(s[i]);
      } else if i == 76 {
        assert Wrap(s)[i] == '\n';
      } else {
        assert Wrap(s)[i] == Wrap(s[76..])[i - 77];
        LinesOf76(s[76..], i - 77);
      }
    } else {
      assert IsPlain(s[i]);
    }
  }
}
