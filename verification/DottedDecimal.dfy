/** Dotted-decimal notation: exactly which texts are addresses and prefixes, and which addresses a
    prefix written in it denotes. */
module DottedDecimal {
  import opened Wrappers
  import opened Text
  import opened IPv4

  // ---------- Decimal numerals ----------

  const DIGITS := "0123456789"

  function Numeral(n: nat): (s: string)
    ensures s != ""
  {
    if n < 10 then [DIGITS[n]] else Numeral(n / 10) + [DIGITS[n % 10]]
  }

  lemma DigitValues(n: nat)
    requires n < 10
    ensures |DIGITS| == 10 && DIGITS[n] == '0' + n as char
  {
  }

  lemma ValueAppend(s: string, c: char)
    requires AllDigits(s) && IsDigit(c)
    ensures AllDigits(s + [c]) && Value(s + [c]) == 10 * Value(s) + (c as int - '0' as int)
  {
    assert (s + [c])[..|s|] == s;
  }

  /** A numeral is canonical and has the value it was written for. */
  lemma {:induction false} NumeralHasValue(n: nat)
    ensures Canonical(Numeral(n)) && Value(Numeral(n)) == n
    ensures n > 0 ==> Numeral(n)[0] != '0'
  {
    DigitValues(n % 10);
    hide DIGITS, Value;
    if n < 10 {
      NothingHasValueZero();
      ValueAppend("", DIGITS[n]);
      assert "" + [DIGITS[n]] == [DIGITS[n]];
    } else {
      NumeralHasValue(n / 10);
      ValueAppend(Numeral(n / 10), DIGITS[n % 10]);
    }
  }

  lemma NothingHasValueZero()
    ensures Value("") == 0
  {
  }

  /** A canonical numeral is the numeral of its value. */
  lemma {:induction false} CanonicalIsNumeral(s: string)
    requires Canonical(s)
    ensures Numeral(Value(s)) == s
  {
    var init, last := s[..|s| - 1], s[|s| - 1];
    var d := last as int - '0' as int;
    assert s == init + [last];
    DigitValues(d);
    if |s| == 1 {
      NothingHasValueZero();
      assert init == "" && Value(s) == d;
    } else {
      PositiveValue(init);
      assert Value(s) / 10 == Value(init) && Value(s) % 10 == d;
      hide DIGITS, Value;
      CanonicalIsNumeral(init);
    }
  }

  lemma {:induction false} PositiveValue(s: string)
    requires AllDigits(s) && s != "" && s[0] != '0'
    ensures Value(s) > 0
  {
    if |s| > 1 {
      PositiveValue(s[..|s| - 1]);
    } else {
      assert s[..0] == "";
    }
  }

  lemma NumeralHasNo(n: nat, c: char)
    requires !IsDigit(c)
    ensures c !in Numeral(n)
  {
    NumeralHasValue(n);
  }

  // ---------- Addresses ----------

  // The numeral of an octet has at most three digits.
  lemma ShortNumeral(n: nat)
    requires n <= 255
    ensures |Numeral(n)| <= 3
  {
    assert n >= 10 ==> |Numeral(n / 10)| <= 2;
  }

  /** The octets are the numerals from 0 to 255, without superfluous zeros. */
  lemma OctetNotation(s: string, n: nat)
    ensures ParseOctet(s) == Some(n) <==> n <= 255 && s == Numeral(n)
  {
    hide Numeral, Value, Canonical;
    if n <= 255 && s == Numeral(n) {
      NumeralHasValue(n);
      ShortNumeral(n);
    } else if ParseOctet(s) == Some(n) {
      CanonicalIsNumeral(s);
    }
  }

  function Dotted(a: nat, b: nat, c: nat, d: nat): string {
    Numeral(a) + "." + Numeral(b) + "." + Numeral(c) + "." + Numeral(d)
  }

  lemma TwoPieces(a: string, sep: char, b: string)
    requires sep !in a && sep !in b
    ensures Split(a + [sep] + b, sep) == [a, b]
  {
    SplitAtFirst(a, sep, b);
    SplitWithoutSeparator(b, sep);
  }

  lemma FourPieces(a: string, b: string, c: string, d: string)
    requires '.' !in a && '.' !in b && '.' !in c && '.' !in d
    ensures Split(a + "." + b + "." + c + "." + d, '.') == [a, b, c, d]
  {
    hide Split;
    SplitAtFirst(a, '.', b + ['.'] + (c + ['.'] + d));
    SplitAtFirst(b, '.', c + ['.'] + d);
    TwoPieces(c, '.', d);
    assert a + "." + b + "." + c + "." + d == a + ['.'] + (b + ['.'] + (c + ['.'] + d));
  }

  lemma JoinOfFour(p: seq<string>)
    requires |p| == 4
    ensures Join(p, '.') == p[0] + "." + p[1] + "." + p[2] + "." + p[3]
  {
    assert Join(p[3..], '.') == p[3];
    assert Join(p[2..], '.') == p[2] + ['.'] + p[3] by { assert p[2..][1..] == p[3..]; }
    assert Join(p[1..], '.') == p[1] + ['.'] + (p[2] + ['.'] + p[3]) by { assert p[1..][1..] == p[2..]; }
  }

  lemma AddressParses(a: nat, b: nat, c: nat, d: nat)
    requires a <= 255 && b <= 255 && c <= 255 && d <= 255
    ensures ParseAddr(Dotted(a, b, c, d)) == Some(0x100_0000 * a + 0x1_0000 * b + 0x100 * c + d)
  {
    hide Numeral, Split, ParseOctet;
    NumeralHasNo(a, '.');
    NumeralHasNo(b, '.');
    NumeralHasNo(c, '.');
    NumeralHasNo(d, '.');
    FourPieces(Numeral(a), Numeral(b), Numeral(c), Numeral(d));
    OctetNotation(Numeral(a), a);
    OctetNotation(Numeral(b), b);
    OctetNotation(Numeral(c), c);
    OctetNotation(Numeral(d), d);
  }

  lemma ParsedIsDotted(s: string) returns (a: nat, b: nat, c: nat, d: nat)
    requires ParseAddr(s).Some?
    ensures a <= 255 && b <= 255 && c <= 255 && d <= 255 && s == Dotted(a, b, c, d)
  {
    hide Numeral, Split, ParseOctet;
    var fields := Split(s, '.');
    a, b, c, d := ParseOctet(fields[0]).value, ParseOctet(fields[1]).value, ParseOctet(fields[2]).value, ParseOctet(fields[3]).value;
    OctetNotation(fields[0], a);
    OctetNotation(fields[1], b);
    OctetNotation(fields[2], c);
    OctetNotation(fields[3], d);
    JoinSplit(s, '.');
    JoinOfFour(fields);
  }

  /** The addresses are the texts of four octets with points between them, the first octet weighing
      most. */
  lemma AddressNotation(s: string, v: Address)
    ensures ParseAddr(s) == Some(v) <==>
            exists a: nat, b: nat, c: nat, d: nat :: s == Dotted(a, b, c, d)
              && a <= 255 && b <= 255 && c <= 255 && d <= 255
              && v == 0x100_0000 * a + 0x1_0000 * b + 0x100 * c + d
  {
    hide Dotted, ParseAddr;
    if ParseAddr(s).Some? {
      var a, b, c, d := ParsedIsDotted(s);
      AddressParses(a, b, c, d);
    }
    forall a: nat, b: nat, c: nat, d: nat | s == Dotted(a, b, c, d) && a <= 255 && b <= 255 && c <= 255 && d <= 255
      ensures ParseAddr(s) == Some(0x100_0000 * a + 0x1_0000 * b + 0x100 * c + d)
    {
      AddressParses(a, b, c, d);
    }
  }

  /** An octet over 255, a superfluous zero, a missing octet and a blank are refused. */
  lemma NotAddresses()
    ensures ParseAddr("1.2.3.4") == Some(0x0102_0304)
    ensures ParseOctet("256").None? && ParseOctet("01").None? && ParseOctet("").None? && ParseOctet(" 1").None?
    ensures ParseAddr("1.2.3").None?
  {
    SomeNumerals();
    AddressParses(1, 2, 3, 4);
    assert Dotted(1, 2, 3, 4) == "1.2.3.4";
    NoOctets();
    ThreePieces();
  }

  lemma SomeNumerals()
    ensures Numeral(1) == "1" && Numeral(2) == "2" && Numeral(3) == "3" && Numeral(4) == "4"
  {
  }

  lemma NoOctets()
    ensures ParseOctet("256").None? && ParseOctet("01").None? && ParseOctet("").None? && ParseOctet(" 1").None?
  {
    assert "256"[..2] == "25" && "25"[..1] == "2" && "2"[..0] == "";
    assert Value("25") == 25;
    assert " 1"[0] == ' ';
  }

  lemma ThreePieces()
    ensures ParseAddr("1.2.3").None?
  {
    hide Split;
    SplitAtFirst("1", '.', "2.3");
    TwoPieces("2", '.', "3");
    assert "1.2.3" == "1" + ['.'] + "2.3" && "2.3" == "2" + ['.'] + "3";
  }

  // ---------- Prefixes ----------

  lemma AddressHasNoSlash(s: string)
    requires ParseAddr(s).Some?
    ensures '/' !in s
  {
    hide ParseAddr, Numeral;
    var a, b, c, d := ParsedIsDotted(s);
    NumeralHasNo(a, '/');
    NumeralHasNo(b, '/');
    NumeralHasNo(c, '/');
    NumeralHasNo(d, '/');
  }

  lemma PrefixParses(s: string, bits: nat)
    requires ParseAddr(s).Some? && bits <= 32
    ensures ParsePrefix(s + "/" + Numeral(bits)) == Some(Prefix(ParseAddr(s).value, bits))
  {
    hide Split, ParseAddr, Numeral, Value, Canonical;
    AddressHasNoSlash(s);
    NumeralHasNo(bits, '/');
    NumeralHasValue(bits);
    TwoPieces(s, '/', Numeral(bits));
    assert s + "/" + Numeral(bits) == s + ['/'] + Numeral(bits);
  }

  /** The prefixes are an address, a slash and a numeral up to 32. */
  lemma PrefixNotation(s: string, p: Prefix)
    ensures ParsePrefix(s) == Some(p) <==>
            p.bits <= 32 && exists t :: ParseAddr(t) == Some(p.addr) && s == t + "/" + Numeral(p.bits)
  {
    hide Split, ParseAddr, Numeral, Value, Canonical;
    if ParsePrefix(s) == Some(p) {
      var pieces := Split(s, '/');
      JoinSplit(s, '/');
      CanonicalIsNumeral(pieces[1]);
      TwoJoined(pieces);
      assert s == pieces[0] + "/" + Numeral(p.bits);
    }
    if p.bits <= 32 {
      forall t | ParseAddr(t) == Some(p.addr) && s == t + "/" + Numeral(p.bits) ensures ParsePrefix(s) == Some(p) {
        PrefixParses(t, p.bits);
      }
    }
  }

  lemma TwoJoined(p: seq<string>)
    requires |p| == 2
    ensures Join(p, '/') == p[0] + "/" + p[1]
  {
    assert Join(p[1..], '/') == p[1];
  }

  // ---------- What a written prefix denotes ----------

  lemma {:induction false} ShlScales(q: nat, k: nat)
    ensures Shl(q, k) == q * Pow2(k)
  {
    if k > 0 {
      ShlScales(q, k - 1);
      assert Shl(q, k) == 2 * (q * Pow2(k - 1)) == q * (2 * Pow2(k - 1));
    }
  }

  lemma ShrDivides(x: nat)
    ensures Shr(x, 8) == x / 0x100 && Shr(x, 16) == x / 0x1_0000 && Shr(x, 24) == x / 0x100_0000
  {
    hide Shr, Shl;
    SomePowers();
    ShlScales(x / 0x100, 8);
    ShrRange(x, x / 0x100, 8);
    ShlScales(x / 0x1_0000, 16);
    ShrRange(x, x / 0x1_0000, 16);
    ShlScales(x / 0x100_0000, 24);
    ShrRange(x, x / 0x100_0000, 24);
  }

  lemma SomePowers()
    ensures Pow2(8) == 0x100 && Pow2(16) == 0x1_0000 && Pow2(24) == 0x100_0000
  {
    assert Pow2(8) == 0x100;
    assert Pow2(16) == 0x1_0000 by { assert Pow2(12) == 16 * Pow2(8); }
    assert Pow2(24) == 0x100_0000 by { assert Pow2(20) == 16 * Pow2(16); }
  }

  lemma DenotesByDivision(p: Prefix, v: Address)
    requires ValidPrefix(p)
    ensures p.bits == 24 ==> (Denotes(p, v) <==> v / 0x100 == p.addr / 0x100)
    ensures p.bits == 16 ==> (Denotes(p, v) <==> v / 0x1_0000 == p.addr / 0x1_0000)
    ensures p.bits == 8 ==> (Denotes(p, v) <==> v / 0x100_0000 == p.addr / 0x100_0000)
  {
    hide Shr, Denotes;
    ContainsMeansDenotes(p, v);
    ShrDivides(v);
    ShrDivides(p.addr);
  }

  lemma LeadingOctets(a: nat, b: nat, c: nat, d: nat)
    requires a <= 255 && b <= 255 && c <= 255 && d <= 255
    ensures var v := 0x100_0000 * a + 0x1_0000 * b + 0x100 * c + d;
            v / 0x100 == 0x1_0000 * a + 0x100 * b + c && v / 0x1_0000 == 0x100 * a + b && v / 0x100_0000 == a
  {
  }

  lemma SharedOctets(a: nat, b: nat, c: nat, d: nat, w: nat, x: nat, y: nat, z: nat)
    requires a <= 255 && b <= 255 && c <= 255 && d <= 255 && w <= 255 && x <= 255 && y <= 255 && z <= 255
    ensures var u, v := 0x100_0000 * a + 0x1_0000 * b + 0x100 * c + d, 0x100_0000 * w + 0x1_0000 * x + 0x100 * y + z;
            && (v / 0x100 == u / 0x100 <==> w == a && x == b && y == c)
            && (v / 0x1_0000 == u / 0x1_0000 <==> w == a && x == b)
            && (v / 0x100_0000 == u / 0x100_0000 <==> w == a)
  {
    LeadingOctets(a, b, c, d);
    LeadingOctets(w, x, y, z);
  }

  // The prefix written a.b.c.d/bits.
  function Written(a: nat, b: nat, c: nat, d: nat, bits: nat): Option<Prefix> {
    ParsePrefix(Dotted(a, b, c, d) + "/" + Numeral(bits))
  }

  /** Written with 24, 16 and 8 bits, a prefix denotes the addresses that share its first three, two
      and one octets: a.b.c.d/24 the texts a.b.c.x, a.b.c.d/16 the texts a.b.x.y, a.b.c.d/8 the texts
      a.x.y.z. */
  lemma WrittenPrefixDenotes(a: nat, b: nat, c: nat, d: nat, w: nat, x: nat, y: nat, z: nat)
    requires a <= 255 && b <= 255 && c <= 255 && d <= 255 && w <= 255 && x <= 255 && y <= 255 && z <= 255
    ensures Written(a, b, c, d, 24).Some? && Written(a, b, c, d, 16).Some? && Written(a, b, c, d, 8).Some?
    ensures ParseAddr(Dotted(w, x, y, z)).Some?
    ensures var v := ParseAddr(Dotted(w, x, y, z)).value;
            && (Denotes(Written(a, b, c, d, 24).value, v) <==> w == a && x == b && y == c)
            && (Denotes(Written(a, b, c, d, 16).value, v) <==> w == a && x == b)
            && (Denotes(Written(a, b, c, d, 8).value, v) <==> w == a)
  {
    hide ParseAddr, ParsePrefix, Dotted, Numeral, Denotes;
    AddressParses(a, b, c, d);
    AddressParses(w, x, y, z);
    PrefixParses(Dotted(a, b, c, d), 24);
    PrefixParses(Dotted(a, b, c, d), 16);
    PrefixParses(Dotted(a, b, c, d), 8);
    var v := ParseAddr(Dotted(w, x, y, z)).value;
    SharedOctets(a, b, c, d, w, x, y, z);
    DenotesByDivision(Written(a, b, c, d, 24).value, v);
    DenotesByDivision(Written(a, b, c, d, 16).value, v);
    DenotesByDivision(Written(a, b, c, d, 8).value, v);
  }

  lemma Halved(v: nat)
    ensures v / 0x1_0000 == v / 0x100 / 0x100 && v / 0x100_0000 == v / 0x100 / 0x100 / 0x100
  {
  }

  /** Every address can be written. */
  lemma EveryAddressIsWritten(v: Address)
    ensures ParseAddr(Dotted(v / 0x100_0000, v / 0x1_0000 % 0x100, v / 0x100 % 0x100, v % 0x100)) == Some(v)
  {
    hide ParseAddr, Dotted;
    var x := v / 0x100;
    var y := x / 0x100;
    Halved(v);
    AddressParses(y / 0x100, y % 0x100, x % 0x100, v % 0x100);
  }
}
