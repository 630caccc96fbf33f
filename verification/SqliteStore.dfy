/** internal/storage/sqlite/store.go: the claim of the next queued job, and what its text order of
    timestamps means. */
module SqliteStore {
  import opened Wrappers
  import opened Domain

  // ---------- Text order ----------

  // SQLite's BINARY comparison of TEXT values.
  predicate LexLess(a: string, b: string) {
    b != "" && (a == "" || a[0] < b[0] || (a[0] == b[0] && LexLess(a[1..], b[1..])))
  }

  lemma {:induction false} LexTotal(a: string, b: string)
    ensures LexLess(a, b) || LexLess(b, a) || a == b
    ensures !(LexLess(a, b) && LexLess(b, a)) && !LexLess(a, a)
  {
    if a != "" {
      LexTotal(a[1..], a[1..]);
      if b != "" {
        LexTotal(a[1..], b[1..]);
        if a[0] == b[0] && a[1..] == b[1..] {
          assert a == [a[0]] + a[1..] && b == [b[0]] + b[1..];
        }
      }
    }
  }

  lemma {:induction false} LexTransitive(a: string, b: string, c: string)
    requires LexLess(a, b) && LexLess(b, c)
    ensures LexLess(a, c)
  {
    if a != "" && a[0] == b[0] == c[0] {
      LexTransitive(a[1..], b[1..], c[1..]);
    }
  }

  // Strings of equal length compare first.
  lemma {:induction false} LexConcat(a: string, b: string, x: string, y: string)
    requires |a| == |b|
    ensures LexLess(a + x, b + y) <==> LexLess(a, b) || (a == b && LexLess(x, y))
  {
    if a == "" {
      assert a + x == x && b + y == y;
    } else {
      LexConcat(a[1..], b[1..], x, y);
      assert (a + x)[1..] == a[1..] + x && (b + y)[1..] == b[1..] + y;
      if a[0] == b[0] && a[1..] == b[1..] {
        assert a == [a[0]] + a[1..] && b == [b[0]] + b[1..];
      }
    }
  }

  // ---------- RFC3339Nano in UTC ----------

  function Pow10(n: nat): nat {
    if n == 0 then 1 else 10 * Pow10(n - 1)
  }

  function Digits(x: nat, width: nat): (r: string)
    ensures |r| == width
    ensures forall i :: 0 <= i < width ==> '0' <= r[i] <= '9'
  {
    if width == 0 then "" else Digits(x / 10, width - 1) + ['0' + (x % 10) as char]
  }

  /** Zero-padded numerals of one width are ordered as the numbers. */
  lemma {:induction false} DigitsOrder(x: nat, y: nat, width: nat)
    requires x < Pow10(width) && y < Pow10(width)
    ensures LexLess(Digits(x, width), Digits(y, width)) <==> x < y
    ensures Digits(x, width) == Digits(y, width) <==> x == y
  {
    if width > 0 {
      DigitsOrder(x / 10, y / 10, width - 1);
      var p, q := Digits(x / 10, width - 1), Digits(y / 10, width - 1);
      var c, d := '0' + (x % 10) as char, '0' + (y % 10) as char;
      LexConcat(p, q, [c], [d]);
      assert (p + [c])[..width - 1] == p && (q + [d])[..width - 1] == q;
      assert (p + [c])[width - 1] == c && (q + [d])[width - 1] == d;
    }
  }

  datatype Time = Time(year: nat, month: nat, day: nat, hour: nat, minute: nat, second: nat, nanos: nat)

  predicate ValidTime(t: Time) {
    && t.year < 10000 && t.month < 100 && t.day < 100 && t.hour < 100 && t.minute < 100 && t.second < 100
    && t.nanos < 1_000_000_000
  }

  predicate SameSecond(a: Time, b: Time) {
    a.(nanos := 0) == b.(nanos := 0)
  }

  predicate EarlierSecond(a: Time, b: Time) {
    || a.year < b.year
    || (a.year == b.year &&
        (|| a.month < b.month
         || (a.month == b.month &&
             (|| a.day < b.day
              || (a.day == b.day &&
                  (|| a.hour < b.hour
                   || (a.hour == b.hour &&
                       (a.minute < b.minute || (a.minute == b.minute && a.second < b.second)))))))))
  }

  predicate Earlier(a: Time, b: Time) {
    EarlierSecond(a, b) || (SameSecond(a, b) && a.nanos < b.nanos)
  }

  function TrimZeros(s: string): (r: string)
    ensures r <= s
  {
    if s != "" && s[|s| - 1] == '0' then TrimZeros(s[..|s| - 1]) else s
  }

  // The layout's ".999999999": trailing zeros are dropped, and so is the point before nothing.
  function Fraction(nanos: nat): string {
    var digits := TrimZeros(Digits(nanos, 9));
    if digits == "" then "" else "." + digits
  }

  function Clock(t: Time): (r: string)
    ensures |r| == 8
  {
    Digits(t.hour, 2) + (":" + (Digits(t.minute, 2) + (":" + Digits(t.second, 2))))
  }

  function WholeSeconds(t: Time): (r: string)
    ensures |r| == 19
  {
    Digits(t.year, 4) + ("-" + (Digits(t.month, 2) + ("-" + (Digits(t.day, 2) + ("T" + Clock(t))))))
  }

  // time.Format(time.RFC3339Nano) of a UTC time.
  function Text(t: Time): string {
    WholeSeconds(t) + (Fraction(t.nanos) + "Z")
  }

  lemma SeparatorKeepsOrder(c: string, x: string, y: string)
    requires |c| == 1
    ensures LexLess(c + x, c + y) <==> LexLess(x, y)
    ensures c + x == c + y <==> x == y
  {
    LexConcat(c, c, x, y);
    LexTotal(c, c);
    assert (c + x)[1..] == x && (c + y)[1..] == y;
  }

  lemma FieldOrder(v: nat, w: nat, width: nat, x: string, y: string)
    requires v < Pow10(width) && w < Pow10(width) && |x| == |y|
    ensures LexLess(Digits(v, width) + x, Digits(w, width) + y) <==> v < w || (v == w && LexLess(x, y))
    ensures Digits(v, width) + x == Digits(w, width) + y <==> v == w && x == y
  {
    DigitsOrder(v, w, width);
    LexConcat(Digits(v, width), Digits(w, width), x, y);
    assert (Digits(v, width) + x)[..width] == Digits(v, width) && (Digits(w, width) + y)[..width] == Digits(w, width);
    assert (Digits(v, width) + x)[width..] == x && (Digits(w, width) + y)[width..] == y;
  }

  lemma ClockOrder(a: Time, b: Time)
    requires ValidTime(a) && ValidTime(b)
    ensures LexLess(Clock(a), Clock(b)) <==>
            a.hour < b.hour || (a.hour == b.hour && (a.minute < b.minute || (a.minute == b.minute && a.second < b.second)))
    ensures Clock(a) == Clock(b) <==> a.hour == b.hour && a.minute == b.minute && a.second == b.second
  {
    assert Pow10(2) == 100;
    hide Digits, LexLess, Pow10;
    DigitsOrder(a.second, b.second, 2);
    SeparatorKeepsOrder(":", Digits(a.second, 2), Digits(b.second, 2));
    FieldOrder(a.minute, b.minute, 2, ":" + Digits(a.second, 2), ":" + Digits(b.second, 2));
    SeparatorKeepsOrder(":", Digits(a.minute, 2) + (":" + Digits(a.second, 2)), Digits(b.minute, 2) + (":" + Digits(b.second, 2)));
    FieldOrder(a.hour, b.hour, 2, ":" + (Digits(a.minute, 2) + (":" + Digits(a.second, 2))), ":" + (Digits(b.minute, 2) + (":" + Digits(b.second, 2))));
  }

  lemma WholeSecondsOrder(a: Time, b: Time)
    requires ValidTime(a) && ValidTime(b)
    ensures LexLess(WholeSeconds(a), WholeSeconds(b)) <==> EarlierSecond(a, b)
    ensures WholeSeconds(a) == WholeSeconds(b) <==> SameSecond(a, b)
  {
    assert Pow10(2) == 100 && Pow10(4) == 10000;
    hide Digits, LexLess, Pow10, Clock;
    ClockOrder(a, b);
    SeparatorKeepsOrder("T", Clock(a), Clock(b));
    FieldOrder(a.day, b.day, 2, "T" + Clock(a), "T" + Clock(b));
    var dayA, dayB := Digits(a.day, 2) + ("T" + Clock(a)), Digits(b.day, 2) + ("T" + Clock(b));
    SeparatorKeepsOrder("-", dayA, dayB);
    FieldOrder(a.month, b.month, 2, "-" + dayA, "-" + dayB);
    var monthA, monthB := Digits(a.month, 2) + ("-" + dayA), Digits(b.month, 2) + ("-" + dayB);
    SeparatorKeepsOrder("-", monthA, monthB);
    FieldOrder(a.year, b.year, 4, "-" + monthA, "-" + monthB);
  }

  // ---------- Fractions ----------

  predicate BelowZ(s: string) {
    forall i :: 0 <= i < |s| ==> s[i] < 'Z'
  }

  // With a final Z, a proper prefix comes after what extends it.
  lemma {:induction false} FinalZOrder(a: string, b: string)
    requires BelowZ(a) && BelowZ(b)
    ensures LexLess(a + "Z", b + "Z") <==> (!(a <= b) && (b <= a || LexLess(a, b)))
  {
    if a != "" && b != "" {
      FinalZOrder(a[1..], b[1..]);
      assert (a + "Z")[1..] == a[1..] + "Z" && (b + "Z")[1..] == b[1..] + "Z";
      if a[0] == b[0] {
        PrefixTail(a, b);
        PrefixTail(b, a);
      }
    }
  }

  lemma PrefixTail(a: string, b: string)
    requires a != "" && b != "" && a[0] == b[0]
    ensures a <= b <==> a[1..] <= b[1..]
  {
    assert a == [a[0]] + a[1..] && b == [b[0]] + b[1..];
  }

  lemma {:induction false} TrimmedIsPrefix(s: string)
    ensures TrimZeros(s) <= s
    ensures forall i :: |TrimZeros(s)| <= i < |s| ==> s[i] == '0'
  {
    if s != "" && s[|s| - 1] == '0' {
      TrimmedIsPrefix(s[..|s| - 1]);
    }
  }

  // What extends a string by zeros is not above what extends it by anything of that length.
  lemma {:induction false} ZerosAreLeast(a: string, b: string, k: nat)
    requires |a| == |b| && k <= |a| && a[..k] == b[..k]
    requires forall i :: k <= i < |a| ==> a[i] == '0'
    requires forall i :: 0 <= i < |b| ==> '0' <= b[i]
    ensures !LexLess(b, a)
  {
    if a != "" {
      if k > 0 {
        assert a[0] == a[..k][0] == b[0];
        assert a[1..][..k - 1] == a[..k][1..] && b[1..][..k - 1] == b[..k][1..];
        ZerosAreLeast(a[1..], b[1..], k - 1);
      } else {
        ZerosAreLeast(a[1..], b[1..], 0);
      }
    }
  }

  // When neither is a prefix of the other, extensions do not matter.
  lemma {:induction false} PrefixFreeOrder(a: string, b: string, s: string, t: string)
    requires a <= s && b <= t && !(a <= b) && !(b <= a)
    ensures LexLess(s, t) <==> LexLess(a, b)
  {
    assert a[0] == s[0] && b[0] == t[0];
    if a[0] == b[0] {
      PrefixTail(a, b);
      PrefixTail(b, a);
      PrefixTail(a, s);
      PrefixTail(b, t);
      PrefixFreeOrder(a[1..], b[1..], s[1..], t[1..]);
    }
  }

  lemma TrimmedOrder(m: nat, n: nat)
    requires m < n < 1_000_000_000
    ensures var a, b := TrimZeros(Digits(m, 9)), TrimZeros(Digits(n, 9));
            !(b <= a) && (a <= b || LexLess(a, b))
  {
    assert Pow10(9) == 1_000_000_000 by { assert Pow10(5) == 100_000; }
    hide Pow10, TrimZeros, LexLess;
    var d, e := Digits(m, 9), Digits(n, 9);
    hide Digits;
    DigitsOrder(m, n, 9);
    TrimmedIsPrefix(d);
    TrimmedIsPrefix(e);
    var a, b := TrimZeros(d), TrimZeros(e);
    if b <= a {
      assert d[..|b|] == a[..|b|] == b == e[..|b|];
      ZerosAreLeast(e, d, |b|);
    } else if !(a <= b) {
      PrefixFreeOrder(a, b, d, e);
    }
  }

  lemma FractionOrder(m: nat, n: nat)
    requires m < n < 1_000_000_000
    ensures LexLess(Fraction(m) + "Z", Fraction(n) + "Z") <==> !(Fraction(m) <= Fraction(n))
    ensures Fraction(m) != Fraction(n)
  {
    TrimmedOrder(m, n);
    var a, b := TrimZeros(Digits(m, 9)), TrimZeros(Digits(n, 9));
    assert b != "" && BelowZ(a) && BelowZ(b);
    hide TrimZeros, Digits, LexLess;
    FinalZOrder(Fraction(m), Fraction(n));
    if a == "" {
      assert Fraction(m) <= Fraction(n);
    } else {
      assert Fraction(m) == "." + a && Fraction(n) == "." + b;
      PrefixTail("." + a, "." + b);
      PrefixTail("." + b, "." + a);
      SeparatorKeepsOrder(".", a, b);
      assert ("." + a)[1..] == a && ("." + b)[1..] == b;
    }
  }

  /** The stored text orders an earlier time before a later one exactly unless both fall in the same
      second and the fraction digits of the earlier, as printed, are a proper prefix of those of the
      later: then the later time sorts first. */
  lemma TextOrder(a: Time, b: Time)
    requires ValidTime(a) && ValidTime(b) && Earlier(a, b)
    ensures LexLess(Text(a), Text(b)) <==> !(SameSecond(a, b) && Fraction(a.nanos) < Fraction(b.nanos))
    ensures LexLess(Text(a), Text(b)) || LexLess(Text(b), Text(a))
  {
    hide LexLess, Fraction, WholeSeconds;
    var x, y := Fraction(a.nanos) + "Z", Fraction(b.nanos) + "Z";
    WholeSecondsOrder(a, b);
    LexConcat(WholeSeconds(a), WholeSeconds(b), x, y);
    LexTotal(WholeSeconds(a), WholeSeconds(b));
    LexTotal(Text(a), Text(b));
    if SameSecond(a, b) {
      FractionOrder(a.nanos, b.nanos);
      assert Text(a) == Text(b) ==> x == y by {
        assert Text(a)[19..] == x && Text(b)[19..] == y;
      }
      assert x[..|x| - 1] == Fraction(a.nanos) && y[..|y| - 1] == Fraction(b.nanos);
    }
  }

  // ---------- The claim ----------

  datatype Row = Row(status: JobStatus, createdAt: string, updatedAt: string)

  predicate IsQueued(rows: map<Id, Row>, id: Id) {
    id in rows && rows[id].status == Queued
  }

  // The row of SELECT ... WHERE status = 'queued' ORDER BY created_at ASC LIMIT 1.
  ghost predicate IsLeastQueued(rows: map<Id, Row>, id: Id) {
    IsQueued(rows, id) && forall k :: IsQueued(rows, k) ==> !LexLess(rows[k].createdAt, rows[id].createdAt)
  }

  lemma {:induction false} LeastExists(rows: map<Id, Row>, candidates: set<Id>)
    requires candidates != {} && forall k :: k in candidates ==> k in rows
    ensures exists id :: id in candidates && forall k :: k in candidates ==> !LexLess(rows[k].createdAt, rows[id].createdAt)
  {
    hide LexLess;
    var x :| x in candidates;
    var rest := candidates - {x};
    LexTotal(rows[x].createdAt, rows[x].createdAt);
    if rest == {} {
      assert candidates == {x};
      assert x in candidates;
    } else {
      LeastExists(rows, rest);
      var y :| y in rest && forall k :: k in rest ==> !LexLess(rows[k].createdAt, rows[y].createdAt);
      if LexLess(rows[x].createdAt, rows[y].createdAt) {
        forall k | k in candidates ensures !LexLess(rows[k].createdAt, rows[x].createdAt) {
          if k != x {
            assert k in rest;
            if LexLess(rows[k].createdAt, rows[x].createdAt) {
              LexTransitive(rows[k].createdAt, rows[x].createdAt, rows[y].createdAt);
            }
          }
        }
        assert x in candidates;
      } else {
        assert forall k :: k in candidates ==> k == x || k in rest;
        assert y in candidates;
      }
    }
  }

  class Store {
    var rows: map<Id, Row>

    constructor ()
      ensures rows == map[]
    {
      rows := map[];
    }

    // One transaction: select the least queued row, then update it if it is still queued.
    method ClaimNextQueuedJob(now: string) returns (claimed: Option<Id>)
      modifies this
      ensures claimed.None? ==> rows == old(rows) && forall k :: !IsQueued(old(rows), k)
      ensures claimed.Some? ==>
        && IsLeastQueued(old(rows), claimed.value)
        && rows == old(rows)[claimed.value := old(rows)[claimed.value].(status := Running, updatedAt := now)]
    {
      var queued := set k | k in rows && rows[k].status == Queued;
      if queued == {} {
        assert forall k :: IsQueued(rows, k) ==> k in queued;
        return None;
      }
      LeastExists(rows, queued);
      var id :| id in queued && forall k :: k in queued ==> !LexLess(rows[k].createdAt, rows[id].createdAt);
      if id in rows && rows[id].status == Queued {
        rows := rows[id := rows[id].(status := Running, updatedAt := now)];
        claimed := Some(id);
      } else {
        claimed := None;
      }
    }
  }
}
