/** Concrete inputs: specs and times on which the code parts from what it promises. */
module Examples {
  import opened Wrappers
  import opened Text
  import opened IPv4
  import opened DottedDecimal
  import opened Domain
  import opened Validation
  import opened Wizard
  import SqliteStore

  const INT_MAX: Int64 := 0x7FFF_FFFF_FFFF_FFFF

  function Machine(count: Int64, key: string): Instance {
    Instance("vm", "ubuntu", "small", key, count)
  }

  function Spec(instances: seq<Instance>): EnvironmentSpec {
    EnvironmentSpec("env", "demo", Network("net", "10.0.0.0/16"), Subnet("sub", "10.0.1.0/24", "10.0.1.1", true),
                    instances, ["default"])
  }

  const SMALL := Spec([Machine(1, "")])
  const OVERFLOWING := Spec([Machine(INT_MAX, ""), Machine(INT_MAX, "")])
  const BLANK_KEY := Spec([Machine(1, " ")])

  // ---------- Addressing ----------

  lemma SomeNumerals()
    ensures Numeral(0) == "0" && Numeral(1) == "1" && Numeral(10) == "10" && Numeral(16) == "16" && Numeral(24) == "24"
  {
  }

  lemma SomeAddresses()
    ensures ParseAddr("10.0.0.0") == Some(0xA00_0000) && ParseAddr("10.0.1.0") == Some(0xA00_0100)
    ensures ParseAddr("10.0.1.1") == Some(0xA00_0101)
  {
    hide ParseAddr, Numeral;
    SomeNumerals();
    AddressParses(10, 0, 0, 0);
    AddressParses(10, 0, 1, 0);
    AddressParses(10, 0, 1, 1);
    assert Dotted(10, 0, 0, 0) == "10.0.0.0" && Dotted(10, 0, 1, 0) == "10.0.1.0" && Dotted(10, 0, 1, 1) == "10.0.1.1";
  }

  lemma SomePrefixes()
    ensures ParsePrefix("10.0.0.0/16") == Some(Prefix(0xA00_0000, 16))
    ensures ParsePrefix("10.0.1.0/24") == Some(Prefix(0xA00_0100, 24))
  {
    hide ParseAddr, ParsePrefix, Numeral;
    SomeNumerals();
    SomeAddresses();
    PrefixParses("10.0.0.0", 16);
    PrefixParses("10.0.1.0", 24);
    assert "10.0.0.0" + "/" + "16" == "10.0.0.0/16" && "10.0.1.0" + "/" + "24" == "10.0.1.0/24";
  }

  lemma NothingToTrim(s: string)
    requires s != "" && !IsSpace(s[0]) && !IsSpace(s[|s| - 1])
    ensures Trim(s) == s && !Blank(s)
  {
  }

  lemma SpecIsAddressed(instances: seq<Instance>)
    ensures Addressed(Spec(instances))
  {
    hide ParsePrefix, ParseAddr, Trim, Within, Denotes, Contains;
    NothingToTrim("10.0.0.0/16");
    NothingToTrim("10.0.1.0/24");
    NothingToTrim("10.0.1.1");
    SomePrefixes();
    SomeAddresses();
    var network, subnet := Prefix(0xA00_0000, 16), Prefix(0xA00_0100, 24);
    DenotesByDivision(network, subnet.addr);
    DenotesByDivision(subnet, 0xA00_0101);
    ContainsMeansDenotes(network, subnet.addr);
    ServerSubnetTestMeansWithin(network, subnet);
  }

  // ---------- The verdicts ----------

  lemma NamesFilled()
    ensures !Blank("env") && !Blank("demo") && !Blank("net") && !Blank("sub") && !Blank("default")
    ensures !Blank("vm") && !Blank("ubuntu") && !Blank("small") && Blank(" ")
  {
    assert " "[1..] == "";
  }

  lemma SpecIsNamed(instances: seq<Instance>)
    ensures Named(Spec(instances)) && NoneBlank(Spec(instances).securityGroups)
  {
    NamesFilled();
  }

  // For these specs the verdict depends on the instances alone.
  lemma VerdictOf(instances: seq<Instance>)
    ensures Validate(Spec(instances)).None? <==> Populated(instances) || CountsOverflow(instances)
    ensures Validate(Normalize(Spec(instances))).None? <== Populated(instances) || CountsOverflow(instances)
  {
    hide Named, Populated, CountsOverflow, Addressed, NoneBlank, Validate, Normalize;
    SpecIsAddressed(instances);
    SpecIsNamed(instances);
    AcceptedMeansWellFormed(Spec(instances));
    NormalizeFirst(Spec(instances));
  }

  /** There is an acceptable spec. */
  lemma SmallIsAccepted()
    ensures Validate(SMALL).None? && Validate(Normalize(SMALL)).None?
  {
    hide Validate, Normalize, Blank;
    NamesFilled();
    TotalsOf([Machine(1, "")]);
    VerdictOf([Machine(1, "")]);
  }

  /** Two counts of 2^63 - 1 are accepted: their running total is -2. The wizard flags them. */
  lemma OverflowIsAccepted(number: Reader)
    requires ReadsDecimals(number)
    ensures Validate(OVERFLOWING).None? && Validate(Normalize(OVERFLOWING)).None? && !WellFormed(OVERFLOWING)
    ensures RunningTotal(OVERFLOWING.instances) == -2 && TotalCount(OVERFLOWING.instances) == 0xFFFF_FFFF_FFFF_FFFE
    ensures exists f :: Flagged(number, OVERFLOWING, f)
  {
    hide Validate, Normalize, Blank, Flagged, ReadsDecimals;
    NamesFilled();
    var xs := [Machine(INT_MAX, ""), Machine(INT_MAX, "")];
    TotalsOf(xs);
    assert CountsOverflow(xs);
    VerdictOf(xs);
    hide Populated, CountsOverflow, Addressed, NoneBlank, Named;
    WizardAgreesWithServer(number, OVERFLOWING);
  }

  /** A blank key name is rejected by the validator and has become no key name on every route. */
  lemma BlankKeyVanishes()
    ensures Validate(BLANK_KEY) == Some(InstanceKeyBlank(0))
    ensures Validate(Normalize(BLANK_KEY)).None?
  {
    NamesFilled();
    hide AddressingError, Normalize, Blank;
    assert InstanceError(BLANK_KEY.instances[0], 0) == Some(InstanceKeyBlank(0));
    assert FirstError(BLANK_KEY, AddressingError(BLANK_KEY)) == Some(InstanceKeyBlank(0));
    BlankKeyIsDropped();
  }

  lemma BlankKeyIsDropped()
    ensures Validate(Normalize(BLANK_KEY)).None?
  {
    hide Validate, Normalize, Blank;
    NamesFilled();
    assert DropBlankKeys(BLANK_KEY).instances == SMALL.instances;
    assert DropBlankKeys(BLANK_KEY) == SMALL;
    NormalizeFirst(BLANK_KEY);
    SmallIsAccepted();
  }

  // ---------- Times ----------

  const MIDNIGHT := SqliteStore.Time(2024, 1, 1, 0, 0, 0, 0)
  const HALF_A_SECOND_LATER := MIDNIGHT.(nanos := 500_000_000)

  /** The first time is earlier, and its stored text sorts after that of the second. */
  lemma TimesSortInverted()
    ensures SqliteStore.Text(MIDNIGHT) == "2024-01-01T00:00:00Z"
    ensures SqliteStore.Text(HALF_A_SECOND_LATER) == "2024-01-01T00:00:00.5Z"
    ensures SqliteStore.Earlier(MIDNIGHT, HALF_A_SECOND_LATER)
    ensures SqliteStore.LexLess(SqliteStore.Text(HALF_A_SECOND_LATER), SqliteStore.Text(MIDNIGHT))
  {
    hide SqliteStore.Fraction, SqliteStore.Text, SqliteStore.LexLess;
    TimesPrinted();
    NoFraction();
    SqliteStore.FractionOrder(0, 500_000_000);
    SqliteStore.TextOrder(MIDNIGHT, HALF_A_SECOND_LATER);
  }

  lemma {:induction false} ZerosTrimToNothing(width: nat)
    ensures SqliteStore.TrimZeros(SqliteStore.Digits(0, width)) == ""
  {
    if width > 0 {
      ZerosTrimToNothing(width - 1);
      assert SqliteStore.Digits(0, width)[..width - 1] == SqliteStore.Digits(0, width - 1);
    }
  }

  lemma NoFraction()
    ensures SqliteStore.Fraction(0) == ""
  {
    ZerosTrimToNothing(9);
  }

  lemma FiveTenths()
    ensures SqliteStore.Fraction(500_000_000) == ".5"
  {
    hide SqliteStore.TrimZeros, SqliteStore.Digits;
    ZeroTrimmed(50_000_000, 8);
    ZeroTrimmed(5_000_000, 7);
    ZeroTrimmed(500_000, 6);
    ZeroTrimmed(50_000, 5);
    ZeroTrimmed(5_000, 4);
    ZeroTrimmed(500, 3);
    ZeroTrimmed(50, 2);
    ZeroTrimmed(5, 1);
    OneFive();
  }

  lemma OneFive()
    ensures SqliteStore.TrimZeros(SqliteStore.Digits(5, 1)) == "5"
  {
  }

  lemma ZeroTrimmed(n: nat, width: nat)
    ensures SqliteStore.TrimZeros(SqliteStore.Digits(10 * n, width + 1)) == SqliteStore.TrimZeros(SqliteStore.Digits(n, width))
  {
    var s := SqliteStore.Digits(10 * n, width + 1);
    assert s[..width] == SqliteStore.Digits(n, width) && s[width] == '0';
  }

  lemma TimesPrinted()
    ensures SqliteStore.Text(MIDNIGHT) == "2024-01-01T00:00:00Z"
    ensures SqliteStore.Text(HALF_A_SECOND_LATER) == "2024-01-01T00:00:00.5Z"
  {
    NoFraction();
    FiveTenths();
    hide SqliteStore.Fraction, SqliteStore.WholeSeconds;
    DayPrinted(0);
    DayPrinted(500_000_000);
    assert "2024-01-01T00:00:00" + ("" + "Z") == "2024-01-01T00:00:00Z";
    assert "2024-01-01T00:00:00" + (".5" + "Z") == "2024-01-01T00:00:00.5Z";
  }

  lemma DayPrinted(nanos: nat)
    ensures SqliteStore.WholeSeconds(MIDNIGHT.(nanos := nanos)) == "2024-01-01T00:00:00"
  {
    TwoDigits(0);
    TwoDigits(1);
    TwoDigits(20);
    TwoDigits(24);
    YearDigits();
    hide SqliteStore.Digits;
    assert SqliteStore.Clock(MIDNIGHT.(nanos := nanos)) == "00:00:00";
  }

  lemma TwoDigits(n: nat)
    requires n < 100
    ensures SqliteStore.Digits(n, 2) == ['0' + (n / 10) as char, '0' + (n % 10) as char]
  {
    assert SqliteStore.Digits(n / 10, 1) == "" + ['0' + (n / 10 % 10) as char];
  }

  lemma YearDigits()
    ensures SqliteStore.Digits(2024, 4) == "2024"
  {
    TwoDigits(20);
    assert SqliteStore.Digits(202, 3) == SqliteStore.Digits(20, 2) + ['0' + 2 as char];
  }
}
