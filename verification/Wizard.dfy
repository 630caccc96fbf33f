/** web/src/utils/environmentValidation.ts: the wizard's own copy of the spec checks, and how its
    verdict relates to the server's. */
module Wizard {
  import opened Wrappers
  import opened Text
  import opened IPv4
  import opened Domain
  import opened Validation
  import opened Checks

  datatype Part = Name | Image | Flavor | Count | Key

  // The keys of fieldErrors; InstanceField(i, Name) is "instances[i].name".
  datatype Field =
    | TenantName | EnvironmentName | NetworkName | NetworkCidr | SubnetName | SubnetCidr | GatewayIp
    | Instances | InstanceField(index: nat, part: Part) | SecurityGroups

  // JavaScript's Number(), reduced to what the wizard asks of it: the integer it yields, if it does.
  // It accepts more notations than decimal numerals; on those it agrees with the decimal value.
  type Reader = string -> Option<int>

  ghost predicate ReadsDecimals(number: Reader) {
    forall s: string :: Canonical(s) ==> number(s) == Some(Value(s) as int)
  }

  function ReadOctet(number: Reader, s: string): Option<nat> {
    match number(s)
    case Some(n) => if 0 <= n <= 255 then Some(n) else None
    case None => None
  }

  // parseIPv4Address, also the address half of parseIPv4Cidr.
  function ReadAddress(number: Reader, s: string): Option<Address> {
    var octets := Split(s, '.');
    if |octets| != 4 then None
    else match (ReadOctet(number, octets[0]), ReadOctet(number, octets[1]),
                ReadOctet(number, octets[2]), ReadOctet(number, octets[3]))
      case (Some(a), Some(b), Some(c), Some(d)) => Some(Assemble(a, b, c, d))
      case _ => None
  }

  // parseIPv4Cidr: pieces after the second are ignored.
  function ReadCidr(number: Reader, s: string): (r: Option<Prefix>)
    ensures r.Some? ==> ValidPrefix(r.value)
  {
    var pieces := Split(s, '/');
    if |pieces| < 2 || pieces[0] == "" then None
    else match (number(pieces[1]), ReadAddress(number, pieces[0]))
      case (Some(bits), Some(a)) => if 0 <= bits <= 32 then Some(Prefix(a, bits)) else None
      case _ => None
  }

  function NetworkOf(number: Reader, s: EnvironmentSpec): (r: Option<Prefix>)
    ensures r.Some? ==> ValidPrefix(r.value)
  {
    if Blank(s.network.cidr) then None else ReadCidr(number, Trim(s.network.cidr))
  }

  function SubnetOf(number: Reader, s: EnvironmentSpec): (r: Option<Prefix>)
    ensures r.Some? ==> ValidPrefix(r.value)
  {
    if Blank(s.subnet.cidr) then None else ReadCidr(number, Trim(s.subnet.cidr))
  }

  function GatewayOf(number: Reader, s: EnvironmentSpec): Option<Address> {
    if Blank(s.subnet.gatewayIp) then None else ReadAddress(number, Trim(s.subnet.gatewayIp))
  }

  predicate SubnetRejected(network: Option<Prefix>, subnet: Option<Prefix>)
    requires network.Some? ==> ValidPrefix(network.value)
  {
    subnet.None? || (network.Some? && !CidrContains(network.value, subnet.value))
  }

  predicate GatewayRejected(subnet: Option<Prefix>, gateway: Option<Address>)
    requires subnet.Some? ==> ValidPrefix(subnet.value)
  {
    gateway.None? || (subnet.Some? && !CidrContainsAddress(subnet.value, gateway.value))
  }

  predicate PartFlagged(x: Instance, part: Part) {
    match part
    case Name => Blank(x.name)
    case Image => Blank(x.image)
    case Flavor => Blank(x.flavor)
    case Count => x.count < 1 || x.count > 2
    case Key => x.sshKeyName != "" && Blank(x.sshKeyName)
  }

  // When the wizard flags a field.
  predicate Flagged(number: Reader, s: EnvironmentSpec, f: Field) {
    match f
    case TenantName => Blank(s.tenantName)
    case EnvironmentName => Blank(s.environmentName)
    case NetworkName => Blank(s.network.name)
    case NetworkCidr => NetworkOf(number, s).None?
    case SubnetName => Blank(s.subnet.name)
    case SubnetCidr => SubnetRejected(NetworkOf(number, s), SubnetOf(number, s))
    case GatewayIp => !Blank(s.subnet.gatewayIp) && GatewayRejected(SubnetOf(number, s), GatewayOf(number, s))
    case Instances => |s.instances| == 0 || |s.instances| > 2 || TotalCount(s.instances) > 2
    case InstanceField(i, part) => i < |s.instances| && PartFlagged(s.instances[i], part)
    case SecurityGroups => exists i :: 0 <= i < |s.securityGroups| && Blank(s.securityGroups[i])
  }

  lemma AddressingFlags(number: Reader, s: EnvironmentSpec)
    ensures Blank(s.network.cidr) ==> NetworkOf(number, s).None?
    ensures Blank(s.subnet.cidr) ==> SubnetOf(number, s).None?
    ensures Flagged(number, s, NetworkCidr) <==> NetworkOf(number, s).None?
    ensures Flagged(number, s, SubnetCidr) <==> SubnetRejected(NetworkOf(number, s), SubnetOf(number, s))
    ensures Flagged(number, s, GatewayIp) <==>
              !Blank(s.subnet.gatewayIp) && GatewayRejected(SubnetOf(number, s), GatewayOf(number, s))
  {
    hide Blank, ReadCidr, SubnetRejected, GatewayRejected, GatewayOf;
  }

  lemma NoGateway(number: Reader, s: EnvironmentSpec)
    requires Blank(s.subnet.gatewayIp)
    ensures GatewayOf(number, s).None?
  {
  }

  method CheckAddressing(number: Reader, s: EnvironmentSpec) returns (errors: set<Field>)
    ensures forall f :: f in errors <==> f in {NetworkCidr, SubnetCidr, GatewayIp} && Flagged(number, s, f)
  {
    hide Flagged, NetworkOf, SubnetOf, GatewayOf, Blank, CidrContains, CidrContainsAddress;
    AddressingFlags(number, s);
    errors := {};
    if Blank(s.network.cidr) { errors := errors + {NetworkCidr}; }
    if Blank(s.subnet.cidr) { errors := errors + {SubnetCidr}; }
    var network, subnet := NetworkOf(number, s), SubnetOf(number, s);
    if !Blank(s.network.cidr) && network.None? { errors := errors + {NetworkCidr}; }
    if !Blank(s.subnet.cidr) && subnet.None? { errors := errors + {SubnetCidr}; }
    if network.Some? && subnet.Some? && !CidrContains(network.value, subnet.value) { errors := errors + {SubnetCidr}; }
    assert GatewayIp !in errors && errors <= {NetworkCidr, SubnetCidr};
    assert NetworkCidr in errors <==> Flagged(number, s, NetworkCidr);
    assert SubnetCidr in errors <==> Flagged(number, s, SubnetCidr);
    var gateway := GatewayOf(number, s);
    if Blank(s.subnet.gatewayIp) {
      NoGateway(number, s);
    }
    if !Blank(s.subnet.gatewayIp) && gateway.None? {
      errors := errors + {GatewayIp};
    } else if subnet.Some? && gateway.Some? && !CidrContainsAddress(subnet.value, gateway.value) {
      errors := errors + {GatewayIp};
    }
    assert GatewayIp in errors <==> Flagged(number, s, GatewayIp);
  }

  method CheckInstance(x: Instance, i: nat) returns (errors: set<Field>)
    ensures forall f :: f in errors <==> f.InstanceField? && f.index == i && PartFlagged(x, f.part)
  {
    errors := {};
    if Blank(x.name) { errors := errors + {InstanceField(i, Name)}; }
    if Blank(x.image) { errors := errors + {InstanceField(i, Image)}; }
    if Blank(x.flavor) { errors := errors + {InstanceField(i, Flavor)}; }
    if x.count < 1 {
      errors := errors + {InstanceField(i, Count)};
    } else if x.count > 2 {
      errors := errors + {InstanceField(i, Count)};
    }
    if x.sshKeyName != "" && Blank(x.sshKeyName) { errors := errors + {InstanceField(i, Key)}; }
  }

  method CheckInstances(number: Reader, s: EnvironmentSpec) returns (errors: set<Field>)
    ensures forall f :: f in errors <==> (f.Instances? || f.InstanceField?) && Flagged(number, s, f)
  {
    errors := {};
    var total := 0;
    for i := 0 to |s.instances|
      invariant total == TotalCount(s.instances[..i])
      invariant forall f :: f in errors <==> f.InstanceField? && f.index < i && PartFlagged(s.instances[f.index], f.part)
    {
      assert s.instances[..i + 1][..i] == s.instances[..i];
      total := total + s.instances[i].count;
      var found := CheckInstance(s.instances[i], i);
      errors := errors + found;
    }
    assert s.instances[..|s.instances|] == s.instances;
    if |s.instances| == 0 || |s.instances| > 2 { errors := errors + {Instances}; }
    if total > 2 { errors := errors + {Instances}; }
  }

  /** The wizard collects exactly the flagged fields. */
  method ValidateEnvironmentSpecForWizard(number: Reader, s: EnvironmentSpec) returns (fieldErrors: set<Field>)
    ensures forall f :: f in fieldErrors <==> Flagged(number, s, f)
  {
    hide Blank, PartFlagged, TotalCount, NetworkOf, SubnetOf, GatewayOf, SubnetRejected, GatewayRejected;
    fieldErrors := {};
    if Blank(s.tenantName) { fieldErrors := fieldErrors + {TenantName}; }
    if Blank(s.environmentName) { fieldErrors := fieldErrors + {EnvironmentName}; }
    if Blank(s.network.name) { fieldErrors := fieldErrors + {NetworkName}; }
    if Blank(s.subnet.name) { fieldErrors := fieldErrors + {SubnetName}; }
    var addressing := CheckAddressing(number, s);
    var instances := CheckInstances(number, s);
    fieldErrors := fieldErrors + addressing + instances;
    if exists i :: 0 <= i < |s.securityGroups| && Blank(s.securityGroups[i]) {
      fieldErrors := fieldErrors + {SecurityGroups};
    }
  }

  // ---------- Agreement with the server ----------

  lemma ReadsSameAddress(number: Reader, s: string)
    requires ReadsDecimals(number) && ParseAddr(s).Some?
    ensures ReadAddress(number, s) == ParseAddr(s)
  {
  }

  lemma ReadsSamePrefix(number: Reader, s: string)
    requires ReadsDecimals(number) && ParsePrefix(s).Some?
    ensures ReadCidr(number, s) == ParsePrefix(s)
  {
    var pieces := Split(s, '/');
    ReadsSameAddress(number, pieces[0]);
  }

  // Prefixes and gateway written in the notation the server reads.
  predicate StrictNotation(s: EnvironmentSpec) {
    && ParsePrefix(Trim(s.network.cidr)).Some?
    && ParsePrefix(Trim(s.subnet.cidr)).Some?
    && (Blank(s.subnet.gatewayIp) || ParseAddr(Trim(s.subnet.gatewayIp)).Some?)
  }

  lemma AddressingAgrees(number: Reader, s: EnvironmentSpec)
    requires ReadsDecimals(number) && StrictNotation(s)
    ensures Addressed(s) <==>
            !Flagged(number, s, NetworkCidr) && !Flagged(number, s, SubnetCidr) && !Flagged(number, s, GatewayIp)
  {
    EmptyTextParsesToNothing();
    BlankMeansTrimsToNothing(s.network.cidr);
    BlankMeansTrimsToNothing(s.subnet.cidr);
    ReadsSamePrefix(number, Trim(s.network.cidr));
    ReadsSamePrefix(number, Trim(s.subnet.cidr));
    var network, subnet := ParsePrefix(Trim(s.network.cidr)).value, ParsePrefix(Trim(s.subnet.cidr)).value;
    WizardSubnetTestMeansWithin(network, subnet);
    if !Blank(s.subnet.gatewayIp) {
      ReadsSameAddress(number, Trim(s.subnet.gatewayIp));
      WizardAddressTestMeansDenotes(subnet, ParseAddr(Trim(s.subnet.gatewayIp)).value);
    }
  }

  lemma InstanceAgrees(x: Instance)
    ensures WellFormedInstance(x) && x.count <= 2 <==> forall part :: !PartFlagged(x, part)
  {
    if forall part :: !PartFlagged(x, part) {
      assert !PartFlagged(x, Name) && !PartFlagged(x, Image) && !PartFlagged(x, Flavor);
      assert !PartFlagged(x, Count) && !PartFlagged(x, Key);
    }
  }

  lemma InstancesAgree(number: Reader, s: EnvironmentSpec)
    ensures Populated(s.instances) <==>
            !Flagged(number, s, Instances) && forall i: nat, part :: !Flagged(number, s, InstanceField(i, part))
  {
    forall i | 0 <= i < |s.instances|
      ensures WellFormedInstance(s.instances[i]) && s.instances[i].count <= 2 <==>
              forall part :: !Flagged(number, s, InstanceField(i, part))
    {
      InstanceAgrees(s.instances[i]);
      assert forall part :: Flagged(number, s, InstanceField(i, part)) == PartFlagged(s.instances[i], part);
    }
    if Populated(s.instances) {
      SmallCounts(s.instances);
    }
  }

  // With every count at least 1, a total of at most 2 bounds each count.
  lemma {:induction false} SmallCounts(xs: seq<Instance>)
    requires forall i :: 0 <= i < |xs| ==> xs[i].count >= 1
    ensures TotalCount(xs) >= |xs|
    ensures forall i :: 0 <= i < |xs| ==> xs[i].count <= TotalCount(xs)
  {
    if xs != [] {
      SmallCounts(xs[..|xs| - 1]);
    }
  }

  lemma NoFieldFlagged(number: Reader, s: EnvironmentSpec)
    ensures (forall f :: !Flagged(number, s, f)) <==>
      && Named(s)
      && !Flagged(number, s, NetworkCidr) && !Flagged(number, s, SubnetCidr) && !Flagged(number, s, GatewayIp)
      && Populated(s.instances)
      && NoneBlank(s.securityGroups)
  {
    InstancesAgree(number, s);
    if forall f :: !Flagged(number, s, f) {
      assert !Flagged(number, s, TenantName) && !Flagged(number, s, EnvironmentName);
      assert !Flagged(number, s, NetworkName) && !Flagged(number, s, SubnetName);
      assert !Flagged(number, s, SecurityGroups) && !Flagged(number, s, Instances);
    }
  }

  // The largest int: a total beyond it wraps around on the server, not in the wizard.
  predicate TotalFits(s: EnvironmentSpec) {
    TotalCount(s.instances) < 0x8000_0000_0000_0000
  }

  lemma OverflowDoesNotFit(s: EnvironmentSpec)
    ensures Populated(s.instances) ==> TotalFits(s)
    ensures CountsOverflow(s.instances) ==> !TotalFits(s) && !Populated(s.instances)
  {
    if CountsOverflow(s.instances) {
      TotalsOf(s.instances);
    }
  }

  /** On specs written in the server's notation the wizard flags no field exactly when the server
      accepts and the counts' total fits an int; every spec the server accepts is written in that
      notation, and the wizard flags a field of it exactly when the total does not fit. */
  lemma WizardAgreesWithServer(number: Reader, s: EnvironmentSpec)
    requires ReadsDecimals(number)
    ensures StrictNotation(s) ==> ((forall f :: !Flagged(number, s, f)) <==> Validate(s).None? && TotalFits(s))
    ensures Validate(s).None? ==> StrictNotation(s) && ((forall f :: !Flagged(number, s, f)) <==> TotalFits(s))
  {
    hide Flagged, Validate, Populated, CountsOverflow, TotalFits;
    AcceptedMeansWellFormed(s);
    NoFieldFlagged(number, s);
    OverflowDoesNotFit(s);
    if StrictNotation(s) {
      AddressingAgrees(number, s);
    }
  }

  // ---------- The addressing fields one by one ----------

  // Blank, or a prefix in the server's notation.
  predicate BlankOrPrefix(s: string) {
    Blank(s) || ParsePrefix(Trim(s)).Some?
  }

  /** Each addressing field on its own, whether or not the others are filled: the network is flagged
      when it is missing, the subnet when it is missing or not within the network, the gateway when it
      is given and not an address of the subnet. */
  lemma AddressingFields(number: Reader, s: EnvironmentSpec)
    requires ReadsDecimals(number) && BlankOrPrefix(s.network.cidr) && BlankOrPrefix(s.subnet.cidr)
    requires Blank(s.subnet.gatewayIp) || ParseAddr(Trim(s.subnet.gatewayIp)).Some?
    ensures Flagged(number, s, NetworkCidr) <==> Blank(s.network.cidr)
    ensures Flagged(number, s, SubnetCidr) <==>
              Blank(s.subnet.cidr)
              || (!Blank(s.network.cidr)
                  && !Within(ParsePrefix(Trim(s.subnet.cidr)).value, ParsePrefix(Trim(s.network.cidr)).value))
    ensures Flagged(number, s, GatewayIp) <==>
              && !Blank(s.subnet.gatewayIp) && !Blank(s.subnet.cidr)
              && !Denotes(ParsePrefix(Trim(s.subnet.cidr)).value, ParseAddr(Trim(s.subnet.gatewayIp)).value)
  {
    hide ParsePrefix, ParseAddr, ReadCidr, ReadAddress, CidrContains, CidrContainsAddress, Blank, Trim, Within, Denotes;
    if !Blank(s.network.cidr) {
      ReadsSamePrefix(number, Trim(s.network.cidr));
    }
    if !Blank(s.subnet.cidr) {
      ReadsSamePrefix(number, Trim(s.subnet.cidr));
    }
    if !Blank(s.subnet.gatewayIp) {
      ReadsSameAddress(number, Trim(s.subnet.gatewayIp));
    }
    if !Blank(s.subnet.cidr) && !Blank(s.network.cidr) {
      WizardSubnetTestMeansWithin(ParsePrefix(Trim(s.network.cidr)).value, ParsePrefix(Trim(s.subnet.cidr)).value);
    }
    if !Blank(s.subnet.cidr) && !Blank(s.subnet.gatewayIp) {
      WizardAddressTestMeansDenotes(ParsePrefix(Trim(s.subnet.cidr)).value, ParseAddr(Trim(s.subnet.gatewayIp)).value);
    }
  }

  lemma SplitTail(s: string, tail: string)
    requires |Split(s, '/')| == 2
    ensures Split(s + "/" + tail, '/') == Split(s, '/') + Split(tail, '/')
  {
    JoinSplit(s, '/');
    var p := Split(s, '/');
    hide Split;
    assert s == p[0] + ['/'] + p[1] by { assert Join(p[1..], '/') == p[1]; }
    SplitAtFirst(p[1], '/', tail);
    SplitAtFirst(p[0], '/', p[1] + ['/'] + tail);
    assert s + "/" + tail == p[0] + ['/'] + (p[1] + ['/'] + tail);
  }

  /** Whatever follows a second slash the wizard ignores and the server refuses. */
  lemma WizardIgnoresTail(number: Reader, s: string, tail: string)
    requires ReadsDecimals(number) && ParsePrefix(s).Some?
    ensures ReadCidr(number, s + "/" + tail) == ParsePrefix(s)
    ensures ParsePrefix(s + "/" + tail).None?
  {
    SplitTail(s, tail);
    hide ParseAddr, ReadAddress;
    ReadsSamePrefix(number, s);
  }

  // ---------- What each flag says in the server's terms ----------

  /** Each flag of a name, and of the security groups, says what an error of the server says of the same
      field. */
  lemma NameFlagsAreErrors(number: Reader, s: EnvironmentSpec)
    ensures Flagged(number, s, TenantName) <==> Fails(s, TenantNameRequired)
    ensures Flagged(number, s, EnvironmentName) <==> Fails(s, EnvironmentNameRequired)
    ensures Flagged(number, s, NetworkName) <==> Fails(s, NetworkNameRequired)
    ensures Flagged(number, s, SubnetName) <==> Fails(s, SubnetNameRequired)
    ensures Flagged(number, s, SecurityGroups) <==> exists k :: Fails(s, SecurityGroupEmpty(k))
  {
    hide Blank, FailsAddressing;
    if Flagged(number, s, SecurityGroups) {
      var k :| 0 <= k < |s.securityGroups| && Blank(s.securityGroups[k]);
      assert Fails(s, SecurityGroupEmpty(k));
    }
  }

  /** So does each flag of an instance, but that a count is flagged from 3 on, too. */
  lemma InstanceFlagsAreErrors(number: Reader, s: EnvironmentSpec, i: nat)
    ensures Flagged(number, s, InstanceField(i, Name)) <==> Fails(s, InstanceNameRequired(i))
    ensures Flagged(number, s, InstanceField(i, Image)) <==> Fails(s, InstanceImageRequired(i))
    ensures Flagged(number, s, InstanceField(i, Flavor)) <==> Fails(s, InstanceFlavorRequired(i))
    ensures Flagged(number, s, InstanceField(i, Key)) <==> Fails(s, InstanceKeyBlank(i))
    ensures Flagged(number, s, InstanceField(i, Count)) <==>
              Fails(s, InstanceCountTooSmall(i)) || (i < |s.instances| && s.instances[i].count > 2)
  {
    hide Blank, TotalCount, FailsAddressing;
  }

  /** And the flag of the list, but that the total is the true one. */
  lemma ListFlagIsError(number: Reader, s: EnvironmentSpec)
    ensures Flagged(number, s, Instances) <==>
              Fails(s, NoInstances) || Fails(s, TooManyInstances) || TotalCount(s.instances) > 2
  {
    hide Blank, TotalCount, FailsAddressing;
  }
}
