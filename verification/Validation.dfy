/** internal/validation/environment.go: normalization and validation of environment specs. */
module Validation {
  import opened Wrappers
  import opened Text
  import opened IPv4
  import opened Domain

  datatype SpecError =
    | EnvironmentNameRequired | TenantNameRequired | NetworkNameRequired | SubnetNameRequired
    | NoInstances | TooManyInstances
    | InstanceNameRequired(index: nat) | InstanceImageRequired(index: nat) | InstanceFlavorRequired(index: nat)
    | InstanceCountTooSmall(index: nat) | InstanceKeyBlank(index: nat)
    | TotalCountTooLarge
    | NetworkCidrRequired | NetworkCidrInvalid | SubnetCidrRequired | SubnetCidrInvalid | SubnetOutsideNetwork
    | GatewayInvalid | GatewayOutsideSubnet
    | SecurityGroupEmpty(index: nat)

  // ---------- Normalization ----------

  function NormalizeInstance(x: Instance): Instance {
    Instance(Trim(x.name), Trim(x.image), Trim(x.flavor), Trim(x.sshKeyName), x.count)
  }

  function NormalizeInstances(xs: seq<Instance>): (r: seq<Instance>)
    ensures |r| == |xs| && forall i :: 0 <= i < |xs| ==> r[i] == NormalizeInstance(xs[i])
  {
    seq(|xs|, i requires 0 <= i < |xs| => NormalizeInstance(xs[i]))
  }

  function NormalizeGroups(xs: seq<string>): (r: seq<string>)
    ensures |r| == |xs| && forall i :: 0 <= i < |xs| ==> r[i] == Trim(xs[i])
  {
    seq(|xs|, i requires 0 <= i < |xs| => Trim(xs[i]))
  }

  function Normalize(s: EnvironmentSpec): EnvironmentSpec {
    EnvironmentSpec(
      Trim(s.environmentName), Trim(s.tenantName),
      Network(Trim(s.network.name), Trim(s.network.cidr)),
      Subnet(Trim(s.subnet.name), Trim(s.subnet.cidr), Trim(s.subnet.gatewayIp), s.subnet.enableDhcp),
      NormalizeInstances(s.instances), NormalizeGroups(s.securityGroups))
  }

  /** Normalizing twice is normalizing once. */
  lemma NormalizeIdempotent(s: EnvironmentSpec)
    ensures Normalize(Normalize(s)) == Normalize(s)
  {
    forall t: string ensures Trim(Trim(t)) == Trim(t) {
      TrimIdempotent(t);
    }
    var once := NormalizeInstances(s.instances);
    assert NormalizeInstances(once) == once;
    var groups := NormalizeGroups(s.securityGroups);
    assert NormalizeGroups(groups) == groups;
  }

  /** NormalizeEnvironmentSpec. The two lists are Go slices: the loops rewrite the caller's elements. */
  method NormalizeEnvironmentSpec(s: EnvironmentSpec, instances: array<Instance>, groups: array<string>)
      returns (r: EnvironmentSpec)
    requires s.instances == instances[..] && s.securityGroups == groups[..]
    modifies instances, groups
    ensures r == Normalize(s)
    ensures instances[..] == r.instances && groups[..] == r.securityGroups
  {
    r := s.(environmentName := Trim(s.environmentName), tenantName := Trim(s.tenantName));
    r := r.(network := Network(Trim(s.network.name), Trim(s.network.cidr)));
    r := r.(subnet := Subnet(Trim(s.subnet.name), Trim(s.subnet.cidr), Trim(s.subnet.gatewayIp), s.subnet.enableDhcp));
    for i := 0 to instances.Length
      invariant forall k :: 0 <= k < i ==> instances[k] == NormalizeInstance(s.instances[k])
      invariant forall k :: i <= k < instances.Length ==> instances[k] == s.instances[k]
      invariant groups[..] == s.securityGroups
    {
      instances[i] := NormalizeInstance(instances[i]);
    }
    for i := 0 to groups.Length
      invariant instances[..] == NormalizeInstances(s.instances)
      invariant forall k :: 0 <= k < i ==> groups[k] == Trim(s.securityGroups[k])
      invariant forall k :: i <= k < groups.Length ==> groups[k] == s.securityGroups[k]
    {
      groups[i] := Trim(groups[i]);
    }
    r := r.(instances := instances[..], securityGroups := groups[..]);
    assert r.securityGroups == NormalizeGroups(s.securityGroups);
  }

  // ---------- Validation ----------

  function InstanceError(x: Instance, i: nat): Option<SpecError> {
    if Blank(x.name) then Some(InstanceNameRequired(i))
    else if Blank(x.image) then Some(InstanceImageRequired(i))
    else if Blank(x.flavor) then Some(InstanceFlavorRequired(i))
    else if x.count <= 0 then Some(InstanceCountTooSmall(i))
    else if x.sshKeyName != "" && Blank(x.sshKeyName) then Some(InstanceKeyBlank(i))
    else None
  }

  function FirstInstanceError(xs: seq<Instance>, i: nat): Option<SpecError>
    requires i <= |xs|
    decreases |xs| - i
  {
    if i == |xs| then None
    else if InstanceError(xs[i], i).Some? then InstanceError(xs[i], i)
    else FirstInstanceError(xs, i + 1)
  }

  function TotalCount(xs: seq<Instance>): int {
    if xs == [] then 0 else TotalCount(xs[..|xs| - 1]) + xs[|xs| - 1].count
  }

  // Addition of Go ints wraps around.
  function Wrap(n: int): Int64 {
    (n + 0x8000_0000_0000_0000) % 0x1_0000_0000_0000_0000 - 0x8000_0000_0000_0000
  }

  // The loop's running total.
  function RunningTotal(xs: seq<Instance>): Int64 {
    if xs == [] then 0 else Wrap(RunningTotal(xs[..|xs| - 1]) + xs[|xs| - 1].count)
  }

  function FirstEmptyGroup(groups: seq<string>, i: nat): Option<SpecError>
    requires i <= |groups|
    decreases |groups| - i
  {
    if i == |groups| then None
    else if Blank(groups[i]) then Some(SecurityGroupEmpty(i))
    else FirstEmptyGroup(groups, i + 1)
  }

  function ParseCidr(s: string): (r: Option<Prefix>)
    ensures r.Some? ==> ValidPrefix(r.value)
  {
    match ParsePrefix(Trim(s))
    case None => None
    case Some(p) => Some(Masked(p))
  }

  function AddressingError(s: EnvironmentSpec): Option<SpecError> {
    if Blank(s.network.cidr) then Some(NetworkCidrRequired)
    else match ParseCidr(s.network.cidr)
      case None => Some(NetworkCidrInvalid)
      case Some(network) =>
        if Blank(s.subnet.cidr) then Some(SubnetCidrRequired)
        else match ParseCidr(s.subnet.cidr)
          case None => Some(SubnetCidrInvalid)
          case Some(subnet) =>
            if !ServerSubnetTest(network, subnet) then Some(SubnetOutsideNetwork)
            else if Blank(s.subnet.gatewayIp) then None
            else match ParseAddr(Trim(s.subnet.gatewayIp))
              case None => Some(GatewayInvalid)
              case Some(gateway) => if Contains(subnet, gateway) then None else Some(GatewayOutsideSubnet)
  }

  /** The first check, in source order, that a spec fails. */
  function Validate(s: EnvironmentSpec): Option<SpecError> {
    FirstError(s, AddressingError(s))
  }

  function FirstError(s: EnvironmentSpec, addressing: Option<SpecError>): Option<SpecError> {
    if Blank(s.environmentName) then Some(EnvironmentNameRequired)
    else if Blank(s.tenantName) then Some(TenantNameRequired)
    else if Blank(s.network.name) then Some(NetworkNameRequired)
    else if Blank(s.subnet.name) then Some(SubnetNameRequired)
    else if |s.instances| == 0 then Some(NoInstances)
    else if |s.instances| > 2 then Some(TooManyInstances)
    else if FirstInstanceError(s.instances, 0).Some? then FirstInstanceError(s.instances, 0)
    else if RunningTotal(s.instances) > 2 then Some(TotalCountTooLarge)
    else if addressing.Some? then addressing
    else FirstEmptyGroup(s.securityGroups, 0)
  }

  method ValidateEnvironmentSpec(s: EnvironmentSpec) returns (err: Option<SpecError>)
    ensures err == Validate(s)
  {
    err := RunChecks(s, AddressingError(s));
  }

  // The checks in source order; the verdict of the addressing block is handed in.
  method RunChecks(s: EnvironmentSpec, addressing: Option<SpecError>) returns (err: Option<SpecError>)
    ensures err == FirstError(s, addressing)
  {
    if Blank(s.environmentName) { return Some(EnvironmentNameRequired); }
    if Blank(s.tenantName) { return Some(TenantNameRequired); }
    if Blank(s.network.name) { return Some(NetworkNameRequired); }
    if Blank(s.subnet.name) { return Some(SubnetNameRequired); }
    if |s.instances| == 0 { return Some(NoInstances); }
    if |s.instances| > 2 { return Some(TooManyInstances); }
    var totalCount: Int64 := 0;
    for i := 0 to |s.instances|
      invariant FirstInstanceError(s.instances, 0) == FirstInstanceError(s.instances, i)
      invariant totalCount == RunningTotal(s.instances[..i])
    {
      var inst := s.instances[i];
      if InstanceError(inst, i).Some? { return InstanceError(inst, i); }
      totalCount := Wrap(totalCount + inst.count);
      assert s.instances[..i + 1][..i] == s.instances[..i];
    }
    assert s.instances[..|s.instances|] == s.instances;
    if totalCount > 2 { return Some(TotalCountTooLarge); }
    if addressing.Some? { return addressing; }
    for i := 0 to |s.securityGroups|
      invariant FirstEmptyGroup(s.securityGroups, 0) == FirstEmptyGroup(s.securityGroups, i)
    {
      if Blank(s.securityGroups[i]) { return Some(SecurityGroupEmpty(i)); }
    }
    return None;
  }

  // ---------- What an accepted spec satisfies ----------

  predicate WellFormedInstance(x: Instance) {
    !Blank(x.name) && !Blank(x.image) && !Blank(x.flavor) && x.count >= 1
    && (x.sshKeyName == "" || !Blank(x.sshKeyName))
  }

  // The addresses of the subnet are addresses of the network, and the gateway, if any, is one of the subnet's.
  ghost predicate Addressed(s: EnvironmentSpec) {
    match (ParsePrefix(Trim(s.network.cidr)), ParsePrefix(Trim(s.subnet.cidr)))
    case (Some(network), Some(subnet)) =>
      && Within(subnet, network)
      && (Blank(s.subnet.gatewayIp) ||
          match ParseAddr(Trim(s.subnet.gatewayIp))
          case Some(gateway) => Denotes(subnet, gateway)
          case None => false)
    case _ => false
  }

  predicate Named(s: EnvironmentSpec) {
    !Blank(s.environmentName) && !Blank(s.tenantName) && !Blank(s.network.name) && !Blank(s.subnet.name)
  }

  predicate Populated(xs: seq<Instance>) {
    && 1 <= |xs| <= 2
    && (forall i :: 0 <= i < |xs| ==> WellFormedInstance(xs[i]))
    && TotalCount(xs) <= 2
  }

  predicate NoneBlank(groups: seq<string>) {
    forall i :: 0 <= i < |groups| ==> !Blank(groups[i])
  }

  ghost predicate WellFormed(s: EnvironmentSpec) {
    Named(s) && Populated(s.instances) && Addressed(s) && NoneBlank(s.securityGroups)
  }

  // Two instances, in order but for counts whose sum exceeds what an int can hold.
  predicate CountsOverflow(xs: seq<Instance>) {
    && |xs| == 2 && WellFormedInstance(xs[0]) && WellFormedInstance(xs[1])
    && xs[0].count + xs[1].count >= 0x8000_0000_0000_0000
  }

  ghost predicate WellFormedButForOverflow(s: EnvironmentSpec) {
    Named(s) && CountsOverflow(s.instances) && Addressed(s) && NoneBlank(s.securityGroups)
  }

  lemma {:induction false} NoInstanceError(xs: seq<Instance>, i: nat)
    requires i <= |xs|
    ensures FirstInstanceError(xs, i).None? <==> forall k :: i <= k < |xs| ==> WellFormedInstance(xs[k])
    decreases |xs| - i
  {
    if i < |xs| {
      NoInstanceError(xs, i + 1);
    }
  }

  lemma {:induction false} NoEmptyGroup(groups: seq<string>, i: nat)
    requires i <= |groups|
    ensures FirstEmptyGroup(groups, i).None? <==> forall k :: i <= k < |groups| ==> !Blank(groups[k])
    decreases |groups| - i
  {
    if i < |groups| {
      NoEmptyGroup(groups, i + 1);
    }
  }

  lemma EmptyTextParsesToNothing()
    ensures ParsePrefix("").None? && ParseAddr("").None?
  {
  }

  // Masking both prefixes first does not change what the server's tests decide.
  lemma MaskedTests(network: Prefix, subnet: Prefix)
    requires ValidPrefix(network) && ValidPrefix(subnet)
    ensures ServerSubnetTest(Masked(network), Masked(subnet)) <==> Within(subnet, network)
  {
    ServerSubnetTestMeansWithin(Masked(network), Masked(subnet));
    forall a: Address
      ensures Denotes(Masked(network), a) <==> Denotes(network, a)
      ensures Denotes(Masked(subnet), a) <==> Denotes(subnet, a)
    {
      MaskedSameBlock(network, a);
      MaskedSameBlock(subnet, a);
    }
  }

  lemma NoAddressingError(s: EnvironmentSpec)
    ensures AddressingError(s).None? <==> Addressed(s)
  {
    EmptyTextParsesToNothing();
    BlankMeansTrimsToNothing(s.network.cidr);
    BlankMeansTrimsToNothing(s.subnet.cidr);
    match (ParsePrefix(Trim(s.network.cidr)), ParsePrefix(Trim(s.subnet.cidr)))
    case (Some(network), Some(subnet)) =>
      MaskedTests(network, subnet);
      match ParseAddr(Trim(s.subnet.gatewayIp)) {
        case None =>
        case Some(gateway) =>
          MaskedSameBlock(subnet, gateway);
          ContainsMeansDenotes(subnet, gateway);
      }
    case _ =>
  }

  // The running total is the true total as long as that fits; for two positive counts it is
  // negative otherwise.
  lemma TotalsOf(xs: seq<Instance>)
    requires 1 <= |xs| <= 2 && forall i :: 0 <= i < |xs| ==> xs[i].count >= 1
    ensures |xs| == 1 ==> RunningTotal(xs) == TotalCount(xs) == xs[0].count
    ensures |xs| == 2 ==> TotalCount(xs) == xs[0].count + xs[1].count
    ensures |xs| == 2 ==>
              RunningTotal(xs) == if TotalCount(xs) < 0x8000_0000_0000_0000 then TotalCount(xs)
                                  else TotalCount(xs) - 0x1_0000_0000_0000_0000
  {
    assert xs[..1][..0] == [] && TotalCount(xs[..1]) == xs[0].count;
    assert RunningTotal(xs[..1]) == xs[0].count;
  }

  lemma NoCountError(xs: seq<Instance>)
    requires 1 <= |xs| <= 2 && forall i :: 0 <= i < |xs| ==> WellFormedInstance(xs[i])
    ensures RunningTotal(xs) <= 2 <==> TotalCount(xs) <= 2 || CountsOverflow(xs)
    ensures CountsOverflow(xs) ==> TotalCount(xs) > 2
  {
    TotalsOf(xs);
  }

  lemma NoFirstError(s: EnvironmentSpec, addressing: Option<SpecError>)
    ensures FirstError(s, addressing).None? <==>
            && Named(s) && (Populated(s.instances) || CountsOverflow(s.instances))
            && addressing.None? && NoneBlank(s.securityGroups)
  {
    NoInstanceError(s.instances, 0);
    NoEmptyGroup(s.securityGroups, 0);
    if 1 <= |s.instances| <= 2 && forall i :: 0 <= i < |s.instances| ==> WellFormedInstance(s.instances[i]) {
      NoCountError(s.instances);
    }
  }

  /** The validator accepts the well-formed specs, in which subnet and gateway membership are
      inclusion of address sets, whatever host bits the prefixes were written with; and beyond those
      exactly the specs whose only fault is that the sum of their two counts overflows. */
  lemma AcceptedMeansWellFormed(s: EnvironmentSpec)
    ensures Validate(s).None? <==> WellFormed(s) || WellFormedButForOverflow(s)
    ensures !(WellFormed(s) && WellFormedButForOverflow(s))
  {
    if CountsOverflow(s.instances) {
      TotalsOf(s.instances);
    }
    NoFirstError(s, AddressingError(s));
    NoAddressingError(s);
  }

  // ---------- Normalizing first, as the handlers do ----------

  function DropBlankKey(x: Instance): Instance {
    if Blank(x.sshKeyName) then x.(sshKeyName := "") else x
  }

  function DropBlankKeys(s: EnvironmentSpec): EnvironmentSpec {
    s.(instances := seq(|s.instances|, i requires 0 <= i < |s.instances| => DropBlankKey(s.instances[i])))
  }

  lemma NormalizedInstance(x: Instance)
    ensures WellFormedInstance(NormalizeInstance(x)) <==> WellFormedInstance(DropBlankKey(x))
  {
    BlankMeansTrimsToNothing(x.sshKeyName);
    TrimKeepsBlank(x.name);
    TrimKeepsBlank(x.image);
    TrimKeepsBlank(x.flavor);
    TrimKeepsBlank(x.sshKeyName);
  }

  lemma NormalizedAddressed(s: EnvironmentSpec)
    ensures Addressed(Normalize(s)) <==> Addressed(s)
  {
    TrimIdempotent(s.network.cidr);
    TrimIdempotent(s.subnet.cidr);
    TrimIdempotent(s.subnet.gatewayIp);
    TrimKeepsBlank(s.subnet.gatewayIp);
  }

  lemma {:induction false} SameTotal(xs: seq<Instance>, ys: seq<Instance>)
    requires |xs| == |ys| && forall i :: 0 <= i < |xs| ==> xs[i].count == ys[i].count
    ensures TotalCount(xs) == TotalCount(ys)
  {
    if xs != [] {
      SameTotal(xs[..|xs| - 1], ys[..|ys| - 1]);
    }
  }

  lemma SamePopulated(xs: seq<Instance>, ys: seq<Instance>)
    requires |xs| == |ys| && forall i :: 0 <= i < |xs| ==> xs[i].count == ys[i].count
    requires forall i :: 0 <= i < |xs| ==> (WellFormedInstance(xs[i]) <==> WellFormedInstance(ys[i]))
    ensures Populated(xs) <==> Populated(ys)
    ensures CountsOverflow(xs) <==> CountsOverflow(ys)
  {
    SameTotal(xs, ys);
  }

  lemma NormalizedPopulated(s: EnvironmentSpec)
    ensures Populated(Normalize(s).instances) <==> Populated(DropBlankKeys(s).instances)
    ensures CountsOverflow(Normalize(s).instances) <==> CountsOverflow(DropBlankKeys(s).instances)
  {
    forall i | 0 <= i < |s.instances|
      ensures WellFormedInstance(NormalizeInstance(s.instances[i])) <==> WellFormedInstance(DropBlankKey(s.instances[i]))
    {
      NormalizedInstance(s.instances[i]);
    }
    SamePopulated(NormalizeInstances(s.instances), DropBlankKeys(s).instances);
  }

  lemma NormalizedNamed(s: EnvironmentSpec)
    ensures Named(Normalize(s)) <==> Named(s)
  {
    TrimKeepsBlank(s.environmentName);
    TrimKeepsBlank(s.tenantName);
    TrimKeepsBlank(s.network.name);
    TrimKeepsBlank(s.subnet.name);
  }

  lemma NormalizedNoneBlank(groups: seq<string>)
    ensures NoneBlank(NormalizeGroups(groups)) <==> NoneBlank(groups)
  {
    forall i | 0 <= i < |groups|
      ensures Blank(NormalizeGroups(groups)[i]) <==> Blank(groups[i])
    {
      TrimKeepsBlank(groups[i]);
    }
  }

  lemma DroppedKeysOnly(s: EnvironmentSpec)
    ensures Named(DropBlankKeys(s)) == Named(s) && Addressed(DropBlankKeys(s)) == Addressed(s)
    ensures Populated(s.instances) ==> Populated(DropBlankKeys(s).instances)
    ensures CountsOverflow(s.instances) ==> CountsOverflow(DropBlankKeys(s).instances)
  {
    SameTotal(s.instances, DropBlankKeys(s).instances);
  }

  /** Normalizing first changes the verdict in one way only: a blank key name, which the validator
      rejects, is first turned into no key name. Every route normalizes first, so that rejection
      never reaches a caller. */
  lemma NormalizeFirst(s: EnvironmentSpec)
    ensures Validate(Normalize(s)).None? <==> Validate(DropBlankKeys(s)).None?
    ensures Validate(s).None? ==> Validate(Normalize(s)).None?
  {
    AcceptedMeansWellFormed(s);
    AcceptedMeansWellFormed(Normalize(s));
    AcceptedMeansWellFormed(DropBlankKeys(s));
    NormalizedNamed(s);
    NormalizedPopulated(s);
    NormalizedAddressed(s);
    NormalizedNoneBlank(s.securityGroups);
    DroppedKeysOnly(s);
  }
}
