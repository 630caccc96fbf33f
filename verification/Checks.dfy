/** Which error the validator reports: the meaning of each, and the order in which they are looked
    for; and what normalization does to each field. */
module Checks {
  import opened Wrappers
  import opened Text
  import opened IPv4
  import opened Domain
  import opened Validation

  // ---------- Normalization, field by field ----------

  // The second text is the first without the white space around it.
  ghost predicate Stripped(s: string, t: string) {
    && (exists before, after :: s == before + t + after && AllSpace(before) && AllSpace(after))
    && (t != "" ==> !AllSpace(t[..1]) && !AllSpace(t[|t| - 1..]))
  }

  lemma TrimStrips(s: string)
    ensures Stripped(s, Trim(s))
  {
    var before, after := TrimTakesOffSpace(s);
  }

  ghost predicate StrippedInstance(x: Instance, y: Instance) {
    && Stripped(x.name, y.name) && Stripped(x.image, y.image) && Stripped(x.flavor, y.flavor)
    && Stripped(x.sshKeyName, y.sshKeyName) && x.count == y.count
  }

  /** Normalization takes the white space off every text, keeps it in its field, and keeps the counts,
      the DHCP flag and the order of the lists. */
  lemma NormalizeStripsEveryText(s: EnvironmentSpec)
    ensures var t := Normalize(s);
            && Stripped(s.environmentName, t.environmentName) && Stripped(s.tenantName, t.tenantName)
            && Stripped(s.network.name, t.network.name) && Stripped(s.network.cidr, t.network.cidr)
            && Stripped(s.subnet.name, t.subnet.name) && Stripped(s.subnet.cidr, t.subnet.cidr)
            && Stripped(s.subnet.gatewayIp, t.subnet.gatewayIp) && s.subnet.enableDhcp == t.subnet.enableDhcp
            && |s.instances| == |t.instances| && |s.securityGroups| == |t.securityGroups|
            && (forall i :: 0 <= i < |s.instances| ==> StrippedInstance(s.instances[i], t.instances[i]))
            && (forall i :: 0 <= i < |s.securityGroups| ==> Stripped(s.securityGroups[i], t.securityGroups[i]))
  {
    hide Stripped, Trim;
    forall text ensures Stripped(text, Trim(text)) {
      TrimStrips(text);
    }
  }

  // ---------- What each error says ----------

  ghost predicate Fails(s: EnvironmentSpec, e: SpecError) {
    match e
    case EnvironmentNameRequired => Blank(s.environmentName)
    case TenantNameRequired => Blank(s.tenantName)
    case NetworkNameRequired => Blank(s.network.name)
    case SubnetNameRequired => Blank(s.subnet.name)
    case NoInstances => s.instances == []
    case TooManyInstances => |s.instances| > 2
    case InstanceNameRequired(i) => i < |s.instances| && Blank(s.instances[i].name)
    case InstanceImageRequired(i) => i < |s.instances| && Blank(s.instances[i].image)
    case InstanceFlavorRequired(i) => i < |s.instances| && Blank(s.instances[i].flavor)
    case InstanceCountTooSmall(i) => i < |s.instances| && s.instances[i].count < 1
    case InstanceKeyBlank(i) => i < |s.instances| && s.instances[i].sshKeyName != "" && Blank(s.instances[i].sshKeyName)
    case TotalCountTooLarge => 2 < TotalCount(s.instances) < 0x8000_0000_0000_0000
    case SecurityGroupEmpty(i) => i < |s.securityGroups| && Blank(s.securityGroups[i])
    case _ => FailsAddressing(s, e)
  }

  ghost predicate FailsAddressing(s: EnvironmentSpec, e: SpecError) {
    var network, subnet := ParsePrefix(Trim(s.network.cidr)), ParsePrefix(Trim(s.subnet.cidr));
    var gateway := ParseAddr(Trim(s.subnet.gatewayIp));
    match e
    case NetworkCidrRequired => Blank(s.network.cidr)
    case NetworkCidrInvalid => !Blank(s.network.cidr) && network.None?
    case SubnetCidrRequired => Blank(s.subnet.cidr)
    case SubnetCidrInvalid => !Blank(s.subnet.cidr) && subnet.None?
    case SubnetOutsideNetwork => network.Some? && subnet.Some? && !Within(subnet.value, network.value)
    case GatewayInvalid => !Blank(s.subnet.gatewayIp) && gateway.None?
    case GatewayOutsideSubnet => subnet.Some? && gateway.Some? && !Denotes(subnet.value, gateway.value)
    case _ => false
  }

  // ---------- In which order they are looked for ----------

  function Stage(e: SpecError): nat {
    match e
    case EnvironmentNameRequired => 0
    case TenantNameRequired => 1
    case NetworkNameRequired => 2
    case SubnetNameRequired => 3
    case NoInstances => 4
    case TooManyInstances => 5
    case TotalCountTooLarge => 7
    case NetworkCidrRequired => 8
    case NetworkCidrInvalid => 9
    case SubnetCidrRequired => 10
    case SubnetCidrInvalid => 11
    case SubnetOutsideNetwork => 12
    case GatewayInvalid => 13
    case GatewayOutsideSubnet => 14
    case SecurityGroupEmpty(_) => 15
    case _ => 6
  }

  // Within the instances and the security groups: list position first.
  function Index(e: SpecError): nat {
    match e
    case InstanceNameRequired(i) => i
    case InstanceImageRequired(i) => i
    case InstanceFlavorRequired(i) => i
    case InstanceCountTooSmall(i) => i
    case InstanceKeyBlank(i) => i
    case SecurityGroupEmpty(i) => i
    case _ => 0
  }

  // Within one instance.
  function Turn(e: SpecError): nat {
    match e
    case InstanceImageRequired(_) => 1
    case InstanceFlavorRequired(_) => 2
    case InstanceCountTooSmall(_) => 3
    case InstanceKeyBlank(_) => 4
    case _ => 0
  }

  predicate Before(d: SpecError, e: SpecError) {
    || Stage(d) < Stage(e)
    || (Stage(d) == Stage(e) && (Index(d) < Index(e) || (Index(d) == Index(e) && Turn(d) < Turn(e))))
  }

  lemma BeforeIsTotal(d: SpecError, e: SpecError)
    ensures d == e || Before(d, e) || Before(e, d)
  {
  }

  // An error the checks of some stages report: it fails, and of those checks none before it does.
  ghost predicate IsFirst(s: EnvironmentSpec, from: nat, to: nat, e: Option<SpecError>) {
    match e
    case None => forall d :: from <= Stage(d) <= to ==> !Fails(s, d)
    case Some(e) =>
      && Fails(s, e) && from <= Stage(e) <= to
      && forall d :: from <= Stage(d) && Fails(s, d) ==> !Before(d, e)
  }

  // ---------- The three blocks ----------

  lemma InstanceErrorIsFirst(s: EnvironmentSpec, i: nat)
    requires i < |s.instances|
    ensures match InstanceError(s.instances[i], i)
            case None => forall d :: Stage(d) == 6 && Index(d) == i ==> !Fails(s, d)
            case Some(e) =>
              && Stage(e) == 6 && Index(e) == i && Fails(s, e)
              && forall d :: Stage(d) == 6 && Index(d) == i && Fails(s, d) ==> Turn(e) <= Turn(d)
  {
    hide Blank;
  }

  lemma {:induction false} FirstInstance(s: EnvironmentSpec, i: nat)
    requires i <= |s.instances|
    requires forall d :: Stage(d) == 6 && Index(d) < i ==> !Fails(s, d)
    ensures IsFirst(s, 6, 6, FirstInstanceError(s.instances, i))
    decreases |s.instances| - i
  {
    hide Fails, InstanceError;
    if i < |s.instances| {
      InstanceErrorIsFirst(s, i);
      if InstanceError(s.instances[i], i).None? {
        FirstInstance(s, i + 1);
      }
    } else {
      NoInstanceBeyond(s);
    }
  }

  lemma NoInstanceBeyond(s: EnvironmentSpec)
    ensures forall d :: Stage(d) == 6 && Index(d) >= |s.instances| ==> !Fails(s, d)
  {
  }

  lemma {:induction false} FirstGroup(s: EnvironmentSpec, i: nat)
    requires i <= |s.securityGroups|
    requires forall k :: 0 <= k < i ==> !Blank(s.securityGroups[k])
    ensures IsFirst(s, 15, 15, FirstEmptyGroup(s.securityGroups, i))
    decreases |s.securityGroups| - i
  {
    hide Blank, FailsAddressing;
    if i < |s.securityGroups| && !Blank(s.securityGroups[i]) {
      FirstGroup(s, i + 1);
    }
  }

  lemma FirstAddressing(s: EnvironmentSpec)
    ensures IsFirst(s, 8, 14, AddressingError(s))
  {
    EmptyTextParsesToNothing();
    BlankMeansTrimsToNothing(s.network.cidr);
    BlankMeansTrimsToNothing(s.subnet.cidr);
    BlankMeansTrimsToNothing(s.subnet.gatewayIp);
    AddressingTests(s);
    hide Blank, Trim, ParsePrefix, ParseAddr, Within, Denotes, ServerSubnetTest, Contains, Masked, TotalCount;
  }

  // Masking first changes nothing.
  lemma AddressingTests(s: EnvironmentSpec)
    ensures var network, subnet := ParsePrefix(Trim(s.network.cidr)), ParsePrefix(Trim(s.subnet.cidr));
            var gateway := ParseAddr(Trim(s.subnet.gatewayIp));
            && (network.Some? && subnet.Some? ==>
                  (ServerSubnetTest(Masked(network.value), Masked(subnet.value)) <==> Within(subnet.value, network.value)))
            && (subnet.Some? && gateway.Some? ==>
                  (Contains(Masked(subnet.value), gateway.value) <==> Denotes(subnet.value, gateway.value)))
  {
    var network, subnet := ParsePrefix(Trim(s.network.cidr)), ParsePrefix(Trim(s.subnet.cidr));
    var gateway := ParseAddr(Trim(s.subnet.gatewayIp));
    hide ParsePrefix, ParseAddr, Trim, Within, Denotes, ServerSubnetTest, Contains, Masked;
    if network.Some? && subnet.Some? {
      MaskedTests(network.value, subnet.value);
    }
    if subnet.Some? && gateway.Some? {
      MaskedSameBlock(subnet.value, gateway.value);
      ContainsMeansDenotes(subnet.value, gateway.value);
    }
  }

  // With the instances in order, the wrapped total is over the limit when the true one is and fits.
  lemma TotalCheck(s: EnvironmentSpec)
    requires 1 <= |s.instances| <= 2 && IsFirst(s, 6, 6, None)
    ensures RunningTotal(s.instances) > 2 <==> Fails(s, TotalCountTooLarge)
  {
    forall i | 0 <= i < |s.instances| ensures s.instances[i].count >= 1 {
      assert !Fails(s, InstanceCountTooSmall(i));
    }
    hide IsFirst, Blank, FailsAddressing;
    TotalsOf(s.instances);
  }

  // Two blocks one after the other.
  lemma OneThenTheOther(s: EnvironmentSpec, from: nat, mid: nat, to: nat, first: Option<SpecError>, rest: Option<SpecError>)
    requires from <= mid < to && IsFirst(s, from, mid, first) && (first.None? ==> IsFirst(s, mid + 1, to, rest))
    ensures IsFirst(s, from, to, if first.Some? then first else rest)
  {
    hide Fails;
  }

  function NameError(s: EnvironmentSpec): Option<SpecError> {
    if Blank(s.environmentName) then Some(EnvironmentNameRequired)
    else if Blank(s.tenantName) then Some(TenantNameRequired)
    else if Blank(s.network.name) then Some(NetworkNameRequired)
    else if Blank(s.subnet.name) then Some(SubnetNameRequired)
    else if |s.instances| == 0 then Some(NoInstances)
    else if |s.instances| > 2 then Some(TooManyInstances)
    else None
  }

  lemma NamesFirst(s: EnvironmentSpec)
    ensures IsFirst(s, 0, 5, NameError(s))
    ensures NameError(s).None? ==> 1 <= |s.instances| <= 2
  {
    hide Blank, FailsAddressing;
  }

  lemma TotalFirst(s: EnvironmentSpec)
    ensures IsFirst(s, 7, 7, if Fails(s, TotalCountTooLarge) then Some(TotalCountTooLarge) else None)
  {
    hide FailsAddressing, TotalCount;
  }

  lemma ValidateInBlocks(s: EnvironmentSpec, addressing: Option<SpecError>)
    requires addressing == AddressingError(s)
    ensures var names, inst := NameError(s), FirstInstanceError(s.instances, 0);
            Validate(s) ==
              if names.Some? then names
              else if inst.Some? then inst
              else if RunningTotal(s.instances) > 2 then Some(TotalCountTooLarge)
              else if addressing.Some? then addressing
              else FirstEmptyGroup(s.securityGroups, 0)
  {
    hide Blank, AddressingError, FirstInstanceError, FirstEmptyGroup, RunningTotal;
  }

  lemma ValidateIsFirst(s: EnvironmentSpec)
    ensures IsFirst(s, 0, 15, Validate(s))
  {
    var names, inst := NameError(s), FirstInstanceError(s.instances, 0);
    var total := if RunningTotal(s.instances) > 2 then Some(TotalCountTooLarge) else None;
    var addressing, groups := AddressingError(s), FirstEmptyGroup(s.securityGroups, 0);
    var fromAddressing := if addressing.Some? then addressing else groups;
    var fromTotal := if total.Some? then total else fromAddressing;
    var fromInstances := if inst.Some? then inst else fromTotal;
    ValidateInBlocks(s, addressing);
    hide *;
    NamesFirst(s);
    FirstAddressing(s);
    FirstGroup(s, 0);
    OneThenTheOther(s, 8, 14, 15, addressing, groups);
    if names.None? {
      FirstInstance(s, 0);
      if inst.None? {
        TotalCheck(s);
        TotalFirst(s);
        OneThenTheOther(s, 7, 7, 15, total, fromAddressing);
      }
      OneThenTheOther(s, 6, 6, 15, inst, fromTotal);
    }
    OneThenTheOther(s, 0, 5, 15, names, fromInstances);
  }

  /** The validator reports an error if and only if it holds of the spec and no check that comes before
      it fails. */
  lemma FirstFailingCheck(s: EnvironmentSpec, e: SpecError)
    ensures Validate(s) == Some(e) <==> Fails(s, e) && forall d :: Fails(s, d) ==> !Before(d, e)
  {
    ValidateIsFirst(s);
    hide Fails, Validate;
    if Fails(s, e) && Validate(s) != Some(e) {
      assert Stage(e) <= 15;
      assert Validate(s).Some?;
      BeforeIsTotal(Validate(s).value, e);
    }
  }
}
