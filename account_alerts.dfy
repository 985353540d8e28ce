/** The account alerts job: it checks every subnet of the VPCs tagged as not
    available and raises a Mattermost alert for each one whose free IP
    addresses fall below MIN_SUBNET_FREE_IPs. */
module AccountAlerts {
  import opened Common
  import Strconv

  const ThresholdVariable: string := "MIN_SUBNET_FREE_IPs"
  const NotSetError: string := "MIN_SUBNET_FREE_IPs environment variable is not set"
  const ValidationFailed: string := "Environment variable validation failed"
  const SubnetResource: string := "VPC Subnets"

  /** validateAndGetEnvVars: the threshold, or why there is none. */
  function ValidateAndGetEnvVars(env: map<string, string>): (r: Result<int>)
    ensures Lookup(env, ThresholdVariable) == "" ==> r == Err(NotSetError)
    ensures r.Ok? <==> Lookup(env, ThresholdVariable) != "" && Strconv.Atoi(Lookup(env, ThresholdVariable)).err == Strconv.NoError
    ensures r.Ok? ==> r.value == Strconv.Atoi(Lookup(env, ThresholdVariable)).value
  {
    var minSubnetFreeIPs := Lookup(env, ThresholdVariable);
    if |minSubnetFreeIPs| == 0 then Err(NotSetError)
    else
      var number := Strconv.Atoi(minSubnetFreeIPs);
      if number.err != Strconv.NoError then Err(Strconv.AtoiErrorText(minSubnetFreeIPs, number.err))
      else Ok(number.value)
  }

  /** Any int64 written in decimal is taken as the threshold. */
  lemma ThresholdReadsBack(env: map<string, string>, n: int)
    requires Strconv.MinInt64 <= n <= Strconv.MaxInt64
    requires Lookup(env, ThresholdVariable) == Strconv.Itoa(n)
    ensures ValidateAndGetEnvVars(env) == Ok(n)
  {
    Strconv.AtoiItoa(n);
  }

  /** A value with a character that is neither a leading sign nor a digit is
      refused. */
  lemma NonNumericThresholdRefused(env: map<string, string>, i: int)
    requires var s := Lookup(env, ThresholdVariable);
      0 <= i < |s| && !Strconv.IsDigit(s[i]) && !(i == 0 && (s[0] == '+' || s[0] == '-'))
    ensures ValidateAndGetEnvVars(env).Err?
  {
    Strconv.AtoiRejectsNonNumeric(Lookup(env, ThresholdVariable), i);
  }

  datatype Subnet = Subnet(subnetId: string, availableIpAddressCount: int)

  /** EC2 as the job sees it: the error of opening a session, the VPCs
      tagged Available=false, and the subnets of each (a VPC not in the map
      has none). */
  datatype Ec2 = Ec2(sessionError: Option<string>, vpcs: Result<seq<string>>, subnets: map<string, Result<seq<Subnet>>>)

  datatype Effect =
    | SendAlert(message: string, resource: string)
    | SendErrorNotification(message: string, errorMessage: string)
    | Exit(code: int)

  function SubnetsOf(ec2: Ec2, vpcId: string): Result<seq<Subnet>>
  {
    if vpcId in ec2.subnets then ec2.subnets[vpcId] else Ok([])
  }

  function AlertFor(s: Subnet): Effect
  {
    SendAlert("Subnet " + s.subnetId + " has low number of available IPs (" + Strconv.Itoa(s.availableIpAddressCount) + ")",
              SubnetResource)
  }

  /** The alerts for one VPC's subnets, in subnet order. */
  function SubnetAlerts(threshold: int, subnets: seq<Subnet>): seq<Effect>
  {
    if |subnets| == 0 then []
    else
      var last := subnets[|subnets| - 1];
      SubnetAlerts(threshold, subnets[..|subnets| - 1]) + (if last.availableIpAddressCount < threshold then [AlertFor(last)] else [])
  }

  /** The alerts and the error of checking the VPCs: a subnet listing that
      fails ends the check. */
  datatype Checked = Checked(effects: seq<Effect>, err: Option<string>)

  function VpcAlerts(threshold: int, ec2: Ec2, vpcs: seq<string>): Checked
  {
    if |vpcs| == 0 then Checked([], None)
    else
      var subnets := SubnetsOf(ec2, vpcs[0]);
      if subnets.Err? then Checked([], Some(subnets.error))
      else
        var rest := VpcAlerts(threshold, ec2, vpcs[1..]);
        Checked(SubnetAlerts(threshold, subnets.value) + rest.effects, rest.err)
  }

  function CheckOutcome(threshold: int, ec2: Ec2): Checked
  {
    if ec2.sessionError.Some? then Checked([], ec2.sessionError)
    else if ec2.vpcs.Err? then Checked([], Some(ec2.vpcs.error))
    else VpcAlerts(threshold, ec2, ec2.vpcs.value)
  }

  /** The inner loop over one VPC's subnets; a failed send is only logged. */
  method AlertLowSubnets(threshold: int, subnets: seq<Subnet>) returns (effects: seq<Effect>)
    ensures effects == SubnetAlerts(threshold, subnets)
  {
    effects := [];
    for i := 0 to |subnets|
      invariant effects == SubnetAlerts(threshold, subnets[..i])
    {
      assert subnets[..i + 1][..i] == subnets[..i];
      var subnet := subnets[i];
      if subnet.availableIpAddressCount < threshold {
        var message := "Subnet " + subnet.subnetId + " has low number of available IPs ("
                       + Strconv.Itoa(subnet.availableIpAddressCount) + ")";
        effects := effects + [SendAlert(message, "VPC Subnets")];
      }
    }
    assert subnets[..|subnets|] == subnets;
  }

  /** checkProvisioningSubnetIPLimits */
  method CheckProvisioningSubnetIPLimits(threshold: int, ec2: Ec2) returns (err: Option<string>, effects: seq<Effect>)
    ensures Checked(effects, err) == CheckOutcome(threshold, ec2)
  {
    if ec2.sessionError.Some? {
      return ec2.sessionError, [];
    }
    if ec2.vpcs.Err? {
      return Some(ec2.vpcs.error), [];
    }
    var vpcs := ec2.vpcs.value;
    effects := [];
    for i := 0 to |vpcs|
      invariant var rest := VpcAlerts(threshold, ec2, vpcs[i..]);
        effects + rest.effects == VpcAlerts(threshold, ec2, vpcs).effects && rest.err == VpcAlerts(threshold, ec2, vpcs).err
    {
      assert vpcs[i..][1..] == vpcs[i + 1..];
      var subnets := SubnetsOf(ec2, vpcs[i]);
      if subnets.Err? {
        assert effects + [] == effects;
        return Some(subnets.error), effects;
      }
      var alerts := AlertLowSubnets(threshold, subnets.value);
      effects := effects + alerts;
    }
    assert vpcs[|vpcs|..] == [];
    assert effects + [] == effects;
    err := None;
  }

  /** Exactly the subnets strictly below the threshold are reported. */
  lemma {:induction false} SubnetAlertsExactly(threshold: int, subnets: seq<Subnet>, x: Effect)
    ensures x in SubnetAlerts(threshold, subnets) <==>
      exists s :: s in subnets && s.availableIpAddressCount < threshold && x == AlertFor(s)
    decreases |subnets|
  {
    if |subnets| > 0 {
      var init := subnets[..|subnets| - 1];
      var last := subnets[|subnets| - 1];
      SubnetAlertsExactly(threshold, init, x);
      assert subnets == init + [last];
      if exists s :: s in subnets && s.availableIpAddressCount < threshold && x == AlertFor(s) {
        var s :| s in subnets && s.availableIpAddressCount < threshold && x == AlertFor(s);
        if s != last {
          assert s in init;
        }
      }
    }
  }

  /** A subnet at the threshold is not reported: the test is strict. */
  lemma AtThresholdNotReported(threshold: int, s: Subnet)
    requires s.availableIpAddressCount == threshold
    ensures SubnetAlerts(threshold, [s]) == []
  {
    assert [s][..0] == [];
  }

  /** A subnet listing that fails ends the check with its error, after the
      alerts of the VPCs before it. */
  lemma {:induction false} ListingFailureAborts(threshold: int, ec2: Ec2, vpcs: seq<string>, k: int)
    requires 0 <= k < |vpcs| && SubnetsOf(ec2, vpcs[k]).Err?
    requires forall i :: 0 <= i < k ==> SubnetsOf(ec2, vpcs[i]).Ok?
    ensures VpcAlerts(threshold, ec2, vpcs) == Checked(VpcAlerts(threshold, ec2, vpcs[..k]).effects, Some(SubnetsOf(ec2, vpcs[k]).error))
    decreases k
  {
    if k > 0 {
      assert vpcs[1..][k - 1] == vpcs[k];
      assert forall i :: 0 <= i < k - 1 ==> vpcs[1..][i] == vpcs[i + 1];
      ListingFailureAborts(threshold, ec2, vpcs[1..], k - 1);
      assert vpcs[..k][1..] == vpcs[1..][..k - 1];
      assert vpcs[..k][0] == vpcs[0];
    }
  }

  /** With every listing answered, every VPC is checked and the check
      succeeds: every subnet below the threshold of every VPC is reported,
      whatever became of the other alerts. */
  lemma {:induction false} EveryVpcChecked(threshold: int, ec2: Ec2, vpcs: seq<string>, k: int, s: Subnet)
    requires forall i :: 0 <= i < |vpcs| ==> SubnetsOf(ec2, vpcs[i]).Ok?
    requires 0 <= k < |vpcs| && s in SubnetsOf(ec2, vpcs[k]).value && s.availableIpAddressCount < threshold
    ensures VpcAlerts(threshold, ec2, vpcs).err.None?
    ensures AlertFor(s) in VpcAlerts(threshold, ec2, vpcs).effects
    decreases k
  {
    SubnetAlertsExactly(threshold, SubnetsOf(ec2, vpcs[k]).value, AlertFor(s));
    if k > 0 {
      assert vpcs[1..][k - 1] == vpcs[k];
      assert forall i :: 0 <= i < |vpcs| - 1 ==> vpcs[1..][i] == vpcs[i + 1];
      EveryVpcChecked(threshold, ec2, vpcs[1..], k - 1, s);
    } else {
      AllListedSucceeds(threshold, ec2, vpcs[1..]);
    }
  }

  lemma {:induction false} AllListedSucceeds(threshold: int, ec2: Ec2, vpcs: seq<string>)
    requires forall i :: 0 <= i < |vpcs| ==> SubnetsOf(ec2, vpcs[i]).Ok?
    ensures VpcAlerts(threshold, ec2, vpcs).err.None?
    decreases |vpcs|
  {
    if |vpcs| > 0 {
      assert forall i :: 0 <= i < |vpcs| - 1 ==> vpcs[1..][i] == vpcs[i + 1];
      AllListedSucceeds(threshold, ec2, vpcs[1..]);
    }
  }

  /** handler: a validation failure sends the error notification and exits
      with status 1; otherwise the check's error is only logged. */
  function HandlerEffects(env: map<string, string>, ec2: Ec2): seq<Effect>
  {
    var envVars := ValidateAndGetEnvVars(env);
    if envVars.Err? then [SendErrorNotification(ValidationFailed, envVars.error), Exit(1)]
    else CheckOutcome(envVars.value, ec2).effects
  }

  method Handler(env: map<string, string>, ec2: Ec2) returns (effects: seq<Effect>)
    ensures effects == HandlerEffects(env, ec2)
  {
    var envVars := ValidateAndGetEnvVars(env);
    if envVars.Err? {
      effects := [SendErrorNotification("Environment variable validation failed", envVars.error), Exit(1)];
      return;
    }
    var err;
    err, effects := CheckProvisioningSubnetIPLimits(envVars.value, ec2);
  }

  /** The job exits with status 1 exactly when validation fails, right after
      the error notification, and touches EC2 only when it passes. */
  lemma ExitPath(env: map<string, string>, ec2: Ec2)
    ensures (Exit(1) in HandlerEffects(env, ec2)) <==> ValidateAndGetEnvVars(env).Err?
    ensures ValidateAndGetEnvVars(env).Err? ==>
      HandlerEffects(env, ec2) == [SendErrorNotification(ValidationFailed, ValidateAndGetEnvVars(env).error), Exit(1)]
    ensures Lookup(env, ThresholdVariable) == "" ==>
      HandlerEffects(env, ec2) == [SendErrorNotification(ValidationFailed, NotSetError), Exit(1)]
  {
    var envVars := ValidateAndGetEnvVars(env);
    if envVars.Ok? {
      if ec2.sessionError.None? && ec2.vpcs.Ok? {
        OnlyAlerts(envVars.value, ec2, ec2.vpcs.value);
      }
    }
  }

  lemma {:induction false} OnlyAlerts(threshold: int, ec2: Ec2, vpcs: seq<string>)
    ensures forall x :: x in VpcAlerts(threshold, ec2, vpcs).effects ==> x.SendAlert?
    decreases |vpcs|
  {
    if |vpcs| > 0 && SubnetsOf(ec2, vpcs[0]).Ok? {
      OnlyAlerts(threshold, ec2, vpcs[1..]);
      forall x | x in SubnetAlerts(threshold, SubnetsOf(ec2, vpcs[0]).value)
        ensures x.SendAlert?
      {
        SubnetAlertsExactly(threshold, SubnetsOf(ec2, vpcs[0]).value, x);
      }
    }
  }
}
