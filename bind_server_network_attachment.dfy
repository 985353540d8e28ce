/** The lifecycle hook of the Bind servers' Auto Scaling group: a launched
    instance gets the pre-made network interface of its subnet attached,
    retried with a doubling delay, and the launch is then continued or
    abandoned. */
module BindServerNetworkAttachment {
  import opened Common
  import Strconv

  const LaunchLifecycleAction := "EC2 Instance-launch Lifecycle Action"
  const Abandon := "ABANDON"
  const Continue := "CONTINUE"
  const Attempts := 5
  /** Two seconds, in nanoseconds. */
  const BaseDelay: nat := 2000000000

  /** The requests the hook makes: a call of the retried function, a wait
      before the next call, the lookup and the attachment of the interface,
      and the completion of the lifecycle action. */
  datatype Effect =
    | Invoke(attempt: nat)
    | Sleep(nanos: nat)
    | DescribeNetworkInterfaces(vpcId: string, subnetId: string)
    | AttachInterface(networkInterfaceId: string, instanceId: string)
    | CompleteLifecycleAction(hookName: string, groupName: string, instanceId: string, result: string)

  /** What a call does and the error it returns. */
  datatype Run = Run(effects: seq<Effect>, err: Option<string>)

  function Pow2(n: nat): (p: nat)
    ensures p >= 1
  {
    if n == 0 then 1 else 2 * Pow2(n - 1)
  }

  // ---------------------------------------------------------------------
  // retry

  /** The base delay before call i + 1: `base * 2^i`. */
  function Delay(base: nat, i: nat): nat
  {
    base * Pow2(i)
  }

  /** The error of a retry whose calls all failed; Go prints a nil error
      with `%s` as "%!s(<nil>)". */
  function RetryMessage(attempts: int, last: Option<string>): string
  {
    "after " + Strconv.Itoa(attempts) + " attempts, last error: " + (if last.Some? then last.value else "%!s(<nil>)")
  }

  /** What the calls from the i-th on did: their requests, whether one of
      them succeeded, and the error of the last one that failed. */
  datatype Tries = Tries(effects: seq<Effect>, succeeded: bool, last: Option<string>)

  /** retry's calls by reference, from call `i` on, `fn(i)` being what the
      i-th call does. The base delay before call i + 1 is `base * 2^i`; the
      random jitter added to it is not modelled. */
  function TriesFrom(attempts: int, i: nat, base: nat, fn: nat -> Run, last: Option<string>): Tries
    decreases attempts - i
  {
    if i >= attempts then Tries([], false, last)
    else
      var c := fn(i);
      if c.err.None? then Tries([Invoke(i)] + c.effects, true, last)
      else
        var rest := TriesFrom(attempts, i + 1, base, fn, c.err);
        Tries([Invoke(i)] + c.effects + [Sleep(Delay(base, i))] + rest.effects, rest.succeeded, rest.last)
  }

  /** retry by reference: its calls, and no error when one of them
      succeeded, or the count and the last call's error when none did. */
  function RetryOutcome(attempts: int, base: nat, fn: nat -> Run): Run
  {
    var t := TriesFrom(attempts, 0, base, fn, None);
    Run(t.effects, if t.succeeded then None else Some(RetryMessage(attempts, t.last)))
  }

  method Retry(attempts: int, sleep0: nat, fn: nat -> Run) returns (r: Run)
    ensures r == RetryOutcome(attempts, sleep0, fn)
  {
    var err: Option<string> := None;
    var effects: seq<Effect> := [];
    var sleep := sleep0;
    var i: nat := 0;
    while i < attempts
      invariant sleep == Delay(sleep0, i)
      invariant var rest := TriesFrom(attempts, i, sleep0, fn, err);
        Tries(effects + rest.effects, rest.succeeded, rest.last) == TriesFrom(attempts, 0, sleep0, fn, None)
      decreases attempts - i
    {
      var c := fn(i);
      if c.err.None? {
        return Run(effects + ([Invoke(i)] + c.effects), None);
      }
      RetryStep(attempts, i, sleep0, fn, err);
      ghost var rest := TriesFrom(attempts, i + 1, sleep0, fn, c.err);
      var head := [Invoke(i)] + c.effects + [Sleep(sleep)];
      assert effects + (head + rest.effects) == (effects + head) + rest.effects;
      effects := effects + head;
      err := c.err;
      DoubleDelay(sleep0, i);
      sleep := sleep * 2;
      i := i + 1;
    }
    assert effects + [] == effects;
    r := Run(effects, Some(RetryMessage(attempts, err)));
  }

  /** One failed call, unfolded. */
  lemma RetryStep(attempts: int, i: nat, base: nat, fn: nat -> Run, last: Option<string>)
    requires i < attempts && fn(i).err.Some?
    ensures var rest := TriesFrom(attempts, i + 1, base, fn, fn(i).err);
      TriesFrom(attempts, i, base, fn, last)
      == Tries(([Invoke(i)] + fn(i).effects + [Sleep(Delay(base, i))]) + rest.effects, rest.succeeded, rest.last)
  {
  }

  lemma DoubleDelay(base: nat, i: nat)
    ensures Delay(base, i) * 2 == Delay(base, i + 1)
  {
    assert Pow2(i + 1) == 2 * Pow2(i);
  }

  /** The failed calls i, …, k - 1, each followed by its wait. */
  function Failed(base: nat, fn: nat -> Run, i: nat, k: nat): seq<Effect>
    decreases k - i
  {
    if i >= k then [] else [Invoke(i)] + fn(i).effects + [Sleep(Delay(base, i))] + Failed(base, fn, i + 1, k)
  }

  /** The first of the failed calls i, …, k - 1, unfolded. */
  lemma FailedStep(base: nat, fn: nat -> Run, i: nat, k: nat)
    requires i < k
    ensures Failed(base, fn, i, k) == ([Invoke(i)] + fn(i).effects + [Sleep(Delay(base, i))]) + Failed(base, fn, i + 1, k)
  {
  }

  /** Failed calls are passed over one by one, each waiting its delay. */
  lemma {:induction false} SkipFailures(attempts: int, i: nat, k: nat, base: nat, fn: nat -> Run, last: Option<string>)
    requires i <= k <= attempts
    requires forall j :: i <= j < k ==> fn(j).err.Some?
    ensures var rest := TriesFrom(attempts, k, base, fn, if k > i then fn(k - 1).err else last);
      TriesFrom(attempts, i, base, fn, last) == Tries(Failed(base, fn, i, k) + rest.effects, rest.succeeded, rest.last)
    decreases k - i
  {
    if i < k {
      var err := fn(i).err;
      assert err.Some?;
      SkipFailures(attempts, i + 1, k, base, fn, err);
      RetryStep(attempts, i, base, fn, last);
      FailedStep(base, fn, i, k);
      var rest := TriesFrom(attempts, k, base, fn, fn(k - 1).err);
      AppendAssoc([Invoke(i)] + fn(i).effects + [Sleep(Delay(base, i))], Failed(base, fn, i + 1, k), rest.effects);
    }
  }

  /** retry returns right after the first call that succeeds: the calls
      before it failed, and none follows it. */
  lemma RetryFirstSuccess(attempts: int, base: nat, fn: nat -> Run, k: nat)
    requires k < attempts && fn(k).err.None?
    requires forall j :: 0 <= j < k ==> fn(j).err.Some?
    ensures RetryOutcome(attempts, base, fn) == Run(Failed(base, fn, 0, k) + ([Invoke(k)] + fn(k).effects), None)
  {
    SkipFailures(attempts, 0, k, base, fn, None);
  }

  /** When every call fails, there are exactly `attempts` of them, each
      followed by a wait (the last one included), and the error names the
      count and the last call's error. */
  lemma RetryAllFail(attempts: nat, base: nat, fn: nat -> Run)
    requires forall j :: 0 <= j < attempts ==> fn(j).err.Some?
    ensures RetryOutcome(attempts, base, fn)
      == Run(Failed(base, fn, 0, attempts),
             Some(RetryMessage(attempts, if attempts == 0 then None else fn(attempts - 1).err)))
  {
    SkipFailures(attempts, 0, attempts, base, fn, None);
    assert Failed(base, fn, 0, attempts) + [] == Failed(base, fn, 0, attempts);
  }

  /** The calls from the i-th on succeed exactly when one of them does. */
  lemma {:induction false} TriesSucceedIff(attempts: int, i: nat, base: nat, fn: nat -> Run, last: Option<string>)
    ensures TriesFrom(attempts, i, base, fn, last).succeeded <==> exists j :: i <= j < attempts && fn(j).err.None?
    decreases attempts - i
  {
    if i < attempts {
      TriesSucceedIff(attempts, i + 1, base, fn, fn(i).err);
      if fn(i).err.Some? {
        if exists j :: i <= j < attempts && fn(j).err.None? {
          var j :| i <= j < attempts && fn(j).err.None?;
          assert j != i;
        }
      }
    }
  }

  /** retry succeeds exactly when one of the first `attempts` calls does. */
  lemma RetrySucceedsIff(attempts: int, base: nat, fn: nat -> Run)
    ensures RetryOutcome(attempts, base, fn).err.None? <==> exists j :: 0 <= j < attempts && fn(j).err.None?
  {
    TriesSucceedIff(attempts, 0, base, fn, None);
  }

  /** The waits double: the one after the k-th failed call is `base * 2^k`,
      and the last failed call is followed by a wait too. */
  lemma {:induction false} FailedWaits(base: nat, fn: nat -> Run, i: nat, k: nat)
    requires i < k
    ensures |Failed(base, fn, i, k)| > 0
    ensures Failed(base, fn, i, k)[|Failed(base, fn, i, k)| - 1] == Sleep(Delay(base, k - 1))
    decreases k - i
  {
    var head := [Invoke(i)] + fn(i).effects + [Sleep(Delay(base, i))];
    var tail := Failed(base, fn, i + 1, k);
    assert Failed(base, fn, i, k) == head + tail;
    if i + 1 < k {
      FailedWaits(base, fn, i + 1, k);
      assert (head + tail)[|head + tail| - 1] == tail[|tail| - 1];
    } else {
      assert head + tail == head;
    }
  }

  // ---------------------------------------------------------------------
  // The network interface

  datatype NetworkInterface = NetworkInterface(networkInterfaceId: string, status: string)

  /** The index of the first available interface, if any. */
  function FirstAvailable(nis: seq<NetworkInterface>): (r: Option<nat>)
    ensures r.None? <==> forall i :: 0 <= i < |nis| ==> nis[i].status != "available"
    ensures r.Some? ==> (r.value < |nis| && nis[r.value].status == "available"
      && forall i :: 0 <= i < r.value ==> nis[i].status != "available")
  {
    if |nis| == 0 then None
    else if nis[0].status == "available" then Some(0)
    else
      var rest := FirstAvailable(nis[1..]);
      assert forall i :: 1 <= i < |nis| ==> nis[i] == nis[1..][i - 1];
      if rest.None? then None else Some(rest.value + 1)
  }

  /** getNetWorkInterface on the result of the lookup. */
  function InterfaceFor(described: Result<seq<NetworkInterface>>): (r: Result<string>)
    ensures described.Err? ==> r == Err(described.error)
    ensures r.Ok? ==> described.Ok?
    ensures r.Ok? ==> exists i :: 0 <= i < |described.value| && described.value[i].status == "available"
                         && described.value[i].networkInterfaceId == r.value
  {
    if described.Err? then Err(described.error)
    else
      var k := FirstAvailable(described.value);
      if k.None? then Err("no Network Interface available") else Ok(described.value[k.value].networkInterfaceId)
  }

  /** The search loop of getNetWorkInterface. */
  method GetNetworkInterface(described: Result<seq<NetworkInterface>>) returns (r: Result<string>)
    ensures r == InterfaceFor(described)
  {
    if described.Err? {
      return Err(described.error);
    }
    var nis := described.value;
    for i := 0 to |nis|
      invariant forall j :: 0 <= j < i ==> nis[j].status != "available"
    {
      if nis[i].status == "available" {
        return Ok(nis[i].networkInterfaceId);
      }
    }
    r := Err("no Network Interface available");
  }

  /** The chosen interface is available, and none listed before it is; with
      none available the lookup fails. */
  lemma InterfaceForChoice(nis: seq<NetworkInterface>)
    ensures InterfaceFor(Ok(nis)).Ok? <==> exists i :: 0 <= i < |nis| && nis[i].status == "available"
    ensures InterfaceFor(Ok(nis)).Err? ==> InterfaceFor(Ok(nis)).error == "no Network Interface available"
    ensures InterfaceFor(Ok(nis)).Ok? ==>
      exists i :: 0 <= i < |nis| && nis[i].status == "available" && nis[i].networkInterfaceId == InterfaceFor(Ok(nis)).value
        && forall j :: 0 <= j < i ==> nis[j].status != "available"
  {
    var k := FirstAvailable(nis);
    if k.Some? {
      assert nis[k.value].status == "available";
    }
  }

  // ---------------------------------------------------------------------
  // The handler

  /** An Auto Scaling event: its detail type and the detail entries read. */
  datatype Event = Event(detailType: string, instanceId: string, hookName: string, groupName: string)

  /** The outcomes of the EC2 calls: the instance's VPC and subnet, and the
      interface lookup and the attachment on each attempt. */
  datatype World = World(
    vpcSubnet: Result<(string, string)>,
    describe: nat -> Result<seq<NetworkInterface>>,
    attach: nat -> Result<string>)

  /** The retried function: find the interface, then attach it. */
  function AttemptRun(w: World, vpcId: string, subnetId: string, instanceId: string, i: nat): (r: Run)
    ensures r.err.None? ==> InterfaceFor(w.describe(i)).Ok? && w.attach(i).Ok?
  {
    var ni := InterfaceFor(w.describe(i));
    if ni.Err? then Run([DescribeNetworkInterfaces(vpcId, subnetId)], Some(ni.error))
    else
      var a := w.attach(i);
      Run([DescribeNetworkInterfaces(vpcId, subnetId), AttachInterface(ni.value, instanceId)],
          if a.Err? then Some(a.error) else None)
  }

  function Attempt(w: World, e: Event): nat -> Run
    requires w.vpcSubnet.Ok?
  {
    (i: nat) => AttemptRun(w, w.vpcSubnet.value.0, w.vpcSubnet.value.1, e.instanceId, i)
  }

  function Complete(e: Event, result: string): Effect
  {
    CompleteLifecycleAction(e.hookName, e.groupName, e.instanceId, result)
  }

  /** handler by reference. */
  function HandlerEffects(w: World, e: Event): seq<Effect>
  {
    if e.detailType != LaunchLifecycleAction then []
    else if w.vpcSubnet.Err? then [Complete(e, Abandon)]
    else
      var r := RetryOutcome(Attempts, BaseDelay, Attempt(w, e));
      r.effects + [Complete(e, if r.err.Some? then Abandon else Continue)]
  }

  method Handler(w: World, e: Event) returns (effects: seq<Effect>)
    ensures effects == HandlerEffects(w, e)
  {
    effects := [];
    if e.detailType == LaunchLifecycleAction {
      if w.vpcSubnet.Err? {
        effects := [Complete(e, Abandon)];
        return;
      }
      var r := Retry(5, 2 * 1000000000, Attempt(w, e));
      if r.err.Some? {
        effects := r.effects + [Complete(e, Abandon)];
      } else {
        effects := r.effects + [Complete(e, Continue)];
      }
    }
  }

  /** Only launch lifecycle actions are acted on. */
  lemma OnlyLaunchEvents(w: World, e: Event)
    ensures HandlerEffects(w, e) == [] <==> e.detailType != LaunchLifecycleAction
  {
  }

  /** A launch is completed once, last, and with CONTINUE exactly when the
      subnet was found and one of the five attempts attached an interface;
      otherwise with ABANDON. */
  lemma LifecycleResult(w: World, e: Event)
    requires e.detailType == LaunchLifecycleAction
    ensures var effects := HandlerEffects(w, e);
      |effects| > 0 && effects[|effects| - 1].CompleteLifecycleAction?
      && effects[|effects| - 1].instanceId == e.instanceId
      && (effects[|effects| - 1].result == Continue <==>
            w.vpcSubnet.Ok? && exists j :: 0 <= j < Attempts && Attempt(w, e)(j).err.None?)
      && (effects[|effects| - 1].result == Continue || effects[|effects| - 1].result == Abandon)
  {
    if w.vpcSubnet.Ok? {
      RetrySucceedsIff(Attempts, BaseDelay, Attempt(w, e));
    }
  }

  /** A failed subnet lookup abandons the launch without attaching
      anything. */
  lemma SubnetFailureAbandons(w: World, e: Event)
    requires e.detailType == LaunchLifecycleAction && w.vpcSubnet.Err?
    ensures HandlerEffects(w, e) == [CompleteLifecycleAction(e.hookName, e.groupName, e.instanceId, "ABANDON")]
  {
  }

  /** An attempt that succeeds has attached the first available interface
      to the launched instance. */
  lemma SuccessAttachesFirstAvailable(w: World, e: Event, i: nat)
    requires w.vpcSubnet.Ok? && Attempt(w, e)(i).err.None?
    ensures w.describe(i).Ok?
    ensures var nis := w.describe(i).value;
      exists k :: 0 <= k < |nis| && nis[k].status == "available"
        && (forall j :: 0 <= j < k ==> nis[j].status != "available")
        && Attempt(w, e)(i).effects
           == [DescribeNetworkInterfaces(w.vpcSubnet.value.0, w.vpcSubnet.value.1), AttachInterface(nis[k].networkInterfaceId, e.instanceId)]
  {
    var nis := w.describe(i).value;
    var k := FirstAvailable(nis);
    assert nis[k.value].status == "available";
  }
}
