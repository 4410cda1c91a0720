/** The rollout of one deployment to a destination version (DeploymentUpdater):
    its status machine, the choice of the next source RC, the per-generation
    replica arithmetic, the hard cut-over that deletes the other RCs, the
    readiness wait, and the background task that drives them in order. */
module Updater {
  import opened JavaText
  import opened KubeCluster

  // ---------------------------------------------------------------------------
  // Status

  datatype Phase = Unknown | Running | Succeed | Failed | Stopped

  /** DeploymentUpdateStatus without its timestamps. */
  datatype UpdateStatus = UpdateStatus(phase: Phase, reason: string) {
    function Started(): UpdateStatus { this.(phase := Running) }

    /** succeed: a rollout that has already ended keeps its terminal phase. */
    function Succeeded(): (r: UpdateStatus)
      ensures IsTerminal(r.phase) && r.reason == reason
      ensures IsTerminal(phase) ==> r == this
      ensures !IsTerminal(phase) ==> r.phase == Succeed
    {
      if IsTerminal(phase) then this else this.(phase := Succeed)
    }

    /** failed: a rollout that has already ended keeps its terminal phase and reason. */
    function FailedWith(why: string): (r: UpdateStatus)
      ensures IsTerminal(r.phase)
      ensures IsTerminal(phase) ==> r == this
      ensures !IsTerminal(phase) ==> r == UpdateStatus(Failed, why)
    {
      if IsTerminal(phase) then this else UpdateStatus(Failed, why)
    }
  }

  const InitialStatus := UpdateStatus(Unknown, "")

  predicate IsTerminal(p: Phase) {
    p == Failed || p == Succeed
  }

  const ExecutorTerminatedMessage :=
    "executor thread is terminated, but status is not, some unknown exception may happen in update deployment"

  /** What getStatus does to the stored status before copying it out: a task that
      has finished while the phase is still not terminal is turned into Failed. */
  function HealedStatus(s: UpdateStatus, taskDone: bool): (r: UpdateStatus)
    ensures taskDone ==> IsTerminal(r.phase)
    ensures !taskDone || IsTerminal(s.phase) ==> r == s
    ensures r != s ==> r == UpdateStatus(Failed, ExecutorTerminatedMessage)
  {
    if taskDone && s.phase != Failed && s.phase != Succeed then s.FailedWith(ExecutorTerminatedMessage)
    else s
  }

  function DoubleStartMessage(deployId: int, dstVersion: int): string {
    "try start one updater which has been start, deployId=" + IntToString(deployId)
      + ", dstVersionId=" + IntToString(dstVersion)
  }

  function AmbiguousTargetMessage(deployId: int, dstVersion: int): string {
    "update deployment(id=" + IntToString(deployId) + ") to version=" + IntToString(dstVersion)
      + ", but more than one rc exist for that version"
  }

  // ---------------------------------------------------------------------------
  // Faults and the two catch arms of the background task

  datatype Fault =
    | KubernetesFault(message: string)     // IOException or K8sDriverException from the client
    | DeploymentEvent(message: string)     // org.domeos.exception.DeploymentEventException
    | PodListNull(selector: Rc)            // the same exception, for a pod list that came back null
    | WaitTimeout(message: string)         // org.domeos.exception.TimeoutException
    | IndexOutOfBounds(index: int, size: int)

  /** Throwable.toString of the exceptions that reach the generic catch arm.
      The source prints the RC's whole selector map for a null pod list; label
      maps are reduced here to the deployment id and version, so that text is
      an approximation whose key names and order are not the source's. */
  function FaultText(f: Fault): string {
    match f
    case KubernetesFault(m) => m
    case DeploymentEvent(m) => "org.domeos.exception.DeploymentEventException: " + m
    case PodListNull(rc) =>
      "org.domeos.exception.DeploymentEventException: get podList with selector={deployId="
        + IntToString(rc.deployId) + ", version=" + IntToString(rc.version) + "}, but return null"
    case WaitTimeout(m) => "org.domeos.exception.TimeoutException: " + m
    case IndexOutOfBounds(i, n) =>
      "java.lang.IndexOutOfBoundsException: Index: " + IntToString(i) + ", Size: " + IntToString(n)
  }

  /** The failure reason the background task records for a fault. */
  function FailureReason(deployId: int, f: Fault): string {
    if f.KubernetesFault? then "kubernetes failed with message=" + f.message
    else "update deployment(id=" + IntToString(deployId) + ") failed, exception=" + FaultText(f)
  }

  // ---------------------------------------------------------------------------
  // Choosing the next source RC

  /** An RC selectMaxVersionRC may pick: it still has replicas, it is not of the
      destination version, and its version beats the running maximum's start
      value of -1. */
  predicate IsCandidate(rc: Rc, dstVersion: int) {
    rc.replicas != 0 && rc.version != dstVersion && rc.version > -1
  }

  /** The highest-version candidate of the list; among equal versions the first. */
  function MaxVersionRC(rcs: seq<Rc>, dstVersion: int): (r: Option<Rc>)
    ensures r.None? <==> forall rc :: rc in rcs ==> !IsCandidate(rc, dstVersion)
    ensures r.Some? ==> r.value in rcs && IsCandidate(r.value, dstVersion)
    ensures r.Some? ==> forall rc :: rc in rcs && IsCandidate(rc, dstVersion) ==> rc.version <= r.value.version
    decreases |rcs|
  {
    if rcs == [] then None
    else
      var best := MaxVersionRC(rcs[..|rcs| - 1], dstVersion);
      var last := rcs[|rcs| - 1];
      assert forall rc :: rc in rcs ==> rc in rcs[..|rcs| - 1] || rc == last;
      if IsCandidate(last, dstVersion) && (best.None? || last.version > best.value.version) then Some(last)
      else best
  }

  /** Ties go to the RC listed first: the chosen RC sits at an index `k` before
      which every candidate has a strictly smaller version. */
  lemma {:induction false} MaxVersionRCIsFirst(rcs: seq<Rc>, dstVersion: int) returns (k: nat)
    requires MaxVersionRC(rcs, dstVersion).Some?
    ensures k < |rcs| && rcs[k] == MaxVersionRC(rcs, dstVersion).value
    ensures forall j :: 0 <= j < k && IsCandidate(rcs[j], dstVersion) ==> rcs[j].version < rcs[k].version
    decreases |rcs|
  {
    var front := rcs[..|rcs| - 1];
    var best := MaxVersionRC(front, dstVersion);
    var last := rcs[|rcs| - 1];
    if IsCandidate(last, dstVersion) && (best.None? || last.version > best.value.version) {
      k := |rcs| - 1;
      forall j | 0 <= j < k && IsCandidate(rcs[j], dstVersion)
        ensures rcs[j].version < rcs[k].version
      {
        assert rcs[j] == front[j];
      }
    } else {
      k := MaxVersionRCIsFirst(front, dstVersion);
      assert rcs[k] == front[k];
      forall j | 0 <= j < k && IsCandidate(rcs[j], dstVersion)
        ensures rcs[j].version < rcs[k].version
      {
        assert rcs[j] == front[j];
      }
    }
  }

  /** selectMaxVersionRC over the listed RCs: a scan with a running maximum that
      starts at version -1 and skips RCs with zero replicas. */
  method SelectMaxVersionRC(rcs: seq<Rc>, dstVersion: int) returns (r: Option<Rc>)
    ensures r == MaxVersionRC(rcs, dstVersion)
  {
    if |rcs| == 0 {
      return None;
    }
    var maxVersionRC: Option<Rc> := None;
    var maxVersionId := -1;
    for i := 0 to |rcs|
      invariant maxVersionRC == MaxVersionRC(rcs[..i], dstVersion)
      invariant maxVersionId == if maxVersionRC.None? then -1 else maxVersionRC.value.version
    {
      assert rcs[..i + 1][..i] == rcs[..i];
      var rc := rcs[i];
      if rc.replicas == 0 {
        continue;
      }
      var currentVersionId := rc.version;
      if currentVersionId > maxVersionId && currentVersionId != dstVersion {
        maxVersionRC := Some(rc);
        maxVersionId := currentVersionId;
      }
    }
    assert rcs[..|rcs|] == rcs;
    return maxVersionRC;
  }

  /** How many RCs of the deployment selectMaxVersionRC could still pick. */
  function CandidateCount(rcs: seq<Rc>, deployId: int, dstVersion: int): nat
    decreases |rcs|
  {
    if rcs == [] then 0
    else (if rcs[0].deployId == deployId && IsCandidate(rcs[0], dstVersion) then 1 else 0)
         + CandidateCount(rcs[1..], deployId, dstVersion)
  }

  /** Scaling a candidate RC to zero replicas removes it from the candidates. */
  lemma {:induction false} ScaleToZeroShrinks(rcs: seq<Rc>, scaled: seq<Rc>, src: Rc, deployId: int, dstVersion: int)
    requires src in rcs && src.deployId == deployId && IsCandidate(src, dstVersion)
    requires |scaled| == |rcs|
    requires forall i :: 0 <= i < |rcs| ==>
      scaled[i] == if rcs[i].name == src.name then rcs[i].(replicas := 0) else rcs[i]
    ensures CandidateCount(scaled, deployId, dstVersion) < CandidateCount(rcs, deployId, dstVersion)
    decreases |rcs|
  {
    if rcs[0] == src {
      ScaleNeverGrows(rcs[1..], scaled[1..], src.name, deployId, dstVersion);
    } else {
      assert src in rcs[1..];
      ScaleToZeroShrinks(rcs[1..], scaled[1..], src, deployId, dstVersion);
    }
  }

  lemma {:induction false} ScaleNeverGrows(rcs: seq<Rc>, scaled: seq<Rc>, name: string, deployId: int, dstVersion: int)
    requires |scaled| == |rcs|
    requires forall i :: 0 <= i < |rcs| ==>
      scaled[i] == if rcs[i].name == name then rcs[i].(replicas := 0) else rcs[i]
    ensures CandidateCount(scaled, deployId, dstVersion) <= CandidateCount(rcs, deployId, dstVersion)
    decreases |rcs|
  {
    if rcs != [] {
      ScaleNeverGrows(rcs[1..], scaled[1..], name, deployId, dstVersion);
    }
  }

  /** Scaling RCs that are all of the destination version leaves the candidates alone. */
  lemma {:induction false} ScaleDestinationKeepsCount(rcs: seq<Rc>, scaled: seq<Rc>, name: string, n: nat, deployId: int, dstVersion: int)
    requires |scaled| == |rcs|
    requires forall i :: 0 <= i < |rcs| ==>
      scaled[i] == if rcs[i].name == name then rcs[i].(replicas := n) else rcs[i]
    requires forall rc :: rc in rcs && rc.name == name ==> rc.version == dstVersion
    ensures CandidateCount(scaled, deployId, dstVersion) == CandidateCount(rcs, deployId, dstVersion)
    decreases |rcs|
  {
    if rcs != [] {
      assert forall rc :: rc in rcs[1..] ==> rc in rcs;
      ScaleDestinationKeepsCount(rcs[1..], scaled[1..], name, n, deployId, dstVersion);
    }
  }

  /** A converger step scales a candidate to zero and the destination RC to `n`:
      names still identify RCs, the destination reports `n`, and one candidate
      fewer remains, so the migration loop terminates. */
  lemma StepShrinksCandidates(c: Cluster, src: Rc, target: string, n: nat, deployId: int, dst: int)
    requires NamesIdentify(c)
    requires src in c.rcs && src.deployId == deployId && IsCandidate(src, dst)
    requires RcInfo(c, target).Some? && RcInfo(c, target).value.version == dst
    ensures var after := ScaleRc(ScaleRc(c, src.name, 0), target, n);
      && NamesIdentify(after)
      && RcInfo(after, target) == Some(RcInfo(c, target).value.(replicas := n))
      && CandidateCount(after.rcs, deployId, dst) < CandidateCount(c.rcs, deployId, dst)
  {
    var live := RcInfo(c, target).value;
    assert src.name != target by {
      assert live in c.rcs && live.name == target && live.version != src.version;
    }
    var c1 := ScaleRc(c, src.name, 0);
    ScaleToZeroShrinks(c.rcs, c1.rcs, src, deployId, dst);
    ScaleKeepsNames(c, src.name, 0);
    ScaleOtherFind(c.rcs, c1.rcs, src.name, target, 0);
    assert RcInfo(c1, target) == Some(live);
    var c2 := ScaleRc(c1, target, n);
    forall rc | rc in c1.rcs && rc.name == target ensures rc.version == dst {
      assert live in c1.rcs;
    }
    ScaleDestinationKeepsCount(c1.rcs, c2.rcs, target, n, deployId, dst);
    ScaleKeepsNames(c1, target, n);
    ScaleThenInfo(c1, target, n);
  }

  /** Topping up the destination RC creates no new source candidate. */
  lemma TopUpKeepsNoCandidate(c: Cluster, target: string, n: nat, deployId: int, dst: int)
    requires NamesIdentify(c)
    requires RcInfo(c, target).Some? && RcInfo(c, target).value.version == dst
    requires MaxVersionRC(RcsOfDeployment(c, deployId), dst).None?
    ensures MaxVersionRC(RcsOfDeployment(ScaleRc(c, target, n), deployId), dst).None?
  {
    var after := ScaleRc(c, target, n);
    var live := RcInfo(c, target).value;
    forall rc | rc in RcsOfDeployment(after, deployId) ensures !IsCandidate(rc, dst) {
      var i :| 0 <= i < |after.rcs| && after.rcs[i] == rc;
      assert c.rcs[i] in c.rcs;
      if c.rcs[i].name == target {
        assert live in c.rcs;
      }
    }
  }

  // ---------------------------------------------------------------------------
  // Per-generation arithmetic

  datatype Plan = ScaleTargetTo(target: nat) | DeleteOthersAndSucceed

  /** The decision taken at the top of each generation from the live destination
      count `current` and the source RC's count `source`. */
  function PlanGeneration(keepRcQuantity: bool, replicas: int, current: nat, source: nat): (p: Plan)
    ensures p.DeleteOthersAndSucceed? <==> !keepRcQuantity && current >= replicas
    ensures keepRcQuantity ==> p == ScaleTargetTo(current + source)
    ensures p.ScaleTargetTo? && !keepRcQuantity ==>
      && p.target <= replicas && p.target <= current + source
      && (p.target == replicas || p.target == current + source)
    ensures p.ScaleTargetTo? && source > 0 ==> p.target > current
  {
    if keepRcQuantity then ScaleTargetTo(current + source)
    else if current >= replicas then DeleteOthersAndSucceed
    else if replicas < current + source then ScaleTargetTo(replicas)
    else ScaleTargetTo(current + source)
  }

  const FiveMinutesMillis := 5 * 60 * 1000

  /** Time budget of the final readiness wait: five minutes per replica, at least five minutes. */
  function WaitTimeoutMillis(currentTargetReplicas: int): (t: int)
    ensures t >= FiveMinutesMillis
    ensures currentTargetReplicas > 0 ==> t == currentTargetReplicas * FiveMinutesMillis
    ensures currentTargetReplicas <= 0 ==> t == FiveMinutesMillis
  {
    var units := if currentTargetReplicas > 0 then currentTargetReplicas else 1;
    units * 5 * 60 * 1000
  }

  /** A larger destination count never gets a shorter budget. */
  lemma WaitTimeoutMonotone(a: int, b: int)
    requires a <= b
    ensures WaitTimeoutMillis(a) <= WaitTimeoutMillis(b)
  {
    if a > 0 {
      assert a * FiveMinutesMillis <= b * FiveMinutesMillis;
    }
  }

  // ---------------------------------------------------------------------------
  // Hard cut-over: deleteOtherRC

  /** An RC of the deployment that is not of the destination version. */
  predicate IsOther(rc: Rc, deployId: int, dstVersion: int) {
    rc.deployId == deployId && rc.version != dstVersion
  }

  ghost predicate SelectedByOther(c: Cluster, p: Pod, deployId: int, dstVersion: int) {
    exists rc :: rc in c.rcs && IsOther(rc, deployId, dstVersion) && Selects(rc, p)
  }

  /** What the cut-over may leave: only RCs and pods of `c`, and every RC that is
      not "other" and every pod no "other" RC selects. */
  ghost predicate KeepsTheRest(c: Cluster, cur: Cluster, deployId: int, dstVersion: int) {
    && cur.secrets == c.secrets
    && (forall rc :: rc in cur.rcs ==> rc in c.rcs)
    && (forall p :: p in cur.pods ==> p in c.pods)
    && (forall rc :: rc in c.rcs && !IsOther(rc, deployId, dstVersion) ==> rc in cur.rcs)
    && (forall p :: p in c.pods && !SelectedByOther(c, p, deployId, dstVersion) ==> p in cur.pods)
  }

  /** `rc` is deleted from `cur` and so is every pod its selector matches. */
  ghost predicate Gone(rc: Rc, cur: Cluster) {
    rc !in cur.rcs && forall p :: p in cur.pods ==> !Selects(rc, p)
  }

  /** The inner loop of deleteOtherRC: delete each listed pod by name. */
  method DeletePods(cur: Cluster, victims: seq<Pod>) returns (next: Cluster)
    ensures next.rcs == cur.rcs && next.secrets == cur.secrets
    ensures forall p :: p in next.pods ==> p in cur.pods
    ensures forall p :: p in cur.pods && (forall v :: v in victims ==> v.name != p.name) ==> p in next.pods
    ensures forall v, p :: v in victims && p in next.pods ==> p.name != v.name
  {
    next := cur;
    for j := 0 to |victims|
      invariant next.rcs == cur.rcs && next.secrets == cur.secrets
      invariant forall p :: p in next.pods ==> p in cur.pods
      invariant forall p :: p in cur.pods && (forall v :: v in victims ==> v.name != p.name) ==> p in next.pods
      invariant forall k, p :: 0 <= k < j && p in next.pods ==> p.name != victims[k].name
    {
      assert victims[j] in victims;
      next := DeletePod(next, victims[j].name);
    }
    forall v, p | v in victims && p in next.pods ensures p.name != v.name {
      var k :| 0 <= k < |victims| && victims[k] == v;
    }
  }

  /** One pass of the outer loop of deleteOtherRC for an "other" RC: list its
      pods, delete the RC, delete the pods. */
  method DeleteOneOther(c: Cluster, cur: Cluster, rc: Rc, deployId: int, dstVersion: int) returns (next: Cluster)
    requires NamesIdentify(c) && rc in c.rcs && IsOther(rc, deployId, dstVersion)
    requires KeepsTheRest(c, cur, deployId, dstVersion)
    ensures KeepsTheRest(c, next, deployId, dstVersion)
    ensures forall x :: Gone(x, cur) ==> Gone(x, next)
    ensures Gone(rc, next)
  {
    var podList := PodsOf(cur, rc);
    var withoutRc := DeleteRc(cur, rc.name);
    forall x | x in c.rcs && !IsOther(x, deployId, dstVersion) ensures x in withoutRc.rcs {
      assert x.name != rc.name;
    }
    next := DeletePods(withoutRc, podList);
    forall p | p in c.pods && !SelectedByOther(c, p, deployId, dstVersion) ensures p in next.pods {
      forall v | v in podList ensures v.name != p.name {
        assert SelectedByOther(c, v, deployId, dstVersion);
      }
    }
    forall p | p in next.pods ensures !Selects(rc, p) {
      assert p !in podList;
    }
    assert forall x :: x in next.rcs ==> x in cur.rcs;
  }

  /** deleteOtherRC: list the deployment's RCs (reading element 0 first, which
      throws on an empty list), then delete every RC not of the destination
      version and every pod its selector matches. */
  method DeleteOtherRC(c: Cluster, deployId: int, dstVersion: int) returns (r: Result<Cluster, Fault>)
    requires NamesIdentify(c)
    ensures r.Err? <==> RcsOfDeployment(c, deployId) == []
    ensures r.Err? ==> r.error == IndexOutOfBounds(0, 0)
    ensures r.Ok? ==> NamesIdentify(r.value) && CutOverFrom(c, r.value, deployId, dstVersion)
  {
    var rcList := RcsOfDeployment(c, deployId);
    if |rcList| == 0 {
      return Err(IndexOutOfBounds(0, 0));
    }
    var cur := c;
    for i := 0 to |rcList|
      invariant KeepsTheRest(c, cur, deployId, dstVersion)
      invariant forall k :: 0 <= k < i && IsOther(rcList[k], deployId, dstVersion) ==> Gone(rcList[k], cur)
    {
      var rc := rcList[i];
      if rc.version != dstVersion {
        assert rc in rcList;
        cur := DeleteOneOther(c, cur, rc, deployId, dstVersion);
      }
    }
    forall rc | rc in c.rcs && IsOther(rc, deployId, dstVersion) ensures Gone(rc, cur) {
      assert rc in rcList;
      var k :| 0 <= k < |rcList| && rcList[k] == rc;
    }
    CutOverDone(c, cur, deployId, dstVersion);
    return Ok(cur);
  }

  /** Once every "other" RC is gone, what is left is the cut-over of `c`. */
  lemma CutOverDone(c: Cluster, cur: Cluster, deployId: int, dstVersion: int)
    requires NamesIdentify(c) && KeepsTheRest(c, cur, deployId, dstVersion)
    requires forall rc :: rc in c.rcs && IsOther(rc, deployId, dstVersion) ==> Gone(rc, cur)
    ensures NamesIdentify(cur) && CutOverFrom(c, cur, deployId, dstVersion)
  {
    SubClusterKeepsNames(c, cur);
    forall rc ensures RcSurvives(c, cur, rc, deployId, dstVersion) {
      assert rc in c.rcs && IsOther(rc, deployId, dstVersion) ==> Gone(rc, cur);
    }
    forall p ensures PodSurvives(c, cur, p, deployId, dstVersion) {
      if p in c.pods && SelectedByOther(c, p, deployId, dstVersion) {
        var rc :| rc in c.rcs && IsOther(rc, deployId, dstVersion) && Selects(rc, p);
        assert Gone(rc, cur);
      }
    }
  }

  // ---------------------------------------------------------------------------
  // Readiness wait: waitRCSuccess

  /** One observation of the poll loop: the pod list the client returned (null
      modelled as None) and the milliseconds elapsed when the loop checked it. */
  datatype Poll = Poll(pods: Option<seq<Pod>>, elapsed: int)

  /** PodUtils.getPodReadyNumber. */
  function ReadyCount(pods: seq<Pod>): (n: nat)
    ensures n <= |pods|
    decreases |pods|
  {
    if pods == [] then 0 else (if pods[0].ready then 1 else 0) + ReadyCount(pods[1..])
  }

  /** The exit test of the poll loop: both the ready count and the pod count equal `replicas`. */
  predicate AllReplicasUp(pods: seq<Pod>, replicas: int) {
    ReadyCount(pods) == replicas && |pods| == replicas
  }

  /** The loop stops at this observation: null list, all up, or past the budget. */
  predicate Settles(p: Poll, replicas: int, timeout: int) {
    p.pods.None? || AllReplicasUp(p.pods.value, replicas) || p.elapsed > timeout
  }

  /** A finite trace of observations that ends with one where the loop stops. */
  predicate TraceEnds(polls: seq<Poll>, replicas: int, timeout: int) {
    |polls| > 0 && Settles(polls[|polls| - 1], replicas, timeout)
  }

  function FirstSettledFrom(polls: seq<Poll>, replicas: int, timeout: int, i: nat): (k: nat)
    requires TraceEnds(polls, replicas, timeout) && i < |polls|
    requires forall j :: 0 <= j < i ==> !Settles(polls[j], replicas, timeout)
    ensures i <= k < |polls| && Settles(polls[k], replicas, timeout)
    ensures forall j :: 0 <= j < k ==> !Settles(polls[j], replicas, timeout)
    decreases |polls| - i
  {
    if Settles(polls[i], replicas, timeout) then i
    else FirstSettledFrom(polls, replicas, timeout, i + 1)
  }

  /** The observation at which the poll loop stops. */
  function FirstSettled(polls: seq<Poll>, replicas: int, timeout: int): (k: nat)
    requires TraceEnds(polls, replicas, timeout)
    ensures k < |polls| && Settles(polls[k], replicas, timeout)
    ensures forall j :: 0 <= j < k ==> !Settles(polls[j], replicas, timeout)
  {
    FirstSettledFrom(polls, replicas, timeout, 0)
  }

  /** The first observation where the loop stops is the one after all the ones where it goes on. */
  lemma FirstSettledAt(polls: seq<Poll>, replicas: int, timeout: int, i: nat)
    requires TraceEnds(polls, replicas, timeout) && i < |polls| && Settles(polls[i], replicas, timeout)
    requires forall j :: 0 <= j < i ==> !Settles(polls[j], replicas, timeout)
    ensures FirstSettled(polls, replicas, timeout) == i
  {
  }

  function TimeoutMessage(rcName: string, timeout: int): string {
    "TIMEOUT: wait rc=" + rcName + " for " + IntToString(timeout) + "millisecond."
  }

  /** What waitRCSuccess ends with, given the RC it found and the observation it stopped at. */
  function WaitVerdict(p: Poll, rc: Rc, rcName: string, replicas: int, timeout: int): Result<(), Fault> {
    if p.pods.None? then Err(PodListNull(rc))
    else if AllReplicasUp(p.pods.value, replicas) then Ok(())
    else Err(WaitTimeout(TimeoutMessage(rcName, timeout)))
  }

  /** How waitRCSuccess ends for this cluster and trace. */
  function WaitOutcome(c: Cluster, rcName: string, replicas: int, timeout: int, polls: seq<Poll>): Result<(), Fault>
    requires TraceEnds(polls, replicas, timeout)
  {
    if RcInfo(c, rcName).None? then Err(DeploymentEvent("get target rc=" + rcName + " is null"))
    else WaitVerdict(polls[FirstSettled(polls, replicas, timeout)], RcInfo(c, rcName).value, rcName, replicas, timeout)
  }

  /** The wait passes exactly when it stops at an observation where all
      `replicas` pods exist and are ready. */
  lemma WaitPassesIffAllUp(c: Cluster, rcName: string, replicas: int, timeout: int, polls: seq<Poll>)
    requires TraceEnds(polls, replicas, timeout)
    ensures WaitOutcome(c, rcName, replicas, timeout, polls).Ok? <==>
      && RcInfo(c, rcName).Some?
      && var p := polls[FirstSettled(polls, replicas, timeout)];
         p.pods.Some? && ReadyCount(p.pods.value) == replicas && |p.pods.value| == replicas
  {
  }

  ghost predicate WaitSucceeds(c: Cluster, rcName: string, replicas: int, timeout: int, polls: seq<Poll>)
    requires TraceEnds(polls, replicas, timeout)
  {
    WaitOutcome(c, rcName, replicas, timeout, polls).Ok?
  }

  /** waitRCSuccess: read the RC, then poll its pods until all `replicas` are
      there and ready, failing on a null pod list or once the budget is spent.
      The sleep between polls (and its ignored interruptions) is not modelled. */
  method WaitRCSuccess(c: Cluster, rcName: string, replicas: int, timeout: int, polls: seq<Poll>)
    returns (r: Result<(), Fault>)
    requires TraceEnds(polls, replicas, timeout)
    ensures RcInfo(c, rcName).None? ==> r == Err(DeploymentEvent("get target rc=" + rcName + " is null"))
    ensures RcInfo(c, rcName).Some? ==>
      r == WaitVerdict(polls[FirstSettled(polls, replicas, timeout)], RcInfo(c, rcName).value,
                       rcName, replicas, timeout)
  {
    var rc := RcInfo(c, rcName);
    if rc.None? {
      return Err(DeploymentEvent("get target rc=" + rcName + " is null"));
    }
    var i := 0;
    var podList := polls[0].pods;
    if podList.None? {
      FirstSettledAt(polls, replicas, timeout, 0);
      return Err(PodListNull(rc.value));
    }
    while ReadyCount(podList.value) != replicas || |podList.value| != replicas
      invariant 0 <= i < |polls| && podList == polls[i].pods && podList.Some?
      invariant forall j :: 0 <= j < i ==> !Settles(polls[j], replicas, timeout)
      decreases |polls| - i
    {
      if polls[i].elapsed > timeout {
        FirstSettledAt(polls, replicas, timeout, i);
        return Err(WaitTimeout(TimeoutMessage(rcName, timeout)));
      }
      i := i + 1;
      podList := polls[i].pods;
      if podList.None? {
        FirstSettledAt(polls, replicas, timeout, i);
        return Err(PodListNull(rc.value));
      }
    }
    FirstSettledAt(polls, replicas, timeout, i);
    return Ok(());
  }

  // ---------------------------------------------------------------------------
  // The orchestrator

  datatype Deployment = Deployment(id: int, namespace: string)

  /** The destination version: its number and whether its containers pull from
      the platform's own registry (SecretUtils.haveDomeOSRegistry). */
  datatype Version = Version(version: int, usesDomeOSRegistry: bool)

  /** The Future of the submitted task. */
  datatype TaskHandle = Pending | Completed | Cancelled {
    predicate IsDone() { !Pending? }
  }

  datatype ConvergerKind = EmptyUpdater | RollingUpdater(source: string, target: string)

  /** The single-step converger (ReplicationControllerUpdater) the updater points to. */
  datatype Converger = Converger(kind: ConvergerKind, closed: bool)

  /** How one converger step ended. */
  datatype StepOutcome = StepSucceeded | StepFailed(reason: string)

  /** One generation of the migration loop, as recorded for the specification:
      the cluster it started from, the source RC selectMaxVersionRC chose there,
      the live destination count it read there, and, for a generation that ran
      a converger step, the destination count it set. */
  datatype Step =
    | Shift(before: Cluster, source: Rc, current: nat, target: nat)
    | Cutover(before: Cluster, source: Rc, current: nat)

  /** The plan a recorded generation carried out. */
  function Planned(s: Step): Plan {
    if s.Shift? then ScaleTargetTo(s.target) else DeleteOthersAndSucceed
  }

  /** The live destination count read after the loop and the wait budget derived from it. */
  datatype FinalCheck = FinalCheck(liveBefore: nat, budget: int)

  function SumSources(h: seq<Step>): nat
    decreases |h|
  {
    if h == [] then 0
    else SumSources(h[..|h| - 1]) + (if h[|h| - 1].Shift? then h[|h| - 1].source.replicas else 0)
  }

  function SecretName(prefix: string, namespace: string): string {
    prefix + namespace
  }

  /** The destination RC exists under `target`'s name with `target`'s labels. */
  ghost predicate TargetAt(c: Cluster, target: Rc) {
    var live := RcInfo(c, target.name);
    live.Some? && live.value.deployId == target.deployId && live.value.version == target.version
  }

  /** The live desired count of the RC named `name`. */
  ghost function Live(c: Cluster, name: string): nat
    requires RcInfo(c, name).Some?
  {
    RcInfo(c, name).value.replicas
  }

  /** The cluster a generation whose converger step succeeded leaves behind:
      its source RC drained and the destination RC at the count it set. */
  function AfterShift(s: Step, targetName: string): Cluster {
    if s.Shift? then ScaleRc(ScaleRc(s.before, s.source.name, 0), targetName, s.target) else s.before
  }

  /** What deleteOtherRC leaves of `before`: the RCs of other deployments and of
      the destination version, the pods no deleted RC selects, and the secrets. */
  ghost predicate CutOverFrom(before: Cluster, after: Cluster, deployId: int, dstVersion: int) {
    && (forall rc :: RcSurvives(before, after, rc, deployId, dstVersion))
    && (forall p :: PodSurvives(before, after, p, deployId, dstVersion))
    && after.secrets == before.secrets
  }

  /** `rc` is left by the cut-over exactly when it was there and is not "other". */
  ghost predicate RcSurvives(before: Cluster, after: Cluster, rc: Rc, deployId: int, dstVersion: int) {
    rc in after.rcs <==> rc in before.rcs && !IsOther(rc, deployId, dstVersion)
  }

  /** `p` is left by the cut-over exactly when it was there and no "other" RC selects it. */
  ghost predicate PodSurvives(before: Cluster, after: Cluster, p: Pod, deployId: int, dstVersion: int) {
    p in after.pods <==> p in before.pods && !SelectedByOther(before, p, deployId, dstVersion)
  }

  /** A recorded generation read its facts off the cluster it started from: its
      source is the RC selectMaxVersionRC picks there, and `current` is the
      destination RC's live count there. */
  ghost predicate Grounded(s: Step, targetName: string, deployId: int, dstVersion: int) {
    && NamesIdentify(s.before)
    && MaxVersionRC(RcsOfDeployment(s.before, deployId), dstVersion) == Some(s.source)
    && RcInfo(s.before, targetName).Some? && RcInfo(s.before, targetName).value.version == dstVersion
    && s.current == RcInfo(s.before, targetName).value.replicas
  }

  /** The cluster the generation after `h` starts from, when every generation
      in `h` ran a converger step that succeeded. */
  function Resumed(c0: Cluster, h: seq<Step>, targetName: string): Cluster {
    if h == [] then c0 else AfterShift(h[|h| - 1], targetName)
  }

  /** Generation k of `h` read its facts off the cluster it started from. */
  ghost predicate GroundedAt(h: seq<Step>, k: int, targetName: string, deployId: int, dstVersion: int)
    requires 0 <= k < |h|
  {
    Grounded(h[k], targetName, deployId, dstVersion)
  }

  /** Generation k ran a converger step that succeeded, and generation k + 1
      started from the cluster it left. */
  ghost predicate Chained(h: seq<Step>, k: int, targetName: string)
    requires 0 <= k < |h| - 1
  {
    h[k].Shift? && h[k + 1].before == AfterShift(h[k], targetName)
  }

  /** The history replays from the cluster `c0` the migration loop started in:
      every generation read its facts off the cluster it started from, and each
      started where the previous one's successful converger step left off. */
  ghost predicate Replays(c0: Cluster, targetName: string, deployId: int, dstVersion: int, h: seq<Step>) {
    && (h != [] ==> h[0].before == c0)
    && (forall k :: 0 <= k < |h| ==> GroundedAt(h, k, targetName, deployId, dstVersion))
    && (forall k :: 0 <= k < |h| - 1 ==> Chained(h, k, targetName))
  }

  /** Every generation of a replayed history read its facts off the cluster it started from. */
  lemma ReplaysGrounded(c0: Cluster, targetName: string, deployId: int, dstVersion: int, h: seq<Step>, k: nat)
    requires Replays(c0, targetName, deployId, dstVersion, h) && k < |h|
    ensures Grounded(h[k], targetName, deployId, dstVersion)
  {
    assert GroundedAt(h, k, targetName, deployId, dstVersion);
  }

  /** Generation j + 1 of a replayed history started where generation j's
      successful converger step left the cluster. */
  lemma ReplaysLinked(c0: Cluster, targetName: string, deployId: int, dstVersion: int, h: seq<Step>, j: nat)
    requires Replays(c0, targetName, deployId, dstVersion, h) && j + 1 < |h|
    ensures h[j].Shift? && h[j + 1].before == AfterShift(h[j], targetName)
  {
    assert Chained(h, j, targetName);
  }

  /** Generation k did what PlanGeneration decided for its counts. */
  ghost predicate PlannedAt(h: seq<Step>, k: int, keepRcQuantity: bool, replicas: int)
    requires 0 <= k < |h|
  {
    PlanGeneration(keepRcQuantity, replicas, h[k].current, h[k].source.replicas) == Planned(h[k])
  }

  /** Every recorded generation did what PlanGeneration decided for its counts. */
  ghost predicate FollowsPlan(h: seq<Step>, keepRcQuantity: bool, replicas: int) {
    forall k :: 0 <= k < |h| ==> PlannedAt(h, k, keepRcQuantity, replicas)
  }

  /** Generation k shifted replicas with a converger step that succeeded. */
  ghost predicate SucceededAt(h: seq<Step>, outcome: nat -> StepOutcome, k: int)
    requires 0 <= k < |h|
  {
    h[k].Shift? && outcome(k) == StepSucceeded
  }

  /** The first `n` recorded generations shifted replicas with a converger step that succeeded. */
  ghost predicate StepsSucceeded(h: seq<Step>, outcome: nat -> StepOutcome, n: int) {
    forall k :: 0 <= k < |h| && k < n ==> SucceededAt(h, outcome, k)
  }

  lemma ExtendFollowsPlan(h: seq<Step>, s: Step, keepRcQuantity: bool, replicas: int)
    requires FollowsPlan(h, keepRcQuantity, replicas)
    requires PlanGeneration(keepRcQuantity, replicas, s.current, s.source.replicas) == Planned(s)
    ensures FollowsPlan(h + [s], keepRcQuantity, replicas)
  {
    forall k | 0 <= k < |h + [s]| ensures PlannedAt(h + [s], k, keepRcQuantity, replicas) {
      assert k < |h| ==> PlannedAt(h, k, keepRcQuantity, replicas) && (h + [s])[k] == h[k];
    }
  }

  lemma ExtendStepsSucceeded(h: seq<Step>, s: Step, outcome: nat -> StepOutcome)
    requires StepsSucceeded(h, outcome, |h|)
    ensures StepsSucceeded(h + [s], outcome, |h|)
    ensures StepsSucceeded(h + [s], outcome, |h| + 1) <==> s.Shift? && outcome(|h|) == StepSucceeded
  {
    forall k | 0 <= k < |h| + 1 ensures k < |h| ==> SucceededAt(h + [s], outcome, k) {
      assert k < |h| ==> SucceededAt(h, outcome, k) && (h + [s])[k] == h[k];
    }
    assert (h + [s])[|h|] == s;
    assert SucceededAt(h + [s], outcome, |h|) <==> s.Shift? && outcome(|h|) == StepSucceeded;
  }

  /** Recording a generation that started where the last one left off keeps
      the history replaying from `c0`. */
  lemma ExtendReplays(c0: Cluster, targetName: string, deployId: int, dstVersion: int, h: seq<Step>, s: Step)
    requires Replays(c0, targetName, deployId, dstVersion, h)
    requires Grounded(s, targetName, deployId, dstVersion)
    requires h != [] ==> h[|h| - 1].Shift?
    requires s.before == Resumed(c0, h, targetName)
    ensures Replays(c0, targetName, deployId, dstVersion, h + [s])
  {
    ExtendGrounded(h, s, targetName, deployId, dstVersion);
    ExtendChained(h, s, targetName);
    assert h != [] ==> (h + [s])[0] == h[0];
  }

  lemma ExtendGrounded(h: seq<Step>, s: Step, targetName: string, deployId: int, dstVersion: int)
    requires forall k :: 0 <= k < |h| ==> GroundedAt(h, k, targetName, deployId, dstVersion)
    requires Grounded(s, targetName, deployId, dstVersion)
    ensures forall k :: 0 <= k < |h + [s]| ==> GroundedAt(h + [s], k, targetName, deployId, dstVersion)
  {
    forall k | 0 <= k < |h + [s]| ensures GroundedAt(h + [s], k, targetName, deployId, dstVersion) {
      assert k < |h| ==> GroundedAt(h, k, targetName, deployId, dstVersion) && (h + [s])[k] == h[k];
    }
  }

  lemma ExtendChained(h: seq<Step>, s: Step, targetName: string)
    requires forall k :: 0 <= k < |h| - 1 ==> Chained(h, k, targetName)
    requires h != [] ==> h[|h| - 1].Shift? && s.before == AfterShift(h[|h| - 1], targetName)
    ensures forall k :: 0 <= k < |h + [s]| - 1 ==> Chained(h + [s], k, targetName)
  {
    forall k | 0 <= k < |h + [s]| - 1 ensures Chained(h + [s], k, targetName) {
      ChainedPrefix(h, s, k, targetName);
    }
  }

  lemma ChainedPrefix(h: seq<Step>, s: Step, k: int, targetName: string)
    requires 0 <= k < |h|
    requires k < |h| - 1 ==> Chained(h, k, targetName)
    requires k == |h| - 1 ==> h[k].Shift? && s.before == AfterShift(h[k], targetName)
    ensures Chained(h + [s], k, targetName)
  {
    var h' := h + [s];
    assert h'[k] == h[k];
    if k < |h| - 1 {
      assert h'[k + 1] == h[k + 1];
    } else {
      assert h'[k + 1] == s;
    }
  }

  /** A generation whose converger step succeeded leaves names identifying RCs,
      the destination at the count it set, and its source drained. */
  lemma AfterShiftInfo(s: Step, targetName: string, deployId: int, dstVersion: int)
    requires s.Shift? && Grounded(s, targetName, deployId, dstVersion)
    ensures NamesIdentify(AfterShift(s, targetName))
    ensures RcInfo(AfterShift(s, targetName), targetName) == Some(RcInfo(s.before, targetName).value.(replicas := s.target))
    ensures RcInfo(AfterShift(s, targetName), s.source.name) == Some(s.source.(replicas := 0))
  {
    var c, src := s.before, s.source;
    assert src in RcsOfDeployment(c, deployId);
    var live := RcInfo(c, targetName).value;
    assert src.name != targetName by {
      assert live in c.rcs && live.name == targetName && live.version != src.version;
    }
    assert RcInfo(c, src.name) == Some(src) by {
      SameNameSameRc(c, RcInfo(c, src.name).value, src);
    }
    var c1 := ScaleRc(c, src.name, 0);
    ScaleKeepsNames(c, src.name, 0);
    ScaleThenInfo(c, src.name, 0);
    ScaleOtherInfo(c, src.name, targetName, 0);
    ScaleKeepsNames(c1, targetName, s.target);
    ScaleThenInfo(c1, targetName, s.target);
    ScaleOtherInfo(c1, targetName, src.name, s.target);
  }

  /** Each generation after the first starts where the previous one's
      converger step left the cluster: the destination at the count that step
      set and that step's source RC drained. */
  lemma ReplaysHandOver(c0: Cluster, targetName: string, deployId: int, dstVersion: int, h: seq<Step>, j: nat)
    requires Replays(c0, targetName, deployId, dstVersion, h) && j + 1 < |h|
    ensures h[j].Shift? && h[j + 1].current == h[j].target
    ensures RcInfo(h[j + 1].before, h[j].source.name) == Some(h[j].source.(replicas := 0))
  {
    ReplaysGrounded(c0, targetName, deployId, dstVersion, h, j);
    ReplaysGrounded(c0, targetName, deployId, dstVersion, h, j + 1);
    ReplaysLinked(c0, targetName, deployId, dstVersion, h, j);
    AfterShiftInfo(h[j], targetName, deployId, dstVersion);
  }

  /** The hand-over between generations j and j + 1, with the count generation
      j planned from the destination's live count and its source's count. */
  lemma ReplaysPlannedHandOver(c0: Cluster, targetName: string, deployId: int, dstVersion: int,
                               keepRcQuantity: bool, replicas: int, h: seq<Step>, j: nat)
    requires Replays(c0, targetName, deployId, dstVersion, h) && FollowsPlan(h, keepRcQuantity, replicas)
    requires j + 1 < |h|
    ensures RcInfo(h[j].before, targetName).Some? && RcInfo(h[j + 1].before, targetName).Some?
    ensures h[j].Shift? && Live(h[j + 1].before, targetName) == h[j].target
    ensures PlanGeneration(keepRcQuantity, replicas, Live(h[j].before, targetName), h[j].source.replicas)
              == ScaleTargetTo(h[j].target)
    ensures RcInfo(h[j + 1].before, h[j].source.name) == Some(h[j].source.(replicas := 0))
  {
    ReplaysGrounded(c0, targetName, deployId, dstVersion, h, j);
    ReplaysGrounded(c0, targetName, deployId, dstVersion, h, j + 1);
    ReplaysHandOver(c0, targetName, deployId, dstVersion, h, j);
    assert PlannedAt(h, j, keepRcQuantity, replicas);
  }

  /** After a history of generations that all shifted replicas, the
      destination holds the count the last one set. */
  lemma ResumedLive(c0: Cluster, targetName: string, deployId: int, dstVersion: int, h: seq<Step>)
    requires Replays(c0, targetName, deployId, dstVersion, h) && h != [] && h[|h| - 1].Shift?
    ensures RcInfo(Resumed(c0, h, targetName), targetName).Some?
    ensures Live(Resumed(c0, h, targetName), targetName) == h[|h| - 1].target
  {
    ReplaysGrounded(c0, targetName, deployId, dstVersion, h, |h| - 1);
    AfterShiftInfo(h[|h| - 1], targetName, deployId, dstVersion);
  }

  /** How a generation, and so the migration loop, ends: `Drained` says the
      generation's converger step drained its source RC and the loop goes on
      (once the loop stops with it, no source RC is left); `CutOver` is the
      hard cut-over; `StepFailure` is a failed converger step. A loop still
      running is always in `Drained`. */
  datatype LoopEnd = Drained | CutOver | StepFailure(reason: string)

  /** One generation of the migration loop for source RC `src`: read the live
      destination count, plan, then either cut over, or set the cached desired
      count and run a converger step that ends as `step` says. */
  method Generation(c: Cluster, target: Rc, src: Rc, keepRcQuantity: bool, replicas: int,
                    deployId: int, dstVersion: int, step: StepOutcome)
    returns (next: Cluster, nextTarget: Rc, end: LoopEnd)
    requires NamesIdentify(c) && TargetAt(c, target)
    requires target.deployId == deployId && target.version == dstVersion
    requires src in c.rcs && src.deployId == deployId && IsCandidate(src, dstVersion)
    ensures NamesIdentify(next) && TargetAt(next, nextTarget) && nextTarget == target.(replicas := nextTarget.replicas)
    ensures next.secrets == c.secrets
    ensures var plan := PlanGeneration(keepRcQuantity, replicas, RcInfo(c, target.name).value.replicas, src.replicas);
      && (plan.DeleteOthersAndSucceed? ==>
            end == CutOver && nextTarget == target && CutOverFrom(c, next, deployId, dstVersion))
      && (plan.ScaleTargetTo? ==> nextTarget.replicas == plan.target)
      && (plan.ScaleTargetTo? && step.StepFailed? ==> end == StepFailure(step.reason) && next == c)
      && (plan.ScaleTargetTo? && step.StepSucceeded? ==>
            && end == Drained && next == ScaleRc(ScaleRc(c, src.name, 0), target.name, plan.target)
            && RcInfo(next, target.name).value.replicas == plan.target
            && CandidateCount(next.rcs, deployId, dstVersion) < CandidateCount(c.rcs, deployId, dstVersion))
  {
    var current := RcInfo(c, target.name).value.replicas;
    var plan := PlanGeneration(keepRcQuantity, replicas, current, src.replicas);
    if plan.DeleteOthersAndSucceed? {
      var live := RcInfo(c, target.name).value;
      assert live in RcsOfDeployment(c, deployId);
      var deleted := DeleteOtherRC(c, deployId, dstVersion);
      assert RcSurvives(c, deleted.value, live, deployId, dstVersion);
      return deleted.value, target, CutOver;
    }
    nextTarget := target.(replicas := plan.target);
    if step.StepFailed? {
      return c, nextTarget, StepFailure(step.reason);
    }
    StepShrinksCandidates(c, src, target.name, plan.target, deployId, dstVersion);
    next := ScaleRc(ScaleRc(c, src.name, 0), target.name, plan.target);
    end := Drained;
  }

  /** What holds of the migration loop's state after any number of generations:
      names still identify RCs, the destination RC keeps its name and labels,
      the history replays from the starting cluster and followed the plan, the
      cluster is what the last generation left, and `end` says how it ended. */
  ghost predicate LoopState(c0: Cluster, target0: Rc, keepRcQuantity: bool, replicas: int,
                            deployId: int, dstVersion: int, outcome: nat -> StepOutcome,
                            c: Cluster, target: Rc, converger: Option<Converger>, end: LoopEnd, h: seq<Step>)
    requires TargetAt(c0, target0)
  {
    && NamesIdentify(c) && TargetAt(c, target) && target == target0.(replicas := target.replicas)
    && c.secrets == c0.secrets
    && FollowsPlan(h, keepRcQuantity, replicas) && StepsSucceeded(h, outcome, |h| - 1)
    && Replays(c0, target0.name, deployId, dstVersion, h)
    && (end.Drained? <==> StepsSucceeded(h, outcome, |h|))
    // still going: the cluster is where the last successful step left it
    && (end.Drained? ==> c == Resumed(c0, h, target0.name))
    && (end.Drained? && h == [] ==> target == target0)
    && (h != [] && h[|h| - 1].Shift? ==> target.replicas == h[|h| - 1].target)
    && (end.Drained? && keepRcQuantity ==>
          RcInfo(c, target.name).value.replicas == RcInfo(c0, target0.name).value.replicas + SumSources(h))
    // the hard cut-over: deleteOtherRC applied to the cluster the generation started from
    && (end.CutOver? <==> h != [] && h[|h| - 1].Cutover?)
    && (end.CutOver? ==>
          && !keepRcQuantity && h[|h| - 1].current >= replicas
          && CutOverFrom(h[|h| - 1].before, c, deployId, dstVersion))
    // a failed converger step: the cluster as the generation found it
    && (end.StepFailure? <==> h != [] && h[|h| - 1].Shift? && outcome(|h| - 1).StepFailed?)
    && (end.StepFailure? ==> end.reason == outcome(|h| - 1).reason && c == h[|h| - 1].before)
    && (h == [] ==> converger.None?)
    && (h != [] && h[|h| - 1].Shift? ==>
          converger == Some(Converger(RollingUpdater(h[|h| - 1].source.name, target.name), false)))
  }

  /** A generation that cut over keeps the loop's state, with the cut-over recorded last. */
  lemma CutOverKeepsLoopState(c0: Cluster, target0: Rc, keepRcQuantity: bool, replicas: int,
                              deployId: int, dstVersion: int, outcome: nat -> StepOutcome,
                              c: Cluster, target: Rc, converger: Option<Converger>, h: seq<Step>,
                              src: Rc, next: Cluster)
    requires TargetAt(c0, target0) && target0.version == dstVersion
    requires LoopState(c0, target0, keepRcQuantity, replicas, deployId, dstVersion, outcome, c, target, converger, Drained, h)
    requires MaxVersionRC(RcsOfDeployment(c, deployId), dstVersion) == Some(src)
    requires NamesIdentify(next) && TargetAt(next, target)
    requires !keepRcQuantity && Live(c, target.name) >= replicas
    requires CutOverFrom(c, next, deployId, dstVersion)
    ensures LoopState(c0, target0, keepRcQuantity, replicas, deployId, dstVersion, outcome,
                      next, target, converger, CutOver, h + [Cutover(c, src, Live(c, target.name))])
  {
    var record := Cutover(c, src, Live(c, target.name));
    ExtendFollowsPlan(h, record, keepRcQuantity, replicas);
    ExtendStepsSucceeded(h, record, outcome);
    ExtendReplays(c0, target0.name, deployId, dstVersion, h, record);
    assert (h + [record])[|h|] == record;
  }

  /** A generation whose converger step failed keeps the loop's state, with that step recorded last. */
  lemma StepFailureKeepsLoopState(c0: Cluster, target0: Rc, keepRcQuantity: bool, replicas: int,
                                  deployId: int, dstVersion: int, outcome: nat -> StepOutcome,
                                  c: Cluster, target: Rc, converger: Option<Converger>, h: seq<Step>,
                                  src: Rc, n: nat, reason: string)
    requires TargetAt(c0, target0) && target0.version == dstVersion
    requires LoopState(c0, target0, keepRcQuantity, replicas, deployId, dstVersion, outcome, c, target, converger, Drained, h)
    requires MaxVersionRC(RcsOfDeployment(c, deployId), dstVersion) == Some(src)
    requires PlanGeneration(keepRcQuantity, replicas, Live(c, target.name), src.replicas) == ScaleTargetTo(n)
    requires outcome(|h|) == StepFailed(reason)
    ensures LoopState(c0, target0, keepRcQuantity, replicas, deployId, dstVersion, outcome,
                      c, target.(replicas := n), Some(Converger(RollingUpdater(src.name, target.name), false)),
                      StepFailure(reason), h + [Shift(c, src, Live(c, target.name), n)])
  {
    var record := Shift(c, src, Live(c, target.name), n);
    ExtendFollowsPlan(h, record, keepRcQuantity, replicas);
    ExtendStepsSucceeded(h, record, outcome);
    ExtendReplays(c0, target0.name, deployId, dstVersion, h, record);
    assert (h + [record])[|h|] == record;
  }

  /** A generation whose converger step succeeded keeps the loop's state, with that step recorded last. */
  lemma StepSuccessKeepsLoopState(c0: Cluster, target0: Rc, keepRcQuantity: bool, replicas: int,
                                  deployId: int, dstVersion: int, outcome: nat -> StepOutcome,
                                  c: Cluster, target: Rc, converger: Option<Converger>, h: seq<Step>,
                                  src: Rc, n: nat)
    requires TargetAt(c0, target0) && target0.version == dstVersion
    requires LoopState(c0, target0, keepRcQuantity, replicas, deployId, dstVersion, outcome, c, target, converger, Drained, h)
    requires MaxVersionRC(RcsOfDeployment(c, deployId), dstVersion) == Some(src)
    requires PlanGeneration(keepRcQuantity, replicas, Live(c, target.name), src.replicas) == ScaleTargetTo(n)
    requires outcome(|h|) == StepSucceeded
    ensures var record := Shift(c, src, Live(c, target.name), n);
      LoopState(c0, target0, keepRcQuantity, replicas, deployId, dstVersion, outcome,
                AfterShift(record, target.name), target.(replicas := n),
                Some(Converger(RollingUpdater(src.name, target.name), false)), Drained, h + [record])
  {
    var record := Shift(c, src, Live(c, target.name), n);
    var h' := h + [record];
    ExtendFollowsPlan(h, record, keepRcQuantity, replicas);
    ExtendStepsSucceeded(h, record, outcome);
    ExtendReplays(c0, target0.name, deployId, dstVersion, h, record);
    ShiftedCluster(record, target, deployId, dstVersion);
    assert h'[|h|] == record;
    assert h'[..|h'| - 1] == h;
    assert SumSources(h') == SumSources(h) + src.replicas;
  }

  /** The cluster a successful converger step leaves, as the migration loop
      sees it: the destination at the new count, names still identifying RCs. */
  lemma ShiftedCluster(s: Step, target: Rc, deployId: int, dstVersion: int)
    requires s.Shift? && Grounded(s, target.name, deployId, dstVersion) && TargetAt(s.before, target)
    ensures NamesIdentify(AfterShift(s, target.name))
    ensures TargetAt(AfterShift(s, target.name), target.(replicas := s.target))
    ensures AfterShift(s, target.name).secrets == s.before.secrets
    ensures Live(AfterShift(s, target.name), target.name) == s.target
  {
    AfterShiftInfo(s, target.name, deployId, dstVersion);
  }

  /** Before the first generation the loop's state holds with an empty history. */
  lemma LoopStarts(c0: Cluster, target0: Rc, keepRcQuantity: bool, replicas: int,
                   deployId: int, dstVersion: int, outcome: nat -> StepOutcome)
    requires NamesIdentify(c0) && TargetAt(c0, target0)
    ensures LoopState(c0, target0, keepRcQuantity, replicas, deployId, dstVersion, outcome, c0, target0, None, Drained, [])
  {
  }

  /** One turn of the migration loop: run the generation for the source RC
      selectMaxVersionRC picked, and record it. */
  method Advance(c0: Cluster, target0: Rc, keepRcQuantity: bool, replicas: int,
                 deployId: int, dstVersion: int, outcome: nat -> StepOutcome,
                 c: Cluster, target: Rc, converger: Option<Converger>, ghost h: seq<Step>, src: Rc, generation: nat)
    returns (c': Cluster, target': Rc, converger': Option<Converger>, end': LoopEnd, ghost h': seq<Step>)
    requires TargetAt(c0, target0) && generation == |h|
    requires target0.deployId == deployId && target0.version == dstVersion
    requires LoopState(c0, target0, keepRcQuantity, replicas, deployId, dstVersion, outcome, c, target, converger, Drained, h)
    requires MaxVersionRC(RcsOfDeployment(c, deployId), dstVersion) == Some(src)
    ensures LoopState(c0, target0, keepRcQuantity, replicas, deployId, dstVersion, outcome, c', target', converger', end', h')
    ensures var current := Live(c, target.name);
      var plan := PlanGeneration(keepRcQuantity, replicas, current, src.replicas);
      h' == h + [if plan.ScaleTargetTo? then Shift(c, src, current, plan.target) else Cutover(c, src, current)]
    ensures end'.Drained? ==> CandidateCount(c'.rcs, deployId, dstVersion) < CandidateCount(c.rcs, deployId, dstVersion)
  {
    ghost var current := Live(c, target.name);
    assert src in RcsOfDeployment(c, deployId);
    var step := outcome(generation);
    c', target', end' := Generation(c, target, src, keepRcQuantity, replicas, deployId, dstVersion, step);
    match end' {
      case CutOver =>
        CutOverKeepsLoopState(c0, target0, keepRcQuantity, replicas, deployId, dstVersion, outcome,
                              c, target, converger, h, src, c');
        h', converger' := h + [Cutover(c, src, current)], converger;
      case StepFailure(reason) =>
        StepFailureKeepsLoopState(c0, target0, keepRcQuantity, replicas, deployId, dstVersion, outcome,
                                  c, target, converger, h, src, target'.replicas, reason);
        h' := h + [Shift(c, src, current, target'.replicas)];
        converger' := Some(Converger(RollingUpdater(src.name, target'.name), false));
      case Drained =>
        StepSuccessKeepsLoopState(c0, target0, keepRcQuantity, replicas, deployId, dstVersion, outcome,
                                  c, target, converger, h, src, target'.replicas);
        h' := h + [Shift(c, src, current, target'.replicas)];
        converger' := Some(Converger(RollingUpdater(src.name, target'.name), false));
    }
  }

  /** The migration loop of the background task, over the cluster and the cached
      destination RC: while selectMaxVersionRC finds a source RC, run a
      generation; stop early on a cut-over or a failed converger step. */
  method MigrationLoop(c0: Cluster, target0: Rc, keepRcQuantity: bool, replicas: int,
                       deployId: int, dstVersion: int, outcome: nat -> StepOutcome)
    returns (c: Cluster, target: Rc, converger: Option<Converger>, end: LoopEnd, ghost h: seq<Step>)
    requires NamesIdentify(c0) && TargetAt(c0, target0)
    requires target0.deployId == deployId && target0.version == dstVersion
    ensures LoopState(c0, target0, keepRcQuantity, replicas, deployId, dstVersion, outcome, c, target, converger, end, h)
    ensures end.Drained? ==> MaxVersionRC(RcsOfDeployment(c, deployId), dstVersion).None?
  {
    c, target, converger, end, h := c0, target0, None, Drained, [];
    LoopStarts(c0, target0, keepRcQuantity, replicas, deployId, dstVersion, outcome);
    var rc := SelectMaxVersionRC(RcsOfDeployment(c, deployId), dstVersion);
    var generation: nat := 0;
    while end.Drained? && rc.Some?
      invariant generation == |h|
      invariant LoopState(c0, target0, keepRcQuantity, replicas, deployId, dstVersion, outcome, c, target, converger, end, h)
      invariant end.Drained? ==> rc == MaxVersionRC(RcsOfDeployment(c, deployId), dstVersion)
      decreases if end.Drained? then 1 else 0, CandidateCount(c.rcs, deployId, dstVersion)
    {
      c, target, converger, end, h :=
        Advance(c0, target0, keepRcQuantity, replicas, deployId, dstVersion, outcome, c, target, converger, h, rc.value, generation);
      generation := generation + 1;
      if end.Drained? {
        rc := SelectMaxVersionRC(RcsOfDeployment(c, deployId), dstVersion);
      }
    }
  }

  /** The after-loop step: the live count read first, the fixed-mode top-up, the
      wait budget derived from the count read before the top-up, and the wait. */
  ghost predicate Reconciled(c: Cluster, target: Rc, keepRcQuantity: bool, replicas: int, waitTrace: int -> seq<Poll>,
                             c': Cluster, fc: FinalCheck, waited: Result<(), Fault>)
    requires TargetAt(c, target)
    requires forall t :: TraceEnds(waitTrace(t), replicas, t)
  {
    && fc.liveBefore == Live(c, target.name)
    && fc.budget == WaitTimeoutMillis(fc.liveBefore)
    && (keepRcQuantity || fc.liveBefore >= replicas ==> c' == c)
    && (!keepRcQuantity && fc.liveBefore < replicas ==> c' == ScaleRc(c, target.name, replicas as nat))
    && TargetAt(c', target)
    && Live(c', target.name) == (if !keepRcQuantity && fc.liveBefore < replicas then replicas else fc.liveBefore)
    && waited == WaitOutcome(c', target.name, replicas, fc.budget, waitTrace(fc.budget))
  }

  /** The after-loop step of the background task over the cluster. */
  method FinalStep(c: Cluster, target: Rc, keepRcQuantity: bool, replicas: int,
                   deployId: int, dstVersion: int, waitTrace: int -> seq<Poll>)
    returns (c': Cluster, waited: Result<(), Fault>, ghost fc: FinalCheck)
    requires NamesIdentify(c) && TargetAt(c, target) && target.version == dstVersion
    requires MaxVersionRC(RcsOfDeployment(c, deployId), dstVersion).None?
    requires forall t :: TraceEnds(waitTrace(t), replicas, t)
    ensures NamesIdentify(c') && c'.secrets == c.secrets
    ensures MaxVersionRC(RcsOfDeployment(c', deployId), dstVersion).None?
    ensures Reconciled(c, target, keepRcQuantity, replicas, waitTrace, c', fc, waited)
  {
    var current := RcInfo(c, target.name).value.replicas;
    c' := c;
    if !keepRcQuantity && current < replicas {
      ScaleThenInfo(c, target.name, replicas as nat);
      ScaleKeepsNames(c, target.name, replicas as nat);
      TopUpKeepsNoCandidate(c, target.name, replicas as nat, deployId, dstVersion);
      c' := ScaleRc(c, target.name, replicas as nat);
    }
    var timeout := WaitTimeoutMillis(current);
    fc := FinalCheck(current, timeout);
    waited := WaitRCSuccess(c', target.name, replicas, timeout, waitTrace(timeout));
  }


  /** The part of the updater's state the background task writes after acquisition. */
  datatype RolloutState = RolloutState(cluster: Cluster, target: Rc, status: UpdateStatus,
                                       history: seq<Step>, finalCheck: Option<FinalCheck>)

  /** What the background task leaves behind once it has a destination RC in
      cluster `c0`: a terminal status, a history that replays from `c0` and
      followed the plan, and, depending on how the migration loop ended, the
      failed step's reason over the cluster that step found, the cut-over of
      the cluster it started from, or the final top-up and wait over the
      cluster the last step left. */
  ghost predicate RolloutRecorded(keepRcQuantity: bool, replicas: int, deployId: int, dstVersion: int,
                                  outcome: nat -> StepOutcome, waitTrace: int -> seq<Poll>,
                                  before: UpdateStatus, c0: Cluster, r: RolloutState)
    requires forall t :: TraceEnds(waitTrace(t), replicas, t)
  {
    && IsTerminal(r.status.phase)
    && HistoryRecorded(keepRcQuantity, replicas, deployId, dstVersion, outcome, c0, r.target, r.history)
    && StoppedEarly(keepRcQuantity, replicas, deployId, dstVersion, outcome, before, r)
    && (r.finalCheck.Some? ==> FinalRecorded(keepRcQuantity, replicas, deployId, dstVersion, waitTrace, before, c0, r))
  }

  /** The history replays from `c0`, where the destination RC stood, and followed the plan. */
  ghost predicate HistoryRecorded(keepRcQuantity: bool, replicas: int, deployId: int, dstVersion: int,
                                  outcome: nat -> StepOutcome, c0: Cluster, target: Rc, h: seq<Step>)
  {
    && TargetAt(c0, target)
    && FollowsPlan(h, keepRcQuantity, replicas) && StepsSucceeded(h, outcome, |h| - 1)
    && Replays(c0, target.name, deployId, dstVersion, h)
  }

  /** How a rollout whose migration loop stopped early ends. */
  ghost predicate StoppedEarly(keepRcQuantity: bool, replicas: int, deployId: int, dstVersion: int,
                               outcome: nat -> StepOutcome, before: UpdateStatus, r: RolloutState)
  {
    var RolloutState(c, target, s, h, fc) := r;
    // a failed converger step: its reason becomes the rollout's failure, nothing follows
    && (h != [] && h[|h| - 1].Shift? && outcome(|h| - 1).StepFailed? ==>
          s == before.FailedWith(outcome(|h| - 1).reason) && fc.None? && c == h[|h| - 1].before)
    // the hard cut-over: only in fixed mode, only last, deleteOtherRC applied to the cluster it found
    && (h != [] && h[|h| - 1].Cutover? ==>
          && !keepRcQuantity && h[|h| - 1].current >= replicas
          && s == before.Succeeded() && fc.None?
          && CutOverFrom(h[|h| - 1].before, c, deployId, dstVersion))
    && (fc.None? ==> h != [] && (h[|h| - 1].Cutover? || outcome(|h| - 1).StepFailed?))
    && (fc.Some? ==> StepsSucceeded(h, outcome, |h|))
  }

  /** No source RC left: the final top-up and wait over the cluster the last step left. */
  ghost predicate FinalRecorded(keepRcQuantity: bool, replicas: int, deployId: int, dstVersion: int, waitTrace: int -> seq<Poll>,
                                before: UpdateStatus, c0: Cluster, r: RolloutState)
    requires forall t :: TraceEnds(waitTrace(t), replicas, t)
    requires r.finalCheck.Some?
  {
    var RolloutState(c, target, s, h, fc) := r;
    var drained := Resumed(c0, h, target.name);
    var budget := fc.value.budget;
    && TargetAt(drained, target) && TargetAt(c, target) && TargetAt(c0, target)
    && fc.value.liveBefore == Live(drained, target.name)
    && budget == WaitTimeoutMillis(fc.value.liveBefore)
    && c == (if !keepRcQuantity && fc.value.liveBefore < replicas
             then ScaleRc(drained, target.name, replicas as nat) else drained)
    && MaxVersionRC(RcsOfDeployment(c, deployId), dstVersion).None?
    && (keepRcQuantity ==> fc.value.liveBefore == Live(c0, target.name) + SumSources(h))
    && Live(c, target.name) == (if !keepRcQuantity && fc.value.liveBefore < replicas then replicas else fc.value.liveBefore)
    && s == if WaitSucceeds(c, target.name, replicas, budget, waitTrace(budget))
            then before.Succeeded()
            else before.FailedWith(FailureReason(deployId, WaitOutcome(c, target.name, replicas, budget, waitTrace(budget)).error))
  }

  /** A loop that ended in the hard cut-over leaves a succeeded rollout. */
  lemma CutOverRecorded(c0: Cluster, target0: Rc, keepRcQuantity: bool, replicas: int, deployId: int, dstVersion: int,
                        outcome: nat -> StepOutcome, waitTrace: int -> seq<Poll>, before: UpdateStatus,
                        c: Cluster, target: Rc, converger: Option<Converger>, h: seq<Step>)
    requires TargetAt(c0, target0)
    requires LoopState(c0, target0, keepRcQuantity, replicas, deployId, dstVersion, outcome, c, target, converger, CutOver, h)
    requires forall t :: TraceEnds(waitTrace(t), replicas, t)
    ensures RolloutRecorded(keepRcQuantity, replicas, deployId, dstVersion, outcome, waitTrace,
                            before, c0, RolloutState(c, target, before.Succeeded(), h, None))
  {
    assert !h[|h| - 1].Shift?;
  }

  /** A loop that ended in a failed converger step leaves a rollout failed with that step's reason. */
  lemma StepFailureRecorded(c0: Cluster, target0: Rc, keepRcQuantity: bool, replicas: int, deployId: int, dstVersion: int,
                            outcome: nat -> StepOutcome, waitTrace: int -> seq<Poll>, before: UpdateStatus,
                            c: Cluster, target: Rc, converger: Option<Converger>, reason: string, h: seq<Step>)
    requires TargetAt(c0, target0)
    requires LoopState(c0, target0, keepRcQuantity, replicas, deployId, dstVersion, outcome, c, target, converger,
                       StepFailure(reason), h)
    requires forall t :: TraceEnds(waitTrace(t), replicas, t)
    ensures RolloutRecorded(keepRcQuantity, replicas, deployId, dstVersion, outcome, waitTrace,
                            before, c0, RolloutState(c, target, before.FailedWith(reason), h, None))
  {
    assert !h[|h| - 1].Cutover?;
  }

  /** A drained loop followed by the final step leaves the wait's verdict as the rollout's status. */
  lemma DrainedRecorded(c0: Cluster, target0: Rc, keepRcQuantity: bool, replicas: int, deployId: int, dstVersion: int,
                        outcome: nat -> StepOutcome, waitTrace: int -> seq<Poll>, before: UpdateStatus,
                        c: Cluster, target: Rc, converger: Option<Converger>, h: seq<Step>,
                        c': Cluster, waited: Result<(), Fault>, check: FinalCheck, s: UpdateStatus)
    requires TargetAt(c0, target0)
    requires LoopState(c0, target0, keepRcQuantity, replicas, deployId, dstVersion, outcome, c, target, converger, Drained, h)
    requires forall t :: TraceEnds(waitTrace(t), replicas, t)
    requires MaxVersionRC(RcsOfDeployment(c', deployId), dstVersion).None?
    requires Reconciled(c, target, keepRcQuantity, replicas, waitTrace, c', check, waited)
    requires s == if waited.Err? then before.FailedWith(FailureReason(deployId, waited.error)) else before.Succeeded()
    ensures RolloutRecorded(keepRcQuantity, replicas, deployId, dstVersion, outcome, waitTrace,
                            before, c0, RolloutState(c', target, s, h, Some(check)))
  {
    assert TargetAt(c0, target);
    DrainedFinal(c0, keepRcQuantity, replicas, deployId, dstVersion, waitTrace, before, c, target, h, c', waited, check, s);
    assert HistoryRecorded(keepRcQuantity, replicas, deployId, dstVersion, outcome, c0, target, h);
    assert StoppedEarly(keepRcQuantity, replicas, deployId, dstVersion, outcome, before, RolloutState(c', target, s, h, Some(check)));
  }

  /** The final top-up and wait, recorded over the cluster the last successful step left. */
  lemma DrainedFinal(c0: Cluster, keepRcQuantity: bool, replicas: int, deployId: int, dstVersion: int,
                     waitTrace: int -> seq<Poll>, before: UpdateStatus, c: Cluster, target: Rc, h: seq<Step>,
                     c': Cluster, waited: Result<(), Fault>, check: FinalCheck, s: UpdateStatus)
    requires TargetAt(c, target) && TargetAt(c0, target) && c == Resumed(c0, h, target.name)
    requires keepRcQuantity ==> Live(c, target.name) == Live(c0, target.name) + SumSources(h)
    requires forall t :: TraceEnds(waitTrace(t), replicas, t)
    requires MaxVersionRC(RcsOfDeployment(c', deployId), dstVersion).None?
    requires Reconciled(c, target, keepRcQuantity, replicas, waitTrace, c', check, waited)
    requires s == if waited.Err? then before.FailedWith(FailureReason(deployId, waited.error)) else before.Succeeded()
    ensures FinalRecorded(keepRcQuantity, replicas, deployId, dstVersion, waitTrace, before, c0,
                          RolloutState(c', target, s, h, Some(check)))
  {
    assert waited == WaitOutcome(c', target.name, replicas, check.budget, waitTrace(check.budget));
  }

  /** How the background task concludes once the migration loop has ended:
      a cut-over succeeds, a failed step fails with its reason, and a drained
      loop goes on to the final top-up and wait. */
  method Conclude(c0: Cluster, target0: Rc, keepRcQuantity: bool, replicas: int, deployId: int, dstVersion: int,
                  outcome: nat -> StepOutcome, waitTrace: int -> seq<Poll>, before: UpdateStatus,
                  c: Cluster, target: Rc, converger: Option<Converger>, end: LoopEnd, ghost h: seq<Step>)
    returns (c': Cluster, s: UpdateStatus, ghost fc: Option<FinalCheck>)
    requires TargetAt(c0, target0) && target0.deployId == deployId && target0.version == dstVersion
    requires LoopState(c0, target0, keepRcQuantity, replicas, deployId, dstVersion, outcome, c, target, converger, end, h)
    requires end.Drained? ==> MaxVersionRC(RcsOfDeployment(c, deployId), dstVersion).None?
    requires forall t :: TraceEnds(waitTrace(t), replicas, t)
    ensures NamesIdentify(c') && TargetAt(c', target)
    ensures RolloutRecorded(keepRcQuantity, replicas, deployId, dstVersion, outcome, waitTrace,
                            before, c0, RolloutState(c', target, s, h, fc))
  {
    match end {
      case CutOver =>
        CutOverRecorded(c0, target0, keepRcQuantity, replicas, deployId, dstVersion, outcome, waitTrace, before,
                        c, target, converger, h);
        c', s, fc := c, before.Succeeded(), None;
      case StepFailure(reason) =>
        StepFailureRecorded(c0, target0, keepRcQuantity, replicas, deployId, dstVersion, outcome, waitTrace, before,
                            c, target, converger, reason, h);
        c', s, fc := c, before.FailedWith(reason), None;
      case Drained =>
        var waited;
        ghost var check;
        c', waited, check := FinalStep(c, target, keepRcQuantity, replicas, deployId, dstVersion, waitTrace);
        if waited.Err? {
          s := before.FailedWith(FailureReason(deployId, waited.error));
        } else {
          s := before.Succeeded();
        }
        DrainedRecorded(c0, target0, keepRcQuantity, replicas, deployId, dstVersion, outcome, waitTrace, before,
                        c, target, converger, h, c', waited, check, s);
        fc := Some(check);
    }
  }

  /** The background task after target acquisition, over the cluster: the
      migration loop, then its conclusion. */
  method Rollout(c0: Cluster, target0: Rc, keepRcQuantity: bool, replicas: int, deployId: int, dstVersion: int,
                 outcome: nat -> StepOutcome, waitTrace: int -> seq<Poll>, before: UpdateStatus)
    returns (c: Cluster, target: Rc, converger: Option<Converger>, s: UpdateStatus,
             ghost h: seq<Step>, ghost fc: Option<FinalCheck>)
    requires NamesIdentify(c0) && TargetAt(c0, target0) && target0.deployId == deployId && target0.version == dstVersion
    requires forall t :: TraceEnds(waitTrace(t), replicas, t)
    ensures NamesIdentify(c) && target == target0.(replicas := target.replicas)
    ensures RolloutRecorded(keepRcQuantity, replicas, deployId, dstVersion, outcome, waitTrace,
                            before, c0, RolloutState(c, target, s, h, fc))
  {
    var end;
    c, target, converger, end, h := MigrationLoop(c0, target0, keepRcQuantity, replicas, deployId, dstVersion, outcome);
    c, s, fc := Conclude(c0, target0, keepRcQuantity, replicas, deployId, dstVersion,
                         outcome, waitTrace, before, c, target, converger, end, h);
  }

  /** In fixed mode the destination RC never holds more than `replicas` at the
      start of a later generation, and a rollout that drained at least one
      source RC and reached the final step leaves exactly `replicas`. */
  lemma FixedModeNeverOvershoots(replicas: int, deployId: int, dstVersion: int, outcome: nat -> StepOutcome,
                                 waitTrace: int -> seq<Poll>, before: UpdateStatus, c0: Cluster, r: RolloutState)
    requires forall t :: TraceEnds(waitTrace(t), replicas, t)
    requires RolloutRecorded(false, replicas, deployId, dstVersion, outcome, waitTrace, before, c0, r)
    ensures forall k :: 1 <= k < |r.history| ==>
      RcInfo(r.history[k].before, r.target.name).Some? && RcInfo(r.history[k].before, r.target.name).value.replicas <= replicas
    ensures r.finalCheck.Some? && r.history != [] ==>
      RcInfo(r.cluster, r.target.name).Some? && RcInfo(r.cluster, r.target.name).value.replicas == replicas
  {
    var h, name := r.history, r.target.name;
    forall k | 1 <= k < |h|
      ensures RcInfo(h[k].before, name).Some? && RcInfo(h[k].before, name).value.replicas <= replicas
    {
      ReplaysPlannedHandOver(c0, name, deployId, dstVersion, false, replicas, h, k - 1);
    }
    if r.finalCheck.Some? && h != [] {
      var last := h[|h| - 1];
      assert last.Shift?;
      ResumedLive(c0, name, deployId, dstVersion, h);
      assert PlannedAt(h, |h| - 1, false, replicas);
    }
  }

  /** Generation k moved all of its source RC's replicas: at the start of
      generation k + 1 the source is drained and the destination has grown by
      exactly the source's count. */
  ghost predicate MovedAll(h: seq<Step>, k: int, targetName: string)
    requires 0 <= k < |h| - 1
  {
    && RcInfo(h[k].before, targetName).Some? && RcInfo(h[k + 1].before, targetName).Some?
    && Live(h[k + 1].before, targetName) == Live(h[k].before, targetName) + h[k].source.replicas
    && RcInfo(h[k + 1].before, h[k].source.name) == Some(h[k].source.(replicas := 0))
  }

  /** In keep-quantity mode every generation followed by another moved all of
      its source RC's replicas over to the destination RC. */
  lemma KeepModeMovesAll(replicas: int, deployId: int, dstVersion: int, outcome: nat -> StepOutcome,
                         waitTrace: int -> seq<Poll>, before: UpdateStatus, c0: Cluster, r: RolloutState)
    requires forall t :: TraceEnds(waitTrace(t), replicas, t)
    requires RolloutRecorded(true, replicas, deployId, dstVersion, outcome, waitTrace, before, c0, r)
    ensures forall k :: 0 <= k < |r.history| - 1 ==> MovedAll(r.history, k, r.target.name)
  {
    var h, name := r.history, r.target.name;
    forall k | 0 <= k < |h| - 1 ensures MovedAll(h, k, name) {
      ReplaysPlannedHandOver(c0, name, deployId, dstVersion, true, replicas, h, k);
    }
  }

  /** Target acquisition, the first part of the background task: with no RC of
      the destination version, the pull secret is created when needed and the
      built RC is created with 0 replicas; exactly one is adopted with a cached
      count of 0; more than one fails the rollout at once. */
  ghost predicate Acquisition(c: Cluster, built: Rc, s: UpdateStatus, deployment: Deployment, version: Version,
                              secretNamePrefix: string, ok: bool, c': Cluster, target: Rc, s': UpdateStatus)
  {
    var matches := RcsOfVersion(c, deployment.id, version.version);
    && (|matches| > 1 ==>
          && !ok && c' == c && target == built
          && s' == s.FailedWith(AmbiguousTargetMessage(deployment.id, version.version)))
    && (|matches| == 1 ==> ok && target == matches[0].(replicas := 0) && c' == c)
    && (|matches| == 0 ==>
          var secret := SecretName(secretNamePrefix, deployment.namespace);
          var withSecret := if version.usesDomeOSRegistry && secret !in c.secrets then CreateSecret(c, secret) else c;
          var created := CreateRc(withSecret, built.(replicas := 0));
          && (created.Ok? ==> ok && c' == created.value && target == built.(replicas := 0))
          && (created.Err? ==>
                && !ok && c' == withSecret && target == built.(replicas := 0)
                && s' == s.FailedWith(FailureReason(deployment.id, KubernetesFault(created.error)))))
  }

  /** Whether target acquisition yields a destination RC: exactly one RC of the
      destination version exists, or none does and creating the built RC succeeds. */
  ghost predicate AcquisitionSucceeds(c: Cluster, built: Rc, deployment: Deployment, version: Version,
                                      secretNamePrefix: string)
  {
    var matches := RcsOfVersion(c, deployment.id, version.version);
    var secret := SecretName(secretNamePrefix, deployment.namespace);
    var withSecret := if version.usesDomeOSRegistry && secret !in c.secrets then CreateSecret(c, secret) else c;
    |matches| == 1 || (|matches| == 0 && CreateRc(withSecret, built.(replicas := 0)).Ok?)
  }

  /** Acquisition fails fast when the destination version is ambiguous. */
  lemma AmbiguityFailsAcquisition(c: Cluster, built: Rc, deployment: Deployment, version: Version,
                                  secretNamePrefix: string)
    requires |RcsOfVersion(c, deployment.id, version.version)| > 1
    ensures !AcquisitionSucceeds(c, built, deployment, version, secretNamePrefix)
  {
  }

  /** Target acquisition over the cluster: list the RCs of the destination
      version; with none, create the pull secret if the version's image lives in
      the DomeOS registry and the secret is missing, then create the built RC
      with 0 replicas; adopt a single one with a cached count of 0; fail on more. */
  method Acquire(c: Cluster, built: Rc, s: UpdateStatus, deployment: Deployment, version: Version, secretNamePrefix: string)
    returns (ok: bool, c': Cluster, target: Rc, s': UpdateStatus)
    requires NamesIdentify(c) && built.deployId == deployment.id && built.version == version.version
    ensures NamesIdentify(c') && target.deployId == built.deployId && target.version == built.version
    ensures Acquisition(c, built, s, deployment, version, secretNamePrefix, ok, c', target, s')
    ensures ok <==> AcquisitionSucceeds(c, built, deployment, version, secretNamePrefix)
    ensures ok ==> TargetAt(c', target) && target.replicas == 0 && s' == s
    ensures !ok ==> IsTerminal(s'.phase)
  {
    c', target, s' := c, built, s;
    var targetRCList := RcsOfVersion(c', deployment.id, version.version);
    if |targetRCList| == 0 {
      if version.usesDomeOSRegistry {
        var secret := SecretName(secretNamePrefix, deployment.namespace);
        if secret !in c'.secrets {
          c' := CreateSecret(c', secret);
        }
      }
      var newRc := built.(replicas := 0);
      var created := CreateRc(c', newRc);
      if created.Err? {
        s' := s.FailedWith(FailureReason(deployment.id, KubernetesFault(created.error)));
        return false, c', newRc, s';
      }
      CreateThenInfo(c', newRc);
      return true, created.value, newRc, s';
    } else if |targetRCList| != 1 {
      s' := s.FailedWith(AmbiguousTargetMessage(deployment.id, version.version));
      return false, c', target, s';
    } else {
      assert targetRCList[0] in targetRCList;
      return true, c', targetRCList[0].(replicas := 0), s';
    }
  }

  class DeploymentUpdater {
    const hasClient: bool
    const deployment: Option<Deployment>
    const dstVersion: Option<Version>
    const keepRcQuantity: bool
    const replicas: int
    const secretNamePrefix: string

    var status: UpdateStatus
    var rcUpdater: Option<Converger>
    var future: Option<TaskHandle>
    var rcSelector: Option<int>
    var targetRC: Rc
    var cluster: Cluster

    ghost var tasksSubmitted: nat
    ghost var history: seq<Step>
    ghost var acquiredCluster: Cluster
    ghost var acquiredTarget: Rc
    ghost var acquiredStatus: UpdateStatus
    ghost var finalCheck: Option<FinalCheck>
    ghost var targetAcquired: bool

    ghost predicate Valid()
      reads this
    {
      && NamesIdentify(cluster)
      && (deployment.Some? ==> targetRC.deployId == deployment.value.id)
      && (dstVersion.Some? ==> targetRC.version == dstVersion.value.version)
      && (keepRcQuantity ==> replicas == 0)
      && tasksSubmitted == (if future.Some? then 1 else 0)
      && (future.Some? ==> status.phase != Unknown)
    }

    /** The destination RC exists in the cluster under the cached name and labels. */
    ghost predicate TargetInCluster()
      reads this
    {
      TargetAt(cluster, targetRC)
    }

    /** The constructors without a replica count: keep the old total (replicas stays 0). */
    constructor KeepQuantity(client: bool, deployment: Option<Deployment>, version: Option<Version>,
                             built: Rc, cluster: Cluster, secretNamePrefix: string)
      requires NamesIdentify(cluster)
      requires deployment.Some? ==> built.deployId == deployment.value.id
      requires version.Some? ==> built.version == version.value.version
      ensures Valid()
      ensures keepRcQuantity && replicas == 0
      ensures status == InitialStatus && rcUpdater == Some(Converger(EmptyUpdater, false))
      ensures future == None && rcSelector == None && targetRC == built && this.cluster == cluster
      ensures hasClient == client && this.deployment == deployment && dstVersion == version
    {
      hasClient, this.deployment, dstVersion := client, deployment, version;
      keepRcQuantity, replicas, this.secretNamePrefix := true, 0, secretNamePrefix;
      status := InitialStatus;
      rcUpdater := Some(Converger(EmptyUpdater, false));
      future, rcSelector := None, None;
      targetRC, this.cluster := built, cluster;
      tasksSubmitted, history, acquiredCluster, finalCheck, targetAcquired := 0, [], cluster, None, false;
      acquiredTarget, acquiredStatus := built, InitialStatus;
    }

    /** The constructors with a fixed replica count. */
    constructor FixedReplicas(client: bool, deployment: Option<Deployment>, version: Option<Version>,
                              replicas: int, built: Rc, cluster: Cluster, secretNamePrefix: string)
      requires NamesIdentify(cluster)
      requires deployment.Some? ==> built.deployId == deployment.value.id
      requires version.Some? ==> built.version == version.value.version
      ensures Valid()
      ensures !keepRcQuantity && this.replicas == replicas
      ensures status == InitialStatus && rcUpdater == Some(Converger(EmptyUpdater, false))
      ensures future == None && rcSelector == None && targetRC == built && this.cluster == cluster
      ensures hasClient == client && this.deployment == deployment && dstVersion == version
    {
      hasClient, this.deployment, dstVersion := client, deployment, version;
      keepRcQuantity, this.replicas, this.secretNamePrefix := false, replicas, secretNamePrefix;
      status := InitialStatus;
      rcUpdater := Some(Converger(EmptyUpdater, false));
      future, rcSelector := None, None;
      targetRC, this.cluster := built, cluster;
      tasksSubmitted, history, acquiredCluster, finalCheck, targetAcquired := 0, [], cluster, None, false;
      acquiredTarget, acquiredStatus := built, InitialStatus;
    }

    /** start: refuse a missing collaborator silently, fail a second start, and
        otherwise enter Running and submit exactly one background task. */
    method Start()
      requires Valid()
      modifies this
      ensures Valid()
      ensures !hasClient || deployment.None? || dstVersion.None? ==> unchanged(this)
      ensures hasClient && deployment.Some? && dstVersion.Some? && old(status.phase) != Unknown ==>
        && status == old(status).FailedWith(DoubleStartMessage(deployment.value.id, dstVersion.value.version))
        && future == old(future) && tasksSubmitted == old(tasksSubmitted) && rcSelector == old(rcSelector)
        && unchanged(this`cluster, this`targetRC, this`rcUpdater, this`history)
      ensures hasClient && deployment.Some? && dstVersion.Some? && old(status.phase) == Unknown ==>
        && status == old(status).Started()
        && rcSelector == Some(deployment.value.id)
        && old(future) == None && future == Some(Pending) && tasksSubmitted == old(tasksSubmitted) + 1
        && unchanged(this`cluster, this`targetRC, this`rcUpdater, this`history)
    {
      if !hasClient || deployment.None? || dstVersion.None? {
        return;
      }
      if status.phase != Unknown {
        status := status.FailedWith(DoubleStartMessage(deployment.value.id, dstVersion.value.version));
        return;
      }
      status := status.Started();
      rcSelector := Some(deployment.value.id);
      future := Some(Pending);
      tasksSubmitted := tasksSubmitted + 1;
    }

    /** stop: close and drop the active converger, then cancel a task that is
        still pending. Safe in every state. */
    method Stop()
      requires Valid()
      modifies this`rcUpdater, this`future
      ensures Valid()
      ensures rcUpdater == None
      ensures future == if old(future) == Some(Pending) then Some(Cancelled) else old(future)
    {
      if rcUpdater.Some? {
        rcUpdater := None;
      }
      if !(future.None? || future.value.Cancelled?) {
        if future.value.Pending? {
          future := Some(Cancelled);
        }
      }
    }

    /** close: close the active converger but keep pointing to it. */
    method Close()
      modifies this`rcUpdater
      ensures rcUpdater == if old(rcUpdater).Some? then Some(old(rcUpdater).value.(closed := true)) else None
    {
      if rcUpdater.Some? {
        rcUpdater := Some(rcUpdater.value.(closed := true));
      }
    }

    /** getStatus: self-heal a finished task's non-terminal phase, then hand out a copy. */
    method GetStatus() returns (s: UpdateStatus)
      requires Valid()
      modifies this`status
      ensures Valid()
      ensures status == HealedStatus(old(status), future.Some? && future.value.IsDone())
      ensures s == status
    {
      if future.Some? && future.value.IsDone() && status.phase != Failed && status.phase != Succeed {
        status := status.FailedWith(ExecutorTerminatedMessage);
      }
      s := status;
    }

    /** checkStatus: when the cached destination count is positive, wait up to
        five minutes for it; success marks Succeed, any failure is only logged. */
    method CheckStatus(polls: seq<Poll>) returns (ok: bool)
      requires TraceEnds(polls, replicas, FiveMinutesMillis)
      modifies this`status
      ensures ok <==> targetRC.replicas > 0 && WaitSucceeds(cluster, targetRC.name, replicas, FiveMinutesMillis, polls)
      ensures status == if ok then old(status).Succeeded() else old(status)
    {
      ok := false;
      if targetRC.replicas > 0 {
        var waited := WaitRCSuccess(cluster, targetRC.name, replicas, 5 * 60 * 1000, polls);
        if waited.Ok? {
          status := status.Succeeded();
          ok := true;
        }
      }
    }

    /** Target acquisition, the first part of the background task, on the fields. */
    method AcquireTarget() returns (ok: bool)
      requires Valid() && deployment.Some? && dstVersion.Some?
      modifies this`targetRC, this`cluster, this`status, this`targetAcquired, this`acquiredCluster,
               this`acquiredTarget, this`acquiredStatus
      ensures targetAcquired == ok
      ensures Acquisition(old(cluster), old(targetRC), old(status), deployment.value, dstVersion.value, secretNamePrefix,
                          ok, acquiredCluster, acquiredTarget, acquiredStatus)
      ensures acquiredCluster == cluster && acquiredTarget == targetRC && acquiredStatus == status
      ensures ok <==> AcquisitionSucceeds(old(cluster), old(targetRC), deployment.value, dstVersion.value, secretNamePrefix)
      ensures ok ==> TargetInCluster() && targetRC.replicas == 0 && status == old(status)
      ensures !ok ==> IsTerminal(status.phase)
      ensures Valid()
    {
      var c, target, s;
      ok, c, target, s := Acquire(cluster, targetRC, status, deployment.value, dstVersion.value, secretNamePrefix);
      Record(ok, c, target, s);
    }

    /** Stores what target acquisition decided in the fields. */
    method Record(ok: bool, c: Cluster, target: Rc, s: UpdateStatus)
      requires Valid() && NamesIdentify(c)
      requires deployment.Some? ==> target.deployId == deployment.value.id
      requires dstVersion.Some? ==> target.version == dstVersion.value.version
      requires future.Some? ==> s.phase != Unknown
      modifies this`targetRC, this`cluster, this`status, this`targetAcquired, this`acquiredCluster,
               this`acquiredTarget, this`acquiredStatus
      ensures cluster == c && targetRC == target && status == s && targetAcquired == ok
      ensures acquiredCluster == c && acquiredTarget == target && acquiredStatus == s
      ensures Valid()
    {
      cluster, targetRC, status, targetAcquired := c, target, s, ok;
      acquiredCluster, acquiredTarget, acquiredStatus := c, target, s;
    }

    /** The background task once acquisition has decided: with a destination
        RC, the migration loop, then the status it calls for, or the final
        top-up and wait; without one, finish at once. */
    method Drive(acquired: bool, outcome: nat -> StepOutcome, waitTrace: int -> seq<Poll>)
      requires Valid() && deployment.Some? && dstVersion.Some? && targetAcquired == acquired
      requires rcSelector == Some(deployment.value.id) && future.Some?
      requires forall t :: TraceEnds(waitTrace(t), replicas, t)
      requires acquiredCluster == cluster && acquiredTarget == targetRC && acquiredStatus == status
      requires acquired ==> TargetInCluster()
      requires !acquired ==> IsTerminal(status.phase)
      modifies this`history, this`finalCheck, this`cluster, this`targetRC, this`status, this`rcUpdater, this`future
      ensures !acquired ==> history == [] && finalCheck.None?
      ensures !acquired ==> cluster == acquiredCluster && targetRC == acquiredTarget && status == acquiredStatus
      ensures acquired ==>
        RolloutRecorded(keepRcQuantity, replicas, deployment.value.id, dstVersion.value.version, outcome, waitTrace,
                        acquiredStatus, acquiredCluster, RolloutState(cluster, targetRC, status, history, finalCheck))
      ensures future == Some(Completed)
      ensures IsTerminal(status.phase)
      ensures Valid()
    {
      if !acquired {
        history, finalCheck, future := [], None, Some(Completed);
        return;
      }
      var c, target, converger, s;
      ghost var h, fc;
      c, target, converger, s, h, fc := Rollout(cluster, targetRC, keepRcQuantity, replicas, deployment.value.id,
                                                dstVersion.value.version, outcome, waitTrace, status);
      ghost var r, c0, s0 := RolloutState(c, target, s, h, fc), acquiredCluster, status;
      assert RolloutRecorded(keepRcQuantity, replicas, deployment.value.id, dstVersion.value.version, outcome, waitTrace,
                             s0, c0, r);
      Complete(c, target, s, h, fc, converger);
    }

    /** Stores what the background task leaves behind in the fields and marks the task complete. */
    method Complete(c: Cluster, target: Rc, s: UpdateStatus, ghost h: seq<Step>, ghost fc: Option<FinalCheck>,
                    converger: Option<Converger>)
      requires Valid() && future.Some? && NamesIdentify(c) && s.phase != Unknown
      requires deployment.Some? ==> target.deployId == deployment.value.id
      requires dstVersion.Some? ==> target.version == dstVersion.value.version
      modifies this`history, this`finalCheck, this`cluster, this`targetRC, this`status, this`rcUpdater, this`future
      ensures cluster == c && targetRC == target && status == s && history == h && finalCheck == fc
      ensures rcUpdater == if converger.Some? then converger else old(rcUpdater)
      ensures future == Some(Completed)
      ensures Valid()
    {
      cluster, targetRC, status, history, finalCheck := c, target, s, h, fc;
      rcUpdater := if converger.Some? then converger else rcUpdater;
      future := Some(Completed);
    }

    /** UpdateDeployment.run, executed once by the worker pool for the submitted
        task. `outcome(k)` is how the converger step of generation k ends;
        `waitTrace(t)` is what the readiness poll observes with a budget of t ms. */
    method Run(outcome: nat -> StepOutcome, waitTrace: int -> seq<Poll>)
      requires Valid() && deployment.Some? && dstVersion.Some?
      requires rcSelector == Some(deployment.value.id) && future == Some(Pending)
      requires forall t :: TraceEnds(waitTrace(t), replicas, t)
      modifies this`history, this`finalCheck, this`targetAcquired, this`acquiredCluster, this`acquiredTarget,
               this`acquiredStatus, this`cluster, this`targetRC, this`status, this`rcUpdater, this`future
      // acquisition as Acquisition relates it to the fields the task began with
      ensures Acquisition(old(cluster), old(targetRC), old(status), deployment.value, dstVersion.value, secretNamePrefix,
                          targetAcquired, acquiredCluster, acquiredTarget, acquiredStatus)
      // the destination RC is found or created exactly when acquisition can succeed
      ensures targetAcquired <==>
        AcquisitionSucceeds(old(cluster), old(targetRC), deployment.value, dstVersion.value, secretNamePrefix)
      ensures !targetAcquired ==> history == [] && finalCheck.None? && IsTerminal(status.phase)
      ensures !targetAcquired ==> cluster == acquiredCluster && targetRC == acquiredTarget && status == acquiredStatus
      ensures targetAcquired ==> acquiredStatus == old(status)
      ensures targetAcquired ==>
        RolloutRecorded(keepRcQuantity, replicas, deployment.value.id, dstVersion.value.version, outcome, waitTrace,
                        acquiredStatus, acquiredCluster, RolloutState(cluster, targetRC, status, history, finalCheck))
      ensures future == Some(Completed)
      ensures IsTerminal(status.phase)
      ensures Valid()
    {
      var acquired := AcquireTarget();
      Drive(acquired, outcome, waitTrace);
    }
  }
}
