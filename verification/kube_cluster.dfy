/** The Kubernetes cluster as the rollout sees it through its client: replication
    controllers (RCs), pods and secrets, with the client's list, read, create,
    scale and delete calls as functions from one cluster state to the next. */
module KubeCluster {
  import opened JavaText

  /** A replication controller: its name, the deployment-id and version labels
      (the version label parsed back to a number) and its desired replica count. */
  datatype Rc = Rc(name: string, deployId: int, version: int, replicas: nat)

  /** A pod carries the labels of the RC that created it and whether it is ready. */
  datatype Pod = Pod(name: string, deployId: int, version: int, ready: bool)

  datatype Cluster = Cluster(rcs: seq<Rc>, pods: seq<Pod>, secrets: set<string>)

  /** Within a namespace a name identifies one RC and one pod: looking a listed
      object up by its own name finds that very object. */
  ghost predicate NamesIdentify(c: Cluster) {
    && (forall rc :: rc in c.rcs ==> FindRc(c.rcs, rc.name) == Some(rc))
    && (forall p :: p in c.pods ==> FindPod(c.pods, p.name) == Some(p))
  }

  /** Two listed RCs with one name are the same RC. */
  lemma SameNameSameRc(c: Cluster, a: Rc, b: Rc)
    requires NamesIdentify(c) && a in c.rcs && b in c.rcs && a.name == b.name
    ensures a == b
  {
  }

  /** Removing objects keeps names identifying the rest. */
  lemma SubClusterKeepsNames(c: Cluster, d: Cluster)
    requires NamesIdentify(c)
    requires forall rc :: rc in d.rcs ==> rc in c.rcs
    requires forall p :: p in d.pods ==> p in c.pods
    ensures NamesIdentify(d)
  {
    forall rc | rc in d.rcs ensures FindRc(d.rcs, rc.name) == Some(rc) {
      var v := FindRc(d.rcs, rc.name).value;
      assert FindRc(c.rcs, v.name) == Some(v);
    }
    forall p | p in d.pods ensures FindPod(d.pods, p.name) == Some(p) {
      var v := FindPod(d.pods, p.name).value;
      assert FindPod(c.pods, v.name) == Some(v);
    }
  }

  /** The RC's pod selector (its deployment-id and version labels) matches the pod. */
  predicate Selects(rc: Rc, p: Pod) {
    p.deployId == rc.deployId && p.version == rc.version
  }

  /** listReplicationController with the selector {deployId}. */
  function RcsOfDeployment(c: Cluster, deployId: int): (r: seq<Rc>)
    ensures forall rc :: rc in r <==> rc in c.rcs && rc.deployId == deployId
  {
    Filter(c.rcs, (rc: Rc) => rc.deployId == deployId)
  }

  /** listReplicationController with the selector {deployId, version}. */
  function RcsOfVersion(c: Cluster, deployId: int, version: int): (r: seq<Rc>)
    ensures forall rc :: rc in r <==> rc in c.rcs && rc.deployId == deployId && rc.version == version
  {
    Filter(c.rcs, (rc: Rc) => rc.deployId == deployId && rc.version == version)
  }

  /** listPod with the pod selector of `rc`. */
  function PodsOf(c: Cluster, rc: Rc): (r: seq<Pod>)
    ensures forall p :: p in r <==> p in c.pods && Selects(rc, p)
  {
    Filter(c.pods, (p: Pod) => Selects(rc, p))
  }

  function FindRc(rcs: seq<Rc>, name: string): (r: Option<Rc>)
    ensures r.None? ==> forall rc :: rc in rcs ==> rc.name != name
    ensures r.Some? ==> r.value in rcs && r.value.name == name
  {
    if rcs == [] then None
    else if rcs[0].name == name then Some(rcs[0])
    else FindRc(rcs[1..], name)
  }

  function FindPod(pods: seq<Pod>, name: string): (r: Option<Pod>)
    ensures r.None? ==> forall p :: p in pods ==> p.name != name
    ensures r.Some? ==> r.value in pods && r.value.name == name
  {
    if pods == [] then None
    else if pods[0].name == name then Some(pods[0])
    else FindPod(pods[1..], name)
  }

  /** A lookup in a longer list finds what the prefix holds, if anything. */
  lemma {:induction false} FindRcAppend(a: seq<Rc>, b: seq<Rc>, name: string)
    ensures FindRc(a + b, name) == if FindRc(a, name).Some? then FindRc(a, name) else FindRc(b, name)
    decreases |a|
  {
    if a == [] {
      assert a + b == b;
    } else {
      assert (a + b)[1..] == a[1..] + b;
      FindRcAppend(a[1..], b, name);
    }
  }

  /** replicationControllerInfo: the RC of that name, or null. */
  function RcInfo(c: Cluster, name: string): Option<Rc> {
    FindRc(c.rcs, name)
  }

  /** createReplicationController: the API server refuses a name already taken. */
  function CreateRc(c: Cluster, rc: Rc): (r: Result<Cluster, string>)
    ensures r.Err? <==> exists other :: other in c.rcs && other.name == rc.name
    ensures r.Ok? ==> r.value == c.(rcs := c.rcs + [rc])
  {
    if FindRc(c.rcs, rc.name).Some? then
      Err("replicationcontrollers \"" + rc.name + "\" already exists")
    else
      Ok(c.(rcs := c.rcs + [rc]))
  }

  /** scaleReplicationController: the RC of that name gets desired count `n`. */
  function ScaleRc(c: Cluster, name: string, n: nat): (r: Cluster)
    ensures |r.rcs| == |c.rcs| && r.pods == c.pods && r.secrets == c.secrets
    ensures forall i :: 0 <= i < |c.rcs| ==>
      r.rcs[i] == if c.rcs[i].name == name then c.rcs[i].(replicas := n) else c.rcs[i]
  {
    c.(rcs := seq(|c.rcs|, i requires 0 <= i < |c.rcs| =>
                    if c.rcs[i].name == name then c.rcs[i].(replicas := n) else c.rcs[i]))
  }

  /** deleteReplicationController by name. */
  function DeleteRc(c: Cluster, name: string): (r: Cluster)
    ensures forall rc :: rc in r.rcs <==> rc in c.rcs && rc.name != name
    ensures r.pods == c.pods && r.secrets == c.secrets
  {
    c.(rcs := Filter(c.rcs, (rc: Rc) => rc.name != name))
  }

  /** deletePod by name. */
  function DeletePod(c: Cluster, name: string): (r: Cluster)
    ensures forall p :: p in r.pods <==> p in c.pods && p.name != name
    ensures r.rcs == c.rcs && r.secrets == c.secrets
  {
    c.(pods := Filter(c.pods, (p: Pod) => p.name != name))
  }

  /** createSecret: the named pull secret now exists. */
  function CreateSecret(c: Cluster, name: string): (r: Cluster)
    ensures r.secrets == c.secrets + {name} && r.rcs == c.rcs && r.pods == c.pods
  {
    c.(secrets := c.secrets + {name})
  }

  /** A created RC is found under its name, and names still identify RCs. */
  lemma CreateThenInfo(c: Cluster, rc: Rc)
    requires NamesIdentify(c) && CreateRc(c, rc).Ok?
    ensures NamesIdentify(CreateRc(c, rc).value)
    ensures RcInfo(CreateRc(c, rc).value, rc.name) == Some(rc)
  {
    var r := CreateRc(c, rc).value;
    FindRcAppend(c.rcs, [rc], rc.name);
    forall x | x in r.rcs ensures FindRc(r.rcs, x.name) == Some(x) {
      FindRcAppend(c.rcs, [rc], x.name);
      if x != rc {
        assert x in c.rcs;
      }
    }
  }

  /** Scaling keeps every name, label and index, so names still identify RCs. */
  lemma ScaleKeepsNames(c: Cluster, name: string, n: nat)
    requires NamesIdentify(c)
    ensures NamesIdentify(ScaleRc(c, name, n))
  {
    var r := ScaleRc(c, name, n);
    forall x | x in r.rcs ensures FindRc(r.rcs, x.name) == Some(x) {
      var i :| 0 <= i < |r.rcs| && r.rcs[i] == x;
      assert c.rcs[i] in c.rcs;
      if c.rcs[i].name == name {
        ScaleThenFind(c.rcs, r.rcs, name, n);
      } else {
        ScaleOtherFind(c.rcs, r.rcs, name, x.name, n);
      }
    }
  }

  /** After a scale the RC of that name reports the new count. */
  lemma ScaleThenInfo(c: Cluster, name: string, n: nat)
    requires RcInfo(c, name).Some?
    ensures RcInfo(ScaleRc(c, name, n), name) == Some(RcInfo(c, name).value.(replicas := n))
  {
    ScaleThenFind(c.rcs, ScaleRc(c, name, n).rcs, name, n);
  }

  /** After a scale every other name reports what it did before. */
  lemma ScaleOtherInfo(c: Cluster, name: string, other: string, n: nat)
    requires other != name
    ensures RcInfo(ScaleRc(c, name, n), other) == RcInfo(c, other)
  {
    ScaleOtherFind(c.rcs, ScaleRc(c, name, n).rcs, name, other, n);
  }

  lemma {:induction false} ScaleThenFind(rcs: seq<Rc>, scaled: seq<Rc>, name: string, n: nat)
    requires FindRc(rcs, name).Some?
    requires |scaled| == |rcs|
    requires forall i :: 0 <= i < |rcs| ==>
      scaled[i] == if rcs[i].name == name then rcs[i].(replicas := n) else rcs[i]
    ensures FindRc(scaled, name) == Some(FindRc(rcs, name).value.(replicas := n))
    decreases |rcs|
  {
    if rcs[0].name != name {
      ScaleThenFind(rcs[1..], scaled[1..], name, n);
    }
  }

  /** Scaling one RC leaves what every other name reports unchanged. */
  lemma {:induction false} ScaleOtherFind(rcs: seq<Rc>, scaled: seq<Rc>, name: string, other: string, n: nat)
    requires other != name
    requires |scaled| == |rcs|
    requires forall i :: 0 <= i < |rcs| ==>
      scaled[i] == if rcs[i].name == name then rcs[i].(replicas := n) else rcs[i]
    ensures FindRc(scaled, other) == FindRc(rcs, other)
    decreases |rcs|
  {
    if rcs != [] {
      ScaleOtherFind(rcs[1..], scaled[1..], name, other, n);
    }
  }
}
