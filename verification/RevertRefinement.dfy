/** The methods of the revert controller refine its machine: whatever they and the cluster around them do is a run of
    RevertMachine, so every theorem about all runs is about them. */
module RevertRefinement {
  import opened Wrappers
  import opened Types
  import opened RevertCluster
  import opened RevertPlan
  import opened RevertMachine
  import opened RevertDowntime
  import opened RevertSafety
  import opened KubeCalls
  import opened Following
  import Reverts

  function LabelsOf(history: seq<Happening>): (labels: seq<Label>)
    ensures |labels| == |history|
  {
    if history == [] then []
    else
      LabelsOf(history[..|history| - 1])
      + [match history[|history| - 1] { case Took(_) => Call case Meanwhile(e) => Outside(e) }]
  }

  /** The worker after the first so many calls of a processing: storing the object ends it. */
  function WorkerAfter(r: Revert, ops: seq<Op>, at: nat): Worker {
    if 0 < at <= |ops| && ops[at - 1].UpdateRevert? then Waiting else Busy(r, ops, at)
  }

  lemma OnlyLastStores(r: Revert, obs: Obs)
    ensures forall i | 0 <= i < |AllOps(r, obs)| :: AllOps(r, obs)[i].UpdateRevert? ==> i == |AllOps(r, obs)| - 1
  {
    AllOpsParts(r, obs);
    PreludeAside(r, obs);
    StageStoresNothing(r, obs);
    var body := Prelude(r, obs) + StagePlan(r, obs).ops;
    assert forall op <- body :: !op.UpdateRevert?;
    assert AllOps(r, obs) == Prelude(r, obs) ==> forall op <- AllOps(r, obs) :: !op.UpdateRevert?;
  }

  /** What happens during one processing is a run of the machine. */
  lemma {:induction false} ProcessingIsARun(
    c: Cluster, r: Revert, obs: Obs, observed: set<Run>, history: seq<Happening>)
    requires Replay(c, history).Some? && Calls(history) <= AllOps(r, obs)
    ensures var m := Exec(World(c, Busy(r, AllOps(r, obs), 0), observed), LabelsOf(history));
      && m.Some? && m.value.c == Replay(c, history).value
      && m.value.worker == WorkerAfter(r, AllOps(r, obs), |Calls(history)|)
  {
    if history != [] {
      var before, h, ops := history[..|history| - 1], history[|history| - 1], AllOps(r, obs);
      ProcessingIsARun(c, r, obs, observed, before);
      assert LabelsOf(history)[..|before|] == LabelsOf(before);
      if h.Took? {
        OnlyLastStores(r, obs);
        assert ops[|Calls(before)|] == h.op;
      }
    }
  }

  /** Two histories, one after the other. */
  lemma {:induction false} ReplayConcat(start: Cluster, early: seq<Happening>, c: Cluster, late: seq<Happening>)
    requires Replay(start, early) == Some(c)
    ensures Replay(start, early + late) == Replay(c, late)
    ensures Calls(early + late) == Calls(early) + Calls(late)
  {
    if late == [] {
      assert early + late == early;
    } else {
      var most, last := late[..|late| - 1], late[|late| - 1];
      assert late == most + [last] && early + late == (early + most) + [last];
      ReplayConcat(start, early, c, most);
      Extend(start, early + most, last);
      Extend(c, most, last);
    }
  }

  /** The cluster was reached from where it started by a run of the machine, and the worker is not at work. */
  ghost predicate Reached(start: Cluster, labels: seq<Label>, c: Cluster) {
    var m := Exec(World(start, Waiting, {}), labels);
    m.Some? && m.value.c == c && m.value.worker == Waiting
  }

  /** The run goes on: the object is read, other things happen, and a processing of what was read is cut or not. */
  lemma ProcessingExtendsRun(
    start: Cluster, labels: seq<Label>, c: Cluster, idle: seq<Happening>, history: seq<Happening>, obs: Obs)
    returns (longer: seq<Label>)
    requires Reached(start, labels, c)
    requires Replay(c, idle).Some? && Calls(idle) == []
    requires Replay(Replay(c, idle).value, history).Some? && Calls(history) <= AllOps(c.stored, obs)
    ensures labels <= longer && Reached(start, longer, Replay(Replay(c, idle).value, history).value)
  {
    var w, m := World(start, Waiting, {}), Exec(World(start, Waiting, {}), labels).value;
    var waited, m2 := LoadsAndWaits(w, labels, m, idle);
    ExecOneMore(w, waited, Begin(obs));
    var m3 := World(m2.c, Busy(c.stored, AllOps(c.stored, obs), 0), {});
    var done := waited + [Begin(obs)] + LabelsOf(history);
    ProcessingIsARun(m2.c, c.stored, obs, {}, history);
    ExecConcat(w, waited + [Begin(obs)], LabelsOf(history));
    longer := done + [Drop];
    ExecOneMore(w, done, Drop);
  }

  lemma LoadsAndWaits(w: World, labels: seq<Label>, m: World, idle: seq<Happening>)
    returns (waited: seq<Label>, m2: World)
    requires Exec(w, labels) == Some(m) && m.worker == Waiting && Replay(m.c, idle).Some? && Calls(idle) == []
    ensures labels <= waited && Exec(w, waited) == Some(m2)
    ensures m2 == World(Replay(m.c, idle).value, Loaded(m.c.stored), m.observed)
  {
    var loaded, m1 := labels + [Load], m.(worker := Loaded(m.c.stored));
    ExecOneMore(w, labels, Load);
    IdleIsARun(m1, idle);
    waited := loaded + LabelsOf(idle);
    ExecConcat(w, loaded, LabelsOf(idle));
    m2 := m1.(c := Replay(m.c, idle).value);
  }

  lemma {:induction false} IdleIsARun(w: World, history: seq<Happening>)
    requires Replay(w.c, history).Some? && Calls(history) == []
    ensures Exec(w, LabelsOf(history)) == Some(w.(c := Replay(w.c, history).value))
  {
    if history != [] {
      var before := history[..|history| - 1];
      IdleIsARun(w, before);
      assert LabelsOf(history)[..|before|] == LabelsOf(before);
    }
  }

  /** The calls and events since an earlier point of the history. */
  lemma Since(start: Cluster, early: seq<Happening>, late: seq<Happening>, c: Cluster, c': Cluster, planned: seq<Op>,
      complete: bool)
    requires early <= late && Replay(start, early) == Some(c) && Replay(start, late) == Some(c')
    requires Followed(Calls(early), Calls(late), planned, complete)
    ensures Replay(c, late[|early|..]) == Some(c')
    ensures Calls(late[|early|..]) <= planned && (complete ==> Calls(late[|early|..]) == planned)
  {
    var recent := late[|early|..];
    assert late == early + recent;
    ReplayConcat(start, early, c, recent);
    FollowedSince(Calls(early), Calls(recent), planned, complete);
  }

  /** The worker loop over one revert: read the stored object, process it some time later, and start over whether that
      failed or not. Whatever happens is a run of the machine, so the theorems about all runs hold of the cluster. */
  method Work(kube: KubeCalls, rounds: nat, ghost count: nat) returns (ghost labels: seq<Label>)
    requires kube.Valid() && kube.history == []
    requires Start(World(kube.start, Waiting, {}), count)
    modifies kube
    ensures kube.Valid() && Reached(kube.start, labels, kube.cluster)
    ensures kube.cluster.sts.replicas == Some(0) || kube.cluster.sts.replicas == Some(count)
    ensures forall d <- kube.cluster.stored.reverts :: d.replicas == Some(count)
    ensures BoundClaimsHaveVolumes(kube.start) && Polite(World(kube.start, Waiting, {}), labels) ==>
      forall d <- kube.cluster.stored.reverts :: forall claim <- d.oldClaims ::
        claim.bound ==> claim.spec.volumeName in kube.cluster.volumes
  {
    labels := [];
    var reverts := new Reverts.Reverts(kube);
    for i := 0 to rounds
      invariant kube.Valid() && Reached(kube.start, labels, kube.cluster)
    {
      ghost var c0, h0 := kube.cluster, kube.history;
      var stored := kube.cluster.stored;
      kube.Pass();
      ghost var c1, h1 := kube.cluster, kube.history;
      Since(kube.start, h0, h1, c0, c1, [], true);
      ghost var obs;
      var err;
      err, obs := reverts.ProcessSnapshotRevert(stored);
      Since(kube.start, h1, kube.history, c1, kube.cluster, AllOps(stored, obs), err.None?);
      labels := ProcessingExtendsRun(kube.start, labels, c0, h1[|h0|..], kube.history[|h1|..], obs);
    }
    ghost var w := World(kube.start, Waiting, {});
    ReplicasConserved(count, w, labels);
    if BoundClaimsHaveVolumes(kube.start) && Polite(w, labels) {
      forall d | d in kube.cluster.stored.reverts
        ensures forall claim <- d.oldClaims :: claim.bound ==> claim.spec.volumeName in kube.cluster.volumes
      {
        var i :| 0 <= i < |kube.cluster.stored.reverts| && kube.cluster.stored.reverts[i] == d;
        forall claim | claim in d.oldClaims && claim.bound ensures claim.spec.volumeName in kube.cluster.volumes {
          NoDataLost(count, w, labels, i, claim);
        }
      }
    }
  }
}
