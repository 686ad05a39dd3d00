/** Crash convergence: however often the replacing or restoring of claims is cut and started over, the claims that are
    there when it completes are determined by the record and the snapshots chosen in the completing call alone. */
module RevertClaims {
  import opened Wrappers
  import opened Types
  import opened RevertCluster
  import opened RevertPlan
  import opened RevertMachine
  import opened RevertDowntime
  import opened Selection

  /** The live claim is the one that was created, up to what binding fills in. */
  predicate Settles(made: Claim, live: Claim) {
    && live.Key() == made.Key() && live.labels == made.labels && live.annotations == made.annotations
    && live.spec.(volumeName := "") == made.spec.(volumeName := "")
    && (made.spec.volumeName != "" ==> live.spec.volumeName == made.spec.volumeName)
  }

  datatype Outlook = Untouched | Gone | Made(claim: Claim)

  /** What a sequence of calls leaves of the claim named `k`. */
  function Fate(ops: seq<Op>, k: Key): Outlook {
    if ops == [] then Untouched
    else
      match ops[|ops| - 1]
      case DeletePVC(key) => if key == k then Gone else Fate(ops[..|ops| - 1], k)
      case CreatePVC(claim) => if claim.Key() == k then Made(claim) else Fate(ops[..|ops| - 1], k)
      case _ => Fate(ops[..|ops| - 1], k)
  }

  predicate FateHolds(c: Cluster, fate: Outlook, k: Key) {
    match fate
    case Untouched => true
    case Gone => k !in c.claims
    case Made(claim) => k in c.claims && Settles(claim, c.claims[k])
  }

  /** The worker issues the calls of some plan, and the claims are as the calls issued so far left them. */
  ghost predicate Tracked(w: World) {
    w.worker.Busy? ==>
      && w.worker.at <= |w.worker.ops|
      && (exists obs :: w.worker.ops == AllOps(w.worker.r, obs))
      && (forall k: Key :: FateHolds(w.c, Fate(w.worker.ops[..w.worker.at], k), k))
  }

  lemma EventKeepsFate(c: Cluster, e: Event, fate: Outlook, k: Key)
    requires Possible(c, e) && FateHolds(c, fate, k)
    ensures FateHolds(Change(c, e), fate, k)
  {
  }

  lemma CallKeepsFate(c: Cluster, ops: seq<Op>, at: nat, k: Key)
    requires at < |ops| && Accepts(c, ops[at]) && FateHolds(c, Fate(ops[..at], k), k)
    ensures FateHolds(Effect(c, ops[at]), Fate(ops[..at + 1], k), k)
  {
    assert ops[..at + 1][..at] == ops[..at];
  }

  lemma StepKeepsTracked(w: World, l: Label)
    requires Tracked(w) && Step(w, l).Some?
    ensures Tracked(Step(w, l).value)
  {
    var w' := Step(w, l).value;
    match l
    case Outside(e) =>
      if w.worker.Busy? {
        forall k: Key ensures FateHolds(w'.c, Fate(w.worker.ops[..w.worker.at], k), k) {
          EventKeepsFate(w.c, e, Fate(w.worker.ops[..w.worker.at], k), k);
        }
      }
    case Call =>
      if w'.worker.Busy? {
        forall k: Key ensures FateHolds(w'.c, Fate(w.worker.ops[..w'.worker.at], k), k) {
          CallKeepsFate(w.c, w.worker.ops, w.worker.at, k);
        }
      }
    case _ =>
  }

  lemma {:induction false} AlwaysTracked(w: World, labels: seq<Label>)
    requires Tracked(w) && Exec(w, labels).Some?
    ensures Tracked(Exec(w, labels).value)
  {
    if labels != [] {
      AlwaysTracked(w, labels[..|labels| - 1]);
      StepKeepsTracked(Exec(w, labels[..|labels| - 1]).value, labels[|labels| - 1]);
    }
  }

  lemma {:induction false} FateConcat(a: seq<Op>, b: seq<Op>, k: Key)
    ensures Fate(a + b, k) == if Fate(b, k) == Untouched then Fate(a, k) else Fate(b, k)
  {
    if b == [] {
      assert a + b == a;
    } else {
      assert (a + b)[..|a + b| - 1] == a + b[..|b| - 1];
      FateConcat(a, b[..|b| - 1], k);
    }
  }

  /** Creating the claims `made(0), made(1), ...`, all with different keys, makes each of them. */
  lemma {:induction false} FateOfCreates(ops: seq<Op>, claims: seq<Claim>, i: nat)
    requires |ops| == |claims| && DistinctKeys(claims) && i < |claims|
    requires forall j | 0 <= j < |ops| :: ops[j].CreatePVC? && ops[j].claim.Key() == claims[j].Key()
    ensures Fate(ops, claims[i].Key()) == Made(ops[i].claim)
  {
    var n := |ops| - 1;
    if i < n {
      FateOfCreates(ops[..n], claims[..n], i);
    }
  }

  lemma {:induction false} FateOfOthers(ops: seq<Op>, k: Key)
    requires forall op <- ops :: (op.CreatePVC? ==> op.claim.Key() != k) && (op.DeletePVC? ==> op.key != k)
    ensures Fate(ops, k) == Untouched
  {
    if ops != [] {
      FateOfOthers(ops[..|ops| - 1], k);
    }
  }

  /** Every claim of the record ends up as made by the creating calls, whatever came before them. */
  lemma FateOfPlan(pre: seq<Op>, creates: seq<Op>, wait: Op, claims: seq<Claim>, i: nat)
    requires |creates| == |claims| && DistinctKeys(claims) && i < |claims| && wait.AwaitBound?
    requires forall j | 0 <= j < |creates| :: creates[j].CreatePVC? && creates[j].claim.Key() == claims[j].Key()
    ensures Fate(pre + creates + [wait], claims[i].Key()) == Made(creates[i].claim)
  {
    FateOfCreates(creates, claims, i);
    FateConcat(pre, creates, claims[i].Key());
    assert (pre + creates + [wait])[..|pre + creates|] == pre + creates;
  }

  /** The object is about to be stored by the processing of a paused record. */
  ghost predicate Completes(w: World, stage: Stage) {
    && w.worker.Busy? && StageOf(w.worker.r) == stage
    && w.worker.at < |w.worker.ops| && w.worker.ops[w.worker.at].UpdateRevert?
  }

  /** The old claim has become a claim with its labels, size and access that is to be filled from the snapshot chosen
      for it, in the storage class for snapshots. */
  predicate Replaced(c: Cluster, r: Revert, chosen: map<string, Snapshot>, claim: Claim) {
    && claim.Key() in c.claims && claim.name in chosen
    && var live := c.claims[claim.Key()];
    && live.labels == claim.labels && live.annotations == map[SNAPSHOT_KEY := chosen[claim.name].name]
    && live.spec.accessModes == claim.spec.accessModes && live.spec.resources == claim.spec.resources
    && live.spec.storageClass == if r.stsType.Some? then r.stsType.value.snapshotClass else None
  }

  function ChosenBy(r: Revert, ops: seq<Op>): Option<map<string, Snapshot>>
    requires r.reverts != [] && ops != [] && ops[0].ListSnapshots?
  {
    Select(Last(r.reverts).oldClaims, ops[0].list, ops[0].failed, r.action.fromTime, r.action.toTime)
  }

  /** A replacing plan that stores something creates, at its end, a claim for every old claim. */
  lemma ReplacePlanFate(r: Revert, obs: Obs, i: nat)
    requires ReplacePlan(r, obs).result.Some?
    requires DistinctKeys(LastOf(r).oldClaims) && i < |LastOf(r).oldClaims|
    ensures var ops, claim := ReplacePlan(r, obs).ops, LastOf(r).oldClaims[i];
      && ops != [] && ops[0] == ListSnapshots(obs.snaps, obs.failed) && r.reverts != [] && ChosenBy(r, ops).Some?
      && claim.name in ChosenBy(r, ops).value
      && Fate(ops, claim.Key()) == Made(AttachSnapshot(r.stsType, claim, ChosenBy(r, ops).value[claim.name].name))
  {
    var claims := LastOf(r).oldClaims;
    var chosen := Select(claims, obs.snaps, obs.failed, r.action.fromTime, r.action.toTime).value;
    assert claims[i].name in Names(claims);
    ReplaceFate(r.stsType, claims, chosen, obs, i);
  }

  lemma ReplaceFate(stsType: Option<StatefulSetType>, claims: seq<Claim>, chosen: map<string, Snapshot>, obs: Obs,
      i: nat)
    requires DistinctKeys(claims) && i < |claims| && claims[i].name in chosen
    ensures var ops := [ListSnapshots(obs.snaps, obs.failed)] + ReplaceOps(stsType, claims, chosen, obs.volumes);
      Fate(ops, claims[i].Key()) == Made(AttachSnapshot(stsType, claims[i], chosen[claims[i].name].name))
  {
    var creates := CreateAll(stsType, claims, chosen);
    var pre := [ListSnapshots(obs.snaps, obs.failed)] + RetireAll(claims, obs.volumes);
    FateOfPlan(pre, creates, AwaitBound(Keys(claims)), claims, i);
    assert [ListSnapshots(obs.snaps, obs.failed)] + ReplaceOps(stsType, claims, chosen, obs.volumes) == pre + creates
        + [AwaitBound(Keys(claims))];
  }

  /** The same for the calls issued so far by a processing that is about to complete. */
  lemma CompletingFates(r: Revert, ops: seq<Op>, at: nat)
    requires StageOf(r) == Replace && DistinctKeys(Last(r.reverts).oldClaims)
    requires exists obs :: ops == AllOps(r, obs)
    requires at == |ops| - 1 && ops[at].UpdateRevert?
    ensures ops[0].ListSnapshots? && ChosenBy(r, ops).Some?
    ensures forall claim <- Last(r.reverts).oldClaims ::
      claim.name in ChosenBy(r, ops).value &&
      Fate(ops[..at], claim.Key()) == Made(AttachSnapshot(r.stsType, claim, ChosenBy(r, ops).value[claim.name].name))
  {
    var obs :| ops == AllOps(r, obs);
    ReplaceAllOps(r, obs);
    assert ops[..at] == ReplacePlan(r, obs).ops;
    forall claim | claim in LastOf(r).oldClaims
      ensures claim.name in ChosenBy(r, ops).value &&
        Fate(ops[..at], claim.Key()) == Made(AttachSnapshot(r.stsType, claim, ChosenBy(r, ops).value[claim.name].name))
    {
      var i :| 0 <= i < |LastOf(r).oldClaims| && LastOf(r).oldClaims[i] == claim;
      ReplacePlanFate(r, obs, i);
    }
  }

  lemma CompletingWorker(count: nat, m: World)
    requires Sound(count, m) && (Completes(m, Replace) || Completes(m, Restore))
    ensures m.worker.at == |m.worker.ops| - 1
    ensures m.worker.r.reverts != [] && DistinctKeys(Last(m.worker.r.reverts).oldClaims)
  {
    assert TameAt(m.worker.r, m.worker.ops, m.worker.at);
    assert Last(m.worker.r.reverts) in m.worker.r.reverts;
  }

  lemma ReplaceCompletes(count: nat, m: World)
    requires Sound(count, m) && Tracked(m) && Completes(m, Replace)
    ensures m.worker.ops[0].ListSnapshots? && ChosenBy(m.worker.r, m.worker.ops).Some?
    ensures forall claim <- Last(m.worker.r.reverts).oldClaims ::
        Replaced(m.c, m.worker.r, ChosenBy(m.worker.r, m.worker.ops).value, claim)
  {
    var Busy(r, ops, at) := m.worker;
    CompletingWorker(count, m);
    CompletingFates(r, ops, at);
    forall claim | claim in Last(r.reverts).oldClaims ensures Replaced(m.c, r, ChosenBy(r, ops).value, claim) {
      assert FateHolds(m.c, Fate(ops[..at], claim.Key()), claim.Key());
    }
  }

  /** Replacing converges: in every run, with any number of cut and restarted attempts, when a replacing stage
      completes, each old claim has been replaced by a claim for the snapshot the completing call chose for it. */
  lemma ReplaceConverges(count: nat, w: World, labels: seq<Label>)
    requires Start(w, count) && Exec(w, labels).Some? && Completes(Exec(w, labels).value, Replace)
    ensures var m := Exec(w, labels).value;
      && m.worker.r.reverts == m.c.stored.reverts
      && m.worker.ops[0].ListSnapshots? && ChosenBy(m.worker.r, m.worker.ops).Some?
      && forall claim <- Last(m.c.stored.reverts).oldClaims ::
          Replaced(m.c, m.worker.r, ChosenBy(m.worker.r, m.worker.ops).value, claim)
  {
    AlwaysSound(count, w, labels);
    AlwaysTracked(w, labels);
    ReplaceCompletes(count, Exec(w, labels).value);
  }

  /** Two runs that complete the replacing of the same stored object with the same snapshot list, one of them cut as
      often as one likes and the other never, leave the same assignment of snapshots to claims. */
  lemma CutsDoNotMatter(count: nat, w: World, cut: seq<Label>, w': World, straight: seq<Label>, claim: Claim)
    requires Start(w, count) && Exec(w, cut).Some? && Completes(Exec(w, cut).value, Replace)
    requires Start(w', count) && Exec(w', straight).Some? && Completes(Exec(w', straight).value, Replace)
    requires var a, b := Exec(w, cut).value.worker, Exec(w', straight).value.worker; a.r == b.r && a.ops[0] == b.ops[0]
    requires claim in Last(Exec(w, cut).value.worker.r.reverts).oldClaims
    ensures var a, b := Exec(w, cut).value.c.claims, Exec(w', straight).value.c.claims;
      && claim.Key() in a && claim.Key() in b
      && a[claim.Key()].annotations == b[claim.Key()].annotations
      && a[claim.Key()].labels == b[claim.Key()].labels
      && a[claim.Key()].spec.(volumeName := "") == b[claim.Key()].spec.(volumeName := "")
  {
    ReplaceConverges(count, w, cut);
    ReplaceConverges(count, w', straight);
  }

  /** The old claim is there again, with its labels and its whole spec; the volume too, if it named one. Its annotations
      are not put back. */
  predicate PutBack(c: Cluster, claim: Claim) {
    && claim.Key() in c.claims
    && var live := c.claims[claim.Key()];
    && live.labels == claim.labels && live.annotations == map[]
    && live.spec.(volumeName := claim.spec.volumeName) == claim.spec
    && (claim.spec.volumeName != "" ==> live.spec.volumeName == claim.spec.volumeName)
  }

  /** Restoring converges: when it completes, after any number of cut attempts, each old claim is back. */
  lemma RestoreConverges(count: nat, w: World, labels: seq<Label>)
    requires Start(w, count) && Exec(w, labels).Some? && Completes(Exec(w, labels).value, Restore)
    ensures var m := Exec(w, labels).value;
      && m.worker.r.reverts == m.c.stored.reverts
      && forall claim <- Last(m.worker.r.reverts).oldClaims :: PutBack(m.c, claim)
  {
    AlwaysSound(count, w, labels);
    AlwaysTracked(w, labels);
    RestoreCompletes(count, Exec(w, labels).value);
  }

  lemma RestoringFates(r: Revert, ops: seq<Op>, at: nat)
    requires StageOf(r) == Restore && DistinctKeys(Last(r.reverts).oldClaims)
    requires exists obs :: ops == AllOps(r, obs)
    requires at == |ops| - 1 && ops[at].UpdateRevert?
    ensures forall claim <- Last(r.reverts).oldClaims :: Fate(ops[..at], claim.Key()) == Made(Restoring(claim))
  {
    var obs :| ops == AllOps(r, obs);
    RestoreAllOps(r, obs);
    var claims := LastOf(r).oldClaims;
    assert ops[..at] == RestoreOps(claims);
    forall claim | claim in claims ensures Fate(ops[..at], claim.Key()) == Made(Restoring(claim)) {
      var i :| 0 <= i < |claims| && claims[i] == claim;
      FateOfPlan(DeleteAll(claims), RestoreAll(claims), AwaitBound(Keys(claims)), claims, i);
    }
  }

  lemma RestoreCompletes(count: nat, m: World)
    requires Sound(count, m) && Tracked(m) && Completes(m, Restore)
    ensures forall claim <- Last(m.worker.r.reverts).oldClaims ::
      claim.Key() in m.c.claims && Settles(Restoring(claim), m.c.claims[claim.Key()])
  {
    var Busy(r, ops, at) := m.worker;
    CompletingWorker(count, m);
    RestoringFates(r, ops, at);
    forall claim | claim in Last(r.reverts).oldClaims ensures FateHolds(m.c, Made(Restoring(claim)), claim.Key()) {
      assert FateHolds(m.c, Fate(ops[..at], claim.Key()), claim.Key());
    }
  }
}
