/** Whole requests: a `latest` and an `undo` can be carried out from start to end when the snapshots and volumes they
    need are there. The last lemmas instantiate this for one concrete cluster, which also shows that the assumptions of
    the theorems about all runs can be met together and that the states they speak of are reached. */
module RevertWhole {
  import opened Wrappers
  import opened Types
  import opened RevertCluster
  import opened RevertPlan
  import opened RevertMachine
  import opened RevertDowntime
  import opened RevertSafety
  import opened RevertClaims
  import opened RevertUndo
  import opened RevertRetention
  import opened RevertProgress
  import opened RevertVolumes
  import opened RevertReady
  import opened RevertSteps
  import opened RevertRebuild
  import opened RevertEnds
  import opened Selection
  import RevertFlaws
  import RevertLag

  /** The stage follows from the request and its rank. */
  lemma StageByRank(r: Revert)
    ensures r.action.kind == Latest ==>
      (Rank(r) == 3 ==> StageOf(r) == Pause) && (Rank(r) == 2 ==> StageOf(r) == Replace)
        && (Rank(r) == 1 ==> StageOf(r) == Resume)
    ensures r.action.kind == Undo ==>
        (Rank(r) == 2 ==> StageOf(r) == Restore) && (Rank(r) == 1 ==> StageOf(r) == UndoResume)
  {
  }

  /** The same request on so many records more, if all are kept. */
  predicate Grew(r: Revert, r': Revert, n: nat) {
    r'.stsType == r.stsType && r'.keepStatus == r.keepStatus && (r.keepStatus == 0 ==> |r'.reverts| == |r.reverts| + n)
  }

  /** Until a record is popped its claims stay what was recorded. */
  lemma OutcomeClaims(r: Revert, obs: Obs)
    requires NoFresh(r.reverts) && Rank(r) > 0 && StageOf(r) != UndoResume
    ensures var next := Outcome(r, obs);
      && next.reverts != []
          && LastOf(next).oldClaims == (if StageOf(r) == Initialize then obs.claims else LastOf(r).oldClaims)
      && next.action.fromTime == r.action.fromTime && next.action.toTime == r.action.toTime
      && (StageOf(r) == Resume ==> LastOf(next).state == Finished)
      && Grew(r, next, if StageOf(r) == Initialize then 1 else 0)
  {
    RetainedLast(r, Advance(r.reverts, StageOf(r), obs));
  }

  /** Storing a step that is about to be stored. */
  lemma Stored(count: nat, w: World, m: World, obs: Obs) returns (done: World)
    requires Sound(count, w) && Rank(w.c.stored) > 0 && AboutToStore(w, m, obs)
    ensures Reaches(w, done) && Reaches(m, done) && done.worker == Waiting && Sound(count, done)
    ensures done.c == m.c.(stored := Outcome(w.c.stored, obs)) && Rank(done.c.stored) == Rank(w.c.stored) - 1
    ensures done.c.stored.action.kind == if Rank(w.c.stored) == 1 then Idle else w.c.stored.action.kind
  {
    done := Storing(w, m, obs);
    ReachedIsSound(count, w, done);
    StoredStepLowersRank(w.c.stored, obs);
  }

  /** Every claim the selector picks has its volume and a snapshot in the window. */
  predicate Revertible(c: Cluster, r: Revert) {
    forall k <- c.claims :: Matches(c.sts.selector, c.claims[k].labels) ==>
      && c.claims[k].spec.volumeName in c.volumes
      && Newest(c.snapshots, c.claims[k].name, r.action.fromTime, r.action.toTime).Some?
  }

  /** If the revert names a strategy, there is a run of it that can finish, or none. */
  predicate MayValidate(c: Cluster, r: Revert) {
    r.validation.Some? ==>
      || (exists n <- c.runs :: c.runs[n].owner == r.validation.value && CanFinish(c.runs[n]))
      || NoRunOf(c, r.validation.value)
  }

  lemma RecordedIsReady(c: Cluster, d: Cluster, r: Revert, found: seq<Claim>)
    requires Revertible(c, r) && MayValidate(c, r) && Lists(found, c.claims, c.sts.selector)
    requires StageOf(d.stored) == Pause
    requires d.runs == c.runs && d.snapshots == c.snapshots && LastOf(d.stored).oldClaims == found
    requires d.stored.validation == r.validation
    requires d.stored.action.fromTime == r.action.fromTime && d.stored.action.toTime == r.action.toTime
    ensures Ready(d, d.stored)
  {
    forall claim | claim in found
      ensures Newest(d.snapshots, claim.name, r.action.fromTime, r.action.toTime).Some?
    {
      assert claim.Key() in c.claims && c.claims[claim.Key()] == claim;
    }
  }

  lemma ListedAreReplaceable(c: Cluster, d: Cluster, r: Revert, found: seq<Claim>)
    requires Revertible(c, r) && Lists(found, c.claims, c.sts.selector) && StageOf(d.stored) == Replace
    requires d.volumes == c.volumes && d.snapshots == c.snapshots && LastOf(d.stored).oldClaims == found
    requires d.stored.action.fromTime == r.action.fromTime && d.stored.action.toTime == r.action.toTime
    ensures Ready(d, d.stored)
  {
    forall claim | claim in found
      ensures claim.spec.volumeName in d.volumes
      ensures Newest(d.snapshots, claim.name, r.action.fromTime, r.action.toTime).Some?
    {
      assert claim.Key() in c.claims && c.claims[claim.Key()] == claim;
    }
  }

  lemma RecordAndPause(count: nat, w: World) returns (paused: World)
    requires Sound(count, w) && w.worker == Waiting && StageOf(w.c.stored) == Initialize && Ready(w.c, w.c.stored)
    requires Revertible(w.c, w.c.stored) && MayValidate(w.c, w.c.stored)
    ensures Reaches(w, paused) && paused.worker == Waiting && Sound(count, paused)
    ensures StageOf(paused.c.stored) == Replace && Ready(paused.c, paused.c.stored)
    ensures paused.c.stored.action.kind == Latest
    ensures Lists(LastOf(paused.c.stored).oldClaims, w.c.claims, w.c.sts.selector)
    ensures Grew(w.c.stored, paused.c.stored, 1)
  {
    var m, obs := RecordIsReached(count, w);
    var recorded := Stored(count, w, m, obs);
    OutcomeClaims(w.c.stored, obs);
    StageByRank(recorded.c.stored);
    RecordedIsReady(w.c, recorded.c, w.c.stored, obs.claims);
    var m', obs' := PauseIsReached(count, recorded);
    paused := Stored(count, recorded, m', obs');
    OutcomeClaims(recorded.c.stored, obs');
    StageByRank(paused.c.stored);
    ReachesJoin(w, recorded, paused);
    ListedAreReplaceable(w.c, paused.c, w.c.stored, LastOf(paused.c.stored).oldClaims);
  }

  /** The volumes of the record are there for an undo. */
  predicate RecordIsFree(c: Cluster) {
    forall claim <- LastOf(c.stored).oldClaims :: claim.spec.volumeName != "" ==> Free(c, claim.spec.volumeName)
  }

  lemma SwappedAndStored(count: nat, w: World) returns (swap: World, replaced: World)
    requires Sound(count, w) && w.worker == Waiting && StageOf(w.c.stored) == Replace && Ready(w.c, w.c.stored)
    ensures Reaches(w, swap) && Completes(swap, Replace)
    ensures Reaches(swap, replaced) && replaced.worker == Waiting && Sound(count, replaced)
    ensures StageOf(replaced.c.stored) == Resume && replaced.c.stored.action.kind == Latest
    ensures Grew(w.c.stored, replaced.c.stored, 0)
    ensures LastOf(replaced.c.stored).oldClaims == LastOf(w.c.stored).oldClaims && RecordIsFree(replaced.c)
  {
    var obs;
    swap, obs := ReplaceIsReached(count, w);
    LastStores(w, swap, obs);
    replaced := Stored(count, w, swap, obs);
    OutcomeClaims(w.c.stored, obs);
    StageByRank(replaced.c.stored);
    ReplacedAreFree(swap.c, replaced.c, LastOf(w.c.stored).oldClaims);
  }

  lemma ReplacedAreFree(c: Cluster, c': Cluster, claims: seq<Claim>)
    requires LastOf(c'.stored).oldClaims == claims && c'.volumes == c.volumes
    requires forall claim <- claims :: claim.spec.volumeName != "" ==>
      claim.spec.volumeName in c.volumes && c.volumes[claim.spec.volumeName] == Volume(true, None)
    ensures RecordIsFree(c')
  {
  }

  lemma Resumed(count: nat, w: World) returns (done: World)
    requires Sound(count, w) && w.worker == Waiting && StageOf(w.c.stored) == Resume
    ensures Reaches(w, done) && done.worker == Waiting && Sound(count, done)
    ensures done.c.stored.action.kind == Idle && TopIs(done.c.stored.reverts, Finished)
    ensures Grew(w.c.stored, done.c.stored, 0)
    ensures LastOf(done.c.stored).oldClaims == LastOf(w.c.stored).oldClaims && done.c.volumes == w.c.volumes
  {
    var m, obs := ResumeIsReached(count, w);
    done := Stored(count, w, m, obs);
    OutcomeClaims(w.c.stored, obs);
  }

  lemma ReplaceAndResume(count: nat, w: World) returns (swap: World, done: World)
    requires Sound(count, w) && w.worker == Waiting && StageOf(w.c.stored) == Replace && Ready(w.c, w.c.stored)
    ensures Reaches(w, swap) && Completes(swap, Replace)
    ensures Reaches(swap, done) && done.worker == Waiting && Sound(count, done)
    ensures done.c.stored.action.kind == Idle && TopIs(done.c.stored.reverts, Finished)
    ensures Grew(w.c.stored, done.c.stored, 0)
    ensures LastOf(done.c.stored).oldClaims == LastOf(w.c.stored).oldClaims && RecordIsFree(done.c)
  {
    var replaced;
    swap, replaced := SwappedAndStored(count, w);
    done := Resumed(count, replaced);
    ReachesJoin(swap, replaced, done);
  }

  lemma LastStores(w: World, m: World, obs: Obs)
    requires AboutToStore(w, m, obs)
    ensures Completes(m, StageOf(w.c.stored))
  {
    var ops := AllOps(w.c.stored, obs);
    assert ops[|ops| - 1] == UpdateRevert(w.c.stored, PlanFor(w.c.stored, obs).result.value);
  }

  /** A whole `latest` request: if every claim of the application has its volume and a snapshot, and no run that cannot
      finish stands in the way of the validation, the request can be carried out to its end, and then an undo finds
      every volume it needs free. */
  lemma LatestCanEnd(count: nat, w: World) returns (swap: World, done: World)
    requires Sound(count, w) && w.worker == Waiting && StageOf(w.c.stored) == Initialize && Ready(w.c, w.c.stored)
    requires Revertible(w.c, w.c.stored) && MayValidate(w.c, w.c.stored)
    ensures Reaches(w, swap) && Completes(swap, Replace)
    ensures Reaches(swap, done) && done.worker == Waiting && Sound(count, done)
    ensures done.c.stored.action.kind == Idle && TopIs(done.c.stored.reverts, Finished)
    ensures Lists(LastOf(done.c.stored).oldClaims, w.c.claims, w.c.sts.selector) && RecordIsFree(done.c)
    ensures Grew(w.c.stored, done.c.stored, 1)
  {
    var paused := RecordAndPause(count, w);
    swap, done := ReplaceAndResume(count, paused);
    ReachesJoin(w, paused, swap);
  }

  /** The object once its last record has been undone. */
  function Popped(r: Revert): Revert
    requires r.reverts != []
  {
    r.(reverts := r.reverts[..|r.reverts| - 1], action := r.action.(kind := Idle))
  }

  /** A whole `undo` request: if the volumes of the last record are free and different, the request can be carried out
      to its end, and drops that record. */
  lemma UndoCanEnd(count: nat, w: World) returns (swap: World, done: World)
    requires Sound(count, w) && w.worker == Waiting && StageOf(w.c.stored) == UndoPause
    requires Restorable(w.c, LastOf(w.c.stored).oldClaims)
    ensures Reaches(w, swap) && Completes(swap, Restore) && swap.worker.r == swap.c.stored
    ensures LastOf(swap.c.stored).oldClaims == LastOf(w.c.stored).oldClaims
    ensures Reaches(swap, done) && done.worker == Waiting && Sound(count, done)
    ensures w.c.stored.reverts != [] && done.c.stored == Popped(w.c.stored)
  {
    var paused := UndoPaused(count, w);
    swap, done := RestoreAndResume(count, paused);
    ReachesJoin(w, paused, swap);
  }

  lemma UndoPaused(count: nat, w: World) returns (paused: World)
    requires Sound(count, w) && w.worker == Waiting && StageOf(w.c.stored) == UndoPause
    requires Restorable(w.c, LastOf(w.c.stored).oldClaims)
    ensures Reaches(w, paused) && paused.worker == Waiting && Sound(count, paused)
    ensures StageOf(paused.c.stored) == Restore && Ready(paused.c, paused.c.stored)
    ensures w.c.stored.reverts != []
    ensures paused.c.stored == w.c.stored.(reverts := SetState(w.c.stored.reverts, Paused))
  {
    var m, obs := PauseIsReached(count, w);
    paused := Stored(count, w, m, obs);
    UndoOutcome(w.c.stored, obs);
    StageByRank(paused.c.stored);
    StillRestorable(w.c, paused.c);
  }

  lemma StillRestorable(c: Cluster, d: Cluster)
    requires c.stored.reverts != [] && d.stored.reverts == SetState(c.stored.reverts, Paused)
    requires StageOf(d.stored) == Restore
    requires d.volumes == c.volumes && Restorable(c, LastOf(c.stored).oldClaims)
    ensures Ready(d, d.stored)
  {
    assert LastOf(d.stored).oldClaims == LastOf(c.stored).oldClaims;
  }

  lemma UndoOutcome(r: Revert, obs: Obs)
    requires r.action.kind == Undo && Rank(r) > 0
    ensures r.reverts != [] && StageOf(r) in {UndoPause, Restore, UndoResume}
    ensures StageOf(r) == UndoPause ==> Outcome(r, obs) == r.(reverts := SetState(r.reverts, Paused))
    ensures StageOf(r) == Restore ==> Outcome(r, obs) == r.(reverts := SetState(r.reverts, Undone))
    ensures StageOf(r) == UndoResume ==>
      Outcome(r, obs) == r.(reverts := r.reverts[..|r.reverts| - 1], action := r.action.(kind := Idle))
  {
  }

  lemma Restored(count: nat, w: World) returns (swap: World, restored: World)
    requires Sound(count, w) && w.worker == Waiting && StageOf(w.c.stored) == Restore && Ready(w.c, w.c.stored)
    ensures Reaches(w, swap) && Completes(swap, Restore) && swap.worker.r == swap.c.stored == w.c.stored
    ensures Reaches(swap, restored) && restored.worker == Waiting && Sound(count, restored)
    ensures StageOf(restored.c.stored) == UndoResume && restored.c.stored.action.kind == Undo
    ensures w.c.stored.reverts != []
    ensures restored.c.stored == w.c.stored.(reverts := SetState(w.c.stored.reverts, Undone))
  {
    var obs;
    swap, obs := RestoreIsReached(count, w);
    LastStores(w, swap, obs);
    restored := Stored(count, w, swap, obs);
    UndoOutcome(w.c.stored, obs);
    StageByRank(restored.c.stored);
  }

  lemma RestoreAndResume(count: nat, w: World) returns (swap: World, done: World)
    requires Sound(count, w) && w.worker == Waiting && StageOf(w.c.stored) == Restore && Ready(w.c, w.c.stored)
    ensures Reaches(w, swap) && Completes(swap, Restore) && swap.worker.r == swap.c.stored == w.c.stored
    ensures Reaches(swap, done) && done.worker == Waiting && Sound(count, done)
    ensures w.c.stored.reverts != [] && done.c.stored == Popped(w.c.stored)
  {
    var restored;
    swap, restored := Restored(count, w);
    done := UndoResumed(count, restored);
    ReachesJoin(swap, restored, done);
  }

  lemma UndoResumed(count: nat, w: World) returns (done: World)
    requires Sound(count, w) && w.worker == Waiting && StageOf(w.c.stored) == UndoResume
    ensures Reaches(w, done) && done.worker == Waiting && Sound(count, done)
    ensures w.c.stored.reverts != [] && done.c.stored == Popped(w.c.stored)
  {
    var m, obs := ResumeIsReached(count, w);
    done := Stored(count, w, m, obs);
    UndoOutcome(w.c.stored, obs);
  }

  // ---- One cluster ----

  const KEY := NamespacedName("ns", "data-app-0")
  const OLD := Claim("ns", "data-app-0", map[], map[], ClaimSpec(None, [], "10Gi", "pv-0"), true, 0)

  /** One replica on one claim, whose volume has policy Delete, one snapshot of it, and a `latest` request. */
  const BEGINNING := World(
    Cluster(map[KEY := OLD], map["pv-0" := Volume(false, Some(ClaimRef(KEY, 0)))], StatefulSet(Some(1), map[]), 1, 1,
            [Snapshot("ns", "snap-0", "data-app-0", 5)], map[],
            Revert("ns", Some(StatefulSetType("app", "data", None)), None, 0, Action(Latest, None, None), []), 1),
    Waiting, {})

  lemma BeginningIsRevertible()
    ensures Start(BEGINNING, 1) && BoundClaimsHaveVolumes(BEGINNING.c) && FreshUids(BEGINNING.c)
    ensures Sound(1, BEGINNING) && StageOf(BEGINNING.c.stored) == Initialize && Ready(BEGINNING.c, BEGINNING.c.stored)
    ensures Revertible(BEGINNING.c, BEGINNING.c.stored)
  {
    var snaps := BEGINNING.c.snapshots;
    assert snaps[..0] == [];
    assert Newest(snaps[..0], OLD.name, None, None) == None;
  }

  lemma {:induction false} CalmIsPolite(w: World, labels: seq<Label>)
    requires Calm(w, labels) && Exec(w, labels).Some?
    ensures Polite(w, labels)
  {
    if labels != [] {
      CalmIsPolite(w, labels[..|labels| - 1]);
    }
  }

  lemma PoliteOneMore(w: World, labels: seq<Label>, l: Label)
    ensures Exec(w, labels + [l]) == if Exec(w, labels).Some? then Step(Exec(w, labels).value, l) else None
    ensures Polite(w, labels + [l]) <==>
      && Polite(w, labels)
      && (l.Outside? && l.e.EditAction? && Exec(w, labels).Some? ==> !Pending(Exec(w, labels).value.c.stored))
  {
    assert (labels + [l])[..|labels|] == labels;
  }

  lemma {:induction false} PoliteConcat(w: World, a: seq<Label>, m: World, b: seq<Label>)
    requires Polite(w, a) && Exec(w, a) == Some(m) && Polite(m, b) && Exec(m, b).Some?
    ensures Polite(w, a + b) && Exec(w, a + b) == Exec(m, b)
  {
    if b == [] {
      assert a + b == a;
    } else {
      var most, last := b[..|b| - 1], b[|b| - 1];
      assert b == most + [last] && a + b == (a + most) + [last];
      PoliteOneMore(m, most, last);
      PoliteConcat(w, a, m, most);
      PoliteOneMore(w, a + most, last);
    }
  }

  /** Whoever edits the request asks for all records to be kept. */
  predicate KeepsAll(labels: seq<Label>) {
    forall l <- labels :: l.Outside? && l.e.EditAction? ==> l.e.keepStatus == 0
  }

  /** A polite run leads from `w` to `m`. */
  ghost predicate Goes(w: World, labels: seq<Label>, m: World) {
    Polite(w, labels) && KeepsAll(labels) && Exec(w, labels) == Some(m)
  }

  lemma Going(w: World, m: World) returns (labels: seq<Label>)
    requires Reaches(w, m)
    ensures Goes(w, labels, m)
  {
    labels :| Calm(w, labels) && Exec(w, labels) == Some(m);
    CalmIsPolite(w, labels);
    CalmHasNoEdits(w, labels);
  }

  lemma GoesOn(w: World, a: seq<Label>, m: World, b: seq<Label>, n: World)
    requires Goes(w, a, m) && Goes(m, b, n)
    ensures Goes(w, a + b, n)
  {
    PoliteConcat(w, a, m, b);
  }

  const UNDO := EditAction(Action(Undo, None, None), 0)

  lemma Asking(w: World) returns (m: World)
    requires w.c.stored.action.kind == Idle && w.worker == Waiting
    ensures Goes(w, [Outside(UNDO)], m) && m == w.(c := Change(w.c, UNDO))
  {
    m := w.(c := Change(w.c, UNDO));
    ExecOne(w, Outside(UNDO));
    assert [Outside(UNDO)][..0] == [];
  }

  lemma FirstHalf() returns (a: seq<Label>, replacing: World, b: seq<Label>, reverted: World)
    ensures Goes(BEGINNING, a, replacing) && Completes(replacing, Replace) && Goes(replacing, b, reverted)
    ensures Sound(1, reverted) && reverted.worker == Waiting && reverted.c.stored.action.kind == Idle
    ensures TopIs(reverted.c.stored.reverts, Finished) && LastOf(reverted.c.stored).oldClaims == [OLD]
    ensures RecordIsFree(reverted.c)
    ensures reverted.c.stored.stsType.Some? && |reverted.c.stored.reverts| == 1
  {
    BeginningIsRevertible();
    replacing, reverted := LatestCanEnd(1, BEGINNING);
    OnlyOld(LastOf(reverted.c.stored).oldClaims);
    a := Going(BEGINNING, replacing);
    b := Going(replacing, reverted);
  }

  lemma SecondHalf(reverted: World) returns (b: seq<Label>, restoring: World, rest: seq<Label>, done: World)
    requires Sound(1, reverted) && reverted.worker == Waiting && reverted.c.stored.action.kind == Idle
    requires TopIs(reverted.c.stored.reverts, Finished) && LastOf(reverted.c.stored).oldClaims == [OLD]
    requires RecordIsFree(reverted.c)
    requires reverted.c.stored.stsType.Some? && |reverted.c.stored.reverts| == 1
    ensures Goes(reverted, b, restoring) && Completes(restoring, Restore) && restoring.worker.r == restoring.c.stored
    ensures LastOf(restoring.c.stored).oldClaims == [OLD]
    ensures Goes(restoring, rest, done) && done.worker == Waiting && done.c.stored.reverts == []
    ensures done.c.stored.action.kind == Idle
  {
    var asked := Asking(reverted);
    assert Step(reverted, Outside(UNDO)) == Some(asked);
    StepKeepsSound(1, reverted, Outside(UNDO));
    restoring, done := UndoCanEnd(1, asked);
    var b2 := Going(asked, restoring);
    GoesOn(reverted, [Outside(UNDO)], asked, b2, restoring);
    b := [Outside(UNDO)] + b2;
    rest := Going(restoring, done);
  }

  /** A whole revert and undo of that claim: the claims are swapped at `replacing`, put back at `restoring`, and in the
      end the stack is empty again. */
  lemma WholeRevertAndUndo()
      returns (a: seq<Label>, replacing: World, b: seq<Label>, restoring: World, rest: seq<Label>, done: World)
    ensures Goes(BEGINNING, a, replacing) && Completes(replacing, Replace)
    ensures Goes(replacing, b, restoring) && Completes(restoring, Restore) && restoring.worker.r == restoring.c.stored
    ensures LastOf(restoring.c.stored).oldClaims == [OLD]
    ensures Goes(restoring, rest, done) && done.worker == Waiting && done.c.stored.reverts == []
    ensures done.c.stored.action.kind == Idle
  {
    var b1, b2, reverted;
    a, replacing, b1, reverted := FirstHalf();
    b2, restoring, rest, done := SecondHalf(reverted);
    GoesOn(replacing, b1, reverted, b2, restoring);
    b := b1 + b2;
  }

  lemma KeysDiffer(found: seq<Claim>)
    requires DistinctKeys(found)
    ensures |found| > 1 ==> found[0].Key() != found[1].Key()
  {
  }

  lemma OnlyOld(found: seq<Claim>)
    requires Lists(found, BEGINNING.c.claims, BEGINNING.c.sts.selector)
    ensures found == [OLD]
  {
    KeysDiffer(found);
    assert BEGINNING.c.claims[KEY] == OLD && Matches(BEGINNING.c.sts.selector, OLD.labels);
    assert OLD in found;
    forall i | 0 <= i < |found| ensures found[i] == OLD {
      assert found[i] in found;
    }
  }

  /** In that run the original volume is still there, with policy Retain, when the claim has been swapped, and the claim
      is what it was when the record has been undone. */
  lemma WholeRunKeepsClaim() returns (labels: seq<Label>)
    ensures Polite(BEGINNING, labels) && Exec(BEGINNING, labels).Some?
    ensures var c := Exec(BEGINNING, labels).value.c;
      c.stored.reverts == [] && c.claims.Keys == {KEY} && Same(OLD, c.claims[KEY])
  {
    var a, replacing, b, restoring, rest, done := WholeRevertAndUndo();
    GoesOn(BEGINNING, a, replacing, b, restoring);
    GoesOn(BEGINNING, a + b, restoring, rest, done);
    labels := a + b + rest;
    BeginningIsRevertible();
    AlwaysSteady(BEGINNING, labels);
    assert Selected(BEGINNING.c, KEY);
    UndoIsLastInFirstOut(1, BEGINNING, labels);
  }

  predicate KeepsRecords(w: World) {
    && w.c.stored.keepStatus == 0
    && (!w.worker.Waiting? ==> w.worker.r.keepStatus == 0)
    && (w.worker.Busy? ==> forall op <- w.worker.ops :: op.UpdateRevert? ==> op.next.keepStatus == 0)
  }

  lemma PlanKeepsStatus(r: Revert, obs: Obs)
    ensures forall op <- AllOps(r, obs) :: op.UpdateRevert? ==> op.next.keepStatus == r.keepStatus
  {
    forall i | 0 <= i < |AllOps(r, obs)| && AllOps(r, obs)[i].UpdateRevert?
        ensures AllOps(r, obs)[i].next.keepStatus == r.keepStatus {
      UpdateIsResult(r, obs, i);
      assert PlanFor(r, obs).result == StagePlan(r, obs).result;
    }
  }

  lemma StepKeepsRecords(w: World, l: Label)
    requires KeepsRecords(w) && Step(w, l).Some? && (l.Outside? && l.e.EditAction? ==> l.e.keepStatus == 0)
    ensures KeepsRecords(Step(w, l).value)
  {
    match l
    case Begin(obs) => PlanKeepsStatus(w.worker.r, obs);
    case Call => assert w.worker.ops[w.worker.at] in w.worker.ops;
    case _ =>
  }

  lemma {:induction false} AlwaysSteady(w: World, labels: seq<Label>)
    requires w.c.stored.reverts == [] && w.c.stored.keepStatus == 0 && w.worker == Waiting
    requires Exec(w, labels).Some? && KeepsAll(labels)
    ensures Steady(w, labels) && KeepsRecords(Exec(w, labels).value)
  {
    if labels != [] {
      var before, l := labels[..|labels| - 1], labels[|labels| - 1];
      assert l in labels && forall x <- before :: x in labels;
      AlwaysSteady(w, before);
      StepKeepsRecords(Exec(w, before).value, l);
    }
  }

  /** A run from the start in which the cache lags once: the claim is put back and its undo is stored, but then it is
      deleted again, and the worker is given the undone record, to resume the application without it. */
  lemma LaggingCacheLosesClaim() returns (m: RevertLag.LagWorld)
    ensures RevertLag.LagStart(RevertLag.LagWorld(BEGINNING, [BEGINNING.c.stored], 0), 1)
    ensures RevertLag.LagReaches(RevertLag.LagWorld(BEGINNING, [BEGINNING.c.stored], 0), m)
    ensures m.w.worker == Loaded(m.w.c.stored) && TopIs(m.w.c.stored.reverts, Undone)
    ensures Last(m.w.c.stored.reverts).oldClaims == [OLD] && KEY !in m.w.c.claims
  {
    BeginningIsRevertible();
    var a, replacing, b, restoring, _, _ := WholeRevertAndUndo();
    GoesOn(BEGINNING, a, replacing, b, restoring);
    var x := RevertLag.LagWorld(BEGINNING, [BEGINNING.c.stored], 0);
    var at := RevertLag.CurrentReadsAreAllowed(1, x, a + b);
    StillPending(restoring);
    m := RevertLag.LateRetryLosesClaim(1, at, NO_ANSWERS);
    RevertLag.LagReachesJoin(x, at, m);
  }

  /** A run from the start that gets stuck: the request is recorded, the user asks for an undo instead, and nothing but
      another edit changes the object again. */
  lemma ChangingOnesMindGetsStuck() returns (labels: seq<Label>, m: World)
    ensures Start(BEGINNING, 1) && Exec(BEGINNING, labels) == Some(m) && StageOf(m.c.stored) == Stuck
    ensures forall rest: seq<Label> :: NoEdits(rest) && Exec(m, rest).Some? ==>
        Exec(m, rest).value.c.stored == m.c.stored
  {
    BeginningIsRevertible();
    var recorded;
    recorded, m := RevertFlaws.EditingGetsStuck(1, BEGINNING);
    var some :| Calm(BEGINNING, some) && Exec(BEGINNING, some) == Some(recorded);
    var edit := Outside(EditAction(BEGINNING.c.stored.action.(kind := Undo), BEGINNING.c.stored.keepStatus));
    labels := some + [edit];
    ExecOneMore(BEGINNING, some, edit);
  }

  /** And the failure: lose the one call that records the undo, and it is never recorded. */
  lemma LosingOneCallBlocksUndo() returns (labels: seq<Label>, m: World)
    ensures Goes(BEGINNING, labels, m) && m.worker == Waiting && Pending(m.c.stored)
    ensures TopIs(m.c.stored.reverts, Paused)
    ensures forall rest: seq<Label> :: NoEdits(rest) && Exec(m, rest).Some? ==>
      Exec(m, rest).value.c.stored == m.c.stored && Down(Exec(m, rest).value.c)
  {
    var a, replacing, b, restoring, _, _ := WholeRevertAndUndo();
    GoesOn(BEGINNING, a, replacing, b, restoring);
    m := restoring.(worker := Waiting);
    Dropping(restoring);
    GoesOn(BEGINNING, a + b, restoring, [Drop], m);
    labels := a + b + [Drop];
    BlockedFrom(a + b, restoring);
    StillPending(restoring);
  }

  lemma Dropping(w: World)
    ensures Goes(w, [Drop], w.(worker := Waiting))
  {
    ExecOne(w, Drop);
    assert [Drop][..0] == [];
  }

  lemma StillPending(w: World)
    requires Completes(w, Restore) && w.worker.r == w.c.stored
    ensures Pending(w.c.stored) && TopIs(w.c.stored.reverts, Paused)
  {
    PausedStage(w.c.stored);
  }

  lemma BlockedFrom(labels: seq<Label>, restoring: World)
    requires Goes(BEGINNING, labels, restoring) && Completes(restoring, Restore)
    requires restoring.worker.r == restoring.c.stored
    requires LastOf(restoring.c.stored).oldClaims == [OLD]
    ensures var m := restoring.(worker := Waiting);
      forall rest: seq<Label> :: NoEdits(rest) && Exec(m, rest).Some? ==>
        Exec(m, rest).value.c.stored == m.c.stored && Down(Exec(m, rest).value.c)
  {
    BeginningIsRevertible();
    var m := restoring.(worker := Waiting);
    forall rest: seq<Label> | NoEdits(rest) && Exec(m, rest).Some?
      ensures Exec(m, rest).value.c.stored == m.c.stored && Down(Exec(m, rest).value.c)
    {
      LostUpdateBlocksUndo(1, BEGINNING, labels, 0, rest);
    }
  }
}
