/** The work loop with the two kinds of work it does: no revert request and no validation run is ever forgotten. */
module NoLostWork {
  import opened Wrappers
  import opened Types
  import opened WorkLoop
  import RP = RevertPlan
  import RM = RevertMachine
  import VP = RunPlan

  // ---- Reverts ----

  /** No request is pending, or there is nothing it could act on, and retention has been applied. */
  predicate NothingToDo(r: Revert) {
    RP.StageOf(r) == RP.Rest && RP.Trim(r) == r
  }

  ghost predicate RevertStores(r: Revert, next: Revert) {
    exists obs :: RP.PlanFor(r, obs).result == Some(next)
  }

  ghost function RevertJob(): Job<Revert> {
    Job((r: Revert) => NothingToDo(r), (r: Revert, next: Revert) => RevertStores(r, next), (r: Revert) => false)
  }

  lemma RetainedLast(r: Revert, reverts: seq<Details>)
    requires reverts != []
    ensures RP.Retain(r, reverts) != [] && RP.LastOf(r.(reverts := RP.Retain(r, reverts))) == RM.Last(reverts)
  {
  }

  lemma InitializeMoves(r: Revert, obs: RP.Obs)
    requires RP.StageOf(r) == RP.Initialize && RP.InitializePlan(r, obs).result.Some?
    ensures RP.InitializePlan(r, obs).result.value != r
  {
    var all := RP.WithDetails(r.reverts);
    RetainedLast(r, all[|all| - 1 := Details(Init, obs.replicas, obs.claims)]);
  }

  lemma AdvancedMoves(r: Revert)
    requires RP.StageOf(r) in {RP.Pause, RP.UndoPause, RP.Replace, RP.Restore}
    ensures RP.Advanced(r, RP.StageOf(r)) != r
  {
    RetainedLast(r, RP.SetState(r.reverts, RP.Target(RP.StageOf(r))));
  }

  lemma StageMoves(r: Revert, obs: RP.Obs)
    requires RP.StagePlan(r, obs).result == Some(r)
    ensures RP.StageOf(r) == RP.Rest
  {
    match RP.StageOf(r)
    case Initialize => InitializeMoves(r, obs);
    case Pause => AdvancedMoves(r);
    case UndoPause => AdvancedMoves(r);
    case Replace => AdvancedMoves(r);
    case Restore => AdvancedMoves(r);
    case _ =>
  }

  /** A processing stores the object as it was if and only if there is nothing to do for it. */
  lemma UnchangedIffNothingToDo(r: Revert)
    ensures RevertStores(r, r) <==> NothingToDo(r)
  {
    if RevertStores(r, r) {
      var obs :| RP.PlanFor(r, obs).result == Some(r);
      assert RP.PlanFor(r, obs).result == RP.StagePlan(r, obs).result;
      StageMoves(r, obs);
    }
    if NothingToDo(r) {
      RestStores(r);
    }
  }

  lemma RestStores(r: Revert)
    requires NothingToDo(r)
    ensures RevertStores(r, r)
  {
    var run := Run("n", "n", "", map[], false, [], [], NOTHING_DONE.(validationFinished := true));
    var obs := RP.NO_ANSWERS.(validation := RP.NO_ANSWERS.validation.(first := Some(Some(run))));
    assert RP.PlanFor(r, obs).result == Some(r);
  }

  /** No revert request is lost: as long as the stored object has something to do, its key is queued, being
      processed or waiting for a retry, or an event is on its way. */
  lemma NoRevertLost(w: World<Revert>, labels: seq<Label<Revert>>, key: string)
    requires Start(w) && Exec(RevertJob(), w, labels).Some?
    ensures var m := Exec(RevertJob(), w, labels).value;
      key in m.server && !NothingToDo(m.server[key]) ==> m.queue.Holds(key) || Undelivered(m, key) != []
  {
    forall r: Revert | RevertStores(r, r) ensures NothingToDo(r) {
      UnchangedIffNothingToDo(r);
    }
    WorkLoop.NoLostWork(RevertJob(), w, labels, key);
  }

  // ---- Validation runs ----

  /** The run is finished, or it waits for the request to clean up. */
  predicate Resting(run: Run) {
    VP.StageOf(run.status) == 10 || (VP.StageOf(run.status) == 9 && !run.cleanup)
  }

  ghost predicate RunStores(run: Run, next: Run) {
    exists obs :: VP.PlanFor(run, obs).finish == VP.Store(next)
  }

  ghost predicate RunSilent(run: Run) {
    exists obs :: VP.PlanFor(run, obs).finish == VP.Silent
  }

  ghost function RunJob(): Job<Run> {
    Job((run: Run) => Resting(run), (run: Run, next: Run) => RunStores(run, next), (run: Run) => RunSilent(run))
  }

  lemma StampMoves(t: Status)
    requires VP.StageOf(t) < 10
    ensures VP.Mark(t, VP.StageOf(t)) != t
  {
  }

  lemma StoredRunMoved(run: Run, obs: VP.Obs)
    requires VP.PlanFor(run, obs).finish.Store?
    ensures VP.PlanFor(run, obs).finish.next.status == VP.Mark(run.status, VP.StageOf(run.status))
    ensures VP.StageOf(run.status) < 10
  {
  }

  /** Every processing that stores a run changes it, and one that passes over it in silence has nothing to do. */
  lemma RunJobDiligent()
    ensures Diligent(RunJob())
  {
    forall run: Run, next: Run | RunStores(run, next) ensures next != run {
      var obs :| VP.PlanFor(run, obs).finish == VP.Store(next);
      StoredRunMoved(run, obs);
      StampMoves(run.status);
    }
    forall run: Run | RunSilent(run) ensures Resting(run) {
      var obs :| VP.PlanFor(run, obs).finish == VP.Silent;
    }
  }

  /** No validation run is lost; a run that waits for `Cleanup` counts as having nothing to do. */
  lemma NoRunLost(w: World<Run>, labels: seq<Label<Run>>, key: string)
    requires Start(w) && Exec(RunJob(), w, labels).Some?
    ensures var m := Exec(RunJob(), w, labels).value;
      key in m.server && !Resting(m.server[key]) ==> m.queue.Holds(key) || Undelivered(m, key) != []
  {
    RunJobDiligent();
    WorkLoop.NoLostWork(RunJob(), w, labels, key);
  }
}
