/** Whether a pending request can end: exactly when its next step can be stored, what failures can and cannot change
    about that, and that whole requests can be carried out. */
module RevertEnds {
  import opened Wrappers
  import opened Types
  import opened RevertCluster
  import opened RevertPlan
  import opened RevertMachine
  import opened RevertDowntime
  import opened RevertSafety
  import opened RevertClaims
  import opened RevertProgress
  import opened RevertReady
  import opened RevertSteps
  import opened RevertRebuild
  import opened Selection

  // ---- The next step ----

  lemma ReadyIsReached(count: nat, w: World) returns (m: World, obs: Obs)
    requires Sound(count, w) && w.worker == Waiting && Rank(w.c.stored) > 0 && Ready(w.c, w.c.stored)
    ensures AboutToStore(w, m, obs)
  {
    match StageOf(w.c.stored)
    case Initialize => m, obs := RecordIsReached(count, w);
    case Pause => m, obs := PauseIsReached(count, w);
    case UndoPause => m, obs := PauseIsReached(count, w);
    case Replace => m, obs := ReplaceIsReached(count, w);
    case Restore => m, obs := RestoreIsReached(count, w);
    case Resume => m, obs := ResumeIsReached(count, w);
    case UndoResume => m, obs := ResumeIsReached(count, w);
  }

  lemma ReadyIsStored(count: nat, w: World) returns (done: World)
    requires Sound(count, w) && w.worker == Waiting && Rank(w.c.stored) > 0 && Ready(w.c, w.c.stored)
    ensures Reaches(w, done) && Rank(done.c.stored) == Rank(w.c.stored) - 1
  {
    var m, obs := ReadyIsReached(count, w);
    done := Storing(w, m, obs);
    StoredStepLowersRank(w.c.stored, obs);
  }

  /** Exactly when the next step of a pending request can be stored: some calm run brings the request closer to its end
      iff the step is ready. An `undo` needs every volume its claims name to be there and free; a `latest` needs a
      snapshot and a volume for every claim, and, if it names a strategy, a run that can finish, or none. */
  lemma NextStepIff(count: nat, w: World)
    requires Sound(count, w) && w.worker == Waiting && Rank(w.c.stored) > 0
    ensures (exists m :: Reaches(w, m) && Rank(m.c.stored) < Rank(w.c.stored)) <==> Ready(w.c, w.c.stored)
  {
    if Ready(w.c, w.c.stored) {
      var done := ReadyIsStored(count, w);
    } else {
      forall m | Reaches(w, m) ensures m.c.stored == w.c.stored {
        NotReadyNeverStores(count, w, m);
      }
    }
  }

  // ---- What failures do to a step ----

  lemma StepStaysSound(count: nat, w: World, l: Label)
    requires Sound(count, w) && Safe(w) && UpToDate(w) && CalmStep(w, l) && Step(w, l).Some?
    ensures var m := Step(w, l).value;
      && Sound(count, m) && Safe(m) && UpToDate(m)
      && Rank(w.c.stored) == Rank(m.c.stored) + if l == Call && Advances(w) then 1 else 0
  {
    StepKeepsSound(count, w, l);
    StepKeepsSafe(count, w, l);
    StepSpendsRank(count, w, l);
  }

  /** The request has moved on, or what its step needs is as it was. */
  ghost predicate Kept(count: nat, r: Revert, c: Cluster, w: World) {
    && Sound(count, w) && Safe(w) && UpToDate(w)
    && (Rank(w.c.stored) < Rank(r)
        || (w.c.stored == r && w.c.snapshots == c.snapshots && (StageOf(r) == Initialize ==> w.c.sts == c.sts)))
  }

  lemma QuietCallKeepsSite(count: nat, w: World)
    requires Sound(count, w) && w.worker.Busy? && w.worker.at < |w.worker.ops|
    requires !w.worker.ops[w.worker.at].UpdateRevert?
    ensures var c' := Effect(w.c, w.worker.ops[w.worker.at]);
      c'.stored == w.c.stored && c'.snapshots == w.c.snapshots
        && (StageOf(w.worker.r) == Initialize ==> c'.sts == w.c.sts)
  {
    assert TameOp(count, w.worker.r, w.worker.ops[w.worker.at]);
  }

  lemma StepKeepsSite(count: nat, w: World, l: Label)
    requires Sound(count, w) && UpToDate(w) && CalmStep(w, l) && Step(w, l).Some? && !(l == Call && Advances(w))
    requires Rank(w.c.stored) > 0
    ensures var c' := Step(w, l).value.c;
      c'.stored == w.c.stored && c'.snapshots == w.c.snapshots
        && (StageOf(w.c.stored) == Initialize ==> c'.sts == w.c.sts)
  {
    if l == Call {
      QuietCallKeepsSite(count, w);
    }
  }

  lemma KeptStays(count: nat, r: Revert, c: Cluster, w: World, l: Label)
    requires Rank(r) > 0 && Kept(count, r, c, w) && CalmStep(w, l) && Step(w, l).Some?
    ensures Kept(count, r, c, Step(w, l).value)
  {
    StepStaysSound(count, w, l);
    if w.c.stored == r && !(l == Call && Advances(w)) {
      StepKeepsSite(count, w, l);
    }
  }

  lemma {:induction false} AlwaysKept(count: nat, w: World, labels: seq<Label>)
    requires Sound(count, w) && Safe(w) && w.worker == Waiting && Rank(w.c.stored) > 0
    requires Calm(w, labels) && Exec(w, labels).Some?
    ensures Kept(count, w.c.stored, w.c, Exec(w, labels).value)
  {
    if labels != [] {
      AlwaysKept(count, w, labels[..|labels| - 1]);
      KeptStays(count, w.c.stored, w.c, Exec(w, labels[..|labels| - 1]).value, labels[|labels| - 1]);
    }
  }

  /** The claims of the record in progress were bound when they were recorded. */
  predicate RecordedBound(r: Revert) {
    forall claim <- LastOf(r).oldClaims :: claim.bound
  }

  /** What the validation needs in order to survive failures: a snapshot for every old claim, and no run of the strategy
      that cannot finish. */
  predicate Lasting(c: Cluster, r: Revert)
    requires Validates(r)
  {
    !Uncovered(c, r) && forall n <- c.runs :: c.runs[n].owner == r.validation.value ==> CanFinish(c.runs[n])
  }

  /** It lasts, and the worker has listed nothing from which a run with gaps could be made. */
  ghost predicate Lasts(r: Revert, w: World)
    requires Validates(r)
  {
    && Still(r, w) && Lasting(w.c, r) && HaveNames(w.c.snapshots)
    && (w.worker.Busy? ==>
          && w.worker.at <= |w.worker.ops|
          && forall i | 0 <= i < w.worker.at && w.worker.ops[i].ListSnapshots? :: HaveNames(w.worker.ops[i].list))
  }

  lemma EventLasts(r: Revert, w: World, e: Event)
    requires Validates(r) && Lasts(r, w) && Possible(w.c, e) && CalmStep(w, Outside(e))
    ensures Lasts(r, w.(c := Change(w.c, e)))
  {
  }

  /** A run that is made of a listing has no gaps. */
  lemma MadeRunCanFinish(r: Revert, ops: seq<Op>, at: nat)
    requires Validates(r) && at < |ops| && ops[at].CreateRun? && RestsOn(r, ops, at) && HaveNames(ops[at - 1].list)
    ensures CanFinish(ops[at].run)
  {
    var list, failed, claims := ops[at - 1].list, ops[at - 1].failed, LastOf(r).oldClaims;
    var chosen := Select(claims, list, failed, r.action.fromTime, r.action.toTime);
    forall n | n in chosen.value ensures chosen.value[n].name != "" {
      NewestIsMaximal(list, n, r.action.fromTime, r.action.toTime);
    }
  }

  lemma CallLasts(r: Revert, w: World)
    requires Validates(r) && Lasts(r, w) && Step(w, Call).Some? && !w.worker.ops[w.worker.at].UpdateRevert?
    ensures Lasts(r, Step(w, Call).value)
  {
    StillAfterCall(r, w);
    WorkerRests(r, w);
    CallKeepsLasting(w.c, r, w.worker.ops, w.worker.at);
  }

  lemma CallKeepsLasting(c: Cluster, r: Revert, ops: seq<Op>, at: nat)
    requires Validates(r) && Lasting(c, r) && HaveNames(c.snapshots) && at < |ops| && Accepts(c, ops[at])
    requires RestsOn(r, ops, at) && forall i | 0 <= i < at && ops[i].ListSnapshots? :: HaveNames(ops[i].list)
    ensures Lasting(Effect(c, ops[at]), r) && HaveNames(Effect(c, ops[at]).snapshots)
    ensures forall i | 0 <= i < at + 1 && ops[i].ListSnapshots? :: HaveNames(ops[i].list)
  {
    if ops[at].CreateRun? {
      MadeRunCanFinish(r, ops, at);
    }
    OpKeepsLasting(c, r, ops[at]);
  }

  lemma OpKeepsLasting(c: Cluster, r: Revert, op: Op)
    requires Validates(r) && Lasting(c, r) && Accepts(c, op) && (op.CreateRun? ==> CanFinish(op.run))
    ensures Lasting(Effect(c, op), r) && Effect(c, op).snapshots == c.snapshots
    ensures op.ListSnapshots? && HaveNames(c.snapshots) ==> HaveNames(op.list)
  {
  }

  lemma StepLasts(r: Revert, w: World, l: Label)
    requires Validates(r) && Lasts(r, w) && CalmStep(w, l) && Step(w, l).Some?
    ensures Step(w, l).value.c.stored == r && !(l == Call && w.worker.ops[w.worker.at].UpdateRevert?) ==>
      Lasts(r, Step(w, l).value)
  {
    match l
    case Call =>
      if !w.worker.ops[w.worker.at].UpdateRevert? {
        CallLasts(r, w);
      }
    case Outside(e) => EventLasts(r, w, e);
    case _ =>
  }

  lemma {:induction false} AlwaysLasts(count: nat, w: World, labels: seq<Label>)
    requires Sound(count, w) && Safe(w) && w.worker == Waiting && Rank(w.c.stored) > 0
    requires Validates(w.c.stored) && Lasting(w.c, w.c.stored) && Calm(w, labels) && Exec(w, labels).Some?
    ensures Exec(w, labels).value.c.stored == w.c.stored ==> Lasts(w.c.stored, Exec(w, labels).value)
  {
    if labels != [] {
      var before, l, r := labels[..|labels| - 1], labels[|labels| - 1], w.c.stored;
      AlwaysLasts(count, w, before);
      AlwaysKept(count, w, before);
      var mid := Exec(w, before).value;
      StepStaysSound(count, mid, l);
      if mid.c.stored == r && !(l == Call && Advances(mid)) {
        StepLasts(r, mid, l);
      }
    }
  }

  lemma KeptIsReady(count: nat, w: World, m: World)
    requires Ready(w.c, w.c.stored) && Kept(count, w.c.stored, w.c, m) && m.c.stored == w.c.stored
    requires StageOf(w.c.stored) != Restore && (StageOf(w.c.stored) == Replace ==> RecordedBound(w.c.stored))
    requires Validates(w.c.stored) ==> Lasting(m.c, m.c.stored)
    ensures Ready(m.c, m.c.stored)
  {
    var r := w.c.stored;
    if StageOf(r) == Replace {
      var i := |r.reverts| - 1;
      PausedStage(r);
      assert ClaimsSafe(m.c, r.reverts[i].oldClaims, Forward(r) && i == |r.reverts| - 1);
    }
  }

  /** Failures do not block a `latest` request, nor the pausing and resuming of an `undo`: however often the processing
      of a step that was ready has been cut, and wherever, as long as it has not been stored it still can be. With a
      strategy the validation has to last: the run that was seen may be gone when the step is tried again. */
  lemma FailuresDoNotBlock(count: nat, w: World, m: World) returns (done: World)
    requires Sound(count, w) && Safe(w) && w.worker == Waiting && Rank(w.c.stored) > 0 && Ready(w.c, w.c.stored)
    requires StageOf(w.c.stored) != Restore && (StageOf(w.c.stored) == Replace ==> RecordedBound(w.c.stored))
    requires Validates(w.c.stored) ==> Lasting(w.c, w.c.stored)
    requires Reaches(w, m) && m.c.stored == w.c.stored
    ensures Reaches(m, done) && Rank(done.c.stored) == Rank(w.c.stored) - 1
  {
    var labels :| Calm(w, labels) && Exec(w, labels) == Some(m);
    AlwaysKept(count, w, labels);
    if Validates(w.c.stored) {
      AlwaysLasts(count, w, labels);
    }
    KeptIsReady(count, w, m);
    var idle := Dropped(m);
    StepKeepsSound(count, m, Drop);
    done := ReadyIsStored(count, idle);
    ReachesJoin(m, idle, done);
  }

  lemma Dropped(m: World) returns (idle: World)
    ensures Reaches(m, idle) && idle == m.(worker := Waiting)
  {
    idle := m.(worker := Waiting);
    ReachesSelf(m);
    assert Step(m, Drop) == Some(idle);
    ReachesNext(m, m, Drop);
  }

  // A validation that does not last

  function AdoptOps(strategy: string, run: Run): seq<Op> {
    [SeeRun(strategy, Some(run))] + FinishingOps(run)
  }

  lemma AdoptTaken(c: Cluster, run: Run)
    requires run.name in c.runs && c.runs[run.name] == run && run.status.validationFinished
    ensures Issue(c, AdoptOps(run.owner, run)) == Some(c.(runs := c.runs[run.name := run.(cleanup := true)]))
  {
    IssueOne(c, SeeRun(run.owner, Some(run)));
    FinishingTaken(c, run);
    IssueConcat(c, [SeeRun(run.owner, Some(run))], FinishingOps(run));
  }

  /** A processing finds this run, waits for it and asks for its cleanup, and then is cut. */
  lemma Adopts(w: World, run: Run) returns (m: World)
    requires w.worker == Waiting && Validates(w.c.stored) && run.owner == w.c.stored.validation.value
    requires run.name in w.c.runs && w.c.runs[run.name] == run && run.status.validationFinished
    ensures Reaches(w, m) && m.worker == Waiting
    ensures m.c == w.c.(runs := w.c.runs[run.name := run.(cleanup := true)])
  {
    var obs := PauseAnswers(None, NO_ANSWERS.validation.(second := Some(run), last := run));
    AdoptingOps(w.c.stored, obs, run);
    var begun := Beginning(w, obs);
    AdoptTaken(w.c, run);
    var asked := Issuing(begun, AdoptOps(run.owner, run));
    ReachesJoin(w, begun, asked);
    m := Dropped(asked);
    ReachesJoin(w, asked, m);
  }

  function Finished(run: Run): Run {
    if run.status.validationFinished then run else run.(status := Validated(run.status))
  }

  /** Then the run goes. */
  lemma DiscardsOne(w: World, n: string) returns (m: World)
    requires w.worker == Waiting && Validates(w.c.stored) && Named(w.c.runs)
    requires n in w.c.runs && w.c.runs[n].owner == w.c.stored.validation.value && CanFinish(w.c.runs[n])
    ensures Reaches(w, m) && m.worker == Waiting && m.c == w.c.(runs := w.c.runs - {n})
  {
    var run := Finished(w.c.runs[n]);
    FinishedGoesOn(w.c.runs, n);
    var finished := RunsChanging(w, w.c.runs[n := run]);
    var asked := Adopts(finished, run);
    ReachesJoin(w, finished, asked);
    CleanedGoesOn(w.c.runs, asked.c.runs, n);
    m := RunsChanging(asked, asked.c.runs - {n});
    ReachesJoin(w, asked, m);
  }

  lemma FinishedGoesOn(runs: map<string, Run>, n: string)
    requires Named(runs) && n in runs && CanFinish(runs[n])
    ensures var run := Finished(runs[n]);
      run.name == n && Named(runs[n := run]) && RunsGoOn(runs, runs[n := run]) && run.owner == runs[n].owner
  {
  }

  lemma CleanedGoesOn(runs: map<string, Run>, asked: map<string, Run>, n: string)
    requires Named(runs) && n in runs && CanFinish(runs[n])
    requires asked == runs[n := Finished(runs[n])][n := Finished(runs[n]).(cleanup := true)]
    ensures Named(asked - {n}) && RunsGoOn(asked, asked - {n}) && asked - {n} == runs - {n}
  {
    assert asked[n].cleanup && asked[n].status.validationFinished;
  }

  lemma AdoptingOps(r: Revert, obs: Obs, run: Run)
    requires Validates(r) && obs.validation.first == None
    requires obs.validation.second == Some(run) == Some(obs.validation.last)
    ensures Upcoming(Busy(r, AllOps(r, obs), 0), AdoptOps(r.validation.value, run))
  {
    assert ValidationPlan(r, obs.validation).0 == AdoptOps(r.validation.value, run);
    var v, stage := ValidationPlan(r, obs.validation), StagePlan(r, obs);
    assert v.1 && AllOps(r, obs) == v.0 + stage.ops + Closing(r, stage.result);
    assert forall i | 0 <= i < |v.0| :: AllOps(r, obs)[i] == v.0[i];
  }

  /** The runs of the strategy that can finish. */
  function Finishable(c: Cluster, strategy: string): set<string> {
    set n | n in c.runs && c.runs[n].owner == strategy && CanFinish(c.runs[n])
  }

  lemma {:induction false} DiscardsAll(w: World) returns (m: World)
    requires w.worker == Waiting && Validates(w.c.stored) && Named(w.c.runs)
    ensures Reaches(w, m) && m.worker == Waiting
    ensures m.c == w.c.(runs := w.c.runs - Finishable(w.c, w.c.stored.validation.value))
    decreases |Finishable(w.c, w.c.stored.validation.value)|
  {
    var all := Finishable(w.c, w.c.stored.validation.value);
    if all == {} {
      m := w;
      ReachesSelf(w);
      assert w.c.runs - all == w.c.runs;
    } else {
      var n :| n in all;
      var some := DiscardsOne(w, n);
      assert Finishable(some.c, w.c.stored.validation.value) == all - {n};
      m := DiscardsAll(some);
      ReachesJoin(w, some, m);
      assert w.c.runs - {n} - (all - {n}) == w.c.runs - all;
    }
  }

  /** Exactly when the pausing of a revert that names a strategy survives all failures: from every state its failed
      attempts can lead to, it can still be stored, iff there is a snapshot for every old claim and no run of the
      strategy has a gap. Otherwise the run an attempt has adopted may be cleaned up before the attempt is repeated, and
      then there is none that finishes. */
  lemma PauseSurvivesFailuresIff(count: nat, w: World)
    requires Sound(count, w) && Safe(w) && w.worker == Waiting && StageOf(w.c.stored) == Pause && Validates(w.c.stored)
    ensures (forall m :: Reaches(w, m) && m.c.stored == w.c.stored ==>
               exists done :: Reaches(m, done) && Rank(done.c.stored) < Rank(w.c.stored))
       <==> Lasting(w.c, w.c.stored)
  {
    var r := w.c.stored;
    if Lasting(w.c, r) {
      forall m | Reaches(w, m) && m.c.stored == r
        ensures exists done :: Reaches(m, done) && Rank(done.c.stored) < Rank(r)
      {
        var done := FailuresDoNotBlock(count, w, m);
      }
    } else {
      var m := NotLastingCanBlock(count, w);
    }
  }

  lemma NothingIsLeft(c: Cluster, d: Cluster)
    requires Validates(c.stored) && StageOf(c.stored) == Pause && !Lasting(c, c.stored)
    requires d == c.(runs := c.runs - Finishable(c, c.stored.validation.value))
    ensures !Ready(d, d.stored)
  {
    if n :| n in c.runs && c.runs[n].owner == c.stored.validation.value && !CanFinish(c.runs[n]) {
      assert n in d.runs && d.runs[n] == c.runs[n];
    }
  }

  lemma NotLastingCanBlock(count: nat, w: World) returns (m: World)
    requires Sound(count, w) && w.worker == Waiting && StageOf(w.c.stored) == Pause && Validates(w.c.stored)
    requires !Lasting(w.c, w.c.stored)
    ensures Reaches(w, m) && m.c.stored == w.c.stored
    ensures forall done | Reaches(m, done) :: done.c.stored == w.c.stored
  {
    m := DiscardsAll(w);
    ReachedIsSound(count, w, m);
    NothingIsLeft(w.c, m.c);
    forall done | Reaches(m, done) ensures done.c.stored == w.c.stored {
      NotReadyNeverStores(count, m, done);
    }
  }

  /** The claims a restoring processing has put back so far are tied to their volumes if they are bound, and all are
      bound after the wait. */
  ghost predicate Ties(w: World) {
    w.worker.Busy? && StageOf(w.worker.r) == Restore ==>
      var claims := LastOf(w.worker.r).oldClaims;
      && (exists obs :: w.worker.ops == AllOps(w.worker.r, obs))
      && (forall i | 0 <= i < |claims| :: claims[i].spec.volumeName != "" && w.worker.at > CreateAt(w.worker.r, i) ==>
          Tied(w.c, claims[i]))
      && (w.worker.at > 2 * |claims| ==> AllBound(Keys(claims), w.c.claims))
  }

  lemma EventKeepsTies(w: World, e: Event)
    requires Ties(w) && Possible(w.c, e)
    ensures Ties(w.(c := Change(w.c, e)))
  {
    if w.worker.Busy? && StageOf(w.worker.r) == Restore {
      var claims := LastOf(w.worker.r).oldClaims;
      forall i | 0 <= i < |claims| && claims[i].spec.volumeName != ""
        ensures Tied(w.c, claims[i]) ==> Tied(Change(w.c, e), claims[i])
      {
        EventKeepsTied(w.c, e, claims[i]);
      }
    }
  }

  lemma CallTies(c: Cluster, r: Revert, obs: Obs, at: nat, i: nat)
    requires StageOf(r) == Restore && DistinctKeys(LastOf(r).oldClaims) && at <= 2 * |LastOf(r).oldClaims|
    requires i < |LastOf(r).oldClaims|
    requires |AllOps(r, obs)| > at && Accepts(c, AllOps(r, obs)[at])
    requires at > CreateAt(r, i) ==> Tied(c, LastOf(r).oldClaims[i])
    ensures at + 1 > CreateAt(r, i) ==> Tied(Effect(c, AllOps(r, obs)[at]), LastOf(r).oldClaims[i])
  {
    var claims := LastOf(r).oldClaims;
    RestoreOpAt(r, obs, at);
    OpKeepsTied(c, AllOps(r, obs)[at], claims[i]);
    if |claims| <= at < 2 * |claims| {
      var n := at - |claims|;
      assert n != i ==> claims[n].Key() != claims[i].Key();
    }
  }

  lemma CallAwaits(c: Cluster, r: Revert, obs: Obs, at: nat)
    requires StageOf(r) == Restore && at <= 2 * |LastOf(r).oldClaims|
    requires |AllOps(r, obs)| > at && Accepts(c, AllOps(r, obs)[at])
    ensures at == 2 * |LastOf(r).oldClaims| ==>
        AllBound(Keys(LastOf(r).oldClaims), Effect(c, AllOps(r, obs)[at]).claims)
  {
    RestoreOpAt(r, obs, at);
  }

  lemma CallKeepsTies(w: World, r: Revert, obs: Obs, at: nat)
    requires Ties(w) && w.worker == Busy(r, AllOps(r, obs), at) && StageOf(r) == Restore
    requires DistinctKeys(LastOf(r).oldClaims)
    requires at <= 2 * |LastOf(r).oldClaims| && |AllOps(r, obs)| > at && Accepts(w.c, AllOps(r, obs)[at])
    requires !AllOps(r, obs)[at].UpdateRevert?
    ensures Ties(AfterCall(w))
  {
    CallAwaits(w.c, r, obs, at);
    forall i | 0 <= i < |LastOf(r).oldClaims| && LastOf(r).oldClaims[i].spec.volumeName != "" && at + 1 > CreateAt(r, i)
      ensures Tied(Effect(w.c, AllOps(r, obs)[at]), LastOf(r).oldClaims[i])
    {
      CallTies(w.c, r, obs, at, i);
    }
    TiesAfter(w, r, obs, at, Effect(w.c, AllOps(r, obs)[at]));
  }

  lemma TiesAfter(w: World, r: Revert, obs: Obs, at: nat, c: Cluster)
    requires w.worker == Busy(r, AllOps(r, obs), at) && at < |AllOps(r, obs)| && !AllOps(r, obs)[at].UpdateRevert?
    requires c == Effect(w.c, AllOps(r, obs)[at]) && at <= 2 * |LastOf(r).oldClaims|
    requires var claims := LastOf(r).oldClaims;
      && (forall i | 0 <= i < |claims| && claims[i].spec.volumeName != "" && at + 1 > CreateAt(r, i) ::
          Tied(c, claims[i]))
      && (at == 2 * |claims| ==> AllBound(Keys(claims), c.claims))
    ensures Ties(AfterCall(w))
  {
    assert AfterCall(w).worker == Busy(r, AllOps(r, obs), at + 1);
  }

  lemma BeforeUpdate(r: Revert, obs: Obs, at: nat)
    requires StageOf(r) == Restore && at < |AllOps(r, obs)| && !AllOps(r, obs)[at].UpdateRevert?
    ensures at <= 2 * |LastOf(r).oldClaims|
  {
    RestoreOpsAt(r, obs);
  }

  lemma StepKeepsTies(count: nat, w: World, l: Label)
    requires Sound(count, w) && Ties(w) && Step(w, l).Some?
    ensures Ties(Step(w, l).value)
  {
    match l
    case Outside(e) => EventKeepsTies(w, e);
    case Call =>
      if StageOf(w.worker.r) == Restore && !w.worker.ops[w.worker.at].UpdateRevert? {
        var obs :| w.worker.ops == AllOps(w.worker.r, obs);
        PausedStage(w.worker.r);
        assert Last(w.worker.r.reverts) in w.worker.r.reverts;
        BeforeUpdate(w.worker.r, obs, w.worker.at);
        CallKeepsTies(w, w.worker.r, obs, w.worker.at);
      }
    case _ =>
  }

  lemma {:induction false} AlwaysTies(count: nat, w: World, labels: seq<Label>)
    requires Sound(count, w) && Ties(w) && Exec(w, labels).Some?
    ensures Sound(count, Exec(w, labels).value) && Ties(Exec(w, labels).value)
  {
    if labels != [] {
      var before, l := labels[..|labels| - 1], labels[|labels| - 1];
      AlwaysTies(count, w, before);
      StepKeepsSound(count, Exec(w, before).value, l);
      StepKeepsTies(count, Exec(w, before).value, l);
    }
  }

  lemma CompletedIsTied(m: World, i: nat)
    requires Ties(m) && Completes(m, Restore) && i < |LastOf(m.worker.r).oldClaims|
    requires LastOf(m.worker.r).oldClaims[i].spec.volumeName != ""
    ensures !Restorable(m.c, LastOf(m.worker.r).oldClaims)
  {
    var claims := LastOf(m.worker.r).oldClaims;
    var obs :| m.worker.ops == AllOps(m.worker.r, obs);
    RestoreOpsAt(m.worker.r, obs);
    if m.worker.at <= 2 * |claims| {
      RestoreOpAt(m.worker.r, obs, m.worker.at);
    }
    assert Keys(claims)[i] in Keys(claims);
    assert Tied(m.c, claims[i]);
  }

  /** A single lost update blocks an `undo` for ever: take any run in which a restoring processing has done everything
      but store its result, for a record of which some claim names a volume. If that one call is lost, no run without
      edits ever stores the step, because the claim is bound again and nothing frees its volume once the retry has
      deleted the claim. The application stays scaled to zero. */
  lemma LostUpdateBlocksUndo(count: nat, w: World, labels: seq<Label>, i: nat, rest: seq<Label>)
    requires Start(w, count) && Exec(w, labels).Some? && Completes(Exec(w, labels).value, Restore)
    requires var m := Exec(w, labels).value;
      && m.worker.r == m.c.stored && i < |LastOf(m.c.stored).oldClaims|
          && LastOf(m.c.stored).oldClaims[i].spec.volumeName != ""
      && NoEdits(rest) && Exec(m.(worker := Waiting), rest).Some?
    ensures var m, d := Exec(w, labels).value, Exec(Exec(w, labels).value.(worker := Waiting), rest).value;
      && Step(m, Drop) == Some(m.(worker := Waiting))
      && d.c.stored == m.c.stored && Down(d.c)
  {
    AlwaysTies(count, w, labels);
    LostUpdateBlocks(count, Exec(w, labels).value, i, rest);
  }

  lemma LostUpdateBlocks(count: nat, m: World, i: nat, rest: seq<Label>)
    requires Sound(count, m) && Ties(m) && Completes(m, Restore) && m.worker.r == m.c.stored
    requires i < |LastOf(m.c.stored).oldClaims| && LastOf(m.c.stored).oldClaims[i].spec.volumeName != ""
    requires NoEdits(rest) && Exec(m.(worker := Waiting), rest).Some?
    ensures var d := Exec(m.(worker := Waiting), rest).value;
      Step(m, Drop) == Some(m.(worker := Waiting)) && d.c.stored == m.c.stored && Down(d.c)
  {
    CompletedIsTied(m, i);
    BlockedUndo(count, m, rest);
  }

  lemma BlockedUndo(count: nat, m: World, rest: seq<Label>)
    requires Sound(count, m) && StageOf(m.c.stored) == Restore && !Restorable(m.c, LastOf(m.c.stored).oldClaims)
    requires NoEdits(rest) && Exec(m.(worker := Waiting), rest).Some?
    ensures var d := Exec(m.(worker := Waiting), rest).value; d.c.stored == m.c.stored && Down(d.c)
  {
    var dropped := m.(worker := Waiting);
    StepKeepsSound(count, m, Drop);
    NotRestorableForever(count, dropped, rest);
    PausedStage(m.c.stored);
    AlwaysTies(count, dropped, rest);
  }
}
