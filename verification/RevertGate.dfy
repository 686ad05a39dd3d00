/** A validated revert pauses safely. First on its own: a revert that names a strategy moves a record from "init" to
    "paused" only after it saw a finished run. Then together with the validation controller: the jobs of all hooks of
    that run had been seen to succeed. */
module RevertGate {
  import opened Wrappers
  import opened Types
  import opened RevertCluster
  import opened RevertPlan
  import opened RevertMachine
  import opened RevertDowntime
  import opened RevertClaims
  import Selection
  import V = RunMachine
  import VP = RunPlan
  import VS = RunSafety

  predicate IsFinished(run: Run) { run.status.validationFinished }

  ghost predicate LookedAt(op: Op, observed: set<Run>) {
    match op
    case SeeRun(s, run) => run.Some? ==> run.value in observed && run.value.owner == s
    case CreateRun(run) => run in observed
    case AwaitFinished(n) => exists x <- observed :: x.name == n && IsFinished(x)
    case _ => true
  }

  ghost predicate Looked(w: World) {
    Named(w.c.runs) &&
    (w.worker.Busy? ==>
      w.worker.at <= |w.worker.ops| && forall i | 0 <= i < w.worker.at :: LookedAt(w.worker.ops[i], w.observed))
  }

  /** Of some run of the strategy a finished version was seen. */
  ghost predicate SawFinished(strategy: string, observed: set<Run>) {
    exists y <- observed, x <- observed :: y.owner == strategy && x.name == y.name && IsFinished(x)
  }

  /** The calls show a finished run of the strategy. */
  ghost predicate ShowFinished(ops: seq<Op>, strategy: string) {
    exists run: Run ::
      && (SeeRun(strategy, Some(run)) in ops || (CreateRun(run) in ops && run.owner == strategy))
      && (IsFinished(run) || AwaitFinished(run.name) in ops)
  }

  lemma CallLooks(c: Cluster, op: Op, observed: set<Run>)
    requires Accepts(c, op) && Named(c.runs)
    ensures LookedAt(op, Looks(observed, op, c.runs))
  {
    if op.AwaitFinished? {
      assert c.runs[op.name] in Looks(observed, op, c.runs);
    }
  }

  lemma LookedAtMore(op: Op, some: set<Run>, all: set<Run>)
    requires LookedAt(op, some) && some <= all
    ensures LookedAt(op, all)
  {
    if op.AwaitFinished? {
      var x :| x in some && x.name == op.name && IsFinished(x);
      assert x in all;
    }
  }

  lemma StepKeepsLooked(w: World, l: Label)
    requires Looked(w) && Step(w, l).Some?
    ensures Looked(Step(w, l).value)
  {
    var w' := Step(w, l).value;
    if l == Call && w'.worker.Busy? {
      var Busy(_, ops, at) := w.worker;
      CallLooks(w.c, ops[at], w.observed);
      forall i | 0 <= i < at ensures LookedAt(ops[i], w'.observed) {
        LookedAtMore(ops[i], w.observed, w'.observed);
      }
    }
  }

  lemma RunValidationShows(r: Revert, strategy: string, v: ValidationObs)
    requires r.reverts != [] && RunValidation(r, strategy, v).1
    ensures ShowFinished(RunValidation(r, strategy, v).0, strategy)
  {
    var ops := RunValidation(r, strategy, v).0;
    if v.second.Some? {
      assert ops[0] == SeeRun(strategy, Some(v.second.value)) && ops[1] == AwaitFinished(v.second.value.name);
    } else {
      assert ops[2].CreateRun? && ops[2].run.owner == strategy && ops[3] == AwaitFinished(ops[2].run.name);
      assert ops[2] == CreateRun(ops[2].run);
    }
  }

  lemma ShowsMore(a: seq<Op>, b: seq<Op>, strategy: string)
    requires ShowFinished(a, strategy) && forall op <- a :: op in b
    ensures ShowFinished(b, strategy)
  {
  }

  lemma ValidationShows(r: Revert, v: ValidationObs)
    requires Validates(r) && ValidationPlan(r, v).1
    ensures ShowFinished(ValidationPlan(r, v).0, r.validation.value)
  {
    var strategy := r.validation.value;
    if MissingValidation(v) {
      RunValidationShows(r, strategy, v);
      ShowsMore(RunValidation(r, strategy, v).0, ValidationPlan(r, v).0, strategy);
    } else {
      assert ValidationPlan(r, v).0[0] == SeeRun(strategy, Some(v.first.value.value));
    }
  }

  /** What comes after the validation has its calls before it. */
  lemma LaterPlanShows(r: Revert, obs: Obs, at: nat)
    requires Validates(r) && |ValidationPlan(r, obs.validation).0| <= at < |AllOps(r, obs)|
    ensures ShowFinished(AllOps(r, obs)[..at], r.validation.value)
  {
    var ops, v := AllOps(r, obs), ValidationPlan(r, obs.validation);
    assert v.1 by {
      assert !v.1 ==> ops == v.0;
    }
    ValidationShows(r, obs.validation);
    assert forall i | 0 <= i < |v.0| :: ops[..at][i] == v.0[i];
    ShowsMore(v.0, ops[..at], r.validation.value);
  }

  lemma NotInValidation(r: Revert, obs: Obs, at: nat)
    requires Validates(r) && at < |AllOps(r, obs)| && !Aside(AllOps(r, obs)[at])
    ensures |ValidationPlan(r, obs.validation).0| <= at
  {
    var ops, v := AllOps(r, obs), ValidationPlan(r, obs.validation);
    ValidationAside(r, obs.validation);
    assert forall i | 0 <= i < |v.0| :: ops[i] == v.0[i] && v.0[i] in v.0;
  }

  lemma ShownIsSeen(ops: seq<Op>, strategy: string, observed: set<Run>)
    requires ShowFinished(ops, strategy) && forall op <- ops :: LookedAt(op, observed)
    ensures SawFinished(strategy, observed)
  {
    var run: Run :| (SeeRun(strategy, Some(run)) in ops || (CreateRun(run) in ops && run.owner == strategy))
                 && (IsFinished(run) || AwaitFinished(run.name) in ops);
    assert LookedAt(SeeRun(strategy, Some(run)), observed) || LookedAt(CreateRun(run), observed);
    if !IsFinished(run) {
      assert LookedAt(AwaitFinished(run.name), observed);
    }
  }

  lemma PausingSawFinished(count: nat, m: World)
    requires Sound(count, m) && Tracked(m) && Looked(m) && Completes(m, Pause) && Validates(m.worker.r)
    ensures ShowFinished(m.worker.ops[..m.worker.at], m.worker.r.validation.value)
    ensures SawFinished(m.worker.r.validation.value, m.observed)
  {
    var Busy(r, ops, at) := m.worker;
    assert TameAt(r, ops, at);
    var obs :| ops == AllOps(r, obs);
    NotInValidation(r, obs, at);
    LaterPlanShows(r, obs, at);
    ShownIsSeen(ops[..at], r.validation.value, m.observed);
  }

  lemma {:induction false} AlwaysLooked(w: World, labels: seq<Label>)
    requires Looked(w) && Exec(w, labels).Some?
    ensures Looked(Exec(w, labels).value)
  {
    if labels != [] {
      AlwaysLooked(w, labels[..|labels| - 1]);
      StepKeepsLooked(Exec(w, labels[..|labels| - 1]).value, labels[|labels| - 1]);
    }
  }

  /** With a strategy configured, a record moves from "init" to "paused" only in a processing that has itself seen a
      finished version of some run of that strategy. */
  lemma PauseIsValidated(count: nat, w: World, labels: seq<Label>)
    requires Start(w, count) && Exec(w, labels).Some? && Completes(Exec(w, labels).value, Pause)
    requires var r := Exec(w, labels).value.worker.r; r.validation.Some? && r.validation.value != ""
    ensures var m := Exec(w, labels).value;
      && ShowFinished(m.worker.ops[..m.worker.at], m.worker.r.validation.value)
      && SawFinished(m.worker.r.validation.value, m.observed)
  {
    AlwaysSound(count, w, labels);
    AlwaysTracked(w, labels);
    AlwaysLooked(w, labels);
    PausingValidates(Exec(w, labels).value.worker.r);
    PausingSawFinished(count, Exec(w, labels).value);
  }

  lemma PausingValidates(r: Revert)
    requires StageOf(r) == Pause && r.validation.Some? && r.validation.value != ""
    ensures Validates(r)
  {
  }

  /** And it is not scaled down before that: the application of such a record stays up until the processing has seen a
      finished run of the strategy. */
  lemma StaysUpUntilValidated(count: nat, w: World, labels: seq<Label>)
    requires Start(w, count) && Exec(w, labels).Some? && Step(Exec(w, labels).value, Call).Some?
    requires var m := Exec(w, labels).value; m.worker.ops[m.worker.at].ScaleTo?
    requires var r := Exec(w, labels).value.worker.r;
      && r.action.kind == Latest && r.reverts != [] && Last(r.reverts).state == Init
      && r.validation.Some? && r.validation.value != ""
    ensures var m := Exec(w, labels).value;
      && ShowFinished(m.worker.ops[..m.worker.at], m.worker.r.validation.value)
      && SawFinished(m.worker.r.validation.value, m.observed)
  {
    AlwaysTracked(w, labels);
    AlwaysLooked(w, labels);
    var m := Exec(w, labels).value;
    var obs :| m.worker.ops == AllOps(m.worker.r, obs);
    ScaledAfterValidation(m.worker.r, obs, m.worker.at);
    ShownIsSeen(m.worker.ops[..m.worker.at], m.worker.r.validation.value, m.observed);
  }

  lemma ScaledAfterValidation(r: Revert, obs: Obs, at: nat)
    requires Validates(r) && at < |AllOps(r, obs)| && AllOps(r, obs)[at].ScaleTo?
    ensures ShowFinished(AllOps(r, obs)[..at], r.validation.value)
  {
    NotInValidation(r, obs, at);
    LaterPlanShows(r, obs, at);
  }

  /** Calls that look for a run, make one, wait for one or ask for its cleanup. */
  predicate AboutRuns(op: Op) { op.SeeRun? || op.CreateRun? || op.AwaitFinished? || op.RequestCleanup? }

  lemma StagesLeaveRunsAlone(r: Revert, obs: Obs)
    ensures forall op <- StagePlan(r, obs).ops :: !AboutRuns(op)
  {
    if StageOf(r) == Replace {
      var claims := LastOf(r).oldClaims;
      var chosen := Selection.Select(claims, obs.snaps, obs.failed, r.action.fromTime, r.action.toTime);
      if chosen.Some? {
        ReplaceOpsKinds(r.stsType, claims, chosen.value, obs.volumes);
      }
    }
  }

  /** Only a `latest` that names a strategy concerns itself with runs, and only for a record in state "init". */
  lemma ValidatesOnlyWhenAsked(r: Revert, obs: Obs, at: nat)
    requires at < |AllOps(r, obs)| && AboutRuns(AllOps(r, obs)[at])
    ensures r.action.kind == Latest && r.validation.Some? && r.validation.value != ""
    ensures r.reverts != [] && Last(r.reverts).state == Init
  {
    assert AllOps(r, obs)[at] in AllOps(r, obs);
    if !Validates(r) {
      UnaskedLeavesRunsAlone(r, obs);
    }
  }

  lemma UnaskedLeavesRunsAlone(r: Revert, obs: Obs)
    requires !Validates(r)
    ensures forall op <- AllOps(r, obs) :: !AboutRuns(op)
  {
    StagesLeaveRunsAlone(r, obs);
    assert AllOps(r, obs) == StagePlan(r, obs).ops + Closing(r, StagePlan(r, obs).result);
  }

  /** A finished run of the strategy is enough: a processing that finds one has no more to do with runs, neither making
      one nor asking for a cleanup. */
  lemma FinishedRunIsEnough(r: Revert, obs: Obs, run: Run)
    requires r.action.kind == Latest && r.validation.Some? && r.validation.value != ""
    requires r.reverts != [] && Last(r.reverts).state == Init
    requires obs.validation.first == Some(Some(run)) && run.status.validationFinished
    ensures |AllOps(r, obs)| > 0 && AllOps(r, obs)[0] == SeeRun(r.validation.value, Some(run))
    ensures forall i | 0 < i < |AllOps(r, obs)| :: !AboutRuns(AllOps(r, obs)[i])
  {
    StagesLeaveRunsAlone(r, obs);
    var ops := StagePlan(r, obs).ops;
    assert forall i | 0 <= i < |ops| :: ops[i] in ops;
    assert AllOps(r, obs)
        == [SeeRun(r.validation.value, Some(run))] + ops + Closing(r, StagePlan(r, obs).result);
  }

  /** A processing that had to validate asks for the cleanup of the very run it waited for, right after the wait. */
  lemma ValidationEndsWithCleanup(r: Revert, obs: Obs) returns (i: nat)
    requires Validates(r) && RevertPlan.MissingValidation(obs.validation) && PlanFor(r, obs).result.Some?
    ensures i + 1 < |AllOps(r, obs)| && AllOps(r, obs)[i].AwaitFinished? && AllOps(r, obs)[i + 1].RequestCleanup?
    ensures AllOps(r, obs)[i + 1].complete.name == AllOps(r, obs)[i].name
  {
    var v := ValidationPlan(r, obs.validation);
    i := |v.0| - 2;
    EndsWithCleanup(r, obs.validation);
    assert AllOps(r, obs)[i] == v.0[i] && AllOps(r, obs)[i + 1] == v.0[i + 1];
  }

  lemma EndsWithCleanup(r: Revert, v: ValidationObs)
    requires Validates(r) && RevertPlan.MissingValidation(v) && ValidationPlan(r, v).1
    ensures var ops := ValidationPlan(r, v).0;
      && |ops| > 1 && ops[|ops| - 2].AwaitFinished? && ops[|ops| - 1].RequestCleanup?
      && ops[|ops| - 1].complete.name == ops[|ops| - 2].name
  {
    var run := RunValidation(r, r.validation.value, v).0;
    assert |run| > 1 && run[|run| - 2].AwaitFinished? && run[|run| - 1].RequestCleanup?;
    assert ValidationPlan(r, v).0 == FirstLook(r.validation.value, v) + run;
  }

  /** A run created for a revert has its snapshots already: it maps exactly the old claims of the record, and the
      validation controller can start on it at once. It is named after the strategy, is in the namespace of the revert,
      and has nothing done yet. */
  lemma CreatedRunPassesGate(r: Revert, v: ValidationObs, run: Run, obs: VP.Obs)
    requires Validates(r) && CreateRun(run) in ValidationPlan(r, v).0
    requires forall s <- v.snaps :: s.name != ""
    ensures run.claimsToSnapshots.Keys == Selection.Names(Last(r.reverts).oldClaims)
    ensures run == Run(r.namespace, r.validation.value + "-" + v.suffix, r.validation.value, run.claimsToSnapshots,
        false,
        [], [], NOTHING_DONE)
    ensures VP.NoGaps(run) && VP.PlanFor(run, obs) == VP.Plan([], VP.Store(VP.Stamped(run)))
  {
    var claims := Last(r.reverts).oldClaims;
    var chosen := Selection.Select(claims, v.snaps, v.failed, r.action.fromTime, r.action.toTime);
    CreatedRunIs(r, v, run);
    forall n | n in chosen.value ensures chosen.value[n].name != "" {
      Selection.NewestIsMaximal(v.snaps, n, r.action.fromTime, r.action.toTime);
    }
  }

  lemma CreatedRunIs(r: Revert, v: ValidationObs, run: Run)
    requires Validates(r) && CreateRun(run) in ValidationPlan(r, v).0
    ensures var chosen :=
        Selection.Select(Last(r.reverts).oldClaims, v.snaps, v.failed, r.action.fromTime, r.action.toTime);
      chosen.Some? && run == NewRun(r.namespace, r.validation.value, v.suffix, chosen.value)
  {
    var ops := RunValidation(r, r.validation.value, v).0;
    assert forall op <- FirstLook(r.validation.value, v) :: op.SeeRun?;
    assert CreateRun(run) in ops;
  }

  // ---- Both controllers on the same runs ----

  datatype Both = Both(reverts: World, runs: V.World)

  datatype BothLabel = Reverting(l: Label) | Validating(v: V.Label)

  /** What a call of the revert controller is for the validation controller, if it writes a run. */
  function Written(op: Op): Option<V.Label> {
    match op
    case CreateRun(run) => Some(V.RunCreated(run))
    case RequestCleanup(run) => Some(V.CleanupRequested(run.name))
    case _ => None
  }

  function CallOf(w: World, l: Label): Option<Op> {
    if l == Call && w.worker.Busy? && w.worker.at < |w.worker.ops| then Some(w.worker.ops[w.worker.at]) else None
  }

  /** The two controllers take turns. Runs change only by what one of them or a snapshot arrival does. */
  ghost function StepBoth(b: Both, l: BothLabel): Option<Both> {
    match l
    case Validating(v) =>
      if !V.Enabled(b.runs, v) then None
      else
        var runs := V.Next(b.runs, v);
        Some(Both(b.reverts.(c := b.reverts.c.(runs := runs.s.runs)), runs))
    case Reverting(r) =>
      if (r.Outside? && r.e.RunsChange?) || Step(b.reverts, r).None? then None
      else
        var after := Step(b.reverts, r).value;
        var op := CallOf(b.reverts, r);
        if op.None? || Written(op.value).None? then Some(Both(after, b.runs))
        else if V.Enabled(b.runs, Written(op.value).value)
            then Some(Both(after, V.Next(b.runs, Written(op.value).value)))
        else None
  }

  ghost function ExecBoth(b: Both, labels: seq<BothLabel>): Option<Both> {
    if labels == [] then Some(b)
    else
      var mid := ExecBoth(b, labels[..|labels| - 1]);
      if mid.None? then None else StepBoth(mid.value, labels[|labels| - 1])
  }

  ghost predicate Coupled(count: nat, b: Both) {
    && Sound(count, b.reverts) && Tracked(b.reverts) && Looked(b.reverts)
    && VS.Good(b.runs)
    && b.reverts.c.runs == b.runs.s.runs
    && b.reverts.observed <= b.runs.s.past
  }

  lemma RunsChangeKeeps(count: nat, w: World, runs: map<string, Run>)
    requires Sound(count, w) && Tracked(w) && Looked(w) && Named(runs)
    ensures var w' := w.(c := w.c.(runs := runs)); Sound(count, w') && Tracked(w') && Looked(w')
  {
    StepKeepsSound(count, w, Outside(RunsChange(runs)));
    StepKeepsTracked(w, Outside(RunsChange(runs)));
    StepKeepsLooked(w, Outside(RunsChange(runs)));
  }

  lemma PastGrows(w: V.World, l: V.Label)
    requires V.Enabled(w, l)
    ensures w.s.past <= V.Next(w, l).s.past
  {
  }

  lemma ValidatingKeepsCoupled(count: nat, b: Both, v: V.Label)
    requires Coupled(count, b) && StepBoth(b, Validating(v)).Some?
    ensures Coupled(count, StepBoth(b, Validating(v)).value)
  {
    VS.StepKeepsGood(b.runs, v);
    PastGrows(b.runs, v);
    RunsChangeKeeps(count, b.reverts, V.Next(b.runs, v).s.runs);
  }

  lemma RevertStepRuns(w: World, l: Label)
    requires Step(w, l).Some? && !(l.Outside? && l.e.RunsChange?)
    requires CallOf(w, l).Some? ==> Written(CallOf(w, l).value).None?
    ensures Step(w, l).value.c.runs == w.c.runs
    ensures Step(w, l).value.observed <= w.observed + w.c.runs.Values
  {
  }

  /** A write of the revert controller is one step of the validation machine. */
  lemma WriteRuns(c: Cluster, observed: set<Run>, op: Op, runs: V.World)
    requires Accepts(c, op) && Written(op).Some?
    requires c.runs == runs.s.runs && VS.SiteGood(runs.s)
    ensures Effect(c, op).runs == V.Next(runs, Written(op).value).s.runs
    ensures Looks(observed, op, c.runs) <= observed + V.Next(runs, Written(op).value).s.past
  {
    if op.RequestCleanup? {
      assert op.complete == runs.s.runs[op.complete.name];
    }
  }

  lemma RevertingKeepsCoupled(count: nat, b: Both, l: Label)
    requires Coupled(count, b) && StepBoth(b, Reverting(l)).Some?
    ensures Coupled(count, StepBoth(b, Reverting(l)).value)
  {
    StepKeepsSound(count, b.reverts, l);
    StepKeepsTracked(b.reverts, l);
    StepKeepsLooked(b.reverts, l);
    var op := CallOf(b.reverts, l);
    if op.None? || Written(op.value).None? {
      RevertStepRuns(b.reverts, l);
      forall run | run in b.runs.s.runs.Values ensures run in b.runs.s.past {}
    } else {
      VS.StepKeepsGood(b.runs, Written(op.value).value);
      PastGrows(b.runs, Written(op.value).value);
      WriteRuns(b.reverts.c, b.reverts.observed, op.value, b.runs);
    }
  }

  lemma StartIsCoupled(count: nat, b: Both)
    requires Start(b.reverts, count) && V.Start(b.runs) && b.reverts.c.runs == map[]
    ensures Coupled(count, b)
  {
  }

  lemma {:induction false} AlwaysCoupled(count: nat, b: Both, labels: seq<BothLabel>)
    requires Coupled(count, b) && ExecBoth(b, labels).Some?
    ensures Coupled(count, ExecBoth(b, labels).value)
  {
    if labels != [] {
      var before := labels[..|labels| - 1];
      AlwaysCoupled(count, b, before);
      match labels[|labels| - 1]
      case Validating(v) => ValidatingKeepsCoupled(count, ExecBoth(b, before).value, v);
      case Reverting(l) => RevertingKeepsCoupled(count, ExecBoth(b, before).value, l);
    }
  }

  /** The run is finished, and the job of each hook the strategy has was seen to succeed for it. */
  ghost predicate Passed(runs: V.World, run: Run) {
    && IsFinished(run) && run.owner in runs.s.strategies
    && VS.HookSucceeded(runs.s, "init", runs.s.strategies[run.owner].init, run)
    && VS.HookSucceeded(runs.s, "prevalidation", runs.s.strategies[run.owner].preValidation, run)
    && VS.HookSucceeded(runs.s, "validation", runs.s.strategies[run.owner].validation, run)
  }

  /** A validated revert pauses safely: in every interleaving of the two controllers, when a record of a revert that
      names a strategy moves from "init" to "paused", the processing that does it has looked at a run of that strategy
      that had finished its validation, and the job of each hook the strategy has had been seen to succeed for it. */
  lemma ValidatedRevertPausesSafely(count: nat, b: Both, labels: seq<BothLabel>)
    requires Start(b.reverts, count) && V.Start(b.runs) && b.reverts.c.runs == map[] && ExecBoth(b, labels).Some?
    requires var m := ExecBoth(b, labels).value.reverts; Completes(m, Pause) && Validates(m.worker.r)
    ensures var m := ExecBoth(b, labels).value;
      exists run <- m.reverts.observed :: run.owner == m.reverts.worker.r.validation.value && Passed(m.runs, run)
  {
    StartIsCoupled(count, b);
    AlwaysCoupled(count, b, labels);
    PausesSafely(count, ExecBoth(b, labels).value);
  }

  lemma PausesSafely(count: nat, m: Both)
    requires Coupled(count, m) && Completes(m.reverts, Pause) && Validates(m.reverts.worker.r)
    ensures exists run <- m.reverts.observed ::
              run.owner == m.reverts.worker.r.validation.value && Passed(m.runs, run)
  {
    PausingSawFinished(count, m.reverts);
    var strategy := m.reverts.worker.r.validation.value;
    var y, x :| y in m.reverts.observed && x in m.reverts.observed && y.owner == strategy && x.name == y.name
        && IsFinished(x);
    assert VS.Agree(x, y) && VS.GoodRun(m.runs.s, x);
    VP.PrefixChain(x.status);
    assert Passed(m.runs, x);
  }
}
