/** A pending step that is ready can be stored: a calm run that does it. */
module RevertSteps {
  import opened Wrappers
  import opened Types
  import opened RevertCluster
  import opened RevertPlan
  import opened RevertMachine
  import opened RevertDowntime
  import opened RevertReady
  import opened Selection
  import VP = RunPlan

  // ---- Pieces of runs ----

  /** The cluster after these calls, if it takes them one after the other. */
  ghost function Issue(c: Cluster, ops: seq<Op>): Option<Cluster> {
    if ops == [] then Some(c)
    else
      var mid := Issue(c, ops[..|ops| - 1]);
      if mid.Some? && Accepts(mid.value, ops[|ops| - 1]) then Some(Effect(mid.value, ops[|ops| - 1])) else None
  }

  lemma {:induction false} IssueConcat(c: Cluster, a: seq<Op>, b: seq<Op>)
    requires Issue(c, a).Some?
    ensures Issue(c, a + b) == Issue(Issue(c, a).value, b)
  {
    if b == [] {
      assert a + b == a;
    } else {
      assert (a + b)[..|a + b| - 1] == a + b[..|b| - 1];
      IssueConcat(c, a, b[..|b| - 1]);
    }
  }

  lemma IssueOne(c: Cluster, op: Op)
    requires Accepts(c, op)
    ensures Issue(c, [op]) == Some(Effect(c, op))
  {
    assert [op][..0] == [];
    assert Issue(c, [op][..0]) == Some(c);
  }

  predicate Upcoming(worker: Worker, list: seq<Op>) {
    && worker.Busy? && worker.at + |list| <= |worker.ops|
    && (forall i | 0 <= i < |list| :: worker.ops[worker.at + i] == list[i] && !list[i].UpdateRevert?)
  }

  lemma Calling(w: World, mid: World) returns (m: World)
    requires Reaches(w, mid) && mid.worker.Busy? && mid.worker.at < |mid.worker.ops|
    requires var op := mid.worker.ops[mid.worker.at]; Accepts(mid.c, op) && !op.UpdateRevert?
    ensures Reaches(w, m) && m.worker == mid.worker.(at := mid.worker.at + 1)
    ensures m.c == Effect(mid.c, mid.worker.ops[mid.worker.at])
  {
    m := AfterCall(mid);
    assert Step(mid, Call) == Some(m);
    ReachesNext(w, mid, Call);
  }

  /** The worker issues its next calls. */
  lemma {:induction false} Issuing(w: World, list: seq<Op>) returns (m: World)
    requires Upcoming(w.worker, list) && Issue(w.c, list).Some?
    ensures Reaches(w, m) && m.c == Issue(w.c, list).value && m.worker == w.worker.(at := w.worker.at + |list|)
  {
    if list == [] {
      m := w;
      ReachesSelf(w);
    } else {
      var n := |list| - 1;
      var mid := Issuing(w, list[..n]);
      assert w.worker.ops[w.worker.at + n] == list[n];
      m := Calling(w, mid);
    }
  }

  /** The worker reads the object and gets to work. */
  lemma Beginning(w: World, obs: Obs) returns (m: World)
    requires w.worker == Waiting
    ensures Reaches(w, m) && m == World(w.c, Busy(w.c.stored, AllOps(w.c.stored, obs), 0), {})
  {
    ReachesSelf(w);
    var loaded := w.(worker := Loaded(w.c.stored));
    assert Step(w, Load) == Some(loaded);
    ReachesNext(w, w, Load);
    m := World(w.c, Busy(w.c.stored, AllOps(w.c.stored, obs), 0), {});
    assert Step(loaded, Begin(obs)) == Some(m);
    ReachesNext(w, loaded, Begin(obs));
  }

  lemma Happening(w: World, e: Event) returns (m: World)
    requires Possible(w.c, e) && CalmStep(w, Outside(e))
    ensures Reaches(w, m) && m == w.(c := Change(w.c, e))
  {
    ReachesSelf(w);
    m := w.(c := Change(w.c, e));
    assert Step(w, Outside(e)) == Some(m);
    ReachesNext(w, w, Outside(e));
  }

  lemma {:induction false} PodsGone(w: World) returns (m: World)
    requires w.c.running <= w.c.pods
    ensures Reaches(w, m) && m == w.(c := w.c.(pods := 0, running := 0))
    decreases w.c.pods
  {
    if w.c.pods == 0 {
      m := w;
      ReachesSelf(w);
    } else {
      var next := Happening(w, PodRemoved);
      m := PodsGone(next);
      ReachesJoin(w, next, m);
    }
  }

  lemma {:induction false} PodsUp(w: World, n: nat) returns (m: World)
    requires w.c.running == w.c.pods == 0 && w.c.sts.replicas.Some? && n <= w.c.sts.replicas.value
    ensures Reaches(w, m) && m == w.(c := w.c.(pods := n, running := n))
  {
    if n == 0 {
      m := w;
      ReachesSelf(w);
    } else {
      var some := PodsUp(w, n - 1);
      var added := Happening(some, PodAdded);
      ReachesJoin(w, some, added);
      m := Happening(added, PodStarted);
      ReachesJoin(w, added, m);
    }
  }

  /** The processing of `r` has issued all calls but the last, which is to store its result. */
  ghost predicate AboutToStore(w: World, m: World, obs: Obs) {
    var r, ops := w.c.stored, AllOps(w.c.stored, obs);
    && Reaches(w, m) && m.c.stored == r && PlanFor(r, obs).result.Some?
    && m.worker == Busy(r, ops, |ops| - 1)
  }

  lemma Storing(w: World, m: World, obs: Obs) returns (done: World)
    requires AboutToStore(w, m, obs)
    ensures Reaches(w, done) && Reaches(m, done) && done.worker == Waiting
    ensures done.c == m.c.(stored := PlanFor(w.c.stored, obs).result.value)
  {
    var r, ops := w.c.stored, AllOps(w.c.stored, obs);
    assert ops[|ops| - 1] == UpdateRevert(r, PlanFor(r, obs).result.value);
    done := AfterCall(m);
    assert Step(m, Call) == Some(done);
    ReachesSelf(m);
    ReachesNext(m, m, Call);
    ReachesJoin(w, m, done);
  }

  // ---- Recording ----

  lemma {:induction false} SomeListing(claims: map<Key, Claim>, selector: Labels) returns (found: seq<Claim>)
    requires forall k <- claims :: claims[k].Key() == k
    ensures Lists(found, claims, selector)
    decreases |claims|
  {
    if claims == map[] {
      found := [];
    } else {
      var k :| k in claims;
      var rest := claims - {k};
      assert |rest| < |claims| by {
        assert rest.Keys == claims.Keys - {k};
      }
      found := SomeListing(rest, selector);
      if Matches(selector, claims[k].labels) {
        ListsMore(found, rest, selector, k, claims[k]);
        found := found + [claims[k]];
        assert rest[k := claims[k]] == claims;
      } else {
        ListsSame(found, claims, selector, k);
      }
    }
  }

  lemma ListsSame(found: seq<Claim>, claims: map<Key, Claim>, selector: Labels, k: Key)
    requires k in claims && !Matches(selector, claims[k].labels) && Lists(found, claims - {k}, selector)
    ensures Lists(found, claims, selector)
  {
    assert forall j <- claims :: j == k || (j in claims - {k} && (claims - {k})[j] == claims[j]);
  }

  lemma ListsMore(found: seq<Claim>, claims: map<Key, Claim>, selector: Labels, k: Key, claim: Claim)
    requires Lists(found, claims, selector) && k !in claims && claim.Key() == k && Matches(selector, claim.labels)
    ensures Lists(found + [claim], claims[k := claim], selector)
  {
    var more := found + [claim];
    assert forall c :: c in more <==> c in found || c == claim;
    forall i, j | 0 <= i < j < |more| ensures more[i].Key() != more[j].Key() {
      assert more[i] == found[i] && found[i] in found;
    }
  }

  lemma RecordIsReached(count: nat, w: World) returns (m: World, obs: Obs)
    requires Sound(count, w) && w.worker == Waiting && StageOf(w.c.stored) == Initialize && Ready(w.c, w.c.stored)
    ensures AboutToStore(w, m, obs) && m.c == w.c
    ensures obs.replicas == w.c.sts.replicas && Lists(obs.claims, w.c.claims, w.c.sts.selector)
  {
    var found := SomeListing(w.c.claims, w.c.sts.selector);
    obs := NO_ANSWERS.(replicas := w.c.sts.replicas, claims := found);
    var list := [ReadSts(w.c.sts.replicas)] + [ListClaims(found)];
    RecordingOps(w.c.stored, obs);
    var begun := Beginning(w, obs);
    IssueOne(w.c, ReadSts(w.c.sts.replicas));
    IssueOne(w.c, ListClaims(found));
    IssueConcat(w.c, [ReadSts(w.c.sts.replicas)], [ListClaims(found)]);
    m := Issuing(begun, list);
    ReachesJoin(w, begun, m);
  }

  lemma RecordingOps(r: Revert, obs: Obs)
    requires StageOf(r) == Initialize && obs.replicas.Some? && obs.replicas.value != 0
    ensures PlanFor(r, obs).result.Some?
    ensures AllOps(r, obs) == [ReadSts(obs.replicas)] + [ListClaims(obs.claims)]
        + [UpdateRevert(r, PlanFor(r, obs).result.value)]
  {
    assert !Validates(r);
  }

  // ---- Pausing ----

  /** All stamps up to the end of the validation. */
  function Validated(status: Status): Status {
    Status(true, true, true, true, true, true, true, true, status.cleanupStarted, status.cleanupFinished)
  }

  /** What the validation controller makes of a run. */
  predicate Later(runs: map<string, Run>, run: Run) {
    && run.name in runs && run.status.validationFinished
    && (runs[run.name] == run || (VP.NoGaps(runs[run.name]) && TakenOn(runs[run.name], run)))
  }

  /** Answers by which the validation comes to an end: a run of the strategy is seen finished, or there is none, and
      the one that is made from the snapshots finishes. */
  ghost predicate Conclusive(c: Cluster, r: Revert, v: ValidationObs)
    requires Validates(r)
  {
    var strategy := r.validation.value;
    if v.first.Some? && v.first.value.Some? then
      v.first.value.value.owner == strategy && Later(c.runs, v.first.value.value)
    else
      && v.first == Some(None) && v.second == None && NoRunOf(c, strategy)
      && v.snaps == c.snapshots && !v.failed
      && var chosen := Select(LastOf(r).oldClaims, v.snaps, false, r.action.fromTime, r.action.toTime);
      && chosen.Some?
      && var run := NewRun(r.namespace, strategy, v.suffix, chosen.value);
      run.name !in c.runs && VP.NoGaps(run) && v.last == run.(status := Validated(run.status))
  }

  lemma SomeAnswers(c: Cluster, r: Revert) returns (v: ValidationObs)
    requires Validates(r) && Validatable(c, r) && Named(c.runs) && HaveNames(c.snapshots)
    ensures Conclusive(c, r, v) && ValidationPlan(r, v).1
  {
    if n :| n in c.runs && c.runs[n].owner == r.validation.value && CanFinish(c.runs[n]) {
      var run := c.runs[n];
      var later := if run.status.validationFinished then run else run.(status := Validated(run.status));
      v := NO_ANSWERS.validation.(first := Some(Some(later)));
    } else {
      v := AnswersWithoutRun(c, r);
    }
  }

  lemma AnswersWithoutRun(c: Cluster, r: Revert) returns (v: ValidationObs)
    requires Validates(r) && NoRunOf(c, r.validation.value) && !Uncovered(c, r) && HaveNames(c.snapshots)
    ensures Conclusive(c, r, v) && ValidationPlan(r, v).1
  {
    var claims, from, to := LastOf(r).oldClaims, r.action.fromTime, r.action.toTime;
    var chosen := Select(claims, c.snapshots, false, from, to);
    forall n | n in chosen.value ensures chosen.value[n].name != "" {
      NewestIsMaximal(c.snapshots, n, from, to);
    }
    var suffix := FreshName(c.runs.Keys);
    var run := NewRun(r.namespace, r.validation.value, suffix, chosen.value);
    assert |run.name| > |suffix| && forall n <- c.runs :: |n| < |run.name|;
    v := ValidationObs(Some(None), None, c.snapshots, false, suffix, run.(status := Validated(run.status)));
  }

  function PauseAnswers(replicas: Option<nat>, v: ValidationObs): Obs {
    NO_ANSWERS.(replicas := replicas, validation := v)
  }

  function LookOps(r: Revert, v: ValidationObs): seq<Op> {
    if Validates(r) then ValidationPlan(r, v).0 else []
  }

  lemma PausingOps(r: Revert, replicas: Option<nat>, v: ValidationObs)
    requires Pausing(StageOf(r)) && (Validates(r) ==> ValidationPlan(r, v).1)
    ensures var obs := PauseAnswers(replicas, v);
      && PlanFor(r, obs).result.Some?
      && AllOps(r, obs) == LookOps(r, v) + PauseOps(replicas) + [UpdateRevert(r, PlanFor(r, obs).result.value)]
  {
    assert StagePlan(r, PauseAnswers(replicas, v)).ops == PauseOps(replicas);
  }

  lemma RunsChanging(w: World, runs: map<string, Run>) returns (m: World)
    requires Named(runs) && RunsGoOn(w.c.runs, runs)
    ensures Reaches(w, m) && m == w.(c := w.c.(runs := runs))
  {
    m := Happening(w, RunsChange(runs));
  }

  /** A run of the strategy is seen finished. */
  lemma SeesFinished(w: World, v: ValidationObs) returns (m: World)
    requires w.worker.Busy? && Validates(w.worker.r) && Conclusive(w.c, w.worker.r, v) && Named(w.c.runs)
    requires v.first.Some? && v.first.value.Some? && Upcoming(w.worker, LookOps(w.worker.r, v))
    ensures Reaches(w, m) && m.worker == w.worker.(at := w.worker.at + |LookOps(w.worker.r, v)|)
    ensures m.c == w.c.(runs := m.c.runs)
  {
    var run, strategy := v.first.value.value, w.worker.r.validation.value;
    var mid := RunsChanging(w, w.c.runs[run.name := run]);
    IssueOne(mid.c, SeeRun(strategy, Some(run)));
    assert LookOps(w.worker.r, v) == [SeeRun(strategy, Some(run))];
    m := Issuing(mid, LookOps(w.worker.r, v));
    ReachesJoin(w, mid, m);
  }

  /** The calls up to the creation of a run, and the two after it has finished. */
  function CreatingOps(r: Revert, v: ValidationObs, run: Run): seq<Op>
    requires Validates(r)
  {
    [SeeRun(r.validation.value, None)] + [SeeRun(r.validation.value, None)] + [ListSnapshots(v.snaps, v.failed)]
    + [CreateRun(run)]
  }

  function FinishingOps(run: Run): seq<Op> {
    [AwaitFinished(run.name)] + [RequestCleanup(run)]
  }

  lemma CreatingTaken(c: Cluster, r: Revert, v: ValidationObs, run: Run)
    requires Validates(r) && NoRunOf(c, r.validation.value) && v.snaps == c.snapshots && run.name !in c.runs
    ensures Issue(c, CreatingOps(r, v, run)) == Some(c.(runs := c.runs[run.name := run]))
  {
    var see, list := SeeRun(r.validation.value, None), ListSnapshots(v.snaps, v.failed);
    IssueOne(c, see);
    IssueOne(c, list);
    IssueOne(c, CreateRun(run));
    IssueConcat(c, [see], [see]);
    IssueConcat(c, [see] + [see], [list]);
    IssueConcat(c, [see] + [see] + [list], [CreateRun(run)]);
  }

  lemma FinishingTaken(c: Cluster, run: Run)
    requires run.name in c.runs && c.runs[run.name] == run && run.status.validationFinished
    ensures Issue(c, FinishingOps(run)) == Some(c.(runs := c.runs[run.name := run.(cleanup := true)]))
  {
    IssueOne(c, AwaitFinished(run.name));
    IssueOne(c, RequestCleanup(run));
    IssueConcat(c, [AwaitFinished(run.name)], [RequestCleanup(run)]);
  }

  lemma CreatingLook(r: Revert, v: ValidationObs, run: Run)
    requires Validates(r) && v.first == Some(None) && v.second == None
    requires var chosen := Select(LastOf(r).oldClaims, v.snaps, v.failed, r.action.fromTime, r.action.toTime);
      chosen.Some? && run == NewRun(r.namespace, r.validation.value, v.suffix, chosen.value)
    requires v.last.name == run.name
    ensures LookOps(r, v) == CreatingOps(r, v, run) + FinishingOps(v.last)
  {
  }

  lemma UpcomingParts(worker: Worker, a: seq<Op>, b: seq<Op>)
    requires Upcoming(worker, a + b)
    ensures Upcoming(worker, a) && Upcoming(worker.(at := worker.at + |a|), b)
  {
    assert forall i | 0 <= i < |a| :: (a + b)[i] == a[i];
    assert forall i | 0 <= i < |b| :: (a + b)[|a| + i] == b[i];
  }

  lemma MakesRun(w: World, v: ValidationObs, run: Run) returns (made: World)
    requires w.worker.Busy? && Validates(w.worker.r) && Upcoming(w.worker, CreatingOps(w.worker.r, v, run))
    requires NoRunOf(w.c, w.worker.r.validation.value) && v.snaps == w.c.snapshots && run.name !in w.c.runs
    ensures Reaches(w, made) && made.worker == w.worker.(at := w.worker.at + |CreatingOps(w.worker.r, v, run)|)
    ensures made.c == w.c.(runs := w.c.runs[run.name := run])
  {
    CreatingTaken(w.c, w.worker.r, v, run);
    made := Issuing(w, CreatingOps(w.worker.r, v, run));
  }

  lemma FinishesRun(made: World, run: Run, last: Run) returns (m: World)
    requires made.worker.Busy? && Upcoming(made.worker, FinishingOps(last)) && Named(made.c.runs)
    requires run.name in made.c.runs && made.c.runs[run.name] == run
    requires VP.NoGaps(run) && last == run.(status := Validated(run.status))
    ensures Reaches(made, m) && m.worker == made.worker.(at := made.worker.at + |FinishingOps(last)|)
    ensures m.c == made.c.(runs := m.c.runs)
  {
    var finished := RunsChanging(made, made.c.runs[run.name := last]);
    FinishingTaken(finished.c, last);
    m := Issuing(finished, FinishingOps(last));
    ReachesJoin(made, finished, m);
  }

  /** A run is made from the snapshots, finishes, and is asked to be cleaned up. */
  lemma CreatesAndFinishes(w: World, v: ValidationObs) returns (m: World)
    requires w.worker.Busy? && Validates(w.worker.r) && Conclusive(w.c, w.worker.r, v) && Named(w.c.runs)
    requires v.first == Some(None) && Upcoming(w.worker, LookOps(w.worker.r, v))
    ensures Reaches(w, m) && m.worker == w.worker.(at := w.worker.at + |LookOps(w.worker.r, v)|)
    ensures m.c == w.c.(runs := m.c.runs)
  {
    var r := w.worker.r;
    var chosen := Select(LastOf(r).oldClaims, v.snaps, false, r.action.fromTime, r.action.toTime);
    var run := NewRun(r.namespace, r.validation.value, v.suffix, chosen.value);
    CreatingLook(r, v, run);
    UpcomingParts(w.worker, CreatingOps(r, v, run), FinishingOps(v.last));
    var made := MakesRun(w, v, run);
    m := FinishesRun(made, run, v.last);
    ReachesJoin(w, made, m);
  }

  /** The validation has finished, or none is asked for. */
  lemma Validating(w: World, v: ValidationObs) returns (m: World)
    requires w.worker.Busy? && Upcoming(w.worker, LookOps(w.worker.r, v)) && Named(w.c.runs)
    requires Validates(w.worker.r) ==> Conclusive(w.c, w.worker.r, v)
    ensures Reaches(w, m) && m.worker == w.worker.(at := w.worker.at + |LookOps(w.worker.r, v)|)
    ensures m.c == w.c.(runs := m.c.runs)
  {
    if !Validates(w.worker.r) {
      ReachesSelf(w);
      m := w;
    } else if v.first.Some? && v.first.value.Some? {
      m := SeesFinished(w, v);
    } else {
      m := CreatesAndFinishes(w, v);
    }
  }

  lemma PauseTaken(c: Cluster)
    requires c.sts.replicas.Some?
    ensures Issue(c, PauseOps(c.sts.replicas)[..|PauseOps(c.sts.replicas)| - 1]) ==
        Some(c.(sts := c.sts.(replicas := Some(0))))
  {
    var read := ReadSts(c.sts.replicas);
    IssueOne(c, read);
    if c.sts.replicas.value != 0 {
      IssueOne(c, ScaleTo(0));
      IssueConcat(c, [read], [ScaleTo(0)]);
      assert PauseOps(c.sts.replicas)[..2] == [read] + [ScaleTo(0)];
    } else {
      assert PauseOps(c.sts.replicas)[..1] == [read];
    }
  }

  function BeforeWait(replicas: Option<nat>): seq<Op> {
    PauseOps(replicas)[..|PauseOps(replicas)| - 1]
  }

  lemma PausingUpcoming(r: Revert, x: Option<nat>, v: ValidationObs)
    requires Pausing(StageOf(r)) && (Validates(r) ==> ValidationPlan(r, v).1)
    ensures var look, scale, ops := LookOps(r, v), BeforeWait(x), AllOps(r, PauseAnswers(x, v));
      && Upcoming(Busy(r, ops, 0), look) && Upcoming(Busy(r, ops, |look|), scale)
      && Upcoming(Busy(r, ops, |look| + |scale|), [AwaitNoPods]) && |ops| == |look| + |scale| + 2
      && PlanFor(r, PauseAnswers(x, v)).result.Some?
  {
    PausingOps(r, x, v);
    LookStoresNothing(r, v);
    assert PauseOps(x) == BeforeWait(x) + [AwaitNoPods];
    var last := UpdateRevert(r, PlanFor(r, PauseAnswers(x, v)).result.value);
    UpcomingThree(r, LookOps(r, v), BeforeWait(x), AwaitNoPods, last, AllOps(r, PauseAnswers(x, v)));
  }

  lemma UpcomingThree(r: Revert, look: seq<Op>, scale: seq<Op>, wait: Op, last: Op, ops: seq<Op>)
    requires ops == look + (scale + [wait]) + [last] && !wait.UpdateRevert?
    requires forall i | 0 <= i < |look| :: !look[i].UpdateRevert?
    requires forall i | 0 <= i < |scale| :: !scale[i].UpdateRevert?
    ensures Upcoming(Busy(r, ops, 0), look) && Upcoming(Busy(r, ops, |look|), scale)
    ensures Upcoming(Busy(r, ops, |look| + |scale|), [wait]) && |ops| == |look| + |scale| + 2
  {
  }

  lemma LookStoresNothing(r: Revert, v: ValidationObs)
    ensures forall i | 0 <= i < |LookOps(r, v)| :: !LookOps(r, v)[i].UpdateRevert?
  {
    if Validates(r) {
      ValidationAside(r, v);
    }
    assert forall i | 0 <= i < |LookOps(r, v)| :: LookOps(r, v)[i] in LookOps(r, v);
  }

  /** The validation, if there is one, can come to an end with these answers. */
  ghost predicate Concludes(c: Cluster, v: ValidationObs) {
    Validates(c.stored) ==> Conclusive(c, c.stored, v) && ValidationPlan(c.stored, v).1
  }

  lemma ScalesDown(w: World, v: ValidationObs) returns (m: World)
    requires w.worker == Waiting && Pausing(StageOf(w.c.stored)) && w.c.sts.replicas.Some? && w.c.running <= w.c.pods
    requires Concludes(w.c, v) && Named(w.c.runs)
    ensures var r, x := w.c.stored, w.c.sts.replicas;
      && Reaches(w, m) && m.worker == Busy(r, AllOps(r, PauseAnswers(x, v)), |LookOps(r, v)| + |BeforeWait(x)|)
      && m.c == w.c.(sts := w.c.sts.(replicas := Some(0)), pods := 0, running := 0, runs := m.c.runs)
  {
    var r, x := w.c.stored, w.c.sts.replicas;
    PausingUpcoming(r, x, v);
    var looked := LooksFirst(w, v);
    PauseTaken(looked.c);
    var scaled := Issuing(looked, BeforeWait(x));
    ReachesJoin(w, looked, scaled);
    m := PodsGone(scaled);
    ReachesJoin(w, scaled, m);
  }

  lemma LooksFirst(w: World, v: ValidationObs) returns (looked: World)
    requires w.worker == Waiting && Pausing(StageOf(w.c.stored)) && Concludes(w.c, v) && Named(w.c.runs)
    ensures var r, x := w.c.stored, w.c.sts.replicas;
      && Reaches(w, looked) && looked.worker == Busy(r, AllOps(r, PauseAnswers(x, v)), |LookOps(r, v)|)
      && looked.c == w.c.(runs := looked.c.runs)
  {
    PausingUpcoming(w.c.stored, w.c.sts.replicas, v);
    var begun := Beginning(w, PauseAnswers(w.c.sts.replicas, v));
    looked := Validating(begun, v);
    ReachesJoin(w, begun, looked);
  }

  lemma PauseIsReached(count: nat, w: World) returns (m: World, obs: Obs)
    requires Sound(count, w) && w.worker == Waiting && Pausing(StageOf(w.c.stored)) && Ready(w.c, w.c.stored)
    ensures AboutToStore(w, m, obs)
    ensures m.c == w.c.(sts := w.c.sts.(replicas := Some(0)), pods := 0, running := 0, runs := m.c.runs)
  {
    var v := NO_ANSWERS.validation;
    if Validates(w.c.stored) {
      v := SomeAnswers(w.c, w.c.stored);
    }
    obs := PauseAnswers(w.c.sts.replicas, v);
    m := AwaitsNoPods(w, v);
  }

  lemma AwaitsNoPods(w: World, v: ValidationObs) returns (m: World)
    requires w.worker == Waiting && Pausing(StageOf(w.c.stored)) && w.c.sts.replicas.Some? && w.c.running <= w.c.pods
    requires Concludes(w.c, v) && Named(w.c.runs)
    ensures AboutToStore(w, m, PauseAnswers(w.c.sts.replicas, v))
    ensures m.c == w.c.(sts := w.c.sts.(replicas := Some(0)), pods := 0, running := 0, runs := m.c.runs)
  {
    var r, x := w.c.stored, w.c.sts.replicas;
    var empty := ScalesDown(w, v);
    PausingUpcoming(r, x, v);
    IssueOne(empty.c, AwaitNoPods);
    m := Issuing(empty, [AwaitNoPods]);
    ReachesJoin(w, empty, m);
  }

  // ---- Resuming ----

  lemma ResumingOps(r: Revert, obs: Obs)
    requires Resuming(StageOf(r)) && LastOf(r).replicas.Some? && obs.scaled && obs.replicas.Some?
    ensures PlanFor(r, obs).result.Some?
    ensures AllOps(r, obs) == [ReadSts(obs.replicas)] + [ScaleTo(LastOf(r).replicas.value)]
                            + [AwaitPods(obs.replicas.value)] + [UpdateRevert(r, PlanFor(r, obs).result.value)]
  {
    assert !Validates(r);
  }

  lemma ResumeTaken(c: Cluster, count: nat)
    requires c.sts.replicas.Some?
    ensures Issue(c, [ReadSts(c.sts.replicas)] + [ScaleTo(count)]) == Some(c.(sts := c.sts.(replicas := Some(count))))
  {
    IssueOne(c, ReadSts(c.sts.replicas));
    IssueOne(c, ScaleTo(count));
    IssueConcat(c, [ReadSts(c.sts.replicas)], [ScaleTo(count)]);
  }

  lemma ScalesUp(count: nat, w: World, obs: Obs) returns (m: World)
    requires w.worker == Waiting && Resuming(StageOf(w.c.stored)) && LastOf(w.c.stored).replicas == Some(count)
    requires w.c.sts.replicas.Some?
    requires obs == NO_ANSWERS.(replicas := w.c.sts.replicas, scaled := true)
    ensures Reaches(w, m) && m.c == w.c.(sts := w.c.sts.(replicas := Some(count)))
    ensures m.worker == Busy(w.c.stored, AllOps(w.c.stored, obs), 2)
  {
    ResumingOps(w.c.stored, obs);
    m := Beginning(w, obs);
    ResumeTaken(w.c, count);
    var begun := m;
    m := Issuing(m, [ReadSts(w.c.sts.replicas)] + [ScaleTo(count)]);
    ReachesJoin(w, begun, m);
  }

  lemma PodsFollow(w: World, n: nat) returns (m: World)
    requires w.c.running <= w.c.pods && w.c.sts.replicas.Some? && n <= w.c.sts.replicas.value
    ensures Reaches(w, m) && m == w.(c := w.c.(pods := n, running := n))
  {
    var empty := PodsGone(w);
    m := PodsUp(empty, n);
    ReachesJoin(w, empty, m);
  }

  lemma ResumingFacts(count: nat, w: World)
    requires Sound(count, w) && Resuming(StageOf(w.c.stored))
    ensures LastOf(w.c.stored).replicas == Some(count)
    ensures w.c.sts.replicas.Some? && w.c.sts.replicas.value <= count && w.c.running <= w.c.pods
  {
    assert LastOf(w.c.stored) in w.c.stored.reverts;
  }

  lemma AwaitsPods(w: World, up: World, obs: Obs, x: nat) returns (m: World)
    requires Reaches(w, up) && up.c.stored == w.c.stored && up.c.pods == up.c.running == x && obs.replicas == Some(x)
    requires obs.scaled
    requires Resuming(StageOf(w.c.stored)) && LastOf(w.c.stored).replicas.Some?
    requires up.worker == Busy(w.c.stored, AllOps(w.c.stored, obs), 2)
    ensures AboutToStore(w, m, obs) && m.c == up.c
  {
    ResumingOps(w.c.stored, obs);
    IssueOne(up.c, AwaitPods(x));
    m := Issuing(up, [AwaitPods(x)]);
    ReachesJoin(w, up, m);
  }

  lemma ResumeIsReached(count: nat, w: World) returns (m: World, obs: Obs)
    requires Sound(count, w) && w.worker == Waiting && Resuming(StageOf(w.c.stored))
    ensures AboutToStore(w, m, obs)
    ensures m.c == w.c.(sts := w.c.sts.(replicas := Some(count)), pods := m.c.pods, running := m.c.running)
  {
    ResumingFacts(count, w);
    obs := NO_ANSWERS.(replicas := w.c.sts.replicas, scaled := true);
    var scaled := ScalesUp(count, w, obs);
    var up := PodsFollow(scaled, w.c.sts.replicas.value);
    ReachesJoin(w, scaled, up);
    m := AwaitsPods(w, up, obs, w.c.sts.replicas.value);
  }
}
