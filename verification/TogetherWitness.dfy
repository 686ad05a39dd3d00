/** Two validated reverts of one application, one after the other, with both controllers: the second takes the course of
    RevertTogether, although its strategy has had another run before, and the snapshot was taken after the start. */
module TogetherWitness {
  import opened Wrappers
  import opened Types
  import opened RevertCluster
  import opened RevertPlan
  import opened RevertMachine
  import opened RevertDowntime
  import opened RevertClaims
  import opened RevertAgreement
  import opened RevertGate
  import opened RevertTogether
  import opened BothSteps
  import opened Selection
  import RevertSteps
  import RevertRebuild
  import V = RunMachine
  import VP = RunPlan

  const SNAP := Snapshot("ns", "snap-0", "data-app-0", 5)
  const ASKED := Action(Latest, None, Some(10))
  const STS_TYPE := Some(StatefulSetType("app", "data", None))
  const UP := StatefulSet(Some(1), map[])

  function Request(reverts: seq<Details>): Revert {
    Revert("ns", STS_TYPE, Some("s"), 0, ASKED, reverts)
  }

  function Recorded(live: Claim, state: State): Details {
    Details(state, Some(1), [live])
  }

  /** The claim of the application, bound. */
  predicate Live(c: Cluster, live: Claim) {
    && live.Key() == KEY && live.labels == map[] && live.bound && live.spec.volumeName in c.volumes
    && c.claims == map[KEY := live]
  }

  /** No run is stored, no validation worker is busy, and what a validation needs is there. */
  predicate Idling(b: Both) {
    && b.reverts.c.runs == map[] && b.runs.s.runs == map[] && b.runs.tasks == map[]
    && b.runs.s.strategies == map["s" := STRATEGY] && b.runs.s.claims == CLAIMS
  }

  /** The revert worker waits, and the object is stored with these records. */
  predicate At(b: Both, live: Claim, reverts: seq<Details>, sts: StatefulSet) {
    && b.reverts.worker == Waiting && b.reverts.c.stored == Request(reverts) && Live(b.reverts.c, live)
    && b.reverts.c.sts == sts && b.reverts.c.pods == b.reverts.c.running == 0 && b.reverts.c.snapshots == [SNAP]
  }

  predicate NoneOpen(reverts: seq<Details>) {
    reverts != [] ==> Last(reverts).state == Finished
  }

  // ---- A whole processing ----

  lemma StoresResult(b: Both, next: Revert, name: string) returns (m: Both)
    requires b.reverts.worker.Busy? && b.reverts.worker.at + 1 == |b.reverts.worker.ops|
    requires b.reverts.worker.ops[b.reverts.worker.at] == UpdateRevert(b.reverts.c.stored, next)
    requires b.reverts.c.runs.Keys <= {name}
    ensures Passes(b, m, name) && m.runs == b.runs && m.reverts.worker == Waiting
    ensures m.reverts.c == b.reverts.c.(stored := next)
  {
    m := OneCall(b, name);
  }

  lemma PlanIsDue(w: World, ops: seq<Op>, next: Revert)
    requires w.worker == Busy(w.c.stored, ops + [UpdateRevert(w.c.stored, next)], 0)
    requires RevertSteps.Issue(w.c, ops).Some?
    requires forall op <- ops :: Written(op).None? && !op.UpdateRevert?
    ensures Due(w, ops)
  {
    assert forall i | 0 <= i < |ops| :: ops[i] in ops;
  }

  /** A processing that writes no run. */
  lemma StoresNext(b: Both, obs: Obs, ops: seq<Op>, d: Cluster, next: Revert, name: string) returns (m: Both)
    requires b.reverts.worker == Waiting && b.reverts.c.runs == map[]
    requires var r := b.reverts.c.stored; AllOps(r, obs) == ops + [UpdateRevert(r, next)] && d.stored == r
    requires RevertSteps.Issue(b.reverts.c, ops) == Some(d)
    requires forall op <- ops :: Written(op).None? && !op.UpdateRevert?
    ensures Passes(b, m, name) && m.runs == b.runs && m.reverts.worker == Waiting
    ensures m.reverts.c == d.(stored := next) && d.runs == map[]
  {
    var begun := GetsToWork(b, obs, name);
    PlanIsDue(begun.reverts, ops, next);
    var done := Calls(begun, ops, name);
    PassesJoin(b, begun, done, name);
    m := StoresResult(done, next, name);
    PassesJoin(b, done, m, name);
  }

  // ---- Recording ----

  lemma RecordTaken(c: Cluster, live: Claim)
    requires c.sts == UP && Live(c, live)
    ensures RevertSteps.Issue(c, [ReadSts(Some(1))] + [ListClaims([live])]) == Some(c)
  {
    RevertSteps.IssueOne(c, ReadSts(Some(1)));
    RevertSteps.IssueOne(c, ListClaims([live]));
    RevertSteps.IssueConcat(c, [ReadSts(Some(1))], [ListClaims([live])]);
  }

  lemma Records(b: Both, live: Claim, reverts: seq<Details>, name: string) returns (m: Both)
    requires At(b, live, reverts, UP) && Idling(b) && NoneOpen(reverts)
    ensures Passes(b, m, name) && m.runs == b.runs && m.reverts.worker == Waiting
    ensures m.reverts.c == b.reverts.c.(stored := Request(reverts + [Recorded(live, Init)]))
  {
    var obs := NO_ANSWERS.(replicas := Some(1), claims := [live]);
    var next := Request(reverts + [Recorded(live, Init)]);
    RevertSteps.RecordingOps(Request(reverts), obs);
    assert (reverts + [FRESH])[|reverts| := Recorded(live, Init)] == reverts + [Recorded(live, Init)];
    assert InitializePlan(Request(reverts), obs).result == Some(next);
    RecordTaken(b.reverts.c, live);
    m := StoresNext(b, obs, [ReadSts(Some(1))] + [ListClaims([live])], b.reverts.c, next, name);
  }

  // ---- Validating and pausing ----

  const NO_RUN := SeeRun("s", None)

  function RunName(suffix: string): string { "s-" + suffix }

  function PauseObs(suffix: string): Obs {
    RevertSteps.PauseAnswers(Some(1),
      ValidationObs(Some(None), None, [SNAP], false, suffix, Version(RunName(suffix), 8, [COPY])))
  }

  lemma Chooses(live: Claim)
    requires live.Key() == KEY
    ensures Select([live], [SNAP], false, None, Some(10)) == Some(map["data-app-0" := SNAP])
  {
    assert [SNAP][..0] == [] && Newest([SNAP][..0], "data-app-0", None, Some(10)) == None;
    assert live in [live] && Names([live]) == {"data-app-0"};
    assert AllCovered([live], [SNAP], None, Some(10));
    assert Chosen([live], [SNAP], None, Some(10)) == map["data-app-0" := SNAP];
  }

  lemma MakesVersion(suffix: string)
    ensures NewRun("ns", "s", suffix, map["data-app-0" := SNAP]) == Version(RunName(suffix), 0, [])
  {
    assert "s" + "-" + suffix == RunName(suffix);
    assert (map n | n in map["data-app-0" := SNAP] :: map["data-app-0" := SNAP][n].name) == ENTRIES;
  }

  function PauseList(r: Revert, next: Revert, name: string): seq<Op> {
    [NO_RUN, NO_RUN, ListSnapshots([SNAP], false), CreateRun(Version(name, 0, [])),
     AwaitFinished(name), RequestCleanup(Version(name, 8, [COPY])),
     ReadSts(Some(1)), ScaleTo(0), AwaitNoPods, UpdateRevert(r, next)]
  }

  lemma PauseIsPlanned(live: Claim, reverts: seq<Details>, suffix: string)
    requires live.Key() == KEY
    ensures var r, next := Request(reverts + [Recorded(live, Init)]), Request(reverts + [Recorded(live, Paused)]);
      AllOps(r, PauseObs(suffix)) == PauseList(r, next, RunName(suffix)) && Validates(r) && StageOf(r) == Pause
  {
    var r, v := Request(reverts + [Recorded(live, Init)]), PauseObs(suffix).validation;
    Chooses(live);
    MakesVersion(suffix);
    LookIsPlanned(r, v, Version(RunName(suffix), 0, []));
    RevertSteps.PausingOps(r, Some(1), v);
    assert PauseOps(Some(1)) == [ReadSts(Some(1)), ScaleTo(0), AwaitNoPods];
    assert Advanced(r, Pause) == Request(reverts + [Recorded(live, Paused)]);
  }

  lemma LookIsPlanned(r: Revert, v: ValidationObs, run: Run)
    requires Validates(r) && v.first == Some(None) && v.second == None && v.last.name == run.name
    requires var chosen := Select(LastOf(r).oldClaims, v.snaps, v.failed, r.action.fromTime, r.action.toTime);
      chosen.Some? && run == NewRun(r.namespace, r.validation.value, v.suffix, chosen.value)
    ensures ValidationPlan(r, v).1 && RevertSteps.LookOps(r, v) ==
      [SeeRun(r.validation.value, None), SeeRun(r.validation.value, None), ListSnapshots(v.snaps, v.failed),
        CreateRun(run),
       AwaitFinished(run.name), RequestCleanup(v.last)]
  {
    RevertSteps.CreatingLook(r, v, run);
  }

  lemma LookTaken(c: Cluster)
    requires c.runs == map[] && c.snapshots == [SNAP]
    ensures RevertSteps.Issue(c, [NO_RUN] + [NO_RUN] + [ListSnapshots([SNAP], false)]) == Some(c)
  {
    RevertSteps.IssueOne(c, NO_RUN);
    RevertSteps.IssueOne(c, ListSnapshots([SNAP], false));
    RevertSteps.IssueConcat(c, [NO_RUN], [NO_RUN]);
    RevertSteps.IssueConcat(c, [NO_RUN] + [NO_RUN], [ListSnapshots([SNAP], false)]);
  }

  /** The worker is at this point of the list of calls by which it validates and pauses. */
  predicate PausesAt(w: World, r: Revert, next: Revert, name: string, at: nat) {
    w.worker == Busy(r, PauseList(r, next, name), at)
  }

  lemma LookIsDue(w: World, r: Revert, next: Revert, name: string)
    requires PausesAt(w, r, next, name, 0) && w.c.runs == map[] && w.c.snapshots == [SNAP]
    ensures Due(w, [NO_RUN] + [NO_RUN] + [ListSnapshots([SNAP], false)])
  {
    LookTaken(w.c);
  }

  lemma LooksAround(b: Both, r: Revert, next: Revert, name: string) returns (m: Both)
    requires PausesAt(b.reverts, r, next, name, 0) && b.reverts.c.runs == map[] && b.reverts.c.snapshots == [SNAP]
    ensures Passes(b, m, name) && PausesAt(m.reverts, r, next, name, 3)
    ensures m.runs == b.runs && m.reverts.c == b.reverts.c
  {
    LookIsDue(b.reverts, r, next, name);
    LookTaken(b.reverts.c);
    m := Calls(b, [NO_RUN] + [NO_RUN] + [ListSnapshots([SNAP], false)], name);
  }

  lemma CreatesNow(m: World, live: Claim, reverts: seq<Details>, suffix: string)
    requires live.Key() == KEY
    requires PausesAt(m, Request(reverts + [Recorded(live, Init)]), Request(reverts + [Recorded(live, Paused)]),
               RunName(suffix), 3)
    ensures IsCreating(m, PauseObs(suffix), Version(RunName(suffix), 0, []))
  {
    PauseIsPlanned(live, reverts, suffix);
    CreatesFrom(m, Request(reverts + [Recorded(live, Init)]), Request(reverts + [Recorded(live, Paused)]),
      PauseObs(suffix), RunName(suffix));
  }

  lemma CreatesFrom(m: World, r: Revert, next: Revert, obs: Obs, name: string)
    requires PausesAt(m, r, next, name, 3) && AllOps(r, obs) == PauseList(r, next, name) && Validates(r)
    requires !obs.validation.failed
    ensures IsCreating(m, obs, Version(name, 0, []))
  {
  }

  lemma GetsToCreate(b: Both, live: Claim, reverts: seq<Details>, suffix: string) returns (m: Both)
    requires At(b, live, reverts + [Recorded(live, Init)], UP) && Idling(b)
    ensures Passes(b, m, RunName(suffix)) && m.runs == b.runs && m.reverts.c == b.reverts.c
    ensures PausesAt(m.reverts, b.reverts.c.stored, Request(reverts + [Recorded(live, Paused)]), RunName(suffix), 3)
  {
    PauseIsPlanned(live, reverts, suffix);
    var begun := GetsToWork(b, PauseObs(suffix), RunName(suffix));
    m := LooksAround(begun, b.reverts.c.stored, Request(reverts + [Recorded(live, Paused)]), RunName(suffix));
    PassesJoin(b, begun, m, RunName(suffix));
  }

  lemma QuietStep(b: Both, l: BothLabel, m: Both, name: string)
    requires StepBoth(b, l) == Some(m) && Plain(l, name) && m.reverts.c.runs.Keys <= {name}
    ensures Quiet(b, [l], name) && ExecBoth(b, [l]) == Some(m)
  {
    ExecBothFirst(b, [l]);
    assert [l][..0] == [];
    assert Quiet(b, [l][..0], name);
  }

  lemma CreatesRun(b: Both, r: Revert, next: Revert, name: string) returns (m: Both)
    requires PausesAt(b.reverts, r, next, name, 3) && Idling(b) && forall p <- b.runs.s.past :: p.name != name
    ensures StepBoth(b, Reverting(Call)) == Some(m) && Quiet(b, [Reverting(Call)], name)
    ensures PausesAt(m.reverts, r, next, name, 4) && Alone(m, Version(name, 0, []))
    ensures m.reverts.c == b.reverts.c.(runs := map[name := Version(name, 0, [])])
  {
    var run := Version(name, 0, []);
    assert V.Enabled(b.runs, V.RunCreated(run));
    m := Both(AfterCall(b.reverts), V.Next(b.runs, V.RunCreated(run)));
    assert b.reverts.c.runs[name := run] == map[name := run];
    assert StepBoth(b, Reverting(Call)) == Some(m);
    QuietStep(b, Reverting(Call), m, name);
  }

  /** No validation worker is busy, and nothing but the runs has changed for the validation controller. */
  predicate Settled(b: Both, name: string) {
    && InStep(b) && b.runs.tasks == map[] && b.runs.s.runs.Keys <= {name}
    && b.runs.s.strategies == map["s" := STRATEGY] && b.runs.s.claims == CLAIMS
  }

  lemma CleanupWritten(w: World, run: Run)
    requires w.worker.Busy? && w.worker.at < |w.worker.ops| && w.worker.ops[w.worker.at] == RequestCleanup(run)
    requires w.c.runs == map[run.name := run]
    ensures Accepts(w.c, RequestCleanup(run)) && AfterCall(w).worker == w.worker.(at := w.worker.at + 1)
    ensures AfterCall(w).c == w.c.(runs := map[run.name := run.(cleanup := true)])
  {
    assert map[run.name := run][run.name := run.(cleanup := true)] == map[run.name := run.(cleanup := true)];
  }

  lemma AsksForCleanup(b: Both, r: Revert, next: Revert, name: string) returns (m: Both)
    requires PausesAt(b.reverts, r, next, name, 5) && Alone(b, Version(name, 8, [COPY]))
    ensures Passes(b, m, name) && PausesAt(m.reverts, r, next, name, 6) && Settled(m, name)
    ensures m.reverts.c == b.reverts.c.(runs := m.reverts.c.runs)
  {
    var run := Version(name, 8, [COPY]);
    CleanupWritten(b.reverts, run);
    m := Both(AfterCall(b.reverts), V.Next(b.runs, V.CleanupRequested(name)));
    assert StepBoth(b, Reverting(Call)) == Some(m);
    PassesSelf(b, name);
    PassesNext(b, b, Reverting(Call), m, name);
  }

  lemma AwaitsFinished(b: Both, r: Revert, next: Revert, name: string) returns (m: Both)
    requires PausesAt(b.reverts, r, next, name, 4) && Alone(b, Version(name, 8, [COPY]))
    ensures Passes(b, m, name) && PausesAt(m.reverts, r, next, name, 5) && m.reverts.c == b.reverts.c
    ensures m.runs == b.runs
  {
    assert Accepts(b.reverts.c, AwaitFinished(name));
    m := OneCall(b, name);
  }

  /** From its creation to the request for its cleanup. */
  lemma IsLookedAfter(b: Both, r: Revert, next: Revert, name: string) returns (m: Both)
    requires PausesAt(b.reverts, r, next, name, 4) && Alone(b, Version(name, 0, []))
    ensures Passes(b, m, name) && PausesAt(m.reverts, r, next, name, 6) && Settled(m, name)
    ensures m.reverts.c == b.reverts.c.(runs := m.reverts.c.runs)
  {
    var validated := IsValidated(b, name);
    var awaited := AwaitsFinished(validated, r, next, name);
    PassesJoin(b, validated, awaited, name);
    m := AsksForCleanup(awaited, r, next, name);
    PassesJoin(b, awaited, m, name);
  }

  const DOWN := StatefulSet(Some(0), map[])

  lemma ScaleTaken(c: Cluster)
    requires c.sts == UP && c.pods == 0
    ensures RevertSteps.Issue(c, [ReadSts(Some(1))] + [ScaleTo(0)] + [AwaitNoPods]) == Some(c.(sts := DOWN))
  {
    RevertSteps.IssueOne(c, ReadSts(Some(1)));
    RevertSteps.IssueOne(c, ScaleTo(0));
    RevertSteps.IssueOne(c.(sts := DOWN), AwaitNoPods);
    RevertSteps.IssueConcat(c, [ReadSts(Some(1))], [ScaleTo(0)]);
    RevertSteps.IssueConcat(c, [ReadSts(Some(1))] + [ScaleTo(0)], [AwaitNoPods]);
  }

  lemma ScaleIsDue(w: World, r: Revert, next: Revert, name: string)
    requires PausesAt(w, r, next, name, 6) && w.c.sts == UP && w.c.pods == 0
    ensures Due(w, [ReadSts(Some(1))] + [ScaleTo(0)] + [AwaitNoPods])
  {
    ScaleTaken(w.c);
  }

  lemma ScalesDown(b: Both, r: Revert, next: Revert, name: string) returns (m: Both)
    requires PausesAt(b.reverts, r, next, name, 6) && b.reverts.c.sts == UP && b.reverts.c.pods == 0
    requires b.reverts.c.runs.Keys <= {name}
    ensures Passes(b, m, name) && PausesAt(m.reverts, r, next, name, 9)
    ensures m.runs == b.runs && m.reverts.c == b.reverts.c.(sts := DOWN)
  {
    ScaleIsDue(b.reverts, r, next, name);
    ScaleTaken(b.reverts.c);
    m := Calls(b, [ReadSts(Some(1))] + [ScaleTo(0)] + [AwaitNoPods], name);
  }

  /** From the creation of the run until the record is about to be stored as paused. */
  lemma Pauses(b: Both, r: Revert, next: Revert, name: string) returns (until: seq<BothLabel>, m: Both)
    requires PausesAt(b.reverts, r, next, name, 3) && Idling(b) && b.reverts.c.sts == UP && b.reverts.c.pods == 0
    requires forall p <- b.runs.s.past :: p.name != name
    ensures until != [] && until[0] == Reverting(Call) && Quiet(b, until, name) && ExecBoth(b, until) == Some(m)
    ensures PausesAt(m.reverts, r, next, name, 9) && Settled(m, name) && Version(name, 0, []) in m.runs.s.past
    ensures m.reverts.c == b.reverts.c.(runs := m.reverts.c.runs, sts := DOWN)
  {
    var made := CreatesRun(b, r, next, name);
    var asked := IsLookedAfter(made, r, next, name);
    m := ScalesDown(asked, r, next, name);
    PassesJoin(made, asked, m, name);
    var more :| Quiet(made, more, name) && ExecBoth(made, more) == Some(m);
    PastStays(made, more);
    QuietConcat(b, [Reverting(Call)], made, more, name);
    until := [Reverting(Call)] + more;
  }

  // ---- Replacing ----

  /** The record is about to be stored: the object is still as it was read. */
  predicate Ends(b: Both, next: Revert) {
    && b.reverts.worker.Busy? && b.reverts.worker.at + 1 == |b.reverts.worker.ops|
    && b.reverts.worker.ops[b.reverts.worker.at] == UpdateRevert(b.reverts.c.stored, next)
  }

  /** The record is stored as paused, and the run goes. */
  lemma StoresPaused(b: Both, next: Revert, name: string) returns (m: Both)
    requires Ends(b, next) && Settled(b, name)
    ensures Passes(b, m, name) && Idling(m) && m.reverts.worker == Waiting
    ensures m.reverts.c == b.reverts.c.(stored := next, runs := map[])
  {
    var stored := StoresResult(b, next, name);
    m := ValidationStep(b, stored, V.RunGone(name), name);
    assert m.runs.s.runs == map[];
  }

  function Swapped(live: Claim): Claim { AttachSnapshot(STS_TYPE, live, "snap-0") }

  const CHOSEN := map["data-app-0" := SNAP]

  predicate ReplacesAt(w: World, r: Revert, obs: Obs, at: nat) {
    w.worker == Busy(r, AllOps(r, obs), at)
  }

  /** What is the same throughout this stage. */
  predicate Replacing(r: Revert, live: Claim) {
    && live.Key() == KEY && StageOf(r) == Replace && r.stsType == STS_TYPE && LastOf(r).oldClaims == [live]
    && r.action == ASKED
  }

  function RetireCalls(live: Claim, obs: Obs): seq<Op> {
    [ListSnapshots(obs.snaps, obs.failed)] + RetireAll([live], obs.volumes)
  }

  lemma ReplaceIsPlanned(r: Revert, live: Claim, obs: Obs)
    requires Replacing(r, live) && obs.snaps == [SNAP] && !obs.failed
    ensures var ops := AllOps(r, obs);
      && RevertSteps.Upcoming(Busy(r, ops, 0), RetireCalls(live, obs))
      && RevertSteps.Upcoming(Busy(r, ops, RevertRebuild.RetiredAt([live], obs)),
          [CreatePVC(Swapped(live))] + [AwaitBound([KEY])])
      && |ops| == RevertRebuild.RetiredAt([live], obs) + 3
      && ops[0] == ListSnapshots([SNAP], false) && ops[|ops| - 1] == UpdateRevert(r, Advanced(r, Replace))
  {
    Chooses(live);
    RevertRebuild.ReplacingUpcoming(r, obs, CHOSEN);
    RevertRebuild.ReplacingOps(r, obs, CHOSEN);
    assert CreateAll(STS_TYPE, [live], CHOSEN) == [CreatePVC(Swapped(live))];
    assert Keys([live]) == [KEY];
    ReplaceResult(r, live, obs);
  }

  lemma ReplaceResult(r: Revert, live: Claim, obs: Obs)
    requires Replacing(r, live) && obs.snaps == [SNAP] && !obs.failed
    ensures PlanFor(r, obs).result == Some(Advanced(r, Replace))
  {
    assert !Validates(r);
    Chooses(live);
  }

  lemma RetiresNoRun(live: Claim, obs: Obs)
    ensures forall i | 0 <= i < |RetireCalls(live, obs)| :: Written(RetireCalls(live, obs)[i]).None?
  {
    assert [live][..0] == [] && RetireAll([live][..0], obs.volumes) == [];
    assert RetireAll([live], obs.volumes) == [] + RetireOps(live, VolumeAt(obs.volumes, 0));
  }

  /** The cluster without the claim. */
  predicate Without(c: Cluster, d: Cluster) {
    d == c.(claims := map[], volumes := d.volumes)
  }

  lemma ClaimGoes(c: Cluster, live: Claim)
    requires Live(c, live)
    ensures c.claims - RevertRebuild.KeysOf([live]) == map[]
  {
    assert live in [live] && live.Key() in RevertRebuild.KeysOf([live]);
  }

  lemma RetireIsDue(w: World, r: Revert, live: Claim, obs: Obs)
    requires ReplacesAt(w, r, obs, 0) && Replacing(r, live) && obs.snaps == [SNAP] && !obs.failed
    requires RevertSteps.Issue(w.c, RetireCalls(live, obs)).Some?
    ensures Due(w, RetireCalls(live, obs))
  {
    ReplaceIsPlanned(r, live, obs);
    RetiresNoRun(live, obs);
  }

  lemma RetireTaken(c: Cluster, live: Claim)
    requires Live(c, live)
    ensures var after := RevertSteps.Issue(c, RetireCalls(live, RevertRebuild.ReplaceAnswers(c, [live])));
      after.Some? && Without(c, after.value)
  {
    RevertRebuild.RetiringTaken(c, [live]);
    ClaimGoes(c, live);
  }

  lemma Retires(b: Both, r: Revert, live: Claim, name: string) returns (m: Both, obs: Obs)
    requires b.reverts.worker == Waiting && b.reverts.c.stored == r && Replacing(r, live) && Live(b.reverts.c, live)
    requires b.reverts.c.runs == map[] && b.reverts.c.snapshots == [SNAP]
    ensures Passes(b, m, name) && ReplacesAt(m.reverts, r, obs, RevertRebuild.RetiredAt([live], obs))
    ensures obs.snaps == [SNAP] && !obs.failed && m.runs == b.runs && Without(b.reverts.c, m.reverts.c)
  {
    obs := RevertRebuild.ReplaceAnswers(b.reverts.c, [live]);
    RetireTaken(b.reverts.c, live);
    var begun := GetsToWork(b, obs, name);
    RetireIsDue(begun.reverts, r, live, obs);
    m := Calls(begun, RetireCalls(live, obs), name);
    PassesJoin(b, begun, m, name);
  }

  lemma NewIsPlanned(r: Revert, live: Claim, obs: Obs)
    requires Replacing(r, live) && obs.snaps == [SNAP] && !obs.failed
    ensures var ops, at := AllOps(r, obs), RevertRebuild.RetiredAt([live], obs);
      && RevertSteps.Upcoming(Busy(r, ops, at), [CreatePVC(Swapped(live))])
      && RevertSteps.Upcoming(Busy(r, ops, at + 1), [AwaitBound([KEY])])
  {
    ReplaceIsPlanned(r, live, obs);
    RevertSteps.UpcomingParts(Busy(r, AllOps(r, obs), RevertRebuild.RetiredAt([live], obs)),
      [CreatePVC(Swapped(live))], [AwaitBound([KEY])]);
  }

  lemma OneIsDue(w: World, op: Op)
    requires RevertSteps.Upcoming(w.worker, [op]) && Accepts(w.c, op) && Written(op).None?
    ensures Due(w, [op]) && RevertSteps.Issue(w.c, [op]) == Some(Effect(w.c, op))
  {
    RevertSteps.IssueOne(w.c, op);
  }

  lemma Creates(b: Both, r: Revert, live: Claim, obs: Obs, name: string) returns (m: Both)
    requires Replacing(r, live) && obs.snaps == [SNAP] && !obs.failed
    requires b.reverts.c.claims == map[] && b.reverts.c.runs == map[]
    requires ReplacesAt(b.reverts, r, obs, RevertRebuild.RetiredAt([live], obs))
    ensures Passes(b, m, name) && ReplacesAt(m.reverts, r, obs, RevertRebuild.RetiredAt([live], obs) + 1)
    ensures m.runs == b.runs && m.reverts.c == Effect(b.reverts.c, CreatePVC(Swapped(live)))
  {
    NewIsPlanned(r, live, obs);
    OneIsDue(b.reverts, CreatePVC(Swapped(live)));
    m := Calls(b, [CreatePVC(Swapped(live))], name);
  }

  lemma SeesBound(b: Both, r: Revert, live: Claim, obs: Obs, name: string) returns (m: Both)
    requires Replacing(r, live) && obs.snaps == [SNAP] && !obs.failed
    requires KEY in b.reverts.c.claims && b.reverts.c.claims[KEY].bound && b.reverts.c.runs == map[]
    requires ReplacesAt(b.reverts, r, obs, RevertRebuild.RetiredAt([live], obs) + 1)
    ensures Passes(b, m, name) && ReplacesAt(m.reverts, r, obs, RevertRebuild.RetiredAt([live], obs) + 2)
    ensures m.runs == b.runs && m.reverts.c == b.reverts.c
  {
    NewIsPlanned(r, live, obs);
    OneIsDue(b.reverts, AwaitBound([KEY]));
    m := Calls(b, [AwaitBound([KEY])], name);
  }

  /** The new claim is bound to a volume of its own. */
  predicate NewClaim(c: Cluster, d: Cluster) {
    && KEY in d.claims && Live(d, d.claims[KEY])
    && d == c.(claims := d.claims, volumes := d.volumes, nextUid := d.nextUid)
  }

  lemma Binds(b: Both, name: string) returns (m: Both)
    requires b.reverts.c.runs == map[] && b.reverts.c.claims.Keys == {KEY}
    requires var claim := b.reverts.c.claims[KEY];
      claim.Key() == KEY && claim.labels == map[] && claim.spec.volumeName == "" && !claim.bound
    ensures Passes(b, m, name) && m.runs == b.runs && m.reverts.worker == b.reverts.worker
    ensures NewClaim(b.reverts.c, m.reverts.c)
  {
    var v := RevertRebuild.FreshVolume(b.reverts.c);
    m := Happens(b, Bind(KEY, v, false), name);
    assert m.reverts.c.claims == map[KEY := m.reverts.c.claims[KEY]];
  }

  lemma SwappedIsMade(c: Cluster, live: Claim)
    requires c.claims == map[] && live.Key() == KEY && live.labels == map[]
    ensures var d := Effect(c, CreatePVC(Swapped(live)));
      && d.claims.Keys == {KEY} && d.claims[KEY].Key() == KEY && d.claims[KEY].labels == map[]
      && d.claims[KEY].spec.volumeName == "" && !d.claims[KEY].bound
      && d == c.(claims := d.claims, nextUid := d.nextUid)
  {
  }

  lemma Recreates(b: Both, r: Revert, live: Claim, obs: Obs, name: string) returns (m: Both)
    requires Replacing(r, live) && live.labels == map[] && obs.snaps == [SNAP] && !obs.failed
    requires b.reverts.c.claims == map[] && b.reverts.c.runs == map[]
    requires ReplacesAt(b.reverts, r, obs, RevertRebuild.RetiredAt([live], obs))
    ensures Passes(b, m, name) && ReplacesAt(m.reverts, r, obs, RevertRebuild.RetiredAt([live], obs) + 2)
    ensures m.runs == b.runs && NewClaim(b.reverts.c, m.reverts.c)
  {
    var made := Creates(b, r, live, obs, name);
    SwappedIsMade(b.reverts.c, live);
    var bound := Binds(made, name);
    PassesJoin(b, made, bound, name);
    m := SeesBound(bound, r, live, obs, name);
    PassesJoin(b, bound, m, name);
  }

  lemma EndsReplacing(b: Both, r: Revert, live: Claim, obs: Obs)
    requires Replacing(r, live) && obs.snaps == [SNAP] && !obs.failed && b.reverts.c.stored == r
    requires ReplacesAt(b.reverts, r, obs, RevertRebuild.RetiredAt([live], obs) + 2)
    ensures Ends(b, Advanced(r, Replace)) && b.reverts.worker.ops[0] == ListSnapshots([SNAP], false)
  {
    ReplaceIsPlanned(r, live, obs);
  }

  lemma Renewed(c: Cluster, d: Cluster, e: Cluster)
    requires Without(c, d) && NewClaim(d, e)
    ensures NewClaim(c, e)
  {
  }

  /** From the paused record until it is about to be stored as reverted. */
  lemma Replaces(b: Both, r: Revert, live: Claim, name: string) returns (m: Both)
    requires b.reverts.worker == Waiting && b.reverts.c.stored == r && Replacing(r, live) && Live(b.reverts.c, live)
    requires b.reverts.c.runs == map[] && b.reverts.c.snapshots == [SNAP]
    ensures Passes(b, m, name) && m.runs == b.runs && NewClaim(b.reverts.c, m.reverts.c)
    ensures Ends(m, Advanced(r, Replace)) && m.reverts.worker.r == r
    ensures m.reverts.worker.ops[0] == ListSnapshots([SNAP], false)
  {
    var retired, obs := Retires(b, r, live, name);
    m := Recreates(retired, r, live, obs, name);
    PassesJoin(b, retired, m, name);
    Renewed(b.reverts.c, retired.reverts.c, m.reverts.c);
    EndsReplacing(m, r, live, obs);
  }

  // ---- Resuming ----

  lemma ResumeTaken(c: Cluster)
    requires c.sts == DOWN && c.pods == c.running == 0
    ensures RevertSteps.Issue(c, [ReadSts(Some(0))] + [ScaleTo(1)] + [AwaitPods(0)]) == Some(c.(sts := UP))
  {
    RevertSteps.IssueOne(c, ReadSts(Some(0)));
    RevertSteps.IssueOne(c, ScaleTo(1));
    RevertSteps.IssueOne(c.(sts := UP), AwaitPods(0));
    RevertSteps.IssueConcat(c, [ReadSts(Some(0))], [ScaleTo(1)]);
    RevertSteps.IssueConcat(c, [ReadSts(Some(0))] + [ScaleTo(1)], [AwaitPods(0)]);
  }

  lemma ResumeIsPlanned(live: Claim, reverts: seq<Details>)
    ensures var r, obs := Request(reverts + [Recorded(live, Reverted)]),
        NO_ANSWERS.(replicas := Some(0), scaled := true);
      AllOps(r, obs) == [ReadSts(Some(0))] + [ScaleTo(1)] + [AwaitPods(0)]
        + [UpdateRevert(r, Request(reverts + [Recorded(live, Finished)]).(action := ASKED.(kind := Idle)))]
  {
    var r, obs := Request(reverts + [Recorded(live, Reverted)]), NO_ANSWERS.(replicas := Some(0), scaled := true);
    assert Advanced(r, Resume).reverts == reverts + [Recorded(live, Finished)];
    RevertSteps.ResumingOps(r, obs);
  }

  /** The application is scaled up, and the user asks for the same once more. */
  lemma Resumes(b: Both, live: Claim, reverts: seq<Details>, name: string) returns (m: Both)
    requires b.reverts.worker == Waiting && b.reverts.c.stored == Request(reverts + [Recorded(live, Reverted)])
    requires b.reverts.c.sts == DOWN && b.reverts.c.pods == b.reverts.c.running == 0 && b.reverts.c.runs == map[]
    ensures Passes(b, m, name) && m.runs == b.runs && m.reverts.worker == Waiting
    ensures m.reverts.c == b.reverts.c.(sts := UP, stored := Request(reverts + [Recorded(live, Finished)]))
  {
    var idle := Request(reverts + [Recorded(live, Finished)]).(action := ASKED.(kind := Idle));
    ResumeIsPlanned(live, reverts);
    ResumeTaken(b.reverts.c);
    var done := StoresNext(b, NO_ANSWERS.(replicas := Some(0), scaled := true),
        [ReadSts(Some(0))] + [ScaleTo(1)] + [AwaitPods(0)], b.reverts.c.(sts := UP), idle, name);
    m := Happens(done, EditAction(ASKED, 0), name);
    PassesJoin(b, done, m, name);
  }

  // ---- One revert after the other ----

  lemma GetsToCreation(b: Both, live: Claim, reverts: seq<Details>, suffix: string) returns (m: Both)
    requires At(b, live, reverts, UP) && Idling(b) && NoneOpen(reverts)
    ensures Passes(b, m, RunName(suffix)) && m.runs == b.runs
    ensures m.reverts.c == b.reverts.c.(stored := Request(reverts + [Recorded(live, Init)]))
    ensures PausesAt(m.reverts, Request(reverts + [Recorded(live, Init)]), Request(reverts + [Recorded(live, Paused)]),
              RunName(suffix), 3)
    ensures IsCreating(m.reverts, PauseObs(suffix), Version(RunName(suffix), 0, []))
  {
    var recorded := Records(b, live, reverts, RunName(suffix));
    m := GetsToCreate(recorded, live, reverts, suffix);
    PassesJoin(b, recorded, m, RunName(suffix));
    CreatesNow(m.reverts, live, reverts, suffix);
  }

  lemma ReachesReplacement(b: Both, live: Claim, reverts: seq<Details>, name: string) returns (m: Both)
    requires PausesAt(b.reverts, Request(reverts + [Recorded(live, Init)]), Request(reverts + [Recorded(live, Paused)]),
               name, 9)
    requires Settled(b, name) && b.reverts.c.stored == Request(reverts + [Recorded(live, Init)])
    requires Live(b.reverts.c, live) && b.reverts.c.snapshots == [SNAP]
    ensures Passes(b, m, name) && Idling(m)
    ensures NewClaim(b.reverts.c.(stored := Request(reverts + [Recorded(live, Paused)]), runs := map[]), m.reverts.c)
    ensures Ends(m, Request(reverts + [Recorded(live, Reverted)]))
    ensures m.reverts.worker.r == Request(reverts + [Recorded(live, Paused)])
    ensures m.reverts.worker.ops[0] == ListSnapshots([SNAP], false)
  {
    var paused := Request(reverts + [Recorded(live, Paused)]);
    PausedIsReplaced(live, reverts);
    var stored := StoresPaused(b, paused, name);
    m := Replaces(stored, paused, live, name);
    PassesJoin(b, stored, m, name);
  }

  lemma PausedIsReplaced(live: Claim, reverts: seq<Details>)
    requires live.Key() == KEY
    ensures var paused := Request(reverts + [Recorded(live, Paused)]);
      Replacing(paused, live) && Advanced(paused, Replace) == Request(reverts + [Recorded(live, Reverted)])
  {
  }

  lemma EndsRevert(b: Both, live: Claim, reverts: seq<Details>, name: string) returns (m: Both)
    requires Ends(b, Request(reverts + [Recorded(live, Reverted)])) && Idling(b)
    requires b.reverts.c.sts == DOWN && b.reverts.c.pods == b.reverts.c.running == 0
    ensures Passes(b, m, name) && m.runs == b.runs && m.reverts.worker == Waiting
    ensures m.reverts.c == b.reverts.c.(sts := UP, stored := Request(reverts + [Recorded(live, Finished)]))
  {
    var stored := StoresResult(b, Request(reverts + [Recorded(live, Reverted)]), name);
    m := Resumes(stored, live, reverts, name);
    PassesJoin(b, stored, m, name);
  }

  lemma {:induction false} PastStays(b: Both, labels: seq<BothLabel>)
    requires ExecBoth(b, labels).Some?
    ensures b.runs.s.past <= ExecBoth(b, labels).value.runs.s.past
    decreases |labels|
  {
    if labels != [] {
      var before, l := labels[..|labels| - 1], labels[|labels| - 1];
      PastStays(b, before);
      StepKeepsPast(ExecBoth(b, before).value, l);
    }
  }

  lemma StepKeepsPast(b: Both, l: BothLabel)
    requires StepBoth(b, l).Some?
    ensures b.runs.s.past <= StepBoth(b, l).value.runs.s.past
  {
    if l.Validating? {
      PastGrows(b.runs, l.v);
    } else if CallOf(b.reverts, l.l).Some? && Written(CallOf(b.reverts, l.l).value).Some? {
      PastGrows(b.runs, Written(CallOf(b.reverts, l.l).value).value);
    }
  }

  /** A revert that is asked for takes this course, with a run of its own. */
  ghost predicate TakenFrom(b: Both, live: Claim, e: Course) {
    && e.b == b && Taken(e) && LastOf(e.m.reverts.worker.r).oldClaims == [live]
    && e.run.owner == "s" && e.to == 10 && forall p <- b.runs.s.past :: p.name != e.run.name
  }

  lemma MakesCourse(b: Both, live: Claim, reverts: seq<Details>, suffix: string, creating: Both, until: seq<BothLabel>,
      pausing: Both, m: Both) returns (e: Course)
    requires b.reverts.worker == Waiting && Passes(b, creating, RunName(suffix)) && live.Key() == KEY
    requires IsCreating(creating.reverts, PauseObs(suffix), Version(RunName(suffix), 0, []))
    requires creating.reverts.worker.r == Request(reverts + [Recorded(live, Init)])
    requires until != [] && until[0] == Reverting(Call) && Quiet(creating, until, RunName(suffix))
    requires ExecBoth(creating, until) == Some(pausing)
    requires PausesAt(pausing.reverts, Request(reverts + [Recorded(live, Init)]),
               Request(reverts + [Recorded(live, Paused)]), RunName(suffix), 9)
    requires Passes(pausing, m, RunName(suffix)) && Ends(m, Request(reverts + [Recorded(live, Reverted)]))
    requires m.reverts.worker.r == Request(reverts + [Recorded(live, Paused)])
    requires m.reverts.worker.ops[0] == ListSnapshots([SNAP], false)
    ensures e.b == b && Taken(e) && e.pausing == pausing && e.m == m && e.run == Version(RunName(suffix), 0, [])
    ensures e.to == 10
  {
    var name := RunName(suffix);
    var before :| Quiet(b, before, name) && ExecBoth(b, before) == Some(creating);
    var after :| Quiet(pausing, after, name) && ExecBoth(pausing, after) == Some(m);
    QuietLeads(b, before, creating, name, 10);
    QuietLeads(creating, until, pausing, name, 10);
    QuietLeads(pausing, after, m, name, 10);
    PauseIsPlanned(live, reverts, suffix);
    PausedIsReplaced(live, reverts);
    e := Course(b, before, creating, until, pausing, after, m, PauseObs(suffix), Version(name, 0, []), 10);
  }

  /** The worker waits again, the claim has been replaced, and the same revert is asked for once more. */
  predicate AskedAgain(b: Both, reverts: seq<Details>) {
    KEY in b.reverts.c.claims && At(b, b.reverts.c.claims[KEY], reverts, UP) && Idling(b) && NoneOpen(reverts)
  }

  lemma EndsAskedAgain(b: Both, m: Both, live: Claim, reverts: seq<Details>, name: string) returns (next: Both)
    requires Ends(m, Request(reverts + [Recorded(live, Reverted)])) && Idling(m)
    requires NewClaim(b.reverts.c, m.reverts.c) && b.reverts.c.sts == DOWN && b.reverts.c.snapshots == [SNAP]
    requires b.reverts.c.pods == b.reverts.c.running == 0
    ensures Passes(m, next, name) && AskedAgain(next, reverts + [Recorded(live, Finished)])
  {
    next := EndsRevert(m, live, reverts, name);
  }

  lemma ExecCourse(e: Course)
    requires Taken(e)
    ensures ExecBoth(e.b, e.before + e.until + e.after) == Some(e.m)
  {
    ExecBothConcat(e.b, e.before, e.creating, e.until);
    ExecBothConcat(e.b, e.before + e.until, e.pausing, e.after);
  }

  lemma RunStays(e: Course, m: Both, next: Both, name: string)
    requires Taken(e) && e.m == m && Passes(m, next, name) && e.run in e.pausing.runs.s.past
    ensures exists labels :: ExecBoth(e.b, labels) == Some(next)
    ensures e.run in next.runs.s.past
  {
    var more :| Quiet(m, more, name) && ExecBoth(m, more) == Some(next);
    PastStays(e.pausing, e.after);
    PastStays(m, more);
    ExecCourse(e);
    ExecBothConcat(e.b, e.before + e.until + e.after, m, more);
    assert ExecBoth(e.b, e.before + e.until + e.after + more) == Some(next);
  }

  lemma FreshSuffix(past: set<Run>) returns (suffix: string)
    ensures forall p <- past :: p.name != RunName(suffix)
  {
    var names := set p | p in past :: p.name;
    suffix := FreshName(names);
    assert forall p <- past :: p.name in names;
  }

  lemma RevertsOnce(b: Both, live: Claim, reverts: seq<Details>) returns (e: Course, next: Both)
    requires At(b, live, reverts, UP) && Idling(b) && NoneOpen(reverts)
    ensures TakenFrom(b, live, e) && e.run in next.runs.s.past && exists labels :: ExecBoth(b, labels) == Some(next)
    ensures AskedAgain(next, reverts + [Recorded(live, Finished)])
  {
    var init, paused := Request(reverts + [Recorded(live, Init)]), Request(reverts + [Recorded(live, Paused)]);
    var suffix := FreshSuffix(b.runs.s.past);
    var creating := GetsToCreation(b, live, reverts, suffix);
    var until, pausing := Pauses(creating, init, paused, RunName(suffix));
    var m := ReachesReplacement(pausing, live, reverts, RunName(suffix));
    e := MakesCourse(b, live, reverts, suffix, creating, until, pausing, m);
    var before := Both(pausing.reverts.(c := pausing.reverts.c.(stored := paused, runs := map[])), pausing.runs);
    next := EndsAskedAgain(before, m, live, reverts, RunName(suffix));
    RunStays(e, m, next, RunName(suffix));
  }

  // ---- From the start ----

  const OLD := LIVE.(spec := LIVE.spec.(volumeName := "pv"))

  /** The application runs with its claim, nothing has been snapshot, validated or reverted, and a revert is asked for.
      */
  const BEGINNING := Both(
    World(Cluster(map[KEY := OLD], map["pv" := Volume(false, None)], UP, 0, 0, [], map[], Request([]), 1), Waiting, {}),
    V.World(VP.Site(map["s" := STRATEGY], map[], map[], CLAIMS, {}, {}, {}), map[]))

  /** A snapshot is taken, after the start. */
  lemma Arrives() returns (m: Both)
    ensures StepBoth(BEGINNING, Reverting(Outside(SnapshotsChange([SNAP])))) == Some(m)
    ensures At(m, OLD, [], UP) && Idling(m)
  {
    m := Both(BEGINNING.reverts.(c := BEGINNING.reverts.c.(snapshots := [SNAP])), BEGINNING.runs);
  }

  lemma RevertsTwice(b: Both, live: Claim) returns (labels: seq<BothLabel>, e: Course, first: Run)
    requires At(b, live, [], UP) && Idling(b)
    ensures ExecBoth(b, labels) == Some(e.b) && Taken(e) && LastOf(e.m.reverts.worker.r).oldClaims != []
    ensures first in e.b.runs.s.past && first.owner == e.run.owner && first.name != e.run.name
    ensures e.b.reverts.c.snapshots == [SNAP] && e.to == 10
  {
    var one, again := RevertsOnce(b, live, []);
    first := one.run;
    labels :| ExecBoth(b, labels) == Some(again);
    var two, _ := RevertsOnce(again, again.reverts.c.claims[KEY], [] + [Recorded(live, Finished)]);
    e := two;
  }

  lemma ExecAfterFirst(b: Both, l: BothLabel, m: Both, labels: seq<BothLabel>)
    requires StepBoth(b, l) == Some(m)
    ensures ExecBoth(b, [l] + labels) == ExecBoth(m, labels)
  {
    ExecBothFirst(b, [l]);
    ExecBothConcat(b, [l], m, labels);
  }

  lemma BeginningIsStart()
    ensures Start(BEGINNING.reverts, 1) && V.Start(BEGINNING.runs) && BEGINNING.reverts.c.runs == map[]
    ensures BEGINNING.reverts.c.snapshots == []
  {
  }

  /** The second of two validated reverts with the same strategy takes the course of the theorem, with a run of its own,
      although there has been another run, and the snapshot came after the start. */
  lemma SecondRevertIsCovered() returns (past: seq<BothLabel>, e: Course, first: Run)
    ensures Start(BEGINNING.reverts, 1) && V.Start(BEGINNING.runs) && BEGINNING.reverts.c.runs == map[]
    ensures ExecBoth(BEGINNING, past) == Some(e.b) && Taken(e) && LastOf(e.m.reverts.worker.r).oldClaims != []
    ensures first in e.b.runs.s.past && first.owner == e.run.owner && first.name != e.run.name
    ensures BEGINNING.reverts.c.snapshots == [] && Early(e.b.reverts.c.snapshots, e.to) == {SNAP}
  {
    BeginningIsStart();
    var m := Arrives();
    var labels;
    labels, e, first := RevertsTwice(m, OLD);
    past := [Reverting(Outside(SnapshotsChange([SNAP])))] + labels;
    ExecAfterFirst(BEGINNING, Reverting(Outside(SnapshotsChange([SNAP]))), m, labels);
  }
}
