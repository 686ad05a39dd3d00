/** Both controllers together: what a validated revert restores is what its validation run has validated. */
module RevertTogether {
  import opened Wrappers
  import opened Types
  import opened RevertCluster
  import opened RevertPlan
  import opened RevertMachine
  import opened RevertDowntime
  import opened RevertClaims
  import opened RevertAgreement
  import opened RevertGate
  import V = RunMachine
  import VP = RunPlan
  import VS = RunSafety

  // ---- The entries of the created run ----

  /** Every version of the run there ever was maps the claims like this. */
  predicate AllMap(past: set<Run>, name: string, entries: map<string, string>) {
    forall p <- past :: p.name == name ==> p.claimsToSnapshots == entries
  }

  predicate Made(past: set<Run>, name: string, entries: map<string, string>) {
    AllMap(past, name, entries) && exists p <- past :: p.name == name
  }

  predicate Rewrites(l: V.Label, name: string) { l.SnapshotUpdates? && l.run == name }

  lemma TaskKeepsEntries(s: VP.Site, t: V.Task, name: string, entries: map<string, string>)
    requires VS.TaskGood(s, t) && t.at < |t.acts| && AllMap(s.past, name, entries)
    ensures AllMap(VP.Effect(s, t.acts[t.at]).past, name, entries)
  {
    if t.acts[t.at].UpdateRun? {
      assert VS.Advances(t.copy, t.acts[..t.at], t.acts[t.at].next);
    }
  }

  lemma ProceedKeepsEntries(w: V.World, id: nat, name: string, entries: map<string, string>)
    requires VS.Good(w) && V.Enabled(w, V.Proceed(id)) && AllMap(w.s.past, name, entries)
    ensures AllMap(V.Next(w, V.Proceed(id)).s.past, name, entries)
  {
    TaskKeepsEntries(w.s, w.tasks[id], name, entries);
  }

  /** Nobody but an arriving snapshot changes the entries of a run. */
  lemma StepKeepsEntries(w: V.World, l: V.Label, name: string, entries: map<string, string>)
    requires VS.Good(w) && V.Enabled(w, l) && Made(w.s.past, name, entries) && !Rewrites(l, name)
    ensures AllMap(V.Next(w, l).s.past, name, entries)
  {
    match l
    case Proceed(id) => ProceedKeepsEntries(w, id, name, entries);
    case SnapshotUpdates(n, _, _) =>
    case CleanupRequested(n) => assert w.s.runs[n] in w.s.past;
    case _ =>
  }

  predicate LeavesAlone(l: BothLabel, name: string) { l.Validating? ==> !Rewrites(l.v, name) }

  lemma BothKeepsEntries(count: nat, b: Both, l: BothLabel, name: string, entries: map<string, string>)
    requires Coupled(count, b) && StepBoth(b, l).Some? && LeavesAlone(l, name)
    requires Made(b.runs.s.past, name, entries)
    ensures Made(StepBoth(b, l).value.runs.s.past, name, entries)
  {
    var p :| p in b.runs.s.past && p.name == name;
    match l
    case Validating(v) =>
      StepKeepsEntries(b.runs, v, name, entries);
      PastGrows(b.runs, v);
    case Reverting(r) =>
      var op := CallOf(b.reverts, r);
      if op.Some? && Written(op.value).Some? {
        StepKeepsEntries(b.runs, Written(op.value).value, name, entries);
        PastGrows(b.runs, Written(op.value).value);
      }
  }

  lemma CreationMaps(b: Both, run: Run)
    requires CallOf(b.reverts, Call) == Some(Op.CreateRun(run)) && StepBoth(b, Reverting(Call)).Some?
    ensures Made(StepBoth(b, Reverting(Call)).value.runs.s.past, run.name, run.claimsToSnapshots)
  {
    CreatedIsMade(b.runs, run);
  }

  lemma CreatedIsMade(w: V.World, run: Run)
    requires V.Enabled(w, V.RunCreated(run))
    ensures Made(V.Next(w, V.RunCreated(run)).s.past, run.name, run.claimsToSnapshots)
  {
    assert run in V.Next(w, V.RunCreated(run)).s.past;
  }

  // ---- What the worker has looked at ----

  /** No run of the strategy but this one is stored. */
  predicate OnlyRun(runs: map<string, Run>, strategy: string, name: string) {
    forall n <- runs :: runs[n].owner == strategy ==> n == name
  }

  /** Of this strategy, it has seen no run finished but this one. */
  predicate SeenFinished(observed: set<Run>, strategy: string, name: string) {
    forall x <- observed :: IsFinished(x) && x.owner == strategy ==> x.name == name
  }

  lemma CallSeesStored(w: World, x: Run)
    requires Step(w, Call).Some? && Named(w.c.runs) && x in Step(w, Call).value.observed
    ensures var runs := Step(w, Call).value.c.runs; x in w.observed || (x.name in runs && runs[x.name] == x)
  {
  }

  lemma StepKeepsSeen(count: nat, b: Both, l: BothLabel, strategy: string, name: string)
    requires Coupled(count, b) && StepBoth(b, l).Some? && SeenFinished(b.reverts.observed, strategy, name)
    requires OnlyRun(StepBoth(b, l).value.reverts.c.runs, strategy, name)
    ensures SeenFinished(StepBoth(b, l).value.reverts.observed, strategy, name)
  {
    if l == Reverting(Call) {
      forall x | x in StepBoth(b, l).value.reverts.observed && IsFinished(x) && x.owner == strategy
          ensures x.name == name {
        CallSeesStored(b.reverts, x);
      }
    }
  }

  /** After every step of the run, no run of the strategy but this one is stored. */
  ghost predicate OnlyRunAlong(b: Both, labels: seq<BothLabel>, strategy: string, name: string) {
    labels == [] ||
    (OnlyRunAlong(b, labels[..|labels| - 1], strategy, name) &&
     (ExecBoth(b, labels).Some? ==> OnlyRun(ExecBoth(b, labels).value.reverts.c.runs, strategy, name)))
  }

  lemma {:induction false} AlwaysSeen(count: nat, b: Both, labels: seq<BothLabel>, strategy: string, name: string)
    requires Coupled(count, b) && ExecBoth(b, labels).Some? && SeenFinished(b.reverts.observed, strategy, name)
    requires OnlyRunAlong(b, labels, strategy, name)
    ensures SeenFinished(ExecBoth(b, labels).value.reverts.observed, strategy, name)
    decreases |labels|
  {
    if labels != [] {
      var before := labels[..|labels| - 1];
      AlwaysSeen(count, b, before, strategy, name);
      AlwaysCoupled(count, b, before);
      StepKeepsSeen(count, ExecBoth(b, before).value, labels[|labels| - 1], strategy, name);
    }
  }

  /** The call has shown this run. */
  predicate Brings(op: Op, x: Run) {
    (op.SeeRun? && op.matched == Some(x)) || (op.CreateRun? && op.run == x) || (op.AwaitFinished? && op.name == x.name)
  }

  /** All that has been looked at was shown by some call of this processing. */
  ghost predicate Brought(w: World) {
    Named(w.c.runs) &&
    (w.worker.Busy? ==>
       && w.worker.at <= |w.worker.ops|
       && forall x <- w.observed :: exists i | 0 <= i < w.worker.at :: Brings(w.worker.ops[i], x))
  }

  lemma CallBrings(w: World, x: Run)
    requires Step(w, Call).Some? && Named(w.c.runs) && x in Step(w, Call).value.observed
    ensures x in w.observed || Brings(w.worker.ops[w.worker.at], x)
  {
  }

  lemma CallKeepsBrought(w: World)
    requires Brought(w) && Step(w, Call).Some? && Named(Step(w, Call).value.c.runs)
    ensures Brought(Step(w, Call).value)
  {
    var m := Step(w, Call).value;
    if m.worker.Busy? {
      forall x | x in m.observed ensures exists i | 0 <= i < m.worker.at :: Brings(m.worker.ops[i], x) {
        CallBrings(w, x);
        if x in w.observed {
          var i :| 0 <= i < w.worker.at && Brings(w.worker.ops[i], x);
          assert Brings(m.worker.ops[i], x);
        } else {
          assert Brings(m.worker.ops[w.worker.at], x);
        }
      }
    }
  }

  lemma StepKeepsBrought(w: World, l: Label)
    requires Brought(w) && Step(w, l).Some? && Named(Step(w, l).value.c.runs)
    ensures Brought(Step(w, l).value)
  {
    if l == Call {
      CallKeepsBrought(w);
    }
  }

  lemma BothKeepsBrought(count: nat, b: Both, l: BothLabel)
    requires Coupled(count, b) && Brought(b.reverts) && StepBoth(b, l).Some? && Coupled(count, StepBoth(b, l).value)
    ensures Brought(StepBoth(b, l).value.reverts)
  {
    if l.Reverting? {
      StepKeepsBrought(b.reverts, l.l);
    }
  }

  lemma {:induction false} AlwaysBrought(count: nat, b: Both, labels: seq<BothLabel>)
    requires Coupled(count, b) && b.reverts.worker == Waiting && ExecBoth(b, labels).Some?
    ensures Brought(ExecBoth(b, labels).value.reverts)
    decreases |labels|
  {
    if labels != [] {
      var before := labels[..|labels| - 1];
      AlwaysBrought(count, b, before);
      AlwaysCoupled(count, b, before);
      AlwaysCoupled(count, b, labels);
      BothKeepsBrought(count, ExecBoth(b, before).value, labels[|labels| - 1]);
    }
  }

  /** Before it creates a run, a processing has seen none finished. */
  lemma NoneFinishedYet(r: Revert, obs: Obs, at: nat, run: Run)
    requires Validates(r) && at < |AllOps(r, obs)| && AllOps(r, obs)[at] == CreateRun(run)
    ensures forall i, x: Run | 0 <= i < at && Brings(AllOps(r, obs)[i], x) :: !IsFinished(x)
  {
    CreationIsInPlan(r, obs, at, run);
    NoneFinishedInPlan(r, obs.validation, at);
  }

  lemma NoneFinishedInPlan(r: Revert, v: ValidationObs, at: nat)
    requires Validates(r) && RevertPlan.MissingValidation(v) && v.second == None
    requires at == |FirstLook(r.validation.value, v)| + 2 < |ValidationPlan(r, v).0|
    ensures forall i, x: Run | 0 <= i < at && Brings(ValidationPlan(r, v).0[i], x) :: !IsFinished(x)
  {
    var look, ops := FirstLook(r.validation.value, v), RevertPlan.RunValidation(r, r.validation.value, v).0;
    assert forall i | 0 <= i < |look| :: (look + ops)[i] == look[i];
    assert (look + ops)[|look|] == ops[0] && (look + ops)[|look| + 1] == ops[1];
  }

  lemma CreationIsInPlan(r: Revert, obs: Obs, at: nat, run: Run)
    requires Validates(r) && at < |AllOps(r, obs)| && AllOps(r, obs)[at] == CreateRun(run)
    ensures RevertPlan.MissingValidation(obs.validation) && obs.validation.second == None
    ensures var plan := ValidationPlan(r, obs.validation).0;
      plan <= AllOps(r, obs) && at == |FirstLook(r.validation.value, obs.validation)| + 2 < |plan|
  {
    PlanIsFirst(r, obs);
    CreatedInPlan(r, obs, at);
    CreationIndex(r, obs.validation, at);
  }

  lemma PlanIsFirst(r: Revert, obs: Obs)
    requires Validates(r)
    ensures ValidationPlan(r, obs.validation).0 <= AllOps(r, obs)
  {
    AllOpsParts(r, obs);
    PlanComesFirst(AllOps(r, obs), ValidationPlan(r, obs.validation).0, StagePlan(r, obs).ops,
      Closing(r, StagePlan(r, obs).result));
  }

  lemma CreatedInPlan(r: Revert, obs: Obs, at: nat)
    requires Validates(r) && at < |AllOps(r, obs)| && AllOps(r, obs)[at].CreateRun?
    ensures var plan := ValidationPlan(r, obs.validation).0; at < |plan| && plan[at] == AllOps(r, obs)[at]
  {
    AllOpsParts(r, obs);
    assert StagePlan(r, obs).ops == PauseOps(obs.replicas) || StagePlan(r, obs).ops == [];
    InFirstPart(AllOps(r, obs), ValidationPlan(r, obs.validation).0, StagePlan(r, obs).ops,
      Closing(r, StagePlan(r, obs).result), at);
  }

  lemma PlanComesFirst(ops: seq<Op>, pre: seq<Op>, mid: seq<Op>, post: seq<Op>)
    requires ops == pre || ops == pre + mid + post
    ensures pre <= ops
  {
  }

  lemma CreationIndex(r: Revert, v: ValidationObs, at: nat)
    requires Validates(r) && at < |ValidationPlan(r, v).0| && ValidationPlan(r, v).0[at].CreateRun?
    ensures RevertPlan.MissingValidation(v) && v.second == None
    ensures at == |FirstLook(r.validation.value, v)| + 2
  {
    var look, ops := FirstLook(r.validation.value, v), RevertPlan.RunValidation(r, r.validation.value, v).0;
    assert forall i | 0 <= i < |ops| :: ops[i].CreateRun? ==> i == 2 && v.second == None;
    assert at >= |look| && (look + ops)[at] == ops[at - |look|];
  }

  /** A run is created only by a processing that names the strategy, has just seen that the strategy has none, and has
      listed the snapshots since. */
  lemma CreatesOnlyWithoutRun(count: nat, w: World, labels: seq<Label>, run: Run)
    requires Start(w, count) && Exec(w, labels).Some? && Step(Exec(w, labels).value, Call).Some?
    requires CallOf(Exec(w, labels).value, Call) == Some(CreateRun(run))
    ensures var Busy(r, ops, at) := Exec(w, labels).value.worker;
      && r.validation == Some(run.owner) && at > 1
      && ops[at - 2] == SeeRun(run.owner, None) && ops[at - 1].ListSnapshots?
  {
    AlwaysTracked(w, labels);
    var Busy(r, ops, at) := Exec(w, labels).value.worker;
    var obs :| ops == AllOps(r, obs);
    assert AboutRuns(ops[at]);
    ValidatesOnlyWhenAsked(r, obs, at);
    CreationIsLate(r, obs, at, run);
  }

  lemma CreationIsLate(r: Revert, obs: Obs, at: nat, run: Run)
    requires Validates(r) && at < |AllOps(r, obs)| && AllOps(r, obs)[at] == CreateRun(run)
    ensures at > 1 && AllOps(r, obs)[at - 2] == SeeRun(r.validation.value, None)
    ensures AllOps(r, obs)[at - 1].ListSnapshots?
    ensures run.owner == r.validation.value
  {
    CreationIsInPlan(r, obs, at, run);
    var look, ops := FirstLook(r.validation.value, obs.validation),
        RevertPlan.RunValidation(r, r.validation.value, obs.validation).0;
    assert (look + ops)[at - 2] == ops[0] && (look + ops)[at - 1] == ops[1] && (look + ops)[at] == ops[2];
  }

  lemma SeenAtCreation(m: World, obs: Obs, run: Run)
    requires IsCreating(m, obs, run) && Brought(m)
    ensures forall x <- m.observed :: !IsFinished(x)
  {
    NoneFinishedYet(m.worker.r, obs, m.worker.at, run);
  }

  // ---- What the snapshots are ----

  /** From `b` on, no snapshot up to that moment is deleted, and every new one is later. */
  ghost predicate OnlyLaterBoth(b: Both, labels: seq<BothLabel>, to: int) {
    labels == [] ||
    (OnlyLaterBoth(b, labels[..|labels| - 1], to) &&
     var mid, last := ExecBoth(b, labels[..|labels| - 1]), labels[|labels| - 1];
     mid.Some? ==> KeepsEarly(mid.value.reverts.c, last, to))
  }

  predicate KeepsEarly(c: Cluster, l: BothLabel, to: int) {
    l.Reverting? && l.l.Outside? && l.l.e.SnapshotsChange? ==> Early(l.l.e.list, to) == Early(c.snapshots, to)
  }

  lemma BothKeepsShows(b: Both, l: BothLabel, early: set<Snapshot>, to: int)
    requires Shows(b.reverts, early, to) && StepBoth(b, l).Some? && KeepsEarly(b.reverts.c, l, to)
    ensures Shows(StepBoth(b, l).value.reverts, early, to)
  {
    if l.Reverting? {
      StepKeepsShows(b.reverts, l.l, early, to);
    }
  }

  lemma {:induction false} StillShows(b: Both, labels: seq<BothLabel>, early: set<Snapshot>, to: int)
    requires Shows(b.reverts, early, to) && ExecBoth(b, labels).Some? && OnlyLaterBoth(b, labels, to)
    ensures Shows(ExecBoth(b, labels).value.reverts, early, to)
    decreases |labels|
  {
    if labels != [] {
      var before := labels[..|labels| - 1];
      StillShows(b, before, early, to);
      BothKeepsShows(ExecBoth(b, before).value, labels[|labels| - 1], early, to);
    }
  }

  // ---- The result ----

  /** The record is the one the run was created for, with the window that ends at `to`. */
  predicate SameRequest(r: Revert, later: Revert, to: int) {
    && LastOf(later).oldClaims == LastOf(r).oldClaims && later.validation == r.validation
    && later.action.fromTime == r.action.fromTime && later.action.toTime == r.action.toTime == Some(to)
  }

  /** A run leads from one state to another, and on it no snapshot up to `to` goes or comes. */
  ghost predicate Leads(b: Both, labels: seq<BothLabel>, m: Both, to: int) {
    ExecBoth(b, labels) == Some(m) && OnlyLaterBoth(b, labels, to)
  }

  /** From its creation until the record is paused no arrival rewrites the run, and no other of the strategy is stored.
      */
  ghost predicate Undisturbed(creating: Both, until: seq<BothLabel>, strategy: string, run: Run) {
    && until != [] && until[0] == Reverting(Call) && (forall l <- until :: LeavesAlone(l, run.name))
    && OnlyRunAlong(creating, until, strategy, run.name)
  }

  /** From its creation on, the run keeps the entries it was created with. */
  lemma {:induction false} MadeSince(count: nat, b: Both, labels: seq<BothLabel>, run: Run)
    requires Coupled(count, b) && CallOf(b.reverts, Call) == Some(Op.CreateRun(run)) && ExecBoth(b, labels).Some?
    requires labels != [] && labels[0] == Reverting(Call) && forall l <- labels :: LeavesAlone(l, run.name)
    ensures Made(ExecBoth(b, labels).value.runs.s.past, run.name, run.claimsToSnapshots)
    decreases |labels|
  {
    var before, l := labels[..|labels| - 1], labels[|labels| - 1];
    assert l in labels && forall x <- before :: x in labels;
    if before == [] {
      ExecBothFirst(b, labels);
      CreationMaps(b, run);
    } else {
      MadeSince(count, b, before, run);
      AlwaysCoupled(count, b, before);
      BothKeepsEntries(count, ExecBoth(b, before).value, l, run.name, run.claimsToSnapshots);
    }
  }

  lemma ExecBothFirst(b: Both, labels: seq<BothLabel>)
    requires |labels| == 1
    ensures ExecBoth(b, labels) == StepBoth(b, labels[0])
  {
    assert labels[..0] == [];
    assert ExecBoth(b, labels[..0]) == Some(b);
  }

  lemma PausesOnCreated(count: nat, creating: Both, until: seq<BothLabel>, pausing: Both, obs: Obs, run: Run)
    returns (x: Run)
    requires Coupled(count, creating) && Brought(creating.reverts) && IsCreating(creating.reverts, obs, run)
    requires ExecBoth(creating, until) == Some(pausing)
    requires Completes(pausing.reverts, Pause) && Validates(pausing.reverts.worker.r)
    requires Undisturbed(creating, until, pausing.reverts.worker.r.validation.value, run)
    ensures x in pausing.reverts.observed && Passed(pausing.runs, x) && x.claimsToSnapshots == run.claimsToSnapshots
  {
    var strategy := pausing.reverts.worker.r.validation.value;
    AlwaysCoupled(count, creating, until);
    PausesSafely(count, pausing);
    x :| x in pausing.reverts.observed && x.owner == strategy && Passed(pausing.runs, x);
    SeenAtCreation(creating.reverts, obs, run);
    AlwaysSeen(count, creating, until, strategy, run.name);
    MadeSince(count, creating, until, run);
  }

  lemma RestoresAsCreated(count: nat, creating: Both, m: Both, early: set<Snapshot>, obs: Obs, run: Run, to: int,
      claim: Claim)
    requires Shows(creating.reverts, early, to) && IsCreating(creating.reverts, obs, run)
    requires Coupled(count, m) && Shows(m.reverts, early, to) && Completes(m.reverts, Replace)
    requires SameRequest(creating.reverts.worker.r, m.reverts.worker.r, to)
    requires m.reverts.worker.ops[0].ListSnapshots? ==> !m.reverts.worker.ops[0].failed
    requires claim in LastOf(m.reverts.worker.r).oldClaims
    ensures AsksForValidated(m.reverts.c, run, early, claim)
  {
    CreatedFromShown(creating.reverts, obs, run, early, to);
    CompletedReplacement(count, m.reverts, claim);
    ChosenAgain(m.reverts, obs.validation.snaps, run, early, to, claim);
  }

  /** One validated revert: from the moment `b` some steps lead to `creating`, where the worker is about to create the
      run, from there to `pausing`, where it is about to store its record as paused, and from there to `m`, where it is
      about to store it as reverted. The window of the request ends at `to`. */
  datatype Course = Course(
    b: Both, before: seq<BothLabel>, creating: Both, until: seq<BothLabel>, pausing: Both, after: seq<BothLabel>,
      m: Both,
    obs: Obs, run: Run, to: int)

  /** The revert worker waits at first. It creates the run for the record whose claims are replaced in the end, by any
      number of processings. Until the pause no snapshot arrival rewrites that run, and no other of the strategy is
      stored; from `b` on no snapshot of the window is deleted, and new ones are later. */
  ghost predicate Taken(e: Course) {
    && e.b.reverts.worker == Waiting
    && Leads(e.b, e.before, e.creating, e.to) && IsCreating(e.creating.reverts, e.obs, e.run)
    && Leads(e.creating, e.until, e.pausing, e.to)
    && Completes(e.pausing.reverts, Pause) && Validates(e.pausing.reverts.worker.r)
    && Undisturbed(e.creating, e.until, e.pausing.reverts.worker.r.validation.value, e.run)
    && Leads(e.pausing, e.after, e.m, e.to) && Completes(e.m.reverts, Replace)
    && SameRequest(e.creating.reverts.worker.r, e.m.reverts.worker.r, e.to)
    && (e.m.reverts.worker.ops[0].ListSnapshots? ==> !e.m.reverts.worker.ops[0].failed)
  }

  lemma ShowsAlong(e: Course)
    requires Taken(e)
    ensures var early := Early(e.b.reverts.c.snapshots, e.to);
      Shows(e.creating.reverts, early, e.to) && Shows(e.m.reverts, early, e.to)
  {
    var early := Early(e.b.reverts.c.snapshots, e.to);
    StillShows(e.b, e.before, early, e.to);
    StillShows(e.creating, e.until, early, e.to);
    StillShows(e.pausing, e.after, early, e.to);
  }

  lemma CoupledAlong(count: nat, e: Course)
    requires Coupled(count, e.b) && Taken(e)
    ensures Coupled(count, e.creating) && Brought(e.creating.reverts) && Coupled(count, e.pausing)
    ensures Coupled(count, e.m)
  {
    AlwaysCoupled(count, e.b, e.before);
    AlwaysBrought(count, e.b, e.before);
    AlwaysCoupled(count, e.creating, e.until);
    AlwaysCoupled(count, e.pausing, e.after);
  }

  /** What is restored is what was validated. In any interleaving of the two controllers, a run that the revert worker
      has seen finished when the record was paused has passed the jobs of all its hooks with the snapshots it was
      created with, and the claims ask for these very snapshots, or for ones of the same claim and time. This holds for
      any failures and retries on the way, and for a revert that begins at any moment `e.b` at which the worker waits.
      */
  lemma ValidatedSnapshotsAreRestored(count: nat, start: Both, past: seq<BothLabel>, e: Course, claim: Claim)
    returns (x: Run)
    requires Start(start.reverts, count) && V.Start(start.runs) && start.reverts.c.runs == map[]
    requires ExecBoth(start, past) == Some(e.b) && Taken(e)
    requires claim in LastOf(e.m.reverts.worker.r).oldClaims
    ensures x in e.pausing.reverts.observed && Passed(e.pausing.runs, x)
    ensures x.claimsToSnapshots == e.run.claimsToSnapshots
    ensures AsksForValidated(e.m.reverts.c, x, Early(e.b.reverts.c.snapshots, e.to), claim)
  {
    var early := Early(e.b.reverts.c.snapshots, e.to);
    StartIsCoupled(count, start);
    AlwaysCoupled(count, start, past);
    CoupledAlong(count, e);
    x := PausesOnCreated(count, e.creating, e.until, e.pausing, e.obs, e.run);
    ShowsAlong(e);
    RestoresAsCreated(count, e.creating, e.m, early, e.obs, e.run, e.to, claim);
    SameEntries(e.m.reverts.c, e.run, x, early, claim);
  }

  lemma SameEntries(c: Cluster, run: Run, x: Run, early: set<Snapshot>, claim: Claim)
    requires AsksForValidated(c, run, early, claim) && x.claimsToSnapshots == run.claimsToSnapshots
    ensures AsksForValidated(c, x, early, claim)
  {
  }
}
