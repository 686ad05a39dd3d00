/** What a stage of a run has done by the time its stamp is stored. */
module RunCompleteness {
  import opened Wrappers
  import opened Types
  import opened RunPlan
  import opened RunMachine
  import S = RunSafety

  /** Every worker goes through the plan of its copy. */
  ghost predicate Planned(w: World) {
    forall id <- w.tasks :: w.tasks[id].at <= |w.tasks[id].acts| && exists obs ::
        w.tasks[id].acts == AllActs(w.tasks[id].copy, obs)
  }

  lemma {:induction false} AlwaysPlanned(w: World, labels: seq<Label>)
    requires Start(w) && Exec(w, labels).Some?
    ensures Planned(Exec(w, labels).value)
  {
    if labels != [] {
      AlwaysPlanned(w, labels[..|labels| - 1]);
      StepKeepsPlanned(Exec(w, labels[..|labels| - 1]).value, labels[|labels| - 1]);
    }
  }

  lemma StepKeepsPlanned(w: World, l: Label)
    requires Planned(w) && Enabled(w, l)
    ensures Planned(Next(w, l))
  {
    match l
    case Begin(id, copy, obs) => BeginKeepsPlanned(w, id, copy, obs);
    case Proceed(id) =>
    case Quit(id) =>
    case _ => assert Next(w, l).tasks == w.tasks;
  }

  lemma BeginKeepsPlanned(w: World, id: nat, copy: Run, obs: Obs)
    requires Planned(w)
    ensures Planned(Next(w, Begin(id, copy, obs)))
  {
    var w' := Next(w, Begin(id, copy, obs));
    assert w'.tasks[id].acts == AllActs(copy, obs);
    assert forall i <- w'.tasks :: i != id ==> w'.tasks[i] == w.tasks[i];
  }

  /** Every call a worker has issued was one the server took, in some earlier state of the run. */
  lemma {:induction false} EveryCallWasTaken(w: World, labels: seq<Label>, id: nat, i: nat) returns (n: nat)
    requires Start(w) && Exec(w, labels).Some? && id in Exec(w, labels).value.tasks
    requires i < Exec(w, labels).value.tasks[id].at <= |Exec(w, labels).value.tasks[id].acts|
    ensures n < |labels| && Exec(w, labels[..n]).Some?
    ensures Accepts(Exec(w, labels[..n]).value.s, Exec(w, labels).value.tasks[id].acts[i])
  {
    var before, l := labels[..|labels| - 1], labels[|labels| - 1];
    var mid := Exec(w, before).value;
    StepTakes(mid, l, id, i);
    if Accepts(mid.s, Next(mid, l).tasks[id].acts[i]) {
      n := |before|;
    } else {
      n := EveryCallWasTaken(w, before, id, i);
      assert before[..n] == labels[..n];
    }
  }

  lemma StepTakes(m: World, l: Label, id: nat, i: nat)
    requires Enabled(m, l) && id in Next(m, l).tasks
    requires i < Next(m, l).tasks[id].at <= |Next(m, l).tasks[id].acts|
    ensures var acts := Next(m, l).tasks[id].acts;
      || Accepts(m.s, acts[i])
      || (id in m.tasks && m.tasks[id].acts == acts && i < m.tasks[id].at <= |acts|)
  {
  }

  /** The jobs that count as seen to succeed had succeeded, in some earlier state. */
  lemma {:induction false} SeenMeansSucceeded(w: World, labels: seq<Label>, job: string) returns (n: nat)
    requires Start(w) && Exec(w, labels).Some? && job in Exec(w, labels).value.s.succeeded
    ensures n < |labels| && Exec(w, labels[..n]).Some?
    ensures var jobs := Exec(w, labels[..n]).value.s.jobs; job in jobs && jobs[job]
  {
    var before, l := labels[..|labels| - 1], labels[|labels| - 1];
    var mid := Exec(w, before).value;
    if job in mid.s.succeeded {
      n := SeenMeansSucceeded(w, before, job);
      assert before[..n] == labels[..n];
    } else {
      SucceedsNow(mid, l, job);
      n := |before|;
    }
  }

  lemma SucceedsNow(m: World, l: Label, job: string)
    requires Enabled(m, l) && job !in m.s.succeeded && job in Next(m, l).s.succeeded
    ensures job in m.s.jobs && m.s.jobs[job]
  {
  }

  /** The worker is about to store its copy with the stamp of this stage. */
  ghost predicate Stores(w: World, id: nat, stage: nat) {
    && Enabled(w, Proceed(id)) && w.tasks[id].acts[w.tasks[id].at].UpdateRun?
    && StageOf(w.tasks[id].copy.status) == stage
  }

  // ---- Acts of a plan ----

  lemma {:induction false} LabelsAll(run: Run, visited: seq<(string, Claim)>, i: nat)
    requires i < |visited| && visited[i].0 in run.claimsToSnapshots
    ensures LabelSnapshot(run.claimsToSnapshots[visited[i].0]) in LabelActs(run, visited)
  {
    if i < |visited| - 1 {
      LabelsAll(run, visited[..|visited| - 1], i);
    }
  }

  lemma {:induction false} CreatesAll(texts: seq<string>, created: seq<bool>, i: nat)
    requires i < |texts| && AllCreated(texts, created)
    ensures CreateObject(texts[i]) in ObjectActs(texts, created)
  {
    if i < |texts| - 1 {
      CreatesAll(texts[..|texts| - 1], created, i);
    }
  }

  /** In a plan the only update of the run is the last act. */
  lemma OnlyLastUpdates(run: Run, obs: Obs, at: nat)
    requires StageOf(run.status) in {1, 3, 5, 7}
    requires at < |AllActs(run, obs)| && AllActs(run, obs)[at].UpdateRun?
    ensures PlanFor(run, obs).finish.Store? && AllActs(run, obs)[..at] == PlanFor(run, obs).acts
  {
    var acts := PlanFor(run, obs).acts;
    NoUpdateBefore(run, obs);
    assert forall i | 0 <= i < |acts| :: AllActs(run, obs)[i] == acts[i] && acts[i] in acts;
  }

  lemma NoUpdateBefore(run: Run, obs: Obs)
    requires StageOf(run.status) in {1, 3, 5, 7}
    ensures forall act <- PlanFor(run, obs).acts :: !act.UpdateRun?
  {
    NoUpdateInObjects(run.kustomized, obs.created);
    NoUpdateInLabels(run, obs.visited);
  }

  lemma NoUpdateInObjects(texts: seq<string>, created: seq<bool>)
    ensures forall act <- ObjectActs(texts, created) :: act.CreateObject?
  {
  }

  lemma NoUpdateInLabels(run: Run, visited: seq<(string, Claim)>)
    ensures forall act <- LabelActs(run, visited) :: !act.UpdateRun?
  {
  }

  lemma LabelsInPlan(run: Run, obs: Obs, c: string)
    requires StageOf(run.status) == 7 && PlanFor(run, obs).finish.Store? && c in run.claimsToSnapshots
    ensures LabelSnapshot(run.claimsToSnapshots[c]) in PlanFor(run, obs).acts
  {
    assert c in Visits(obs.visited);
    var i :| 0 <= i < |obs.visited| && Visits(obs.visited)[i] == c;
    LabelsAll(run, obs.visited, i);
  }

  lemma ClaimsInPlan(run: Run, obs: Obs, i: nat)
    requires StageOf(run.status) == 3 && PlanFor(run, obs).finish.Store? && i < |run.claims|
    ensures EnsureClaim(run.claims[i]) in PlanFor(run, obs).acts
  {
    assert EnsureActs(run.claims)[i] in EnsureActs(run.claims);
  }

  lemma ObjectsInPlan(run: Run, obs: Obs, i: nat)
    requires StageOf(run.status) == 3 && PlanFor(run, obs).finish.Store? && i < |run.kustomized|
    ensures CreateObject(run.kustomized[i]) in PlanFor(run, obs).acts
  {
    CreatesAll(run.kustomized, obs.created, i);
  }

  // ---- Theorems over all interleavings ----

  /** ValidationFinished is stored only by a processing that has labelled the snapshot of every claim of its copy. */
  lemma ValidatedSnapshotsAreLabelled(w: World, labels: seq<Label>, id: nat)
    requires Start(w) && Exec(w, labels).Some? && Stores(Exec(w, labels).value, id, 7)
    ensures var t := Exec(w, labels).value.tasks[id];
      forall c <- t.copy.claimsToSnapshots :: LabelSnapshot(t.copy.claimsToSnapshots[c]) in t.acts[..t.at]
  {
    AlwaysPlanned(w, labels);
    var t := Exec(w, labels).value.tasks[id];
    var obs :| t.acts == AllActs(t.copy, obs);
    OnlyLastUpdates(t.copy, obs, t.at);
    forall c | c in t.copy.claimsToSnapshots ensures LabelSnapshot(t.copy.claimsToSnapshots[c]) in t.acts[..t.at] {
      LabelsInPlan(t.copy, obs, c);
    }
  }

  /** InitFinished is stored only by a processing that has made sure of every claim and created every object of the
      run. */
  lemma InitMakesEverything(w: World, labels: seq<Label>, id: nat)
    requires Start(w) && Exec(w, labels).Some? && Stores(Exec(w, labels).value, id, 3)
    ensures var t := Exec(w, labels).value.tasks[id];
      && (forall claim <- t.copy.claims :: EnsureClaim(claim) in t.acts[..t.at])
      && (forall text <- t.copy.kustomized :: CreateObject(text) in t.acts[..t.at])
  {
    AlwaysPlanned(w, labels);
    var t := Exec(w, labels).value.tasks[id];
    var obs :| t.acts == AllActs(t.copy, obs);
    OnlyLastUpdates(t.copy, obs, t.at);
    forall i | 0 <= i < |t.copy.claims| ensures EnsureClaim(t.copy.claims[i]) in t.acts[..t.at] {
      ClaimsInPlan(t.copy, obs, i);
    }
    forall i | 0 <= i < |t.copy.kustomized| ensures CreateObject(t.copy.kustomized[i]) in t.acts[..t.at] {
      ObjectsInPlan(t.copy, obs, i);
    }
  }

  // ---- The jobs of the hooks ----

  predicate CreatedThenAwaited(acts: seq<Act>, job: string) {
    exists i, j :: 0 <= i < j < |acts| && acts[i] == EnsureJob(job) && acts[j] == AwaitJob(job)
  }

  /** The job is created and then waited for if the strategy has the hook, and no job is created otherwise. */
  predicate RunsHook(acts: seq<Act>, spec: Option<string>, job: string) {
    && (spec.Some? ==> CreatedThenAwaited(acts, job))
    && (forall act <- acts :: act.EnsureJob? ==> spec.Some? && act.job == job)
  }

  lemma HookInMiddle(start: seq<Act>, hook: string, spec: Option<string>, run: Run, rest: seq<Act>)
    requires forall act <- start :: !act.EnsureJob?
    requires forall act <- rest :: !act.EnsureJob?
    ensures RunsHook(start + JobActs(hook, spec, run) + rest, spec, hook + "-" + run.name)
  {
    var acts := start + JobActs(hook, spec, run) + rest;
    if spec.Some? {
      assert acts[|start|] == EnsureJob(hook + "-" + run.name) && acts[|start| + 1] == AwaitJob(hook + "-" + run.name);
    }
  }

  lemma InitRunsHook(run: Run, obs: Obs)
    requires StageOf(run.status) == 3 && PlanFor(run, obs).finish.Store?
    ensures obs.strategy.Some? && PlanFor(run, obs).acts != []
    ensures PlanFor(run, obs).acts[0] == FindStrategy(run.owner, obs.strategy)
    ensures RunsHook(PlanFor(run, obs).acts, obs.strategy.value.init, "init" + "-" + run.name)
  {
    var start := [FindStrategy(run.owner, obs.strategy)] + EnsureActs(run.claims)
               + [AwaitClaims(KeysOf(PvcToPtr(run.claims)))] + ObjectActs(run.kustomized, obs.created);
    NoUpdateInObjects(run.kustomized, obs.created);
    HookInMiddle(start, "init", obs.strategy.value.init, run, []);
    assert start + JobActs("init", obs.strategy.value.init, run) + [] == PlanFor(run, obs).acts;
  }

  lemma PreValidationRunsHook(run: Run, obs: Obs)
    requires StageOf(run.status) == 5 && PlanFor(run, obs).finish.Store?
    ensures obs.strategy.Some? && PlanFor(run, obs).acts != []
    ensures PlanFor(run, obs).acts[0] == FindStrategy(run.owner, obs.strategy)
    ensures RunsHook(PlanFor(run, obs).acts, obs.strategy.value.preValidation, "prevalidation" + "-" + run.name)
  {
    var start, job := [FindStrategy(run.owner, obs.strategy)],
        JobActs("prevalidation", obs.strategy.value.preValidation, run);
    HookInMiddle(start, "prevalidation", obs.strategy.value.preValidation, run, []);
    assert start + job + [] == PlanFor(run, obs).acts;
  }

  lemma ValidationRunsHook(run: Run, obs: Obs)
    requires StageOf(run.status) == 7 && PlanFor(run, obs).finish.Store?
    ensures obs.strategy.Some? && PlanFor(run, obs).acts != []
    ensures PlanFor(run, obs).acts[0] == FindStrategy(run.owner, obs.strategy)
    ensures RunsHook(PlanFor(run, obs).acts, obs.strategy.value.validation, "validation" + "-" + run.name)
  {
    S.LabelActsKind(run, obs.visited);
    HookInMiddle([FindStrategy(run.owner, obs.strategy)], "validation", obs.strategy.value.validation, run,
      LabelActs(run, obs.visited));
  }

  /** The strategy a processing has found is the one there is. */
  lemma FoundIsThere(m: World, id: nat, owner: string, found: Option<Strategy>)
    requires S.Good(m) && id in m.tasks && m.tasks[id].at > 0 && m.tasks[id].acts[0] == FindStrategy(owner, found)
    ensures found == Lookup(m.s.strategies, owner)
  {
    assert S.TaskGood(m.s, m.tasks[id]) && S.Done(m.s, m.tasks[id].acts[0]);
  }

  lemma StoredAfterPlan(m: World, id: nat, stage: nat) returns (obs: Obs)
    requires Planned(m) && Stores(m, id, stage) && stage in {1, 3, 5, 7}
    ensures var t := m.tasks[id];
      PlanFor(t.copy, obs).finish.Store? && t.acts[..t.at] == PlanFor(t.copy, obs).acts
  {
    var t := m.tasks[id];
    obs :| t.acts == AllActs(t.copy, obs);
    OnlyLastUpdates(t.copy, obs, t.at);
  }

  /** Each hook's stage is stored only by a processing that has made sure of the job of that hook and run and has then
      seen it succeed; without the hook it creates no job. */
  lemma HookJobsAreCreated(w: World, labels: seq<Label>, id: nat, stage: nat)
    requires Start(w) && Exec(w, labels).Some? && stage in {3, 5, 7} && Stores(Exec(w, labels).value, id, stage)
    ensures var m := Exec(w, labels).value;
      var t := m.tasks[id];
      && t.copy.owner in m.s.strategies
      && var strategy, acts := m.s.strategies[t.copy.owner], t.acts[..t.at];
      && (stage == 3 ==> RunsHook(acts, strategy.init, "init" + "-" + t.copy.name))
      && (stage == 5 ==> RunsHook(acts, strategy.preValidation, "prevalidation" + "-" + t.copy.name))
      && (stage == 7 ==> RunsHook(acts, strategy.validation, "validation" + "-" + t.copy.name))
  {
    AlwaysPlanned(w, labels);
    S.AlwaysGood(w, labels);
    var m := Exec(w, labels).value;
    var obs := StoredAfterPlan(m, id, stage);
    var copy := m.tasks[id].copy;
    match stage
    case 3 => InitRunsHook(copy, obs);
    case 5 => PreValidationRunsHook(copy, obs);
    case 7 => ValidationRunsHook(copy, obs);
    FoundIsThere(m, id, copy.owner, obs.strategy);
  }

  // ---- The order of the work ----

  /** A label is put on a snapshot only after the job of the validation hook was seen to succeed. */
  lemma LabelledOnlyAfterValidation(w: World, labels: seq<Label>, id: nat)
    requires Start(w) && Exec(w, labels).Some? && Enabled(Exec(w, labels).value, Proceed(id))
    requires var t := Exec(w, labels).value.tasks[id]; t.acts[t.at].LabelSnapshot?
    ensures var m := Exec(w, labels).value;
      var t := m.tasks[id];
      && t.copy.owner in m.s.strategies
      && (m.s.strategies[t.copy.owner].validation.Some? ==>
            var job := "validation" + "-" + t.copy.name;
            AwaitJob(job) in t.acts[..t.at] && job in m.s.succeeded)
  {
    AlwaysPlanned(w, labels);
    S.AlwaysGood(w, labels);
    var m := Exec(w, labels).value;
    var t := m.tasks[id];
    var obs :| t.acts == AllActs(t.copy, obs);
    LabelComesLate(t.copy, obs, t.at);
    FoundIsThere(m, id, t.copy.owner, obs.strategy);
    if m.s.strategies[t.copy.owner].validation.Some? {
      AwaitedIsSeen(m, id, 2, "validation" + "-" + t.copy.name);
    }
  }

  lemma AwaitedIsSeen(m: World, id: nat, i: nat, job: string)
    requires S.Good(m) && id in m.tasks && i < m.tasks[id].at <= |m.tasks[id].acts|
    requires m.tasks[id].acts[i] == AwaitJob(job)
    ensures AwaitJob(job) in m.tasks[id].acts[..m.tasks[id].at] && job in m.s.succeeded
  {
    var t := m.tasks[id];
    assert S.TaskGood(m.s, t) && S.Done(m.s, t.acts[i]);
    assert t.acts[..t.at][i] == t.acts[i];
  }

  lemma OnlyValidationLabels(run: Run, obs: Obs, at: nat)
    requires at < |AllActs(run, obs)| && AllActs(run, obs)[at].LabelSnapshot?
    ensures StageOf(run.status) == 7 && at < |PlanFor(run, obs).acts|
  {
    var acts := PlanFor(run, obs).acts;
    NoUpdateInObjects(run.kustomized, obs.created);
    S.DropActsKind(run.claims, obs.claimsDeleted);
    assert forall i | |acts| <= i < |AllActs(run, obs)| :: AllActs(run, obs)[i].UpdateRun?;
    assert acts[at] == AllActs(run, obs)[at] && acts[at] in acts;
  }

  lemma LabelComesLate(run: Run, obs: Obs, at: nat)
    requires at < |AllActs(run, obs)| && AllActs(run, obs)[at].LabelSnapshot?
    ensures at > 0 && AllActs(run, obs)[0] == FindStrategy(run.owner, obs.strategy) && obs.strategy.Some?
    ensures obs.strategy.value.validation.Some? ==>
      at > 2 && AllActs(run, obs)[2] == AwaitJob("validation" + "-" + run.name)
  {
    OnlyValidationLabels(run, obs, at);
    var acts := PlanFor(run, obs).acts;
    assert forall i | 0 <= i < |acts| :: AllActs(run, obs)[i] == acts[i];
  }

  /** The order in which the copy is made: the claims, the wait for them, the objects, the job. */
  function Rank(act: Act): nat {
    match act
    case FindStrategy(_, _) => 0
    case EnsureClaim(_) => 1
    case AwaitClaims(_) => 2
    case CreateObject(_) => 3
    case EnsureJob(_) => 4
    case AwaitJob(_) => 5
    case _ => 6
  }

  predicate InRank(acts: seq<Act>) {
    forall i, j | 0 <= i < j < |acts| :: Rank(acts[i]) <= Rank(acts[j])
  }

  lemma RanksJoin(a: seq<Act>, b: seq<Act>, k: nat)
    requires InRank(a) && InRank(b) && (forall act <- a :: Rank(act) <= k) && forall act <- b :: Rank(act) >= k
    ensures InRank(a + b)
  {
    forall i, j | 0 <= i < j < |a + b| ensures Rank((a + b)[i]) <= Rank((a + b)[j]) {
      assert i < |a| ==> a[i] in a;
      assert j >= |a| ==> b[j - |a|] in b;
    }
  }

  lemma InitIsInRank(run: Run, obs: Obs)
    requires StageOf(run.status) == 3
    ensures InRank(PlanFor(run, obs).acts)
  {
    var find, claims, wait := [FindStrategy(run.owner, obs.strategy)], EnsureActs(run.claims),
        [AwaitClaims(KeysOf(PvcToPtr(run.claims)))];
    var objects := ObjectActs(run.kustomized, obs.created);
    NoUpdateInObjects(run.kustomized, obs.created);
    RanksJoin(find, claims, 0);
    RanksJoin(find + claims, wait, 2);
    RanksJoin(find + claims + wait, objects, 3);
    if obs.strategy.Some? {
      RanksJoin(find + claims + wait + objects, JobActs("init", obs.strategy.value.init, run), 4);
    }
  }

  lemma LastIsAwaited(run: Run, obs: Obs)
    requires StageOf(run.status) == 3 && run.claims != []
    ensures var i := 1 + |run.claims|;
      && i < |PlanFor(run, obs).acts| && PlanFor(run, obs).acts[i].AwaitClaims?
      && run.claims[|run.claims| - 1].Key() in PlanFor(run, obs).acts[i].keys
  {
    var keys := KeysOf(PvcToPtr(run.claims));
    assert keys[0] == run.claims[|run.claims| - 1].Key();
    assert PlanFor(run, obs).acts[1 + |run.claims|] == AwaitClaims(keys);
  }

  lemma AwaitsLast(m: World, id: nat)
    requires Planned(m) && Stores(m, id, 3) && m.tasks[id].copy.claims != []
    ensures var t := m.tasks[id];
      var i := 1 + |t.copy.claims|;
      && i < t.at <= |t.acts| && t.acts[i].AwaitClaims?
      && t.copy.claims[|t.copy.claims| - 1].Key() in t.acts[i].keys
  {
    var t := m.tasks[id];
    var obs := StoredAfterPlan(m, id, 3);
    LastIsAwaited(t.copy, obs);
    assert t.acts[..t.at][1 + |t.copy.claims|] == t.acts[1 + |t.copy.claims|];
  }

  /** InitFinished is stored only by a processing that has first made sure of the claims, then seen at least the last of
      them bound, in some earlier state, then created the objects, and then run the job. */
  lemma InitInOrder(w: World, labels: seq<Label>, id: nat) returns (n: nat)
    requires Start(w) && Exec(w, labels).Some? && Stores(Exec(w, labels).value, id, 3)
    ensures var t := Exec(w, labels).value.tasks[id]; InRank(t.acts[..t.at])
    ensures var claims := Exec(w, labels).value.tasks[id].copy.claims;
      claims != [] ==>
        && n < |labels| && Exec(w, labels[..n]).Some?
        && var key, live := claims[|claims| - 1].Key(), Exec(w, labels[..n]).value.s.claims;
        key in live && live[key].bound
  {
    n := 0;
    AlwaysPlanned(w, labels);
    var m := Exec(w, labels).value;
    var obs := StoredAfterPlan(m, id, 3);
    InitIsInRank(m.tasks[id].copy, obs);
    var claims := m.tasks[id].copy.claims;
    if claims != [] {
      AwaitsLast(m, id);
      n := EveryCallWasTaken(w, labels, id, 1 + |claims|);
    }
  }

  // ---- The claims that are read ----

  ghost predicate Read(acts: seq<Act>, key: Key) {
    exists live :: GetPVC(key, live) in acts
  }

  lemma KustReads(run: Run, obs: Obs, c: string)
    requires StageOf(run.status) == 1 && PlanFor(run, obs).finish.Store? && c in run.claimsToSnapshots
    ensures Read(PlanFor(run, obs).acts, NamespacedName(run.namespace, c))
  {
    assert c in Visits(obs.visited);
    var i :| 0 <= i < |obs.visited| && Visits(obs.visited)[i] == c;
    assert PlanFor(run, obs).acts[2 + i] == GetPVC(NamespacedName(run.namespace, c), obs.visited[i].1);
  }

  lemma ValidationReads(run: Run, obs: Obs, c: string)
    requires StageOf(run.status) == 7 && PlanFor(run, obs).finish.Store? && c in run.claimsToSnapshots
    ensures Read(PlanFor(run, obs).acts, NamespacedName(run.namespace, c))
  {
    assert c in Visits(obs.visited);
    var i :| 0 <= i < |obs.visited| && Visits(obs.visited)[i] == c;
    LabelsRead(run, obs.visited, i);
  }

  lemma {:induction false} LabelsRead(run: Run, visited: seq<(string, Claim)>, i: nat)
    requires i < |visited|
    ensures GetPVC(NamespacedName(run.namespace, visited[i].0), visited[i].1) in LabelActs(run, visited)
  {
    if i < |visited| - 1 {
      LabelsRead(run, visited[..|visited| - 1], i);
    }
  }

  /** Kustomizing and validating are stored only after every claim of the copy was read, in the namespace of the run, as
      it was in some earlier state. */
  lemma EveryClaimIsRead(w: World, labels: seq<Label>, id: nat, stage: nat, c: string) returns (live: Claim, n: nat)
    requires Start(w) && Exec(w, labels).Some? && stage in {1, 7} && Stores(Exec(w, labels).value, id, stage)
    requires c in Exec(w, labels).value.tasks[id].copy.claimsToSnapshots
    ensures var t := Exec(w, labels).value.tasks[id];
      var key := NamespacedName(t.copy.namespace, c);
      && GetPVC(key, live) in t.acts[..t.at]
      && n < |labels| && Exec(w, labels[..n]).Some?
      && key in Exec(w, labels[..n]).value.s.claims && Exec(w, labels[..n]).value.s.claims[key] == live
  {
    AlwaysPlanned(w, labels);
    var t := Exec(w, labels).value.tasks[id];
    var key := NamespacedName(t.copy.namespace, c);
    StageReads(Exec(w, labels).value, id, stage, c);
    live :| GetPVC(key, live) in t.acts[..t.at];
    var i :| 0 <= i < t.at && t.acts[i] == GetPVC(key, live);
    n := EveryCallWasTaken(w, labels, id, i);
  }

  lemma StageReads(m: World, id: nat, stage: nat, c: string)
    requires Planned(m) && stage in {1, 7} && Stores(m, id, stage) && c in m.tasks[id].copy.claimsToSnapshots
    ensures var t := m.tasks[id]; Read(t.acts[..t.at], NamespacedName(t.copy.namespace, c))
  {
    var obs := StoredAfterPlan(m, id, stage);
    if stage == 1 {
      KustReads(m.tasks[id].copy, obs, c);
    } else {
      ValidationReads(m.tasks[id].copy, obs, c);
    }
  }
}
