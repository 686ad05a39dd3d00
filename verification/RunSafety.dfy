/** What holds of every version of every run that is ever stored. */
module RunSafety {
  import opened Wrappers
  import opened Types
  import opened RunPlan
  import opened RunMachine

  /** The hook's job of this run, if the strategy has the hook, was seen to succeed. */
  predicate HookSucceeded(s: Site, hook: string, spec: Option<string>, run: Run) {
    spec.Some? ==> JobName(hook, run.name) in s.succeeded
  }

  predicate HooksDone(s: Site, run: Run) {
    run.status.initFinished ==>
      && run.owner in s.strategies
      && HookSucceeded(s, "init", s.strategies[run.owner].init, run)
      && (run.status.preValidationFinished ==>
          HookSucceeded(s, "prevalidation", s.strategies[run.owner].preValidation, run))
      && (run.status.validationFinished ==> HookSucceeded(s, "validation", s.strategies[run.owner].validation, run))
  }

  /** A version of a run that may be stored. */
  ghost predicate GoodRun(s: Site, run: Run) {
    && IsPrefix(run.status)
    && (run.status.kustStarted ==> NoGaps(run))
    && (!run.status.kustFinished ==> run.kustomized == [] && run.claims == [])
    && (run.status.kustFinished ==> (run.name, run.kustomized) in s.builds)
    && HooksDone(s, run)
  }

  /** Two versions of one run agree on its owner and claim names, and on the kustomized objects once there are any. */
  predicate Agree(a: Run, b: Run) {
    a.name == b.name ==>
      && a.owner == b.owner
      && a.claimsToSnapshots.Keys == b.claimsToSnapshots.Keys
      && (a.status.kustFinished && b.status.kustFinished ==> a.claims == b.claims && a.kustomized == b.kustomized)
  }

  ghost predicate SiteGood(s: Site) {
    && (forall run <- s.past :: GoodRun(s, run))
    && (forall a <- s.past, b <- s.past :: Agree(a, b))
    && (forall n <- s.runs :: s.runs[n].name == n && s.runs[n] in s.past)
    && (forall p <- s.past :: p.name in s.runs ==> StageOf(p.status) <= StageOf(s.runs[p.name].status))
  }

  // ---- What a plan stores ----

  ghost predicate Finds(acts: seq<Act>, owner: string, hook: string, run: Run, spec: Strategy -> Option<string>) {
    exists st: Strategy :: FindStrategy(owner, Some(st)) in acts
      && (spec(st).Some? ==> AwaitJob(JobName(hook, run.name)) in acts)
  }

  /** The run a processing stores differs from its copy by the stamp of the copy's stage, and the stage has been
      carried out. */
  ghost predicate Advances(copy: Run, acts: seq<Act>, next: Run) {
    var stage := StageOf(copy.status);
    && stage < 10
    && next == copy.(status := Mark(copy.status, stage), claims := next.claims, kustomized := next.kustomized)
    && (stage == 0 ==> NoGaps(copy))
    && (stage != 1 ==> next.claims == copy.claims && next.kustomized == copy.kustomized)
    && (stage == 1 ==> exists out :: Build(copy.name, out) in acts && next.kustomized == copy.kustomized + out)
    && (stage == 3 ==> Finds(acts, copy.owner, "init", copy, (st: Strategy) => st.init))
    && (stage == 5 ==> Finds(acts, copy.owner, "prevalidation", copy, (st: Strategy) => st.preValidation))
    && (stage == 7 ==> Finds(acts, copy.owner, "validation", copy, (st: Strategy) => st.validation))
    && (stage == 9 ==> copy.cleanup)
  }

  predicate IsHookJob(job: string, run: string) {
    job == JobName("init", run) || job == JobName("prevalidation", run) || job == JobName("validation", run)
  }

  ghost predicate ActFits(copy: Run, act: Act) {
    match act
    case EnsureJob(j) => IsHookJob(j, copy.name)
    case EnsureClaim(claim) => claim in copy.claims && copy.status.kustFinished
    case DeleteRun(n) => n == copy.name
    case _ => true
  }

  ghost predicate PlanFits(copy: Run, acts: seq<Act>) {
    && (forall act <- acts :: ActFits(copy, act))
    && (forall i | 0 <= i < |acts| && acts[i].UpdateRun? ::
          i == |acts| - 1 && acts[i].seen == copy && Advances(copy, acts[..i], acts[i].next))
  }

  predicate Done(s: Site, act: Act) {
    match act
    case FindStrategy(owner, found) => found == Lookup(s.strategies, owner)
    case Build(run, out) => (run, out) in s.builds
    case AwaitJob(j) => j in s.succeeded
    case DeleteRun(n) => n !in s.runs
    case _ => true
  }

  ghost predicate TaskGood(s: Site, t: Task) {
    && t.copy in s.past
    && t.at <= |t.acts|
    && PlanFits(t.copy, t.acts)
    && (forall i | 0 <= i < t.at :: Done(s, t.acts[i]))
  }

  /** Every job belongs to a hook of a run. */
  ghost predicate JobsFit(s: Site) {
    forall j <- s.jobs :: exists run <- s.past :: IsHookJob(j, run.name)
  }

  ghost predicate Good(w: World) {
    && SiteGood(w.s)
    && JobsFit(w.s)
    && (forall id <- w.tasks :: TaskGood(w.s, w.tasks[id]))
  }

  lemma ObjectActsKind(texts: seq<string>, created: seq<bool>)
    ensures forall act <- ObjectActs(texts, created) :: act.CreateObject?
  {
  }

  lemma LabelActsKind(run: Run, visited: seq<(string, Claim)>)
    ensures forall act <- LabelActs(run, visited) :: act.GetPVC? || act.LabelSnapshot?
  {
  }

  lemma DropActsKind(claims: seq<Claim>, deleted: seq<bool>)
    ensures forall act <- DropActs(claims, deleted) :: act.DeleteClaim?
  {
  }

  ghost predicate BodyFits(run: Run, plan: Plan) {
    && (forall act <- plan.acts :: ActFits(run, act) && !act.UpdateRun?)
    && (plan.finish.Store? ==> Advances(run, plan.acts, plan.finish.next))
  }

  lemma KustFits(run: Run, obs: Obs)
    requires StageOf(run.status) == 1
    ensures BodyFits(run, KustPlan(run, obs))
  {
    assert KustPlan(run, obs).acts[1] == Build(run.name, obs.out);
  }

  lemma InitFits(run: Run, obs: Obs)
    requires StageOf(run.status) == 3
    ensures BodyFits(run, InitPlan(run, obs))
  {
    var plan := InitPlan(run, obs);
    ObjectActsKind(run.kustomized, obs.created);
    forall act | act in EnsureActs(run.claims) ensures ActFits(run, act) && !act.UpdateRun? {
      var i :| 0 <= i < |run.claims| && EnsureActs(run.claims)[i] == act;
      assert run.claims[i] in run.claims;
    }
    if plan.finish.Store? {
      assert plan.acts[0] == FindStrategy(run.owner, obs.strategy);
      var jobs := JobActs("init", obs.strategy.value.init, run);
      if obs.strategy.value.init.Some? {
        assert jobs[1] == AwaitJob(JobName("init", run.name));
        assert jobs[1] in plan.acts;
      }
    }
  }

  lemma PreValidationFits(run: Run, obs: Obs)
    requires StageOf(run.status) == 5
    ensures BodyFits(run, PreValidationPlan(run, obs))
  {
    var plan := PreValidationPlan(run, obs);
    if plan.finish.Store? {
      assert plan.acts[0] == FindStrategy(run.owner, obs.strategy);
      if obs.strategy.value.preValidation.Some? {
        assert plan.acts[2] == AwaitJob(JobName("prevalidation", run.name));
      }
    }
  }

  lemma ValidationFits(run: Run, obs: Obs)
    requires StageOf(run.status) == 7
    ensures BodyFits(run, ValidationPlan(run, obs))
  {
    var plan := ValidationPlan(run, obs);
    LabelActsKind(run, obs.visited);
    if plan.finish.Store? {
      assert plan.acts[0] == FindStrategy(run.owner, obs.strategy);
      if obs.strategy.value.validation.Some? {
        assert plan.acts[2] == AwaitJob(JobName("validation", run.name));
      }
    }
  }

  lemma CleanupFits(run: Run, obs: Obs)
    requires StageOf(run.status) == 9
    ensures BodyFits(run, CleanupPlan(run, obs))
  {
    DropActsKind(run.claims, obs.claimsDeleted);
  }

  lemma StageFits(run: Run, obs: Obs)
    ensures BodyFits(run, PlanFor(run, obs))
  {
    match StageOf(run.status)
    case 1 => KustFits(run, obs);
    case 3 => InitFits(run, obs);
    case 5 => PreValidationFits(run, obs);
    case 7 => ValidationFits(run, obs);
    case 9 => CleanupFits(run, obs);
    case _ =>
  }

  lemma BodyGivesPlan(run: Run, plan: Plan, acts: seq<Act>)
    requires BodyFits(run, plan) && acts == plan.acts + Closing(run, plan.finish)
    ensures PlanFits(run, acts)
  {
    assert forall i | 0 <= i < |plan.acts| :: acts[i] == plan.acts[i] && plan.acts[i] in plan.acts;
    forall i | 0 <= i < |acts| && acts[i].UpdateRun?
      ensures i == |acts| - 1 && acts[i].seen == run && Advances(run, acts[..i], acts[i].next)
    {
      assert acts[..i] == plan.acts;
    }
  }

  // ---- Steps ----

  /** Histories only grow, the strategies stay, and a deleted run does not come back. */
  ghost predicate Grows(s: Site, t: Site) {
    && s.strategies == t.strategies && s.past <= t.past && s.succeeded <= t.succeeded && s.builds <= t.builds
    && forall p <- s.past :: p.name !in s.runs ==> p.name !in t.runs
  }

  lemma GrowingKeepsTask(s: Site, t: Site, task: Task)
    requires Grows(s, t) && TaskGood(s, task)
    ensures TaskGood(t, task)
  {
    forall i | 0 <= i < task.at ensures Done(t, task.acts[i]) {
      assert task.acts[i] in task.acts && ActFits(task.copy, task.acts[i]);
    }
  }

  lemma GrowingKeepsRun(s: Site, t: Site, run: Run)
    requires Grows(s, t) && GoodRun(s, run)
    ensures GoodRun(t, run)
  {
  }

  lemma StoringKeepsSite(s: Site, run: Run)
    requires SiteGood(s) && GoodRun(s, run)
    requires forall p <- s.past :: Agree(p, run) && (p.name == run.name ==> StageOf(p.status) <= StageOf(run.status))
    requires run.name in s.runs || forall p <- s.past :: p.name != run.name
    ensures SiteGood(StoreRun(s, run)) && Grows(s, StoreRun(s, run))
  {
    var t := StoreRun(s, run);
    GrowingKeepsRuns(s, t);
    GrowingKeepsRun(s, t, run);
    StoringKeepsAgreement(s, run);
    StoringKeepsOrder(s, run);
  }

  lemma StoringKeepsAgreement(s: Site, run: Run)
    requires (forall a <- s.past, b <- s.past :: Agree(a, b)) && forall p <- s.past :: Agree(p, run)
    ensures forall a <- StoreRun(s, run).past, b <- StoreRun(s, run).past :: Agree(a, b)
  {
    assert forall a <- s.past :: Agree(a, run) && Agree(run, a);
  }

  lemma StoringKeepsOrder(s: Site, run: Run)
    requires forall n <- s.runs :: s.runs[n].name == n && s.runs[n] in s.past
    requires forall p <- s.past :: p.name in s.runs ==> StageOf(p.status) <= StageOf(s.runs[p.name].status)
    requires forall p <- s.past :: p.name == run.name ==> StageOf(p.status) <= StageOf(run.status)
    ensures var t := StoreRun(s, run);
      && (forall n <- t.runs :: t.runs[n].name == n && t.runs[n] in t.past)
      && (forall p <- t.past :: p.name in t.runs ==> StageOf(p.status) <= StageOf(t.runs[p.name].status))
  {
  }

  lemma GrowingKeepsRuns(s: Site, t: Site)
    requires SiteGood(s) && Grows(s, t)
    ensures forall p <- s.past :: GoodRun(t, p)
  {
    forall p | p in s.past ensures GoodRun(t, p) {
      GrowingKeepsRun(s, t, p);
    }
  }

  /** Changes other than stored runs. */
  lemma QuietKeepsSite(s: Site, t: Site)
    requires SiteGood(s) && Grows(s, t) && t.past == s.past
    requires forall n <- t.runs :: n in s.runs && t.runs[n] == s.runs[n]
    ensures SiteGood(t)
  {
    GrowingKeepsRuns(s, t);
  }

  /** Rewriting the current version without touching stamps, names or kustomized objects. */
  lemma RewriteKeepsSite(s: Site, n: string, run: Run)
    requires SiteGood(s) && n in s.runs
    requires run == s.runs[n].(claimsToSnapshots := run.claimsToSnapshots, cleanup := run.cleanup)
    requires run.claimsToSnapshots.Keys == s.runs[n].claimsToSnapshots.Keys
    requires NoGaps(s.runs[n]) ==> NoGaps(run)
    ensures SiteGood(StoreRun(s, run)) && Grows(s, StoreRun(s, run))
  {
    var current := s.runs[n];
    assert GoodRun(s, current);
    assert GoodRun(s, run);
    forall p | p in s.past ensures Agree(p, run) && (p.name == run.name ==> StageOf(p.status) <= StageOf(run.status)) {
      assert Agree(p, current);
    }
    StoringKeepsSite(s, run);
  }

  lemma MarkIsNext(t: Status)
    requires IsPrefix(t) && StageOf(t) < 10
    ensures IsPrefix(Mark(t, StageOf(t))) && StageOf(Mark(t, StageOf(t))) == StageOf(t) + 1
  {
    PrefixChain(t);
    PrefixChain(Mark(t, StageOf(t)));
  }

  lemma HooksStayDone(s: Site, t: Task, next: Run)
    requires SiteGood(s) && GoodRun(s, t.copy) && PlanFits(t.copy, t.acts) && |t.acts| > 0
    requires forall i | 0 <= i < |t.acts| - 1 :: Done(s, t.acts[i])
    requires Advances(t.copy, t.acts[..|t.acts| - 1], next)
    ensures HooksDone(s, next)
  {
    var acts := t.acts[..|t.acts| - 1];
    assert forall act <- acts :: Done(s, act);
    PrefixChain(t.copy.status);
  }

  lemma AdvancedRunGood(s: Site, t: Task, next: Run)
    requires SiteGood(s) && GoodRun(s, t.copy) && PlanFits(t.copy, t.acts) && |t.acts| > 0
    requires forall i | 0 <= i < |t.acts| - 1 :: Done(s, t.acts[i])
    requires Advances(t.copy, t.acts[..|t.acts| - 1], next)
    ensures GoodRun(s, next) && StageOf(next.status) == StageOf(t.copy.status) + 1
  {
    var acts := t.acts[..|t.acts| - 1];
    assert forall act <- acts :: Done(s, act);
    MarkIsNext(t.copy.status);
    PrefixChain(t.copy.status);
    HooksStayDone(s, t, next);
    if StageOf(t.copy.status) == 1 {
      var out :| Build(t.copy.name, out) in acts && next.kustomized == t.copy.kustomized + out;
      assert next.kustomized == out;
    }
  }

  /** An accepted update moves the current version one stage on. */
  lemma UpdateKeepsSite(s: Site, t: Task)
    requires SiteGood(s) && TaskGood(s, t) && t.at < |t.acts| && t.acts[t.at].UpdateRun? && Accepts(s, t.acts[t.at])
    ensures SiteGood(Effect(s, t.acts[t.at])) && Grows(s, Effect(s, t.acts[t.at]))
    ensures s.runs[t.copy.name] == t.copy && StageOf(t.acts[t.at].next.status) == StageOf(t.copy.status) + 1
  {
    var next := t.acts[t.at].next;
    AdvancedRunGood(s, t, next);
    PrefixChain(t.copy.status);
    forall p | p in s.past
        ensures Agree(p, next) && (p.name == next.name ==> StageOf(p.status) <= StageOf(next.status)) {
      assert Agree(p, t.copy);
      if p.name == t.copy.name && StageOf(t.copy.status) == 1 {
        PrefixChain(p.status);
        assert GoodRun(s, p);
      }
    }
    StoringKeepsSite(s, next);
  }

  lemma QuietAct(s: Site, act: Act)
    requires !act.UpdateRun?
    ensures Effect(s, act).past == s.past && Grows(s, Effect(s, act))
    ensures forall n <- Effect(s, act).runs :: n in s.runs && Effect(s, act).runs[n] == s.runs[n]
    ensures forall j <- Effect(s, act).jobs :: j in s.jobs || act == EnsureJob(j)
  {
  }

  /** One call of a worker. */
  lemma ActKeepsSite(s: Site, t: Task)
    requires SiteGood(s) && JobsFit(s) && TaskGood(s, t) && t.at < |t.acts| && Accepts(s, t.acts[t.at])
    ensures var s' := Effect(s, t.acts[t.at]);
      SiteGood(s') && JobsFit(s') && Grows(s, s') && Done(s', t.acts[t.at])
  {
    var act := t.acts[t.at];
    assert act in t.acts && ActFits(t.copy, act);
    if act.UpdateRun? {
      UpdateKeepsSite(s, t);
    } else {
      QuietAct(s, act);
      QuietKeepsSite(s, Effect(s, act));
    }
  }

  lemma ProceedKeepsGood(w: World, id: nat)
    requires Good(w) && Enabled(w, Proceed(id))
    ensures Good(Next(w, Proceed(id)))
  {
    var w' := Next(w, Proceed(id));
    ActKeepsSite(w.s, w.tasks[id]);
    forall other | other in w'.tasks ensures TaskGood(w'.s, w'.tasks[other]) {
      GrowingKeepsTask(w.s, w'.s, w.tasks[other]);
    }
  }

  lemma GrowthKeepsGood(w: World, s': Site)
    requires Good(w) && SiteGood(s') && Grows(w.s, s') && JobsFit(s')
    ensures Good(w.(s := s'))
  {
    forall id | id in w.tasks ensures TaskGood(s', w.tasks[id]) {
      GrowingKeepsTask(w.s, s', w.tasks[id]);
    }
  }

  lemma BeginKeepsGood(w: World, id: nat, copy: Run, obs: Obs)
    requires Good(w) && Enabled(w, Begin(id, copy, obs))
    ensures Good(Next(w, Begin(id, copy, obs)))
  {
    StageFits(copy, obs);
    BodyGivesPlan(copy, PlanFor(copy, obs), AllActs(copy, obs));
  }

  lemma CreationKeepsGood(w: World, run: Run)
    requires Good(w) && Enabled(w, RunCreated(run))
    ensures Good(Next(w, RunCreated(run)))
  {
    PrefixChain(run.status);
    StoringKeepsSite(w.s, run);
    GrowthKeepsGood(w, StoreRun(w.s, run));
  }

  lemma RewriteKeepsGood(w: World, l: Label)
    requires Good(w) && Enabled(w, l) && (l.SnapshotUpdates? || l.CleanupRequested?)
    ensures Good(Next(w, l))
  {
    var run := w.s.runs[l.run];
    var next := if l.CleanupRequested? then run.(cleanup := true)
                else run.(claimsToSnapshots := run.claimsToSnapshots[l.claim := l.snapshot]);
    RewriteKeepsSite(w.s, l.run, next);
    GrowthKeepsGood(w, StoreRun(w.s, next));
  }

  lemma StepKeepsGood(w: World, l: Label)
    requires Good(w) && Enabled(w, l)
    ensures Good(Next(w, l))
  {
    match l
    case Begin(id, copy, obs) => BeginKeepsGood(w, id, copy, obs);
    case Proceed(id) => ProceedKeepsGood(w, id);
    case RunCreated(run) => CreationKeepsGood(w, run);
    case SnapshotUpdates(_, _, _) => RewriteKeepsGood(w, l);
    case CleanupRequested(_) => RewriteKeepsGood(w, l);
    case Quit(_) =>
    case _ =>
      QuietKeepsSite(w.s, Next(w, l).s);
      GrowthKeepsGood(w, Next(w, l).s);
  }

  lemma {:induction false} AlwaysGood(w: World, labels: seq<Label>)
    requires Start(w) && Exec(w, labels).Some?
    ensures Good(Exec(w, labels).value)
  {
    if labels != [] {
      var before := labels[..|labels| - 1];
      AlwaysGood(w, before);
      StepKeepsGood(Exec(w, before).value, labels[|labels| - 1]);
    }
  }

  // ---- Theorems over all interleavings ----

  /** Run stages form a prefix: the stamps of every version ever stored are the first so many of the ten. */
  lemma StagesFormPrefix(w: World, labels: seq<Label>, run: Run)
    requires Start(w) && Exec(w, labels).Some? && run in Exec(w, labels).value.s.past
    ensures IsPrefix(run.status)
    ensures forall i | 0 <= i < 10 :: Bits(run.status)[i] <==> i < StageOf(run.status)
  {
    AlwaysGood(w, labels);
    assert GoodRun(Exec(w, labels).value.s, run);
    PrefixBits(run.status);
  }

  lemma PrefixBits(t: Status)
    requires IsPrefix(t)
    ensures forall i | 0 <= i < 10 :: Bits(t)[i] <==> i < StageOf(t)
  {
    PrefixChain(t);
  }

  /** Each stored processing step adds exactly one stamp to the version it replaces, and is never based on a version
      that is no longer current. */
  lemma StoredStepAddsOne(w: World, labels: seq<Label>, id: nat)
    requires Start(w) && Exec(w, labels).Some? && Enabled(Exec(w, labels).value, Proceed(id))
    requires var t := Exec(w, labels).value.tasks[id]; t.acts[t.at].UpdateRun?
    ensures var m := Exec(w, labels).value;
      var t := m.tasks[id];
      && t.copy.name in m.s.runs && m.s.runs[t.copy.name] == t.copy
      && StageOf(t.copy.status) < 10
      && t.acts[t.at].next.status == Mark(t.copy.status, StageOf(t.copy.status))
      && StageOf(t.acts[t.at].next.status) == StageOf(t.copy.status) + 1
  {
    AlwaysGood(w, labels);
    var m := Exec(w, labels).value;
    assert TaskGood(m.s, m.tasks[id]);
    UpdateKeepsSite(m.s, m.tasks[id]);
  }

  /** The snapshot gate, across both writers: once KustStarted is set no claim is without a snapshot, and all versions
      of a run map the same claims. */
  lemma SnapshotGate(w: World, labels: seq<Label>, a: Run, b: Run)
    requires Start(w) && Exec(w, labels).Some?
    requires a in Exec(w, labels).value.s.past && b in Exec(w, labels).value.s.past && a.name == b.name
    ensures a.status.kustStarted ==> forall c <- a.claimsToSnapshots :: a.claimsToSnapshots[c] != ""
    ensures a.claimsToSnapshots.Keys == b.claimsToSnapshots.Keys && a.owner == b.owner
  {
    AlwaysGood(w, labels);
    var s := Exec(w, labels).value.s;
    assert GoodRun(s, a) && Agree(a, b);
  }

  /** No Finished stamp before the job: a version in which a stage of a hook is finished comes after the job of that
      hook and run was seen to succeed. */
  lemma FinishedMeansSucceeded(w: World, labels: seq<Label>, run: Run)
    requires Start(w) && Exec(w, labels).Some? && run in Exec(w, labels).value.s.past
    ensures HooksDone(Exec(w, labels).value.s, run)
    ensures run.status.validationFinished ==>
      var s := Exec(w, labels).value.s;
      && run.owner in s.strategies
      && HookSucceeded(s, "init", s.strategies[run.owner].init, run)
      && HookSucceeded(s, "prevalidation", s.strategies[run.owner].preValidation, run)
      && HookSucceeded(s, "validation", s.strategies[run.owner].validation, run)
  {
    AlwaysGood(w, labels);
    assert GoodRun(Exec(w, labels).value.s, run);
    PrefixChain(run.status);
  }

  /** Retries duplicate nothing: the kustomized objects of a run are the output of one build, the same in every version
      that has them, and so are its claims. */
  lemma OneBuildPerRun(w: World, labels: seq<Label>, a: Run, b: Run)
    requires Start(w) && Exec(w, labels).Some?
    requires a in Exec(w, labels).value.s.past && b in Exec(w, labels).value.s.past && a.name == b.name
    requires a.status.kustFinished
    ensures (a.name, a.kustomized) in Exec(w, labels).value.s.builds
    ensures b.status.kustFinished ==> a.kustomized == b.kustomized && a.claims == b.claims
  {
    AlwaysGood(w, labels);
    assert GoodRun(Exec(w, labels).value.s, a) && Agree(a, b);
  }

  lemma PrefixFree(a: string, b: string, x: string, y: string)
    requires '-' !in a && '-' !in b && a + "-" + x == b + "-" + y
    ensures a == b && x == y
  {
    var s, t := a + "-" + x, b + "-" + y;
    assert s[|a|] == '-' && forall i | 0 <= i < |a| :: s[i] == a[i] && a[i] in a;
    assert t[|b|] == '-' && forall i | 0 <= i < |b| :: t[i] == b[i] && b[i] in b;
    assert s[..|a|] == a && t[..|b|] == b;
    assert s[|a| + 1..] == x && t[|b| + 1..] == y;
  }

  /** At most one job per hook and run: every job is that of a hook of some run, and jobs of different hooks or of
      different runs have different names. */
  lemma JobsPerHook(w: World, labels: seq<Label>, job: string, hook: string, hook': string, run: string, run': string)
    requires Start(w) && Exec(w, labels).Some? && job in Exec(w, labels).value.s.jobs
    requires {hook, hook'} <= {"init", "prevalidation", "validation"}
    requires job == JobName(hook, run) && job == JobName(hook', run')
    ensures exists r <- Exec(w, labels).value.s.past :: IsHookJob(job, r.name)
    ensures hook == hook' && run == run'
  {
    AlwaysGood(w, labels);
    assert hook in {hook, hook'} && hook' in {hook, hook'};
    PrefixFree(hook, hook', run, run');
  }

  /** CleanupFinished is stored only by a processing whose deletion of the run did not take effect. */
  lemma CleanupStampMeansNotDeleted(w: World, labels: seq<Label>, id: nat)
    requires Start(w) && Exec(w, labels).Some? && Enabled(Exec(w, labels).value, Proceed(id))
    requires var t := Exec(w, labels).value.tasks[id]; t.acts[t.at].UpdateRun?
    ensures var t := Exec(w, labels).value.tasks[id];
      forall i | 0 <= i < t.at :: !t.acts[i].DeleteRun?
  {
    AlwaysGood(w, labels);
    var m := Exec(w, labels).value;
    var t := m.tasks[id];
    assert TaskGood(m.s, t);
    forall i | 0 <= i < t.at ensures !t.acts[i].DeleteRun? {
      assert Done(m.s, t.acts[i]) && t.acts[i] in t.acts && ActFits(t.copy, t.acts[i]);
    }
  }

  /** Whatever claim a worker creates for a run, at whatever retry, is one of the run's kustomized claims, which are the
      same in every version that has them. */
  lemma ClaimsComeFromOneList(w: World, labels: seq<Label>, id: nat, run: Run)
    requires Start(w) && Exec(w, labels).Some? && Enabled(Exec(w, labels).value, Proceed(id))
    requires var t := Exec(w, labels).value.tasks[id]; t.acts[t.at].EnsureClaim? && t.copy.name == run.name
    requires run in Exec(w, labels).value.s.past && run.status.kustFinished
    ensures var t := Exec(w, labels).value.tasks[id]; t.acts[t.at].claim in run.claims
  {
    AlwaysGood(w, labels);
    var m := Exec(w, labels).value;
    var t := m.tasks[id];
    assert TaskGood(m.s, t);
    assert t.acts[t.at] in t.acts && ActFits(t.copy, t.acts[t.at]);
    assert Agree(t.copy, run);
  }
}
