/** The validation controller (pkg/manager/validator.go, pkg/manager/validator_helper.go): the cluster state it shares
    with snapshot arrivals and with the revert controller, and what one call of ProcessValidationRun does, as the
    sequence of API calls it issues when none of them fails. */
module RunPlan {
  import opened Wrappers
  import opened Types
  import opened Kustomize

  /** Runs, jobs and claims of the server, and three histories no step reads: every version of a run that was ever
      stored, the jobs that were seen to succeed, and the build outputs per run. */
  datatype Site = Site(
    strategies: map<string, Strategy>, runs: map<string, Run>, jobs: map<string, bool>, claims: map<Key, Claim>,
    past: set<Run>, succeeded: set<string>, builds: set<(string, seq<string>)>)

  /** One API call. Creations that find the object in place are not errors here. */
  datatype Act =
    | FindStrategy(owner: string, found: Option<Strategy>)
    | Build(run: string, out: seq<string>)
    | GetPVC(key: Key, live: Claim)
    | EnsureClaim(claim: Claim)
    | AwaitClaims(keys: seq<Key>)
    | CreateObject(text: string)
    | EnsureJob(job: string)
    | AwaitJob(job: string)
    | LabelSnapshot(snapshot: string)
    | DeleteRun(run: string)
    | DeleteClaim(key: Key)
    | UpdateRun(seen: Run, next: Run)

  function Lookup(strategies: map<string, Strategy>, owner: string): Option<Strategy> {
    if owner in strategies then Some(strategies[owner]) else None
  }

  ghost predicate Accepts(s: Site, act: Act) {
    match act
    case FindStrategy(owner, found) => found == Lookup(s.strategies, owner)
    case GetPVC(k, live) => k in s.claims && s.claims[k] == live
    case AwaitClaims(keys) => forall k <- keys :: k in s.claims && s.claims[k].bound
    case AwaitJob(j) => j in s.jobs && s.jobs[j]
    case UpdateRun(seen, _) => seen.name in s.runs && s.runs[seen.name] == seen
    case _ => true
  }

  function StoreRun(s: Site, run: Run): Site {
    s.(runs := s.runs[run.name := run], past := s.past + {run})
  }

  function Effect(s: Site, act: Act): Site {
    match act
    case Build(run, out) => s.(builds := s.builds + {(run, out)})
    case EnsureClaim(claim) => if claim.Key() in s.claims then s else s.(claims := s.claims[claim.Key() := claim])
    case EnsureJob(j) => if j in s.jobs then s else s.(jobs := s.jobs[j := false])
    case AwaitJob(j) => s.(succeeded := s.succeeded + {j})
    case DeleteRun(n) => s.(runs := s.runs - {n})
    case DeleteClaim(k) => s.(claims := s.claims - {k})
    case UpdateRun(_, next) => StoreRun(s, next)
    case _ => s
  }

  // ---- Stages ----

  function Bits(t: Status): (bits: seq<bool>)
    ensures |bits| == 10
  {
    [t.kustStarted, t.kustFinished, t.initStarted, t.initFinished, t.preValidationStarted, t.preValidationFinished,
     t.validationStarted, t.validationFinished, t.cleanupStarted, t.cleanupFinished]
  }

  /** The stages that are stamped are the first so many of the ten. */
  predicate IsPrefix(t: Status) {
    forall i, j | 0 <= i < j < 10 :: Bits(t)[j] ==> Bits(t)[i]
  }

  /** The cascade of ProcessValidationRun: the first stage without a stamp, or 10. */
  function StageOf(t: Status): nat {
    if !t.kustStarted then 0
    else if !t.kustFinished then 1
    else if !t.initStarted then 2
    else if !t.initFinished then 3
    else if !t.preValidationStarted then 4
    else if !t.preValidationFinished then 5
    else if !t.validationStarted then 6
    else if !t.validationFinished then 7
    else if !t.cleanupStarted then 8
    else if !t.cleanupFinished then 9
    else 10
  }

  function Mark(t: Status, stage: nat): Status {
    match stage
    case 0 => t.(kustStarted := true)
    case 1 => t.(kustFinished := true)
    case 2 => t.(initStarted := true)
    case 3 => t.(initFinished := true)
    case 4 => t.(preValidationStarted := true)
    case 5 => t.(preValidationFinished := true)
    case 6 => t.(validationStarted := true)
    case 7 => t.(validationFinished := true)
    case 8 => t.(cleanupStarted := true)
    case 9 => t.(cleanupFinished := true)
    case _ => t
  }

  // ---- Plans ----

  /** Answers seen by one processing: the strategy found, the build output, the claims read in the order visited, the
      kustomized claims and their order, which objects could be created, which deletions took effect. */
  datatype Obs = Obs(
    strategy: Option<Strategy>, out: seq<string>, visited: seq<(string, Claim)>,
    bySnapshot: map<string, Claim>, order: seq<string>, made: seq<Claim>,
    created: seq<bool>, runDeleted: bool, claimsDeleted: seq<bool>)

  /** How a processing that is not cut ends: it stores the run, returns without doing anything, or fails. */
  datatype Finish = Store(next: Run) | Silent | Fails

  datatype Plan = Plan(acts: seq<Act>, finish: Finish)

  function JobName(hook: string, run: string): string { hook + "-" + run }

  function JobActs(hook: string, spec: Option<string>, run: Run): seq<Act> {
    if spec.None? then [] else [EnsureJob(JobName(hook, run.name)), AwaitJob(JobName(hook, run.name))]
  }

  predicate NoGaps(run: Run) {
    forall c <- run.claimsToSnapshots :: run.claimsToSnapshots[c] != ""
  }

  /** pvcToPtr takes the address of the loop variable: under Go's loop semantics before version 1.22 every element of
      the result points to the last claim. */
  function PvcToPtr(claims: seq<Claim>): (ptrs: seq<Claim>)
    ensures |ptrs| == |claims|
  {
    seq(|claims|, i requires 0 <= i < |claims| => claims[|claims| - 1])
  }

  function KeysOf(claims: seq<Claim>): seq<Key> {
    seq(|claims|, i requires 0 <= i < |claims| => claims[i].Key())
  }

  function EnsureActs(claims: seq<Claim>): seq<Act> {
    seq(|claims|, i requires 0 <= i < |claims| => EnsureClaim(claims[i]))
  }

  function ReadActs(namespace: string, visited: seq<(string, Claim)>): seq<Act> {
    seq(|visited|, i requires 0 <= i < |visited| => GetPVC(NamespacedName(namespace, visited[i].0), visited[i].1))
  }

  /** createObjects goes on after an object that cannot be created, and fails at the end. */
  function ObjectActs(texts: seq<string>, created: seq<bool>): seq<Act> {
    if texts == [] then []
    else
      var n := |texts| - 1;
      ObjectActs(texts[..n], created) + if n < |created| && created[n] then [CreateObject(texts[n])] else []
  }

  predicate AllCreated(texts: seq<string>, created: seq<bool>) {
    |created| >= |texts| && forall i | 0 <= i < |texts| :: created[i]
  }

  function LabelActs(run: Run, visited: seq<(string, Claim)>): seq<Act> {
    if visited == [] then []
    else
      var last := visited[|visited| - 1];
      LabelActs(run, visited[..|visited| - 1])
      + [GetPVC(NamespacedName(run.namespace, last.0), last.1),
         LabelSnapshot(if last.0 in run.claimsToSnapshots then run.claimsToSnapshots[last.0] else "")]
  }

  function DropActs(claims: seq<Claim>, deleted: seq<bool>): seq<Act> {
    if claims == [] then []
    else
      var n := |claims| - 1;
      DropActs(claims[..n], deleted) + if n < |deleted| && deleted[n] then [DeleteClaim(claims[n].Key())] else []
  }

  function Visits(visited: seq<(string, Claim)>): seq<string> {
    seq(|visited|, i requires 0 <= i < |visited| => visited[i].0)
  }

  function Live(visited: seq<(string, Claim)>): map<string, Claim> {
    if visited == [] then map[]
    else Live(visited[..|visited| - 1])[visited[|visited| - 1].0 := visited[|visited| - 1].1]
  }

  /** The claims and objects that kustomize puts into the run. */
  ghost predicate KustAnswers(run: Run, obs: Obs) {
    && obs.strategy.Some?
    && Enumerates(Visits(obs.visited), run.claimsToSnapshots.Keys)
    && BySnapshot(run.claimsToSnapshots, Live(obs.visited), obs.bySnapshot)
    && Kustomized(obs.strategy.value, obs.bySnapshot, obs.order, obs.made)
  }

  function Stamped(run: Run): Run {
    run.(status := Mark(run.status, StageOf(run.status)))
  }

  ghost function KustPlan(run: Run, obs: Obs): Plan {
    Plan([FindStrategy(run.owner, obs.strategy), Build(run.name, obs.out)] + ReadActs(run.namespace, obs.visited),
         if KustAnswers(run, obs)
         then Store(Stamped(run.(kustomized := run.kustomized + obs.out, claims := obs.made))) else Fails)
  }

  function InitPlan(run: Run, obs: Obs): Plan {
    var start := [FindStrategy(run.owner, obs.strategy)] + EnsureActs(run.claims)
               + [AwaitClaims(KeysOf(PvcToPtr(run.claims)))] + ObjectActs(run.kustomized, obs.created);
    if obs.strategy.None? || !AllCreated(run.kustomized, obs.created) then Plan(start, Fails)
    else Plan(start + JobActs("init", obs.strategy.value.init, run), Store(Stamped(run)))
  }

  function PreValidationPlan(run: Run, obs: Obs): Plan {
    if obs.strategy.None? then Plan([FindStrategy(run.owner, None)], Fails)
    else Plan([FindStrategy(run.owner, obs.strategy)] + JobActs("prevalidation", obs.strategy.value.preValidation, run),
              Store(Stamped(run)))
  }

  ghost function ValidationPlan(run: Run, obs: Obs): Plan {
    if obs.strategy.None? then Plan([FindStrategy(run.owner, None)], Fails)
    else Plan([FindStrategy(run.owner, obs.strategy)] + JobActs("validation", obs.strategy.value.validation, run)
                + LabelActs(run, obs.visited),
              if Enumerates(Visits(obs.visited), run.claimsToSnapshots.Keys) then Store(Stamped(run)) else Fails)
  }

  function CleanupPlan(run: Run, obs: Obs): Plan {
    if !run.cleanup then Plan([], Silent)
    else Plan((if obs.runDeleted then [DeleteRun(run.name)] else []) + DropActs(run.claims, obs.claimsDeleted),
              Store(Stamped(run)))
  }

  ghost function PlanFor(run: Run, obs: Obs): Plan {
    match StageOf(run.status)
    case 0 => Plan([], if NoGaps(run) then Store(Stamped(run)) else Fails)
    case 1 => KustPlan(run, obs)
    case 3 => InitPlan(run, obs)
    case 5 => PreValidationPlan(run, obs)
    case 7 => ValidationPlan(run, obs)
    case 9 => CleanupPlan(run, obs)
    case 10 => Plan([], Silent)
    case _ => Plan([], Store(Stamped(run)))
  }

  function Closing(run: Run, finish: Finish): seq<Act> {
    if finish.Store? then [UpdateRun(run, finish.next)] else []
  }

  ghost function AllActs(run: Run, obs: Obs): seq<Act> {
    PlanFor(run, obs).acts + Closing(run, PlanFor(run, obs).finish)
  }

  /** In a prefix each stamp implies the one before it. */
  lemma PrefixChain(t: Status)
    ensures IsPrefix(t) <==>
      && (t.kustFinished ==> t.kustStarted) && (t.initStarted ==> t.kustFinished)
      && (t.initFinished ==> t.initStarted) && (t.preValidationStarted ==> t.initFinished)
      && (t.preValidationFinished ==> t.preValidationStarted) && (t.validationStarted ==> t.preValidationFinished)
      && (t.validationFinished ==> t.validationStarted) && (t.cleanupStarted ==> t.validationFinished)
      && (t.cleanupFinished ==> t.cleanupStarted)
  {
    if IsPrefix(t) {
      forall i | 0 <= i < 9 ensures Bits(t)[i + 1] ==> Bits(t)[i] {}
      assert Bits(t)[0 + 1] ==> Bits(t)[0];
      assert Bits(t)[1 + 1] ==> Bits(t)[1];
      assert Bits(t)[2 + 1] ==> Bits(t)[2];
      assert Bits(t)[3 + 1] ==> Bits(t)[3];
      assert Bits(t)[4 + 1] ==> Bits(t)[4];
      assert Bits(t)[5 + 1] ==> Bits(t)[5];
      assert Bits(t)[6 + 1] ==> Bits(t)[6];
      assert Bits(t)[7 + 1] ==> Bits(t)[7];
      assert Bits(t)[8 + 1] ==> Bits(t)[8];
    }
  }

  /** The only processings that succeed without storing anything are a paused cleanup and a finished run. */
  lemma SilentIff(run: Run, obs: Obs)
    requires IsPrefix(run.status)
    ensures PlanFor(run, obs).finish == Silent <==>
      run.status.cleanupFinished || (run.status.cleanupStarted && !run.cleanup)
    ensures PlanFor(run, obs).finish == Silent ==> PlanFor(run, obs).acts == []
  {
    PrefixChain(run.status);
  }

  predicate WaitPasses(claims: seq<Claim>, live: map<Key, Claim>) {
    forall k <- KeysOf(PvcToPtr(claims)) :: k in live && live[k].bound
  }

  predicate AllBound(claims: seq<Claim>, live: map<Key, Claim>) {
    forall k <- KeysOf(claims) :: k in live && live[k].bound
  }

  /** Waiting for the pointers waits for the last claim only. */
  lemma PointersWaitForLast(claims: seq<Claim>, live: map<Key, Claim>)
    ensures WaitPasses(claims, live) <==>
            (claims == [] || (claims[|claims| - 1].Key() in live && live[claims[|claims| - 1].Key()].bound))
  {
    if claims != [] {
      var keys := KeysOf(PvcToPtr(claims));
      assert keys[0] == claims[|claims| - 1].Key();
      assert keys[0] in keys;
    }
  }

  /** Exactly when that is the wait it is meant to be: it ends only with all claims bound, whatever the cluster holds,
      if and only if all claims have the key of the last one. For claims of different names that means at most one. */
  lemma PointersWaitForAllIff(claims: seq<Claim>)
    ensures (forall live: map<Key, Claim> :: WaitPasses(claims, live) ==> AllBound(claims, live))
       <==> (forall claim <- claims :: claim.Key() == claims[|claims| - 1].Key())
    ensures DistinctKeys(claims) ==>
      ((forall live: map<Key, Claim> :: WaitPasses(claims, live) ==> AllBound(claims, live)) <==> |claims| <= 1)
  {
    if forall claim <- claims :: claim.Key() == claims[|claims| - 1].Key() {
      forall live: map<Key, Claim> | WaitPasses(claims, live) ensures AllBound(claims, live) {
        PointersWaitForLast(claims, live);
      }
      OneKey(claims);
    } else {
      var i :| 0 <= i < |claims| && claims[i].Key() != claims[|claims| - 1].Key();
      var live := UnboundClaimPassesWait(claims, i);
    }
  }

  lemma OneKey(claims: seq<Claim>)
    requires forall claim <- claims :: claim.Key() == claims[|claims| - 1].Key()
    ensures DistinctKeys(claims) ==> |claims| <= 1
  {
    if |claims| > 1 {
      assert claims[0] in claims;
    }
  }

  /** A cluster in which the wait ends although claim `i` is not even there. */
  lemma UnboundClaimPassesWait(claims: seq<Claim>, i: nat) returns (live: map<Key, Claim>)
    requires i < |claims| && claims[i].Key() != claims[|claims| - 1].Key()
    ensures WaitPasses(claims, live) && !AllBound(claims, live) && claims[i].Key() !in live
  {
    var last := claims[|claims| - 1];
    live := map[last.Key() := last.(bound := true)];
    PointersWaitForLast(claims, live);
    assert KeysOf(claims)[i] in KeysOf(claims);
  }
}
