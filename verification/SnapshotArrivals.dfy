/** ProcessSnapshot with any number of workers (pkg/manager/validator.go): the strategy mutex keeps it to one run per
    strategy, and the run maps each claim to the snapshot last written for it. */
module SnapshotArrivals {
  import opened Wrappers
  import opened Types

  /** A worker between taking and releasing the mutex of the strategy with this UID. */
  datatype Phase =
    | Holding(strategy: string)
    | Matched(strategy: string, found: Option<Run>, claims: set<string>)

  /** `strategies` are all strategies there ever are, by UID. `names` are all run names ever used, and `written` are,
      per run, the snapshots written for its claims: histories no step depends on except for the freshness of a new
      name. */
  datatype World = World(
    strategies: map<string, Strategy>, runs: map<string, Run>, names: set<string>,
      written: map<string, map<string, string>>,
    locks: map<string, nat>, workers: map<nat, Phase>)

  datatype Label =
    | Lock(id: nat, strategy: string)
    | Match(id: nat, found: Option<Run>, claims: set<string>)
    | Write(id: nat, claim: string, snapshot: string, name: string)
    | Unlock(id: nat)
    | OtherUpdate(run: Run)
    | RunGone(name: string)
    | UnguardedCreate(run: Run)

  function MutexId(strategy: Strategy): string { strategy.namespace + "/" + strategy.name }

  function MutexOf(w: World, uid: string): string {
    if uid in w.strategies then MutexId(w.strategies[uid]) else ""
  }

  function NamespaceOf(w: World, uid: string): string {
    if uid in w.strategies then w.strategies[uid].namespace else ""
  }

  predicate NoRunOf(w: World, uid: string) {
    forall n <- w.runs :: w.runs[n].owner != uid
  }

  predicate Enabled(w: World, l: Label) {
    match l
    case Lock(id, uid) => id !in w.workers && uid in w.strategies && MutexOf(w, uid) !in w.locks
    case Match(id, found, _) =>
      && id in w.workers && w.workers[id].Holding?
      && (if found.Some? then found.value.name in w.runs && w.runs[found.value.name] == found.value
          && found.value.owner == w.workers[id].strategy
          else NoRunOf(w, w.workers[id].strategy))
    case Write(id, claim, _, name) =>
      && id in w.workers && w.workers[id].Matched?
      && (match w.workers[id].found
          case None => claim in w.workers[id].claims && name !in w.names
          case Some(run) =>
            claim in run.claimsToSnapshots && run.name in w.runs && w.runs[run.name] == run && name == run.name)
    case Unlock(id) => id in w.workers
    case OtherUpdate(run) =>
      && run.name in w.runs && run.owner == w.runs[run.name].owner
      && run.claimsToSnapshots == w.runs[run.name].claimsToSnapshots
    case RunGone(n) => true
    case UnguardedCreate(run) => run.name !in w.names
  }

  /** The run initRun builds: all claims without a snapshot, except the one that arrived. */
  function FirstRun(namespace: string, name: string, strategy: string, claims: set<string>, claim: string,
      snapshot: string): Run {
    Run(namespace, name, strategy, (map c | c in claims :: "")[claim := snapshot], false, [], [], NOTHING_DONE)
  }

  function Written(w: World, name: string): map<string, string> {
    if name in w.written then w.written[name] else map[]
  }

  function Stored(w: World, run: Run, claim: string, snapshot: string): World {
    w.(runs := w.runs[run.name := run], names := w.names + {run.name},
       written := w.written[run.name := Written(w, run.name)[claim := snapshot]])
  }

  function Next(w: World, l: Label): World {
    match l
    case Lock(id, uid) => w.(locks := w.locks[MutexOf(w, uid) := id], workers := w.workers[id := Holding(uid)])
    case Match(id, found, claims) =>
      if id in w.workers then w.(workers := w.workers[id := Phase.Matched(w.workers[id].strategy, found, claims)])
          else w
    case Write(id, claim, snapshot, name) =>
      if id !in w.workers || !w.workers[id].Matched? then w else
      var p := w.workers[id];
      var run := if p.found.Some?
          then p.found.value.(claimsToSnapshots := p.found.value.claimsToSnapshots[claim := snapshot])
                 else FirstRun(NamespaceOf(w, p.strategy), name, p.strategy, p.claims, claim, snapshot);
      Stored(w, run, claim, snapshot).(workers := w.workers[id := Holding(p.strategy)])
    case Unlock(id) =>
      if id in w.workers then w.(locks := w.locks - {MutexOf(w, w.workers[id].strategy)}, workers := w.workers - {id})
          else w
    case OtherUpdate(run) => w.(runs := w.runs[run.name := run])
    case RunGone(n) => w.(runs := w.runs - {n})
    case UnguardedCreate(run) => w.(runs := w.runs[run.name := run], names := w.names + {run.name})
  }

  ghost function Exec(w: World, labels: seq<Label>): Option<World> {
    if labels == [] then Some(w)
    else
      var mid := Exec(w, labels[..|labels| - 1]);
      if mid.Some? && Enabled(mid.value, labels[|labels| - 1]) then Some(Next(mid.value, labels[|labels| - 1]))
          else None
  }

  ghost predicate Start(w: World) {
    w.runs == map[] && w.names == {} && w.written == map[] && w.locks == map[] && w.workers == map[]
  }

  /** The revert controller creates no run of its own meanwhile. */
  predicate Guarded(labels: seq<Label>) {
    forall l <- labels :: !l.UnguardedCreate?
  }

  // ---- Each run holds what was written ----

  /** The run holds what was last written for each claim, and nothing for the others. */
  predicate Reflects(run: Run, written: map<string, string>) {
    && written.Keys <= run.claimsToSnapshots.Keys
    && forall c <- run.claimsToSnapshots :: run.claimsToSnapshots[c] == if c in written then written[c] else ""
  }

  ghost predicate NamesKept(w: World) {
    && (forall n <- w.runs :: w.runs[n].name == n && n in w.names)
    && w.written.Keys <= w.names
  }

  ghost predicate Tidy(w: World) {
    NamesKept(w) && forall n <- w.runs :: Reflects(w.runs[n], Written(w, n))
  }

  lemma StoringKeepsTidy(w: World, before: map<string, string>, run: Run, claim: string, snapshot: string)
    requires Tidy(w) && claim in before && run.claimsToSnapshots == before[claim := snapshot]
    requires Reflects(run.(claimsToSnapshots := before), Written(w, run.name))
    ensures Tidy(Stored(w, run, claim, snapshot))
  {
    var w' := Stored(w, run, claim, snapshot);
    assert Reflects(run, Written(w', run.name));
    forall n | n in w'.runs ensures Reflects(w'.runs[n], Written(w', n)) {
      if n != run.name {
        assert Written(w', n) == Written(w, n);
      }
    }
  }

  lemma UpdateKeepsTidy(w: World, run: Run, claim: string, snapshot: string)
    requires Tidy(w) && run.name in w.runs && w.runs[run.name] == run && claim in run.claimsToSnapshots
    ensures Tidy(Stored(w, run.(claimsToSnapshots := run.claimsToSnapshots[claim := snapshot]), claim, snapshot))
  {
    var before := run.claimsToSnapshots;
    assert run.(claimsToSnapshots := before) == run;
    StoringKeepsTidy(w, before, run.(claimsToSnapshots := before[claim := snapshot]), claim, snapshot);
  }

  lemma CreateKeepsTidy(w: World, name: string, uid: string, claims: set<string>, claim: string, snapshot: string)
    requires Tidy(w) && name !in w.names && claim in claims
    ensures Tidy(Stored(w, FirstRun(NamespaceOf(w, uid), name, uid, claims, claim, snapshot), claim, snapshot))
  {
    assert name !in w.written;
    StoringKeepsTidy(w, map c | c in claims ::
      "", FirstRun(NamespaceOf(w, uid), name, uid, claims, claim, snapshot), claim, snapshot);
  }

  lemma WriteKeepsTidy(w: World, id: nat, claim: string, snapshot: string, name: string)
    requires Tidy(w) && Enabled(w, Write(id, claim, snapshot, name))
    ensures Tidy(Next(w, Write(id, claim, snapshot, name)))
  {
    var p := w.workers[id];
    match p.found
    case Some(run) => UpdateKeepsTidy(w, run, claim, snapshot);
    case None => CreateKeepsTidy(w, name, p.strategy, p.claims, claim, snapshot);
  }

  lemma {:induction false} AlwaysTidy(w: World, labels: seq<Label>)
    requires Start(w) && Guarded(labels) && Exec(w, labels).Some?
    ensures Tidy(Exec(w, labels).value)
  {
    if labels != [] {
      var before, l := labels[..|labels| - 1], labels[|labels| - 1];
      assert l in labels;
      AlwaysTidy(w, before);
      if l.Write? {
        WriteKeepsTidy(Exec(w, before).value, l.id, l.claim, l.snapshot, l.name);
      }
    }
  }

  // ---- One run per strategy ----

  ghost predicate OneEach(w: World) {
    forall a <- w.runs, b <- w.runs :: w.runs[a].owner == w.runs[b].owner ==> a == b
  }

  /** A worker that found no run, and has a claim to write. */
  predicate Creates(p: Phase, uid: string) {
    p.strategy == uid && p.Matched? && p.found.None? && p.claims != {}
  }

  /** A worker holds the mutex of its strategy, and if it is to create a run it is still right that there is none. */
  ghost predicate WorkerGood(w: World, id: nat, p: Phase) {
    && p.strategy in w.strategies && MutexOf(w, p.strategy) in w.locks && w.locks[MutexOf(w, p.strategy)] == id
    && (Creates(p, p.strategy) ==> NoRunOf(w, p.strategy))
    && (p.Matched? && p.found.Some? ==> p.found.value.owner == p.strategy)
  }

  ghost predicate Good(w: World) {
    NamesKept(w) && OneEach(w) && forall id <- w.workers :: WorkerGood(w, id, w.workers[id])
  }

  lemma WriteKeepsGood(w: World, id: nat, claim: string, snapshot: string, name: string)
    requires Good(w) && Enabled(w, Write(id, claim, snapshot, name))
    ensures Good(Next(w, Write(id, claim, snapshot, name)))
  {
    var w', uid := Next(w, Write(id, claim, snapshot, name)), w.workers[id].strategy;
    assert WorkerGood(w, id, w.workers[id]);
    assert w'.runs[name].owner == uid && forall n <- w'.runs :: n != name ==> n in w.runs && w'.runs[n] == w.runs[n];
    WriteKeepsWorkers(w, w', id, name);
  }

  lemma WriteKeepsWorkers(w: World, w': World, id: nat, name: string)
    requires (forall i <- w.workers :: WorkerGood(w, i, w.workers[i])) && id in w.workers
    requires w'.strategies == w.strategies && w'.locks == w.locks
    requires w'.workers == w.workers[id := Holding(w.workers[id].strategy)]
    requires name in w'.runs && w'.runs[name].owner == w.workers[id].strategy
    requires forall n <- w'.runs :: n != name ==> n in w.runs && w'.runs[n] == w.runs[n]
    ensures forall i <- w'.workers :: WorkerGood(w', i, w'.workers[i])
  {
    assert WorkerGood(w, id, w.workers[id]);
    forall i | i in w'.workers ensures WorkerGood(w', i, w'.workers[i]) {
      assert WorkerGood(w, i, w.workers[i]);
    }
  }

  lemma StepKeepsGood(w: World, l: Label)
    requires Good(w) && Enabled(w, l) && !l.UnguardedCreate?
    ensures Good(Next(w, l))
  {
    if l.Write? {
      WriteKeepsGood(w, l.id, l.claim, l.snapshot, l.name);
    }
  }

  lemma {:induction false} AlwaysGood(w: World, labels: seq<Label>)
    requires Good(w) && Guarded(labels) && Exec(w, labels).Some?
    ensures Good(Exec(w, labels).value)
  {
    if labels != [] {
      var before, l := labels[..|labels| - 1], labels[|labels| - 1];
      assert l in labels;
      AlwaysGood(w, before);
      StepKeepsGood(Exec(w, before).value, l);
    }
  }

  /** At most one run per strategy, for any number of workers in any interleaving, as long as the revert controller does
      not create one concurrently; and every claim in a run maps to the snapshot last written for it. */
  lemma OneRunPerStrategy(w: World, labels: seq<Label>, a: string, b: string)
    requires Start(w) && Guarded(labels) && Exec(w, labels).Some?
    requires a in Exec(w, labels).value.runs && b in Exec(w, labels).value.runs
    ensures var m := Exec(w, labels).value;
      && (m.runs[a].owner == m.runs[b].owner ==> a == b)
      && (forall c <- m.runs[a].claimsToSnapshots ::
            m.runs[a].claimsToSnapshots[c] == if c in Written(m, a) then Written(m, a)[c] else "")
  {
    AlwaysGood(w, labels);
    AlwaysTidy(w, labels);
  }

  // ---- The mutexes ----

  /** Different strategies have different mutexes: no namespace has a slash in it. */
  lemma MutexesDiffer(a: Strategy, b: Strategy)
    requires '/' !in a.namespace && '/' !in b.namespace
    ensures MutexId(a) == MutexId(b) <==> a.namespace == b.namespace && a.name == b.name
  {
    var x, y, n, m := MutexId(a), MutexId(b), |a.namespace|, |b.namespace|;
    assert x[n] == '/' && forall i | 0 <= i < n :: x[i] == a.namespace[i] && a.namespace[i] in a.namespace;
    assert y[m] == '/' && forall i | 0 <= i < m :: y[i] == b.namespace[i] && b.namespace[i] in b.namespace;
    assert x[..n] == a.namespace && x[n + 1..] == a.name && y[..m] == b.namespace && y[m + 1..] == b.name;
  }

  /** The worker to which the mutex was given is still at work, on a strategy of this mutex. */
  ghost predicate Held(w: World, mutex: string) {
    mutex in w.locks ==> w.locks[mutex] in w.workers && MutexOf(w, w.workers[w.locks[mutex]].strategy) == mutex
  }

  lemma StepKeepsHeld(w: World, l: Label)
    requires (forall m: string :: Held(w, m)) && Enabled(w, l)
    ensures forall m: string :: Held(Next(w, l), m)
  {
    forall m: string ensures Held(Next(w, l), m) {
      assert Held(w, m);
    }
  }

  /** A mutex is given back: in every run it is taken only while the worker that took it is at work on a strategy of
      this mutex, so a strategy on which no worker is at work can always be locked. */
  lemma {:induction false} MutexIsGivenBack(w: World, labels: seq<Label>, mutex: string)
    requires Start(w) && Exec(w, labels).Some?
    ensures Held(Exec(w, labels).value, mutex)
  {
    if labels != [] {
      var before := labels[..|labels| - 1];
      forall m: string ensures Held(Exec(w, before).value, m) {
        MutexIsGivenBack(w, before, m);
      }
      StepKeepsHeld(Exec(w, before).value, labels[|labels| - 1]);
    }
  }

  // ---- A creation without the mutex ----

  /** However the workers go on, there is at most one run per strategy. */
  ghost predicate StaysOneEach(w: World) {
    forall rest :: Guarded(rest) && Exec(w, rest).Some? ==> OneEach(Exec(w, rest).value)
  }

  /** runValidation takes no mutex. After any run so far, its creation keeps one run per strategy, however the workers
      go on, exactly if at that moment the strategy has no run and no worker is between finding none and creating
      one. */
  lemma UnguardedCreateIsSafeIff(w: World, labels: seq<Label>, run: Run)
    requires Start(w) && Guarded(labels) && Exec(w, labels).Some?
    requires Enabled(Exec(w, labels).value, UnguardedCreate(run))
    ensures var m := Exec(w, labels).value;
      StaysOneEach(Next(m, UnguardedCreate(run))) <==>
        NoRunOf(m, run.owner) && forall id <- m.workers :: !Creates(m.workers[id], run.owner)
  {
    AlwaysGood(w, labels);
    var m := Exec(w, labels).value;
    if !NoRunOf(m, run.owner) {
      SecondRun(m, run);
    } else if id :| id in m.workers && Creates(m.workers[id], run.owner) {
      CreatorGoesOn(m, id, run);
    } else {
      var m' := Next(m, UnguardedCreate(run));
      assert Good(m');
      forall rest | Guarded(rest) && Exec(m', rest).Some? ensures OneEach(Exec(m', rest).value) {
        AlwaysGood(m', rest);
      }
    }
  }

  lemma SecondRun(m: World, run: Run)
    requires Good(m) && run.name !in m.names && !NoRunOf(m, run.owner)
    ensures !StaysOneEach(Next(m, UnguardedCreate(run)))
  {
    var m' := Next(m, UnguardedCreate(run));
    var n :| n in m.runs && m.runs[n].owner == run.owner;
    assert n in m'.runs && run.name in m'.runs && n != run.name;
    assert Exec(m', []) == Some(m') && !OneEach(m');
  }

  lemma CreatorGoesOn(m: World, id: nat, run: Run)
    requires Good(m) && run.name !in m.names && id in m.workers && Creates(m.workers[id], run.owner)
    ensures !StaysOneEach(Next(m, UnguardedCreate(run)))
  {
    var m' := Next(m, UnguardedCreate(run));
    var claim :| claim in m.workers[id].claims;
    var name := FreshName(m'.names);
    var l := Write(id, claim, "", name);
    assert [l][..0] == [];
    assert Exec(m', [l][..0]) == Some(m') && Exec(m', [l]) == Some(Next(m', l));
    var last := Next(m', l);
    assert last.runs[name].owner == last.runs[run.name].owner && name != run.name && !OneEach(last);
  }

  /** A run in which that goes wrong: the creation falls between a worker's lookup and its creation. */
  lemma RevertCanAddSecondRun() returns (w: World, labels: seq<Label>)
    ensures Start(w) && Exec(w, labels).Some?
    ensures var m := Exec(w, labels).value;
      "s-1" in m.runs && "s-2" in m.runs && m.runs["s-1"].owner == m.runs["s-2"].owner == "u"
  {
    var s := Strategy("u", "ns", "s", None, Kustomization("", map[], map[]), None, None, None, true);
    w := World(map["u" := s], map[], {}, map[], map[], map[]);
    var other := Run("ns", "s-2", "u", map[], false, [], [], NOTHING_DONE);
    var l1, l2, l3, l4 := Lock(0, "u"), Match(0, None, {"c"}), UnguardedCreate(other), Write(0, "c", "snap", "s-1");
    labels := [l1, l2, l3, l4];
    assert labels[..3] == [l1, l2, l3] && [l1, l2, l3][..2] == [l1, l2] && [l1, l2][..1] == [l1] && [l1][..0] == [];
    assert Exec(w, [l1][..0]) == Some(w);
    assert Exec(w, [l1]) == Some(Next(w, l1));
    assert Exec(w, [l1, l2]) == Some(Next(Next(w, l1), l2));
    assert Exec(w, [l1, l2, l3]) == Some(Next(Next(Next(w, l1), l2), l3));
  }
}
