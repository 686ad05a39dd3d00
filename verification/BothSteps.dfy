/** Pieces of runs of both controllers, in which the run of one revert is the only one there is: calls of the revert
    worker, and the validation of the run from its creation to its end. */
module BothSteps {
  import opened Wrappers
  import opened Types
  import opened RevertCluster
  import opened RevertPlan
  import opened RevertMachine
  import opened RevertDowntime
  import opened RevertClaims
  import opened RevertAgreement
  import opened RevertGate
  import opened RevertTogether
  import RevertSteps
  import Kustomize
  import V = RunMachine
  import VP = RunPlan
  import VW = RunWitness

  // ---- Pieces of runs ----

  /** Steps that leave the snapshots and the entries of this run alone. */
  predicate Plain(l: BothLabel, name: string) {
    LeavesAlone(l, name) && (l.Reverting? && l.l.Outside? ==> !l.l.e.SnapshotsChange?)
  }

  /** A run of such steps, after each of which no run but this one is stored. */
  ghost predicate Quiet(b: Both, labels: seq<BothLabel>, name: string) {
    labels == [] ||
    (Quiet(b, labels[..|labels| - 1], name) && Plain(labels[|labels| - 1], name) &&
     (ExecBoth(b, labels).Some? ==> ExecBoth(b, labels).value.reverts.c.runs.Keys <= {name}))
  }

  ghost predicate Passes(b: Both, m: Both, name: string) {
    exists labels :: Quiet(b, labels, name) && ExecBoth(b, labels) == Some(m)
  }

  lemma PassesSelf(b: Both, name: string)
    ensures Passes(b, b, name)
  {
    assert Quiet(b, [], name) && ExecBoth(b, []) == Some(b);
  }

  lemma PassesNext(b: Both, m: Both, l: BothLabel, n: Both, name: string)
    requires Passes(b, m, name) && StepBoth(m, l) == Some(n) && Plain(l, name) && n.reverts.c.runs.Keys <= {name}
    ensures Passes(b, n, name)
  {
    var labels :| Quiet(b, labels, name) && ExecBoth(b, labels) == Some(m);
    assert (labels + [l])[..|labels|] == labels;
    assert ExecBoth(b, labels + [l]) == Some(n) && Quiet(b, labels + [l], name);
  }

  lemma {:induction false} QuietLeads(b: Both, labels: seq<BothLabel>, m: Both, name: string, to: int)
    requires Quiet(b, labels, name) && ExecBoth(b, labels) == Some(m)
    ensures Leads(b, labels, m, to) && forall l <- labels :: LeavesAlone(l, name)
    ensures forall strategy :: OnlyRunAlong(b, labels, strategy, name)
    decreases |labels|
  {
    if labels != [] {
      var before, l := labels[..|labels| - 1], labels[|labels| - 1];
      QuietLeads(b, before, ExecBoth(b, before).value, name, to);
      assert forall x <- labels :: x in before || x == l;
    }
  }

  lemma {:induction false} QuietConcat(b: Both, a: seq<BothLabel>, m: Both, more: seq<BothLabel>, name: string)
    requires Quiet(b, a, name) && ExecBoth(b, a) == Some(m) && Quiet(m, more, name)
    ensures Quiet(b, a + more, name) && ExecBoth(b, a + more) == ExecBoth(m, more)
    decreases |more|
  {
    if more == [] {
      assert a + more == a;
    } else {
      var most, last := more[..|more| - 1], more[|more| - 1];
      assert (a + more)[..|a + more| - 1] == a + most && (a + more)[|a + more| - 1] == last;
      QuietConcat(b, a, m, most, name);
    }
  }

  lemma {:induction false} ExecBothConcat(b: Both, a: seq<BothLabel>, m: Both, more: seq<BothLabel>)
    requires ExecBoth(b, a) == Some(m)
    ensures ExecBoth(b, a + more) == ExecBoth(m, more)
    decreases |more|
  {
    if more == [] {
      assert a + more == a;
    } else {
      var most := more[..|more| - 1];
      assert (a + more)[..|a + more| - 1] == a + most && (a + more)[|a + more| - 1] == more[|more| - 1];
      ExecBothConcat(b, a, m, most);
    }
  }

  lemma PassesJoin(b: Both, m: Both, n: Both, name: string)
    requires Passes(b, m, name) && Passes(m, n, name)
    ensures Passes(b, n, name)
  {
    var a :| Quiet(b, a, name) && ExecBoth(b, a) == Some(m);
    var more :| Quiet(m, more, name) && ExecBoth(m, more) == Some(n);
    QuietConcat(b, a, m, more, name);
  }

  // ---- The revert worker ----

  /** The next calls of the worker: the server takes them, and none writes a run. */
  ghost predicate Due(w: World, list: seq<Op>) {
    && RevertSteps.Upcoming(w.worker, list) && RevertSteps.Issue(w.c, list).Some?
    && forall i | 0 <= i < |list| :: Written(list[i]).None?
  }

  /** The worker has issued them. */
  ghost predicate Issued(w: World, list: seq<Op>, m: World) {
    && w.worker.Busy? && m.worker == Busy(w.worker.r, w.worker.ops, w.worker.at + |list|)
    && RevertSteps.Issue(w.c, list) == Some(m.c) && m.c.runs == w.c.runs
  }

  lemma DueMost(w: World, list: seq<Op>)
    requires Due(w, list) && list != []
    ensures Due(w, list[..|list| - 1])
  {
  }

  lemma DueNext(w: World, list: seq<Op>, mid: World)
    requires Due(w, list) && list != [] && Issued(w, list[..|list| - 1], mid)
    ensures mid.worker.at < |mid.worker.ops| && mid.worker.ops[mid.worker.at] == list[|list| - 1]
    ensures Accepts(mid.c, list[|list| - 1]) && Written(list[|list| - 1]).None? && Issued(w, list, AfterCall(mid))
  {
    var n := |list| - 1;
    assert w.worker.ops[w.worker.at + n] == list[n];
  }

  /** The worker goes on with calls that write no run. */
  lemma {:induction false} Calls(b: Both, list: seq<Op>, name: string) returns (m: Both)
    requires Due(b.reverts, list) && b.reverts.c.runs.Keys <= {name}
    ensures Passes(b, m, name) && m.runs == b.runs && Issued(b.reverts, list, m.reverts)
    decreases |list|
  {
    if list == [] {
      m := b;
      PassesSelf(b, name);
    } else {
      DueMost(b.reverts, list);
      var mid := Calls(b, list[..|list| - 1], name);
      DueNext(b.reverts, list, mid.reverts);
      m := OneCall(mid, name);
      PassesJoin(b, mid, m, name);
    }
  }

  lemma OneCall(b: Both, name: string) returns (m: Both)
    requires b.reverts.worker.Busy? && b.reverts.worker.at < |b.reverts.worker.ops| && b.reverts.c.runs.Keys <= {name}
    requires var op := b.reverts.worker.ops[b.reverts.worker.at]; Accepts(b.reverts.c, op) && Written(op).None?
    ensures Passes(b, m, name) && m == Both(AfterCall(b.reverts), b.runs) && m.reverts.c.runs == b.reverts.c.runs
  {
    m := Both(AfterCall(b.reverts), b.runs);
    PassesSelf(b, name);
    assert StepBoth(b, Reverting(Call)) == Some(m);
    PassesNext(b, b, Reverting(Call), m, name);
  }

  lemma Happens(b: Both, e: Event, name: string) returns (m: Both)
    requires Possible(b.reverts.c, e) && !e.RunsChange? && !e.SnapshotsChange? && b.reverts.c.runs.Keys <= {name}
    ensures Passes(b, m, name) && m == Both(b.reverts.(c := Change(b.reverts.c, e)), b.runs)
  {
    m := Both(b.reverts.(c := Change(b.reverts.c, e)), b.runs);
    PassesSelf(b, name);
    assert StepBoth(b, Reverting(Outside(e))) == Some(m);
    PassesNext(b, b, Reverting(Outside(e)), m, name);
  }

  /** The worker reads the object and gets to work. */
  lemma GetsToWork(b: Both, obs: Obs, name: string) returns (m: Both)
    requires b.reverts.worker == Waiting && b.reverts.c.runs.Keys <= {name}
    ensures var r := b.reverts.c.stored;
      Passes(b, m, name) && m == Both(World(b.reverts.c, Busy(r, AllOps(r, obs), 0), {}), b.runs)
  {
    var r := b.reverts.c.stored;
    var loaded := Both(b.reverts.(worker := Loaded(r)), b.runs);
    PassesSelf(b, name);
    assert StepBoth(b, Reverting(Load)) == Some(loaded);
    PassesNext(b, b, Reverting(Load), loaded, name);
    m := Both(World(b.reverts.c, Busy(r, AllOps(r, obs), 0), {}), b.runs);
    assert StepBoth(loaded, Reverting(Begin(obs))) == Some(m);
    PassesNext(b, loaded, Reverting(Begin(obs)), m, name);
  }

  // ---- A validation worker ----

  lemma ValidationStep(b: Both, m: Both, v: V.Label, name: string) returns (n: Both)
    requires Passes(b, m, name) && V.Enabled(m.runs, v) && !v.SnapshotUpdates?
    requires V.Next(m.runs, v).s.runs.Keys <= {name}
    ensures var runs := V.Next(m.runs, v);
      Passes(b, n, name) && n == Both(m.reverts.(c := m.reverts.c.(runs := runs.s.runs)), runs)
  {
    var runs := V.Next(m.runs, v);
    n := Both(m.reverts.(c := m.reverts.c.(runs := runs.s.runs)), runs);
    assert StepBoth(m, Validating(v)) == Some(n);
    PassesNext(b, m, Validating(v), n, name);
  }

  /** The two controllers see the same runs. */
  predicate InStep(b: Both) { b.reverts.c.runs == b.runs.s.runs }

  /** A step that writes no run is none for the revert controller. */
  lemma ValidatesAside(b: Both, v: V.Label, name: string) returns (m: Both)
    requires V.Enabled(b.runs, v) && !v.SnapshotUpdates? && b.reverts.c.runs.Keys <= {name}
    requires V.Next(b.runs, v).s.runs == b.reverts.c.runs
    ensures Passes(b, m, name) && m == Both(b.reverts, V.Next(b.runs, v))
  {
    m := Both(b.reverts, V.Next(b.runs, v));
    PassesSelf(b, name);
    assert b.reverts.c.(runs := b.reverts.c.runs) == b.reverts.c;
    assert StepBoth(b, Validating(v)) == Some(m);
    PassesNext(b, b, Validating(v), m, name);
  }

  lemma DoingNext(s: VP.Site, copy: Run, acts: seq<VP.Act>, at: nat)
    requires at < |acts| && VP.Accepts(s, acts[at]) && !acts[at].UpdateRun? && !acts[at].DeleteRun?
    ensures V.Enabled(VW.Doing(s, copy, acts, at), V.Proceed(0))
    ensures V.Next(VW.Doing(s, copy, acts, at), V.Proceed(0)) == VW.Doing(VP.Effect(s, acts[at]), copy, acts, at + 1)
    ensures VP.Effect(s, acts[at]).runs == s.runs
  {
  }

  lemma ProceedsOne(b: Both, s: VP.Site, copy: Run, acts: seq<VP.Act>, at: nat, name: string) returns (m: Both)
    requires b.reverts.c.runs == s.runs && s.runs.Keys <= {name} && b.runs == VW.Doing(s, copy, acts, at)
    requires at < |acts| && VP.Accepts(s, acts[at]) && !acts[at].UpdateRun? && !acts[at].DeleteRun?
    ensures Passes(b, m, name) && m == Both(b.reverts, VW.Doing(VP.Effect(s, acts[at]), copy, acts, at + 1))
    ensures m.runs.s.runs == s.runs
  {
    DoingNext(s, copy, acts, at);
    m := ValidatesAside(b, V.Proceed(0), name);
  }

  /** Calls of a validation worker that write no run. */
  lemma {:induction false} Proceeds(b: Both, s: VP.Site, copy: Run, acts: seq<VP.Act>, n: nat, name: string)
      returns (m: Both)
    requires InStep(b) && b.runs == VW.Doing(s, copy, acts, 0) && s.runs.Keys <= {name}
    requires n <= |acts| && VW.Issue(s, acts[..n]).Some?
    requires forall i | 0 <= i < n :: !acts[i].UpdateRun? && !acts[i].DeleteRun?
    ensures Passes(b, m, name) && m == Both(b.reverts, VW.Doing(VW.Issue(s, acts[..n]).value, copy, acts, n))
    ensures VW.Issue(s, acts[..n]).value.runs == s.runs
    decreases n
  {
    if n == 0 {
      m := b;
      PassesSelf(b, name);
    } else {
      assert acts[..n][..n - 1] == acts[..n - 1];
      var mid := Proceeds(b, s, copy, acts, n - 1, name);
      m := ProceedsOne(mid, mid.runs.s, copy, acts, n - 1, name);
      PassesJoin(b, mid, m, name);
    }
  }

  /** A whole processing of the run. */
  lemma Processes(b: Both, run: Run, obs: VP.Obs, acts: seq<VP.Act>, next: Run, s: VP.Site) returns (m: Both)
    requires InStep(b) && b.runs.tasks == map[] && run in b.runs.s.past && b.runs.s.runs == map[run.name := run]
    requires next.name == run.name && VP.PlanFor(run, obs) == VP.Plan(acts, VP.Store(next))
    requires VW.Issue(b.runs.s, acts) == Some(s) && s.runs == b.runs.s.runs
    requires forall act <- acts :: !act.UpdateRun? && !act.DeleteRun?
    ensures Passes(b, m, run.name) && InStep(m) && m.runs == V.World(VP.StoreRun(s, next), map[])
    ensures m.reverts == b.reverts.(c := b.reverts.c.(runs := m.runs.s.runs))
  {
    var all := VP.AllActs(run, obs);
    PassesSelf(b, run.name);
    var begun := ValidationStep(b, b, V.Begin(0, run, obs), run.name);
    assert all[..|acts|] == acts && all[|acts|] == VP.UpdateRun(run, next);
    var done := Proceeds(begun, b.runs.s, run, all, |acts|, run.name);
    PassesJoin(b, begun, done, run.name);
    var stored := ValidationStep(b, done, V.Proceed(0), run.name);
    m := ValidationStep(b, stored, V.Quit(0), run.name);
    assert m.runs.tasks == map[];
  }

  // ---- The validation of one run ----

  const STRATEGY :=
      Strategy("s", "ns", "s", None, Kustomization.Kustomization("", map[], map[]), None, None, None, true)
  const KEY := NamespacedName("ns", "data-app-0")
  const ENTRIES := map["data-app-0" := "snap-0"]
  const LIVE := Claim("ns", "data-app-0", map[], map[], ClaimSpec(None, [], "10Gi", ""), true, 0)
  const COPY := Kustomize.KustClaim(STRATEGY, "snap-0", LIVE)
  const CLAIMS := map[KEY := LIVE, COPY.Key() := COPY.(bound := true)]
  const NO_OBS := VP.Obs(None, [], [], map[], [], [], [], false, [])
  const FOUND := NO_OBS.(strategy := Some(STRATEGY))
  const FIND := VP.FindStrategy("s", Some(STRATEGY))
  const VISITED := [("data-app-0", LIVE)]

  /** The run with its first `n` stamps. */
  function Version(name: string, n: nat, claims: seq<Claim>): Run {
    Run("ns", name, "s", ENTRIES, false, claims, [],
      Status(n > 0, n > 1, n > 2, n > 3, n > 4, n > 5, n > 6, n > 7, n > 8, n > 9))
  }

  lemma NextVersion(name: string, n: nat, claims: seq<Claim>)
    requires n < 10
    ensures VP.StageOf(Version(name, n, claims).status) == n && VP.NoGaps(Version(name, n, claims))
    ensures VP.Stamped(Version(name, n, claims)) == Version(name, n + 1, claims)
  {
  }

  /** This version is the only run there is, and no validation worker is busy. */
  predicate Alone(b: Both, run: Run) {
    && InStep(b) && b.runs.tasks == map[] && run in b.runs.s.past && b.runs.s.runs == map[run.name := run]
    && b.runs.s.strategies == map["s" := STRATEGY] && b.runs.s.claims == CLAIMS
  }

  /** From `b` on, only the runs have changed for the revert controller. */
  predicate OnlyRuns(b: Both, m: Both) { m.reverts == b.reverts.(c := b.reverts.c.(runs := m.reverts.c.runs)) }

  lemma Stage(b: Both, run: Run, obs: VP.Obs, acts: seq<VP.Act>, next: Run, s: VP.Site) returns (m: Both)
    requires Alone(b, run) && next.name == run.name && VP.PlanFor(run, obs) == VP.Plan(acts, VP.Store(next))
    requires VW.Issue(b.runs.s, acts) == Some(s) && s == b.runs.s.(builds := s.builds)
    requires forall act <- acts :: !act.UpdateRun? && !act.DeleteRun?
    ensures Passes(b, m, run.name) && Alone(m, next) && OnlyRuns(b, m)
  {
    m := Processes(b, run, obs, acts, next, s);
  }

  lemma Stamps(b: Both, name: string, n: nat, claims: seq<Claim>) returns (m: Both)
    requires n in {0, 2, 4, 6} && Alone(b, Version(name, n, claims))
    ensures Passes(b, m, name) && Alone(m, Version(name, n + 1, claims)) && OnlyRuns(b, m)
  {
    NextVersion(name, n, claims);
    m := Stage(b, Version(name, n, claims), NO_OBS, [], Version(name, n + 1, claims), b.runs.s);
  }

  lemma {:induction false} OneTaken(s: VP.Site, act: VP.Act)
    requires VP.Accepts(s, act)
    ensures VW.Issue(s, [act]) == Some(VP.Effect(s, act))
  {
    assert VW.Issue(s, []) == Some(s);
    VW.IssueNext(s, [], act);
    assert [] + [act] == [act];
  }

  lemma {:induction false} TwoTaken(s: VP.Site, a: VP.Act, b: VP.Act)
    requires VP.Accepts(s, a) && VP.Accepts(VP.Effect(s, a), b)
    ensures VW.Issue(s, [a, b]) == Some(VP.Effect(VP.Effect(s, a), b))
  {
    OneTaken(s, a);
    VW.IssueNext(s, [a], b);
    assert [a] + [b] == [a, b];
  }

  lemma {:induction false} ThreeTaken(s: VP.Site, a: VP.Act, b: VP.Act, c: VP.Act)
    requires VP.Accepts(s, a) && VP.Accepts(VP.Effect(s, a), b) && VP.Accepts(VP.Effect(VP.Effect(s, a), b), c)
    ensures VW.Issue(s, [a, b, c]) == Some(VP.Effect(VP.Effect(VP.Effect(s, a), b), c))
  {
    TwoTaken(s, a, b);
    VW.IssueNext(s, [a, b], c);
    assert [a, b] + [c] == [a, b, c];
  }

  predicate Site(s: VP.Site) { s.strategies == map["s" := STRATEGY] && s.claims == CLAIMS }

  lemma CopyIsAnother()
    ensures COPY.Key() != KEY
  {
    assert COPY.name == "" && |KEY.name| == 10;
  }

  const KUST := FOUND.(visited := VISITED, bySnapshot := map["snap-0" := LIVE], order := ["snap-0"], made := [COPY])

  lemma KustIsAnswered(name: string)
    ensures VP.KustAnswers(Version(name, 1, []), KUST)
  {
    assert VP.Visits(VISITED) == ["data-app-0"];
    assert VISITED[..0] == [] && VP.Live(VISITED[..0]) == map[];
    assert VP.Live(VISITED) == map["data-app-0" := LIVE];
    assert Kustomize.Enumerates(["data-app-0"], ENTRIES.Keys);
    KustIsOne();
  }

  lemma KustIsOne()
    ensures Kustomize.Kustomized(STRATEGY, KUST.bySnapshot, ["snap-0"], [COPY])
    ensures Kustomize.BySnapshot(ENTRIES, map["data-app-0" := LIVE], KUST.bySnapshot)
  {
    assert KUST.bySnapshot.Keys == {"snap-0"};
    assert Kustomize.Enumerates(["snap-0"], {"snap-0"});
    forall x | x in KUST.bySnapshot
      ensures exists c :: c in ENTRIES && c in map["data-app-0" := LIVE] && ENTRIES[c] == x
                          && KUST.bySnapshot[x] == map["data-app-0" := LIVE][c]
    {
      assert ENTRIES["data-app-0"] == x;
    }
  }

  lemma KustIsPlanned(name: string)
    ensures VP.PlanFor(Version(name, 1, []), KUST) ==
            VP.Plan([FIND, VP.Build(name, []), VP.GetPVC(KEY, LIVE)], VP.Store(Version(name, 2, [COPY])))
  {
    KustIsAnswered(name);
    NextVersion(name, 1, []);
    NextVersion(name, 1, [COPY]);
    assert VP.ReadActs("ns", VISITED) == [VP.GetPVC(KEY, LIVE)];
    assert [FIND, VP.Build(name, [])] + VP.ReadActs("ns", VISITED) == [FIND, VP.Build(name, []), VP.GetPVC(KEY, LIVE)];
    assert Version(name, 1, []).(kustomized := [] + [], claims := [COPY]) == Version(name, 1, [COPY]);
  }

  lemma {:induction false} KustTaken(s: VP.Site, name: string)
    requires Site(s)
    ensures VW.Issue(s, [FIND, VP.Build(name, []), VP.GetPVC(KEY, LIVE)]) == Some(s.(builds := s.builds + {(name, [])}))
  {
    CopyIsAnother();
    ThreeTaken(s, FIND, VP.Build(name, []), VP.GetPVC(KEY, LIVE));
  }

  lemma Kusts(b: Both, name: string) returns (m: Both)
    requires Alone(b, Version(name, 1, []))
    ensures Passes(b, m, name) && Alone(m, Version(name, 2, [COPY])) && OnlyRuns(b, m)
  {
    KustIsPlanned(name);
    KustTaken(b.runs.s, name);
    m := Stage(b, Version(name, 1, []), KUST, [FIND, VP.Build(name, []), VP.GetPVC(KEY, LIVE)],
      Version(name, 2, [COPY]), b.runs.s.(builds := b.runs.s.builds + {(name, [])}));
  }

  const INIT_ACTS := [FIND, VP.EnsureClaim(COPY), VP.AwaitClaims([COPY.Key()])]

  lemma InitIsPlanned(name: string)
    ensures VP.PlanFor(Version(name, 3, [COPY]), FOUND) == VP.Plan(INIT_ACTS, VP.Store(Version(name, 4, [COPY])))
  {
    NextVersion(name, 3, [COPY]);
    assert VP.KeysOf(VP.PvcToPtr([COPY])) == [COPY.Key()];
    assert VP.EnsureActs([COPY]) == [VP.EnsureClaim(COPY)];
  }

  lemma {:induction false} InitTaken(s: VP.Site)
    requires Site(s)
    ensures VW.Issue(s, INIT_ACTS) == Some(s)
  {
    CopyIsAnother();
    assert s.claims[COPY.Key()].bound;
    ThreeTaken(s, FIND, VP.EnsureClaim(COPY), VP.AwaitClaims([COPY.Key()]));
  }

  lemma Inits(b: Both, name: string) returns (m: Both)
    requires Alone(b, Version(name, 3, [COPY]))
    ensures Passes(b, m, name) && Alone(m, Version(name, 4, [COPY])) && OnlyRuns(b, m)
  {
    InitIsPlanned(name);
    InitTaken(b.runs.s);
    m := Stage(b, Version(name, 3, [COPY]), FOUND, INIT_ACTS, Version(name, 4, [COPY]), b.runs.s);
  }

  lemma PreValidates(b: Both, name: string) returns (m: Both)
    requires Alone(b, Version(name, 5, [COPY]))
    ensures Passes(b, m, name) && Alone(m, Version(name, 6, [COPY])) && OnlyRuns(b, m)
  {
    NextVersion(name, 5, [COPY]);
    OneTaken(b.runs.s, FIND);
    assert VP.PlanFor(Version(name, 5, [COPY]), FOUND) == VP.Plan([FIND], VP.Store(Version(name, 6, [COPY])));
    m := Stage(b, Version(name, 5, [COPY]), FOUND, [FIND], Version(name, 6, [COPY]), b.runs.s);
  }

  const LABEL_ACTS := [FIND, VP.GetPVC(KEY, LIVE), VP.LabelSnapshot("snap-0")]

  lemma LabelIsPlanned(name: string)
    ensures VP.PlanFor(Version(name, 7, [COPY]), FOUND.(visited := VISITED)) ==
            VP.Plan(LABEL_ACTS, VP.Store(Version(name, 8, [COPY])))
  {
    var run := Version(name, 7, [COPY]);
    NextVersion(name, 7, [COPY]);
    assert VP.Visits(VISITED) == ["data-app-0"] && Kustomize.Enumerates(["data-app-0"], ENTRIES.Keys);
    assert VISITED[..0] == [] && VP.LabelActs(run, VISITED[..0]) == [];
    assert VP.LabelActs(run, VISITED) == [] + [VP.GetPVC(KEY, LIVE), VP.LabelSnapshot("snap-0")];
    assert [FIND] + VP.LabelActs(run, VISITED) == LABEL_ACTS;
  }

  lemma {:induction false} LabelTaken(s: VP.Site)
    requires Site(s)
    ensures VW.Issue(s, LABEL_ACTS) == Some(s)
  {
    CopyIsAnother();
    ThreeTaken(s, FIND, VP.GetPVC(KEY, LIVE), VP.LabelSnapshot("snap-0"));
  }

  lemma Labels(b: Both, name: string) returns (m: Both)
    requires Alone(b, Version(name, 7, [COPY]))
    ensures Passes(b, m, name) && Alone(m, Version(name, 8, [COPY])) && OnlyRuns(b, m)
  {
    LabelIsPlanned(name);
    LabelTaken(b.runs.s);
    m := Stage(b, Version(name, 7, [COPY]), FOUND.(visited := VISITED), LABEL_ACTS, Version(name, 8, [COPY]), b.runs.s);
  }

  /** The validation controller takes the run from its creation to the end of its validation. */
  lemma IsValidated(b: Both, name: string) returns (m: Both)
    requires Alone(b, Version(name, 0, []))
    ensures Passes(b, m, name) && Alone(m, Version(name, 8, [COPY])) && OnlyRuns(b, m)
  {
    var half := IsInitialized(b, name);
    var m4 := Stamps(half, name, 4, [COPY]);
    var m5 := PreValidates(m4, name);
    PassesJoin(half, m4, m5, name);
    var m6 := Stamps(m5, name, 6, [COPY]);
    PassesJoin(half, m5, m6, name);
    m := Labels(m6, name);
    PassesJoin(half, m6, m, name);
    PassesJoin(b, half, m, name);
  }

  lemma IsInitialized(b: Both, name: string) returns (m: Both)
    requires Alone(b, Version(name, 0, []))
    ensures Passes(b, m, name) && Alone(m, Version(name, 4, [COPY])) && OnlyRuns(b, m)
  {
    var m0 := Stamps(b, name, 0, []);
    var m1 := Kusts(m0, name);
    PassesJoin(b, m0, m1, name);
    var m2 := Stamps(m1, name, 2, [COPY]);
    PassesJoin(b, m1, m2, name);
    m := Inits(m2, name);
    PassesJoin(b, m2, m, name);
  }
}
