/** One run of the validation controller, from the start: it stores InitFinished with a claim of the run unbound, and
    later labels a snapshot that arrived after the claims were made. */
module RunWitness {
  import opened Wrappers
  import opened Types
  import opened Kustomize
  import opened RunPlan
  import opened RunMachine
  import opened RunCompleteness
  import opened RunLabels

  // ---- Pieces of runs ----

  ghost predicate Leads(w: World, m: World) {
    exists labels :: Exec(w, labels) == Some(m)
  }

  lemma LeadsSelf(w: World)
    ensures Leads(w, w)
  {
    assert Exec(w, []) == Some(w);
  }

  lemma LeadsNext(w: World, m: World, l: Label)
    requires Leads(w, m) && Enabled(m, l)
    ensures Leads(w, Next(m, l))
  {
    var labels :| Exec(w, labels) == Some(m);
    ExecOneMore(w, labels, l);
    assert Exec(w, labels + [l]) == Some(Next(m, l));
  }

  /** The state after these calls, if the server takes them one after the other. */
  ghost function Issue(s: Site, acts: seq<Act>): Option<Site> {
    if acts == [] then Some(s)
    else
      var mid := Issue(s, acts[..|acts| - 1]);
      if mid.Some? && Accepts(mid.value, acts[|acts| - 1]) then Some(Effect(mid.value, acts[|acts| - 1])) else None
  }

  lemma IssueNext(s: Site, acts: seq<Act>, act: Act)
    requires Issue(s, acts).Some? && Accepts(Issue(s, acts).value, act)
    ensures Issue(s, acts + [act]) == Some(Effect(Issue(s, acts).value, act))
  {
    assert (acts + [act])[..|acts|] == acts;
  }

  /** Worker 0 is through with the first calls of its plan. */
  function Doing(s: Site, copy: Run, acts: seq<Act>, at: nat): World {
    World(s, map[0 := Task(copy, acts, at)])
  }

  lemma {:induction false} Proceeds(w: World, s: Site, copy: Run, acts: seq<Act>, n: nat)
    requires Leads(w, Doing(s, copy, acts, 0)) && n <= |acts| && Issue(s, acts[..n]).Some?
    ensures Leads(w, Doing(Issue(s, acts[..n]).value, copy, acts, n))
  {
    if n > 0 {
      assert acts[..n][..n - 1] == acts[..n - 1];
      Proceeds(w, s, copy, acts, n - 1);
      var mid := Doing(Issue(s, acts[..n - 1]).value, copy, acts, n - 1);
      LeadsNext(w, mid, Proceed(0));
      assert Next(mid, Proceed(0)) == Doing(Issue(s, acts[..n]).value, copy, acts, n);
    }
  }

  /** No worker is busy and this is the current version of the run. */
  predicate Resting(w: World, run: Run) {
    w.tasks == map[] && run in w.s.past && run.name in w.s.runs && w.s.runs[run.name] == run
  }

  /** A processing up to the call that stores its result. */
  lemma UpToStore(w0: World, w: World, run: Run, obs: Obs, acts: seq<Act>, next: Run, s: Site)
    requires Leads(w0, w) && Resting(w, run) && PlanFor(run, obs) == Plan(acts, Store(next))
    requires Issue(w.s, acts) == Some(s)
    ensures AllActs(run, obs) == acts + [UpdateRun(run, next)] && Leads(w0, Doing(s, run, AllActs(run, obs), |acts|))
  {
    var all := AllActs(run, obs);
    LeadsNext(w0, w, Begin(0, run, obs));
    assert Next(w, Begin(0, run, obs)) == Doing(w.s, run, all, 0);
    assert all[..|acts|] == acts;
    Proceeds(w0, w.s, run, all, |acts|);
  }

  /** A whole processing. */
  lemma Processes(w0: World, w: World, run: Run, obs: Obs, acts: seq<Act>, next: Run, s: Site) returns (m: World)
    requires Leads(w0, w) && Resting(w, run) && PlanFor(run, obs) == Plan(acts, Store(next))
    requires Issue(w.s, acts) == Some(s)
    requires run.name in s.runs && s.runs[run.name] == run && next.name == run.name
    ensures Leads(w0, m) && m == World(StoreRun(s, next), map[]) && Resting(m, next)
  {
    UpToStore(w0, w, run, obs, acts, next, s);
    var all := AllActs(run, obs);
    var about := Doing(s, run, all, |acts|);
    LeadsNext(w0, about, Proceed(0));
    var stored := Next(about, Proceed(0));
    LeadsNext(w0, stored, Quit(0));
    m := Next(stored, Quit(0));
    assert m.tasks == map[];
  }

  // ---- The cluster ----

  const APP := StatefulSetType("app", "data", None)
  const STRATEGY := Strategy("u", "ns", "s", Some(APP), Kustomization("v-", map[], map[]), None, None, None, true)
  const SPEC := ClaimSpec(None, [], "10Gi", "")
  const A := Claim("ns", "data-app-0", map[], map[], SPEC, true, 0)
  const B := Claim("ns", "data-app-1", map[], map[], SPEC, true, 1)
  const COPY_A := KustClaim(STRATEGY, "s0", A)
  const COPY_B := KustClaim(STRATEGY, "s1", B)

  /** The claims of the namespace; the copy of the second one is there and bound. */
  const CLAIMS := map[A.Key() := A, B.Key() := B, COPY_B.Key() := COPY_B.(bound := true)]
  const EMPTY_SITE := Site(map["u" := STRATEGY], map[], map[], CLAIMS, {}, {}, {})
  const BEGINNING := World(EMPTY_SITE, map[])

  const FIRST := map["data-app-0" := "s0", "data-app-1" := "s1"]
  const LATER := map["data-app-0" := "late", "data-app-1" := "s1"]
  const COPIES := [COPY_A, COPY_B]

  /** A version of the run with the first `n` stamps. */
  function Version(n: nat, entries: map<string, string>, claims: seq<Claim>): Run {
    Run("ns", "r", "u", entries, false, claims, [],
      Status(n > 0, n > 1, n > 2, n > 3, n > 4, n > 5, n > 6, n > 7, n > 8, n > 9))
  }

  lemma NextVersion(n: nat, entries: map<string, string>, claims: seq<Claim>)
    requires n < 10
    ensures StageOf(Version(n, entries, claims).status) == n
    ensures Stamped(Version(n, entries, claims)) == Version(n + 1, entries, claims)
  {
  }

  lemma Names()
    ensures COPY_A.Key() != COPY_B.Key() && COPY_A.Key() != A.Key() && COPY_A.Key() != B.Key()
  {
    assert A.name == "data" + "-" + "app" + "-" + "0" && B.name == "data" + "-" + "app" + "-" + "1";
    assert IsMember(APP, A.name, "0") && IsMember(APP, B.name, "1");
    KustNamesDistinct(APP, "v-", A.name, B.name, "0", "1");
    KustNameOf(APP, "v-", A.name, "0");
    assert |COPY_A.name| == 12;
  }

  /** The current version, no worker, the strategy, and these claims. */
  ghost predicate Standing(w: World, run: Run, claims: map<Key, Claim>) {
    Leads(BEGINNING, w) && Resting(w, run) && w.s.claims == claims && w.s.strategies == map["u" := STRATEGY]
  }

  lemma Creation() returns (w: World)
    ensures Standing(w, Version(0, FIRST, []), CLAIMS)
  {
    var run := Version(0, FIRST, []);
    LeadsSelf(BEGINNING);
    LeadsNext(BEGINNING, BEGINNING, RunCreated(run));
    w := World(StoreRun(EMPTY_SITE, run), map[]);
  }

  const NO_ANSWERS := Obs(None, [], [], map[], [], [], [], false, [])

  /** The stages that only set a stamp. */
  lemma Starts(w: World, n: nat, entries: map<string, string>, claims: seq<Claim>, live: map<Key, Claim>)
      returns (m: World)
    requires n in {0, 2, 4, 6} && Standing(w, Version(n, entries, claims), live) && NoGaps(Version(n, entries, claims))
    ensures Standing(m, Version(n + 1, entries, claims), live)
  {
    NextVersion(n, entries, claims);
    m := Processes(BEGINNING, w, Version(n, entries, claims), NO_ANSWERS, [], Version(n + 1, entries, claims), w.s);
  }

  const FIND := FindStrategy("u", Some(STRATEGY))

  lemma {:induction false} Finds(s: Site)
    requires s.strategies == map["u" := STRATEGY]
    ensures Issue(s, [FIND]) == Some(s)
  {
    assert Issue(s, []) == Some(s);
    IssueNext(s, [], FIND);
    assert [] + [FIND] == [FIND];
  }

  // ---- Kustomizing ----

  const VISITED := [("data-app-0", A), ("data-app-1", B)]
  const KUST := NO_ANSWERS.(strategy := Some(STRATEGY), visited := VISITED,
                            bySnapshot := map["s0" := A, "s1" := B], order := ["s0", "s1"], made := COPIES)
  const KUST_ACTS := [FIND, Build("r", []), GetPVC(A.Key(), A), GetPVC(B.Key(), B)]

  lemma Visiting()
    ensures Visits(VISITED) == ["data-app-0", "data-app-1"]
    ensures Live(VISITED) == map["data-app-0" := A, "data-app-1" := B]
  {
    assert VISITED[..1] == [("data-app-0", A)] && VISITED[..1][..0] == [];
    assert Live(VISITED[..1]) == map["data-app-0" := A];
  }

  lemma KustIsAnswered()
    ensures KustAnswers(Version(1, FIRST, []), KUST)
  {
    Visiting();
    KustByCopies();
    var entries := FIRST;
    assert Enumerates(Visits(VISITED), entries.Keys);
    KustBySnapshot();
  }

  lemma KustByCopies()
    ensures Kustomized(STRATEGY, KUST.bySnapshot, KUST.order, COPIES)
  {
    assert KUST.bySnapshot.Keys == {"s0", "s1"};
    assert Enumerates(["s0", "s1"], {"s0", "s1"});
  }

  lemma KustBySnapshot()
    ensures BySnapshot(FIRST, Live(VISITED), KUST.bySnapshot)
  {
    Visiting();
    forall s | s in KUST.bySnapshot
      ensures exists c :: c in FIRST && c in Live(VISITED) && FIRST[c] == s && KUST.bySnapshot[s] == Live(VISITED)[c]
    {
      var c := if s == "s0" then "data-app-0" else "data-app-1";
      assert c in FIRST && c in Live(VISITED) && FIRST[c] == s && KUST.bySnapshot[s] == Live(VISITED)[c];
    }
  }

  lemma {:induction false} KustTaken(s: Site)
    requires s.strategies == map["u" := STRATEGY] && s.claims == CLAIMS
    ensures Issue(s, KUST_ACTS) == Some(s.(builds := s.builds + {("r", [])}))
  {
    var built := s.(builds := s.builds + {("r", [])});
    Finds(s);
    IssueNext(s, [FIND], Build("r", []));
    IssueNext(s, [FIND] + [Build("r", [])], GetPVC(A.Key(), A));
    IssueNext(s, [FIND] + [Build("r", [])] + [GetPVC(A.Key(), A)], GetPVC(B.Key(), B));
    assert KUST_ACTS == [FIND] + [Build("r", [])] + [GetPVC(A.Key(), A)] + [GetPVC(B.Key(), B)];
  }

  lemma KustIsPlanned()
    ensures PlanFor(Version(1, FIRST, []), KUST) == Plan(KUST_ACTS, Store(Version(2, FIRST, COPIES)))
  {
    KustIsAnswered();
    NextVersion(1, FIRST, []);
    assert ReadActs("ns", VISITED) == [GetPVC(A.Key(), A), GetPVC(B.Key(), B)];
    assert [FIND, Build("r", [])] + ReadActs("ns", VISITED) == KUST_ACTS;
    assert Version(1, FIRST, []).(kustomized := [] + [], claims := COPIES) == Version(1, FIRST, COPIES);
    NextVersion(1, FIRST, COPIES);
  }

  lemma Kusts(w: World) returns (m: World)
    requires Standing(w, Version(1, FIRST, []), CLAIMS)
    ensures Standing(m, Version(2, FIRST, COPIES), CLAIMS)
  {
    var run := Version(1, FIRST, []);
    KustTaken(w.s);
    KustIsPlanned();
    m := Processes(BEGINNING, w, run, KUST, KUST_ACTS, Version(2, FIRST, COPIES),
      w.s.(builds := w.s.builds + {("r", [])}));
  }

  // ---- Making the claims ----

  const INIT := NO_ANSWERS.(strategy := Some(STRATEGY))
  const INIT_ACTS := [FIND, EnsureClaim(COPY_A), EnsureClaim(COPY_B), AwaitClaims([COPY_B.Key(), COPY_B.Key()])]
  const MORE := CLAIMS[COPY_A.Key() := COPY_A]

  lemma {:induction false} InitTaken(s: Site)
    requires s.strategies == map["u" := STRATEGY] && s.claims == CLAIMS
    ensures Issue(s, INIT_ACTS) == Some(s.(claims := MORE))
  {
    Names();
    var made := s.(claims := MORE);
    var wait := AwaitClaims([COPY_B.Key(), COPY_B.Key()]);
    Finds(s);
    IssueNext(s, [FIND], EnsureClaim(COPY_A));
    IssueNext(s, [FIND] + [EnsureClaim(COPY_A)], EnsureClaim(COPY_B));
    IssueNext(s, [FIND] + [EnsureClaim(COPY_A)] + [EnsureClaim(COPY_B)], wait);
    assert INIT_ACTS == [FIND] + [EnsureClaim(COPY_A)] + [EnsureClaim(COPY_B)] + [wait];
  }

  lemma InitIsPlanned()
    ensures PlanFor(Version(3, FIRST, COPIES), INIT) == Plan(INIT_ACTS, Store(Version(4, FIRST, COPIES)))
  {
    NextVersion(3, FIRST, COPIES);
    assert KeysOf(PvcToPtr(COPIES)) == [COPY_B.Key(), COPY_B.Key()];
    assert EnsureActs(COPIES) == [EnsureClaim(COPY_A), EnsureClaim(COPY_B)];
  }

  lemma Inits(w: World) returns (m: World)
    requires Standing(w, Version(3, FIRST, COPIES), CLAIMS)
    ensures Standing(m, Version(4, FIRST, COPIES), MORE)
  {
    InitIsPlanned();
    InitTaken(w.s);
    m := Processes(BEGINNING, w, Version(3, FIRST, COPIES), INIT, INIT_ACTS, Version(4, FIRST, COPIES),
      w.s.(claims := MORE));
  }

  /** InitFinished is stored although the first claim of the run is not bound: the wait is for the last one only. */
  lemma InitFinishesUnbound() returns (m: World)
    ensures Start(BEGINNING) && Leads(BEGINNING, m)
    ensures "r" in m.s.runs && m.s.runs["r"].status.initFinished && m.s.runs["r"].claims == COPIES
    ensures COPY_A.Key() in m.s.claims && !m.s.claims[COPY_A.Key()].bound
    ensures Standing(m, Version(4, FIRST, COPIES), MORE)
  {
    m := Creation();
    m := Starts(m, 0, FIRST, [], CLAIMS);
    m := Kusts(m);
    m := Starts(m, 2, FIRST, COPIES, CLAIMS);
    m := Inits(m);
  }

  // ---- The late snapshot ----

  lemma Arrives(w: World) returns (m: World)
    requires Standing(w, Version(4, FIRST, COPIES), MORE)
    ensures Standing(m, Version(4, LATER, COPIES), MORE)
  {
    var l := SnapshotUpdates("r", "data-app-0", "late");
    LeadsNext(BEGINNING, w, l);
    m := Next(w, l);
    assert FIRST["data-app-0" := "late"] == LATER;
  }

  lemma PreValidates(w: World) returns (m: World)
    requires Standing(w, Version(5, LATER, COPIES), MORE)
    ensures Standing(m, Version(6, LATER, COPIES), MORE)
  {
    NextVersion(5, LATER, COPIES);
    Finds(w.s);
    assert PlanFor(Version(5, LATER, COPIES), INIT) == Plan([FIND], Store(Version(6, LATER, COPIES)));
    m := Processes(BEGINNING, w, Version(5, LATER, COPIES), INIT, [FIND], Version(6, LATER, COPIES), w.s);
  }

  const VALIDATE := NO_ANSWERS.(strategy := Some(STRATEGY), visited := VISITED)
  const LABEL_ACTS := [GetPVC(A.Key(), A), LabelSnapshot("late"), GetPVC(B.Key(), B), LabelSnapshot("s1")]

  lemma {:induction false} LabelTaken(s: Site)
    requires s.strategies == map["u" := STRATEGY] && s.claims == MORE
    ensures Issue(s, [FIND] + LABEL_ACTS) == Some(s)
  {
    Names();
    Finds(s);
    IssueNext(s, [FIND], LABEL_ACTS[0]);
    IssueNext(s, [FIND] + [LABEL_ACTS[0]], LABEL_ACTS[1]);
    IssueNext(s, [FIND] + [LABEL_ACTS[0]] + [LABEL_ACTS[1]], LABEL_ACTS[2]);
    IssueNext(s, [FIND] + [LABEL_ACTS[0]] + [LABEL_ACTS[1]] + [LABEL_ACTS[2]], LABEL_ACTS[3]);
    assert [FIND] + LABEL_ACTS == [FIND] + [LABEL_ACTS[0]] + [LABEL_ACTS[1]] + [LABEL_ACTS[2]] + [LABEL_ACTS[3]];
  }

  lemma LabelIsPlanned()
    ensures PlanFor(Version(7, LATER, COPIES), VALIDATE) == Plan([FIND] + LABEL_ACTS, Store(Version(8, LATER, COPIES)))
  {
    NextVersion(7, LATER, COPIES);
    Visiting();
    assert Enumerates(Visits(VISITED), LATER.Keys);
    LabelsOfBoth();
  }

  lemma LabelsOfBoth()
    ensures LabelActs(Version(7, LATER, COPIES), VISITED) == LABEL_ACTS
  {
    var run := Version(7, LATER, COPIES);
    assert VISITED[..1] == [("data-app-0", A)] && VISITED[..1][..0] == [];
    assert LabelActs(run, VISITED[..1]) == [] + [LABEL_ACTS[0], LABEL_ACTS[1]];
    assert LABEL_ACTS == [LABEL_ACTS[0], LABEL_ACTS[1]] + [LABEL_ACTS[2], LABEL_ACTS[3]];
  }

  /** The snapshot "late" has been labelled as validated, the stamp is about to be stored, and no claim of the run was
      made from that snapshot. */
  lemma LateSnapshotIsLabelled() returns (m: World)
    ensures Start(BEGINNING) && Leads(BEGINNING, m) && Stores(m, 0, 7)
    ensures var t := m.tasks[0];
      LabelSnapshot("late") in t.acts[..t.at] && !MadeFrom(t.copy.claims, "late") && !LabelsAreEarned(t)
  {
    m := InitFinishesUnbound();
    m := Arrives(m);
    m := Starts(m, 4, LATER, COPIES, MORE);
    m := PreValidates(m);
    m := Starts(m, 6, LATER, COPIES, MORE);
    m := Labels(m);
  }

  const LAST_ACTS := [FIND] + LABEL_ACTS + [UpdateRun(Version(7, LATER, COPIES), Version(8, LATER, COPIES))]

  lemma Labels(w: World) returns (m: World)
    requires Standing(w, Version(7, LATER, COPIES), MORE)
    ensures Leads(BEGINNING, m) && Stores(m, 0, 7)
    ensures var t := m.tasks[0];
      LabelSnapshot("late") in t.acts[..t.at] && !MadeFrom(t.copy.claims, "late") && !LabelsAreEarned(t)
  {
    var run := Version(7, LATER, COPIES);
    LabelIsPlanned();
    LabelTaken(w.s);
    UpToStore(BEGINNING, w, run, VALIDATE, [FIND] + LABEL_ACTS, Version(8, LATER, COPIES), w.s);
    m := Doing(w.s, run, LAST_ACTS, 5);
    StoresLast(w.s);
    LateIsLabelled(m.tasks[0]);
  }

  lemma StoresLast(s: Site)
    requires "r" in s.runs && s.runs["r"] == Version(7, LATER, COPIES)
    ensures Stores(Doing(s, Version(7, LATER, COPIES), LAST_ACTS, 5), 0, 7)
    ensures LAST_ACTS[..5] == [FIND] + LABEL_ACTS && |LAST_ACTS| == 6
  {
    NextVersion(7, LATER, COPIES);
  }

  lemma LateIsLabelled(t: Task)
    requires t.at == 5 <= |t.acts| && t.acts[..5] == [FIND] + LABEL_ACTS && t.copy.claims == COPIES
    ensures LabelSnapshot("late") in t.acts[..t.at] && !MadeFrom(t.copy.claims, "late") && !LabelsAreEarned(t)
  {
    assert t.acts[..5][2] == LabelSnapshot("late") && t.acts[2] in t.acts;
    NotMadeFromLate();
  }

  lemma NotMadeFromLate()
    ensures !MadeFrom(COPIES, "late")
  {
    assert COPY_A.annotations[SNAPSHOT_KEY] == "s0" && COPY_B.annotations[SNAPSHOT_KEY] == "s1";
  }
}
