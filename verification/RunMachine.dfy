/** All interleavings of the validation workers with snapshot arrivals and the revert controller. Any number of workers
    may process any version of a run that was ever stored, so neither the cache nor the mutexes are relied on: only the
    server's refusal of updates to an object that has changed since. */
module RunMachine {
  import opened Wrappers
  import opened Types
  import opened RunPlan

  /** A worker in the middle of a processing. */
  datatype Task = Task(copy: Run, acts: seq<Act>, at: nat)

  datatype World = World(s: Site, tasks: map<nat, Task>)

  datatype Label =
    | Begin(id: nat, copy: Run, obs: Obs)
    | Proceed(id: nat)
    | Quit(id: nat)
    | SnapshotUpdates(run: string, claim: string, snapshot: string)
    | RunCreated(created: Run)
    | CleanupRequested(run: string)
    | JobSucceeds(job: string)
    | JobGone(job: string)
    | RunGone(run: string)
    | ClaimsChange(claims: map<Key, Claim>)

  ghost predicate Enabled(w: World, l: Label) {
    match l
    case Begin(id, copy, _) => id !in w.tasks && copy in w.s.past
    case Proceed(id) => id in w.tasks && w.tasks[id].at < |w.tasks[id].acts|
        && Accepts(w.s, w.tasks[id].acts[w.tasks[id].at])
    case SnapshotUpdates(n, claim, snapshot) => n in w.s.runs && claim in w.s.runs[n].claimsToSnapshots
        && snapshot != ""
    case RunCreated(run) =>
      && (forall p <- w.s.past :: p.name != run.name)
      && run.status == NOTHING_DONE && run.claims == [] && run.kustomized == []
    case CleanupRequested(n) => n in w.s.runs
    case JobSucceeds(j) => j in w.s.jobs
    case _ => true
  }

  ghost function Next(w: World, l: Label): World {
    match l
    case Begin(id, copy, obs) => w.(tasks := w.tasks[id := Task(copy, AllActs(copy, obs), 0)])
    case Proceed(id) =>
      if id !in w.tasks || w.tasks[id].at >= |w.tasks[id].acts| then w else
      var t := w.tasks[id];
      World(Effect(w.s, t.acts[t.at]), w.tasks[id := t.(at := t.at + 1)])
    case Quit(id) => w.(tasks := w.tasks - {id})
    case SnapshotUpdates(n, claim, snapshot) =>
      if n !in w.s.runs then w else
      var run := w.s.runs[n];
      w.(s := StoreRun(w.s, run.(claimsToSnapshots := run.claimsToSnapshots[claim := snapshot])))
    case RunCreated(run) => w.(s := StoreRun(w.s, run))
    case CleanupRequested(n) => if n !in w.s.runs then w else w.(s := StoreRun(w.s, w.s.runs[n].(cleanup := true)))
    case JobSucceeds(j) => w.(s := w.s.(jobs := w.s.jobs[j := true]))
    case JobGone(j) => w.(s := w.s.(jobs := w.s.jobs - {j}))
    case RunGone(n) => w.(s := w.s.(runs := w.s.runs - {n}))
    case ClaimsChange(claims) => w.(s := w.s.(claims := claims))
  }

  ghost function Exec(w: World, labels: seq<Label>): Option<World> {
    if labels == [] then Some(w)
    else
      var mid := Exec(w, labels[..|labels| - 1]);
      if mid.Some? && Enabled(mid.value, labels[|labels| - 1]) then Some(Next(mid.value, labels[|labels| - 1]))
          else None
  }

  lemma ExecOneMore(w: World, labels: seq<Label>, l: Label)
    ensures var mid := Exec(w, labels);
      Exec(w, labels + [l]) == if mid.Some? && Enabled(mid.value, l) then Some(Next(mid.value, l)) else None
  {
    assert (labels + [l])[..|labels|] == labels;
  }

  lemma {:induction false} ExecConcat(w: World, a: seq<Label>, b: seq<Label>)
    requires Exec(w, a).Some?
    ensures Exec(w, a + b) == Exec(Exec(w, a).value, b)
  {
    if b == [] {
      assert a + b == a;
    } else {
      var most, last := b[..|b| - 1], b[|b| - 1];
      assert b == most + [last] && a + b == (a + most) + [last];
      ExecConcat(w, a, most);
      ExecOneMore(w, a + most, last);
      ExecOneMore(Exec(w, a).value, most, last);
    }
  }

  /** No run, no job and no worker yet. */
  ghost predicate Start(w: World) {
    && w.tasks == map[] && w.s.runs == map[] && w.s.jobs == map[]
    && w.s.past == {} && w.s.succeeded == {} && w.s.builds == {}
  }
}
