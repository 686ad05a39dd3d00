/** All runs of the revert controller: one worker that processes the stored object over and over, cut at any API call,
    interleaved with the rest of the cluster and with the user's edits. */
module RevertMachine {
  import opened Wrappers
  import opened Types
  import opened RevertCluster
  import opened RevertPlan

  /** The worker holds the object it read, and then the calls it is going to issue and how many it has issued. */
  datatype Worker =
    | Waiting
    | Loaded(r: Revert)
    | Busy(r: Revert, ops: seq<Op>, at: nat)

  /** `observed` are the validation runs the worker has looked at since its processing began. No step reads it. */
  datatype World = World(c: Cluster, worker: Worker, observed: set<Run>)

  datatype Label = Outside(e: Event) | Load | Begin(obs: Obs) | Call | Drop

  function Looks(observed: set<Run>, op: Op, runs: map<string, Run>): set<Run> {
    match op
    case SeeRun(_, run) => if run.Some? then observed + {run.value} else observed
    case CreateRun(run) => observed + {run}
    case AwaitFinished(n) => if n in runs then observed + {runs[n]} else observed
    case _ => observed
  }

  ghost function Step(w: World, l: Label): Option<World> {
    match l
    case Outside(e) => if Possible(w.c, e) then Some(w.(c := Change(w.c, e))) else None
    case Load => if w.worker == Waiting then Some(w.(worker := Loaded(w.c.stored))) else None
    case Begin(obs) =>
      if w.worker.Loaded? then Some(World(w.c, Busy(w.worker.r, AllOps(w.worker.r, obs), 0), {})) else None
    case Drop => Some(w.(worker := Waiting))
    case Call =>
      if w.worker.Busy? && w.worker.at < |w.worker.ops| && Accepts(w.c, w.worker.ops[w.worker.at])
      then Some(AfterCall(w)) else None
  }

  /** Storing the object ends the processing. */
  function AfterCall(w: World): World
    requires w.worker.Busy? && w.worker.at < |w.worker.ops|
  {
    var op := w.worker.ops[w.worker.at];
    World(
      Effect(w.c, op),
      if op.UpdateRevert? then Waiting else w.worker.(at := w.worker.at + 1),
      Looks(w.observed, op, w.c.runs))
  }

  /** The world a sequence of steps leads to, if each of them is possible. */
  ghost function Exec(w: World, labels: seq<Label>): Option<World> {
    if labels == [] then Some(w)
    else
      var mid := Exec(w, labels[..|labels| - 1]);
      if mid.None? then None else Step(mid.value, labels[|labels| - 1])
  }

  lemma ExecOneMore(w: World, labels: seq<Label>, l: Label)
    ensures Exec(w, labels + [l]) == if Exec(w, labels).Some? then Step(Exec(w, labels).value, l) else None
  {
    assert (labels + [l])[..|labels|] == labels;
  }

  lemma {:induction false} ExecConcat(w: World, a: seq<Label>, b: seq<Label>)
    requires Exec(w, a).Some?
    ensures Exec(w, a + b) == Exec(Exec(w, a).value, b)
  {
    if b == [] {
      assert a + b == a;
    } else {
      var most, last := b[..|b| - 1], b[|b| - 1];
      assert b == most + [last] && a + b == (a + most) + [last];
      ExecConcat(w, a, most);
      ExecOneMore(w, a + most, last);
      ExecOneMore(Exec(w, a).value, most, last);
    }
  }

  lemma ExecOne(w: World, l: Label)
    ensures Exec(w, [l]) == Step(w, l)
  {
    assert [l][..0] == [];
    assert Exec(w, [l][..0]) == Some(w);
  }

  /** The user changes the action only while no request is pending. */
  ghost predicate Polite(w: World, labels: seq<Label>) {
    labels == [] ||
    (Polite(w, labels[..|labels| - 1]) &&
     var last := labels[|labels| - 1];
     last.Outside? && last.e.EditAction? ==>
       var mid := Exec(w, labels[..|labels| - 1]);
       mid.Some? ==> mid.value.c.stored.action.kind !in {Latest, Undo})
  }

  /** The state before any processing, with `count` replicas wanted. */
  ghost predicate Start(w: World, count: nat) {
    && count > 0
    && w.worker == Waiting && w.observed == {}
    && w.c.stored.reverts == []
    && w.c.sts.replicas == Some(count)
    && (forall k <- w.c.claims :: w.c.claims[k].Key() == k)
    && Named(w.c.runs) && HaveNames(w.c.snapshots)
    && w.c.running <= w.c.pods
  }

  function Last(reverts: seq<Details>): Details
    requires reverts != []
  {
    reverts[|reverts| - 1]
  }

  predicate TopIs(reverts: seq<Details>, state: State) {
    reverts != [] && Last(reverts).state == state
  }
}
