/** Exactly when the cleanup of a run gets its last stamp. */
module RunCleanup {
  import opened Wrappers
  import opened Types
  import opened RunPlan
  import opened RunMachine

  /** The worker goes on with its next calls. */
  function Alone(id: nat, n: nat): (labels: seq<Label>)
    ensures |labels| == n
  {
    seq(n, i => Proceed(id))
  }

  lemma AloneNext(w: World, id: nat, n: nat)
    ensures Exec(w, Alone(id, n + 1)) ==
      var mid := Exec(w, Alone(id, n));
      if mid.Some? && Enabled(mid.value, Proceed(id)) then Some(Next(mid.value, Proceed(id))) else None
  {
    assert Alone(id, n + 1) == Alone(id, n) + [Proceed(id)];
    ExecOneMore(w, Alone(id, n), Proceed(id));
  }

  lemma {:induction false} DropActsKinds(claims: seq<Claim>, deleted: seq<bool>)
    ensures forall act <- DropActs(claims, deleted) :: act.DeleteClaim?
  {
    if claims != [] {
      DropActsKinds(claims[..|claims| - 1], deleted);
    }
  }

  /** The run after the first `n` calls of a cleanup. */
  function RunsLeft(runs: map<string, Run>, name: string, gone: bool, n: nat): map<string, Run> {
    if gone && n > 0 then runs - {name} else runs
  }

  predicate CleansUp(acts: seq<Act>, copy: Run, gone: bool) {
    && acts != [] && acts[|acts| - 1].UpdateRun? && acts[|acts| - 1].seen == copy
    && (gone ==> |acts| > 1 && acts[0] == DeleteRun(copy.name))
    && forall i | (if gone then 1 else 0) <= i < |acts| - 1 :: acts[i].DeleteClaim?
  }

  lemma CleanupActs(copy: Run, obs: Obs)
    requires StageOf(copy.status) == 9 && copy.cleanup
    ensures CleansUp(AllActs(copy, obs), copy, obs.runDeleted)
  {
    DropActsKinds(copy.claims, obs.claimsDeleted);
    var first, drops := if obs.runDeleted then [DeleteRun(copy.name)] else [], DropActs(copy.claims, obs.claimsDeleted);
    var acts := AllActs(copy, obs);
    assert acts == first + drops + [UpdateRun(copy, Stamped(copy))];
    forall i | |first| <= i < |acts| - 1 ensures acts[i].DeleteClaim? {
      assert acts[i] == drops[i - |first|] && drops[i - |first|] in drops;
    }
  }

  /** The worker stands before call `n`. */
  predicate At(w: World, id: nat, copy: Run, acts: seq<Act>, n: nat, runs: map<string, Run>) {
    id in w.tasks && w.tasks[id] == Task(copy, acts, n) && w.s.runs == runs
  }

  lemma NextCall(w: World, id: nat, copy: Run, acts: seq<Act>, gone: bool, n: nat, runs: map<string, Run>)
    requires CleansUp(acts, copy, gone) && n < |acts| - 1
    requires At(w, id, copy, acts, n, RunsLeft(runs, copy.name, gone, n))
    ensures Enabled(w, Proceed(id))
    ensures At(Next(w, Proceed(id)), id, copy, acts, n + 1, RunsLeft(runs, copy.name, gone, n + 1))
  {
  }

  lemma LastCall(w: World, id: nat, copy: Run, acts: seq<Act>, gone: bool, runs: map<string, Run>)
    requires CleansUp(acts, copy, gone)
    requires At(w, id, copy, acts, |acts| - 1, RunsLeft(runs, copy.name, gone, |acts| - 1))
    ensures Enabled(w, Proceed(id)) <==> !gone && copy.name in runs && runs[copy.name] == copy
  {
  }

  /** Until the last call, nothing stops the worker, and the run goes if its deletion takes effect. */
  lemma {:induction false} GoesOn(w: World, id: nat, copy: Run, acts: seq<Act>, gone: bool, n: nat)
    requires At(w, id, copy, acts, 0, w.s.runs) && CleansUp(acts, copy, gone) && n < |acts|
    ensures var m := Exec(w, Alone(id, n));
      m.Some? && At(m.value, id, copy, acts, n, RunsLeft(w.s.runs, copy.name, gone, n))
  {
    if n > 0 {
      GoesOn(w, id, copy, acts, gone, n - 1);
      NextCall(Exec(w, Alone(id, n - 1)).value, id, copy, acts, gone, n - 1, w.s.runs);
      AloneNext(w, id, n - 1);
    }
  }

  lemma StampIff(w: World, id: nat, copy: Run, acts: seq<Act>, gone: bool)
    requires At(w, id, copy, acts, 0, w.s.runs) && CleansUp(acts, copy, gone)
    ensures Exec(w, Alone(id, |acts|)).Some? <==> !gone && copy.name in w.s.runs && w.s.runs[copy.name] == copy
  {
    var last := |acts| - 1;
    GoesOn(w, id, copy, acts, gone, last);
    LastCall(Exec(w, Alone(id, last)).value, id, copy, acts, gone, w.s.runs);
    AloneNext(w, id, last);
  }

  /** A cleanup that is left alone gets its stamp exactly if the deletion of the run does not take effect and the run is
      still the version that was read: deleting the run and stamping it exclude each other. */
  lemma CleanupStampIff(w: World, id: nat, copy: Run, obs: Obs)
    requires id in w.tasks && w.tasks[id] == Task(copy, AllActs(copy, obs), 0)
    requires StageOf(copy.status) == 9 && copy.cleanup
    ensures Exec(w, Alone(id, |AllActs(copy, obs)|)).Some? <==>
      !obs.runDeleted && copy.name in w.s.runs && w.s.runs[copy.name] == copy
  {
    CleanupActs(copy, obs);
    StampIff(w, id, copy, AllActs(copy, obs), obs.runDeleted);
  }
}
