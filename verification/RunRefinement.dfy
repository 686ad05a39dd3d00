/** The methods of the validation controller refine its machine: a processing, with whatever other workers, snapshot
    arrivals and the rest of the cluster do between its calls, is a run of RunMachine. */
module RunRefinement {
  import opened Wrappers
  import opened Types
  import opened RunPlan
  import opened RunMachine
  import opened RunCalls

  /** Others leave the task of this worker alone. */
  predicate ByOthers(l: Label, id: nat) {
    (l.Begin? || l.Proceed? || l.Quit?) ==> l.id != id
  }

  /** A processing, call by call, with what others do before each call. */
  function Weave(id: nat, gaps: seq<seq<Label>>): seq<Label> {
    if gaps == [] then [] else Weave(id, gaps[..|gaps| - 1]) + gaps[|gaps| - 1] + [Proceed(id)]
  }

  /** What others do before the last call is possible, and leads to the state in which the call was issued. */
  ghost predicate LeadsTo(before: Option<World>, gap: seq<Label>, site: Site) {
    before.Some? && var mid := Exec(before.value, gap); mid.Some? && mid.value.s == site
  }

  ghost predicate Explains(w: World, id: nat, gaps: seq<seq<Label>>, moments: seq<Moment>)
    requires |gaps| == |moments|
  {
    gaps == [] ||
    var n := |gaps| - 1;
    && Explains(w, id, gaps[..n], moments[..n])
    && (forall l <- gaps[n] :: ByOthers(l, id))
    && LeadsTo(Exec(w, Weave(id, gaps[..n])), gaps[n], moments[n].site)
  }

  lemma {:induction false} OthersKeepTask(w: World, id: nat, gap: seq<Label>)
    requires id in w.tasks && Exec(w, gap).Some? && forall l <- gap :: ByOthers(l, id)
    ensures id in Exec(w, gap).value.tasks && Exec(w, gap).value.tasks[id] == w.tasks[id]
  {
    if gap != [] {
      var before, l := gap[..|gap| - 1], gap[|gap| - 1];
      assert l in gap && forall x <- before :: x in gap;
      OthersKeepTask(w, id, before);
    }
  }

  lemma CallProceeds(w: World, id: nat, m: Moment)
    requires id in w.tasks && w.tasks[id].at < |w.tasks[id].acts| && w.tasks[id].acts[w.tasks[id].at] == m.act
    requires w.s == m.site && Accepts(m.site, m.act)
    ensures Exec(w, [Proceed(id)]).Some?
    ensures Exec(w, [Proceed(id)]).value ==
        World(Effect(m.site, m.act), w.tasks[id := w.tasks[id].(at := w.tasks[id].at + 1)])
  {
    assert [Proceed(id)][..0] == [];
    assert Exec(w, [Proceed(id)][..0]) == Some(w);
  }

  /** The calls of a processing are steps of the machine's worker. */
  lemma {:induction false} CallsAreSteps(w: World, id: nat, acts: seq<Act>, gaps: seq<seq<Label>>, moments: seq<Moment>)
    requires |gaps| == |moments| && Explains(w, id, gaps, moments)
    requires id in w.tasks && w.tasks[id].acts == acts && w.tasks[id].at == 0
    requires ActsOf(moments) <= acts && forall m <- moments :: Accepts(m.site, m.act)
    ensures var after := Exec(w, Weave(id, gaps));
      && after.Some? && id in after.value.tasks
      && after.value.tasks[id] == w.tasks[id].(at := |moments|)
      && (moments != [] ==> after.value.s == Effect(moments[|moments| - 1].site, moments[|moments| - 1].act))
  {
    if gaps != [] {
      var n := |gaps| - 1;
      assert ActsOf(moments[..n]) == ActsOf(moments)[..n];
      CallsAreSteps(w, id, acts, gaps[..n], moments[..n]);
      var some := Weave(id, gaps[..n]);
      var w1 := Exec(w, some).value;
      OthersKeepTask(w1, id, gaps[n]);
      ExecConcat(w, some, gaps[n]);
      var w2 := Exec(w1, gaps[n]).value;
      assert moments[n] in moments && ActsOf(moments)[n] == moments[n].act;
      CallProceeds(w2, id, moments[n]);
      ExecConcat(w, some + gaps[n], [Proceed(id)]);
    }
  }

  /** Every processing by ProcessValidationRun is a run of the machine: if `moments` are the calls it issued, each taken
      by the server in the state it met, and others made the steps `gaps` in between, then the worker of the machine
      begins with the same copy and goes through the same calls. */
  lemma ProcessingIsARun(w: World, id: nat, run: Run, obs: Obs, gaps: seq<seq<Label>>, moments: seq<Moment>)
    requires Enabled(w, Begin(id, run, obs)) && |gaps| == |moments|
    requires Explains(Next(w, Begin(id, run, obs)), id, gaps, moments)
    requires ActsOf(moments) <= AllActs(run, obs) && forall m <- moments :: Accepts(m.site, m.act)
    ensures var after := Exec(w, [Begin(id, run, obs)] + Weave(id, gaps));
      && after.Some? && id in after.value.tasks
      && after.value.tasks[id] == Task(run, AllActs(run, obs), |moments|)
      && (moments != [] ==> after.value.s == Effect(moments[|moments| - 1].site, moments[|moments| - 1].act))
  {
    var l := Begin(id, run, obs);
    assert [l][..0] == [];
    assert Exec(w, [l][..0]) == Some(w);
    assert Exec(w, [l]) == Some(Next(w, l));
    CallsAreSteps(Next(w, l), id, AllActs(run, obs), gaps, moments);
    ExecConcat(w, [l], Weave(id, gaps));
  }
}
