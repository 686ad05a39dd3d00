/** What a validated revert restores is what was validated: the claims that replace the old ones ask for the snapshots
    of the run that was created for the revert. */
module RevertAgreement {
  import opened Wrappers
  import opened Types
  import opened RevertCluster
  import opened RevertPlan
  import opened RevertMachine
  import opened RevertDowntime
  import opened RevertClaims
  import RevertGate
  import RevertReady
  import Selection

  /** The snapshots up to a moment. */
  function Early(list: seq<Snapshot>, to: int): set<Snapshot> {
    set s | s in list && s.time <= to
  }

  /** No snapshot up to that moment is deleted, and every new one is later. */
  ghost predicate OnlyLater(w: World, labels: seq<Label>, to: int) {
    labels == [] ||
    (OnlyLater(w, labels[..|labels| - 1], to) &&
     var mid, last := Exec(w, labels[..|labels| - 1]), labels[|labels| - 1];
     mid.Some? && last.Outside? && last.e.SnapshotsChange? ==>
       Early(last.e.list, to) == Early(mid.value.c.snapshots, to))
  }

  /** Complete listings have shown, up to that moment, just these snapshots. */
  ghost predicate Shows(w: World, early: set<Snapshot>, to: int) {
    && Early(w.c.snapshots, to) == early
    && (w.worker.Busy? ==>
          && w.worker.at <= |w.worker.ops|
          && forall i | 0 <= i < w.worker.at :: ShownBy(w.worker.ops[i], early, to))
  }

  predicate ShownBy(op: Op, early: set<Snapshot>, to: int) {
    op.ListSnapshots? && !op.failed ==> Early(op.list, to) == early
  }

  lemma CallShows(c: Cluster, op: Op, to: int)
    requires Accepts(c, op)
    ensures ShownBy(op, Early(c.snapshots, to), to) && Effect(c, op).snapshots == c.snapshots
  {
  }

  lemma StepKeepsShows(w: World, l: Label, early: set<Snapshot>, to: int)
    requires Shows(w, early, to) && Step(w, l).Some?
    requires l.Outside? && l.e.SnapshotsChange? ==> Early(l.e.list, to) == early
    ensures Shows(Step(w, l).value, early, to)
  {
    if l == Call {
      CallShows(w.c, w.worker.ops[w.worker.at], to);
    }
  }

  lemma {:induction false} AlwaysShows(w: World, labels: seq<Label>, to: int)
    requires w.worker == Waiting && OnlyLater(w, labels, to) && Exec(w, labels).Some?
    ensures Shows(Exec(w, labels).value, Early(w.c.snapshots, to), to)
  {
    if labels != [] {
      var before := labels[..|labels| - 1];
      AlwaysShows(w, before, to);
      StepKeepsShows(Exec(w, before).value, labels[|labels| - 1], Early(w.c.snapshots, to), to);
    }
  }

  lemma {:induction false} OnlyLaterPrefix(w: World, a: seq<Label>, b: seq<Label>, to: int)
    requires OnlyLater(w, a + b, to) && Exec(w, a + b).Some?
    ensures OnlyLater(w, a, to) && Exec(w, a).Some?
  {
    if b == [] {
      assert a + b == a;
    } else {
      assert (a + b)[..|a + b| - 1] == a + b[..|b| - 1];
      OnlyLaterPrefix(w, a, b[..|b| - 1], to);
    }
  }

  // ---- The run that is created ----

  /** Just before a run is created, the snapshots were listed. */
  lemma ListedBefore(r: Revert, obs: Obs, at: nat, run: Run)
    requires Validates(r) && at < |AllOps(r, obs)| && AllOps(r, obs)[at] == CreateRun(run)
    ensures at > 0 && AllOps(r, obs)[at - 1] == ListSnapshots(obs.validation.snaps, obs.validation.failed)
    ensures CreateRun(run) in ValidationPlan(r, obs.validation).0
  {
    var pre := ValidationPlan(r, obs.validation).0;
    AllOpsParts(r, obs);
    assert StagePlan(r, obs).ops == PauseOps(obs.replicas) || StagePlan(r, obs).ops == [];
    InFirstPart(AllOps(r, obs), pre, StagePlan(r, obs).ops, Closing(r, StagePlan(r, obs).result), at);
    CreateFollowsList(r, obs.validation, at);
  }

  lemma InFirstPart(ops: seq<Op>, pre: seq<Op>, mid: seq<Op>, post: seq<Op>, at: nat)
    requires ops == pre || ops == pre + mid + post
    requires forall op <- mid :: !op.CreateRun?
    requires forall op <- post :: !op.CreateRun?
    requires at < |ops| && ops[at].CreateRun?
    ensures at < |pre| && pre[at] == ops[at] && (at > 0 ==> pre[at - 1] == ops[at - 1])
  {
    assert forall i | |pre| <= i < |ops| :: ops[i] in mid || ops[i] in post;
  }

  lemma CreateFollowsList(r: Revert, v: ValidationObs, at: nat)
    requires Validates(r) && at < |ValidationPlan(r, v).0| && ValidationPlan(r, v).0[at].CreateRun?
    ensures at > 0 && ValidationPlan(r, v).0[at - 1] == ListSnapshots(v.snaps, v.failed)
  {
    var look, ops := FirstLook(r.validation.value, v), RunValidation(r, r.validation.value, v).0;
    assert forall i | 0 <= i < |ops| :: ops[i].CreateRun? ==> i == 2 && ops[1] == ListSnapshots(v.snaps, v.failed);
    assert at >= |look| && (look + ops)[at] == ops[at - |look|] && (look + ops)[|look| + 1] == ops[1];
  }

  /** Two complete listings that agree up to the end of the window choose the same times, and the same snapshots unless
      two of one claim have the same time. */
  lemma SameChoice(pvcs: seq<Claim>, a: seq<Snapshot>, b: seq<Snapshot>, from: Option<int>, to: int, name: string)
    requires Early(a, to) == Early(b, to) && name in Selection.Names(pvcs)
    requires var x := Selection.Select(pvcs, a, false, from, Some(to)); x.Some?
    requires var y := Selection.Select(pvcs, b, false, from, Some(to)); y.Some?
    ensures var x, y := Selection.Select(pvcs, a, false, from, Some(to)).value,
        Selection.Select(pvcs, b, false, from, Some(to)).value;
      && name in x && name in y && x[name] in Early(a, to) && y[name] in Early(a, to)
      && x[name].claim == y[name].claim == name && x[name].time == y[name].time
  {
    Selection.SelectionExact(pvcs, a, false, from, Some(to));
    Selection.SelectionExact(pvcs, b, false, from, Some(to));
    EarlyIsEligible(a, b, from, to, name);
  }

  lemma EarlyIsEligible(a: seq<Snapshot>, b: seq<Snapshot>, from: Option<int>, to: int, name: string)
    requires Early(a, to) == Early(b, to)
    ensures forall s: Snapshot | Selection.Eligible(s, name, from, Some(to)) ::
              (s in a <==> s in b) && (s in a ==> s in Early(a, to))
  {
    forall s: Snapshot | Selection.Eligible(s, name, from, Some(to))
        ensures (s in a <==> s in b) && (s in a ==> s in Early(a, to)) {
      assert s in a <==> s in Early(a, to);
      assert s in b <==> s in Early(b, to);
    }
  }

  // ---- The two together ----

  /** The worker is about to create a run from a complete listing of the snapshots. */
  ghost predicate IsCreating(m: World, obs: Obs, run: Run) {
    && m.worker.Busy? && Validates(m.worker.r) && m.worker.ops == AllOps(m.worker.r, obs)
    && m.worker.at < |m.worker.ops| && m.worker.ops[m.worker.at] == CreateRun(run)
    && !obs.validation.failed
  }

  lemma CreatedFromShown(m: World, obs: Obs, run: Run, early: set<Snapshot>, to: int)
    requires IsCreating(m, obs, run) && Shows(m, early, to)
    ensures Early(obs.validation.snaps, to) == early
    ensures var r := m.worker.r;
      var chosen := Selection.Select(LastOf(r).oldClaims, obs.validation.snaps, false, r.action.fromTime,
          r.action.toTime);
      chosen.Some? && run.claimsToSnapshots == map n | n in chosen.value :: chosen.value[n].name
  {
    ListedBefore(m.worker.r, obs, m.worker.at, run);
    RevertGate.CreatedRunIs(m.worker.r, obs.validation, run);
    assert ShownBy(m.worker.ops[m.worker.at - 1], early, to);
  }

  /** The claim that replaces this one asks for the snapshot the run validated, or for one of the same claim and
      time. */
  ghost predicate AsksForValidated(c: Cluster, run: Run, early: set<Snapshot>, claim: Claim) {
    && claim.name in run.claimsToSnapshots && claim.Key() in c.claims
    && exists a <- early, b <- early ::
         && a.claim == b.claim == claim.name && a.time == b.time
         && a.name == run.claimsToSnapshots[claim.name]
         && c.claims[claim.Key()].annotations == map[SNAPSHOT_KEY := b.name]
  }

  lemma ReplacedAtEnd(count: nat, w: World, labels: seq<Label>, claim: Claim)
    requires Sound(count, w) && w.worker == Waiting
    requires Exec(w, labels).Some? && Completes(Exec(w, labels).value, Replace)
    requires claim in LastOf(Exec(w, labels).value.worker.r).oldClaims
    ensures var m := Exec(w, labels).value;
      && m.worker.at > 0 && m.worker.r.reverts != [] && m.worker.ops[0].ListSnapshots?
      && ChosenBy(m.worker.r, m.worker.ops).Some?
      && Replaced(m.c, m.worker.r, ChosenBy(m.worker.r, m.worker.ops).value, claim)
  {
    RevertReady.RunStaysSound(count, w, labels);
    AlwaysTracked(w, labels);
    CompletedReplacement(count, Exec(w, labels).value, claim);
  }

  lemma CompletedReplacement(count: nat, m: World, claim: Claim)
    requires Sound(count, m) && Tracked(m) && Completes(m, Replace) && claim in LastOf(m.worker.r).oldClaims
    ensures m.worker.at > 0 && m.worker.r.reverts != [] && m.worker.ops[0].ListSnapshots?
    ensures ChosenBy(m.worker.r, m.worker.ops).Some?
    ensures Replaced(m.c, m.worker.r, ChosenBy(m.worker.r, m.worker.ops).value, claim)
  {
    CompletingWorker(count, m);
    ReplaceCompletes(count, m);
  }

  /** Take any moment at which the worker waits, and any run from there in which a revert with a window that ends at
      `to` creates a validation run for its record, and in which later, after any failures and retries, the claims of
      that record have been replaced. If from that moment on no snapshot up to `to` is deleted and every new one is
      later, each claim asks for the snapshot that the created run maps it to, or for one of the same claim and the same
      time. A run that is adopted instead may map the claims to anything. */
  lemma ValidatedIsRestored(count: nat, w: World, a: seq<Label>, b: seq<Label>, obs: Obs, run: Run, to: int,
      claim: Claim)
    requires Sound(count, w) && w.worker == Waiting && Exec(w, a + b).Some? && OnlyLater(w, a + b, to)
    requires Exec(w, a).Some? && IsCreating(Exec(w, a).value, obs, run)
    requires Completes(Exec(w, a + b).value, Replace)
    requires var r, r' := Exec(w, a).value.worker.r, Exec(w, a + b).value.worker.r;
      && LastOf(r').oldClaims == LastOf(r).oldClaims && claim in LastOf(r).oldClaims
      && r'.action.fromTime == r.action.fromTime && r'.action.toTime == r.action.toTime == Some(to)
    requires var ops := Exec(w, a + b).value.worker.ops; ops[0].ListSnapshots? ==> !ops[0].failed
    ensures AsksForValidated(Exec(w, a + b).value.c, run, Early(w.c.snapshots, to), claim)
  {
    var early := Early(w.c.snapshots, to);
    OnlyLaterPrefix(w, a, b, to);
    AlwaysShows(w, a, to);
    CreatedFromShown(Exec(w, a).value, obs, run, early, to);
    AlwaysShows(w, a + b, to);
    ReplacedAtEnd(count, w, a + b, claim);
    ChosenAgain(Exec(w, a + b).value, obs.validation.snaps, run, early, to, claim);
  }

  lemma ChosenAgain(m: World, snaps: seq<Snapshot>, run: Run, early: set<Snapshot>, to: int, claim: Claim)
    requires Shows(m, early, to) && Early(snaps, to) == early && m.worker.Busy? && 0 < m.worker.at
    requires m.worker.r.reverts != [] && claim in LastOf(m.worker.r).oldClaims && m.worker.r.action.toTime == Some(to)
    requires m.worker.ops[0].ListSnapshots? && !m.worker.ops[0].failed
    requires var chosen := ChosenBy(m.worker.r, m.worker.ops);
      chosen.Some? && Replaced(m.c, m.worker.r, chosen.value, claim)
    requires var r := m.worker.r;
      var chosen := Selection.Select(LastOf(r).oldClaims, snaps, false, r.action.fromTime, r.action.toTime);
      chosen.Some? && run.claimsToSnapshots == map n | n in chosen.value :: chosen.value[n].name
    ensures AsksForValidated(m.c, run, early, claim)
  {
    var r, ops := m.worker.r, m.worker.ops;
    assert ShownBy(ops[0], early, to);
    AsksForChosen(m.c, r, snaps, ops[0].list, run, to, claim);
  }

  lemma AsksForChosen(c: Cluster, r: Revert, a: seq<Snapshot>, b: seq<Snapshot>, run: Run, to: int, claim: Claim)
    requires Early(a, to) == Early(b, to) && claim in LastOf(r).oldClaims && r.action.toTime == Some(to)
    requires var x := Selection.Select(LastOf(r).oldClaims, a, false, r.action.fromTime, r.action.toTime);
      x.Some? && run.claimsToSnapshots == map n | n in x.value :: x.value[n].name
    requires var y := Selection.Select(LastOf(r).oldClaims, b, false, r.action.fromTime, r.action.toTime);
      y.Some? && Replaced(c, r, y.value, claim)
    ensures AsksForValidated(c, run, Early(a, to), claim)
  {
    SameChoice(LastOf(r).oldClaims, a, b, r.action.fromTime, to, claim.name);
    var x := Selection.Select(LastOf(r).oldClaims, a, false, r.action.fromTime, r.action.toTime).value[claim.name];
    var y := Selection.Select(LastOf(r).oldClaims, b, false, r.action.fromTime, r.action.toTime).value[claim.name];
    assert x in Early(a, to) && y in Early(a, to);
  }
}
