/** The revert controller behind an informer cache that lags: a worker may be given any version of the object that is
    not older than the last one it was given. Claims still change only while the application is down; but a stage whose
    result is already stored may be started over, and cut. */
module RevertLag {
  import opened Wrappers
  import opened Types
  import opened RevertCluster
  import opened RevertPlan
  import opened RevertMachine
  import opened RevertDowntime
  import opened RevertClaims

  /** `versions` are all versions of the object that were ever stored, oldest first. The worker was last given the one
      at `seen`, and the cache does not go back. */
  datatype LagWorld = LagWorld(w: World, versions: seq<Revert>, seen: nat)

  datatype LagLabel = LoadVersion(k: nat) | Going(l: Label)

  predicate Writes(w: World, l: Label) {
    (l.Outside? && l.e.EditAction?)
    || (l == Call && w.worker.Busy? && w.worker.at < |w.worker.ops| && w.worker.ops[w.worker.at].UpdateRevert?)
  }

  ghost function LagStep(x: LagWorld, l: LagLabel): Option<LagWorld> {
    match l
    case LoadVersion(k) =>
      if x.w.worker == Waiting && x.seen <= k < |x.versions|
      then Some(LagWorld(x.w.(worker := Loaded(x.versions[k])), x.versions, k)) else None
    case Going(l) =>
      if l.Load? || Step(x.w, l).None? then None
      else
        var m := Step(x.w, l).value;
        Some(LagWorld(m, if Writes(x.w, l) then x.versions + [m.c.stored] else x.versions, x.seen))
  }

  ghost function LagExec(x: LagWorld, labels: seq<LagLabel>): Option<LagWorld> {
    if labels == [] then Some(x)
    else
      var mid := LagExec(x, labels[..|labels| - 1]);
      if mid.None? then None else LagStep(mid.value, labels[|labels| - 1])
  }

  ghost predicate LagStart(x: LagWorld, count: nat) {
    Start(x.w, count) && x.versions == [x.w.c.stored] && x.seen == 0
  }

  // ---- The invariant ----

  /** The cluster with the object as the worker knows it. */
  function WithCopy(w: World, r: Revert): World { w.(c := w.c.(stored := r)) }

  function Resting(w: World): World { w.(worker := Waiting) }

  /** How far the stored records can be ahead of those the worker was last given. */
  predicate Ahead(given: seq<Details>, stored: seq<Details>) {
    && (TopIs(given, Paused) ==> stored != [] && Last(stored).state in {Paused, Reverted, Undone})
    && (TopIs(given, Reverted) || TopIs(given, Undone) ==> !TopIs(stored, Paused))
  }

  /** Since the worker was given its version, the records have changed at most once. */
  predicate OneChange(versions: seq<Revert>, seen: nat, stored: seq<Details>)
    requires seen < |versions|
  {
    && (forall k | seen <= k < |versions| ::
          versions[k].reverts == versions[seen].reverts || versions[k].reverts == stored)
    && (forall k, m | seen <= k < m < |versions| && versions[k].reverts == stored :: versions[m].reverts == stored)
  }

  predicate Versioned(versions: seq<Revert>, seen: nat, stored: Revert) {
    && seen < |versions| && versions[|versions| - 1] == stored
    && OneChange(versions, seen, stored.reverts) && Ahead(versions[seen].reverts, stored.reverts)
  }

  predicate Holds(worker: Worker, r: Revert) { worker != Waiting ==> worker.r == r }

  ghost predicate Lag(count: nat, x: LagWorld) {
    && Versioned(x.versions, x.seen, x.w.c.stored) && Holds(x.w.worker, x.versions[x.seen])
    && Sound(count, WithCopy(x.w, x.versions[x.seen])) && Sound(count, Resting(x.w))
  }

  lemma LagAgain(count: nat, x: LagWorld, m: World)
    requires Versioned(x.versions, x.seen, x.w.c.stored) && m.c.stored == x.w.c.stored
    requires Holds(m.worker, x.versions[x.seen])
    requires Sound(count, WithCopy(m, x.versions[x.seen])) && Sound(count, Resting(m))
    ensures Lag(count, x.(w := m))
  {
  }

  // ---- Steps ----

  /** Of the stored object only the records matter. */
  lemma SoundByRecords(count: nat, w: World, r: Revert)
    requires Sound(count, w) && w.worker == Waiting && r.reverts == w.c.stored.reverts
    ensures Sound(count, WithCopy(w, r).(worker := Loaded(r)))
  {
  }

  lemma LoadKeepsLag(count: nat, x: LagWorld, k: nat)
    requires Lag(count, x) && x.w.worker == Waiting && x.seen <= k < |x.versions|
    ensures Lag(count, LagStep(x, LoadVersion(k)).value)
  {
    var r := x.versions[k];
    if r.reverts == x.versions[x.seen].reverts {
      SoundByRecords(count, WithCopy(x.w, x.versions[x.seen]), r);
    } else {
      SoundByRecords(count, Resting(x.w), r);
    }
  }

  lemma EventKeepsLag(count: nat, x: LagWorld, e: Event)
    requires Lag(count, x) && Possible(x.w.c, e) && !e.EditAction?
    ensures Lag(count, LagStep(x, Going(Outside(e))).value)
  {
    var r, m := x.versions[x.seen], x.w.(c := Change(x.w.c, e));
    EventKeepsSound(count, WithCopy(x.w, r), e);
    EventKeepsSound(count, Resting(x.w), e);
    EventWithCopy(x.w, r, e);
    LagAgain(count, x, m);
  }

  lemma EventWithCopy(w: World, r: Revert, e: Event)
    requires !e.EditAction?
    ensures var m := w.(c := Change(w.c, e));
      && m.c.stored == w.c.stored
      && WithCopy(m, r) == WithCopy(w, r).(c := Change(WithCopy(w, r).c, e))
      && Resting(m) == Resting(w).(c := Change(w.c, e))
  {
  }

  lemma EditKeepsLag(count: nat, x: LagWorld, e: Event)
    requires Lag(count, x) && e.EditAction?
    ensures Lag(count, LagStep(x, Going(Outside(e))).value)
  {
    EventKeepsSound(count, Resting(x.w), e);
    AppendKeepsOneChange(x.versions, x.seen, x.w.c.stored.reverts, Change(x.w.c, e).stored);
  }

  lemma AppendKeepsOneChange(versions: seq<Revert>, seen: nat, stored: seq<Details>, next: Revert)
    requires seen < |versions| && OneChange(versions, seen, stored)
    requires next.reverts == stored || forall k | seen <= k < |versions| ::
        versions[k].reverts == versions[seen].reverts
    ensures OneChange(versions + [next], seen, next.reverts)
  {
  }

  lemma WorkKeepsLag(count: nat, x: LagWorld, l: Label)
    requires Lag(count, x) && (l.Begin? || l.Drop?) && Step(x.w, l).Some?
    ensures Lag(count, LagStep(x, Going(l)).value)
  {
    StepKeepsSound(count, WithCopy(x.w, x.versions[x.seen]), l);
    RestIgnoresObserved(count, x.w, Step(x.w, l).value);
    LagAgain(count, x, Step(x.w, l).value);
  }

  lemma RestIgnoresObserved(count: nat, w: World, m: World)
    requires Sound(count, Resting(w)) && m.c == w.c
    ensures Sound(count, Resting(m))
  {
  }

  /** A call that scales up comes from a copy on which no paused record can follow. */
  lemma CallKeepsRest(count: nat, w: World, r: Revert)
    requires Sound(count, WithCopy(w, r)) && Sound(count, Resting(w)) && Ahead(r.reverts, w.c.stored.reverts)
    requires w.worker.Busy? && w.worker.r == r && w.worker.at < |w.worker.ops|
    requires var op := w.worker.ops[w.worker.at]; Accepts(w.c, op) && !op.UpdateRevert?
    ensures Sound(count, Resting(AfterCall(w)))
  {
    var op := w.worker.ops[w.worker.at];
    assert op in w.worker.ops && TameOp(count, r, op);
    OpKeepsRest(count, w.c, op, w.observed, AfterCall(w).observed);
  }

  lemma OpKeepsRest(count: nat, c: Cluster, op: Op, observed: set<Run>, after: set<Run>)
    requires Sound(count, World(c, Waiting, observed)) && Accepts(c, op) && !op.UpdateRevert?
    requires op.ScaleTo? ==> op.count == 0 || (op.count == count && !TopIs(c.stored.reverts, Paused))
    ensures Sound(count, World(Effect(c, op), Waiting, after))
  {
  }

  lemma QuietCallKeepsLag(count: nat, x: LagWorld)
    requires Lag(count, x) && Step(x.w, Call).Some? && !x.w.worker.ops[x.w.worker.at].UpdateRevert?
    ensures Lag(count, LagStep(x, Going(Call)).value)
  {
    var r := x.versions[x.seen];
    CallKeepsSound(count, WithCopy(x.w, r));
    CallKeepsRest(count, x.w, r);
    CallWithCopy(x.w, r);
    LagAgain(count, x, AfterCall(x.w));
  }

  lemma CallWithCopy(w: World, r: Revert)
    requires w.worker.Busy? && w.worker.at < |w.worker.ops| && !w.worker.ops[w.worker.at].UpdateRevert?
    ensures AfterCall(WithCopy(w, r)) == WithCopy(AfterCall(w), r) && AfterCall(w).c.stored == w.c.stored
    ensures AfterCall(w).worker == w.worker.(at := w.worker.at + 1)
  {
  }

  /** What a stage stores follows on what it was given. */
  lemma StoredIsAhead(count: nat, r: Revert, ops: seq<Op>, next: Revert)
    requires Shape(count, r.reverts) && Stores(r, ops, next)
    ensures Ahead(r.reverts, next.reverts)
  {
    TrimmedLast(Grown(r, ops), r.keepStatus);
  }

  lemma UpdateKeepsLag(count: nat, x: LagWorld)
    requires Lag(count, x) && Step(x.w, Call).Some? && x.w.worker.ops[x.w.worker.at].UpdateRevert?
    ensures Lag(count, LagStep(x, Going(Call)).value)
  {
    var Busy(r, ops, at) := x.w.worker;
    UpdateIsCurrent(count, x);
    UpdateKeepsSound(count, x.w);
    StoredIsAhead(count, r, ops, ops[at].next);
    AppendKeepsOneChange(x.versions, x.seen, x.w.c.stored.reverts, ops[at].next);
    CopyStaysSound(count, x.w, AfterCall(x.w));
    LagAfterUpdate(count, x.versions, x.seen, r, AfterCall(x.w));
  }

  lemma LagAfterUpdate(count: nat, versions: seq<Revert>, seen: nat, r: Revert, m: World)
    requires seen < |versions| && versions[seen] == r && m.worker == Waiting
    requires OneChange(versions + [m.c.stored], seen, m.c.stored.reverts) && Ahead(r.reverts, m.c.stored.reverts)
    requires Sound(count, m) && Sound(count, WithCopy(m, r))
    ensures Lag(count, LagWorld(m, versions + [m.c.stored], seen))
  {
    assert Resting(m) == m;
  }

  /** An update is taken only if the copy is the stored object. */
  lemma UpdateIsCurrent(count: nat, x: LagWorld)
    requires Lag(count, x) && Step(x.w, Call).Some? && x.w.worker.ops[x.w.worker.at].UpdateRevert?
    ensures x.w.worker.r == x.w.c.stored == x.versions[x.seen] && Sound(count, x.w)
    ensures var Busy(r, ops, at) := x.w.worker; Shape(count, r.reverts) && Stores(r, ops, ops[at].next)
  {
    var Busy(r, ops, at) := x.w.worker;
    assert ops[at] in ops && TameOp(count, r, ops[at]) && TameAt(r, ops, at);
    assert WithCopy(x.w, r) == x.w;
  }

  lemma CopyStaysSound(count: nat, w: World, m: World)
    requires Sound(count, w) && m.worker == Waiting && m.c == w.c.(stored := m.c.stored)
    ensures Sound(count, WithCopy(m, w.c.stored))
  {
  }

  lemma StepKeepsLag(count: nat, x: LagWorld, l: LagLabel)
    requires Lag(count, x) && LagStep(x, l).Some?
    ensures Lag(count, LagStep(x, l).value)
  {
    match l
    case LoadVersion(k) => LoadKeepsLag(count, x, k);
    case Going(Outside(e)) =>
      if e.EditAction? {
        EditKeepsLag(count, x, e);
      } else {
        EventKeepsLag(count, x, e);
      }
    case Going(Call) =>
      if x.w.worker.ops[x.w.worker.at].UpdateRevert? {
        UpdateKeepsLag(count, x);
      } else {
        QuietCallKeepsLag(count, x);
      }
    case Going(l) => WorkKeepsLag(count, x, l);
  }

  lemma {:induction false} AlwaysLag(count: nat, x: LagWorld, labels: seq<LagLabel>)
    requires LagStart(x, count) && LagExec(x, labels).Some?
    ensures Lag(count, LagExec(x, labels).value)
  {
    if labels == [] {
      assert Exec(x.w, []) == Some(x.w);
      AlwaysSound(count, x.w, []);
    } else {
      var before := labels[..|labels| - 1];
      AlwaysLag(count, x, before);
      StepKeepsLag(count, LagExec(x, before).value, labels[|labels| - 1]);
    }
  }

  /** However far the cache is behind, a claim is deleted or created only while no replica is wanted and no pod is left.
      The stored record is paused, or the stage is started over after its result was stored, and it is reverted or
      undone. */
  lemma ClaimsStillChangeOnlyWhileDown(count: nat, x: LagWorld, labels: seq<LagLabel>)
    requires LagStart(x, count) && LagExec(x, labels).Some?
    requires var m := LagExec(x, labels).value.w; Step(m, Call).Some? && ChangesClaims(m.worker.ops[m.worker.at])
    ensures var c := LagExec(x, labels).value.w.c;
      Down(c) && c.stored.reverts != [] && Last(c.stored.reverts).state in {Paused, Reverted, Undone}
  {
    AlwaysLag(count, x, labels);
    var m := LagExec(x, labels).value.w;
    assert TameOp(count, m.worker.r, m.worker.ops[m.worker.at]);
  }

  /** And every request to scale up still carries the recorded count. */
  lemma ScaleUpsStillCarryTheCount(count: nat, x: LagWorld, labels: seq<LagLabel>)
    requires LagStart(x, count) && LagExec(x, labels).Some?
    ensures var c := LagExec(x, labels).value.w.c; c.sts.replicas == Some(0) || c.sts.replicas == Some(count)
    ensures var m := LagExec(x, labels).value.w;
      Step(m, Call).Some? && m.worker.ops[m.worker.at].ScaleTo? ==> m.worker.ops[m.worker.at].count in {0, count}
  {
    AlwaysLag(count, x, labels);
    var m := LagExec(x, labels).value.w;
    if Step(m, Call).Some? {
      assert TameOp(count, m.worker.r, m.worker.ops[m.worker.at]);
    }
  }

  // ---- What a lagging cache breaks ----

  ghost predicate LagReaches(x: LagWorld, m: LagWorld) {
    exists labels :: LagExec(x, labels) == Some(m)
  }

  lemma LagReachesSelf(x: LagWorld)
    ensures LagReaches(x, x)
  {
    assert LagExec(x, []) == Some(x);
  }

  lemma LagReachesNext(x: LagWorld, m: LagWorld, l: LagLabel)
    requires LagReaches(x, m) && LagStep(m, l).Some?
    ensures LagReaches(x, LagStep(m, l).value)
  {
    var labels :| LagExec(x, labels) == Some(m);
    assert (labels + [l])[..|labels|] == labels;
    assert LagExec(x, labels + [l]) == LagStep(m, l);
  }

  /** A run in which every read is current is one of these. */
  lemma {:induction false} CurrentReadsAreAllowed(count: nat, x: LagWorld, labels: seq<Label>) returns (m: LagWorld)
    requires LagStart(x, count) && Exec(x.w, labels).Some?
    ensures LagReaches(x, m) && m.w == Exec(x.w, labels).value && Lag(count, m)
    decreases |labels|
  {
    if labels == [] {
      m := x;
      LagReachesSelf(x);
    } else {
      var l := labels[|labels| - 1];
      var before := CurrentReadsAreAllowed(count, x, labels[..|labels| - 1]);
      m := CurrentStep(x, before, l);
    }
    ReachedIsLag(count, x, m);
  }

  lemma CurrentStep(x: LagWorld, before: LagWorld, l: Label) returns (m: LagWorld)
    requires LagReaches(x, before) && Versioned(before.versions, before.seen, before.w.c.stored)
    requires Step(before.w, l).Some?
    ensures LagReaches(x, m) && m.w == Step(before.w, l).value
  {
    var step := if l.Load? then LoadVersion(|before.versions| - 1) else Going(l);
    LagReachesNext(x, before, step);
    m := LagStep(before, step).value;
  }

  lemma ReachedIsLag(count: nat, x: LagWorld, m: LagWorld)
    requires LagStart(x, count) && LagReaches(x, m)
    ensures Lag(count, m)
  {
    var labels :| LagExec(x, labels) == Some(m);
    AlwaysLag(count, x, labels);
  }

  lemma LagReachesJoin(x: LagWorld, m: LagWorld, n: LagWorld)
    requires LagReaches(x, m) && LagReaches(m, n)
    ensures LagReaches(x, n)
  {
    var a :| LagExec(x, a) == Some(m);
    var b :| LagExec(m, b) == Some(n);
    LagConcat(x, a, m, b);
  }

  lemma {:induction false} LagConcat(x: LagWorld, a: seq<LagLabel>, m: LagWorld, b: seq<LagLabel>)
    requires LagExec(x, a) == Some(m)
    ensures LagExec(x, a + b) == LagExec(m, b)
    decreases |b|
  {
    if b == [] {
      assert a + b == a;
    } else {
      var most, last := b[..|b| - 1], b[|b| - 1];
      assert (a + b)[..|a + b| - 1] == a + most && (a + b)[|a + b| - 1] == last;
      LagConcat(x, a, m, most);
    }
  }

  /** The result of a restoring stage is stored, the cache has not caught up, the stage is started over and cut after
      its first call, and then the cache catches up: the worker is given the undone record, and will resume the
      application without the claim. */
  lemma LateRetryLosesClaim(count: nat, x: LagWorld, obs: Obs) returns (m: LagWorld)
    requires Lag(count, x) && Completes(x.w, Restore) && x.w.worker.r == x.w.c.stored
    requires Last(x.w.c.stored.reverts).oldClaims != []
    ensures LagReaches(x, m) && m.w.worker == Loaded(m.w.c.stored) && TopIs(m.w.c.stored.reverts, Undone)
    ensures Last(m.w.c.stored.reverts).oldClaims == Last(x.w.c.stored.reverts).oldClaims
    ensures Last(m.w.c.stored.reverts).oldClaims[0].Key() !in m.w.c.claims
  {
    var stored := StoresUndone(count, x);
    LagReachesSelf(x);
    LagReachesNext(x, x, Going(Call));
    var cut := RetryDeletes(x, stored, obs);
    m := CatchesUp(x, cut);
    KeyGone(stored.w.c, m.w.c, x.w.c.stored);
  }

  lemma CatchesUp(x: LagWorld, cut: LagWorld) returns (m: LagWorld)
    requires LagReaches(x, cut) && cut.seen < |cut.versions| && cut.versions[|cut.versions| - 1] == cut.w.c.stored
    ensures LagReaches(x, m) && m.w.c == cut.w.c && m.w.worker == Loaded(cut.w.c.stored)
  {
    var idle := Works(x, cut, Drop);
    m := IsGiven(x, idle, |idle.versions| - 1);
  }

  lemma KeyGone(c: Cluster, d: Cluster, r: Revert)
    requires r.reverts != [] && c.stored.reverts != [] && Last(r.reverts).oldClaims != []
    requires Last(c.stored.reverts).oldClaims == Last(r.reverts).oldClaims
    requires d == c.(claims := c.claims - {LastOf(r).oldClaims[0].Key()})
    ensures Last(d.stored.reverts).oldClaims == Last(r.reverts).oldClaims
    ensures Last(d.stored.reverts).oldClaims[0].Key() !in d.claims
  {
  }

  lemma IsGiven(x: LagWorld, m: LagWorld, k: nat) returns (n: LagWorld)
    requires LagReaches(x, m) && m.w.worker == Waiting && m.seen <= k < |m.versions|
    ensures LagReaches(x, n) && n == LagWorld(m.w.(worker := Loaded(m.versions[k])), m.versions, k)
  {
    LagReachesNext(x, m, LoadVersion(k));
    n := LagStep(m, LoadVersion(k)).value;
  }

  lemma Works(x: LagWorld, m: LagWorld, l: Label) returns (n: LagWorld)
    requires LagReaches(x, m) && !l.Load? && Step(m.w, l).Some? && !Writes(m.w, l)
    ensures LagReaches(x, n) && n == m.(w := Step(m.w, l).value)
  {
    LagReachesNext(x, m, Going(l));
    n := LagStep(m, Going(l)).value;
  }

  /** A worker that is given the old version again deletes a claim with its first call. */
  lemma RetryDeletes(x: LagWorld, stored: LagWorld, obs: Obs) returns (cut: LagWorld)
    requires LagReaches(x, stored) && stored.w.worker == Waiting && stored.seen < |stored.versions|
    requires StageOf(stored.versions[stored.seen]) == Restore
    requires LastOf(stored.versions[stored.seen]).oldClaims != []
    ensures LagReaches(x, cut) && cut.versions == stored.versions && cut.seen == stored.seen
    ensures var key := LastOf(stored.versions[stored.seen]).oldClaims[0].Key();
      cut.w.c == stored.w.c.(claims := stored.w.c.claims - {key})
  {
    var r := stored.versions[stored.seen];
    var again := IsGiven(x, stored, stored.seen);
    var begun := Works(x, again, Begin(obs));
    FirstDeletes(begun.w, r, obs);
    cut := Works(x, begun, Call);
  }

  lemma FirstDeletes(w: World, r: Revert, obs: Obs)
    requires StageOf(r) == Restore && LastOf(r).oldClaims != [] && w.worker == Busy(r, AllOps(r, obs), 0)
    ensures Step(w, Call).Some? && !Writes(w, Call)
    ensures Step(w, Call).value.c == w.c.(claims := w.c.claims - {LastOf(r).oldClaims[0].Key()})
  {
    RestoreAllOps(r, obs);
    FirstOf(AllOps(r, obs), LastOf(r).oldClaims, UpdateRevert(r, Advanced(r, Restore)));
  }

  lemma FirstOf(ops: seq<Op>, claims: seq<Claim>, last: Op)
    requires claims != [] && ops == RestoreOps(claims) + [last]
    ensures |ops| > 0 && ops[0] == DeletePVC(claims[0].Key())
  {
  }

  lemma StoresUndone(count: nat, x: LagWorld) returns (stored: LagWorld)
    requires Lag(count, x) && Completes(x.w, Restore) && x.w.worker.r == x.w.c.stored
    ensures LagStep(x, Going(Call)) == Some(stored) && Lag(count, stored) && stored.w.worker == Waiting
    ensures stored.seen == x.seen && stored.versions[stored.seen] == x.w.c.stored
    ensures TopIs(stored.w.c.stored.reverts, Undone)
    ensures Last(stored.w.c.stored.reverts).oldClaims == Last(x.w.c.stored.reverts).oldClaims
    ensures StageOf(x.w.c.stored) == Restore && x.w.c.stored.reverts != []
    ensures stored.versions[|stored.versions| - 1] == stored.w.c.stored && stored.seen < |stored.versions|
  {
    var Busy(r, ops, at) := x.w.worker;
    assert ops[at] in ops && TameOp(count, r, ops[at]) && TameAt(r, ops, at);
    UpdateKeepsLag(count, x);
    PausedStage(r);
    stored := LagStep(x, Going(Call)).value;
  }
}
