/** ProcessSnapshot in the form of pkg/manager/validator.go and pkg/manager/validator_helper.go. Whatever a worker does,
    together with what others do meanwhile, is a run of SnapshotArrivals. */
module SnapshotWorker {
  import opened Wrappers
  import opened Types
  import opened SnapshotArrivals
  import Selection

  /** getPVCsMap: every claim of the application, without a snapshot yet. */
  method GetPVCsMap(pvcs: seq<Claim>) returns (m: map<string, string>)
    ensures m == map n | n in Selection.Names(pvcs) :: ""
  {
    m := map[];
    for i := 0 to |pvcs|
      invariant m == map n | n in Selection.Names(pvcs[..i]) :: ""
    {
      Selection.NamesNext(pvcs, i);
      m := m[pvcs[i].name := ""];
    }
    assert pvcs[..|pvcs|] == pvcs;
  }

  predicate StepOf(l: Label, id: nat) {
    (l.Lock? || l.Match? || l.Write? || l.Unlock?) && l.id == id
  }

  predicate Filed(w: World) {
    forall n <- w.runs :: w.runs[n].name == n && n in w.names
  }

  lemma NextKeepsFiled(w: World, l: Label)
    requires Filed(w) && Enabled(w, l)
    ensures Filed(Next(w, l))
  {
  }

  /** Why a call fails: it or its answer is lost, or the step is not possible. */
  datatype Failure = Unanswered | Refused(w: World, l: Label)

  predicate Justified(f: Failure) { f.Refused? ==> !Enabled(f.w, f.l) }

  /** The run for a strategy without one: every listed claim, none with a snapshot yet. */
  ghost predicate FreshFor(run: Run, strategy: Strategy, listing: Option<seq<Claim>>) {
    && listing.Some?
    && run.claimsToSnapshots.Keys == (set c | c in listing.value :: c.name)
    && (forall c <- run.claimsToSnapshots :: run.claimsToSnapshots[c] == "")
    && run.owner == strategy.uid && run.namespace == strategy.namespace && strategy.name + "-" <= run.name
    && run == Run(run.namespace, run.name, run.owner, run.claimsToSnapshots, false, [], [], NOTHING_DONE)
  }

  /** The step at this index has stored the run with the snapshot that arrived: a new run, or the one there was. */
  ghost predicate Wrote(start: World, labels: seq<Label>, at: nat, run: Run, isNew: bool, snapshot: Snapshot) {
    && at < |labels| && Exec(start, labels[..at]).Some? && Exec(start, labels[..at + 1]).Some?
    && var before, after := Exec(start, labels[..at]).value, Exec(start, labels[..at + 1]).value;
    && (if isNew then run.name !in before.runs else run.name in before.runs && before.runs[run.name] == run)
    && snapshot.claim in run.claimsToSnapshots && run.name in after.runs
    && after.runs[run.name] == run.(claimsToSnapshots := run.claimsToSnapshots[snapshot.claim := snapshot.name])
  }

  /** The worker gives up on what it has matched: the claims of a new run cannot be listed, or the run has no such
      claim. */
  ghost predicate GivesUp(l: Label, id: nat, listing: Option<seq<Claim>>, claim: Option<string>) {
    && l.Match? && l.id == id
    && (|| (l.found.None? && listing.None?)
        || (claim.Some? && l.found.Some? && claim.value !in l.found.value.claimsToSnapshots)
        || (claim.Some? && l.found.None? && listing.Some? && forall c <- listing.value :: c.name != claim.value))
  }

  /** A new run needs a new name, and an update the version that was read. */
  lemma WritableIff(w: World, id: nat, run: Run, isNew: bool, snapshot: Snapshot)
    requires id in w.workers && w.workers[id].Matched? && isNew == w.workers[id].found.None?
    requires if isNew then snapshot.claim in w.workers[id].claims else w.workers[id].found == Some(run)
    requires snapshot.claim in run.claimsToSnapshots
    ensures Enabled(w, Write(id, snapshot.claim, snapshot.name, run.name)) <==>
            if isNew then run.name !in w.names else run.name in w.runs && w.runs[run.name] == run
  {
  }

  /** From this step on the worker has written nothing, except perhaps with that one. */
  predicate OnlyWrite(labels: seq<Label>, from: nat, id: nat, write: Option<nat>) {
    forall i | from <= i < |labels| && labels[i].Write? && labels[i].id == id :: write == Some(i)
  }

  lemma WriteComesLast(labels: seq<Label>, from: nat, id: nat, l: Label)
    requires forall i | from <= i < |labels| :: !StepOf(labels[i], id)
    ensures OnlyWrite(labels, from, id, None) && OnlyWrite(labels + [l], from, id, Some(|labels|))
  {
  }

  class Site {
    var w: World
    ghost const start: World
    ghost var labels: seq<Label>
    ghost var failures: seq<Failure>

    ghost predicate Valid()
      reads this
    {
      && Exec(start, labels) == Some(w) && Filed(w) && w.strategies == start.strategies
      && forall f <- failures :: Justified(f)
    }

    predicate Knows(strategy: Strategy)
      reads this
    {
      strategy.uid in w.strategies && w.strategies[strategy.uid] == strategy
    }

    /** The run has gone on. */
    twostate predicate Went()
      reads this
    {
      Valid() && old(labels) <= labels && old(failures) <= failures && w.strategies == old(w.strategies)
    }

    /** A call has failed since. */
    twostate predicate Hindered()
      reads this
    {
      old(failures) < failures
    }

    /** The worker has given up since. */
    twostate predicate GaveUp(id: nat, listing: Option<seq<Claim>>, claim: Option<string>)
      reads this
    {
      exists i | |old(labels)| <= i < |labels| :: GivesUp(labels[i], id, listing, claim)
    }

    /** The worker has written nothing since, except perhaps with this step. */
    twostate predicate WroteOnly(id: nat, new write: Option<nat>)
      reads this
    {
      OnlyWrite(labels, |old(labels)|, id, write)
    }

    constructor (w: World)
      requires Filed(w)
      ensures Valid() && this.w == w && start == w && labels == []
    {
      this.w, start, labels, failures := w, w, [], [];
    }

    method Step(l: Label)
      requires Valid() && Enabled(w, l)
      modifies this
      ensures Valid() && w == Next(old(w), l) && labels == old(labels) + [l] && w.strategies == old(w.strategies)
      ensures failures == old(failures)
    {
      assert (labels + [l])[..|labels|] == labels;
      NextKeepsFiled(w, l);
      w, labels := Next(w, l), labels + [l];
    }

    /** Whether a call or its answer is lost. */
    method Fails() returns (err: MaybeError)
      requires Valid()
      modifies this`failures
      ensures Valid() && failures == if err.Some? then old(failures) + [Unanswered] else old(failures)
    {
      var lost: bool := *;
      err := None;
      if lost {
        err := Fail(Unanswered);
      }
    }

    method Fail(ghost f: Failure) returns (err: MaybeError)
      requires Valid() && Justified(f)
      modifies this`failures
      ensures Valid() && err.Some? && failures == old(failures) + [f]
    {
      failures := failures + [f];
      err := Some(Failed);
    }

    /** Other workers, the revert controller and the users go on. */
    method Others(id: nat)
      requires Valid()
      modifies this
      ensures Went() && failures == old(failures)
      ensures id in w.workers <==> id in old(w.workers)
      ensures id in w.workers ==> w.workers[id] == old(w.workers)[id]
      ensures forall i | |old(labels)| <= i < |labels| :: !StepOf(labels[i], id)
    {
      var steps: int := *;
      for i := 0 to if steps < 0 then 0 else steps
        invariant Went() && failures == old(failures)
        invariant id in w.workers <==> id in old(w.workers)
        invariant id in w.workers ==> w.workers[id] == old(w.workers)[id]
        invariant forall i | |old(labels)| <= i < |labels| :: !StepOf(labels[i], id)
      {
        var l: Label := *;
        if !StepOf(l, id) && Enabled(w, l) {
          Step(l);
        }
      }
    }

    /** The first run in the order of the listing that is owned by the strategy with this UID. */
    method MatchRun(uid: string) returns (found: Option<Run>)
      requires Valid()
      ensures if found.Some? then found.value.name in w.runs && w.runs[found.value.name] == found.value
          && found.value.owner == uid
              else NoRunOf(w, uid)
    {
      found := None;
      var rest := w.runs.Keys;
      while rest != {}
        invariant rest <= w.runs.Keys
        invariant forall n <- w.runs :: n !in rest ==> w.runs[n].owner != uid
        decreases |rest|
      {
        var n :| n in rest;
        if w.runs[n].owner == uid {
          return Some(w.runs[n]);
        }
        rest := rest - {n};
      }
    }

    /** getRunForStrategy: the strategy's run, or else a new one that maps every listed claim to no snapshot. `listing`
        is the answer to the claim listing. */
    method GetRunForStrategy(id: nat, strategy: Strategy, listing: Option<seq<Claim>>)
      returns (run: Run, isNew: bool, err: MaybeError, ghost at: nat)
      requires Valid() && Knows(strategy) && id in w.workers && w.workers[id] == Holding(strategy.uid)
      modifies this
      ensures Went() && Knows(strategy) && id in w.workers && w.workers[id].strategy == strategy.uid
      ensures WroteOnly(id, None)
      ensures err.None? ==>
        && w.workers[id].Matched? && isNew == w.workers[id].found.None? && run.owner == strategy.uid
        && (!isNew ==> w.workers[id].found == Some(run))
        && (isNew ==> FreshFor(run, strategy, listing) && w.workers[id].claims == run.claimsToSnapshots.Keys)
      ensures err.None? ==>
        |old(labels)| <= at < |labels| && labels[at].Match? && labels[at].id == id
          && labels[at].found == if isNew then None else Some(run)
      ensures err.Some? ==> Hindered() || GaveUp(id, listing, None)
    {
      run, isNew, at := Run("", "", "", map[], false, [], [], NOTHING_DONE), false, 0;
      Others(id);
      err := Fails();
      if err.Some? {
        return;
      }
      var found := MatchRun(strategy.uid);
      if found.Some? {
        Step(Match(id, found, {}));
        at := |labels| - 1;
        Others(id);
        return found.value, false, None, at;
      }
      var claims := if listing.Some? then Selection.Names(listing.value) else {};
      Step(Match(id, None, claims));
      at := |labels| - 1;
      Others(id);
      if listing.None? {
        assert GivesUp(labels[at], id, listing, None);
        return run, isNew, Some(Failed), at;
      }
      var pvcs := GetPVCsMap(listing.value);
      var uuid: string := *;
      run, isNew, err := Run(strategy.namespace, strategy.name + "-" + uuid, strategy.uid, pvcs, false, [], [],
        NOTHING_DONE), true, None;
    }

    /** updateRun: set the entry of the snapshot's claim and create or update the run. */
    method UpdateRun(id: nat, run: Run, snapshot: Snapshot, isNew: bool)
        returns (err: MaybeError, ghost write: Option<nat>)
      requires Valid() && id in w.workers && w.workers[id].Matched? && isNew == w.workers[id].found.None?
      requires !isNew ==> w.workers[id].found == Some(run)
      requires isNew ==>
        run == Run(NamespaceOf(w, w.workers[id].strategy), run.name, w.workers[id].strategy,
          map c | c in w.workers[id].claims :: "", false, [], [], NOTHING_DONE)
      modifies this
      ensures Went() && id in w.workers && w.workers[id].strategy == old(w.workers)[id].strategy
      ensures WroteOnly(id, write) && (err.None? ==> write.Some?)
      ensures write.Some? ==>
        && |old(labels)| <= write.value < |labels|
        && labels[write.value] == Write(id, snapshot.claim, snapshot.name, run.name)
        && Wrote(start, labels, write.value, run, isNew, snapshot)
      ensures err.Some? ==> Hindered() || (snapshot.claim !in run.claimsToSnapshots && write.None?)
    {
      var pvc := snapshot.claim;
      write := None;
      if pvc !in run.claimsToSnapshots {
        return Some(Failed), write;
      }
      Others(id);
      err := Fails();
      if err.Some? {
        return;
      }
      WritableIff(w, id, run, isNew, snapshot);
      if if isNew then run.name in w.names else run.name !in w.runs || w.runs[run.name] != run {
        err := Fail(Refused(w, Write(id, pvc, snapshot.name, run.name)));
        return;
      }
      write := Some(|labels|);
      WriteComesLast(labels, |old(labels)|, id, Write(id, pvc, snapshot.name, run.name));
      Put(id, run, snapshot, isNew);
      err := Fails();
    }

    /** The server takes the run with the new entry. */
    method Put(id: nat, run: Run, snapshot: Snapshot, isNew: bool)
      requires Valid() && Enabled(w, Write(id, snapshot.claim, snapshot.name, run.name))
      requires isNew == w.workers[id].found.None? && snapshot.claim in run.claimsToSnapshots
      requires !isNew ==> w.workers[id].found == Some(run)
      requires isNew ==>
        run == Run(NamespaceOf(w, w.workers[id].strategy), run.name, w.workers[id].strategy,
          map c | c in w.workers[id].claims :: "", false, [], [], NOTHING_DONE)
      modifies this
      ensures Went() && id in w.workers && w.workers[id].strategy == old(w.workers)[id].strategy
      ensures labels == old(labels) + [Write(id, snapshot.claim, snapshot.name, run.name)]
      ensures failures == old(failures) && Wrote(start, labels, |old(labels)|, run, isNew, snapshot)
    {
      ghost var before := labels;
      Step(Write(id, snapshot.claim, snapshot.name, run.name));
      assert labels[..|before|] == before && labels[..|before| + 1] == labels;
    }

    /** ProcessSnapshot, with the strategy found for the snapshot. A worker that never gets the mutex does not return;
        here it gives up. A successful processing has written the snapshot once if the strategy triggers, and nothing
        otherwise: to the run there was, or to a new one with exactly the listed claims. */
    method ProcessSnapshot(id: nat, snapshot: Snapshot, strategy: Option<Strategy>, listing: Option<seq<Claim>>)
        returns (err: MaybeError, ghost run: Run, ghost isNew: bool, ghost write: Option<nat>)
      requires Valid() && id !in w.workers && (strategy.Some? ==> Knows(strategy.value))
      modifies this
      ensures Went() && id !in w.workers
      ensures WroteOnly(id, write)
      ensures err.None? ==> strategy.Some? && (write.Some? <==> strategy.value.autoTrigger)
      ensures write.Some? ==>
        && strategy.Some? && strategy.value.autoTrigger && |old(labels)| <= write.value < |labels|
        && labels[write.value] == Write(id, snapshot.claim, snapshot.name, run.name)
        && Wrote(start, labels, write.value, run, isNew, snapshot)
        && run.owner == strategy.value.uid && (isNew ==> FreshFor(run, strategy.value, listing))
      ensures err.Some? ==>
        || strategy.None? || Hindered()
        || GaveUp(id, listing, if strategy.value.autoTrigger then Some(snapshot.claim) else None)
    {
      run, isNew, write := Run("", "", "", map[], false, [], [], NOTHING_DONE), false, None;
      if strategy.None? {
        return Some(Failed), run, isNew, write;
      }
      var mutexId := MutexId(strategy.value);
      Others(id);
      if mutexId in w.locks {
        err := Fail(Refused(w, Lock(id, strategy.value.uid)));
        return;
      }
      Step(Lock(id, strategy.value.uid));
      err, run, isNew, write := ProcessLocked(id, snapshot, strategy.value, listing);
      ghost var before := labels;
      Step(Unlock(id));
      if write.Some? {
        assert labels[..write.value] == before[..write.value] && labels[..write.value + 1] == before[..write.value + 1];
      }
    }

    /** What ProcessSnapshot does while it holds the mutex. */
    method ProcessLocked(id: nat, snapshot: Snapshot, strategy: Strategy, listing: Option<seq<Claim>>)
      returns (err: MaybeError, ghost run: Run, ghost isNew: bool, ghost write: Option<nat>)
      requires Valid() && Knows(strategy) && id in w.workers && w.workers[id] == Holding(strategy.uid)
      modifies this
      ensures Went() && id in w.workers
      ensures WroteOnly(id, write)
      ensures err.None? ==> (write.Some? <==> strategy.autoTrigger)
      ensures write.Some? ==>
        && strategy.autoTrigger && |old(labels)| <= write.value < |labels|
        && labels[write.value] == Write(id, snapshot.claim, snapshot.name, run.name)
        && Wrote(start, labels, write.value, run, isNew, snapshot)
        && run.owner == strategy.uid && (isNew ==> FreshFor(run, strategy, listing))
      ensures err.Some? ==>
        Hindered() || GaveUp(id, listing, if strategy.autoTrigger then Some(snapshot.claim) else None)
    {
      write := None;
      var got, isNew';
      ghost var at;
      got, isNew', err, at := GetRunForStrategy(id, strategy, listing);
      run, isNew := got, isNew';
      if err.None? && strategy.autoTrigger {
        err, write := UpdateRun(id, got, snapshot, isNew');
        if snapshot.claim !in got.claimsToSnapshots {
          assert GivesUp(labels[at], id, listing, Some(snapshot.claim));
        }
      }
    }
  }
}
