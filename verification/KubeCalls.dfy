/** The cluster as the revert controller sees it (pkg/manager/controller_kube_calls.go): an object whose calls may fail,
    with or without effect, and to which other things happen before every call and between two polls of a wait. */
module KubeCalls {
  import opened Wrappers
  import opened Types
  import opened RevertCluster
  import opened Following

  /** One entry of the history of a cluster. */
  datatype Happening = Took(op: Op) | Meanwhile(e: Event)

  ghost function After(c: Cluster, h: Happening): Option<Cluster> {
    match h
    case Took(op) => if Accepts(c, op) then Some(Effect(c, op)) else None
    case Meanwhile(e) => if Possible(c, e) then Some(Change(c, e)) else None
  }

  /** The cluster a history leads to, if each entry is possible where it stands. */
  ghost function Replay(c: Cluster, history: seq<Happening>): Option<Cluster> {
    if history == [] then Some(c)
    else
      var mid := Replay(c, history[..|history| - 1]);
      if mid.None? then None else After(mid.value, history[|history| - 1])
  }

  /** The calls in a history, oldest first. */
  function Calls(history: seq<Happening>): seq<Op> {
    if history == [] then []
    else
      Calls(history[..|history| - 1])
      + match history[|history| - 1] { case Took(op) => [op] case Meanwhile(_) => [] }
  }

  lemma Extend(c: Cluster, history: seq<Happening>, h: Happening)
    ensures Replay(c, history + [h]) == if Replay(c, history).Some? then After(Replay(c, history).value, h) else None
    ensures Calls(history + [h]) == if h.Took? then Calls(history) + [h.op] else Calls(history)
  {
    assert (history + [h])[..|history|] == history;
  }

  /** Claims and runs are filed under their own names. */
  predicate InOrder(c: Cluster) {
    (forall k <- c.claims :: c.claims[k].Key() == k) && Named(c.runs)
  }

  lemma EffectKeepsOrder(c: Cluster, op: Op)
    requires InOrder(c) && Accepts(c, op)
    ensures InOrder(Effect(c, op)) && Effect(c, op).sts.selector == c.sts.selector
  {
  }

  lemma EventKeepsOrder(c: Cluster, e: Event)
    requires InOrder(c) && Possible(c, e)
    ensures InOrder(Change(c, e)) && Change(c, e).sts.selector == c.sts.selector
  {
  }

  /** The listing of some of the claims grows with one more of them. */
  lemma ListsOneMore(found: seq<Claim>, claims: map<Key, Claim>, rest: set<Key>, k: Key, selector: Labels)
    requires (forall j <- claims :: claims[j].Key() == j) && k in rest && k in claims
    requires Lists(found, Without(claims, rest), selector)
    ensures Lists(if Matches(selector, claims[k].labels) then found + [claims[k]]
        else found, Without(claims, rest - {k}), selector)
  {
    var some, all := Without(claims, rest), Without(claims, rest - {k});
    assert forall j <- all :: j == k || (j in some && some[j] == all[j]);
    if Matches(selector, claims[k].labels) {
      var more := found + [claims[k]];
      assert forall c :: c in more <==> c in found || c == claims[k];
      forall i, j | 0 <= i < j < |more| ensures more[i].Key() != more[j].Key() {
        assert more[i] == found[i] && found[i] in found;
      }
    }
  }

  /** A listing has just the claims that carry every label of the selector. */
  lemma ListsThese(found: seq<Claim>, claims: map<Key, Claim>, selector: Labels)
    requires Lists(found, claims, selector) && forall k <- claims :: claims[k].Key() == k
    ensures forall c <- found :: c.Key() in claims && claims[c.Key()] == c
    ensures forall k <- claims ::
      claims[k] in found <==> forall l <- selector :: l in claims[k].labels && claims[k].labels[l] == selector[l]
  {
  }

  function Without(claims: map<Key, Claim>, rest: set<Key>): map<Key, Claim> {
    map k | k in claims && k !in rest :: claims[k]
  }

  /** How often wait.PollImmediate looks, every ten seconds for ten minutes. */
  const POLLS := 61

  /** Why a call fails: a read gets no answer, a request or its answer is lost, the cluster is not as the call needs it,
      or what is waited for holds at none of the looks. */
  datatype Failure =
    | Unanswered
    | Lost(op: Op)
    | Refused(op: Op, c: Cluster)
    | TimedOut(op: Op, looks: seq<Cluster>)

  ghost predicate Justified(f: Failure) {
    match f
    case Unanswered => true
    case Lost(_) => true
    case Refused(op, c) => !Accepts(c, op)
    case TimedOut(op, looks) => |looks| == POLLS && forall c <- looks :: !Accepts(c, op)
  }

  /** The one failure that is ignored: a lost request to scale up. */
  predicate Overlooked(f: Failure) {
    f.Lost? && f.op.ScaleTo? && f.op.count > 0
  }

  class KubeCalls {
    var cluster: Cluster
    ghost const start: Cluster
    ghost var history: seq<Happening>
    ghost var calls: seq<Op>
    ghost var requests: seq<Op>   // every change asked for, whether it took effect or not
    ghost var failures: seq<Failure>

    ghost predicate Valid()
      reads this
    {
      && Replay(start, history) == Some(cluster) && calls == Calls(history)
      && (forall f <- failures :: Justified(f))
      && cluster.sts.selector == start.sts.selector
      && InOrder(cluster)
    }

    /** The calls issued since are those planned, up to a cut. */
    twostate predicate Did(planned: seq<Op>, complete: bool)
      reads this
    {
      && Valid() && old(history) <= history && old(requests) <= requests && old(failures) <= failures
      && Followed(old(calls), calls, planned, complete)
    }

    /** A call has failed since, and the last failure is not one that is ignored. */
    twostate predicate Hindered()
      reads this
    {
      old(failures) < failures && !Overlooked(failures[|failures| - 1])
    }

    /** This is the last call, and it was made since. */
    twostate predicate Ended(op: Op)
      reads this
    {
      |old(calls)| < |calls| && calls[|calls| - 1] == op
    }

    constructor (c: Cluster)
      requires InOrder(c)
      ensures Valid() && cluster == c && start == c && history == []
    {
      cluster, start, history, calls, requests, failures := c, c, [], [], [], [];
    }

    /** Anything else may happen. */
    method Pass()
      requires Valid()
      modifies this
      ensures Did([], true) && failures == old(failures) && requests == old(requests)
    {
      var steps: int := *;
      for i := 0 to if steps < 0 then 0 else steps
        invariant Did([], true) && failures == old(failures) && requests == old(requests)
      {
        var e: Event := *;
        if Possible(cluster, e) {
          Extend(start, history, Meanwhile(e));
          EventKeepsOrder(cluster, e);
          cluster, history := Change(cluster, e), history + [Meanwhile(e)];
        }
      }
    }

    /** The server takes the call. */
    method Take(op: Op)
      requires Valid() && Accepts(cluster, op)
      modifies this
      ensures Did([op], true) && requests == old(requests) && failures == old(failures)
      ensures cluster == Effect(old(cluster), op)
    {
      Extend(start, history, Took(op));
      EffectKeepsOrder(cluster, op);
      cluster, history, calls := Effect(cluster, op), history + [Took(op)], calls + [op];
    }

    /** Whether a request comes through, or its answer does. */
    method Fails(ghost f: Failure) returns (err: MaybeError)
      requires Valid() && Justified(f)
      modifies this`failures
      ensures Valid() && failures == if err.Some? then old(failures) + [f] else old(failures)
    {
      var lost: bool := *;
      err := None;
      if lost {
        err := Fail(f);
      }
    }

    /** The call fails, for this reason. */
    method Fail(ghost f: Failure) returns (err: MaybeError)
      requires Valid() && Justified(f)
      modifies this`failures
      ensures Valid() && err.Some? && failures == old(failures) + [f]
    {
      failures := failures + [f];
      err := Some(Failed);
    }

    /** A request that changes something: it may get lost, be refused, or take effect although the answer is lost. */
    method Send(op: Op, refused: bool) returns (err: MaybeError)
      requires Valid() && (refused <==> !Accepts(cluster, op))
      modifies this
      ensures Did([op], err.None?)
      ensures refused ==> err.Some?
      ensures requests == old(requests) + [op]
      ensures err.None? ==> failures == old(failures)
      ensures err.Some? ==>
        || failures == old(failures) + [Lost(op)]
        || (refused && failures == old(failures) + [Refused(op, old(cluster))])
    {
      requests := requests + [op];
      err := Fails(Lost(op));
      if err.None? {
        if refused {
          err := Fail(Refused(op, cluster));
          return Some(AlreadyExists);
        }
        Take(op);
        err := Fails(Lost(op));
      }
    }

    method GetSts() returns (sts: StatefulSet, err: MaybeError)
      requires Valid()
      modifies this
      ensures Did([ReadSts(sts.replicas)], err.None?) && sts.selector == start.sts.selector
      ensures requests == old(requests)
      ensures err.Some? ==> Hindered()
    {
      Pass();
      err := Fails(Unanswered);
      sts := cluster.sts;
      if err.None? {
        Take(ReadSts(sts.replicas));
      }
    }

    /** The lister returns the matching claims in any order. */
    method ListPVCs(selector: Labels) returns (found: seq<Claim>, err: MaybeError)
      requires Valid() && selector == start.sts.selector
      modifies this
      ensures Did([ListClaims(found)], err.None?)
      ensures err.None? ==>
        && (forall c <- found :: c.Key() in cluster.claims && cluster.claims[c.Key()] == c)
        && (forall k <- cluster.claims ::
              cluster.claims[k] in found <==>
                forall l <- selector :: l in cluster.claims[k].labels && cluster.claims[k].labels[l] == selector[l])
      ensures err.Some? ==> Hindered()
    {
      found := [];
      Pass();
      err := Fails(Unanswered);
      if err.None? {
        found := Matching(selector);
        ListsThese(found, cluster.claims, selector);
        Take(ListClaims(found));
      }
    }

    method Matching(selector: Labels) returns (found: seq<Claim>)
      requires InOrder(cluster)
      ensures Lists(found, cluster.claims, selector)
    {
      found := [];
      var rest := cluster.claims.Keys;
      while rest != {}
        invariant rest <= cluster.claims.Keys
        invariant Lists(found, Without(cluster.claims, rest), selector)
        decreases |rest|
      {
        var k :| k in rest;
        ListsOneMore(found, cluster.claims, rest, k, selector);
        if Matches(selector, cluster.claims[k].labels) {
          found := found + [cluster.claims[k]];
        }
        rest := rest - {k};
      }
      assert cluster.claims == Without(cluster.claims, rest);
    }

    /** Entries of the store that are no snapshots are left out and reported. */
    method TypedSnapshots() returns (list: seq<Snapshot>, failed: bool)
      ensures ListsSnapshots(list, failed, cluster.snapshots)
    {
      list, failed := [], false;
      for i := 0 to |cluster.snapshots|
        invariant forall s <- list :: s in cluster.snapshots
        invariant !failed ==> forall s <- cluster.snapshots[..i] :: s in list
      {
        var typed: bool := *;
        if typed {
          list := list + [cluster.snapshots[i]];
        } else {
          failed := true;
        }
      }
    }

    method ListSnapshots() returns (list: seq<Snapshot>, failed: bool)
      requires Valid()
      modifies this
      ensures Did([Op.ListSnapshots(list, failed)], true) && (failed ==> Hindered())
    {
      Pass();
      list := [];
      var err := Fails(Unanswered);
      failed := err.Some?;
      if !failed {
        list, failed := TypedSnapshots();
        if failed {
          err := Fail(Unanswered);
        }
      }
      Take(Op.ListSnapshots(list, failed));
    }

    method SetStsReplica(count: nat) returns (err: MaybeError)
      requires Valid()
      modifies this
      ensures Did([ScaleTo(count)], err.None?)
      ensures Did([ScaleTo(count)], true) || Did([], true)
      ensures |requests| > |old(requests)| && requests[|requests| - 1] == ScaleTo(count)
      ensures failures == if err.Some? then old(failures) + [Lost(ScaleTo(count))] else old(failures)
    {
      Pass();
      err := Send(ScaleTo(count), false);
    }

    method WaitPodsDeleted() returns (err: MaybeError)
      requires Valid()
      modifies this
      ensures Did([AwaitNoPods], err.None?) && requests == old(requests)
      ensures err.Some? ==> Hindered()
    {
      ghost var looks := [];
      for i := 0 to POLLS
        invariant Did([], true) && requests == old(requests)
        invariant |looks| == i && forall c <- looks :: !Accepts(c, AwaitNoPods)
      {
        Pass();
        if cluster.pods == 0 {
          Take(AwaitNoPods);
          return None;
        }
        looks := looks + [cluster];
      }
      err := Fail(TimedOut(AwaitNoPods, looks));
    }

    /** PodsReady counts against the replicas of the StatefulSet as it was read; none means one. */
    method WaitPodsReady(sts: StatefulSet) returns (err: MaybeError)
      requires Valid()
      modifies this
      ensures Did([AwaitPods(if sts.replicas.Some? then sts.replicas.value else 1)], err.None?)
      ensures err.Some? ==> Hindered()
    {
      var replicas: nat := if sts.replicas.Some? then sts.replicas.value else 1;
      ghost var looks := [];
      for i := 0 to POLLS
        invariant Did([], true)
        invariant |looks| == i && forall c <- looks :: !Accepts(c, AwaitPods(replicas))
      {
        Pass();
        if cluster.pods == replicas && cluster.running == cluster.pods {
          Take(AwaitPods(replicas));
          return None;
        }
        looks := looks + [cluster];
      }
      err := Fail(TimedOut(AwaitPods(replicas), looks));
    }

    method GetPV(volume: string) returns (pv: Volume, err: MaybeError)
      requires Valid()
      modifies this
      ensures Did([Op.GetPV(volume, pv)], err.None?)
      ensures err.Some? ==> Hindered()
    {
      Pass();
      pv := Volume(false, None);
      err := Fails(Unanswered);
      if err.None? {
        if volume !in cluster.volumes {
          err := Fail(Refused(Op.GetPV(volume, pv), cluster));
          return;
        }
        pv := cluster.volumes[volume];
        Take(Op.GetPV(volume, pv));
      }
    }

    method UpdatePV(volume: string, read: Volume, write: Volume) returns (err: MaybeError)
      requires Valid()
      modifies this
      ensures Did([Op.UpdatePV(volume, read, write)], err.None?)
      ensures err.Some? ==> Hindered()
    {
      Pass();
      err := Send(Op.UpdatePV(volume, read, write), volume !in cluster.volumes || cluster.volumes[volume] != read);
    }

    /** Deleting a claim that is not there succeeds. */
    method DeletePVC(pvc: Claim) returns (err: MaybeError)
      requires Valid()
      modifies this
      ensures Did([Op.DeletePVC(pvc.Key())], err.None?)
      ensures err.Some? ==> Hindered()
    {
      Pass();
      if pvc.Key() !in cluster.claims {
        Take(Op.DeletePVC(pvc.Key()));
        return None;
      }
      err := Send(Op.DeletePVC(pvc.Key()), false);
    }

    method CreatePVC(pvc: Claim) returns (err: MaybeError)
      requires Valid()
      modifies this
      ensures Did([Op.CreatePVC(pvc)], err.None?)
      ensures err.Some? ==> Hindered()
    {
      Pass();
      err := Send(Op.CreatePVC(pvc), pvc.Key() in cluster.claims);
    }

    method PvcsBound(pvcs: seq<Claim>) returns (bound: bool)
      ensures bound == AllBound(Keys(pvcs), cluster.claims)
    {
      ghost var keys := Keys(pvcs);
      for i := 0 to |pvcs|
        invariant AllBound(keys[..i], cluster.claims)
      {
        assert keys[i] in keys;
        if pvcs[i].Key() !in cluster.claims || !cluster.claims[pvcs[i].Key()].bound {
          return false;
        }
      }
      assert keys[..|pvcs|] == keys;
      bound := true;
    }

    method WaitPvcsBound(pvcs: seq<Claim>) returns (err: MaybeError)
      requires Valid()
      modifies this
      ensures Did([AwaitBound(Keys(pvcs))], err.None?)
      ensures err.Some? ==> Hindered()
    {
      ghost var looks := [];
      for i := 0 to POLLS
        invariant Did([], true)
        invariant |looks| == i && forall c <- looks :: !Accepts(c, AwaitBound(Keys(pvcs)))
      {
        Pass();
        var bound := PvcsBound(pvcs);
        if bound {
          Take(AwaitBound(Keys(pvcs)));
          return None;
        }
        looks := looks + [cluster];
      }
      err := Fail(TimedOut(AwaitBound(Keys(pvcs)), looks));
    }

    method GetStrategy(name: string) returns (err: MaybeError)
      requires Valid()
      modifies this
      ensures Did([], true)
      ensures err.Some? ==> Hindered()
    {
      Pass();
      err := Fails(Unanswered);
    }

    /** The first run of the strategy in the order of the listing. */
    method MatchRun(strategy: string) returns (found: Option<Run>, err: MaybeError)
      requires Valid()
      modifies this
      ensures Did([SeeRun(strategy, found)], err.None?) && (err.Some? ==> calls == old(calls))
      ensures err.Some? ==> Hindered()
    {
      found := None;
      Pass();
      err := Fails(Unanswered);
      if err.Some? {
        return;
      }
      var rest := cluster.runs.Keys;
      while rest != {} && found.None?
        invariant rest <= cluster.runs.Keys
        invariant found.None? ==> forall n <- cluster.runs :: n !in rest ==> cluster.runs[n].owner != strategy
        invariant found.Some? ==> SeesRun(strategy, found, cluster.runs)
        decreases |rest|
      {
        var n :| n in rest;
        if cluster.runs[n].owner == strategy {
          found := Some(cluster.runs[n]);
        }
        rest := rest - {n};
      }
      Take(SeeRun(strategy, found));
    }

    method CreateValidationRun(run: Run) returns (err: MaybeError)
      requires Valid()
      modifies this
      ensures Did([CreateRun(run)], err.None?)
      ensures err.Some? ==> Hindered()
    {
      Pass();
      err := Send(CreateRun(run), run.name in cluster.runs);
    }

    method RunIsThere(name: string) returns (err: MaybeError)
      requires Valid()
      modifies this`failures
      ensures Did([], true) && calls == old(calls) && (err.None? ==> failures == old(failures) && name in cluster.runs)
      ensures err.Some? ==> Hindered()
    {
      err := Fails(Unanswered);
      if err.None? && name !in cluster.runs {
        err := Fail(Refused(AwaitFinished(name), cluster));
      }
    }

    method WaitValidationFinished(name: string) returns (err: MaybeError)
      requires Valid()
      modifies this
      ensures Did([AwaitFinished(name)], err.None?)
      ensures err.Some? ==> Hindered()
    {
      ghost var looks := [];
      for i := 0 to POLLS
        invariant Did([], true)
        invariant |looks| == i && forall c <- looks :: !Accepts(c, AwaitFinished(name))
      {
        Pass();
        err := RunIsThere(name);
        if err.Some? {
          return;
        }
        if cluster.runs[name].status.validationFinished {
          Take(AwaitFinished(name));
          return None;
        }
        looks := looks + [cluster];
      }
      err := Fail(TimedOut(AwaitFinished(name), looks));
    }

    method GetRun(name: string) returns (run: Run, err: MaybeError)
      requires Valid()
      modifies this
      ensures Did([], true) && (err.None? ==> run.name == name)
      ensures err.Some? ==> Hindered()
    {
      run := Run("", name, "", map[], false, [], [], NOTHING_DONE);
      Pass();
      err := RunIsThere(name);
      if err.None? {
        run := cluster.runs[name];
      }
    }

    /** The update of a run whose copy differs in the cleanup flag only. */
    method UpdateValidationRun(read: Run) returns (err: MaybeError)
      requires Valid()
      modifies this
      ensures Did([RequestCleanup(read)], err.None?)
      ensures err.Some? ==> Hindered()
    {
      Pass();
      err := Send(RequestCleanup(read), read.name !in cluster.runs || cluster.runs[read.name] != read);
    }

    method UpdateRevert(read: Revert, write: Revert) returns (err: MaybeError)
      requires Valid()
      modifies this
      ensures Did([Op.UpdateRevert(read, write)], err.None?)
      ensures err.Some? ==> Hindered()
    {
      Pass();
      err := Send(Op.UpdateRevert(read, write), cluster.stored != read);
    }
  }
}
