/** The cluster as the validation controller sees it (pkg/manager/controller_kube_calls.go): before every call and
    between two polls of a wait it may have changed in any way. */
module RunCalls {
  import opened Wrappers
  import opened Types
  import opened RunPlan
  import opened Following

  /** A call and the state of the cluster it was issued in. */
  datatype Moment = Moment(site: Site, act: Act)

  const POLLS := 61

  /** Why a call fails: a read gets no answer, an object cannot be read, a request or its answer is lost, the cluster is
      not as the call needs it, or what is waited for holds at none of the looks. */
  datatype Failure =
    | Unanswered
    | Unreadable(text: string)
    | Lost(act: Act)
    | Refused(act: Act, site: Site)
    | TimedOut(act: Act, looks: seq<Site>)

  ghost predicate Justified(f: Failure) {
    match f
    case Refused(act, site) => !Accepts(site, act)
    case TimedOut(act, looks) => |looks| == POLLS && forall s <- looks :: !Accepts(s, act)
    case _ => true
  }

  /** Failures that are ignored: the deletions of a cleanup. */
  predicate Overlooked(f: Failure) {
    f.Lost? && (f.act.DeleteRun? || f.act.DeleteClaim?)
  }

  function ActsOf(history: seq<Moment>): (acts: seq<Act>)
    ensures |acts| == |history|
  {
    seq(|history|, i requires 0 <= i < |history| => history[i].act)
  }

  class KubeCalls {
    var site: Site
    ghost var history: seq<Moment>
    ghost var acts: seq<Act>
    ghost var requests: seq<Act>   // every change asked for, whether it took effect or not
    ghost var failures: seq<Failure>

    /** Every call was one the server takes in the state it was issued in. */
    ghost predicate Valid()
      reads this
    {
      && acts == ActsOf(history) && (forall m <- history :: Accepts(m.site, m.act))
      && forall f <- failures :: Justified(f)
    }

    /** The calls issued since are those planned, up to a cut. */
    twostate predicate Did(planned: seq<Act>, complete: bool)
      reads this
    {
      && Valid() && old(history) <= history && old(requests) <= requests && old(failures) <= failures
      && Followed(old(acts), acts, planned, complete)
    }

    /** A call has failed since, and the last failure is not one that is ignored. */
    twostate predicate Hindered()
      reads this
    {
      old(failures) < failures && !Overlooked(failures[|failures| - 1])
    }

    /** This is the last call, and it was made since. */
    twostate predicate Ended(act: Act)
      reads this
    {
      |old(acts)| < |acts| && acts[|acts| - 1] == act
    }

    constructor (s: Site)
      ensures Valid() && site == s && acts == []
    {
      site, history, acts, requests, failures := s, [], [], [], [];
    }

    method Pass()
      requires Valid()
      modifies this`site
      ensures Did([], true)
    {
      site := *;
    }

    /** The server takes the call. */
    method Take(act: Act)
      requires Valid() && Accepts(site, act)
      modifies this
      ensures Did([act], true) && site == Effect(old(site), act) && requests == old(requests)
      ensures failures == old(failures)
      ensures history == old(history) + [Moment(old(site), act)]
    {
      assert ActsOf(history + [Moment(site, act)]) == acts + [act];
      history, acts := history + [Moment(site, act)], acts + [act];
      site := Effect(site, act);
    }

    method Fails(ghost f: Failure) returns (err: MaybeError)
      requires Valid() && Justified(f)
      modifies this`failures
      ensures Valid() && failures == if err.Some? then old(failures) + [f] else old(failures)
      ensures err.Some? ==> err.value == Failed
    {
      var lost: bool := *;
      err := None;
      if lost {
        err := Fail(f);
      }
    }

    /** The call fails, for this reason. */
    method Fail(ghost f: Failure) returns (err: MaybeError)
      requires Valid() && Justified(f)
      modifies this`failures
      ensures Valid() && err == Some(Failed) && failures == old(failures) + [f]
    {
      failures := failures + [f];
      err := Some(Failed);
    }

    /** A request that may get lost, or take effect although the answer is lost. */
    method Send(act: Act) returns (err: MaybeError)
      requires Valid() && Accepts(site, act)
      modifies this
      ensures Did([act], err.None?) && (Did([act], true) || Did([], true))
      ensures err.Some? ==> err.value == Failed
      ensures requests == old(requests) + [act]
      ensures failures == if err.Some? then old(failures) + [Lost(act)] else old(failures)
    {
      requests := requests + [act];
      err := Fails(Lost(act));
      if err.None? {
        Take(act);
        err := Fails(Lost(act));
      }
    }

    method FindStrategy(owner: string) returns (found: Option<Strategy>, err: MaybeError)
      requires Valid()
      modifies this
      ensures Did([Act.FindStrategy(owner, found)], err.None?)
      ensures err.Some? ==> Hindered()
    {
      found := None;
      Pass();
      err := Fails(Unanswered);
      if err.None? {
        found := Lookup(site.strategies, owner);
        Take(Act.FindStrategy(owner, found));
      }
    }

    /** The objects of the strategy go through the kustomize build; its output is not interpreted. */
    method Build(run: string) returns (out: seq<string>, err: MaybeError)
      requires Valid()
      modifies this
      ensures Did([Act.Build(run, out)], err.None?)
      ensures err.Some? ==> Hindered()
    {
      out := [];
      Pass();
      err := Fails(Unanswered);
      if err.None? {
        out := *;
        Take(Act.Build(run, out));
      }
    }

    method GetPVC(key: Key) returns (claim: Claim, err: MaybeError)
      requires Valid()
      modifies this
      ensures Did([Act.GetPVC(key, claim)], err.None?)
      ensures err.Some? ==> Hindered()
    {
      claim := Claim("", "", map[], map[], ClaimSpec(None, [], "", ""), false, 0);
      Pass();
      err := Fails(Unanswered);
      if err.None? {
        if key !in site.claims {
          err := Fail(Refused(Act.GetPVC(key, claim), site));
          return;
        }
        claim := site.claims[key];
        Take(Act.GetPVC(key, claim));
      }
    }

    /** A lookup whose answer the model does not need: it succeeds or not. */
    method Consult() returns (err: MaybeError)
      requires Valid()
      modifies this
      ensures Did([], true)
      ensures err.Some? ==> Hindered()
    {
      Pass();
      err := Fails(Unanswered);
    }

    method CreatePVC(claim: Claim) returns (err: MaybeError)
      requires Valid()
      modifies this
      ensures Did([EnsureClaim(claim)], err != Some(Failed))
      ensures err == Some(Failed) ==> Hindered()
    {
      Pass();
      var present := claim.Key() in site.claims;
      err := Send(EnsureClaim(claim));
      if err.None? && present {
        err := Some(AlreadyExists);
      }
    }

    method WaitPvcsBound(pvcs: seq<Claim>) returns (err: MaybeError)
      requires Valid()
      modifies this
      ensures Did([AwaitClaims(KeysOf(pvcs))], err.None?)
      ensures err.Some? ==> Hindered()
    {
      ghost var looks := [];
      for i := 0 to POLLS
        invariant Did([], true)
        invariant |looks| == i && forall s <- looks :: !Accepts(s, AwaitClaims(KeysOf(pvcs)))
      {
        Pass();
        if forall k <- KeysOf(pvcs) :: k in site.claims && site.claims[k].bound {
          Take(AwaitClaims(KeysOf(pvcs)));
          return None;
        }
        looks := looks + [site];
      }
      err := Fail(TimedOut(AwaitClaims(KeysOf(pvcs)), looks));
    }

    method CreateUnstructuredObject(text: string) returns (err: MaybeError)
      requires Valid()
      modifies this
      ensures Did([CreateObject(text)], err.None?) && (Did([CreateObject(text)], true) || Did([], true))
      ensures requests == old(requests) + [CreateObject(text)] && (err.None? ==> failures == old(failures))
      ensures err.Some? ==> Hindered()
    {
      Pass();
      err := Send(CreateObject(text));
    }

    method CreateJob(job: string) returns (err: MaybeError)
      requires Valid()
      modifies this
      ensures Did([EnsureJob(job)], err != Some(Failed)) && requests == old(requests) + [EnsureJob(job)]
      ensures err == Some(Failed) ==> Hindered()
    {
      Pass();
      var present := job in site.jobs;
      err := Send(EnsureJob(job));
      if err.None? && present {
        err := Some(AlreadyExists);
      }
    }

    method WaitJobSucceeded(job: string) returns (err: MaybeError)
      requires Valid()
      modifies this
      ensures Did([AwaitJob(job)], err.None?) && requests == old(requests)
      ensures err.Some? ==> Hindered()
    {
      ghost var looks := [];
      for i := 0 to POLLS
        invariant Did([], true) && requests == old(requests)
        invariant |looks| == i && forall s <- looks :: !Accepts(s, AwaitJob(job))
      {
        Pass();
        if job in site.jobs && site.jobs[job] {
          Take(AwaitJob(job));
          return None;
        }
        looks := looks + [site];
      }
      err := Fail(TimedOut(AwaitJob(job), looks));
    }

    method LabelSnapshot(snapshot: string) returns (err: MaybeError)
      requires Valid()
      modifies this
      ensures Did([Act.LabelSnapshot(snapshot)], err.None?)
      ensures err.Some? ==> Hindered()
    {
      Pass();
      err := Send(Act.LabelSnapshot(snapshot));
    }

    method DeleteValidationRun(run: string) returns (err: MaybeError)
      requires Valid()
      modifies this
      ensures Did([DeleteRun(run)], true) || Did([], true)
      ensures requests == old(requests) + [DeleteRun(run)]
      ensures failures == if err.Some? then old(failures) + [Lost(DeleteRun(run))] else old(failures)
    {
      Pass();
      err := Send(DeleteRun(run));
    }

    method DeletePVC(key: Key) returns (err: MaybeError)
      requires Valid()
      modifies this
      ensures Did([DeleteClaim(key)], true) || Did([], true)
      ensures requests == old(requests) + [DeleteClaim(key)]
      ensures failures == if err.Some? then old(failures) + [Lost(DeleteClaim(key))] else old(failures)
    {
      Pass();
      err := Send(DeleteClaim(key));
    }

    method UpdateValidationRun(read: Run, write: Run) returns (err: MaybeError)
      requires Valid()
      modifies this
      ensures Did([UpdateRun(read, write)], err.None?)
      ensures err.Some? ==> Hindered()
    {
      Pass();
      if read.name !in site.runs || site.runs[read.name] != read {
        err := Fail(Refused(UpdateRun(read, write), site));
        return;
      }
      err := Send(UpdateRun(read, write));
    }
  }
}
