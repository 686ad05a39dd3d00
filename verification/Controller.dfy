/** The handlers and workers of pkg/manager/controller.go around the two work queues. */
module Controller {
  import opened Wrappers
  import opened Types
  import opened WorkQueue
  import KubeCalls
  import Reverts
  import RunCalls
  import Validator
  import RevertPlan
  import RunPlan

  class Controller {
    const reverts: Reverts.Reverts
    const validator: Validator.Validator
    const revertWorkqueue: RateLimitingQueue
    const validationRunWorkqueue: RateLimitingQueue
    var srStore: map<string, Revert>
    var vrStore: map<string, Run>

    ghost predicate Valid()
      reads this, reverts.kube, validator.kube, revertWorkqueue, validationRunWorkqueue
    {
      && revertWorkqueue != validationRunWorkqueue
      && reverts.kube.Valid() && validator.kube.Valid()
      && revertWorkqueue.Value().Valid() && validationRunWorkqueue.Value().Valid()
    }

    constructor (kube: KubeCalls.KubeCalls, site: RunCalls.KubeCalls)
      requires kube.Valid() && site.Valid()
      ensures Valid() && fresh(revertWorkqueue) && fresh(validationRunWorkqueue)
      ensures reverts.kube == kube && validator.kube == site
      ensures revertWorkqueue.Value() == EMPTY && validationRunWorkqueue.Value() == EMPTY
    {
      srStore, vrStore := map[], map[];
      reverts := new Reverts.Reverts(kube);
      validator := new Validator.Validator(site);
      revertWorkqueue := new RateLimitingQueue();
      validationRunWorkqueue := new RateLimitingQueue();
    }

    /** Handler of additions and updates of a revert, after the informer has stored it. */
    method EnqueueSnapshotRevert(key: string, revert: Revert)
      requires Valid()
      modifies this`srStore, revertWorkqueue
      ensures Valid() && srStore == old(srStore)[key := revert]
      ensures revertWorkqueue.Value() == old(revertWorkqueue.Value()).Add(key)
    {
      srStore := srStore[key := revert];
      revertWorkqueue.Add(key);
    }

    /** Handler of additions and updates of a run, after the informer has stored it. */
    method EnqueueValidatorRun(key: string, run: Run)
      requires Valid()
      modifies this`vrStore, validationRunWorkqueue
      ensures Valid() && vrStore == old(vrStore)[key := run]
      ensures validationRunWorkqueue.Value() == old(validationRunWorkqueue.Value()).Add(key)
    {
      vrStore := vrStore[key := run];
      validationRunWorkqueue.Add(key);
    }

    /** What the informer and the rate limiter do to a queue while a worker is busy. */
    method Meanwhile(queue: RateLimitingQueue)
      requires queue.Value().Valid()
      modifies queue
      ensures queue.Value().Valid() && queue.processing == old(queue.processing) && queue.delayed <= old(queue.delayed)
      ensures forall k: string :: old(queue.Value()).Holds(k) ==> queue.Value().Holds(k)
    {
      var steps: int := *;
      for i := 0 to if steps < 0 then 0 else steps
        invariant queue.Value().Valid() && queue.processing == old(queue.processing)
            && queue.delayed <= old(queue.delayed)
        invariant forall k: string :: old(queue.Value()).Holds(k) ==> queue.Value().Holds(k)
      {
        var key: string := *;
        AddKeeps(queue.Value(), key);
        queue.Add(key);
        if key in queue.delayed {
          queue.delayed := queue.delayed - {key};
        }
      }
    }

    /** One round of a revert worker. The key it takes is given back; if the processing fails the key stays in the
        queue, to be retried, and otherwise no retry is asked for; and no other key is lost. `done` is the object that
        was processed. */
    method ProcessNextRevert()
        returns (shutdown: bool, err: MaybeError, ghost done: Option<Revert>, ghost obs: RevertPlan.Obs)
      requires Valid()
      modifies revertWorkqueue, reverts.kube
      ensures Valid()
      ensures shutdown <==> old(revertWorkqueue.order) == []
      ensures shutdown ==> revertWorkqueue.Value() == old(revertWorkqueue.Value()) && done.None?
      ensures !shutdown ==>
        var key := old(revertWorkqueue.order)[0];
        && revertWorkqueue.processing == old(revertWorkqueue.processing)
        && (forall k: string :: k != key && old(revertWorkqueue.Value()).Holds(k) ==> revertWorkqueue.Value().Holds(k))
        && done == (if key in srStore then Some(srStore[key]) else None)
        && (done.None? ==> err.Some?)
        && (done.Some? && err.Some? ==> key in revertWorkqueue.delayed)
        && (err.None? ==> revertWorkqueue.delayed <= old(revertWorkqueue.delayed))
        && (done.None? ==> revertWorkqueue.Value() == old(revertWorkqueue.Value()).Get().Done(key))
      ensures done.Some? ==> reverts.kube.Did(RevertPlan.AllOps(done.value, obs), err.None?)
      ensures done.Some? && err.Some? ==> reverts.Excused(done.value)
    {
      done, obs, err := None, RevertPlan.NO_ANSWERS, None;
      var key;
      ghost var q0 := revertWorkqueue.Value();
      key, shutdown := revertWorkqueue.Get();
      if shutdown {
        return;
      }
      GetKeeps(q0);
      if key !in srStore {
        Finish(revertWorkqueue, key, false);
        return false, Some(Failed), done, obs;
      }
      var revert := srStore[key];
      done := Some(revert);
      err, obs := reverts.ProcessSnapshotRevert(revert);
      Meanwhile(revertWorkqueue);
      Finish(revertWorkqueue, key, err.Some?);
    }

    /** Give the key back, after asking for a retry if the processing failed. */
    method Finish(queue: RateLimitingQueue, key: string, failed: bool)
      requires queue.Value().Valid() && key in queue.processing
      modifies queue
      ensures queue.Value().Valid() && queue.processing == old(queue.processing) - {key}
      ensures forall k: string :: k != key && old(queue.Value()).Holds(k) ==> queue.Value().Holds(k)
      ensures failed ==> key in queue.delayed
      ensures !failed ==> queue.Value() == old(queue.Value()).Done(key)
    {
      if failed {
        queue.AddRateLimited(key);
      }
      DoneKeeps(queue.Value(), key);
      queue.Done(key);
    }

    /** One round of a validation worker. */
    method ProcessNextValidation()
        returns (shutdown: bool, err: MaybeError, ghost done: Option<Run>, ghost obs: RunPlan.Obs)
      requires Valid()
      modifies validationRunWorkqueue, validator.kube
      ensures Valid()
      ensures shutdown <==> old(validationRunWorkqueue.order) == []
      ensures shutdown ==> validationRunWorkqueue.Value() == old(validationRunWorkqueue.Value()) && done.None?
      ensures !shutdown ==>
        var key := old(validationRunWorkqueue.order)[0];
        && validationRunWorkqueue.processing == old(validationRunWorkqueue.processing)
        && (forall k: string :: k != key && old(validationRunWorkqueue.Value()).Holds(k) ==>
            validationRunWorkqueue.Value().Holds(k))
        && done == (if key in vrStore then Some(vrStore[key]) else None)
        && (done.None? ==> err.Some?)
        && (done.Some? && err.Some? ==> key in validationRunWorkqueue.delayed)
        && (err.None? ==> validationRunWorkqueue.delayed <= old(validationRunWorkqueue.delayed))
        && (done.None? ==> validationRunWorkqueue.Value() == old(validationRunWorkqueue.Value()).Get().Done(key))
      ensures done.Some? ==> validator.kube.Did(RunPlan.AllActs(done.value, obs), err.None?)
      ensures done.Some? && err.Some? ==> validator.Excused(done.value)
    {
      done, obs, err := None, Validator.NO_OBS, None;
      var key;
      ghost var q0 := validationRunWorkqueue.Value();
      key, shutdown := validationRunWorkqueue.Get();
      if shutdown {
        return;
      }
      GetKeeps(q0);
      if key !in vrStore {
        Finish(validationRunWorkqueue, key, false);
        return false, Some(Failed), done, obs;
      }
      var run := vrStore[key];
      done := Some(run);
      err, obs := validator.ProcessValidationRun(run);
      Meanwhile(validationRunWorkqueue);
      Finish(validationRunWorkqueue, key, err.Some?);
    }
  }
}
