/** The work loop of the controller (pkg/manager/controller.go): objects at the server, an informer that learns of their
    changes late, a work queue and any number of workers. No work is ever lost. */
module WorkLoop {
  import opened Wrappers
  import opened WorkQueue

  /** What a processing may do with the object it was given: `quiet` says there is nothing to do for it, `stores` what
      it may store, `silent` when it may succeed without storing. */
  datatype Job<!T> = Job(quiet: T -> bool, stores: (T, T) -> bool, silent: T -> bool)

  /** Only an object with nothing to do is stored unchanged or passed over in silence. */
  ghost predicate Diligent<T(!new)>(job: Job<T>) {
    (forall x: T :: job.stores(x, x) ==> job.quiet(x)) && (forall x: T :: job.silent(x) ==> job.quiet(x))
  }

  /** A worker that took a key, fetched the object, stored the outcome. */
  datatype Worker<T> =
    | Taken(key: string)
    | Working(key: string, copy: T)
    | Stored(key: string)

  /** `events` are, per key, the changes the informer has not delivered yet, oldest first; None is a deletion. */
  datatype World<T> = World(
    server: map<string, T>, cache: map<string, T>, events: map<string, seq<Option<T>>>,
    queue: Queue, workers: map<nat, Worker<T>>)

  datatype Label<T> =
    | Write(key: string, next: T)
    | Remove(key: string)
    | Deliver(key: string)
    | Relist(key: string)
    | Resync(key: string)
    | Ready(key: string)
    | Take(id: nat)
    | Fetch(id: nat)
    | Store(id: nat, next: T)
    | Fail(id: nat)
    | Succeed(id: nat)

  function Undelivered<T>(w: World<T>, key: string): seq<Option<T>> {
    if key in w.events then w.events[key] else []
  }

  function Lookup<T>(m: map<string, T>, key: string): Option<T> {
    if key in m then Some(m[key]) else None
  }

  function Put<T>(m: map<string, T>, key: string, value: Option<T>): map<string, T> {
    if value.Some? then m[key := value.value] else m - {key}
  }

  /** The server changes the object and, if it is a change at all, tells the informer. */
  function Changed<T(==)>(w: World<T>, key: string, next: Option<T>): World<T> {
    if Lookup(w.server, key) == next then w
    else w.(server := Put(w.server, key, next), events := w.events[key := Undelivered(w, key) + [next]])
  }

  /** enqueueSnapshotRevert and enqueueValidatorRun: additions and updates put the key into the queue, deletions do
      not. */
  function Delivered<T>(w: World<T>, key: string, e: Option<T>, rest: seq<Option<T>>): World<T> {
    w.(cache := Put(w.cache, key, e), events := w.events[key := rest],
       queue := if e.Some? then w.queue.Add(key) else w.queue)
  }

  /** The worker gives its key back. */
  function Released<T>(w: World<T>, id: nat, queue: Queue): World<T>
    requires id in w.workers
  {
    w.(queue := queue.Done(w.workers[id].key), workers := w.workers - {id})
  }

  ghost predicate Enabled<T(!new)>(job: Job<T>, w: World<T>, l: Label<T>) {
    match l
    case Write(_, _) => true
    case Remove(_) => true
    case Deliver(k) => Undelivered(w, k) != []
    case Relist(k) => Undelivered(w, k) != []
    case Resync(k) => k in w.cache
    case Ready(k) => k in w.queue.delayed
    case Take(id) => id !in w.workers && w.queue.order != []
    case Fetch(id) => id in w.workers && w.workers[id].Taken?
    case Store(id, next) =>
      && id in w.workers && w.workers[id].Working?
      && Lookup(w.server, w.workers[id].key) == Some(w.workers[id].copy)
      && job.stores(w.workers[id].copy, next)
    case Fail(id) => id in w.workers
    case Succeed(id) =>
      && id in w.workers
      && (w.workers[id].Stored? || (w.workers[id].Working? && job.silent(w.workers[id].copy)))
  }

  ghost function Next<T(!new)>(job: Job<T>, w: World<T>, l: Label<T>): World<T>
    requires Enabled(job, w, l)
  {
    match l
    case Write(k, next) => Changed(w, k, Some(next))
    case Remove(k) => Changed(w, k, None)
    case Deliver(k) => Delivered(w, k, Undelivered(w, k)[0], Undelivered(w, k)[1..])
    case Relist(k) => Delivered(w, k, Undelivered(w, k)[|Undelivered(w, k)| - 1], [])
    case Resync(k) => w.(queue := w.queue.Add(k))
    case Ready(k) => w.(queue := w.queue.Ready(k))
    case Take(id) => w.(queue := w.queue.Get(), workers := w.workers[id := Taken(w.queue.order[0])])
    case Fetch(id) =>
      var k := w.workers[id].key;
      if k in w.cache then w.(workers := w.workers[id := Working(k, w.cache[k])]) else Released(w, id, w.queue)
    case Store(id, next) =>
      Changed(w, w.workers[id].key, Some(next)).(workers := w.workers[id := Stored(w.workers[id].key)])
    case Fail(id) => Released(w, id, w.queue.AddRateLimited(w.workers[id].key))
    case Succeed(id) => Released(w, id, w.queue)
  }

  ghost function Exec<T(!new)>(job: Job<T>, w: World<T>, labels: seq<Label<T>>): Option<World<T>> {
    if labels == [] then Some(w)
    else
      var mid := Exec(job, w, labels[..|labels| - 1]);
      if mid.Some? && Enabled(job, mid.value, labels[|labels| - 1])
          then Some(Next(job, mid.value, labels[|labels| - 1])) else None
  }

  /** The controller starts with an empty cache and learns of every object there is. */
  ghost predicate Start<T(!new)>(w: World<T>) {
    && w.cache == map[] && w.queue == EMPTY && w.workers == map[]
    && forall k: string :: Undelivered(w, k) == if k in w.server then [Some(w.server[k])] else []
  }

  // ---- The invariant ----

  /** The cache is what the server had before the undelivered changes. */
  ghost predicate Follows<T>(w: World<T>, key: string) {
    var events := Undelivered(w, key);
    Lookup(w.server, key) == if events == [] then Lookup(w.cache, key) else events[|events| - 1]
  }

  /** The key will be looked at again if the object has anything to do. */
  ghost predicate Settled<T(!new)>(job: Job<T>, w: World<T>, key: string) {
    || key in w.queue.dirty || key in w.queue.delayed || Undelivered(w, key) != []
    || key !in w.cache || job.quiet(w.cache[key])
  }

  ghost predicate WorkerGood<T(!new)>(job: Job<T>, w: World<T>, id: nat)
    requires id in w.workers
  {
    var p := w.workers[id];
    && p.key in w.queue.processing
    && (p.Working? ==> p.key in w.queue.dirty || p.key !in w.cache || w.cache[p.key] == p.copy)
    && (p.Stored? ==> Settled(job, w, p.key))
  }

  ghost predicate Covered<T(!new)>(job: Job<T>, w: World<T>, key: string) {
    key in w.server && !job.quiet(w.server[key]) ==> w.queue.Holds(key) || Undelivered(w, key) != []
  }

  ghost predicate Good<T(!new)>(job: Job<T>, w: World<T>) {
    && w.queue.Valid()
    && (forall k: string :: Follows(w, k))
    && (forall k: string :: Covered(job, w, k))
    && (forall id <- w.workers :: WorkerGood(job, w, id))
    && (forall i <- w.workers, j <- w.workers :: w.workers[i].key == w.workers[j].key ==> i == j)
  }

  lemma ChangeKeepsGood<T(!new)>(job: Job<T>, w: World<T>, key: string, next: Option<T>)
    requires Good(job, w)
    ensures Good(job, Changed(w, key, next))
  {
    var w' := Changed(w, key, next);
    forall k: string ensures Follows(w', k) && Covered(job, w', k) {
      assert Follows(w, k) && Covered(job, w, k);
    }
    forall id | id in w'.workers ensures WorkerGood(job, w', id) {
      assert WorkerGood(job, w, id);
    }
  }

  lemma DeliveryKeepsGood<T(!new)>(job: Job<T>, w: World<T>, key: string, n: nat)
    requires Good(job, w) && n < |Undelivered(w, key)|
    ensures Good(job, Delivered(w, key, Undelivered(w, key)[n], Undelivered(w, key)[n + 1..]))
  {
    var w' := Delivered(w, key, Undelivered(w, key)[n], Undelivered(w, key)[n + 1..]);
    AddKeeps(w.queue, key);
    forall k: string ensures Follows(w', k) && Covered(job, w', k) {
      assert Follows(w, k) && Covered(job, w, k);
    }
    forall id | id in w'.workers ensures WorkerGood(job, w', id) {
      assert WorkerGood(job, w, id);
    }
  }

  lemma QueueGrowthKeepsGood<T(!new)>(job: Job<T>, w: World<T>, queue: Queue)
    requires Good(job, w) && queue.Valid() && queue.processing == w.queue.processing && w.queue.dirty <= queue.dirty
    requires forall k: string :: w.queue.Holds(k) ==> queue.Holds(k)
    requires forall k <- w.queue.delayed :: k in queue.delayed || k in queue.dirty
    ensures Good(job, w.(queue := queue))
  {
    var w' := w.(queue := queue);
    forall k: string ensures Follows(w', k) && Covered(job, w', k) {
      assert Follows(w, k) && Covered(job, w, k);
    }
    forall id | id in w'.workers ensures WorkerGood(job, w', id) {
      assert WorkerGood(job, w, id);
    }
  }

  lemma TakeKeepsGood<T(!new)>(job: Job<T>, w: World<T>, id: nat)
    requires Good(job, w) && Enabled(job, w, Take(id))
    ensures Good(job, Next(job, w, Take(id)))
  {
    var w' := Next(job, w, Take(id));
    GetKeeps(w.queue);
    forall k: string ensures Follows(w', k) && Covered(job, w', k) {
      assert Follows(w, k) && Covered(job, w, k);
    }
    forall i | i in w.workers ensures WorkerGood(job, w', i) && w.workers[i].key != w.queue.order[0] {
      assert WorkerGood(job, w, i);
    }
  }

  /** A key may be given back once whatever there is to do for it is settled. */
  lemma ReleaseKeepsGood<T(!new)>(job: Job<T>, w: World<T>, id: nat)
    requires Good(job, w) && id in w.workers && Settled(job, w, w.workers[id].key)
    ensures Good(job, Released(w, id, w.queue))
  {
    var w', key := Released(w, id, w.queue), w.workers[id].key;
    assert WorkerGood(job, w, id);
    DoneKeeps(w.queue, key);
    forall k: string ensures Follows(w', k) && Covered(job, w', k) {
      assert Follows(w, k) && Covered(job, w, k);
    }
    forall i | i in w'.workers ensures WorkerGood(job, w', i) {
      assert WorkerGood(job, w, i) && w.workers[i].key != key;
    }
  }

  lemma FetchKeepsGood<T(!new)>(job: Job<T>, w: World<T>, id: nat)
    requires Good(job, w) && Enabled(job, w, Fetch(id))
    ensures Good(job, Next(job, w, Fetch(id)))
  {
    var key := w.workers[id].key;
    if key in w.cache {
      var w' := Next(job, w, Fetch(id));
      assert WorkerGood(job, w, id);
      forall k: string ensures Follows(w', k) && Covered(job, w', k) {
        assert Follows(w, k) && Covered(job, w, k);
      }
      forall i | i in w'.workers ensures WorkerGood(job, w', i) {
        assert WorkerGood(job, w, i);
      }
    } else {
      ReleaseKeepsGood(job, w, id);
    }
  }

  lemma StoreKeepsGood<T(!new)>(job: Job<T>, w: World<T>, id: nat, next: T)
    requires Diligent(job) && Good(job, w) && Enabled(job, w, Store(id, next))
    ensures Good(job, Next(job, w, Store(id, next)))
  {
    var key := w.workers[id].key;
    var w1, w' := Changed(w, key, Some(next)), Next(job, w, Store(id, next));
    ChangeKeepsGood(job, w, key, Some(next));
    assert WorkerGood(job, w, id) && Follows(w, key);
    forall k: string ensures Follows(w', k) && Covered(job, w', k) {
      assert Follows(w1, k) && Covered(job, w1, k);
    }
    forall i | i in w'.workers ensures WorkerGood(job, w', i) {
      assert WorkerGood(job, w1, i);
    }
  }

  lemma FailKeepsGood<T(!new)>(job: Job<T>, w: World<T>, id: nat)
    requires Good(job, w) && Enabled(job, w, Fail(id))
    ensures Good(job, Next(job, w, Fail(id)))
  {
    var key := w.workers[id].key;
    QueueGrowthKeepsGood(job, w, w.queue.AddRateLimited(key));
    ReleaseKeepsGood(job, w.(queue := w.queue.AddRateLimited(key)), id);
  }

  lemma EnvironmentKeepsGood<T(!new)>(job: Job<T>, w: World<T>, l: Label<T>)
    requires Good(job, w) && Enabled(job, w, l)
    requires l.Write? || l.Remove? || l.Deliver? || l.Relist?
    ensures Good(job, Next(job, w, l))
  {
    match l
    case Write(k, next) => ChangeKeepsGood(job, w, k, Some(next));
    case Remove(k) => ChangeKeepsGood(job, w, k, None);
    case Deliver(k) => DeliveryKeepsGood(job, w, k, 0);
    case Relist(k) =>
      var n := |Undelivered(w, k)| - 1;
      assert Undelivered(w, k)[n + 1..] == [];
      DeliveryKeepsGood(job, w, k, n);
  }

  lemma QueueingKeepsGood<T(!new)>(job: Job<T>, w: World<T>, l: Label<T>)
    requires Good(job, w) && Enabled(job, w, l) && (l.Resync? || l.Ready?)
    ensures Good(job, Next(job, w, l))
  {
    if l.Resync? {
      AddKeeps(w.queue, l.key);
      QueueGrowthKeepsGood(job, w, w.queue.Add(l.key));
    } else {
      AddKeeps(w.queue.(delayed := w.queue.delayed - {l.key}), l.key);
      QueueGrowthKeepsGood(job, w, w.queue.Ready(l.key));
    }
  }

  lemma SuccessKeepsGood<T(!new)>(job: Job<T>, w: World<T>, id: nat)
    requires Diligent(job) && Good(job, w) && Enabled(job, w, Succeed(id))
    ensures Good(job, Next(job, w, Succeed(id)))
  {
    assert WorkerGood(job, w, id);
    ReleaseKeepsGood(job, w, id);
  }

  lemma StepKeepsGood<T(!new)>(job: Job<T>, w: World<T>, l: Label<T>)
    requires Diligent(job) && Good(job, w) && Enabled(job, w, l)
    ensures Good(job, Next(job, w, l))
  {
    match l
    case Resync(_) => QueueingKeepsGood(job, w, l);
    case Ready(_) => QueueingKeepsGood(job, w, l);
    case Take(id) => TakeKeepsGood(job, w, id);
    case Fetch(id) => FetchKeepsGood(job, w, id);
    case Store(id, next) => StoreKeepsGood(job, w, id, next);
    case Fail(id) => FailKeepsGood(job, w, id);
    case Succeed(id) => SuccessKeepsGood(job, w, id);
    case _ => EnvironmentKeepsGood(job, w, l);
  }

  lemma {:induction false} AlwaysGood<T(!new)>(job: Job<T>, w: World<T>, labels: seq<Label<T>>)
    requires Diligent(job) && Start(w) && Exec(job, w, labels).Some?
    ensures Good(job, Exec(job, w, labels).value)
  {
    if labels == [] {
      forall k: string ensures Follows(w, k) && Covered(job, w, k) {
        assert Undelivered(w, k) == if k in w.server then [Some(w.server[k])] else [];
      }
    } else {
      AlwaysGood(job, w, labels[..|labels| - 1]);
      StepKeepsGood(job, Exec(job, w, labels[..|labels| - 1]).value, labels[|labels| - 1]);
    }
  }

  /** No lost work: in every run, an object that still has something to do has its key queued, being processed or
      waiting for a rate-limited retry, or a change of it is still to be delivered. */
  lemma NoLostWork<T(!new)>(job: Job<T>, w: World<T>, labels: seq<Label<T>>, key: string)
    requires Diligent(job) && Start(w) && Exec(job, w, labels).Some?
    ensures var m := Exec(job, w, labels).value;
      key in m.server && !job.quiet(m.server[key]) ==> m.queue.Holds(key) || Undelivered(m, key) != []
  {
    AlwaysGood(job, w, labels);
    assert Covered(job, Exec(job, w, labels).value, key);
  }
}
