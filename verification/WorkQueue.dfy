/** The rate-limited work queue of the controllers (vendor/k8s.io/client-go/util/workqueue), as a value and as the
    object whose methods change it in place. */
module WorkQueue {
  import opened Wrappers

  /** `order` are the keys waiting, `dirty` those that need processing, `processing` those handed out, and `delayed`
      those that come back once their rate limit allows. */
  datatype Queue = Queue(order: seq<string>, dirty: set<string>, processing: set<string>, delayed: set<string>)
  {
    predicate Holds(key: string) { key in dirty || key in processing || key in delayed }

    /** A key waits in the order exactly when it is dirty and not handed out, and then once. */
    ghost predicate Valid() {
      && (forall i, j | 0 <= i < j < |order| :: order[i] != order[j])
      && (forall k: string :: k in order <==> k in dirty && k !in processing)
    }

    function Add(key: string): Queue {
      if key in dirty then this
      else this.(dirty := dirty + {key}, order := if key in processing then order else order + [key])
    }

    function Get(): Queue
      requires order != []
    {
      this.(order := order[1..], dirty := dirty - {order[0]}, processing := processing + {order[0]})
    }

    function Done(key: string): Queue {
      this.(processing := processing - {key}, order := if key in dirty then order + [key] else order)
    }

    function AddRateLimited(key: string): Queue {
      this.(delayed := delayed + {key})
    }

    /** The delay of a key is over. */
    function Ready(key: string): Queue {
      this.(delayed := delayed - {key}).Add(key)
    }
  }

  const EMPTY := Queue([], {}, {}, {})

  lemma AddKeeps(q: Queue, key: string)
    requires q.Valid()
    ensures q.Add(key).Valid() && key in q.Add(key).dirty
    ensures forall k: string :: q.Holds(k) ==> q.Add(key).Holds(k)
  {
  }

  lemma GetKeeps(q: Queue)
    requires q.Valid() && q.order != []
    ensures q.Get().Valid() && q.order[0] !in q.processing
    ensures forall k: string :: q.Holds(k) <==> q.Get().Holds(k)
  {
    var key, q' := q.order[0], q.Get();
    assert key in q.order;
    forall k: string ensures k in q'.order <==> k in q'.dirty && k !in q'.processing {
      if k in q.order && k != key {
        var i :| 0 <= i < |q.order| && q.order[i] == k;
        assert q'.order[i - 1] == k;
      }
    }
  }

  /** Only a key that is neither dirty again nor delayed is let go. */
  lemma DoneKeeps(q: Queue, key: string)
    requires q.Valid() && key in q.processing
    ensures q.Done(key).Valid()
    ensures forall k: string :: q.Done(key).Holds(k) <==> q.Holds(k) && (k != key || k in q.dirty || k in q.delayed)
  {
  }

  // ---- First come, first served ----

  datatype Act = Adding(key: string) | Getting | Finishing(key: string) | Delaying(key: string) | Returning(key: string)

  /** The queue after these acts, oldest first, if each is possible. */
  ghost function After(q: Queue, acts: seq<Act>): Option<Queue> {
    if acts == [] then Some(q)
    else
      var mid := After(q, acts[..|acts| - 1]);
      if mid.None? then None else Do(mid.value, acts[|acts| - 1])
  }

  function Do(q: Queue, act: Act): Option<Queue> {
    match act
    case Adding(key) => Some(q.Add(key))
    case Getting => if q.order == [] then None else Some(q.Get())
    case Finishing(key) => if key in q.processing then Some(q.Done(key)) else None
    case Delaying(key) => Some(q.AddRateLimited(key))
    case Returning(key) => if key in q.delayed then Some(q.Ready(key)) else None
  }

  /** The keys a worker gets, in this order. */
  ghost function Served(q: Queue, acts: seq<Act>): seq<string> {
    if acts == [] then []
    else
      var before, last := acts[..|acts| - 1], acts[|acts| - 1];
      var mid := After(q, before);
      Served(q, before) + if mid.Some? && last.Getting? && mid.value.order != [] then [mid.value.order[0]] else []
  }

  /** The key that begins to wait with this act, if any. */
  ghost function Entering(q: Queue, act: Act): seq<string> {
    if act.Getting? || Do(q, act).None? || act.key in q.order || act.key !in Do(q, act).value.order then []
    else [act.key]
  }

  /** The keys that began to wait, in this order. */
  ghost function Entered(q: Queue, acts: seq<Act>): seq<string> {
    if acts == [] then []
    else
      var before, last := acts[..|acts| - 1], acts[|acts| - 1];
      var mid := After(q, before);
      Entered(q, before) + if mid.Some? then Entering(mid.value, last) else []
  }

  lemma ActKeeps(q: Queue, act: Act)
    requires q.Valid() && Do(q, act).Some?
    ensures Do(q, act).value.Valid()
    ensures Do(q, act).value.order == (if act.Getting? then q.order[1..] else q.order) + Entering(q, act)
  {
    match act
    case Adding(key) => AddKeeps(q, key);
    case Getting => GetKeeps(q);
    case Finishing(key) => DoneKeeps(q, key);
    case Delaying(key) =>
    case Returning(key) => AddKeeps(q.(delayed := q.delayed - {key}), key);
  }

  /** Keys are served in the order in which they began to wait: whatever is done with the queue, the keys that were
      served, followed by those that wait now, are those that waited at first, followed by those that have begun to
      wait. */
  lemma {:induction false} FirstComeFirstServed(q: Queue, acts: seq<Act>)
    requires q.Valid() && After(q, acts).Some?
    ensures After(q, acts).value.Valid()
    ensures Served(q, acts) + After(q, acts).value.order == q.order + Entered(q, acts)
  {
    if acts != [] {
      var before, last := acts[..|acts| - 1], acts[|acts| - 1];
      FirstComeFirstServed(q, before);
      var mid := After(q, before).value;
      ActKeeps(mid, last);
      StillInOrder(Served(q, before), mid.order, q.order, Entered(q, before), Entering(mid, last));
      assert last.Getting? ==> Entering(mid, last) == [];
    }
  }

  lemma StillInOrder(served: seq<string>, waiting: seq<string>, first: seq<string>, entered: seq<string>,
      e: seq<string>)
    requires served + waiting == first + entered
    ensures served + (waiting + e) == first + (entered + e)
    ensures waiting != [] ==> (served + [waiting[0]]) + (waiting[1..] + []) == first + (entered + [])
  {
    assert served + (waiting + e) == (served + waiting) + e;
    if waiting != [] {
      assert (served + [waiting[0]]) + (waiting[1..] + []) == served + waiting;
    }
  }

  class RateLimitingQueue {
    var order: seq<string>
    var dirty: set<string>
    var processing: set<string>
    var delayed: set<string>

    function Value(): Queue
      reads this
    {
      Queue(order, dirty, processing, delayed)
    }

    constructor ()
      ensures Value() == EMPTY && Value().Valid()
    {
      order, dirty, processing, delayed := [], {}, {}, {};
    }

    method Add(key: string)
      requires Value().Valid()
      modifies this
      ensures Value().Valid() && Value() == old(Value()).Add(key)
    {
      AddKeeps(Value(), key);
      if key in dirty {
        return;
      }
      dirty := dirty + {key};
      if key in processing {
        return;
      }
      order := order + [key];
    }

    /** Waits until there is a key; without one it returns only because the queue is shut down. */
    method Get() returns (key: string, shutdown: bool)
      requires Value().Valid()
      modifies this
      ensures Value().Valid()
      ensures shutdown <==> old(order) == []
      ensures shutdown ==> Value() == old(Value())
      ensures !shutdown ==> key == old(order)[0] && Value() == old(Value()).Get()
    {
      if |order| == 0 {
        return "", true;
      }
      GetKeeps(Value());
      key, order := order[0], order[1..];
      processing := processing + {key};
      dirty := dirty - {key};
      shutdown := false;
    }

    method Done(key: string)
      requires Value().Valid() && key in processing
      modifies this
      ensures Value().Valid() && Value() == old(Value()).Done(key)
    {
      DoneKeeps(Value(), key);
      processing := processing - {key};
      if key in dirty {
        order := order + [key];
      }
    }

    method AddRateLimited(key: string)
      requires Value().Valid()
      modifies this
      ensures Value().Valid() && Value() == old(Value()).AddRateLimited(key)
    {
      delayed := delayed + {key};
    }
  }
}
