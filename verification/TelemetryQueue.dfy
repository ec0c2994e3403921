/** The bounded queue of captured records that drops the oldest on overflow
    (ctjs-module/sbr-dungeon-tracker/queue.js). */
module TelemetryQueue {
  import opened Prelude

  const DEFAULT_LIMIT: nat := 500

  datatype State<T> = State(items: seq<T>, dropped: nat, max: nat)

  function LimitOf(limit: Option<int>): nat {
    if limit.Some? && limit.value > 0 then limit.value else DEFAULT_LIMIT
  }

  function Initial<T>(limit: Option<int>): State<T> {
    State([], 0, LimitOf(limit))
  }

  /** The newest `max` items survive; the rest count as dropped. */
  function Kept<T>(q: State<T>, items: seq<T>): State<T> {
    if |items| <= q.max then q.(items := items)
    else q.(items := items[|items| - q.max..], dropped := q.dropped + (|items| - q.max))
  }

  function Pushed<T>(q: State<T>, item: T): State<T> {
    Kept(q, q.items + [item])
  }

  function Returned<T>(q: State<T>, items: seq<T>): State<T> {
    Kept(q, items + q.items)
  }

  function TakeCount<T>(q: State<T>, n: nat): nat {
    Min(n, |q.items|)
  }

  function Taken<T>(q: State<T>, n: nat): State<T> {
    q.(items := q.items[TakeCount(q, n)..])
  }

  class BoundedQueue<T> {
    const max: nat
    var items: seq<T>
    var dropped: nat

    ghost function View(): State<T>
      reads this
    {
      State(items, dropped, max)
    }

    constructor (limit: Option<int>)
      ensures View() == Initial(limit)
    {
      max := LimitOf(limit);
      items, dropped := [], 0;
    }

    method DropOverflow()
      modifies this
      ensures View() == Kept(old(View()), old(items))
    {
      while |items| > max
        invariant Kept(View(), items) == Kept(old(View()), old(items))
        decreases |items|
      {
        items := items[1..];
        dropped := dropped + 1;
      }
    }

    method Push(item: T)
      modifies this
      ensures View() == Pushed(old(View()), item)
    {
      items := items + [item];
      DropOverflow();
    }

    /** Remove and return up to `n` items, oldest first. */
    method Take(n: nat) returns (out: seq<T>)
      modifies this
      ensures out == old(items)[..TakeCount(old(View()), n)]
      ensures View() == Taken(old(View()), n)
    {
      var count := Min(n, |items|);
      if count == 0 {
        return [];
      }
      out := items[..count];
      items := items[count..];
    }

    /** Put items back at the front. */
    method UnshiftAll(returned: seq<T>)
      modifies this
      ensures View() == Returned(old(View()), returned)
    {
      items := returned + items;
      DropOverflow();
    }

    method Clear()
      modifies this
      ensures View() == old(View()).(items := [])
    {
      items := [];
    }
  }

  /** A push costs at most the one oldest record, and only when the queue is full. */
  lemma PushDropsOldest<T>(q: State<T>, item: T)
    requires |q.items| <= q.max && q.max > 0
    ensures Pushed(q, item).items == (if |q.items| == q.max then q.items[1..] else q.items) + [item]
    ensures Pushed(q, item).dropped == q.dropped + (if |q.items| == q.max then 1 else 0)
  {
  }

  /** Taking a batch and putting it back at once restores the queue exactly: nothing is dropped. */
  lemma TakeThenReturn<T>(q: State<T>, n: nat)
    requires |q.items| <= q.max
    ensures Returned(Taken(q, n), q.items[..TakeCount(q, n)]) == q
  {
  }
}
