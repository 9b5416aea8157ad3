/** The FIFO between the client reads and the command loop. Each operation holds
    the queue's lock, so operations are atomic. */
module SyncQueue {
  import opened Bytes

  class CSyncQueue<E(0)> {
    var items: seq<E>

    constructor ()
      ensures items == []
    {
      items := [];
    }

    method Clear()
      modifies this
      ensures items == []
    {
      while |items| != 0
        decreases |items|
      {
        items := items[1..];
      }
    }

    method Push(el: E)
      modifies this
      ensures items == old(items) + [el]
    {
      items := items + [el];
    }

    method Empty() returns (empty: bool)
      ensures empty <==> |items| == 0
    {
      empty := |items| == 0;
    }

    /** Called with the wait over: there is something to take or there is not. */
    method TimedPop() returns (good: bool, el: E)
      modifies this
      ensures good <==> |old(items)| > 0
      ensures good ==> old(items) == [el] + items
      ensures !good ==> items == old(items)
    {
      el := *;
      if |items| == 0 {
        return false, el;
      }
      el := items[0];
      items := items[1..];
      good := true;
    }
  }

  // ---------------------------------------------------------------
  // Any interleaving of pushes and pops.

  datatype Op<E> = PushOp(el: E) | PopOp

  datatype History<E> = History(pushed: seq<E>, popped: seq<E>, items: seq<E>)

  function Apply<E>(h: History<E>, op: Op<E>): History<E> {
    match op
    case PushOp(el) => History(h.pushed + [el], h.popped, h.items + [el])
    case PopOp =>
      if |h.items| == 0 then h else History(h.pushed, h.popped + [h.items[0]], h.items[1..])
  }

  function ApplyAll<E>(h: History<E>, ops: seq<Op<E>>): History<E>
    decreases |ops|
  {
    if |ops| == 0 then h else ApplyAll(Apply(h, ops[0]), ops[1..])
  }

  /** The elements of one source, in order. */
  function From<S(==), T>(source: S, s: seq<(S, T)>): seq<T> {
    if |s| == 0 then []
    else if s[0].0 == source then [s[0].1] + From(source, s[1..])
    else From(source, s[1..])
  }

  lemma {:induction false} FromAppend<S, T>(source: S, a: seq<(S, T)>, b: seq<(S, T)>)
    ensures From(source, a + b) == From(source, a) + From(source, b)
  {
    if |a| == 0 {
      assert a + b == b;
    } else {
      assert (a + b)[0] == a[0] && (a + b)[1..] == a[1..] + b;
      FromAppend(source, a[1..], b);
    }
  }

  lemma {:induction false} NothingLost<E>(h: History<E>, ops: seq<Op<E>>)
    requires h.pushed == h.popped + h.items
    ensures var r := ApplyAll(h, ops);
            r.pushed == r.popped + r.items
    decreases |ops|
  {
    if |ops| > 0 {
      NothingLost(Apply(h, ops[0]), ops[1..]);
    }
  }

  /** However pushes of several sources and pops interleave, what has been popped
      of one source, followed by what still waits, is what that source pushed,
      in its order. */
  lemma OrderPerSource<S, T>(source: S, ops: seq<Op<(S, T)>>)
    ensures var r := ApplyAll(History([], [], []), ops);
            From(source, r.pushed) == From(source, r.popped) + From(source, r.items)
  {
    var r := ApplyAll(History([], [], []), ops);
    NothingLost(History([], [], []), ops);
    FromAppend(source, r.popped, r.items);
  }
}
