/** The resubscribe that the removal of a client queues, and what it carries when
    its turn comes. */
module Resubscribing {
  import opened Bytes
  import opened MuxMessage
  import opened Subscription
  import opened Manager
  import opened Runs
  import opened Unions
  import opened FineRuns

  // ---------------------------------------------------------------
  // A queued command keeps its place.

  /** How many commands a run takes from the queue. */
  function Taken<C>(xs: seq<Step<C>>): nat {
    if |xs| == 0 then 0 else (if xs[0].Take? then 1 else 0) + Taken(xs[1..])
  }

  /** A step takes at most the head and only adds at the end. */
  lemma QueueStep<C>(s: Sys<C>, x: Step<C>)
    requires WellFormed(s.m) && Possible(s, x)
    ensures var t := Do(s, x);
            var kept := if x.Take? then s.m.queue[1..] else s.m.queue;
            && t.m.retries == s.m.retries
            && |kept| <= |t.m.queue| && t.m.queue[..|kept|] == kept
  {
    if x.Take? {
      BeginFrame(s.m);
    } else if x.World? && x.world.ReadError? {
      RemoveEffect(s.m, x.world.client);
    }
    hide WellFormed, Begin, RemoveClient, Covered, Notified, TimedOut, Without, Union, FilterToVector;
  }

  lemma QueueStepAt<C>(s: Sys<C>, x: Step<C>, i: nat)
    requires WellFormed(s.m) && Possible(s, x) && i < |s.m.queue| && (x.Take? ==> i > 0)
    ensures var t := Do(s, x);
            var j := if x.Take? then i - 1 else i;
            t.m.retries == s.m.retries && j < |t.m.queue| && t.m.queue[j] == s.m.queue[i]
  {
    hide Do, Possible, WellFormed;
    QueueStep(s, x);
    var kept := if x.Take? then s.m.queue[1..] else s.m.queue;
    var j := if x.Take? then i - 1 else i;
    assert Do(s, x).m.queue[j] == Do(s, x).m.queue[..|kept|][j];
  }

  lemma {:induction false} QueueRun<C>(s: Sys<C>, xs: seq<Step<C>>, i: nat)
    requires FineInv(s) && CanDo(s, xs) && Taken(xs) <= i < |s.m.queue|
    ensures var t := DoAll(s, xs);
            && t.m.retries == s.m.retries
            && i - Taken(xs) < |t.m.queue| && t.m.queue[i - Taken(xs)] == s.m.queue[i]
    decreases |xs|
  {
    hide Do, Possible, FineInv, WellFormed;
    FineForm(s);
    if |xs| > 0 {
      DoFine(s, xs[0]);
      QueueStepAt(s, xs[0], i);
      QueueRun(Do(s, xs[0]), xs[1..], if xs[0].Take? then i - 1 else i);
    }
  }

  /** A resubscribe goes out as it was queued when the client was removed,
      whatever happens before its turn (`mid`, which takes what was queued before
      it) and until any of its copies is sent (`more`): it carries what those who
      stayed asked for at the removal, so it carries what the connected clients
      ask for exactly when that is the same. */
  lemma ResubscribeExactIff<C>(s: Sys<C>, retries: nat, xs: seq<Step<C>>, c: C,
                               mid: seq<Step<C>>, more: seq<Step<C>>, u: Sys<C>)
    requires FineReachedBy(s, retries, xs) && WellFormed(s.m) && Possible(s, World(ReadError(c)))
    requires Do(s, World(ReadError(c))).m.filterUnion != s.m.filterUnion
    requires FineReachedBy(u, retries, xs + ([World(ReadError(c))] + (mid + ([Take] + more))))
    requires Taken(mid) == |s.m.queue| && NoTake(more) && Possible(u, Send)
    ensures WellFormed(u.m) && WellFormed(Do(s, World(ReadError(c))).m)
    ensures var t := Do(u, Send);
            && |t.sent| == |u.sent| + 1
            && var copy := t.sent[|u.sent|];
            && copy.client == None && copy.typ == SUBSCRIBE && |copy.data| >= SUBSCRIBE_PARAMS_LENGTH
            && var stayed := Do(s, World(ReadError(c))).m;
            && VectorToFilter(copy.data) == stayed.filterUnion == Everyone(stayed)
            && (VectorToFilter(copy.data) == Everyone(u.m) <==> Everyone(u.m) == Everyone(stayed))
  {
    hide FineInv, WellFormed, Do, Possible, FilterToVector, VectorToFilter, NoTake, Everyone;
    var removal: Step<C> := World(ReadError(c));
    CutRun(Init<C>(retries), xs, [removal] + (mid + ([Take] + more)));
    CutRun(s, [removal], mid + ([Take] + more));
    RemovalQueues(s, c);
    OneStep(s, removal);
    AfterRemoved(Do(s, removal), |s.m.queue|, mid, more, u);
    SendsCommand(u);
    FilterRoundTrip(Do(s, removal).m.filterUnion, EightZeros());
  }

  /** The resubscribe keeps its place, is taken, and is the command of every copy
      sent until the next is taken. */
  lemma AfterRemoved<C>(s: Sys<C>, i: nat, mid: seq<Step<C>>, more: seq<Step<C>>, u: Sys<C>)
    requires FineInv(s) && CanDo(s, mid + ([Take] + more)) && u == DoAll(s, mid + ([Take] + more))
    requires Taken(mid) == i < |s.m.queue| && s.m.queue[i] == Resubscribe(s.m.filterUnion)
    requires NoTake(more) && Possible(u, Send)
    ensures WellFormed(u.m) && u.m.loop.Sending? && u.m.loop.cmd == Resubscribe(s.m.filterUnion)
  {
    hide FineInv, WellFormed, Do, Possible, NoTake;
    CutRun(s, mid, [Take] + more);
    QueueRun(s, mid, i);
    var s2 := DoAll(s, mid);
    FineForm(s2);
    CutRun(s2, [Take], more);
    TakePossible(s2);
    OneStep(s2, Take);
    HeadIsTaken(s2, s.m.filterUnion);
    RunKeepsCommand(Do(s2, Take), more);
    FineForm(u);
    IsSending(u);
  }

  lemma TakePossible<C>(s: Sys<C>)
    requires FineInv(s) && CanDo(s, [Take])
    ensures Possible(s, Take)
  {
    hide Do, Possible, FineInv;
  }

  lemma RemovalQueues<C>(s: Sys<C>, c: C)
    requires WellFormed(s.m) && Possible(s, World(ReadError(c)))
    ensures WellFormed(Do(s, World(ReadError(c))).m)
    ensures var t := Do(s, World(ReadError(c)));
            && t.m.filterUnion == Everyone(t.m)
            && (t.m.filterUnion != s.m.filterUnion ==> t.m.queue == s.m.queue + [Resubscribe(t.m.filterUnion)])
  {
    WorldKeepsForm(s, ReadError(c));
    RemoveEffect(s.m, c);
    hide WellFormed, RemoveClient, Covered, Union, FilterToVector, Without;
  }

  lemma HeadIsTaken<C>(s: Sys<C>, union: Params)
    requires WellFormed(s.m) && Possible(s, Take) && s.m.queue[0] == Resubscribe(union)
    ensures var t := Do(s, Take);
            !t.m.loop.Idle? && t.m.loop.cmd == Resubscribe(union)
  {
    hide FilterToVector;
  }

  lemma IsSending<C>(s: Sys<C>)
    requires Possible(s, Send)
    ensures s.m.loop.Sending?
  {
  }

  lemma SendsCommand<C>(s: Sys<C>)
    requires WellFormed(s.m) && Possible(s, Send)
    ensures var t := Do(s, Send);
            && s.m.loop.Sending?
            && t.sent == s.sent + [Sent(s.serial, s.m.loop.cmd.client, s.m.loop.cmd.message.typ, s.seqNo, s.m.loop.cmd.message.data)]
            && t.m.filterUnion == s.m.filterUnion
  {
    hide WellFormed;
  }
}
