/** A coarser schedule, in which the loop runs on from each wait to the next:
    taking a command is one step with its first transmission, a timeout is one
    with the resend or the clearing it causes, and an accepted response is one
    with the loop's waking and the clearing. Nothing in the program enforces any
    of the three. Under this schedule every command is answered exactly once and
    every SUBSCRIBE is exact. */
module AtomicRuns {
  import opened Bytes
  import opened MuxMessage
  import opened Subscription
  import opened Manager
  import opened Runs
  import opened Filters
  import opened Responses
  import opened Unions
  import opened FineRuns

  datatype Event<C> = Dequeue | Timeout | Response(reply: Reply) | Outside(world: World<C>)

  ghost predicate Enabled<C>(s: Sys<C>, e: Event<C>) {
    && s.m.running
    && match e
       case Dequeue => s.m.loop.Idle? && |s.m.queue| > 0
       case Timeout => s.m.loop.Waiting?
       case Response(r) => r.typ > NOTIFICATION
       case Outside(w) => WorldEnabled(s, w)
  }

  /** Run on to the next point where the loop waits. */
  ghost function Advance<C>(s: Sys<C>): Sys<C>
    requires WellFormed(s.m)
  {
    match s.m.loop
    case Sending(_, _) => Transmit(s)
    case Finishing(_, _) => FinishCommand(s)
    case _ => s
  }

  ghost function WakeAndAdvance<C>(s: Sys<C>): Sys<C>
    requires WellFormed(s.m) && s.m.loop.Waiting?
  {
    Advance(WakeUp(s))
  }

  ghost function ReceiveAndAdvance<C>(s: Sys<C>, r: Reply): Sys<C>
    requires WellFormed(s.m) && r.typ > NOTIFICATION
  {
    ReceiveKeepsForm(s, r);
    var t := Receive(s, r);
    if t.m.loop.Waiting? && t.m.current.result == ClientOk then WakeAndAdvance(t) else t
  }

  ghost function Next<C>(s: Sys<C>, e: Event<C>): Sys<C>
    requires WellFormed(s.m) && Enabled(s, e)
  {
    match e
    case Dequeue => TakeKeepsForm(s); Advance(TakeCommand(s))
    case Timeout => WakeAndAdvance(s)
    case Response(r) => ReceiveAndAdvance(s, r)
    case Outside(w) => WorldStep(s, w)
  }

  // ---------------------------------------------------------------
  // The invariant.

  /** Between two steps nothing has been accepted of a command in progress. */
  ghost predicate Inv<C>(s: Sys<C>) {
    && FineInv(s)
    && (s.m.loop.Idle? || s.m.loop.Waiting?)
    && (s.m.loop.Waiting? ==> s.job.accepted == 0 && s.m.current.result != ClientOk)
  }

  lemma FormOf<C>(s: Sys<C>)
    requires Inv(s)
    ensures WellFormed(s.m)
  {
    FineForm(s);
  }

  lemma InitInv<C>(retries: nat)
    ensures Inv(Init<C>(retries))
  {
    InitFine<C>(retries);
    hide FineInv;
  }

  /** The loop runs on; if it clears a command, that has been answered once. */
  lemma AdvanceInv<C>(s: Sys<C>)
    requires FineInv(s) && WellFormed(s.m) && !s.m.loop.Waiting?
    requires s.m.loop.Sending? ==> s.job.accepted == 0
    requires s.m.loop.Finishing? ==> s.job.accepted == if s.m.loop.result == ClientOk then 1 else 0
    ensures var t := Advance(s);
            Inv(t) && (s.m.loop.Finishing? && t.job.client.Some? ==> Answers(t) == 1)
  {
    if s.m.loop.Sending? {
      SendFine(s);
      assert s.m.current.result != ClientOk;
    } else if s.m.loop.Finishing? {
      ClearFine(s);
      FinishAnswers(s);
    }
    hide FineInv, WellFormed, Answers, Finish;
  }

  lemma DequeueInv<C>(s: Sys<C>)
    requires Inv(s) && Enabled(s, Dequeue)
    ensures WellFormed(s.m)
    ensures var t := Next(s, Dequeue);
            Inv(t) && (t.m.loop.Idle? && t.job.client.Some? ==> Answers(t) == 1)
  {
    FormOf(s);
    TakeFine(s);
    TakeAnswers(s);
    var t := TakeCommand(s);
    BeginFrame(s.m);
    FineForm(t);
    TakenResult(s);
    hide FineInv, WellFormed, AnswerInv, NumberInv, Answers, Begin, Finish;
    AdvanceInv(t);
  }

  lemma TakenResult<C>(s: Sys<C>)
    requires WellFormed(s.m) && s.m.loop.Idle? && |s.m.queue| > 0
    ensures Begin(s.m).loop.Finishing? ==> Begin(s.m).loop.result == ClientTimeout
  {
    hide NoDuplicates, Union, VectorToFilter, FilterToVector;
    assert s.m.queue[0] in s.m.queue;
  }

  lemma WakeInv<C>(s: Sys<C>)
    requires FineInv(s) && WellFormed(s.m) && s.m.loop.Waiting?
    requires s.job.accepted == if s.m.current.result == ClientOk then 1 else 0
    ensures var t := WakeAndAdvance(s);
            Inv(t) && (t.m.loop.Idle? && t.job.client.Some? ==> Answers(t) == 1)
  {
    WakeFine(s);
    FineForm(WakeUp(s));
    hide FineInv, WellFormed, Answers, Finish;
    AdvanceInv(WakeUp(s));
  }

  lemma ResponseInv<C>(s: Sys<C>, r: Reply)
    requires Inv(s) && Enabled(s, Response(r))
    ensures WellFormed(s.m)
    ensures var t := Next(s, Response(r));
            Inv(t) && (s.m.loop.Waiting? && t.m.loop.Idle? && t.job.client.Some? ==> Answers(t) == 1)
  {
    FormOf(s);
    ArriveFine(s, r);
    var t := Receive(s, r);
    FineForm(t);
    IdleAccepts(s, r);
    hide FineInv, WellFormed, Answers, Write, CommitFilter;
    if t.m.loop.Waiting? && t.m.current.result == ClientOk {
      WakeInv(t);
    }
  }

  lemma IdleAccepts<C>(s: Sys<C>, r: Reply)
    requires WellFormed(s.m) && r.typ > NOTIFICATION
    ensures s.m.loop.Idle? ==> !Accepted(s, r)
  {
  }

  lemma NextInv<C>(s: Sys<C>, e: Event<C>)
    requires Inv(s) && Enabled(s, e)
    ensures WellFormed(s.m) && Inv(Next(s, e))
  {
    match e
    case Dequeue => DequeueInv(s);
    case Timeout => FormOf(s); assert s.m.current.result != ClientOk; hide FineInv, WellFormed; WakeInv(s);
    case Response(r) => ResponseInv(s, r);
    case Outside(w) => WorldFine(s, w); WorldSameLoop(s, w); hide FineInv, WellFormed, WorldStep;
  }

  lemma WorldSameLoop<C>(s: Sys<C>, w: World<C>)
    requires WellFormed(s.m) && WorldEnabled(s, w)
    ensures var t := WorldStep(s, w);
            && t.m.loop == s.m.loop && t.job.accepted == s.job.accepted
            && t.m.current.result in {s.m.current.result, ClientDisconnect}
  {
    if w.ReadError? {
      RemoveEffect(s.m, w.client);
    }
    hide WellFormed, RemoveClient, Covered, Union, FilterToVector, Without;
  }

  // ---------------------------------------------------------------
  // Runs.

  ghost predicate CanRun<C>(s: Sys<C>, es: seq<Event<C>>)
    requires Inv(s)
    decreases |es|
  {
    |es| > 0 ==> Enabled(s, es[0]) && (NextInv(s, es[0]); CanRun(Next(s, es[0]), es[1..]))
  }

  ghost function Exec<C>(s: Sys<C>, es: seq<Event<C>>): (t: Sys<C>)
    requires Inv(s) && CanRun(s, es)
    ensures Inv(t)
    decreases |es|
  {
    if |es| == 0 then s else NextInv(s, es[0]); Exec(Next(s, es[0]), es[1..])
  }

  /** A state some atomic run from the start reaches. */
  ghost predicate ReachedBy<C>(s: Sys<C>, retries: nat, es: seq<Event<C>>) {
    InitInv<C>(retries);
    CanRun(Init(retries), es) && s == Exec(Init(retries), es)
  }

  /** In atomic runs every command taken for a connected client has had exactly
      one response of its own type when the loop is free again, and none while it
      waits, whatever responses arrive. */
  lemma ExactlyOneResponse<C>(s: Sys<C>, retries: nat, es: seq<Event<C>>, e: Event<C>)
    requires ReachedBy(s, retries, es) && Enabled(s, e)
    ensures WellFormed(s.m)
    ensures var t := Next(s, e);
            (e.Dequeue? || s.m.loop.Waiting?) && t.job.client.Some? ==>
              Answers(t) == if t.m.loop.Idle? then 1 else 0
  {
    NextInv(s, e);
    WaitingUnanswered(Next(s, e));
    match e
    case Dequeue => DequeueInv(s);
    case Timeout => assert s.m.current.result != ClientOk; WakeInv(s); hide FineInv, Answers;
    case Response(r) => ResponseInv(s, r); hide FineInv, Answers;
    case Outside(w) => WorldSameLoop(s, w); hide FineInv, Answers, WorldStep;
  }

  lemma WaitingUnanswered<C>(s: Sys<C>)
    requires Inv(s)
    ensures s.m.loop.Waiting? && s.job.client.Some? ==> Answers(s) == 0
  {
    hide Answers;
  }


  /** The copy `t` has handed to the link, if it is a client's SUBSCRIBE, decodes
      to the union of the requester's new filters and the committed filters of
      all other connected clients. */
  ghost predicate ExactCopy<C>(s: Sys<C>, t: Sys<C>) {
    && |t.sent| == |s.sent| + 1 && t.sent[..|s.sent|] == s.sent
    && var copy := t.sent[|s.sent|];
       copy.client.Some? && copy.typ == SUBSCRIBE ==>
         && (forall d :: d in t.m.clients ==> d in t.m.peers)
         && |copy.data| >= SUBSCRIBE_PARAMS_LENGTH
         && VectorToFilter(copy.data) == Union(Wanted(t.m.peers, t.m.clients, copy.client.value, t.job.asked))
  }

  lemma SendExact<C>(s: Sys<C>)
    requires FineInv(s) && s.m.running && s.m.loop.Sending? && s.m.current.result == ClientTimeout
    ensures ExactCopy(s, Transmit(s))
  {
    if SubscribeInProgress(s) {
      SendExactIff(s);
    }
    hide TransactionInv, AnsweredInv, UnionsInv, Answers, WellFormed, Union, VectorToFilter, Within;
  }

  /** In atomic runs no client is removed between the taking of a SUBSCRIBE and
      the handing over of any of its copies, so every copy is exact. */
  lemma FilterExact<C>(s: Sys<C>, retries: nat, es: seq<Event<C>>, e: Event<C>)
    requires ReachedBy(s, retries, es) && Enabled(s, e)
    ensures WellFormed(s.m)
    ensures Next(s, e).sent == s.sent || ExactCopy(s, Next(s, e))
  {
    FormOf(s);
    match e
    case Dequeue =>
      TakeFine(s);
      BeginFrame(s.m);
      hide FineInv, WellFormed, ExactCopy, Begin, Finish;
      if TakeCommand(s).m.loop.Sending? {
        SendExact(TakeCommand(s));
        SameSent(s, TakeCommand(s), Transmit(TakeCommand(s)));
      }
    case Timeout =>
      WakeFine(s);
      hide FineInv, WellFormed, ExactCopy, Finish;
      if WakeUp(s).m.loop.Sending? {
        SendExact(WakeUp(s));
        SameSent(s, WakeUp(s), Transmit(WakeUp(s)));
      }
    case Response(r) => hide FineInv, WellFormed, ExactCopy, Finish, CommandComplete;
    case Outside(w) => hide FineInv, WellFormed, ExactCopy, RemoveClient, HandleNotif, Covered;
  }

  lemma SameSent<C>(s: Sys<C>, u: Sys<C>, t: Sys<C>)
    requires u.sent == s.sent && ExactCopy(u, t)
    ensures ExactCopy(s, t)
  {
    hide Union, VectorToFilter;
  }

  // ---------------------------------------------------------------
  // Atomic runs are fine runs.

  /** The fine steps an atomic step is made of. */
  ghost function Expansion<C>(s: Sys<C>, e: Event<C>): seq<Step<C>>
    requires WellFormed(s.m) && Enabled(s, e)
  {
    match e
    case Dequeue =>
      var t := TakeCommand(s);
      if t.m.loop.Sending? then [Take, Send] else if t.m.loop.Finishing? then [Take, Clear] else [Take]
    case Timeout => [Wake] + [if WakeUp(s).m.loop.Sending? then Send else Clear]
    case Response(r) =>
      var t := Receive(s, r);
      if t.m.loop.Waiting? && t.m.current.result == ClientOk then [Arrive(r), Wake, Clear] else [Arrive(r)]
    case Outside(w) => [World(w)]
  }

  lemma AtomicIsFine<C>(s: Sys<C>, e: Event<C>)
    requires FineInv(s) && WellFormed(s.m) && Enabled(s, e)
    ensures CanDo(s, Expansion(s, e)) && DoAll(s, Expansion(s, e)) == Next(s, e)
  {
    hide FineInv, WellFormed, Enabled, Expansion, Next;
    match e
    case Dequeue => DequeueIsFine(s);
    case Timeout => TimeoutIsFine(s);
    case Response(r) => ResponseIsFine(s, r);
    case Outside(w) => OutsideIsFine(s, w);
  }

  lemma OutsideIsFine<C>(s: Sys<C>, w: World<C>)
    requires FineInv(s) && WellFormed(s.m) && Enabled(s, Outside(w))
    ensures CanDo(s, Expansion(s, Outside(w))) && DoAll(s, Expansion(s, Outside(w))) == Next(s, Outside(w))
  {
    hide FineInv, WellFormed, WorldStep, WorldEnabled;
    OneStep(s, World(w));
  }

  lemma TimeoutIsFine<C>(s: Sys<C>)
    requires FineInv(s) && WellFormed(s.m) && Enabled(s, Timeout)
    ensures CanDo(s, Expansion(s, Timeout)) && DoAll(s, Expansion(s, Timeout)) == Next(s, Timeout)
  {
    hide FineInv, WellFormed, FinishCommand, Transmit;
    DoFine(s, Wake);
    if WakeUp(s).m.loop.Sending? {
      TwoSteps(s, Wake, Send);
    } else {
      TwoSteps(s, Wake, Clear);
    }
  }

  lemma DequeueIsFine<C>(s: Sys<C>)
    requires FineInv(s) && WellFormed(s.m) && Enabled(s, Dequeue)
    ensures CanDo(s, Expansion(s, Dequeue)) && DoAll(s, Expansion(s, Dequeue)) == Next(s, Dequeue)
  {
    DoFine(s, Take);
    BeginFrame(s.m);
    hide FineInv, Begin, Finish, WellFormed;
    var t := TakeCommand(s);
    if t.m.loop.Sending? {
      TwoSteps(s, Take, Send);
    } else if t.m.loop.Finishing? {
      TwoSteps(s, Take, Clear);
    } else {
      OneStep(s, Take);
    }
  }

  lemma ResponseIsFine<C>(s: Sys<C>, r: Reply)
    requires FineInv(s) && WellFormed(s.m) && Enabled(s, Response(r))
    ensures CanDo(s, Expansion(s, Response(r))) && DoAll(s, Expansion(s, Response(r))) == Next(s, Response(r))
  {
    hide FineInv, WellFormed, Receive, FinishCommand;
    DoFine(s, Arrive(r));
    var t := Receive(s, r);
    StillRunning(s, r);
    if t.m.loop.Waiting? && t.m.current.result == ClientOk {
      DoFine(t, Wake);
      ThreeSteps(s, Arrive(r), Wake, Clear);
    } else {
      OneStep(s, Arrive(r));
    }
  }

  lemma StillRunning<C>(s: Sys<C>, r: Reply)
    requires WellFormed(s.m)
    ensures Receive(s, r).m.running == s.m.running
  {
    hide WellFormed;
  }

  lemma ThreeSteps<C>(s: Sys<C>, x: Step<C>, y: Step<C>, z: Step<C>)
    requires FineInv(s) && WellFormed(s.m) && Possible(s, x)
    requires var t := Do(s, x);
             WellFormed(t.m) && Possible(t, y) && WellFormed(Do(t, y).m) && Possible(Do(t, y), z)
    ensures CanDo(s, [x, y, z]) && DoAll(s, [x, y, z]) == Do(Do(Do(s, x), y), z)
  {
    hide Do, Possible, FineInv, WellFormed;
    DoFine(s, x);
    TwoSteps(Do(s, x), y, z);
    assert [x, y, z][1..] == [y, z];
  }

  lemma TwoSteps<C>(s: Sys<C>, x: Step<C>, y: Step<C>)
    requires FineInv(s) && WellFormed(s.m) && Possible(s, x) && WellFormed(Do(s, x).m) && Possible(Do(s, x), y)
    ensures CanDo(s, [x, y]) && DoAll(s, [x, y]) == Do(Do(s, x), y)
  {
    hide Do, Possible, FineInv, WellFormed;
    DoFine(s, x);
    OneStep(Do(s, x), y);
    assert [x, y][1..] == [y];
  }

  /** The fine steps of a whole atomic run. */
  ghost function ExpandRun<C>(s: Sys<C>, es: seq<Event<C>>): seq<Step<C>>
    requires Inv(s) && CanRun(s, es)
    decreases |es|
  {
    if |es| == 0 then [] else NextInv(s, es[0]); Expansion(s, es[0]) + ExpandRun(Next(s, es[0]), es[1..])
  }

  /** Every atomic run is a fine run that ends in the same state. */
  lemma {:induction false} AtomicRunIsFine<C>(s: Sys<C>, es: seq<Event<C>>)
    requires Inv(s) && CanRun(s, es)
    ensures FineInv(s) && CanDo(s, ExpandRun(s, es)) && DoAll(s, ExpandRun(s, es)) == Exec(s, es)
    decreases |es|
  {
    FormOf(s);
    if |es| > 0 {
      NextInv(s, es[0]);
      assert FineInv(s);
      hide Inv, FineInv, Next, Enabled, Expansion, WellFormed;
      AtomicIsFine(s, es[0]);
      AtomicRunIsFine(Next(s, es[0]), es[1..]);
      JoinRuns(s, Expansion(s, es[0]), ExpandRun(Next(s, es[0]), es[1..]));
    }
  }
}
