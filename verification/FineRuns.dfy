/** Runs in which every piece of the command loop, and every call of another
    thread, is a step of its own, in any order: what holds in every state, and
    what every finished command, SUBSCRIBE and notification has done. */
module FineRuns {
  import opened Bytes
  import opened MuxMessage
  import opened Subscription
  import opened Manager
  import opened Runs
  import opened Filters
  import opened Responses
  import opened Unions
  import opened FilterBits

  datatype Step<C> = Take | Send | Wake | Clear | Arrive(reply: Reply) | World(world: World<C>)

  ghost predicate Possible<C>(s: Sys<C>, x: Step<C>) {
    && s.m.running
    && match x
       case Take => s.m.loop.Idle? && |s.m.queue| > 0
       case Send => s.m.loop.Sending?
       case Wake => s.m.loop.Waiting?
       case Clear => s.m.loop.Finishing?
       case Arrive(r) => r.typ > NOTIFICATION
       case World(w) => WorldEnabled(s, w)
  }

  ghost function Do<C>(s: Sys<C>, x: Step<C>): Sys<C>
    requires WellFormed(s.m) && Possible(s, x)
  {
    match x
    case Take => TakeCommand(s)
    case Send => Transmit(s)
    case Wake => WakeUp(s)
    case Clear => FinishCommand(s)
    case Arrive(r) => Receive(s, r)
    case World(w) => WorldStep(s, w)
  }

  // ---------------------------------------------------------------
  // The invariant.

  ghost predicate FineInv<C>(s: Sys<C>) {
    && TransactionInv(s)
    && AnsweredInv(s)
    && AnswerInv(s) && NumberInv(s.m)
    && UnionsInv(s)
  }

  lemma FineForm<C>(s: Sys<C>)
    requires FineInv(s)
    ensures WellFormed(s.m)
  {
  }

  lemma InitFine<C>(retries: nat)
    ensures FineInv(Init<C>(retries))
  {
    InitTransaction<C>(retries);
    InitAnswered<C>(retries);
  }

  lemma TakeFine<C>(s: Sys<C>)
    requires FineInv(s) && Possible(s, Take)
    ensures FineInv(TakeCommand(s))
  {
    hide TransactionInv, AnsweredInv, AnswerInv, NumberInv, UnionsInv, TakeCommand;
    FineForm(s);
    TakeTransaction(s);
    TakeAnswered(s);
    TakeAnswers(s);
    TakeUnions(s);
  }

  lemma SendFine<C>(s: Sys<C>)
    requires FineInv(s) && s.m.loop.Sending?
    ensures FineInv(Transmit(s))
  {
    assert AnsweredInv(Transmit(s));
    hide TransactionInv, AnsweredInv, AnswerInv, NumberInv, UnionsInv, Transmit;
    TransmitAnswers(s);
    TransmitUnions(s);
  }

  lemma WakeFine<C>(s: Sys<C>)
    requires FineInv(s) && s.m.loop.Waiting?
    ensures FineInv(WakeUp(s))
  {
    assert AnsweredInv(WakeUp(s));
    hide TransactionInv, AnsweredInv, AnswerInv, NumberInv, UnionsInv, WakeUp;
    WakeAnswers(s);
    WakeUnions(s);
  }

  lemma ClearFine<C>(s: Sys<C>)
    requires FineInv(s) && s.m.loop.Finishing?
    ensures WellFormed(s.m) && FineInv(FinishCommand(s))
  {
    hide TransactionInv, AnsweredInv, AnswerInv, NumberInv, UnionsInv, FinishCommand;
    FineForm(s);
    FinishAnswered(s);
    FinishAnswers(s);
    FinishUnions(s);
  }

  lemma ArriveFine<C>(s: Sys<C>, r: Reply)
    requires FineInv(s) && r.typ > NOTIFICATION
    ensures WellFormed(s.m) && FineInv(Receive(s, r))
  {
    hide TransactionInv, AnsweredInv, AnswerInv, NumberInv, UnionsInv, Receive;
    FineForm(s);
    ReceiveAnswered(s, r);
    ReceiveAnswers(s, r);
    ReceiveUnions(s, r);
  }

  lemma WorldFine<C>(s: Sys<C>, w: World<C>)
    requires FineInv(s) && WorldEnabled(s, w)
    ensures WellFormed(s.m) && FineInv(WorldStep(s, w))
  {
    hide TransactionInv, AnsweredInv, AnswerInv, NumberInv, UnionsInv, WorldStep, WorldEnabled;
    FineForm(s);
    WorldTransaction(s, w);
    WorldAnswered(s, w);
    WorldAnswers(s, w);
    WorldUnions(s, w);
  }

  lemma DoFine<C>(s: Sys<C>, x: Step<C>)
    requires FineInv(s) && Possible(s, x)
    ensures WellFormed(s.m) && FineInv(Do(s, x)) && WellFormed(Do(s, x).m)
  {
    hide FineInv, WellFormed, TakeCommand, Transmit, WakeUp, FinishCommand, Receive, WorldStep;
    FineForm(s);
    match x {
      case Take => TakeFine(s);
      case Send => SendFine(s);
      case Wake => WakeFine(s);
      case Clear => ClearFine(s);
      case Arrive(r) => ArriveFine(s, r);
      case World(w) => WorldFine(s, w);
    }
    FineForm(Do(s, x));
  }

  // ---------------------------------------------------------------
  // Runs.

  ghost predicate CanDo<C>(s: Sys<C>, xs: seq<Step<C>>)
    requires FineInv(s)
    decreases |xs|
  {
    |xs| > 0 ==> Possible(s, xs[0]) && (DoFine(s, xs[0]); CanDo(Do(s, xs[0]), xs[1..]))
  }

  ghost function DoAll<C>(s: Sys<C>, xs: seq<Step<C>>): (t: Sys<C>)
    requires FineInv(s) && CanDo(s, xs)
    ensures FineInv(t)
    decreases |xs|
  {
    if |xs| == 0 then s else DoFine(s, xs[0]); DoAll(Do(s, xs[0]), xs[1..])
  }

  /** A state some run from the start reaches. */
  ghost predicate FineReachedBy<C>(s: Sys<C>, retries: nat, xs: seq<Step<C>>) {
    FineInv(Init<C>(retries)) && CanDo(Init(retries), xs) && s == DoAll(Init(retries), xs)
  }

  lemma OneStep<C>(s: Sys<C>, x: Step<C>)
    requires FineInv(s) && Possible(s, x) && WellFormed(s.m)
    ensures CanDo(s, [x]) && DoAll(s, [x]) == Do(s, x)
  {
    hide Do, Possible, FineInv, WellFormed;
    DoFine(s, x);
    assert [x][1..] == [];
  }

  lemma {:induction false} JoinRuns<C>(s: Sys<C>, a: seq<Step<C>>, b: seq<Step<C>>)
    requires FineInv(s) && CanDo(s, a) && CanDo(DoAll(s, a), b)
    ensures CanDo(s, a + b) && DoAll(s, a + b) == DoAll(DoAll(s, a), b)
    decreases |a|
  {
    hide Do, Possible, FineInv, WellFormed;
    if |a| == 0 {
      assert a + b == b;
    } else {
      DoFine(s, a[0]);
      assert (a + b)[0] == a[0] && (a + b)[1..] == a[1..] + b;
      JoinRuns(Do(s, a[0]), a[1..], b);
    }
  }

  /** A run may be cut anywhere. */
  lemma {:induction false} CutRun<C>(s: Sys<C>, a: seq<Step<C>>, b: seq<Step<C>>)
    requires FineInv(s) && CanDo(s, a + b)
    ensures CanDo(s, a) && CanDo(DoAll(s, a), b) && DoAll(s, a + b) == DoAll(DoAll(s, a), b)
    decreases |a|
  {
    hide Do, Possible, FineInv, WellFormed;
    FineForm(s);
    if |a| == 0 {
      assert a + b == b;
    } else {
      assert (a + b)[0] == a[0] && (a + b)[1..] == a[1..] + b;
      DoFine(s, a[0]);
      CutRun(Do(s, a[0]), a[1..], b);
    }
  }

  lemma ReachedFine<C>(s: Sys<C>, retries: nat, xs: seq<Step<C>>)
    requires FineReachedBy(s, retries, xs)
    ensures FineInv(s) && WellFormed(s.m)
  {
    FineForm(s);
    hide FineInv, WellFormed;
  }

  /** One more step of a run. */
  lemma Extend<C>(s: Sys<C>, retries: nat, xs: seq<Step<C>>, x: Step<C>)
    requires FineReachedBy(s, retries, xs) && Possible(s, x)
    ensures WellFormed(s.m) && WellFormed(Do(s, x).m) && FineReachedBy(Do(s, x), retries, xs + [x])
  {
    hide Do, Possible, FineInv, WellFormed;
    FineForm(s);
    DoFine(s, x);
    OneStep(s, x);
    JoinRuns(Init(retries), xs, [x]);
  }

  lemma StartReached<C>(retries: nat)
    ensures FineReachedBy(Init<C>(retries), retries, [])
  {
    InitFine<C>(retries);
    hide FineInv;
  }

  // ---------------------------------------------------------------
  // Filters.

  /** Whenever no command is in progress, every client's pending filters are its
      committed ones, and these are the filters of its latest answered
      SUBSCRIBE. */
  lemma SettledWhenIdle<C>(s: Sys<C>, retries: nat, xs: seq<Step<C>>, c: C)
    requires FineReachedBy(s, retries, xs) && s.m.loop.Idle? && c in s.m.peers
    ensures Settled(s.m.peers[c]) && s.m.peers[c].params == AskedBy(Latest(s.answered, c))
  {
    hide AnswerInv, NumberInv, UnionsInv, Latest;
  }

  /** A client receives a notification of type t < 31 exactly once if it is
      connected and bit t % 8 of byte 3 - t / 8 is set in the payload of its
      latest answered SUBSCRIBE, and not at all otherwise. */
  lemma NotificationExact<C>(s: Sys<C>, retries: nat, xs: seq<Step<C>>, typ: byte, payload: ByteVector, c: C)
    requires FineReachedBy(s, retries, xs)
    requires Possible(s, World(World.Notification(typ, payload))) && c in s.m.peers
    ensures WellFormed(s.m)
    ensures var t := Do(s, World(World.Notification(typ, payload)));
            && c in t.m.peers
            && t.m.peers[c].written == s.m.peers[c].written +
               if c in s.m.clients && AsksFor(Latest(s.answered, c), typ)
               then [Output(20, typ, payload)] else []
  {
    hide AnswerInv, NumberInv, UnionsInv, Latest, FilterMatch, BitSet, VectorToFilter;
    LatestIsLong(s.answered, c);
    NoneMatches(typ);
    if Latest(s.answered, c).Some? {
      MatchPayloadBit(Latest(s.answered, c).value, typ);
    }
  }

  /** A SUBSCRIBE payload with the bit of a notification type. */
  predicate AsksFor(payload: Option<ByteVector>, t: byte)
    requires t < 31
  {
    payload.Some? && |payload.value| >= 8 && BitSet(payload.value[3 - t / 8], t % 8)
  }

  lemma NoneMatches(t: nat)
    requires t < 31
    ensures !FilterMatch(NO_PARAMS, t)
  {
    hide FilterMatch;
    MatchBit(NO_PARAMS, t);
    NoBits(t);
  }

  /** The filters the clients want while `c` asks for `asked`: its new filters,
      and everyone else's committed ones. */
  function Wanted<C(==)>(peers: map<C, Peer>, clients: seq<C>, c: C, asked: Params): (ps: seq<Params>)
    requires forall d :: d in clients ==> d in peers
    ensures |ps| == |clients|
  {
    seq(|clients|, i requires 0 <= i < |clients| => if clients[i] == c then asked else peers[clients[i]].params)
  }

  /** Every copy of a client's SUBSCRIBE handed to the link, first or resent,
      decodes to the union of the requester's new filters and the committed
      filters of all other connected clients, exactly if nobody was removed
      since it was taken with a filter bit that no other client asked for. In
      any case it has every bit of that union. */
  lemma FilterExactIff<C>(s: Sys<C>, retries: nat, xs: seq<Step<C>>)
    requires FineReachedBy(s, retries, xs) && Possible(s, Send) && SubscribeInProgress(s)
    ensures WellFormed(s.m)
    ensures var t := Do(s, Send);
            && |t.sent| == |s.sent| + 1 && t.sent[..|s.sent|] == s.sent
            && var copy := t.sent[|s.sent|];
            && copy.client == s.job.client && copy.client.Some? && copy.typ == SUBSCRIBE
            && |copy.data| >= SUBSCRIBE_PARAMS_LENGTH
            && (forall d :: d in t.m.clients ==> d in t.m.peers)
            && var wanted := Union(Wanted(t.m.peers, t.m.clients, copy.client.value, s.job.asked));
            && Within(wanted, VectorToFilter(copy.data))
            && (VectorToFilter(copy.data) == wanted <==> !s.job.uncovered)
  {
    SendExactIff(s);
    hide FineInv, Union, VectorToFilter;
  }

  lemma SendExactIff<C>(s: Sys<C>)
    requires FineInv(s) && s.m.loop.Sending? && SubscribeInProgress(s)
    ensures WellFormed(s.m)
    ensures var cmd := s.m.loop.cmd;
            && cmd.client == s.job.client && |cmd.message.data| >= SUBSCRIBE_PARAMS_LENGTH
            && (forall d :: d in s.m.clients ==> d in s.m.peers)
            && var wanted := Union(Wanted(s.m.peers, s.m.clients, cmd.client.value, s.job.asked));
            && Within(wanted, VectorToFilter(cmd.message.data))
            && (VectorToFilter(cmd.message.data) == wanted <==> !s.job.uncovered)
  {
    hide Union, VectorToFilter, NoDuplicates, Within, AnsweredInv, UnionInv;
    assert Wanted(s.m.peers, s.m.clients, s.m.loop.cmd.client.value, s.job.asked) == Pending(s.m.peers, s.m.clients);
  }

  // ---------------------------------------------------------------
  // Responses.

  /** Responses to a finished command: one for each accepted while it was in
      progress, and a timeout unless its result is OK. There is exactly one if
      none was accepted, or one and the result is OK. A command that is not for
      the link is answered once, at once. */
  lemma AnsweredOnceIff<C>(s: Sys<C>, retries: nat, xs: seq<Step<C>>, x: Step<C>)
    requires FineReachedBy(s, retries, xs) && Possible(s, x) && (x.Take? || x.Clear?)
    ensures WellFormed(s.m)
    ensures var t := Do(s, x);
            t.job.client.Some? ==>
              && (x.Take? && t.m.loop.Idle? ==> Answers(t) == 1)
              && (x.Clear? ==> Answers(t) == s.job.accepted + if s.m.loop.result == ClientOk then 0 else 1)
              && (x.Clear? ==>
                    (Answers(t) == 1 <==>
                       s.job.accepted == 0 || (s.job.accepted == 1 && s.m.loop.result == ClientOk)))
    ensures x.Take? ==>
              var cmd := s.m.queue[0];
              Do(s, x).job.client == if cmd.client.Some? && cmd.client.value in s.m.clients then cmd.client else None
  {
    FineForm(s);
    if x.Take? {
      TakeAnswers(s);
    } else {
      FinishAnswers(s);
      assert s.m.loop.result == ClientOk ==> s.job.accepted > 0;
    }
    hide WellFormed, TransactionInv, AnsweredInv, AnswerInv, NumberInv, UnionsInv, Answers, Begin, Finish;
  }

  /** Without any assumption on how steps interleave, every command taken for a
      connected client has had at least one response of its own type when the
      loop lets go of it. */
  lemma AtLeastOneResponse<C>(s: Sys<C>, retries: nat, xs: seq<Step<C>>, x: Step<C>)
    requires FineReachedBy(s, retries, xs) && Possible(s, x)
    ensures WellFormed(s.m)
    ensures var t := Do(s, x);
            (x.Take? && t.m.loop.Idle?) || x.Clear? ==>
              t.job.client.Some? ==> Answers(t) >= 1
  {
    FineForm(s);
    hide FineInv, WellFormed, Answers, Possible, Do, FineReachedBy;
    if x.Take? || x.Clear? {
      AnsweredOnceIff(s, retries, xs, x);
    }
  }

  /** Before the first copy of a command is handed to the link, a response is
      accepted exactly if it has the command's type and the number 0. */
  lemma AcceptedUnsentIff<C>(s: Sys<C>, retries: nat, xs: seq<Step<C>>, r: Reply)
    requires FineReachedBy(s, retries, xs) && Possible(s, Arrive(r)) && Unsent(s.m)
    ensures Accepted(s, r) <==> r.seqNo == 0 && r.typ == s.m.loop.cmd.message.typ
  {
    hide AnsweredInv, AnswerInv, UnionsInv;
  }


  /** A command in progress that got its first response while the loop waits. */
  ghost predicate FirstAnswer<C>(s: Sys<C>, r: Reply) {
    && FineInv(s) && s.m.running && s.m.loop.Waiting? && s.job.client.Some? && s.job.accepted == 0
    && r.typ > NOTIFICATION && Accepted(s, r)
  }

  lemma AfterAnswer<C>(s: Sys<C>, r: Reply)
    requires FineInv(s) && s.m.loop.Waiting? && r.typ > NOTIFICATION && Accepted(s, r)
    ensures WellFormed(s.m)
    ensures var t := Receive(s, r);
            && FineInv(t) && t.m.loop == s.m.loop && t.m.running == s.m.running && t.m.clients == s.m.clients
            && t.job == s.job.(accepted := s.job.accepted + 1) && t.m.current.result == ClientOk && Accepted(t, r)
  {
    ArriveFine(s, r);
    hide FineInv;
  }

  lemma AfterRemoval<C>(s: Sys<C>, gone: C)
    requires FineInv(s) && s.m.running && s.m.loop.Waiting? && s.job.client.Some? && gone in s.m.clients
    ensures WellFormed(s.m) && WorldEnabled(s, ReadError(gone))
    ensures var t := WorldStep(s, ReadError(gone));
            && FineInv(t) && t.m.loop == s.m.loop && t.m.running && t.m.current.result == ClientDisconnect
            && t.job.client == s.job.client && t.job.accepted == s.job.accepted
  {
    WorldFine(s, ReadError(gone));
    RemoveEffect(s.m, gone);
    hide UnionsInv, TransactionInv, AnsweredInv, Union, FilterToVector, Without, Covered, Answers, NoDuplicates;
  }

  /** Waking on a result and clearing the command. */
  lemma AfterWake<C>(s: Sys<C>)
    requires FineInv(s) && s.m.loop.Waiting? && s.job.client.Some? && s.m.current.result != ClientTimeout
    ensures var t := WakeUp(s);
            && WellFormed(t.m) && t.m.loop.Finishing?
            && Answers(FinishCommand(t)) == s.job.accepted + if s.m.current.result == ClientOk then 0 else 1
  {
    WakeFine(s);
    FineForm(WakeUp(s));
    FinishAnswers(WakeUp(s));
    hide FineInv, Answers, WellFormed, Finish;
  }

  /** A removal between an accepted response and the loop's waking gives a second
      response. */
  lemma RemovalCanAnswerTwice<C>(s: Sys<C>, r: Reply, gone: C)
    requires FirstAnswer(s, r) && gone in s.m.clients
    ensures WellFormed(s.m)
    ensures var s1 := Receive(s, r);
            && WellFormed(s1.m) && WorldEnabled(s1, ReadError(gone))
            && var s2 := WorldStep(s1, ReadError(gone));
            && s2.m.loop.Waiting?
            && var s3 := WakeUp(s2);
            && WellFormed(s3.m) && s3.m.loop.Finishing?
            && Answers(FinishCommand(s3)) == 2
  {
    hide FineInv, WellFormed, Receive, WorldStep, WakeUp, FinishCommand, Answers, WorldEnabled, Accepted;
    AfterAnswer(s, r);
    var s1 := Receive(s, r);
    AfterRemoval(s1, gone);
    AfterWake(WorldStep(s1, ReadError(gone)));
  }

  // ---------------------------------------------------------------
  // Rollback and refusal.

  /** Same union, and both filters of everyone known before. */
  ghost predicate SameFilters<C>(before: Manager<C>, m: Manager<C>) {
    && m.filterUnion == before.filterUnion
    && forall d :: d in before.peers ==>
         d in m.peers
         && m.peers[d].params == before.peers[d].params
         && m.peers[d].newParams == before.peers[d].newParams
  }

  /** What a client's SUBSCRIBE that was not answered in time leaves behind. */
  lemma ClearRollsBackIff<C>(s: Sys<C>)
    requires FineInv(s) && s.m.loop.Finishing? && SubscribeInProgress(s) && s.m.loop.result != ClientOk
    ensures WellFormed(s.m)
    ensures var t := FinishCommand(s);
            && !t.m.running && t.m.clients == []
            && (!s.job.removed ==> s.m.prevFilter == s.job.before.filterUnion)
            && s.job.client.Some? && s.job.client.value in s.job.before.peers
            && (SameFilters(s.job.before, t.m) <==>
                  && s.m.prevFilter == s.job.before.filterUnion
                  && (s.job.accepted == 0 || s.job.asked == s.job.before.peers[s.job.client.value].params))
  {
    hide NoDuplicates, Union, VectorToFilter, Answers, AnsweredInv, Everyone, PayloadInv;
  }

  /** No further command is taken. */
  ghost predicate NoTake<C>(xs: seq<Step<C>>) {
    forall x :: x in xs ==> !x.Take?
  }

  /** The same command, or none. */
  ghost predicate SameCommand<C>(s: Sys<C>, t: Sys<C>) {
    && t.job.before == s.job.before && t.job.client == s.job.client && t.job.asked == s.job.asked
    && (s.m.loop.Idle? ==> t.m.loop.Idle?)
    && (!t.m.loop.Idle? ==> t.m.loop.cmd == s.m.loop.cmd)
  }

  lemma StepKeepsCommand<C>(s: Sys<C>, x: Step<C>)
    requires WellFormed(s.m) && Possible(s, x) && !x.Take?
    ensures SameCommand(s, Do(s, x))
  {
    if x.World? && x.world.ReadError? {
      RemoveEffect(s.m, x.world.client);
    }
    hide RemoveClient, Union, FilterToVector, Without, WellFormed, Covered, TimedOut, CloseAll, Notified;
  }

  lemma {:induction false} RunKeepsCommand<C>(s: Sys<C>, xs: seq<Step<C>>)
    requires FineInv(s) && CanDo(s, xs) && NoTake(xs)
    ensures SameCommand(s, DoAll(s, xs))
    decreases |xs|
  {
    hide Do, Possible, FineInv, WellFormed;
    FineForm(s);
    if |xs| > 0 {
      assert xs[0] in xs;
      DoFine(s, xs[0]);
      StepKeepsCommand(s, xs[0]);
      assert NoTake(xs[1..]);
      RunKeepsCommand(Do(s, xs[0]), xs[1..]);
    }
  }

  /** A client's SUBSCRIBE whose result is not OK leaves the union and both filters
      of every client as they were when it was taken if and only if the union
      saved last is that of before, and no response was accepted or the client
      asked for what it had; then the connection is reset. Without a removal the
      union saved last is that of before. */
  lemma RollsBackIff<C>(s: Sys<C>, u: Sys<C>, retries: nat, xs: seq<Step<C>>, mid: seq<Step<C>>)
    requires FineReachedBy(s, retries, xs) && Possible(s, Take)
    requires FineReachedBy(u, retries, xs + [Take] + mid) && NoTake(mid)
    requires Possible(u, Clear) && SubscribeInProgress(u) && u.m.loop.result != ClientOk
    ensures WellFormed(u.m)
    ensures var t := Do(u, Clear);
            && !t.m.running && t.m.clients == []
            && (!u.job.removed ==> u.m.prevFilter == s.m.filterUnion)
            && u.job.client.Some? && u.job.client.value in s.m.peers
            && (SameFilters(s.m, t.m) <==>
                  && u.m.prevFilter == s.m.filterUnion
                  && (u.job.accepted == 0 || u.job.asked == s.m.peers[u.job.client.value].params))
  {
    hide FineInv, WellFormed, Do, Possible, SameFilters, FinishCommand;
    SinceTaken(s, u, retries, xs, mid);
    FineForm(u);
    ClearIsFinish(u);
    ClearRollsBackIff(u);
  }

  /** What was recorded when a command was taken is the state it was taken in. */
  lemma SinceTaken<C>(s: Sys<C>, u: Sys<C>, retries: nat, xs: seq<Step<C>>, mid: seq<Step<C>>)
    requires FineReachedBy(s, retries, xs) && Possible(s, Take)
    requires FineReachedBy(u, retries, xs + [Take] + mid) && NoTake(mid)
    ensures FineInv(u) && u.job.before == s.m
  {
    FineForm(s);
    TakenJob(s);
    hide FineInv, WellFormed, Do, Possible;
    var start := Init<C>(retries);
    assert xs + [Take] + mid == xs + ([Take] + mid);
    CutRun(start, xs, [Take] + mid);
    CutRun(s, [Take], mid);
    OneStep(s, Take);
    RunKeepsCommand(Do(s, Take), mid);
  }

  /** A client's SUBSCRIBE that ends without a response and with no client
      removed meanwhile leaves the union and both filters of every client as
      they were when it was taken; then the connection is reset. */
  lemma SubscribeRollsBack<C>(s: Sys<C>, u: Sys<C>, retries: nat, xs: seq<Step<C>>, mid: seq<Step<C>>)
    requires FineReachedBy(s, retries, xs) && Possible(s, Take)
    requires FineReachedBy(u, retries, xs + [Take] + mid) && NoTake(mid)
    requires Possible(u, Clear) && SubscribeInProgress(u) && !u.job.removed && u.job.accepted == 0
    ensures WellFormed(u.m)
    ensures var t := Do(u, Clear);
            SameFilters(s.m, t.m) && !t.m.running && t.m.clients == []
  {
    NotOk(u);
    hide FineInv, FineReachedBy, WellFormed, Do, Possible, SameFilters;
    RollsBackIff(s, u, retries, xs, mid);
  }

  lemma NotOk<C>(s: Sys<C>)
    requires FineInv(s) && Possible(s, Clear) && s.job.accepted == 0
    ensures s.m.loop.Finishing? && s.m.loop.result != ClientOk
  {
    hide TransactionInv, AnsweredInv, UnionsInv, Answers;
  }

  lemma TakenJob<C>(s: Sys<C>)
    requires WellFormed(s.m) && Possible(s, Take)
    ensures Do(s, Take).job.before == s.m
  {
    hide WellFormed, Begin;
  }

  lemma ClearIsFinish<C>(s: Sys<C>)
    requires WellFormed(s.m) && Possible(s, Clear)
    ensures s.m.loop.Finishing? && Do(s, Clear) == FinishCommand(s)
  {
  }

  /** An accepted response that refuses a SUBSCRIBE, a client's or not. */
  ghost predicate Refuses<C>(s: Sys<C>, r: Reply) {
    Accepted(s, r) && r.typ == SUBSCRIBE && r.code != OK
  }

  /** Every accepted error answer to a SUBSCRIBE sets the union to the one saved
      last and yet commits what the client asked for. The union is then that of
      all clients if and only if the saved one is. */
  lemma ErrorAnswerCommits<C>(s: Sys<C>, retries: nat, xs: seq<Step<C>>, r: Reply)
    requires FineReachedBy(s, retries, xs) && Possible(s, Arrive(r)) && Refuses(s, r)
    ensures WellFormed(s.m)
    ensures var t := Do(s, Arrive(r));
            && t.m.filterUnion == s.m.prevFilter
            && (forall d :: d in t.m.clients ==> d in t.m.peers)
            && (t.m.filterUnion == Everyone(t.m) <==> s.m.prevFilter == Everyone(s.m))
            && (s.m.current.client.Some? ==>
                  var c := s.m.current.client.value;
                  c in t.m.peers && t.m.peers[c].params == s.job.asked)
  {
    AcceptedAsks(s, r);
    ArriveSameEveryone(s, r);
    hide FineInv, WellFormed, Everyone;
  }
}
