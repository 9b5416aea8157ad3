/** Filter transactions over runs: which pending filters differ from the
    committed ones, and which filters have been answered. */
module Filters {
  import opened Bytes
  import opened MuxMessage
  import opened Subscription
  import opened Manager
  import opened Runs

  predicate Settled(p: Peer) {
    p.newParams == p.params && !p.inTransaction
  }

  ghost predicate Busy<C>(s: Sys<C>) {
    !s.m.loop.Idle?
  }

  /** The command in progress is a client's SUBSCRIBE. */
  ghost predicate Subscribing<C>(s: Sys<C>, c: C) {
    Busy(s) && s.m.loop.cmd.client == Some(c) && s.m.loop.cmd.message.typ == SUBSCRIBE
  }

  /** Every client is settled, except the one whose SUBSCRIBE is in progress,
      which asks for the filters it sent; once it is answered it is settled. */
  ghost predicate TransactionInv<C>(s: Sys<C>) {
    && WellFormed(s.m)
    && (forall c :: c in s.m.peers && !Subscribing(s, c) ==> Settled(s.m.peers[c]))
    && (Busy(s) && s.m.loop.cmd.client.Some? && s.m.loop.cmd.message.typ == SUBSCRIBE ==>
          var p := s.m.peers[s.m.loop.cmd.client.value];
          && p.newParams == s.job.asked
          && |s.job.payload| >= SUBSCRIBE_PARAMS_LENGTH && s.job.asked == VectorToFilter(s.job.payload)
          && (s.m.current.result == ClientOk ==> Settled(p))
          && (s.m.loop.Finishing? && s.m.loop.result == ClientOk ==> Settled(p)))
  }

  lemma InitTransaction<C>(retries: nat)
    ensures TransactionInv(Init<C>(retries))
  {
  }

  lemma WorldTransaction<C>(s: Sys<C>, w: World<C>)
    requires TransactionInv(s) && WorldEnabled(s, w)
    ensures TransactionInv(WorldStep(s, w))
  {
    WorldKeepsForm(s, w);
    hide Union, FilterMatch, FilterToVector, VectorToFilter, Without, NoDuplicates, Pending, Covered;
    match w
    case Connect(c, _) =>
    case ReadError(c) => RemoveEffect(s.m, c);
    case Request(c, message) =>
    case Notification(_, _) =>
    case HelloResponse(_) =>
    case ManagerHello =>
  }

  lemma TakeTransaction<C>(s: Sys<C>)
    requires TransactionInv(s) && s.m.loop.Idle? && |s.m.queue| > 0
    ensures TransactionInv(TakeCommand(s))
  {
    TakeKeepsForm(s);
    hide Union, VectorToFilter, FilterToVector, NoDuplicates, Pending, LocalReply;
    var cmd := s.m.queue[0];
    assert cmd in s.m.queue;
    if cmd.client.Some? && cmd.client.value !in s.m.clients {
    } else if !Forwarded(cmd.message) {
    } else if cmd.message.typ == SUBSCRIBE && cmd.client.Some? {
    } else {
    }
  }

  lemma TransmitTransaction<C>(s: Sys<C>)
    requires TransactionInv(s) && s.m.loop.Sending?
    ensures TransactionInv(Transmit(s))
  {
  }

  lemma WakeTransaction<C>(s: Sys<C>)
    requires TransactionInv(s) && s.m.loop.Waiting?
    ensures TransactionInv(WakeUp(s))
  {
  }

  lemma ReceiveTransaction<C>(s: Sys<C>, r: Reply)
    requires TransactionInv(s) && r.typ > NOTIFICATION
    ensures TransactionInv(Receive(s, r))
  {
    ReceiveKeepsForm(s, r);
    hide NoDuplicates, VectorToFilter;
  }

  lemma FinishTransaction<C>(s: Sys<C>)
    requires TransactionInv(s) && s.m.loop.Finishing?
    ensures TransactionInv(FinishCommand(s))
  {
    FinishKeepsForm(s);
    hide NoDuplicates;
  }

  // ---------------------------------------------------------------
  // Answered subscriptions.

  /** The payload of a client's latest answered SUBSCRIBE; none before its
      first. */
  function Latest<C(==)>(answered: seq<(C, ByteVector)>, c: C): Option<ByteVector> {
    if |answered| == 0 then None
    else if answered[|answered| - 1].0 == c then Some(answered[|answered| - 1].1)
    else Latest(answered[..|answered| - 1], c)
  }

  /** The filters a payload asks for; none without one. */
  function AskedBy(payload: Option<ByteVector>): Params {
    if payload.Some? && |payload.value| >= SUBSCRIBE_PARAMS_LENGTH then VectorToFilter(payload.value) else NO_PARAMS
  }

  /** Committed filters are those of the latest answered SUBSCRIBE. */
  ghost predicate AnsweredInv<C>(s: Sys<C>) {
    && (forall c :: c in s.m.peers ==> s.m.peers[c].params == AskedBy(Latest(s.answered, c)))
    && (forall a :: a in s.answered ==> a.0 in s.m.peers && |a.1| >= SUBSCRIBE_PARAMS_LENGTH)
  }

  lemma {:induction false} NeverAnswered<C>(answered: seq<(C, ByteVector)>, c: C)
    requires forall a :: a in answered ==> a.0 != c
    ensures Latest(answered, c) == None
  {
    if |answered| > 0 {
      assert answered[|answered| - 1] in answered;
      NeverAnswered(answered[..|answered| - 1], c);
    }
  }

  lemma {:induction false} LatestIsLong<C>(answered: seq<(C, ByteVector)>, c: C)
    requires forall a :: a in answered ==> |a.1| >= SUBSCRIBE_PARAMS_LENGTH
    ensures Latest(answered, c).Some? ==> |Latest(answered, c).value| >= SUBSCRIBE_PARAMS_LENGTH
  {
    if |answered| > 0 {
      assert answered[|answered| - 1] in answered;
      LatestIsLong(answered[..|answered| - 1], c);
    }
  }

  lemma InitAnswered<C>(retries: nat)
    ensures AnsweredInv(Init<C>(retries))
  {
  }

  lemma WorldAnswered<C>(s: Sys<C>, w: World<C>)
    requires WellFormed(s.m) && AnsweredInv(s) && WorldEnabled(s, w)
    ensures AnsweredInv(WorldStep(s, w))
  {
    hide Union, FilterMatch, FilterToVector, VectorToFilter, Without, NoDuplicates, Pending, Covered;
    match w
    case Connect(c, _) => NeverAnswered(s.answered, c);
    case ReadError(c) => RemoveEffect(s.m, c);
    case Request(c, message) =>
    case Notification(_, _) =>
    case HelloResponse(_) =>
    case ManagerHello =>
  }

  lemma BeginCommits<C>(m: Manager<C>)
    requires WellFormed(m) && m.loop.Idle? && |m.queue| > 0
    ensures Begin(m).peers.Keys == m.peers.Keys
    ensures forall d :: d in m.peers ==> Begin(m).peers[d].params == m.peers[d].params
  {
    hide Union, VectorToFilter, FilterToVector, NoDuplicates, Pending, LocalReply;
    assert m.queue[0] in m.queue;
  }

  lemma TakeAnswered<C>(s: Sys<C>)
    requires WellFormed(s.m) && AnsweredInv(s) && s.m.loop.Idle? && |s.m.queue| > 0
    ensures AnsweredInv(TakeCommand(s))
  {
    BeginCommits(s.m);
    hide WellFormed, Begin, Latest, AskedBy, VectorToFilter;
  }

  /** An accepted response is for the command in progress; if that is a
      client's SUBSCRIBE, its pending filters are those it asked for. */
  lemma AcceptedAsks<C>(s: Sys<C>, r: Reply)
    requires TransactionInv(s) && r.typ > NOTIFICATION && Accepted(s, r)
    ensures s.m.current.client.Some? ==>
              var c := s.m.current.client.value;
              c in s.m.peers &&
              (r.typ == SUBSCRIBE ==>
                 && s.m.peers[c].newParams == s.job.asked
                 && |s.job.payload| >= SUBSCRIBE_PARAMS_LENGTH && s.job.asked == VectorToFilter(s.job.payload))
  {
    hide NoDuplicates;
  }

  lemma LatestAppend<C>(answered: seq<(C, ByteVector)>, a: (C, ByteVector), c: C)
    ensures Latest(answered + [a], c) == if a.0 == c then Some(a.1) else Latest(answered, c)
  {
    assert (answered + [a])[..|answered|] == answered;
  }

  /** What a response does to committed filters and to what has been answered. */
  lemma ReceiveCommits<C>(s: Sys<C>, r: Reply)
    requires WellFormed(s.m) && r.typ > NOTIFICATION
    ensures var t := Receive(s, r);
            && t.m.peers.Keys == s.m.peers.Keys
            && if Accepted(s, r) && r.typ == SUBSCRIBE && s.m.current.client.Some? then
                 var c := s.m.current.client.value;
                 && c in s.m.peers && t.answered == s.answered + [(c, s.job.payload)]
                 && forall d :: d in s.m.peers ==>
                      t.m.peers[d].params == if d == c then s.m.peers[c].newParams else s.m.peers[d].params
               else
                 && t.answered == s.answered
                 && forall d :: d in s.m.peers ==> t.m.peers[d].params == s.m.peers[d].params
  {
    hide NoDuplicates;
  }

  lemma ReceiveAnswered<C>(s: Sys<C>, r: Reply)
    requires TransactionInv(s) && AnsweredInv(s) && r.typ > NOTIFICATION
    ensures AnsweredInv(Receive(s, r))
  {
    assert WellFormed(s.m);
    hide TransactionInv, WellFormed, VectorToFilter, Receive, Accepted, Latest, AnsweredInv;
    ReceiveCommits(s, r);
    if Accepted(s, r) {
      AcceptedAsks(s, r);
    }
    if Accepted(s, r) && r.typ == SUBSCRIBE && s.m.current.client.Some? {
      OneAnswered(s, Receive(s, r), s.m.current.client.value);
    } else {
      SameAnswered(s, Receive(s, r));
    }
  }

  lemma SameAnswered<C>(s: Sys<C>, t: Sys<C>)
    requires AnsweredInv(s) && t.answered == s.answered && t.m.peers.Keys == s.m.peers.Keys
    requires forall d :: d in s.m.peers ==> t.m.peers[d].params == s.m.peers[d].params
    ensures AnsweredInv(t)
  {
    hide Latest, AskedBy;
  }

  /** One more SUBSCRIBE is answered, and the filters it asks for are committed. */
  lemma OneAnswered<C>(s: Sys<C>, t: Sys<C>, c: C)
    requires AnsweredInv(s) && c in s.m.peers && t.m.peers.Keys == s.m.peers.Keys
    requires |s.job.payload| >= SUBSCRIBE_PARAMS_LENGTH && t.answered == s.answered + [(c, s.job.payload)]
    requires forall d :: d in s.m.peers ==>
               t.m.peers[d].params == if d == c then VectorToFilter(s.job.payload) else s.m.peers[d].params
    ensures AnsweredInv(t)
  {
    hide Latest, VectorToFilter;
    forall d | d in t.m.peers
      ensures t.m.peers[d].params == AskedBy(Latest(t.answered, d))
    {
      LatestAppend(s.answered, (c, s.job.payload), d);
    }
  }

  lemma FinishAnswered<C>(s: Sys<C>)
    requires WellFormed(s.m) && AnsweredInv(s) && s.m.loop.Finishing?
    ensures AnsweredInv(FinishCommand(s))
  {
    hide NoDuplicates, Latest, AskedBy;
  }
}
