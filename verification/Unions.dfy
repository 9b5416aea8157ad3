/** The union of the filters over runs: what is kept for rolling back, and how
    the payload of a SUBSCRIBE on its way relates to the union of the clients. */
module Unions {
  import opened Bytes
  import opened MuxMessage
  import opened Subscription
  import opened Manager
  import opened Runs
  import opened Filters

  /** A client's SUBSCRIBE is in progress, and the connection stands. */
  ghost predicate SubscribeInProgress<C>(s: Sys<C>) {
    s.m.running && Busy(s) && s.m.loop.cmd.client.Some? && s.m.loop.cmd.message.typ == SUBSCRIBE
  }

  /** Everyone was settled when the command was taken, and nobody has a new
      committed filter but its client, once a response to it was accepted. */
  ghost predicate CommittedSince<C>(s: Sys<C>)
    requires Busy(s)
  {
    forall d :: d in s.job.before.peers ==>
      && d in s.m.peers && Settled(s.job.before.peers[d])
      && s.m.peers[d].params ==
         if Some(d) == s.m.loop.cmd.client && s.job.accepted > 0 then s.job.asked else s.job.before.peers[d].params
  }

  /** What all clients ask for. */
  ghost function Everyone<C>(m: Manager<C>): Params
    requires forall c :: c in m.clients ==> c in m.peers
  {
    Union(Pending(m.peers, m.clients))
  }

  /** While a client's SUBSCRIBE is in progress, the committed filters are as far
      as it goes those it was taken with; and as long as nobody is removed, so is
      the union that was saved. */
  ghost predicate UnionInv<C>(s: Sys<C>)
    requires WellFormed(s.m)
  {
    SubscribeInProgress(s) ==>
      && CommittedSince(s)
      && (!s.job.removed ==> s.m.prevFilter == s.job.before.filterUnion)
  }

  /** The payload of a client's SUBSCRIBE has every bit the clients still ask for,
      and no other, unless someone was removed with a bit of its own. */
  ghost predicate PayloadInv<C>(s: Sys<C>)
    requires WellFormed(s.m)
  {
    SubscribeInProgress(s) ==>
      && |s.m.loop.cmd.message.data| >= SUBSCRIBE_PARAMS_LENGTH
      && Bounds(VectorToFilter(s.m.loop.cmd.message.data), Everyone(s.m), s.job.uncovered)
  }

  ghost predicate Bounds(payload: Params, now: Params, uncovered: bool) {
    Within(now, payload) && (now == payload <==> !uncovered)
  }

  ghost predicate UnionsInv<C>(s: Sys<C>)
    requires WellFormed(s.m)
  {
    UnionInv(s) && PayloadInv(s)
  }

  /** Nothing of what the invariants speak of has changed. */
  lemma SameUnions<C>(s: Sys<C>, t: Sys<C>)
    requires WellFormed(s.m) && WellFormed(t.m) && UnionsInv(s)
    requires SubscribeInProgress(t) ==>
               && SubscribeInProgress(s) && t.m.loop.cmd == s.m.loop.cmd
               && t.job.before == s.job.before && t.job.removed == s.job.removed
               && t.job.uncovered == s.job.uncovered && t.m.prevFilter == s.m.prevFilter
               && t.m.clients == s.m.clients && Everyone(t.m) == Everyone(s.m)
               && (CommittedSince(s) ==> CommittedSince(t))
    ensures UnionsInv(t)
  {
    hide WellFormed, VectorToFilter, Everyone, CommittedSince, Bounds;
  }

  lemma TakeUnions<C>(s: Sys<C>)
    requires TransactionInv(s) && s.m.loop.Idle? && |s.m.queue| > 0
    ensures WellFormed(TakeCommand(s).m) && UnionsInv(TakeCommand(s))
  {
    TakeKeepsForm(s);
    hide NoDuplicates, Union, VectorToFilter, FilterToVector, Join;
    var cmd := s.m.queue[0];
    assert cmd in s.m.queue;
    if Forwarded(cmd.message) && cmd.message.typ == SUBSCRIBE && cmd.client.Some? && cmd.client.value in s.m.clients {
      var n := s.m.(queue := s.m.queue[1..]);
      var r := OpenSubscription(n, cmd.client.value, VectorToFilter(cmd.message.data));
      FilterRoundTrip(r.filterUnion, cmd.message.data);
      WithinItself(r.filterUnion);
    }
  }

  lemma WithinItself(p: Params)
    ensures Within(p, p)
  {
    JoinRules(NO_PARAMS, p, p);
    JoinNothing(p);
    JoinRules(p, NO_PARAMS, p);
    hide Join;
  }

  lemma TransmitUnions<C>(s: Sys<C>)
    requires TransactionInv(s) && UnionsInv(s) && s.m.loop.Sending?
    ensures TransactionInv(Transmit(s)) && UnionsInv(Transmit(s))
  {
    TransmitTransaction(s);
    hide TransactionInv, UnionsInv, Union;
    SameUnions(s, Transmit(s));
  }

  lemma WakeUnions<C>(s: Sys<C>)
    requires TransactionInv(s) && UnionsInv(s) && s.m.loop.Waiting?
    ensures TransactionInv(WakeUp(s)) && UnionsInv(WakeUp(s))
  {
    WakeTransaction(s);
    hide TransactionInv, UnionsInv, Union;
    SameUnions(s, WakeUp(s));
  }

  lemma ArriveSameEveryone<C>(s: Sys<C>, r: Reply)
    requires WellFormed(s.m) && r.typ > NOTIFICATION
    ensures WellFormed(Receive(s, r).m) && Everyone(Receive(s, r).m) == Everyone(s.m)
  {
    ReceiveKeepsForm(s, r);
    var t := Receive(s, r);
    assert Pending(t.m.peers, t.m.clients) == Pending(s.m.peers, s.m.clients);
    hide WellFormed, Union, Pending;
  }

  /** What a response leaves alone. */
  lemma ReceiveLeaves<C>(s: Sys<C>, r: Reply)
    requires WellFormed(s.m)
    ensures var t := Receive(s, r);
            && t.m.loop == s.m.loop && t.m.clients == s.m.clients && t.m.running == s.m.running
            && t.m.prevFilter == s.m.prevFilter
            && t.job == s.job.(accepted := if Accepted(s, r) then s.job.accepted + 1 else s.job.accepted)
  {
    hide WellFormed;
  }

  lemma CurrentIsCommand<C>(m: Manager<C>)
    requires WellFormed(m)
    ensures !m.loop.Idle? ==> m.current.client == m.loop.cmd.client && m.current.message == m.loop.cmd.message
  {
  }

  lemma ReceiveCommitted<C>(s: Sys<C>, r: Reply)
    requires TransactionInv(s) && SubscribeInProgress(s) && CommittedSince(s) && r.typ > NOTIFICATION
    ensures Busy(Receive(s, r)) && CommittedSince(Receive(s, r))
  {
    assert WellFormed(s.m);
    hide TransactionInv, WellFormed, Receive, VectorToFilter;
    ReceiveCommits(s, r);
    ReceiveLeaves(s, r);
    CurrentIsCommand(s.m);
    if Accepted(s, r) {
      AcceptedAsks(s, r);
    }
  }

  lemma ReceiveUnions<C>(s: Sys<C>, r: Reply)
    requires TransactionInv(s) && UnionsInv(s) && r.typ > NOTIFICATION
    ensures TransactionInv(Receive(s, r)) && UnionsInv(Receive(s, r))
  {
    assert WellFormed(s.m);
    hide TransactionInv, UnionsInv, Everyone, CommittedSince, WellFormed, Receive;
    ReceiveTransaction(s, r);
    ArriveSameEveryone(s, r);
    ReceiveLeaves(s, r);
    if SubscribeInProgress(s) && CommittedSince(s) {
      ReceiveCommitted(s, r);
    }
    SameUnions(s, Receive(s, r));
  }

  lemma FinishUnions<C>(s: Sys<C>)
    requires TransactionInv(s) && UnionsInv(s) && s.m.loop.Finishing?
    ensures TransactionInv(FinishCommand(s)) && UnionsInv(FinishCommand(s))
  {
    FinishTransaction(s);
    hide TransactionInv, Union, WellFormed;
  }

  lemma ConnectUnions<C>(s: Sys<C>, c: C, version: byte)
    requires WellFormed(s.m) && UnionsInv(s) && WorldEnabled(s, Connect(c, version))
    ensures var t := WorldStep(s, Connect(c, version));
            WellFormed(t.m) && UnionsInv(t)
  {
    var t := WorldStep(s, Connect(c, version));
    WorldKeepsForm(s, Connect(c, version));
    var p, q := Pending(s.m.peers, s.m.clients), Pending(t.m.peers, t.m.clients);
    assert q == p + [NO_PARAMS];
    assert q[..|q| - 1] == p;
    JoinNothing(Union(p));
    assert Everyone(t.m) == Everyone(s.m);
    hide NoDuplicates, VectorToFilter, Union, Everyone, Bounds;
  }

  lemma NotificationUnions<C>(s: Sys<C>, typ: byte, payload: ByteVector)
    requires WellFormed(s.m) && UnionsInv(s) && WorldEnabled(s, World.Notification(typ, payload))
    ensures var t := WorldStep(s, World.Notification(typ, payload));
            WellFormed(t.m) && UnionsInv(t)
  {
    var w := World.Notification(typ, payload);
    var t := WorldStep(s, w);
    WorldKeepsForm(s, w);
    hide NoDuplicates, VectorToFilter, Union, FilterMatch, UnionsInv;
    assert Pending(t.m.peers, t.m.clients) == Pending(s.m.peers, s.m.clients);
    SameUnions(s, t);
  }

  /** What a removal changes of what the invariants speak of. */
  lemma RemovalLeaves<C>(s: Sys<C>, c: C)
    requires WellFormed(s.m) && WorldEnabled(s, ReadError(c))
    ensures var t := WorldStep(s, ReadError(c));
            && t.m.peers == s.m.peers && t.m.loop == s.m.loop && t.m.running == s.m.running
            && t.m.clients == Without(s.m.clients, c)
            && t.job == s.job.(removed := true, uncovered := s.job.uncovered || !Covered(s.m, c))
  {
    RemoveEffect(s.m, c);
    hide WellFormed, RemoveClient, Covered, Union, FilterToVector, Without;
  }

  lemma ReadErrorUnions<C>(s: Sys<C>, c: C)
    requires WellFormed(s.m) && UnionsInv(s) && WorldEnabled(s, ReadError(c))
    ensures var t := WorldStep(s, ReadError(c));
            WellFormed(t.m) && UnionsInv(t)
  {
    assert s.m.running && c in s.m.clients;
    hide WellFormed, WorldStep, WorldEnabled, VectorToFilter, Union, Pending, Without, Join, CommittedSince;
    WorldKeepsForm(s, ReadError(c));
    RemovalLeaves(s, c);
    FormClients(s.m);
    var t := WorldStep(s, ReadError(c));
    UnionWithout(s.m.peers, s.m.clients, c);
    if SubscribeInProgress(s) {
      SameCommitted(s, t);
      ShrinksStrictly(VectorToFilter(s.m.loop.cmd.message.data), Everyone(s.m), Everyone(t.m), s.m.peers[c].newParams);
    }
  }

  lemma SameCommitted<C>(s: Sys<C>, t: Sys<C>)
    requires Busy(s) && CommittedSince(s) && t.m.peers == s.m.peers && t.m.loop == s.m.loop
    requires t.job.before == s.job.before && t.job.asked == s.job.asked && t.job.accepted == s.job.accepted
    ensures CommittedSince(t)
  {
  }

  lemma FormClients<C>(m: Manager<C>)
    requires WellFormed(m)
    ensures forall c :: c in m.clients ==> c in m.peers
  {
  }

  lemma WorldUnions<C>(s: Sys<C>, w: World<C>)
    requires WellFormed(s.m) && UnionsInv(s) && WorldEnabled(s, w)
    ensures WellFormed(WorldStep(s, w).m) && UnionsInv(WorldStep(s, w))
  {
    match w
    case Connect(c, version) => ConnectUnions(s, c, version);
    case ReadError(c) => ReadErrorUnions(s, c);
    case Notification(typ, payload) => NotificationUnions(s, typ, payload);
    case _ =>
      WorldKeepsForm(s, w);
      hide UnionsInv, Union, VectorToFilter, NoDuplicates;
      SameUnions(s, WorldStep(s, w));
  }
}
