/** Runs of the multiplexer: the manager and the link's sequence number under
    the command loop, the link reader, the clients and the outside world. */
module Runs {
  import opened Bytes
  import opened MuxMessage
  import opened Subscription
  import opened Manager

  /** A request handed to the link, with the number of the command it copies. */
  datatype Sent<C> = Sent(serial: nat, client: Option<C>, typ: byte, seqNo: byte, data: ByteVector)

  /** The command taken last: who sent it, its type and payload, the filters it
      asks for, and the manager when it was taken. Since then: whether a client was removed,
      whether one was removed with a filter bit that nobody else had, and how
      many responses were accepted. */
  datatype Job<C> = Job(
    client: Option<C>,
    typ: byte,
    payload: ByteVector,
    asked: Params,
    before: Manager<C>,
    removed: bool,
    uncovered: bool,
    accepted: nat)

  /** `sent`, `serial`, `job` and `answered` record the history of the run; no
      step reads them. */
  datatype Sys<C> = Sys(
    m: Manager<C>,
    seqNo: byte,
    sent: seq<Sent<C>>,
    serial: nat,
    job: Job<C>,
    answered: seq<(C, ByteVector)>)

  function Start<C>(retries: nat): Manager<C> {
    Manager([], map[], [], NO_PARAMS, NO_PARAMS, NoCommand(), Idle, retries, true)
  }

  function Init<C>(retries: nat): Sys<C> {
    Sys(Start(retries), 0, [], 0, Job(None, 0, [], NO_PARAMS, Start(retries), false, false, 0), [])
  }

  /** What the world outside the command loop does. */
  datatype World<C> =
    | Connect(client: C, version: byte)
    | ReadError(client: C)
    | Request(client: C, message: Message)
    | Notification(typ: byte, payload: ByteVector)
    | HelloResponse(cliSeqNo: byte)
    | ManagerHello

  /** A complete command response frame. */
  datatype Reply = Reply(typ: byte, seqNo: byte, code: byte, payload: ByteVector)

  ghost predicate WorldEnabled<C>(s: Sys<C>, w: World<C>) {
    && s.m.running
    && match w
       case Connect(c, _) => c !in s.m.peers
       case ReadError(c) => c in s.m.clients
       case Request(c, message) =>
         c in s.m.peers && (message.typ == SUBSCRIBE ==> |message.data| >= SUBSCRIBE_PARAMS_LENGTH)
       case Notification(typ, _) => typ < 31
       case _ => true
  }

  /** Someone else asks for everything this client asks for. */
  ghost predicate Covered<C>(m: Manager<C>, c: C)
    requires c in m.clients && forall x :: x in m.clients ==> x in m.peers
  {
    Within(m.peers[c].newParams, Union(Pending(m.peers, Without(m.clients, c))))
  }

  ghost function WorldStep<C>(s: Sys<C>, w: World<C>): Sys<C>
    requires WellFormed(s.m) && WorldEnabled(s, w)
  {
    match w
    case Connect(c, version) =>
      s.(m := AddClient(s.m.(peers := s.m.peers[c := Peer(NO_PARAMS, NO_PARAMS, false, version, [])]), c))
    case ReadError(c) =>
      s.(m := RemoveClient(s.m, c),
         job := s.job.(removed := true, uncovered := s.job.uncovered || !Covered(s.m, c)))
    case Request(c, message) => s.(m := AddCommand(s.m, Some(c), message))
    case Notification(typ, payload) => s.(m := HandleNotif(s.m, typ, payload))
    case HelloResponse(cliSeqNo) => s.(seqNo := (cliSeqNo + 1) % 256)
    case ManagerHello => s.(m := CloseAll(s.m))
  }

  // ---------------------------------------------------------------
  // The interruptible steps.

  ghost function TakeCommand<C>(s: Sys<C>): Sys<C>
    requires WellFormed(s.m) && s.m.loop.Idle? && |s.m.queue| > 0
  {
    var cmd := s.m.queue[0];
    assert cmd in s.m.queue;
    var connected := cmd.client.Some? ==> cmd.client.value in s.m.clients;
    var asked := if cmd.message.typ == SUBSCRIBE then VectorToFilter(cmd.message.data) else NO_PARAMS;
    s.(m := Begin(s.m),
       serial := s.serial + 1,
       job := Job(if connected then cmd.client else None, cmd.message.typ, cmd.message.data, asked, s.m, false, false, 0))
  }

  ghost function Transmit<C>(s: Sys<C>): Sys<C>
    requires s.m.loop.Sending?
  {
    var cmd := s.m.loop.cmd;
    s.(m := Transmitted(s.m, s.seqNo),
       sent := s.sent + [Sent(s.serial, cmd.client, cmd.message.typ, s.seqNo, cmd.message.data)])
  }

  ghost function WakeUp<C>(s: Sys<C>): Sys<C>
    requires s.m.loop.Waiting?
  {
    s.(m := Wake(s.m))
  }

  ghost function FinishCommand<C>(s: Sys<C>): Sys<C>
    requires WellFormed(s.m) && s.m.loop.Finishing?
  {
    s.(m := Finish(s.m))
  }

  predicate Accepted<C>(s: Sys<C>, r: Reply) {
    r.typ == s.m.current.message.typ && r.seqNo == s.m.current.seqNo
  }

  ghost function Receive<C>(s: Sys<C>, r: Reply): Sys<C>
    requires WellFormed(s.m)
  {
    var c := s.m.current.client;
    s.(m := CommandComplete(s.m, r.typ, r.seqNo, r.code, r.payload),
       seqNo := (r.seqNo + 1) % 256,
       job := if Accepted(s, r) then s.job.(accepted := s.job.accepted + 1) else s.job,
       answered := if Accepted(s, r) && r.typ == SUBSCRIBE && c.Some?
                   then s.answered + [(c.value, s.job.payload)] else s.answered)
  }

  // ---------------------------------------------------------------
  // Well-formedness is kept by every step.

  lemma WorldKeepsForm<C>(s: Sys<C>, w: World<C>)
    requires WellFormed(s.m) && WorldEnabled(s, w)
    ensures WellFormed(WorldStep(s, w).m)
  {
    hide FilterMatch, FilterToVector, Union;
    match w
    case Connect(c, _) =>
    case ReadError(c) => RemoveKeepsForm(s.m, c);
    case Request(c, message) =>
    case Notification(_, _) =>
    case HelloResponse(_) =>
    case ManagerHello =>
  }

  lemma RemoveKeepsForm<C>(m: Manager<C>, c: C)
    requires WellFormed(m) && c in m.clients
    ensures WellFormed(RemoveClient(m, c))
  {
    RemoveEffect(m, c);
    hide FilterToVector, Union, NoDuplicates, RemoveClient, Pending;
    assert ProperCommand(m.peers, Resubscribe(Union(Pending(m.peers, Without(m.clients, c)))));
  }

  lemma TakeKeepsForm<C>(s: Sys<C>)
    requires WellFormed(s.m) && s.m.loop.Idle? && |s.m.queue| > 0
    ensures WellFormed(TakeCommand(s).m)
  {
    hide FilterToVector, VectorToFilter, Union, NoDuplicates;
    BeginFrame(s.m);
    var n := Begin(s.m);
    hide Begin;
    forall q | q in n.queue
      ensures ProperCommand(n.peers, q)
    {
      assert q in s.m.queue;
    }
  }

  lemma BeginFrame<C>(m: Manager<C>)
    requires WellFormed(m) && m.loop.Idle? && |m.queue| > 0
    ensures var n := Begin(m);
            && n.clients == m.clients && n.peers.Keys == m.peers.Keys && n.queue == m.queue[1..]
            && n.running == m.running && n.retries == m.retries
            && match n.loop
               case Idle => n.current == m.current
               case Sending(cmd, i) => InProgress(n, cmd) && n.current == cmd && cmd.result == ClientTimeout && i == 0
               case Waiting(_, _) => false
               case Finishing(cmd, _) => InProgress(n, cmd) && n.current == cmd && cmd.result == ClientTimeout
  {
    hide FilterToVector, VectorToFilter, Union, NoDuplicates, Pending;
    assert m.queue[0] in m.queue;
  }

  lemma ReceiveKeepsForm<C>(s: Sys<C>, r: Reply)
    requires WellFormed(s.m) && r.typ > NOTIFICATION
    ensures WellFormed(Receive(s, r).m)
  {
    hide NoDuplicates;
  }

  lemma FinishKeepsForm<C>(s: Sys<C>)
    requires WellFormed(s.m) && s.m.loop.Finishing?
    ensures WellFormed(FinishCommand(s).m)
  {
  }
}
