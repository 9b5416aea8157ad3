/** The client manager as a value: the state that the command loop, the client
    reads and the link reader share, and what each of their steps makes of it.
    The type of client identities is left open. */
module Manager {
  import opened Bytes
  import opened MuxMessage
  import opened Subscription

  const MUX_HELLO: byte := 1
  const MUX_INFO: byte := 2

  const OK: byte := 0
  const ERR_INVALID_CMD: byte := 1
  const ERR_INVALID_AUTH: byte := 3
  const ERR_UNSUPPORTED_VERSION: byte := 4
  const ERR_COMMAND_TIMEOUT: byte := 5

  const MAX_SERIAL_API_CMD_LEN: nat := 128

  datatype ClientResult = ClientOk | ClientTimeout | ClientDisconnect

  /** What the manager uses of a client: the committed and the pending filter,
      and everything written to it. */
  datatype Peer = Peer(params: Params, newParams: Params, inTransaction: bool, version: byte, written: seq<Output>)

  datatype Command<C> = Command(client: Option<C>, message: Message, seqNo: byte, result: ClientResult)

  /** Where the command loop stands between its interruptible points, with its
      local copy of the command. */
  datatype Loop<C> =
    | Idle
    | Sending(cmd: Command<C>, attempt: nat)
    | Waiting(cmd: Command<C>, attempt: nat)
    | Finishing(cmd: Command<C>, result: ClientResult)

  datatype Manager<C> = Manager(
    clients: seq<C>,
    peers: map<C, Peer>,
    queue: seq<Command<C>>,
    filterUnion: Params,
    prevFilter: Params,
    current: Command<C>,
    loop: Loop<C>,
    retries: nat,
    running: bool)

  function NoCommand<C>(): Command<C> {
    Command(None, Message(0, 0, []), 0, ClientTimeout)
  }

  function Queued<C>(client: Option<C>, message: Message): Command<C> {
    Command(client, message, 0, ClientTimeout)
  }

  predicate IsPicardApiCommand(typ: byte) {
    typ > NOTIFICATION
  }

  predicate Forwarded(m: Message) {
    IsPicardApiCommand(m.typ) && |m.data| <= MAX_SERIAL_API_CMD_LEN
  }

  function MuxInfoPayload(version: byte): ByteVector {
    [version, 1, 1, 2, 0, 17]
  }

  // ---------------------------------------------------------------
  // Well-formed states.

  predicate NoDuplicates<C(==)>(s: seq<C>) {
    forall i, j :: 0 <= i < j < |s| ==> s[i] != s[j]
  }

  predicate KnownClient<C>(peers: map<C, Peer>, client: Option<C>) {
    client.Some? ==> client.value in peers
  }

  /** A queued command: a client's SUBSCRIBE carries both filters, and the only
      commands without a client are resubscribes. */
  predicate ProperCommand<C>(peers: map<C, Peer>, cmd: Command<C>) {
    && KnownClient(peers, cmd.client)
    && cmd.result == ClientTimeout && cmd.seqNo == 0
    && (cmd.message.typ == SUBSCRIBE && cmd.client.Some? ==> |cmd.message.data| >= SUBSCRIBE_PARAMS_LENGTH)
    && (cmd.client.None? ==> cmd.message.typ == SUBSCRIBE && |cmd.message.data| == SUBSCRIBE_PARAMS_LENGTH)
  }

  /** The loop's copy and the shared record name the same command. */
  predicate InProgress<C(==)>(m: Manager<C>, cmd: Command<C>) {
    && ProperCommand(m.peers, cmd)
    && Forwarded(cmd.message)
    && m.current.client == cmd.client
    && m.current.message == cmd.message
  }

  ghost predicate WellFormed<C>(m: Manager<C>) {
    && NoDuplicates(m.clients)
    && (forall c :: c in m.clients ==> c in m.peers)
    && (forall q :: q in m.queue ==> ProperCommand(m.peers, q))
    && match m.loop
       case Idle => m.current == NoCommand<C>()
       case Sending(cmd, _) => InProgress(m, cmd)
       case Waiting(cmd, _) => InProgress(m, cmd)
       case Finishing(cmd, _) => InProgress(m, cmd)
  }

  // ---------------------------------------------------------------
  // Pieces of steps.

  function Write<C(==)>(m: Manager<C>, client: Option<C>, o: Output): Manager<C>
    requires KnownClient(m.peers, client)
  {
    match client
    case None => m
    case Some(c) => m.(peers := m.peers[c := m.peers[c].(written := m.peers[c].written + [o])])
  }

  function SetSubscription<C(==)>(m: Manager<C>, c: C, params: Params): Manager<C>
    requires c in m.peers
  {
    m.(peers := m.peers[c := m.peers[c].(inTransaction := true, newParams := params)])
  }

  function ResetFilter<C(==)>(m: Manager<C>, c: C): Manager<C>
    requires c in m.peers
  {
    m.(peers := m.peers[c := m.peers[c].(inTransaction := false, newParams := m.peers[c].params)])
  }

  function CommitFilter<C(==)>(m: Manager<C>, c: C): Manager<C>
    requires c in m.peers
  {
    m.(peers := m.peers[c := m.peers[c].(inTransaction := false, params := m.peers[c].newParams)])
  }

  /** The pending filters of a list of clients. */
  function Pending<C(==)>(peers: map<C, Peer>, clients: seq<C>): (ps: seq<Params>)
    requires forall c :: c in clients ==> c in peers
    ensures |ps| == |clients|
  {
    seq(|clients|, i requires 0 <= i < |clients| => peers[clients[i]].newParams)
  }

  function Recompute<C(==)>(m: Manager<C>): Manager<C>
    requires forall c :: c in m.clients ==> c in m.peers
  {
    m.(prevFilter := m.filterUnion, filterUnion := Union(Pending(m.peers, m.clients)))
  }

  function CloseAll<C>(m: Manager<C>): Manager<C> {
    m.(clients := [], running := false)
  }

  // ---------------------------------------------------------------
  // Steps of the command loop.

  /** Take the next command and prepare it, up to the first transmission. */
  function Begin<C(==)>(m: Manager<C>): Manager<C>
    requires WellFormed(m) && m.loop.Idle? && |m.queue| > 0
  {
    var cmd := m.queue[0];
    assert cmd in m.queue;
    var n := m.(queue := m.queue[1..]);
    if cmd.client.Some? && cmd.client.value !in m.clients then n
    else if !Forwarded(cmd.message) then
      var c := cmd.client.value;
      Write(n, cmd.client, LocalReply(m.peers[c].version, cmd.message.typ))
    else if cmd.message.typ == SUBSCRIBE && cmd.client.Some? then
      var r := OpenSubscription(n, cmd.client.value, VectorToFilter(cmd.message.data));
      Forward(r, Rewritten(cmd, r.filterUnion))
    else Forward(n, cmd)
  }

  /** The answer to a command that is not for the serial link. */
  function LocalReply(version: byte, typ: byte): Output {
    if typ == MUX_INFO then Output(MUX_INFO, OK, MuxInfoPayload(version)) else Output(typ, ERR_INVALID_CMD, [])
  }

  function OpenSubscription<C(==)>(m: Manager<C>, c: C, params: Params): Manager<C>
    requires c in m.peers && forall x :: x in m.clients ==> x in m.peers
  {
    Recompute(SetSubscription(m, c, params))
  }

  /** A SUBSCRIBE with the union in place of the client's own filters. */
  function Rewritten<C>(cmd: Command<C>, union: Params): Command<C>
    requires |cmd.message.data| >= SUBSCRIBE_PARAMS_LENGTH
  {
    cmd.(message := cmd.message.(data := FilterToVector(union, cmd.message.data)))
  }

  function Forward<C>(m: Manager<C>, cmd: Command<C>): Manager<C> {
    m.(current := cmd, loop := if m.retries == 0 then Finishing(cmd, ClientTimeout) else Sending(cmd, 0))
  }

  /** The link has taken a copy, numbered `seqNo`. */
  function Transmitted<C>(m: Manager<C>, seqNo: byte): Manager<C>
    requires m.loop.Sending?
  {
    m.(current := m.current.(seqNo := seqNo), loop := Waiting(m.loop.cmd, m.loop.attempt))
  }

  /** The wait ends; the result decides between another copy and the end. */
  function Wake<C>(m: Manager<C>): Manager<C>
    requires m.loop.Waiting?
  {
    var result := m.current.result;
    m.(loop := if result == ClientTimeout && m.loop.attempt + 1 < m.retries
               then Sending(m.loop.cmd, m.loop.attempt + 1)
               else Finishing(m.loop.cmd, result))
  }

  /** Roll back and report a command that got no response. */
  function TimedOut<C(==)>(m: Manager<C>, cmd: Command<C>): Manager<C>
    requires cmd.client.Some? && cmd.client.value in m.peers
  {
    var n := if cmd.message.typ == SUBSCRIBE
             then ResetFilter(m.(filterUnion := m.prevFilter), cmd.client.value)
             else m;
    Write(n, cmd.client, Output(cmd.message.typ, ERR_COMMAND_TIMEOUT, []))
  }

  function Finish<C(==)>(m: Manager<C>): Manager<C>
    requires WellFormed(m) && m.loop.Finishing?
  {
    var cmd := m.loop.cmd;
    var n := if m.loop.result != ClientOk && cmd.client.Some? then CloseAll(TimedOut(m, cmd)) else m;
    n.(current := NoCommand(), loop := Idle)
  }

  // ---------------------------------------------------------------
  // Steps of the other threads.

  function CommandComplete<C(==)>(m: Manager<C>, typ: byte, seqNo: byte, code: byte, payload: ByteVector): Manager<C>
    requires KnownClient(m.peers, m.current.client)
  {
    if typ != m.current.message.typ || seqNo != m.current.seqNo then m
    else
      var n := if typ == SUBSCRIBE && code != OK then m.(filterUnion := m.prevFilter) else m;
      var r := n.(current := n.current.(result := ClientOk));
      match r.current.client
      case None => r
      case Some(c) =>
        var w := Write(r, r.current.client, Output(typ, code, payload));
        if typ == SUBSCRIBE then CommitFilter(w, c) else w
  }

  function AddClient<C>(m: Manager<C>, c: C): Manager<C> {
    m.(clients := m.clients + [c])
  }

  function AddCommand<C>(m: Manager<C>, client: Option<C>, message: Message): Manager<C> {
    m.(queue := m.queue + [Queued(client, message)])
  }

  /** The list without a client. */
  function Without<C(==)>(clients: seq<C>, c: C): (r: seq<C>)
    ensures forall x :: x in r ==> x in clients
    ensures NoDuplicates(clients) ==> c !in r && forall x :: x in clients && x != c ==> x in r
    ensures NoDuplicates(clients) ==> NoDuplicates(r)
  {
    if |clients| == 0 then []
    else if clients[0] == c then
      assert NoDuplicates(clients) ==> forall i :: 0 <= i < |clients[1..]| ==> clients[1..][i] != c;
      clients[1..]
    else
      var r := Without(clients[1..], c);
      StillNoDuplicates(clients, r);
      [clients[0]] + r
  }

  /** `r` is `clients` without its entry at `i`, which is `c`. */
  ghost predicate CutAt<C>(clients: seq<C>, c: C, r: seq<C>, i: nat) {
    i < |clients| && clients[i] == c && r == clients[..i] + clients[i + 1..]
  }

  /** The others stay, in their order. */
  lemma {:induction false} WithoutOrder<C>(clients: seq<C>, c: C)
    ensures c !in clients ==> Without(clients, c) == clients
    ensures c in clients ==> exists i: nat :: CutAt(clients, c, Without(clients, c), i)
  {
    hide NoDuplicates, CutAt;
    if |clients| > 0 {
      if clients[0] == c {
        CutFirst(clients, c);
        assert CutAt(clients, c, Without(clients, c), 0);
      } else {
        WithoutOrder(clients[1..], c);
        assert clients == [clients[0]] + clients[1..];
        if c in clients {
          var i: nat :| CutAt(clients[1..], c, Without(clients[1..], c), i);
          CutLater(clients, c, Without(clients[1..], c), i);
          assert CutAt(clients, c, Without(clients, c), i + 1);
        }
      }
    }
  }

  lemma CutFirst<C>(clients: seq<C>, c: C)
    requires |clients| > 0 && clients[0] == c
    ensures CutAt(clients, c, clients[1..], 0)
  {
  }

  lemma CutLater<C>(clients: seq<C>, c: C, r: seq<C>, i: nat)
    requires |clients| > 0 && CutAt(clients[1..], c, r, i)
    ensures CutAt(clients, c, [clients[0]] + r, i + 1)
  {
    assert clients[..i + 1] == [clients[0]] + clients[1..][..i];
    assert clients[i + 2..] == clients[1..][i + 1..];
  }

  lemma StillNoDuplicates<C>(clients: seq<C>, r: seq<C>)
    requires |clients| > 0 && forall x :: x in r ==> x in clients[1..]
    requires NoDuplicates(clients[1..]) ==> NoDuplicates(r)
    ensures NoDuplicates(clients) ==> NoDuplicates([clients[0]] + r)
  {
    if NoDuplicates(clients) {
      var tail := clients[1..];
      assert forall i, j :: 0 <= i < j < |tail| ==> tail[i] == clients[i + 1] && tail[j] == clients[j + 1];
      forall i, j | 0 <= i < j < |r| + 1
        ensures ([clients[0]] + r)[i] != ([clients[0]] + r)[j]
      {
        if i == 0 {
          assert r[j - 1] in clients[1..];
        }
      }
    }
  }

  function EightZeros(): (z: ByteVector)
    ensures |z| == SUBSCRIBE_PARAMS_LENGTH
  {
    [0, 0, 0, 0, 0, 0, 0, 0]
  }

  function RemoveClient<C(==)>(m: Manager<C>, c: C): Manager<C>
    requires forall x :: x in m.clients ==> x in m.peers
  {
    var n := if m.current.client.Some? then m.(current := m.current.(result := ClientDisconnect)) else m;
    if c !in m.clients then n
    else
      var r := Recompute(n.(clients := Without(n.clients, c)));
      if r.filterUnion != m.filterUnion then
        AddCommand(r, None, Message(0, SUBSCRIBE, FilterToVector(r.filterUnion, EightZeros())))
      else r
  }

  /** The command a removal queues when the union changes. */
  function Resubscribe<C>(union: Params): Command<C> {
    Queued(None, Message(0, SUBSCRIBE, FilterToVector(union, EightZeros())))
  }

  lemma RemoveEffect<C>(m: Manager<C>, c: C)
    requires (forall x :: x in m.clients ==> x in m.peers) && c in m.clients
    ensures var union := Union(Pending(m.peers, Without(m.clients, c)));
            RemoveClient(m, c) == m.(
              current := if m.current.client.Some? then m.current.(result := ClientDisconnect) else m.current,
              clients := Without(m.clients, c),
              prevFilter := m.filterUnion,
              filterUnion := union,
              queue := if union != m.filterUnion then m.queue + [Resubscribe(union)] else m.queue)
  {
    hide Union, FilterToVector;
  }

  /** The union of everyone is that of the others and the leaver's own filters. */
  lemma UnionWithout<C>(peers: map<C, Peer>, clients: seq<C>, c: C)
    requires (forall x :: x in clients ==> x in peers) && c in clients
    ensures Union(Pending(peers, clients)) == Join(Union(Pending(peers, Without(clients, c))), peers[c].newParams)
  {
    WithoutOrder(clients, c);
    hide Union, Join, Without;
    var i: nat :| CutAt(clients, c, Without(clients, c), i);
    var a, b := Pending(peers, clients[..i]), Pending(peers, clients[i + 1..]);
    UnionSplit(a, peers[c].newParams, b);
    assert Pending(peers, clients) == a + [peers[c].newParams] + b;
    assert Pending(peers, Without(clients, c)) == a + b;
  }

  /** A removal takes no bit out of the union that someone else asks for: adding
      the leaver's own filters again gives everyone's union. From a union that is
      everyone's, a resubscribe is queued exactly if the leaver had a bit that
      nobody else has. */
  lemma RemovalTakesOwnBits<C>(m: Manager<C>, c: C)
    requires (forall x :: x in m.clients ==> x in m.peers) && c in m.clients
    ensures var n := RemoveClient(m, c);
            var everyone := Union(Pending(m.peers, m.clients));
            && Join(n.filterUnion, m.peers[c].newParams) == everyone
            && (m.filterUnion == everyone ==>
                  n.queue == m.queue + if Within(m.peers[c].newParams, n.filterUnion) then [] else [Resubscribe(n.filterUnion)])
  {
    RemoveEffect(m, c);
    UnionWithout(m.peers, m.clients, c);
    hide Union, Join, Without, FilterToVector, RemoveClient, Pending;
  }

  /** Removing any client, listed or not, ends a client's command in progress as
      disconnected, and leaves a resubscribe in progress alone. An unlisted one
      changes nothing else. */
  lemma RemovalDisconnects<C>(m: Manager<C>, c: C)
    requires forall x :: x in m.clients ==> x in m.peers
    ensures var n := RemoveClient(m, c);
            && n.current == (if m.current.client.Some? then m.current.(result := ClientDisconnect) else m.current)
            && n.peers == m.peers && n.loop == m.loop && n.running == m.running
            && (c !in m.clients ==> n == m.(current := n.current))
  {
    hide Union, FilterToVector;
  }

  function Notified(p: Peer, notifType: nat, payload: ByteVector): Peer
    requires notifType < 31
  {
    if FilterMatch(p.params, notifType)
    then p.(written := p.written + [Output(NOTIFICATION, notifType, payload)])
    else p
  }

  function HandleNotif<C(==)>(m: Manager<C>, notifType: nat, payload: ByteVector): Manager<C>
    requires notifType < 31
  {
    m.(peers := map c | c in m.peers ::
                  if c in m.clients then Notified(m.peers[c], notifType, payload) else m.peers[c])
  }
}
