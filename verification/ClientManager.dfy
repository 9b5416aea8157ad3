/** The clients and their manager as objects, step by step as the threads run
    them; each method is tied to the manager's specification. */
module ClientManager {
  import opened Bytes
  import opened MuxMessage
  import opened MuxParser
  import opened Subscription
  import opened SyncQueue
  import opened Manager
  import opened Session
  import opened Picard
  import R = Runs

  class Client {
    var initState: InitState
    const parser: CMuxParser
    const expectedAuth: ByteVector
    const protocolVersion: byte

    var params: Params
    var inTransaction: bool
    var newParams: Params

    var written: seq<Output>  // what has been written to the socket, in order

    constructor (expectedAuth: ByteVector, protocolVersion: byte)
      ensures initState == WaitingForHello && fresh(parser)
      ensures parser.partialInput == Zeros(COMMAND_SIZE) && parser.handled == []
      ensures this.expectedAuth == expectedAuth && this.protocolVersion == protocolVersion
      ensures AsPeer() == Peer(NO_PARAMS, NO_PARAMS, false, protocolVersion, [])
    {
      initState := WaitingForHello;
      parser := new CMuxParser();
      this.expectedAuth := expectedAuth;
      this.protocolVersion := protocolVersion;
      params, inTransaction, newParams := NO_PARAMS, false, NO_PARAMS;
      written := [];
    }

    ghost function AsPeer(): Peer
      reads this
    {
      Peer(params, newParams, inTransaction, protocolVersion, written)
    }

    function Expects(): Expected {
      Expected(expectedAuth, protocolVersion)
    }

    method Close()
      modifies this`initState
      ensures initState == Closed
    {
      initState := Closed;
    }

    method WriteMessage(o: Output)
      modifies this`written
      ensures written == old(written) + [o]
    {
      written := written + [o];
    }

    function GetSubscription(): bv32
      reads this
    {
      newParams.filter
    }

    function GetUnreliable(): bv32
      reads this
    {
      newParams.unreliable
    }

    predicate IsSubscribed(notifType: nat)
      requires notifType < 31
      reads this
    {
      FilterMatch(params, notifType)
    }

    method SetSubscription(p: Params)
      modifies this`inTransaction, this`newParams
      ensures inTransaction && newParams == p
    {
      inTransaction := true;
      newParams := p;
    }

    method ResetFilter()
      modifies this`inTransaction, this`newParams
      ensures !inTransaction && newParams == params
    {
      newParams := params;
      inTransaction := false;
    }

    method CommitFilter()
      modifies this`inTransaction, this`params
      ensures !inTransaction && params == newParams
    {
      params := newParams;
      inTransaction := false;
    }

    /** A wrong token outranks a wrong version. */
    method ParseHello(data: ByteVector) returns (result: byte)
      requires |expectedAuth| == AUTHENTICATION_LEN
      ensures result == HelloResult(Expects(), data)
      ensures result == if |data| != 9 then 1
                        else if data[1..] != expectedAuth then 3
                        else if data[0] != protocolVersion then 4
                        else 0
    {
      result := OK;
      var index := 0;
      if |data| == EXPECTED_HELLO_LEN {
        var protoVersion := data[index];
        index := index + 1;
        if protoVersion != protocolVersion {
          result := ERR_UNSUPPORTED_VERSION;
        }
        for i := 0 to AUTHENTICATION_LEN
          invariant data[1..1 + i] != expectedAuth[..i] ==> result == ERR_INVALID_AUTH
          invariant data[1..1 + i] == expectedAuth[..i] ==>
                      result == if protoVersion != protocolVersion then ERR_UNSUPPORTED_VERSION else OK
        {
          assert data[1..1 + i + 1] == data[1..1 + i] + [data[1 + i]];
          assert expectedAuth[..i + 1] == expectedAuth[..i] + [expectedAuth[i]];
          if expectedAuth[i] != data[index + i] {
            result := ERR_INVALID_AUTH;
          }
          assert data[1..1 + i + 1][..i] == data[1..1 + i] && expectedAuth[..i + 1][..i] == expectedAuth[..i];
        }
        assert data[1..1 + AUTHENTICATION_LEN] == data[1..];
        assert expectedAuth[..AUTHENTICATION_LEN] == expectedAuth;
      } else {
        result := ERR_INVALID_CMD;
      }
    }

    /** One parsed message: passed on, taken as the hello, or dropped. */
    method HandleCommand(mgr: CBoostClientManager, command: Message)
      requires |expectedAuth| == AUTHENTICATION_LEN
      requires initState == WaitingForHello ==> this !in mgr.registry
      modifies this`initState, this`written, mgr`clients, mgr`registry, mgr.commands
      ensures HasDone(mgr, Handle(Expects(), Session(old(initState), 0, [], []), command),
                      old(written), old(mgr.clients), old(mgr.registry), old(mgr.commands.items))
    {
      if initState == Authenticated {
        mgr.AddCommandFrom(Some(this), command);
      } else if initState == WaitingForHello && command.typ == MUX_HELLO {
        var helloResult := ParseHello(command.data);
        WriteMessage(Output(MUX_HELLO, helloResult, [protocolVersion]));
        if helloResult == OK {
          initState := Authenticated;
          mgr.AddNewClient(this);
        } else {
          initState := BadInit;
        }
      }
    }

    /** What a session has done to this client and its manager since an earlier
        state. */
    ghost predicate HasDone(mgr: CBoostClientManager, s: Session, written0: seq<Output>,
                            clients0: seq<Client>, registry0: set<Client>, items0: seq<Command<Client>>)
      reads this, mgr, mgr.commands
    {
      && initState == s.state
      && written == written0 + s.replies
      && mgr.commands.items == items0 + QueuedFrom(this, s.commands)
      && mgr.clients == clients0 + (if s.registrations > 0 then [this] else [])
      && mgr.registry == registry0 + (if s.registrations > 0 then {this} else {})
    }

    method HandleMessages(mgr: CBoostClientManager, messages: seq<Message>)
      requires |expectedAuth| == AUTHENTICATION_LEN
      requires initState == WaitingForHello ==> this !in mgr.registry
      modifies this`initState, this`written, mgr`clients, mgr`registry, mgr.commands
      ensures HasDone(mgr, HandleAll(Expects(), Session(old(initState), 0, [], []), messages),
                      old(written), old(mgr.clients), old(mgr.registry), old(mgr.commands.items))
    {
      hide HandleAll, HelloResult;
      ghost var s := Session(initState, 0, [], []);
      ghost var s0 := s;
      assert messages[..0] == [];
      HandleNone(Expects(), s0);
      for i := 0 to |messages|
        invariant s == HandleAll(Expects(), s0, messages[..i])
        invariant HasDone(mgr, s, old(written), old(mgr.clients), old(mgr.registry), old(mgr.commands.items))
        invariant initState == WaitingForHello ==> this !in mgr.registry && s.registrations == 0
      {
        var m := messages[i];
        HandleAllAppend(Expects(), s0, messages[..i], [m]);
        assert messages[..i + 1] == messages[..i] + [m];
        HandleOne(Expects(), s, m);
        HandleIsLocal(Expects(), s, m);
        HandleCommand(mgr, m);
        ghost var b := Handle(Expects(), Session(s.state, 0, [], []), m);
        QueuedAppend(this, s.commands, b.commands);
        s := Handle(Expects(), s, m);
      }
      assert messages[..|messages|] == messages;
    }

    /** A completed read. Its bytes go through the parser and every message it
        hands over is handled; on an error the client is removed if it was
        admitted; a read of nothing does nothing. Returns whether the next read
        is started. */
    method HandleRead(mgr: CBoostClientManager, error: bool, data: ByteVector) returns (readAgain: bool)
      requires |expectedAuth| == AUTHENTICATION_LEN && mgr.Valid()
      requires initState == WaitingForHello ==> this !in mgr.registry
      modifies this`initState, this`written, parser, mgr, mgr.commands
      ensures !error && |data| > 0 ==>
                var p := ParseAll(old(parser.partialInput) + data);
                && parser.partialInput == Trim(p.rest)
                && HasDone(mgr, HandleAll(Expects(), Session(old(initState), 0, [], []), p.messages),
                           old(written), old(mgr.clients), old(mgr.registry), old(mgr.commands.items))
                && readAgain == (initState != BadInit)
      ensures error ==>
                && initState == old(initState) && written == old(written)
                && mgr.View() == (if initState == Authenticated then RemoveClient(old(mgr.View()), this) else old(mgr.View()))
                && !readAgain && parser.partialInput == old(parser.partialInput)
      ensures !error && |data| == 0 ==>
                && initState == old(initState) && written == old(written) && mgr.View() == old(mgr.View())
                && !readAgain && parser.partialInput == old(parser.partialInput)
    {
      readAgain := false;
      if !error && |data| > 0 {
        hide ParseAll, Trim, HandleAll, WellFormed;
        ghost var p := ParseAll(parser.partialInput + data);
        var first := |parser.handled|;
        parser.Read(data);
        var messages := parser.handled[first..];
        assert messages == p.messages;
        HandleMessages(mgr, messages);
        if initState != BadInit {
          readAgain := true;
        }
      }
      if error {
        if initState == Authenticated {
          mgr.RemoveClientNow(this);
        }
      }
    }
  }

  lemma HandleNone(x: Expected, s: Session)
    ensures HandleAll(x, s, []) == s
  {
  }

  lemma QueuedAppend(client: Client, a: seq<Message>, b: seq<Message>)
    ensures QueuedFrom(client, a + b) == QueuedFrom(client, a) + QueuedFrom(client, b)
  {
  }

  lemma HandleOne(x: Expected, s: Session, m: Message)
    ensures HandleAll(x, s, [m]) == Handle(x, s, m)
  {
    assert [m][1..] == [];
  }

  /** A message adds to what a session has done in the same way whatever it has
      done before. */
  lemma HandleIsLocal(x: Expected, s: Session, m: Message)
    ensures var a, b := Handle(x, s, m), Handle(x, Session(s.state, 0, [], []), m);
            && a.state == b.state && a.registrations == s.registrations + b.registrations
            && a.commands == s.commands + b.commands && a.replies == s.replies + b.replies
  {
  }

  /** The commands of one client, as it queues them. */
  function QueuedFrom(client: Client, ms: seq<Message>): (q: seq<Command<Client>>)
    ensures |q| == |ms|
  {
    seq(|ms|, i requires 0 <= i < |ms| => Queued(Some(client), ms[i]))
  }

  class CBoostClientManager {
    var clients: seq<Client>
    const commands: CSyncQueue<Command<Client>>
    var filterUnion: Params
    var prevFilter: Params
    var current: Command<Client>
    const retries: nat

    // The command loop's own variables, kept here because other threads run
    // between its steps.
    var loop: Loop<Client>
    var running: bool

    // Every client that has been registered.
    ghost var registry: set<Client>

    constructor (retries: nat)
      ensures fresh(commands) && registry == {} && Valid()
      ensures View() == Manager([], map[], [], NO_PARAMS, NO_PARAMS, NoCommand(), Idle, retries, true)
    {
      clients := [];
      commands := new CSyncQueue();
      filterUnion, prevFilter := NO_PARAMS, NO_PARAMS;
      current := NoCommand();
      this.retries := retries;
      loop := Idle;
      running := true;
      registry := {};
    }

    ghost function View(): Manager<Client>
      reads this, commands, registry
    {
      Manager(clients, map c | c in registry :: c.AsPeer(), commands.items,
              filterUnion, prevFilter, current, loop, retries, running)
    }

    ghost predicate Valid()
      reads this, commands, registry
    {
      WellFormed(View())
    }

    /** Returns whether the union changed. */
    method RecomputeSubscribeFilter() returns (changed: bool)
      requires forall c :: c in clients ==> c in registry
      modifies this`filterUnion, this`prevFilter
      ensures View() == Recompute(old(View()))
      ensures changed <==> filterUnion != old(filterUnion)
    {
      var newUnion := NO_PARAMS;
      ghost var ps := Pending(View().peers, clients);
      assert ps[..0] == [];
      for i := 0 to |clients|
        invariant newUnion == Union(ps[..i])
      {
        assert ps[..i + 1][..i] == ps[..i];
        newUnion := Params(Or(newUnion.filter, clients[i].GetSubscription()),
                           Or(newUnion.unreliable, clients[i].GetUnreliable()));
      }
      assert ps[..|clients|] == ps;
      changed := newUnion.filter != filterUnion.filter || newUnion.unreliable != filterUnion.unreliable;
      prevFilter := filterUnion;
      filterUnion := newUnion;
    }

    method SendResponse(client: Option<Client>, o: Output)
      requires KnownClient(View().peers, client)
      modifies (if client.Some? then {client.value} else {})`written
      ensures View() == Write(old(View()), client, o)
    {
      if client.Some? {
        client.value.WriteMessage(o);
      }
    }

    method Open(client: Client, p: Params)
      requires client in registry && forall c :: c in clients ==> c in registry
      modifies this`filterUnion, this`prevFilter, client`inTransaction, client`newParams
      ensures View() == OpenSubscription(old(View()), client, p)
    {
      ghost var v := View();
      client.SetSubscription(p);
      assert View() == SetSubscription(v, client, p);
      hide Union, Pending;
      var changed := RecomputeSubscribeFilter();
    }

    method RollBack(client: Client)
      requires client in registry
      modifies this`filterUnion, client`inTransaction, client`newParams
      ensures View() == ResetFilter(old(View()).(filterUnion := old(prevFilter)), client)
    {
      filterUnion := prevFilter;
      client.ResetFilter();
    }

    method Commit(client: Client)
      requires client in registry
      modifies client`inTransaction, client`params
      ensures View() == CommitFilter(old(View()), client)
    {
      client.CommitFilter();
    }

    method AddCommandFrom(client: Option<Client>, message: Message)
      modifies commands
      ensures commands.items == old(commands.items) + [Command(client, message, 0, ClientTimeout)]
      ensures View() == AddCommand(old(View()), client, message)
    {
      commands.Push(Queued(client, message));
    }

    method AddNewClient(client: Client)
      requires client !in registry
      modifies this`clients, this`registry
      ensures registry == old(registry) + {client} && clients == old(clients) + [client]
      ensures View() == AddClient(old(View()).(peers := old(View()).peers[client := client.AsPeer()]), client)
    {
      registry := registry + {client};
      clients := clients + [client];
    }

    method CloseClients()
      modifies this`clients, this`running, clients`initState
      ensures clients == [] && !running
      ensures View() == CloseAll(old(View()))
      ensures forall c :: c in old(clients) ==> c.initState == Closed
    {
      for i := 0 to |clients|
        invariant forall j :: 0 <= j < i ==> clients[j].initState == Closed
        modifies clients`initState
      {
        clients[i].Close();
      }
      clients := [];
      running := false;
    }

    // -------------------------------------------------------------
    // The command loop, from one interruptible point to the next.

    /** Take a command and prepare it for the link. */
    method BeginCommand()
      requires Valid() && loop.Idle? && |commands.items| > 0
      modifies this`filterUnion, this`prevFilter, this`current, this`loop, commands, registry
      ensures Valid() && View() == Begin(old(View()))
    {
      hide WellFormed, Begin, Union, VectorToFilter, FilterToVector, OpenSubscription, Write;
      ghost var v := View();
      BeginKeepsForm(v);
      FormFacts(v);
      var good, cmd := commands.TimedPop();
      ghost var n := v.(queue := v.queue[1..]);
      assert View() == n;
      BeginUnfolds(v);
      if cmd.client.Some? && cmd.client.value !in clients {
        assert View() == Begin(v);
        return;
      }
      if cmd.message.typ == MUX_INFO {
        SendResponse(cmd.client, Output(MUX_INFO, OK, MuxInfoPayload(cmd.client.value.protocolVersion)));
        assert View() == Begin(v);
        return;
      }
      if !IsPicardApiCommand(cmd.message.typ) || |cmd.message.data| > MAX_SERIAL_API_CMD_LEN {
        SendResponse(cmd.client, Output(cmd.message.typ, ERR_INVALID_CMD, []));
        assert View() == Begin(v);
        return;
      }
      Prepare(cmd);
      assert View() == Begin(v);
    }

    /** Replace a client's filters by the union, and make the command current. */
    method Prepare(next: Command<Client>)
      requires KnownClient(View().peers, next.client) && forall c :: c in clients ==> c in registry
      requires next.message.typ == SUBSCRIBE && next.client.Some? ==> |next.message.data| >= SUBSCRIBE_PARAMS_LENGTH
      modifies this`filterUnion, this`prevFilter, this`current, this`loop
      modifies if next.client.Some? then {next.client.value} else {}
      ensures View() ==
              if next.message.typ == SUBSCRIBE && next.client.Some? then
                var r := OpenSubscription(old(View()), next.client.value, VectorToFilter(next.message.data));
                Forward(r, Rewritten(next, r.filterUnion))
              else Forward(old(View()), next)
    {
      hide Union, VectorToFilter, FilterToVector, OpenSubscription;
      var cmd := next;
      if cmd.message.typ == SUBSCRIBE && cmd.client.Some? {
        Open(cmd.client.value, VectorToFilter(cmd.message.data));
        cmd := cmd.(message := cmd.message.(data := FilterToVector(filterUnion, cmd.message.data)));
      }
      ghost var v := View();
      current := cmd;
      loop := if retries == 0 then Finishing(cmd, ClientTimeout) else Sending(cmd, 0);
      assert View() == Forward(v, cmd);
    }

    /** Hand a copy of the command to the link. */
    method SendCurrent(picard: CBasePicardIO)
      requires Valid() && loop.Sending?
      modifies this`current, this`loop, picard`raw
      ensures Valid() && View() == Transmitted(old(View()), picard.seqNo)
      ensures var m := old(loop).cmd.message;
              picard.raw == old(picard.raw) + [RequestFrame(m.typ, picard.seqNo, m.data)]
    {
      var cmd, attempt := loop.cmd, loop.attempt;
      RequestNotCut(cmd.message, picard.seqNo);
      var sent := picard.SendCommand(cmd.message);
      current := current.(seqNo := sent);
      loop := Waiting(cmd, attempt);
    }

    /** The wait is over. */
    method WakeUp()
      requires Valid() && loop.Waiting?
      modifies this`loop
      ensures Valid() && View() == Wake(old(View()))
    {
      var cmd, attempt := loop.cmd, loop.attempt;
      var result := current.result;
      if result == ClientTimeout && attempt + 1 < retries {
        loop := Sending(cmd, attempt + 1);
      } else {
        loop := Finishing(cmd, result);
      }
    }

    method CommandTimeout(client: Client, typ: byte, code: byte)
      requires client in registry && forall c :: c in clients ==> c in registry
      modifies this`clients, this`running, client`written, clients`initState
      ensures View() == CloseAll(Write(old(View()), Some(client), Output(typ, code, [])))
    {
      SendResponse(Some(client), Output(typ, code, []));
      CloseClients();
    }

    /** Report a command that failed, and clear it. */
    method FinishCommand()
      requires Valid() && loop.Finishing?
      modifies this, registry
      ensures registry == old(registry)
      ensures Valid() && View() == Finish(old(View()))
    {
      hide WellFormed, Write, ResetFilter, Finish;
      ghost var v := View();
      FinishKeepsForm(v);
      FinishUnfolds(v);
      FormFacts(v);
      assert forall c :: c in clients ==> c in registry;
      var cmd, result := loop.cmd, loop.result;
      if result != ClientOk && cmd.client.Some? {
        var c := cmd.client.value;
        if cmd.message.typ == SUBSCRIBE {
          RollBack(c);
        }
        CommandTimeout(c, cmd.message.typ, ERR_COMMAND_TIMEOUT);
      }
      current := NoCommand();
      loop := Idle;
      assert View() == Finish(v);
    }

    // -------------------------------------------------------------
    // Calls from the other threads.

    method CommandCompleted(typ: byte, seqNo: byte, code: byte, payload: ByteVector)
      requires Valid()
      modifies this`filterUnion, this`current, registry
      ensures View() == CommandComplete(old(View()), typ, seqNo, code, payload)
    {
      hide WellFormed, Write, CommitFilter;
      ghost var v := View();
      FormFacts(v);
      if typ != current.message.typ || seqNo != current.seqNo {
        return;
      }
      if typ == SUBSCRIBE && code != OK {
        filterUnion := prevFilter;
      }
      current := current.(result := ClientOk);
      ghost var r := View();
      assert r == (if typ == SUBSCRIBE && code != OK then v.(filterUnion := v.prevFilter) else v)
                  .(current := v.current.(result := ClientOk));
      if current.client.Some? {
        var c := current.client.value;
        SendResponse(current.client, Output(typ, code, payload));
        ghost var w := View();
        assert w == Write(r, Some(c), Output(typ, code, payload));
        if typ == SUBSCRIBE {
          Commit(c);
        }
      }
    }

    method RemoveClientNow(client: Client)
      requires Valid()
      modifies this`clients, this`filterUnion, this`prevFilter, this`current, commands
      ensures View() == RemoveClient(old(View()), client)
    {
      hide WellFormed, Recompute, FilterToVector, Without, RemoveClient;
      ghost var v := View();
      FormFacts(v);
      if current.client.Some? {
        current := current.(result := ClientDisconnect);
      }
      ghost var n := View();
      assert n == if v.current.client.Some? then v.(current := v.current.(result := ClientDisconnect)) else v;
      if client in clients {
        clients := Without(clients, client);
        assert View() == n.(clients := Without(n.clients, client));
        var changed := RecomputeSubscribeFilter();
        assert View() == Recompute(n.(clients := Without(n.clients, client)));
        ghost var r := View();
        if changed {
          AddCommandFrom(None, Message(0, SUBSCRIBE, FilterToVector(filterUnion, EightZeros())));
          assert View() == AddCommand(r, None, Message(0, SUBSCRIBE, FilterToVector(r.filterUnion, EightZeros())));
        }
      }
      RemoveUnfolds(v, client);
      assert View() == RemoveClient(v, client);
    }

    /** A frame from the manager goes through the link to whom it concerns: what it
        does to the multiplexer and to the link's number is the step of the run
        that `s` is a state of. */
    method ReceiveFrame(picard: CBasePicardIO, frame: ByteVector, ghost s: R.Sys<Client>)
      requires Valid() && picard.hasCallback && running
      requires s.m == View() && s.seqNo == picard.seqNo
      requires IsNotification(frame) ==> frame[4] < 31
      modifies this, picard, registry
      ensures IsResponse(frame) ==>
                var t := R.Receive(s, R.Reply(frame[1], frame[2], frame[4], frame[5..]));
                View() == t.m && picard.seqNo == t.seqNo
      ensures IsNotification(frame) ==>
                View() == HandleNotif(s.m, frame[4], frame[5..]) && picard.seqNo == s.seqNo
      ensures IsHelloResponse(frame) ==>
                && View() == s.m
                && picard.seqNo == (if frame[0] == 0 && frame[4] == 0
                                    then R.WorldStep(s, R.HelloResponse(frame[7])).seqNo else s.seqNo)
      ensures IsManagerHello(frame) ==>
                && picard.seqNo == s.seqNo
                && View() == (if old(picard.connected) then CloseAll(s.m) else s.m)
      ensures !IsResponse(frame) && !IsNotification(frame) && !IsHelloResponse(frame) && !IsManagerHello(frame) ==>
                View() == s.m && picard.seqNo == s.seqNo
    {
      hide WellFormed, CommandComplete, HandleNotif;
      ghost var v := View();
      FormFacts(v);
      var callback := picard.FrameComplete(frame);
      assert View() == v && Valid() && forall c :: c in clients ==> c in registry;
      match callback
      case NoCallback =>
      case Completed(typ, seqNo, code, payload) => CommandCompleted(typ, seqNo, code, payload);
      case Notify(notifType, payload) => HandleNotification(notifType, payload);
      case Reset => CloseClients();
    }

    method HandleNotification(notifType: nat, payload: ByteVector)
      requires Valid() && notifType < 31
      modifies clients`written
      ensures View() == HandleNotif(old(View()), notifType, payload)
    {
      hide FilterMatch;
      for i := 0 to |clients|
        invariant forall c :: c in registry ==>
                    c.AsPeer() == if c in clients[..i] then Notified(old(c.AsPeer()), notifType, payload)
                                  else old(c.AsPeer())
        modifies clients`written
      {
        var c := clients[i];
        assert NoDuplicates(View().clients);
        assert c !in clients[..i];
        assert clients[..i + 1] == clients[..i] + [c];
        if c.IsSubscribed(notifType) {
          c.WriteMessage(Output(NOTIFICATION, notifType, payload));
        }
      }
      assert clients[..|clients|] == clients;
    }
  }

  lemma FormFacts<C>(m: Manager<C>)
    requires WellFormed(m)
    ensures NoDuplicates(m.clients) && forall c :: c in m.clients ==> c in m.peers
    ensures KnownClient(m.peers, m.current.client)
    ensures m.loop.Finishing? ==> InProgress(m, m.loop.cmd)
    ensures m.loop.Sending? ==> InProgress(m, m.loop.cmd)
  {
  }

  lemma RemoveUnfolds<C>(m: Manager<C>, c: C)
    requires forall x :: x in m.clients ==> x in m.peers
    ensures var n := if m.current.client.Some? then m.(current := m.current.(result := ClientDisconnect)) else m;
            RemoveClient(m, c) ==
            if c !in m.clients then n
            else
              var r := Recompute(n.(clients := Without(n.clients, c)));
              if r.filterUnion != m.filterUnion
              then AddCommand(r, None, Message(0, SUBSCRIBE, FilterToVector(r.filterUnion, EightZeros())))
              else r
  {
  }

  lemma FinishUnfolds<C>(m: Manager<C>)
    requires WellFormed(m) && m.loop.Finishing?
    ensures var cmd := m.loop.cmd;
            && KnownClient(m.peers, cmd.client)
            && Finish(m) ==
               (if m.loop.result != ClientOk && cmd.client.Some? then CloseAll(TimedOut(m, cmd)) else m)
               .(current := NoCommand(), loop := Idle)
  {
  }

  lemma BeginUnfolds<C>(m: Manager<C>)
    requires WellFormed(m) && m.loop.Idle? && |m.queue| > 0
    ensures var cmd := m.queue[0];
            var n := m.(queue := m.queue[1..]);
            && ProperCommand(m.peers, cmd)
            && Begin(m) ==
               if cmd.client.Some? && cmd.client.value !in m.clients then n
               else if !Forwarded(cmd.message) then
                 Write(n, cmd.client, LocalReply(m.peers[cmd.client.value].version, cmd.message.typ))
               else if cmd.message.typ == SUBSCRIBE && cmd.client.Some? then
                 var r := OpenSubscription(n, cmd.client.value, VectorToFilter(cmd.message.data));
                 Forward(r, Rewritten(cmd, r.filterUnion))
               else Forward(n, cmd)
  {
    assert m.queue[0] in m.queue;
  }

  lemma BeginKeepsForm<C>(m: Manager<C>)
    requires WellFormed(m) && m.loop.Idle? && |m.queue| > 0
    ensures WellFormed(Begin(m))
  {
    R.TakeKeepsForm(R.Sys(m, 0, [], 0, R.Job(None, 0, [], NO_PARAMS, m, false, false, 0), []));
  }

  lemma FinishKeepsForm<C>(m: Manager<C>)
    requires WellFormed(m) && m.loop.Finishing?
    ensures WellFormed(Finish(m))
  {
    R.FinishKeepsForm(R.Sys(m, 0, [], 0, R.Job(None, 0, [], NO_PARAMS, m, false, false, 0), []));
  }
}
