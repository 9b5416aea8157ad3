/** Concrete runs in which something one might expect fails: a resubscribe and a
    SUBSCRIBE that are out of date when they are sent, a refused SUBSCRIBE whose
    filter is committed, a refused resubscribe that takes a client's filter out of
    the union, responses to an earlier command that are taken for the
    answer to a later one, and commands answered twice. The last run shows a
    SUBSCRIBE rolled back. Clients are numbers. */
module Counterexamples {
  import opened Bytes
  import opened MuxMessage
  import opened Subscription
  import opened Manager
  import opened Runs
  import opened Filters
  import opened Responses
  import opened Unions
  import opened FineRuns
  import opened Link

  const FIRST: Params := Params(1, 0)
  const SECOND: Params := Params(2, 0)
  const BOTH: Params := Params(3, 0)

  // ---------------------------------------------------------------
  // The states of the runs.

  function Sub(p: Params): Message {
    Message(0, SUBSCRIBE, FilterToVector(p, EightZeros()))
  }

  function Ask(c: nat, p: Params): Command<nat> {
    Queued(Some(c), Sub(p))
  }

  function At(n: nat, clients: seq<nat>, peers: map<nat, Peer>, queue: seq<Command<nat>>, union: Params, prev: Params): Manager<nat> {
    Manager(clients, peers, queue, union, prev, NoCommand(), Idle, n, true)
  }

  ghost predicate AtRest(m: Manager<nat>) {
    m == At(m.retries, m.clients, m.peers, m.queue, m.filterUnion, m.prevFilter)
  }

  function Begun(m: Manager<nat>, cmd: Command<nat>): Manager<nat> {
    m.(current := cmd, loop := Sending(cmd, 0))
  }

  function Waits(m: Manager<nat>, cmd: Command<nat>, i: nat, seqNo: byte): Manager<nat> {
    m.(current := cmd.(seqNo := seqNo), loop := Waiting(cmd, i))
  }

  function Over(m: Manager<nat>, cmd: Command<nat>, seqNo: byte, result: ClientResult): Manager<nat> {
    m.(current := cmd.(seqNo := seqNo, result := result), loop := Finishing(cmd, result))
  }

  function Quiet(): Peer {
    Peer(NO_PARAMS, NO_PARAMS, false, 4, [])
  }

  function Asking(p: Params): Peer {
    Peer(NO_PARAMS, p, true, 4, [])
  }

  function Told(p: Params, code: byte): Peer {
    Peer(p, p, false, 4, [Output(SUBSCRIBE, code, [])])
  }

  function Two(p: Peer, q: Peer): map<nat, Peer> {
    map[0 := p, 1 := q]
  }

  lemma SmallUnions()
    ensures Union([NO_PARAMS]) == NO_PARAMS && Union([SECOND]) == SECOND
    ensures Union([FIRST, NO_PARAMS]) == FIRST && Union([FIRST, SECOND]) == BOTH
  {
    assert [FIRST, NO_PARAMS][..1] == [FIRST] && [FIRST, SECOND][..1] == [FIRST];
    assert [FIRST][..0] == [] && [SECOND][..0] == [] && [NO_PARAMS][..0] == [];
  }

  /** Writing over a payload of eight bytes leaves nothing of it. */
  lemma OverwriteAll(p: Params, q: Params)
    ensures FilterToVector(p, FilterToVector(q, EightZeros())) == FilterToVector(p, EightZeros())
  {
    hide WordBytes;
  }

  // ---------------------------------------------------------------
  // Their steps.

  lemma Connects(s: Sys<nat>, n: nat, c: nat, clients: seq<nat>, peers: map<nat, Peer>)
    requires WellFormed(s.m) && s.m == At(n, clients, peers, [], NO_PARAMS, NO_PARAMS) && c !in peers
    ensures var x := Step.World(Connect(c, 4));
            && Possible(s, x)
            && Do(s, x) == s.(m := At(n, clients + [c], peers[c := Quiet()], [], NO_PARAMS, NO_PARAMS))
  {
    hide WellFormed;
  }

  lemma Asks(s: Sys<nat>, c: nat, p: Params)
    requires WellFormed(s.m) && s.m.running && c in s.m.peers
    ensures var x := Step.World(Request(c, Sub(p)));
            && Possible(s, x)
            && Do(s, x) == s.(m := s.m.(queue := s.m.queue + [Ask(c, p)]))
  {
    hide WellFormed, FilterToVector;
  }

  lemma TakesSubscribe(s: Sys<nat>, m: Manager<nat>, c: nat, p: Params, union: Params, rest: seq<Command<nat>>)
    requires WellFormed(s.m) && s.m == m.(queue := [Ask(c, p)] + rest) && AtRest(m) && m.retries > 0
    requires c in m.clients && c in m.peers && m.peers[c] == Quiet()
    requires forall d :: d in m.clients ==> d in m.peers
    requires Union(Pending(m.peers[c := Asking(p)], m.clients)) == union
    ensures Possible(s, Take)
    ensures var t := Do(s, Take);
            && t.m == Begun(m.(peers := m.peers[c := Asking(p)], queue := rest, filterUnion := union, prevFilter := m.filterUnion),
                            Ask(c, union))
            && t.seqNo == s.seqNo && t.serial == s.serial + 1 && t.sent == s.sent
            && t.job.client == Some(c) && t.job.asked == p && t.job.accepted == 0 && !t.job.removed
  {
    hide WellFormed, FilterToVector, VectorToFilter, Union;
    FilterRoundTrip(p, EightZeros());
    OverwriteAll(union, p);
    assert s.m.queue[1..] == rest;
  }

  lemma TakesResubscribe(s: Sys<nat>, m: Manager<nat>, rest: seq<Command<nat>>)
    requires WellFormed(s.m) && s.m == m.(queue := [Resubscribe(NO_PARAMS)] + rest) && AtRest(m) && m.retries > 0
    ensures Possible(s, Take)
    ensures var t := Do(s, Take);
            && t.m == Begun(m.(queue := rest), Resubscribe(NO_PARAMS))
            && t.seqNo == s.seqNo && t.serial == s.serial + 1 && t.sent == s.sent
  {
    hide WellFormed, FilterToVector, VectorToFilter, Union;
    assert s.m.queue[1..] == rest;
  }

  lemma Sends(s: Sys<nat>, m: Manager<nat>, cmd: Command<nat>)
    requires WellFormed(s.m) && s.m == Begun(m, cmd) && m.running
    ensures Possible(s, Send)
    ensures var t := Do(s, Send);
            && t.m == Waits(m, cmd, 0, s.seqNo) && t.seqNo == s.seqNo && t.serial == s.serial && t.job == s.job
            && t.sent == s.sent + [Sent(s.serial, cmd.client, cmd.message.typ, s.seqNo, cmd.message.data)]
  {
    hide WellFormed;
  }

  /** The answer to a client's SUBSCRIBE ends the wait. */
  lemma IsAnswered(s: Sys<nat>, m: Manager<nat>, c: nat, i: nat, p: Params, payload: Params, seqNo: byte, code: byte)
    requires WellFormed(s.m) && s.m == Waits(m, Ask(c, payload), i, seqNo) && AtRest(m)
    requires c in m.peers && m.peers[c] == Asking(p)
    ensures var r := Reply(SUBSCRIBE, seqNo, code, []);
            && Possible(s, Arrive(r)) && Accepted(s, r)
            && var t := ReceiveAndWake(s, r);
            && t.m == Over(m.(peers := m.peers[c := Told(p, code)], filterUnion := if code == OK then m.filterUnion else m.prevFilter),
                           Ask(c, payload), seqNo, ClientOk)
            && t.seqNo == (seqNo + 1) % 256 && t.serial == s.serial && t.sent == s.sent
  {
    hide WellFormed, FilterToVector;
    var none: seq<Output> := [];
    assert none + [Output(SUBSCRIBE, code, [])] == [Output(SUBSCRIBE, code, [])];
    var t := Receive(s, Reply(SUBSCRIBE, seqNo, code, []));
    assert t.m.peers[c] == Told(p, code);
    assert t.m.peers == m.peers[c := Told(p, code)];
  }

  /** A command is over, and nothing remains to be reported. */
  lemma IsCleared(s: Sys<nat>, m: Manager<nat>, cmd: Command<nat>, seqNo: byte, result: ClientResult)
    requires WellFormed(s.m) && s.m == Over(m, cmd, seqNo, result) && AtRest(m)
    requires result == ClientOk || cmd.client == None
    ensures Possible(s, Clear)
    ensures Do(s, Clear) == s.(m := m)
  {
    hide WellFormed;
  }

  /** The last wait ends without an answer. */
  lemma GivesUp(s: Sys<nat>, m: Manager<nat>, cmd: Command<nat>, seqNo: byte)
    requires WellFormed(s.m) && s.m == Waits(m, cmd, 0, seqNo) && AtRest(m) && m.retries == 1 && cmd.result == ClientTimeout
    ensures Possible(s, Wake)
    ensures WakeAndResend(s) == s.(m := Over(m, cmd, seqNo, ClientTimeout)) == Do(s, Wake)
  {
    hide WellFormed;
  }

  /** The first of two waits ends without an answer. */
  lemma Resends(s: Sys<nat>, m: Manager<nat>, cmd: Command<nat>)
    requires WellFormed(s.m) && s.m == Waits(m, cmd, 0, s.seqNo) && AtRest(m) && m.retries == 2 && cmd.result == ClientTimeout
    ensures Possible(s, Wake)
    ensures var t := WakeAndResend(s);
            && t.m == Waits(m, cmd, 1, s.seqNo) && t.seqNo == s.seqNo && t.serial == s.serial
            && t.sent == s.sent + [Sent(s.serial, cmd.client, cmd.message.typ, s.seqNo, cmd.message.data)]
  {
    hide WellFormed;
  }

  /** A client leaves while the loop is free. */
  lemma Leaves(s: Sys<nat>, c: nat, rest: seq<nat>, union: Params)
    requires WellFormed(s.m) && AtRest(s.m) && s.m.clients == [c] + rest
    requires forall d :: d in rest ==> d in s.m.peers
    requires Union(Pending(s.m.peers, rest)) == union != s.m.filterUnion
    ensures var x := Step.World(ReadError(c));
            && Possible(s, x)
            && var t := Do(s, x);
            && t.m == At(s.m.retries, rest, s.m.peers, s.m.queue + [Resubscribe(union)], union, s.m.filterUnion)
            && t.seqNo == s.seqNo && t.serial == s.serial && t.sent == s.sent
  {
    assert c in s.m.clients;
    RemoveEffect(s.m, c);
    assert Without(s.m.clients, c) == rest;
    hide WellFormed, FilterToVector, Union, RemoveClient, Pending, Covered;
  }

  // ---------------------------------------------------------------
  // Runs over the link, with a manager that answers what it is sent.

  type Event = LinkEvent<nat>

  ghost predicate LinkReachedBy(l: Link<nat>, n: nat, es: seq<Event>) {
    && LinkInv(LinkStart<nat>(n, 255))
    && CanRunLink(LinkStart(n, 255), es)
    && l == ExecLink(LinkStart(n, 255), es)
  }

  lemma {:induction false} ExtendLink<C>(l: Link<C>, es: seq<LinkEvent<C>>, e: LinkEvent<C>)
    requires LinkInv(l) && CanRunLink(l, es) && WellFormed(ExecLink(l, es).s.m)
    requires LinkEnabled(ExecLink(l, es), e) && !Unsafe(ExecLink(l, es), e)
    ensures CanRunLink(l, es + [e]) && ExecLink(l, es + [e]) == LinkNext(ExecLink(l, es), e)
    decreases |es|
  {
    hide LinkNext, LinkEnabled, Unsafe, LinkInv, WellFormed;
    LinkForm(l);
    if |es| == 0 {
      LinkNextInv(l, e);
      assert (es + [e])[0] == e && (es + [e])[1..] == [];
    } else {
      LinkNextInv(l, es[0]);
      assert (es + [e])[0] == es[0] && (es + [e])[1..] == es[1..] + [e];
      ExtendLink(LinkNext(l, es[0]), es[1..], e);
    }
  }

  lemma LinkExtended(l: Link<nat>, n: nat, es: seq<Event>, e: Event)
    requires LinkReachedBy(l, n, es) && LinkEnabled(l, e) && !Unsafe(l, e)
    ensures WellFormed(l.s.m) && WellFormed(LinkNext(l, e).s.m) && LinkReachedBy(LinkNext(l, e), n, es + [e])
  {
    hide LinkNext, LinkEnabled, Unsafe, LinkInv, WellFormed;
    LinkForm(l);
    ExtendLink(LinkStart(n, 255), es, e);
    LinkNextInv(l, e);
    LinkForm(LinkNext(l, e));
  }

  /** A step of the loop or the clients. */
  lemma Steps(l: Link<nat>, n: nat, es: seq<Event>, x: Step<nat>)
    requires LinkReachedBy(l, n, es) && WellFormed(l.s.m) && IsLocal(x) && Possible(l.s, x)
    requires !Unsafe(l, Local(x))
    ensures var k := LinkNext(l, Local(x));
            && LinkReachedBy(k, n, es + [Local(x)]) && WellFormed(k.s.m) && k.s == Do(l.s, x) && k.down == l.down
            && (k.s.sent == l.s.sent ==> k.up == l.up)
            && (|k.s.sent| == |l.s.sent| + 1 ==> k.up == l.up + [ToPacket(k.s.sent[|l.s.sent|])])
  {
    hide LinkReachedBy, WellFormed, Do, Possible, Unsafe;
    LinkExtended(l, n, es, Local(x));
  }

  /** The end of a wait. */
  lemma Waited(l: Link<nat>, n: nat, es: seq<Event>)
    requires LinkReachedBy(l, n, es) && WellFormed(l.s.m) && Possible(l.s, Wake)
    ensures var k := LinkNext(l, Timeout);
            && LinkReachedBy(k, n, es + [Event.Timeout]) && WellFormed(k.s.m) && k.s == WakeAndResend(l.s) && k.down == l.down
            && (k.s.sent == l.s.sent ==> k.up == l.up)
            && (|k.s.sent| == |l.s.sent| + 1 ==> k.up == l.up + [ToPacket(k.s.sent[|l.s.sent|])])
  {
    hide LinkReachedBy, WellFormed, WakeAndResend, Possible;
    LinkExtended(l, n, es, Timeout);
  }

  /** The manager answers the oldest request. */
  lemma Answers1(l: Link<nat>, n: nat, es: seq<Event>, code: byte)
    requires LinkReachedBy(l, n, es) && WellFormed(l.s.m) && |l.up| > 0
    ensures var k := LinkNext(l, Answer(code, []));
            && LinkReachedBy(k, n, es + [Answer(code, [])]) && WellFormed(k.s.m)
            && k.s == l.s && k.up == l.up[1..] && k.down == l.down + [l.up[0].(code := code, payload := [])]
  {
    hide LinkReachedBy, WellFormed;
    LinkExtended(l, n, es, Answer(code, []));
  }

  /** The oldest response arrives. */
  lemma Arrives(l: Link<nat>, n: nat, es: seq<Event>)
    requires LinkReachedBy(l, n, es) && WellFormed(l.s.m) && |l.down| > 0 && Possible(l.s, Arrive(ReplyOf(l.down[0])))
    requires !Unsafe(l, Deliver)
    ensures var k := LinkNext(l, Deliver);
            && LinkReachedBy(k, n, es + [Deliver]) && WellFormed(k.s.m)
            && k.s == ReceiveAndWake(l.s, ReplyOf(l.down[0])) && k.up == l.up && k.down == l.down[1..]
  {
    hide LinkReachedBy, WellFormed, ReceiveAndWake, Unsafe, Possible;
    LinkExtended(l, n, es, Deliver);
  }

  /** Both clients connect, and client 0 asks for filters. */
  function Opening(): seq<Event> {
    [Local(World(Connect(0, 4))), Local(World(Connect(1, 4))), Local(World(Request(0, Sub(FIRST)))), Local(Take), Local(Send)]
  }

  lemma Start(n: nat)
    ensures LinkReachedBy(LinkStart(n, 255), n, []) && LinkStart<nat>(n, 255) == Link(Init(n), [], [])
    ensures WellFormed(Init<nat>(n).m)
  {
    StartInv<nat>(n, 255);
    hide LinkInv;
  }

  lemma BothConnect(n: nat) returns (l: Link<nat>)
    ensures LinkReachedBy(l, n, Opening()[..2]) && WellFormed(l.s.m)
    ensures l.s.m == At(n, [0, 1], Two(Quiet(), Quiet()), [], NO_PARAMS, NO_PARAMS)
    ensures l.s.seqNo == 0 && l.s.serial == 0 && l.s.sent == [] && l.up == l.down == []
  {
    hide LinkReachedBy, WellFormed, Do, Possible, LinkNext;
    l := LinkStart(n, 255);
    Start(n);
    var none: seq<Event> := [];
    var run := Opening();
    Connects(l.s, n, 0, [], map[]);
    Steps(l, n, none, World(Connect(0, 4)));
    l := LinkNext(l, run[0]);
    assert none + [run[0]] == run[..1];
    Connects(l.s, n, 1, [0], map[0 := Quiet()]);
    Steps(l, n, run[..1], World(Connect(1, 4)));
    l := LinkNext(l, run[1]);
    assert run[..1] + [run[1]] == run[..2];
  }

  lemma FirstAsks(n: nat) returns (l: Link<nat>)
    requires n > 0
    ensures LinkReachedBy(l, n, Opening()) && WellFormed(l.s.m)
    ensures l.s.m == Waits(At(n, [0, 1], Two(Asking(FIRST), Quiet()), [], FIRST, NO_PARAMS), Ask(0, FIRST), 0, 0)
    ensures l.s.seqNo == 0 && l.s.serial == 1 && l.down == []
    ensures l.up == [Packet(1, SUBSCRIBE, 0, 0, Sub(FIRST).data)]
  {
    hide LinkReachedBy, WellFormed, Do, Possible, LinkNext, Union, FilterToVector;
    var run := Opening();
    l := BothConnect(n);
    var m := l.s.m;
    Asks(l.s, 0, FIRST);
    Steps(l, n, run[..2], World(Request(0, Sub(FIRST))));
    l := LinkNext(l, run[2]);
    assert run[..2] + [run[2]] == run[..3];
    SmallUnions();
    assert m.peers[0 := Asking(FIRST)] == Two(Asking(FIRST), Quiet());
    assert Pending(Two(Asking(FIRST), Quiet()), [0, 1]) == [FIRST, NO_PARAMS];
    TakesSubscribe(l.s, m, 0, FIRST, FIRST, []);
    Steps(l, n, run[..3], Take);
    l := LinkNext(l, run[3]);
    assert run[..3] + [run[3]] == run[..4];
    Sends(l.s, At(n, [0, 1], Two(Asking(FIRST), Quiet()), [], FIRST, NO_PARAMS), Ask(0, FIRST));
    Steps(l, n, run[..4], Send);
    l := LinkNext(l, run[4]);
    assert run[..4] + [run[4]] == run;
  }

  // ---------------------------------------------------------------
  // A refused SUBSCRIBE.

  /** Client 0's SUBSCRIBE is refused: the union is empty again, and the client's
      committed filter is nevertheless what it asked for. */
  lemma RefusedIsCommitted() returns (l: Link<nat>)
    ensures LinkReachedBy(l, 1, Opening() + [Answer(ERR_INVALID_CMD, []), Deliver])
    ensures l.s.m.clients == [0, 1] && l.s.m.filterUnion == NO_PARAMS
    ensures 0 in l.s.m.peers && l.s.m.peers[0] == Told(FIRST, ERR_INVALID_CMD)
  {
    hide LinkReachedBy, WellFormed, LinkNext, Union, FilterToVector, ReceiveAndWake;
    l := FirstAsks(1);
    Answers1(l, 1, Opening(), ERR_INVALID_CMD);
    l := LinkNext(l, Answer(ERR_INVALID_CMD, []));
    IsAnswered(l.s, At(1, [0, 1], Two(Asking(FIRST), Quiet()), [], FIRST, NO_PARAMS), 0, 0, FIRST, FIRST, 0, ERR_INVALID_CMD);
    Arrives(l, 1, Opening() + [Answer(ERR_INVALID_CMD, [])]);
    l := LinkNext(l, Deliver);
    assert Opening() + [Answer(ERR_INVALID_CMD, [])] + [Deliver] == Opening() + [Answer(ERR_INVALID_CMD, []), Deliver];
  }

  // ---------------------------------------------------------------
  // Client 0 has its filters.

  function Served(): seq<Event> {
    Opening() + [Answer(OK, []), Deliver, Local(Clear)]
  }

  function Opened(): Manager<nat> {
    At(1, [0, 1], Two(Told(FIRST, OK), Quiet()), [], FIRST, NO_PARAMS)
  }

  lemma FirstServed() returns (l: Link<nat>)
    ensures LinkReachedBy(l, 1, Served()) && WellFormed(l.s.m)
    ensures l.s.m == Opened() && l.s.seqNo == 1 && l.s.serial == 1 && l.up == l.down == []
  {
    hide LinkReachedBy, WellFormed, LinkNext, Union, FilterToVector, ReceiveAndWake, Do;
    var run := Opening();
    var m := At(1, [0, 1], Two(Asking(FIRST), Quiet()), [], FIRST, NO_PARAMS);
    l := FirstAsks(1);
    Answers1(l, 1, run, OK);
    l := LinkNext(l, Answer(OK, []));
    IsAnswered(l.s, m, 0, 0, FIRST, FIRST, 0, OK);
    Arrives(l, 1, run + [Answer(OK, [])]);
    l := LinkNext(l, Deliver);
    assert m.peers[0 := Told(FIRST, OK)] == Two(Told(FIRST, OK), Quiet());
    IsCleared(l.s, Opened(), Ask(0, FIRST), 0, ClientOk);
    Steps(l, 1, run + [Answer(OK, [])] + [Deliver], Clear);
    l := LinkNext(l, Local(Clear));
    assert run + [Answer(OK, [])] + [Deliver] + [Local(Clear)] == Served();
  }

  // ---------------------------------------------------------------
  // A SUBSCRIBE sent out of date.

  /** Client 1's SUBSCRIBE is taken, client 0 leaves, and the copy is sent. */
  function Departing(): seq<Event> {
    [Local(World(Request(1, Sub(SECOND)))), Local(Take), Local(World(ReadError(0))), Local(Send)]
  }

  /** The removal of client 0 while client 1's SUBSCRIBE is about to be sent. */
  lemma LeavesEarly(s: Sys<nat>, m: Manager<nat>)
    requires WellFormed(s.m) && s.m == Begun(m, Ask(1, BOTH)) && AtRest(m) && m.clients == [0, 1]
    requires m.peers == Two(Told(FIRST, OK), Asking(SECOND)) && m.filterUnion == BOTH
    ensures var x := Step.World(ReadError(0));
            && Possible(s, x)
            && var t := Do(s, x);
            && t.m.clients == [1] && t.m.peers == m.peers && t.m.filterUnion == SECOND && t.m.running
            && t.m.loop == s.m.loop && t.job.asked == s.job.asked && t.job.uncovered
            && t.sent == s.sent && t.serial == s.serial
  {
    assert 0 in s.m.clients;
    RemoveEffect(s.m, 0);
    assert Without(s.m.clients, 0) == [1];
    SmallUnions();
    assert Pending(m.peers, [1]) == [SECOND];
    assert !Within(FIRST, SECOND);
    hide WellFormed, FilterToVector, Union, RemoveClient, Pending;
  }

  lemma SecondTaken() returns (l: Link<nat>)
    ensures LinkReachedBy(l, 1, Served() + Departing()[..2]) && WellFormed(l.s.m)
    ensures l.s.m == Begun(At(1, [0, 1], Two(Told(FIRST, OK), Asking(SECOND)), [], BOTH, FIRST), Ask(1, BOTH))
    ensures l.s.job.asked == SECOND
  {
    hide LinkReachedBy, WellFormed, LinkNext, Union, FilterToVector, Do, Possible;
    var run, more := Served(), Departing();
    l := FirstServed();
    Asks(l.s, 1, SECOND);
    Steps(l, 1, run, World(Request(1, Sub(SECOND))));
    l := LinkNext(l, more[0]);
    assert run + [more[0]] == run + more[..1];
    SmallUnions();
    var m := Opened();
    assert m.peers[1 := Asking(SECOND)] == Two(Told(FIRST, OK), Asking(SECOND));
    assert Pending(Two(Told(FIRST, OK), Asking(SECOND)), [0, 1]) == [FIRST, SECOND];
    TakesSubscribe(l.s, m, 1, SECOND, BOTH, []);
    Steps(l, 1, run + more[..1], Take);
    l := LinkNext(l, more[1]);
    assert run + more[..1] + [more[1]] == run + more[..2];
  }

  /** The copy sent for client 1 still asks for the filters of client 0, which has
      left. */
  lemma DepartedFilterSent() returns (l: Link<nat>)
    ensures LinkReachedBy(l, 1, Served() + Departing())
    ensures l.s.m.clients == [1] && 1 in l.s.m.peers && l.s.job.asked == SECOND
    ensures Union(Wanted(l.s.m.peers, l.s.m.clients, 1, SECOND)) == SECOND
    ensures |l.s.sent| > 0
    ensures var copy := l.s.sent[|l.s.sent| - 1];
            && copy.client == Some(1) && copy.typ == SUBSCRIBE && |copy.data| >= SUBSCRIBE_PARAMS_LENGTH
            && VectorToFilter(copy.data) == BOTH
  {
    hide LinkReachedBy, WellFormed, LinkNext, Union, FilterToVector, VectorToFilter;
    var run, more := Served(), Departing();
    l := SecondTaken();
    LeavesEarly(l.s, At(1, [0, 1], Two(Told(FIRST, OK), Asking(SECOND)), [], BOTH, FIRST));
    Steps(l, 1, run + more[..2], World(ReadError(0)));
    l := LinkNext(l, more[2]);
    assert run + more[..2] + [more[2]] == run + more[..3];
    Steps(l, 1, run + more[..3], Send);
    l := LinkNext(l, more[3]);
    assert run + more[..3] + [more[3]] == run + more;
    SmallUnions();
    assert Wanted(l.s.m.peers, l.s.m.clients, 1, SECOND) == [SECOND];
    FilterRoundTrip(BOTH, EightZeros());
  }

  // ---------------------------------------------------------------
  // A stale resubscribe.

  /** Client 1 asks for filters, client 0 leaves, and client 1 is answered before
      the resubscribe's turn comes. */
  function Overtaking(): seq<Event> {
    [Local(World(Request(1, Sub(SECOND)))), Local(World(ReadError(0))), Local(Take), Local(Send),
     Answer(OK, []), Deliver, Local(Clear), Local(Take), Local(Send)]
  }

  lemma FirstLeaves() returns (l: Link<nat>)
    ensures LinkReachedBy(l, 1, Served() + Overtaking()[..2]) && WellFormed(l.s.m)
    ensures l.s.m == At(1, [1], Two(Told(FIRST, OK), Quiet()), [Ask(1, SECOND), Resubscribe(NO_PARAMS)], NO_PARAMS, FIRST)
    ensures l.s.seqNo == 1 && l.s.serial == 1 && l.up == l.down == []
  {
    hide LinkReachedBy, WellFormed, LinkNext, Union, FilterToVector, Do, Possible;
    var run, more := Served(), Overtaking();
    l := FirstServed();
    Asks(l.s, 1, SECOND);
    Steps(l, 1, run, World(Request(1, Sub(SECOND))));
    l := LinkNext(l, more[0]);
    assert run + [more[0]] == run + more[..1];
    SmallUnions();
    assert Pending(l.s.m.peers, [1]) == [NO_PARAMS];
    assert l.s.m.clients == [0] + [1];
    Leaves(l.s, 0, [1], NO_PARAMS);
    Steps(l, 1, run + more[..1], World(ReadError(0)));
    l := LinkNext(l, more[1]);
    assert run + more[..1] + [more[1]] == run + more[..2];
  }

  function SecondServed(p: Peer, rest: seq<Command<nat>>): Manager<nat> {
    At(1, [1], Two(Told(FIRST, OK), p), rest, SECOND, NO_PARAMS)
  }

  lemma SecondSent() returns (l: Link<nat>)
    ensures LinkReachedBy(l, 1, Served() + Overtaking()[..4]) && WellFormed(l.s.m)
    ensures l.s.m == Waits(SecondServed(Asking(SECOND), [Resubscribe(NO_PARAMS)]), Ask(1, SECOND), 0, 1)
    ensures l.s.seqNo == 1 && l.s.serial == 2 && l.down == [] && |l.up| == 1
    ensures l.up[0].typ == SUBSCRIBE && l.up[0].seqNo == 1
  {
    hide LinkReachedBy, WellFormed, LinkNext, Union, FilterToVector, Do, Possible;
    var run, more := Served(), Overtaking();
    l := FirstLeaves();
    var rest := [Resubscribe(NO_PARAMS)];
    var m := At(1, [1], Two(Told(FIRST, OK), Quiet()), rest, NO_PARAMS, FIRST);
    SmallUnions();
    assert m.peers[1 := Asking(SECOND)] == Two(Told(FIRST, OK), Asking(SECOND));
    assert Pending(Two(Told(FIRST, OK), Asking(SECOND)), [1]) == [SECOND];
    assert l.s.m.queue == [Ask(1, SECOND)] + rest;
    TakesSubscribe(l.s, m, 1, SECOND, SECOND, rest);
    Steps(l, 1, run + more[..2], Take);
    l := LinkNext(l, more[2]);
    assert run + more[..2] + [more[2]] == run + more[..3];
    Sends(l.s, SecondServed(Asking(SECOND), rest), Ask(1, SECOND));
    Steps(l, 1, run + more[..3], Send);
    l := LinkNext(l, more[3]);
    assert run + more[..3] + [more[3]] == run + more[..4];
  }

  lemma SecondCleared() returns (l: Link<nat>)
    ensures LinkReachedBy(l, 1, Served() + Overtaking()[..7]) && WellFormed(l.s.m)
    ensures l.s.m == SecondServed(Told(SECOND, OK), [Resubscribe(NO_PARAMS)])
    ensures l.s.seqNo == 2 && l.up == l.down == []
  {
    hide LinkReachedBy, WellFormed, LinkNext, Union, FilterToVector, ReceiveAndWake, Do;
    var run, more := Served(), Overtaking();
    var rest := [Resubscribe(NO_PARAMS)];
    l := SecondSent();
    Answers1(l, 1, run + more[..4], OK);
    l := LinkNext(l, more[4]);
    assert run + more[..4] + [more[4]] == run + more[..5];
    IsAnswered(l.s, SecondServed(Asking(SECOND), rest), 1, 0, SECOND, SECOND, 1, OK);
    Arrives(l, 1, run + more[..5]);
    l := LinkNext(l, more[5]);
    assert run + more[..5] + [more[5]] == run + more[..6];
    assert Two(Told(FIRST, OK), Asking(SECOND))[1 := Told(SECOND, OK)] == Two(Told(FIRST, OK), Told(SECOND, OK));
    IsCleared(l.s, SecondServed(Told(SECOND, OK), rest), Ask(1, SECOND), 1, ClientOk);
    Steps(l, 1, run + more[..6], Clear);
    l := LinkNext(l, more[6]);
    assert run + more[..6] + [more[6]] == run + more[..7];
  }

  lemma ResubscribeSent() returns (l: Link<nat>)
    ensures LinkReachedBy(l, 1, Served() + Overtaking()) && WellFormed(l.s.m)
    ensures l.s.m == Waits(SecondServed(Told(SECOND, OK), []), Resubscribe(NO_PARAMS), 0, 2)
    ensures |l.s.sent| > 0
    ensures var copy := l.s.sent[|l.s.sent| - 1];
            copy.client == None && copy.typ == SUBSCRIBE && copy.data == Sub(NO_PARAMS).data
    ensures l.down == [] && |l.up| == 1 && l.up[0].typ == SUBSCRIBE && l.up[0].seqNo == 2
  {
    hide LinkReachedBy, WellFormed, LinkNext, Union, FilterToVector, Do, Possible;
    var run, more := Served(), Overtaking();
    l := SecondCleared();
    TakesResubscribe(l.s, l.s.m, []);
    Steps(l, 1, run + more[..7], Take);
    l := LinkNext(l, more[7]);
    assert run + more[..7] + [more[7]] == run + more[..8];
    Sends(l.s, SecondServed(Told(SECOND, OK), []), Resubscribe(NO_PARAMS));
    Steps(l, 1, run + more[..8], Send);
    l := LinkNext(l, more[8]);
    assert run + more[..8] + [more[8]] == run + more;
  }

  /** The resubscribe goes out with no filters at all, while client 1 has had its
      filters accepted: the manager is left with an empty filter. */
  lemma StaleResubscribe() returns (l: Link<nat>)
    ensures LinkReachedBy(l, 1, Served() + Overtaking())
    ensures |l.s.sent| > 0
    ensures var copy := l.s.sent[|l.s.sent| - 1];
            && copy.client == None && copy.typ == SUBSCRIBE && |copy.data| >= SUBSCRIBE_PARAMS_LENGTH
            && VectorToFilter(copy.data) == NO_PARAMS
    ensures l.s.m.clients == [1] && 1 in l.s.m.peers && l.s.m.peers[1].params == SECOND
    ensures l.s.m.filterUnion == SECOND
  {
    hide LinkReachedBy, WellFormed, FilterToVector, VectorToFilter;
    l := ResubscribeSent();
    FilterRoundTrip(NO_PARAMS, EightZeros());
  }

  /** The refusal of a command without a client. */
  lemma IsRefused(s: Sys<nat>, m: Manager<nat>, seqNo: byte, code: byte)
    requires WellFormed(s.m) && s.m == Waits(m, Resubscribe(NO_PARAMS), 0, seqNo) && AtRest(m) && code != OK
    ensures var r := Reply(SUBSCRIBE, seqNo, code, []);
            && Possible(s, Arrive(r)) && Refuses(s, r)
            && ReceiveAndWake(s, r).m == Over(m.(filterUnion := m.prevFilter), Resubscribe(NO_PARAMS), seqNo, ClientOk)
  {
    hide WellFormed, FilterToVector;
  }

  /** The manager refuses that resubscribe. */
  function Refused(): seq<Event> {
    [Answer(ERR_INVALID_CMD, []), Deliver, Local(Clear)]
  }

  /** The refusal brings back the union saved before client 1 had its filters: the
      multiplexer is at rest with an empty union, and client 1 is connected and
      settled with a filter that was accepted. */
  lemma RefusedResubscribeSpoils() returns (l: Link<nat>)
    ensures LinkReachedBy(l, 1, Served() + Overtaking() + Refused()) && WellFormed(l.s.m)
    ensures l.s.m.running && l.s.m.loop.Idle? && l.s.m.clients == [1] && l.s.m.filterUnion == NO_PARAMS
    ensures 1 in l.s.m.peers && Settled(l.s.m.peers[1]) && l.s.m.peers[1].params == SECOND
    ensures Everyone(l.s.m) == SECOND
  {
    hide LinkReachedBy, WellFormed, LinkNext, Union, FilterToVector, ReceiveAndWake, Do, Possible;
    var run, more := Served() + Overtaking(), Refused();
    l := ResubscribeSent();
    var m := SecondServed(Told(SECOND, OK), []);
    Answers1(l, 1, run, ERR_INVALID_CMD);
    l := LinkNext(l, more[0]);
    assert run + [more[0]] == run + more[..1];
    IsRefused(l.s, m, 2, ERR_INVALID_CMD);
    Arrives(l, 1, run + more[..1]);
    l := LinkNext(l, more[1]);
    assert run + more[..1] + [more[1]] == run + more[..2];
    IsCleared(l.s, m.(filterUnion := NO_PARAMS), Resubscribe(NO_PARAMS), 2, ClientOk);
    Steps(l, 1, run + more[..2], Clear);
    l := LinkNext(l, more[2]);
    assert run + more[..2] + [more[2]] == run + more;
    SmallUnions();
    assert Pending(l.s.m.peers, [1]) == [SECOND];
    EveryoneIs(l.s.m, SECOND);
  }

  lemma EveryoneIs(m: Manager<nat>, p: Params)
    requires WellFormed(m) && Pending(m.peers, m.clients) == [p] && Union([p]) == p
    ensures Everyone(m) == p
  {
  }

  // ---------------------------------------------------------------
  // A late answer to a resubscribe.

  /** Client 0 leaves, client 1 asks for filters, and the resubscribe is sent and
      answered, but the answer takes too long. */
  function Delayed(): seq<Event> {
    [Local(World(ReadError(0))), Local(World(Request(1, Sub(SECOND)))), Local(Take), Local(Send), Answer(OK, []), Timeout]
  }

  lemma ResubscribeTaken() returns (l: Link<nat>)
    ensures LinkReachedBy(l, 1, Served() + Delayed()[..3]) && WellFormed(l.s.m)
    ensures l.s.m == Begun(At(1, [1], Two(Told(FIRST, OK), Quiet()), [Ask(1, SECOND)], NO_PARAMS, FIRST), Resubscribe(NO_PARAMS))
    ensures l.s.seqNo == 1 && l.s.serial == 2 && l.up == l.down == []
  {
    hide LinkReachedBy, WellFormed, LinkNext, Union, FilterToVector, Do, Possible;
    var run, more := Served(), Delayed();
    l := FirstServed();
    SmallUnions();
    assert Pending(l.s.m.peers, [1]) == [NO_PARAMS];
    assert l.s.m.clients == [0] + [1];
    Leaves(l.s, 0, [1], NO_PARAMS);
    Steps(l, 1, run, World(ReadError(0)));
    l := LinkNext(l, more[0]);
    assert run + [more[0]] == run + more[..1];
    Asks(l.s, 1, SECOND);
    Steps(l, 1, run + more[..1], World(Request(1, Sub(SECOND))));
    l := LinkNext(l, more[1]);
    assert run + more[..1] + [more[1]] == run + more[..2];
    var m := At(1, [1], Two(Told(FIRST, OK), Quiet()), [], NO_PARAMS, FIRST);
    assert l.s.m.queue == [Resubscribe(NO_PARAMS)] + [Ask(1, SECOND)];
    TakesResubscribe(l.s, m, [Ask(1, SECOND)]);
    Steps(l, 1, run + more[..2], Take);
    l := LinkNext(l, more[2]);
    assert run + more[..2] + [more[2]] == run + more[..3];
  }

  lemma AnswerDelayed() returns (l: Link<nat>)
    ensures LinkReachedBy(l, 1, Served() + Delayed()) && WellFormed(l.s.m)
    ensures l.s.m == Over(At(1, [1], Two(Told(FIRST, OK), Quiet()), [Ask(1, SECOND)], NO_PARAMS, FIRST),
                          Resubscribe(NO_PARAMS), 1, ClientTimeout)
    ensures l.s.seqNo == 1 && l.s.serial == 2 && l.up == []
    ensures l.down == [Packet(2, SUBSCRIBE, 1, OK, [])]
  {
    hide LinkReachedBy, WellFormed, LinkNext, Union, FilterToVector, Do, Possible, WakeAndResend;
    var run, more := Served(), Delayed();
    var m := At(1, [1], Two(Told(FIRST, OK), Quiet()), [Ask(1, SECOND)], NO_PARAMS, FIRST);
    l := ResubscribeTaken();
    Sends(l.s, m, Resubscribe(NO_PARAMS));
    Steps(l, 1, run + more[..3], Send);
    l := LinkNext(l, more[3]);
    assert run + more[..3] + [more[3]] == run + more[..4];
    Answers1(l, 1, run + more[..4], OK);
    l := LinkNext(l, more[4]);
    assert run + more[..4] + [more[4]] == run + more[..5];
    GivesUp(l.s, m, Resubscribe(NO_PARAMS), 1);
    Waited(l, 1, run + more[..5]);
    l := LinkNext(l, more[5]);
    assert run + more[..5] + [more[5]] == run + more;
  }

  /** The resubscribe that was given up is cleared, and the next command taken and
      sent. */
  ghost predicate ClearsAndSends(l: Link<nat>, k: Link<nat>) {
    && WellFormed(l.s.m) && LinkEnabled(l, Local(Clear))
    && var l1 := LinkNext(l, Local(Clear));
    && WellFormed(l1.s.m) && LinkEnabled(l1, Local(Take))
    && var l2 := LinkNext(l1, Local(Take));
    && WellFormed(l2.s.m) && LinkEnabled(l2, Local(Send)) && k == LinkNext(l2, Local(Send))
  }

  /** The next response is accepted, and belongs to an earlier command. */
  ghost predicate AcceptsOld(k: Link<nat>) {
    && WellFormed(k.s.m) && LinkEnabled(k, Deliver) && Busy(k.s)
    && Accepted(k.s, ReplyOf(k.down[0])) && k.down[0].serial < k.s.serial
  }

  lemma TakesSecond(s: Sys<nat>)
    requires WellFormed(s.m) && s.m == At(1, [1], Two(Told(FIRST, OK), Quiet()), [Ask(1, SECOND)], NO_PARAMS, FIRST)
    ensures Possible(s, Take) && WellFormed(Do(s, Take).m)
    ensures var t := Do(s, Take);
            && t.m == Begun(SecondServed(Asking(SECOND), []), Ask(1, SECOND))
            && t.seqNo == s.seqNo && t.serial == s.serial + 1 && t.sent == s.sent
  {
    hide WellFormed, FilterToVector, Union, TakeCommand;
    var m := At(1, [1], Two(Told(FIRST, OK), Quiet()), [], NO_PARAMS, FIRST);
    SmallUnions();
    assert m.peers[1 := Asking(SECOND)] == Two(Told(FIRST, OK), Asking(SECOND));
    assert Pending(Two(Told(FIRST, OK), Asking(SECOND)), [1]) == [SECOND];
    assert s.m.queue == [Ask(1, SECOND)] + [];
    TakesSubscribe(s, m, 1, SECOND, SECOND, []);
    TakeKeepsForm(s);
  }

  /** Clearing the resubscribe is unsafe: client 1's SUBSCRIBE goes out under the
      same number, and the late answer completes it. Client 1 is told that its
      filters are accepted while its request is still on the wire. */
  lemma LateAnswerAccepted() returns (l: Link<nat>, k: Link<nat>)
    ensures LinkReachedBy(l, 1, Served() + Delayed()) && Unsafe(l, Local(Clear))
    ensures ClearsAndSends(l, k) && AcceptsOld(k)
    ensures LinkNext(k, Deliver).s.m.peers == Two(Told(FIRST, OK), Told(SECOND, OK))
    ensures |k.up| == 1 && k.up[0].serial == k.s.serial && LinkNext(k, Deliver).up == k.up
  {
    hide LinkReachedBy, WellFormed, Union, FilterToVector, TakeCommand, FinishCommand, WorldStep, Transmit, ReceiveAndWake;
    l := AnswerDelayed();
    var m := At(1, [1], Two(Told(FIRST, OK), Quiet()), [Ask(1, SECOND)], NO_PARAMS, FIRST);
    assert l.down[0] in InFlight(l);
    IsCleared(l.s, m, Resubscribe(NO_PARAMS), 1, ClientTimeout);
    FinishKeepsForm(l.s);
    var l1 := LinkNext(l, Local(Clear));
    TakesSecond(l1.s);
    var l2 := LinkNext(l1, Local(Take));
    Sends(l2.s, SecondServed(Asking(SECOND), []), Ask(1, SECOND));
    SendKeepsForm(l2.s);
    k := LinkNext(l2, Local(Send));
    assert ReplyOf(k.down[0]) == Reply(SUBSCRIBE, 1, OK, []);
    IsAnswered(k.s, SecondServed(Asking(SECOND), []), 1, 0, SECOND, SECOND, 1, OK);
    assert Two(Told(FIRST, OK), Asking(SECOND))[1 := Told(SECOND, OK)] == Two(Told(FIRST, OK), Told(SECOND, OK));
  }

  lemma SendKeepsForm(s: Sys<nat>)
    requires WellFormed(s.m) && s.m.loop.Sending?
    ensures WellFormed(Transmit(s).m)
  {
  }

  // ---------------------------------------------------------------
  // Two copies of a command, both answered.

  /** Client 0's SUBSCRIBE is sent twice, and the manager answers both copies. */
  function Resent(): seq<Event> {
    [Timeout, Answer(OK, []), Answer(OK, []), Deliver]
  }

  function Patient(p: Peer, q: Peer, queue: seq<Command<nat>>): Manager<nat> {
    At(2, [0, 1], Two(p, q), queue, FIRST, NO_PARAMS)
  }

  lemma BothAnswered() returns (l: Link<nat>)
    ensures LinkReachedBy(l, 2, Opening() + Resent()[..3]) && WellFormed(l.s.m)
    ensures l.s.m == Waits(Patient(Asking(FIRST), Quiet(), []), Ask(0, FIRST), 1, 0)
    ensures l.s.seqNo == 0 && l.s.serial == 1 && l.up == []
    ensures l.down == [Packet(1, SUBSCRIBE, 0, OK, []), Packet(1, SUBSCRIBE, 0, OK, [])]
  {
    hide LinkReachedBy, WellFormed, LinkNext, Union, FilterToVector, WakeAndResend;
    var run, more := Opening(), Resent();
    l := FirstAsks(2);
    Resends(l.s, Patient(Asking(FIRST), Quiet(), []), Ask(0, FIRST));
    Waited(l, 2, run);
    l := LinkNext(l, more[0]);
    assert run + [more[0]] == run + more[..1];
    Answers1(l, 2, run + more[..1], OK);
    l := LinkNext(l, more[1]);
    assert run + more[..1] + [more[1]] == run + more[..2];
    Answers1(l, 2, run + more[..2], OK);
    l := LinkNext(l, more[2]);
    assert run + more[..2] + [more[2]] == run + more[..3];
  }

  lemma FirstOfTwo() returns (l: Link<nat>)
    ensures LinkReachedBy(l, 2, Opening() + Resent()) && WellFormed(l.s.m)
    ensures l.s.m == Over(Patient(Told(FIRST, OK), Quiet(), []), Ask(0, FIRST), 0, ClientOk)
    ensures l.s.seqNo == 1 && l.s.serial == 1 && l.up == [] && l.down == [Packet(1, SUBSCRIBE, 0, OK, [])]
  {
    hide LinkReachedBy, WellFormed, LinkNext, Union, FilterToVector, ReceiveAndWake;
    var run, more := Opening(), Resent();
    l := BothAnswered();
    IsAnswered(l.s, Patient(Asking(FIRST), Quiet(), []), 0, 1, FIRST, FIRST, 0, OK);
    assert Two(Asking(FIRST), Quiet())[0 := Told(FIRST, OK)] == Two(Told(FIRST, OK), Quiet());
    Arrives(l, 2, run + more[..3]);
    l := LinkNext(l, more[3]);
    assert run + more[..3] + [more[3]] == run + more;
  }

  /** The answer to the second copy comes before the loop has cleared the command:
      client 0 is answered twice. */
  lemma BothCopiesAnswer() returns (l: Link<nat>)
    ensures LinkReachedBy(l, 2, Opening() + Resent()) && WellFormed(l.s.m) && LinkEnabled(l, Deliver)
    ensures Accepted(l.s, ReplyOf(l.down[0]))
    ensures var k := LinkNext(l, Deliver);
            0 in k.s.m.peers
            && k.s.m.peers[0].written == [Output(SUBSCRIBE, OK, []), Output(SUBSCRIBE, OK, [])]
  {
    hide LinkReachedBy, WellFormed, FilterToVector;
    l := FirstOfTwo();
  }

  /** The answer to the second copy comes after client 1's SUBSCRIBE is taken. */
  function Early(): seq<Event> {
    [Local(Clear), Local(World(Request(1, Sub(SECOND)))), Local(Take)]
  }

  /** It is accepted before anything has been sent for client 1, which is told that
      its filters are accepted. */
  lemma EarlyAnswerAccepted() returns (l: Link<nat>)
    ensures LinkReachedBy(l, 2, Opening() + Resent() + Early())
    ensures Unsafe(l, Deliver) && AcceptsOld(l) && l.up == [] && l.s.m.loop.Sending?
    ensures LinkNext(l, Deliver).s.m.peers == Two(Told(FIRST, OK), Told(SECOND, OK))
  {
    hide LinkReachedBy, WellFormed, LinkNext, Union, FilterToVector, Do, Possible;
    var run, more := Opening() + Resent(), Early();
    l := FirstOfTwo();
    var m := Patient(Told(FIRST, OK), Quiet(), []);
    IsCleared(l.s, m, Ask(0, FIRST), 0, ClientOk);
    Steps(l, 2, run, Clear);
    l := LinkNext(l, more[0]);
    assert run + [more[0]] == run + more[..1];
    Asks(l.s, 1, SECOND);
    Steps(l, 2, run + more[..1], World(Request(1, Sub(SECOND))));
    l := LinkNext(l, more[1]);
    assert run + more[..1] + [more[1]] == run + more[..2];
    SmallUnions();
    assert m.peers[1 := Asking(SECOND)] == Two(Told(FIRST, OK), Asking(SECOND));
    assert Pending(Two(Told(FIRST, OK), Asking(SECOND)), [0, 1]) == [FIRST, SECOND];
    TakesSubscribe(l.s, m, 1, SECOND, BOTH, []);
    Steps(l, 2, run + more[..2], Take);
    l := LinkNext(l, more[2]);
    assert run + more[..2] + [more[2]] == run + more;
    AcceptedEarly(l);
  }

  lemma AcceptedEarly(l: Link<nat>)
    requires WellFormed(l.s.m) && l.s.serial == 2 && l.s.seqNo == 1
    requires l.s.m == Begun(At(2, [0, 1], Two(Told(FIRST, OK), Asking(SECOND)), [], BOTH, FIRST), Ask(1, BOTH))
    requires l.down == [Packet(1, SUBSCRIBE, 0, OK, [])]
    ensures AcceptsOld(l) && Unsafe(l, Deliver)
    ensures LinkNext(l, Deliver).s.m.peers == Two(Told(FIRST, OK), Told(SECOND, OK))
  {
    hide WellFormed, FilterToVector;
    var none: seq<Output> := [];
    assert none + [Output(SUBSCRIBE, OK, [])] == [Output(SUBSCRIBE, OK, [])];
    var t := LinkNext(l, Deliver).s;
    assert t.m.peers[1] == Told(SECOND, OK) && t.m.peers[0] == Told(FIRST, OK);
    assert t.m.peers == Two(Told(FIRST, OK), Told(SECOND, OK));
  }

  // ---------------------------------------------------------------
  // Fine runs: two responses to one command, and a rollback.

  function FineOpening(): seq<Step<nat>> {
    [World(Connect(0, 4)), World(Connect(1, 4)), World(Request(0, Sub(FIRST))), Take, Send]
  }

  lemma FineAsks() returns (s: Sys<nat>)
    ensures FineReachedBy(s, 1, FineOpening()[..3]) && WellFormed(s.m)
    ensures s.m == At(1, [0, 1], Two(Quiet(), Quiet()), [Ask(0, FIRST)], NO_PARAMS, NO_PARAMS) && s.seqNo == 0
  {
    hide FineReachedBy, WellFormed, Do, Possible, FilterToVector;
    var run := FineOpening();
    s := Init(1);
    Start(1);
    StartReached<nat>(1);
    var none: seq<Step<nat>> := [];
    Connects(s, 1, 0, [], map[]);
    Extend(s, 1, none, run[0]);
    s := Do(s, run[0]);
    assert none + [run[0]] == run[..1];
    Connects(s, 1, 1, [0], map[0 := Quiet()]);
    Extend(s, 1, run[..1], run[1]);
    s := Do(s, run[1]);
    assert run[..1] + [run[1]] == run[..2];
    Asks(s, 0, FIRST);
    Extend(s, 1, run[..2], run[2]);
    s := Do(s, run[2]);
    assert run[..2] + [run[2]] == run[..3];
  }

  function Hopeful(): Manager<nat> {
    At(1, [0, 1], Two(Asking(FIRST), Quiet()), [], FIRST, NO_PARAMS)
  }

  lemma FineTaken() returns (s: Sys<nat>)
    ensures FineReachedBy(s, 1, FineOpening()[..4]) && WellFormed(s.m)
    ensures s.m == Begun(Hopeful(), Ask(0, FIRST)) && s.seqNo == 0
    ensures s.job.client == Some(0) && s.job.accepted == 0 && !s.job.removed
  {
    hide FineReachedBy, WellFormed, Do, Possible, FilterToVector, Union;
    var run := FineOpening();
    s := FineAsks();
    SmallUnions();
    var m := At(1, [0, 1], Two(Quiet(), Quiet()), [], NO_PARAMS, NO_PARAMS);
    assert m.peers[0 := Asking(FIRST)] == Two(Asking(FIRST), Quiet());
    assert Pending(Two(Asking(FIRST), Quiet()), [0, 1]) == [FIRST, NO_PARAMS];
    assert s.m.queue == [Ask(0, FIRST)] + [];
    TakesSubscribe(s, m, 0, FIRST, FIRST, []);
    Extend(s, 1, run[..3], Take);
    s := Do(s, Take);
    assert run[..3] + [run[3]] == run[..4];
  }

  lemma FineSent() returns (s: Sys<nat>)
    ensures FineReachedBy(s, 1, FineOpening()) && WellFormed(s.m)
    ensures s.m == Waits(Hopeful(), Ask(0, FIRST), 0, 0)
    ensures s.job.client == Some(0) && s.job.accepted == 0 && !s.job.removed
  {
    hide FineReachedBy, WellFormed, Do, Possible, FilterToVector;
    var run := FineOpening();
    s := FineTaken();
    Sends(s, Hopeful(), Ask(0, FIRST));
    Extend(s, 1, run[..4], Send);
    s := Do(s, Send);
    assert run[..4] + [run[4]] == run;
  }

  /** The answer to client 0's SUBSCRIBE. */
  function Granted(seqNo: byte): Reply {
    Reply(SUBSCRIBE, seqNo, OK, [])
  }

  /** Client 0's command is in progress, with this many responses accepted. */
  ghost predicate InHand(s: Sys<nat>, xs: seq<Step<nat>>, accepted: nat) {
    && FineReachedBy(s, 1, xs) && s.m.running && Busy(s)
    && s.job.client == Some(0) && s.job.accepted == accepted
  }

  lemma Grants(s: Sys<nat>, xs: seq<Step<nat>>, n: nat, r: Reply) returns (t: Sys<nat>)
    requires InHand(s, xs, n) && r.typ > NOTIFICATION && Accepted(s, r)
    ensures InHand(t, xs + [Arrive(r)], n + 1)
    ensures t.m.loop == s.m.loop && t.m.clients == s.m.clients && t.m.current.result == ClientOk
    ensures t.m.current == s.m.current.(result := ClientOk) && t.seqNo == (r.seqNo + 1) % 256
  {
    hide FineReachedBy, WellFormed, Accepted, Receive;
    Extend(s, 1, xs, Arrive(r));
    t := Do(s, Arrive(r));
    ReceiveEffect(s, r);
    ReceiveRest(s, r);
  }

  lemma ReceiveRest(s: Sys<nat>, r: Reply)
    requires WellFormed(s.m) && Accepted(s, r)
    ensures var t := Receive(s, r);
            && t.job == s.job.(accepted := s.job.accepted + 1) && t.m.clients == s.m.clients
            && t.m.current == s.m.current.(result := ClientOk)
  {
    hide WellFormed;
  }

  lemma Removes(s: Sys<nat>, xs: seq<Step<nat>>, n: nat, c: nat) returns (t: Sys<nat>)
    requires InHand(s, xs, n) && s.m.loop.Waiting? && c in s.m.clients
    ensures InHand(t, xs + [World(ReadError(c))], n)
    ensures t.m.loop == s.m.loop && t.m.current.result == ClientDisconnect
  {
    hide FineReachedBy, FineInv, WellFormed, WorldStep, WorldEnabled;
    ReachedFine(s, 1, xs);
    AfterRemoval(s, c);
    Extend(s, 1, xs, World(ReadError(c)));
    t := Do(s, World(ReadError(c)));
  }

  lemma WakesAndClears(s: Sys<nat>, xs: seq<Step<nat>>, n: nat) returns (t: Sys<nat>)
    requires InHand(s, xs, n) && s.m.loop.Waiting? && s.m.current.result != ClientTimeout
    ensures FineReachedBy(t, 1, xs + [Wake, Clear]) && t.m.loop.Idle?
    ensures Answers(t) == n + if s.m.current.result == ClientOk then 0 else 1
  {
    hide FineReachedBy, FineInv, WellFormed, FinishCommand, Answers;
    ReachedFine(s, 1, xs);
    AfterWake(s);
    Extend(s, 1, xs, Wake);
    var u := WakeUp(s);
    assert Do(s, Wake) == u;
    Extend(u, 1, xs + [Wake], Clear);
    t := FinishCommand(u);
    assert xs + [Wake] + [Clear] == xs + [Wake, Clear];
    FinishIsIdle(u);
  }

  lemma FinishIsIdle(s: Sys<nat>)
    requires WellFormed(s.m) && s.m.loop.Finishing?
    ensures FinishCommand(s).m.loop.Idle?
  {
    hide WellFormed;
  }

  /** Client 0's SUBSCRIBE is accepted and client 1 is removed before the loop
      wakes: client 0 gets a timeout response after its answer. */
  lemma AnsweredTwice() returns (t: Sys<nat>)
    ensures FineReachedBy(t, 1, FineOpening() + [Arrive(Granted(0)), World(ReadError(1)), Wake, Clear])
    ensures t.m.loop.Idle? && Answers(t) == 2
  {
    hide FineReachedBy, WellFormed, Answers, FilterToVector;
    var xs := FineOpening();
    var s := FineSent();
    s := Grants(s, xs, 0, Granted(0));
    s := Removes(s, xs + [Arrive(Granted(0))], 1, 1);
    t := WakesAndClears(s, xs + [Arrive(Granted(0))] + [World(ReadError(1))], 1);
    assert xs + [Arrive(Granted(0))] + [World(ReadError(1))] + [Wake, Clear]
        == xs + [Arrive(Granted(0)), World(ReadError(1)), Wake, Clear];
  }

  /** A second answer comes before the loop wakes, and nobody is removed. */
  lemma DuplicateAnswers() returns (t: Sys<nat>)
    ensures FineReachedBy(t, 1, FineOpening() + [Arrive(Granted(0)), Arrive(Granted(0)), Wake, Clear])
    ensures t.m.loop.Idle? && Answers(t) == 2
  {
    hide FineReachedBy, WellFormed, Answers, FilterToVector;
    var xs := FineOpening();
    var s := FineSent();
    s := Grants(s, xs, 0, Granted(0));
    s := Grants(s, xs + [Arrive(Granted(0))], 1, Granted(0));
    t := WakesAndClears(s, xs + [Arrive(Granted(0))] + [Arrive(Granted(0))], 2);
    assert xs + [Arrive(Granted(0))] + [Arrive(Granted(0))] + [Wake, Clear]
        == xs + [Arrive(Granted(0)), Arrive(Granted(0)), Wake, Clear];
  }

  /** A response numbered 0 is accepted before client 0's SUBSCRIBE is sent, and the
      answer to it afterwards. */
  lemma AnsweredEarly() returns (t: Sys<nat>)
    ensures FineReachedBy(t, 1, FineOpening()[..4] + [Arrive(Granted(0)), Send, Arrive(Granted(1)), Wake, Clear])
    ensures t.m.loop.Idle? && Answers(t) == 2
  {
    hide FineReachedBy, WellFormed, Answers, FilterToVector;
    var xs := FineOpening()[..4];
    var s := FineTaken();
    s := Grants(s, xs, 0, Granted(0));
    Extend(s, 1, xs + [Arrive(Granted(0))], Send);
    s := Do(s, Send);
    s := Grants(s, xs + [Arrive(Granted(0))] + [Send], 1, Granted(1));
    t := WakesAndClears(s, xs + [Arrive(Granted(0))] + [Send] + [Arrive(Granted(1))], 2);
    assert xs + [Arrive(Granted(0))] + [Send] + [Arrive(Granted(1))] + [Wake, Clear]
        == xs + [Arrive(Granted(0)), Send, Arrive(Granted(1)), Wake, Clear];
  }

  /** Client 0's SUBSCRIBE is taken, sent once, and given up: a run in which
      everything is rolled back. */
  lemma RolledBack() returns (s: Sys<nat>, u: Sys<nat>)
    ensures FineReachedBy(s, 1, FineOpening()[..3]) && Possible(s, Take)
    ensures FineReachedBy(u, 1, FineOpening()[..3] + [Take] + [Send, Wake]) && NoTake<nat>([Send, Wake])
    ensures Possible(u, Clear) && SubscribeInProgress(u) && !u.job.removed && u.job.accepted == 0
    ensures u.m.loop.result != ClientOk
  {
    hide FineReachedBy, WellFormed, FilterToVector, WakeUp;
    s := FineAsks();
    u := FineSent();
    GivesUp(u, Hopeful(), Ask(0, FIRST), 0);
    Extend(u, 1, FineOpening(), Wake);
    assert FineOpening() + [Wake] == FineOpening()[..3] + [Take] + [Send, Wake];
    var v := Do(u, Wake);
    assert v == u.(m := Over(Hopeful(), Ask(0, FIRST), 0, ClientTimeout));
    u := v;
  }
}
