/** What the command loop sends and answers: how many copies of a command go to
    the link and that they are alike, and who is written what. */
module Retries {
  import opened Bytes
  import opened MuxMessage
  import opened Subscription
  import opened Manager
  import opened Runs
  import opened Filters
  import opened Responses
  import opened FineRuns

  /** Copies of one command among what was handed to the link. */
  function Copies<C>(sent: seq<Sent<C>>, serial: nat): nat {
    if |sent| == 0 then 0
    else Copies(sent[..|sent| - 1], serial) + (if sent[|sent| - 1].serial == serial then 1 else 0)
  }

  lemma CopiesAppend<C>(sent: seq<Sent<C>>, x: Sent<C>, serial: nat)
    ensures Copies(sent + [x], serial) == Copies(sent, serial) + (if x.serial == serial then 1 else 0)
  {
    assert (sent + [x])[..|sent|] == sent;
  }

  lemma {:induction false} NoCopiesYet<C>(sent: seq<Sent<C>>, serial: nat)
    requires forall x :: x in sent ==> x.serial < serial
    ensures Copies(sent, serial) == 0
  {
    if |sent| > 0 {
      assert sent[|sent| - 1] in sent;
      NoCopiesYet(sent[..|sent| - 1], serial);
    }
  }

  ghost predicate CopyOf<C>(x: Sent<C>, cmd: Command<C>) {
    x.client == cmd.client && x.typ == cmd.message.typ && x.data == cmd.message.data
  }

  /** No command is sent more often than the retries allow; the one in progress
      has been sent once for every attempt, each time alike, and one that is
      given up has used every retry. */
  ghost predicate CopiesInv<C>(s: Sys<C>) {
    && (forall x :: x in s.sent ==> x.serial <= s.serial)
    && (forall k: nat :: Copies(s.sent, k) <= s.m.retries)
    && (Busy(s) ==> forall x :: x in s.sent && x.serial == s.serial ==> CopyOf(x, s.m.loop.cmd))
    && match s.m.loop
       case Idle => true
       case Sending(_, i) => i < s.m.retries && Copies(s.sent, s.serial) == i
       case Waiting(_, i) => i < s.m.retries && Copies(s.sent, s.serial) == i + 1
       case Finishing(_, result) => result == ClientTimeout ==> Copies(s.sent, s.serial) == s.m.retries
  }

  lemma InitCopies<C>(retries: nat)
    ensures CopiesInv(Init<C>(retries))
  {
  }

  lemma TakeCopies<C>(s: Sys<C>)
    requires WellFormed(s.m) && CopiesInv(s) && Possible(s, Take)
    ensures CopiesInv(TakeCommand(s))
  {
    BeginFrame(s.m);
    BeginStarts(s.m);
    NoCopiesYet(s.sent, s.serial + 1);
    hide WellFormed, Begin, Copies, CopyOf;
  }

  lemma BeginStarts<C>(m: Manager<C>)
    requires WellFormed(m) && m.loop.Idle? && |m.queue| > 0
    ensures Begin(m).loop.Sending? ==> m.retries > 0
    ensures Begin(m).loop.Finishing? ==> m.retries == 0 && Begin(m).loop.result == ClientTimeout
  {
    hide NoDuplicates, Union, VectorToFilter, FilterToVector;
    assert m.queue[0] in m.queue;
  }

  lemma SendCopies<C>(s: Sys<C>)
    requires CopiesInv(s) && s.m.loop.Sending?
    ensures CopiesInv(Transmit(s))
  {
    hide Copies;
    var t := Transmit(s);
    forall k: nat
      ensures Copies(t.sent, k) == Copies(s.sent, k) + (if k == t.serial then 1 else 0)
    {
      CopiesAppend(s.sent, t.sent[|s.sent|], k);
    }
  }

  /** The other steps send nothing. */
  lemma SameCopies<C>(s: Sys<C>, t: Sys<C>)
    requires CopiesInv(s) && t.sent == s.sent && t.serial == s.serial && t.m.retries == s.m.retries
    requires t.m.loop.Idle? || t.m.loop == s.m.loop || (s.m.loop.Waiting? && t.m.loop == WakeUp(s).m.loop)
    ensures CopiesInv(t)
  {
    hide Copies;
  }

  lemma DoCopies<C>(s: Sys<C>, x: Step<C>)
    requires WellFormed(s.m) && CopiesInv(s) && Possible(s, x)
    ensures CopiesInv(Do(s, x)) && Do(s, x).m.retries == s.m.retries
  {
    match x {
      case Take => TakeCopies(s); BeginFrame(s.m);
      case Send => SendCopies(s);
      case World(w) =>
        if w.ReadError? {
          RemoveEffect(s.m, w.client);
        }
      case _ =>
    }
    hide WellFormed, CopiesInv, RemoveClient, Covered, Notified, Without, Union, FilterToVector, Begin, TimedOut;
    if !x.Take? && !x.Send? {
      SameCopies(s, Do(s, x));
    }
  }

  lemma {:induction false} CopiesRun<C>(s: Sys<C>, xs: seq<Step<C>>)
    requires FineInv(s) && CopiesInv(s) && CanDo(s, xs)
    ensures CopiesInv(DoAll(s, xs)) && DoAll(s, xs).m.retries == s.m.retries
    decreases |xs|
  {
    FineForm(s);
    hide FineInv, Do, Possible, WellFormed, CopiesInv;
    if |xs| > 0 {
      DoFine(s, xs[0]);
      DoCopies(s, xs[0]);
      CopiesRun(Do(s, xs[0]), xs[1..]);
    }
  }

  /** Over every run no command is sent more often than the retries allow, and the
      copies of the command in progress are alike. A command that is given up
      without having been cut short by a removal has used every retry. */
  lemma RetriesExact<C>(s: Sys<C>, retries: nat, xs: seq<Step<C>>)
    requires FineReachedBy(s, retries, xs)
    ensures forall k: nat :: Copies(s.sent, k) <= retries
    ensures Busy(s) ==> forall x :: x in s.sent && x.serial == s.serial ==> CopyOf(x, s.m.loop.cmd)
    ensures s.m.loop.Finishing? && s.m.loop.result == ClientTimeout ==> Copies(s.sent, s.serial) == retries
  {
    InitCopies<C>(retries);
    CopiesRun(Init<C>(retries), xs);
  }

  // ---------------------------------------------------------------
  // Who is written what.

  /** What a step owes a client. A command that is not for the link, being of a type
      up to 20 or longer than 128 bytes, is answered when it is taken: of type 2
      with the version payload, which begins with the client's protocol version,
      and of any other type with code 1 and nothing more. A command that is
      cleared without an OK result is answered with code 5. A response that bears
      the type and the number of the command in progress is passed on as it
      came. */
  ghost function Owed<C>(s: Sys<C>, x: Step<C>, d: C): seq<Output>
    requires Possible(s, x) && d in s.m.peers
  {
    match x
    case Take =>
      var q := s.m.queue[0];
      if q.client == Some(d) && d in s.m.clients && (q.message.typ <= 20 || |q.message.data| > 128)
      then [if q.message.typ == 2 then Output(2, 0, [s.m.peers[d].version, 1, 1, 2, 0, 17])
            else Output(q.message.typ, 1, [])]
      else []
    case Clear =>
      var cmd := s.m.loop.cmd;
      if cmd.client == Some(d) && s.m.loop.result != ClientOk then [Output(cmd.message.typ, 5, [])] else []
    case Arrive(r) =>
      if Busy(s) && s.m.loop.cmd.client == Some(d)
         && r.typ == s.m.loop.cmd.message.typ && r.seqNo == s.m.current.seqNo
      then [Output(r.typ, r.code, r.payload)]
      else []
    case _ => []
  }

  /** In every state and for every step but a notification, each client is written
      what it is owed and nothing else. */
  lemma ResponsesRouted<C>(s: Sys<C>, retries: nat, xs: seq<Step<C>>, x: Step<C>, d: C)
    requires FineReachedBy(s, retries, xs) && Possible(s, x) && d in s.m.peers
    requires x.World? ==> !x.world.Notification?
    ensures WellFormed(s.m)
    ensures var t := Do(s, x);
            d in t.m.peers && t.m.peers[d].written == s.m.peers[d].written + Owed(s, x, d)
  {
    ReachedFine(s, retries, xs);
    hide FineReachedBy, FineInv, WellFormed, Do, Owed, Possible;
    StepRouted(s, x, d);
  }

  lemma StepRouted<C>(s: Sys<C>, x: Step<C>, d: C)
    requires WellFormed(s.m) && Possible(s, x) && d in s.m.peers
    requires x.World? ==> !x.world.Notification?
    ensures d in Do(s, x).m.peers && Do(s, x).m.peers[d].written == s.m.peers[d].written + Owed(s, x, d)
  {
    hide WellFormed, TakeCommand, FinishCommand, Receive, WorldStep;
    match x
    case Take => hide Owed, Do; TakeRouted(s, d);
    case Clear => hide Owed, Do; ClearRouted(s, d);
    case Arrive(r) => hide Owed, Do; ArriveRouted(s, r, d);
    case World(w) => WorldRouted(s, w, d);
    case _ =>
  }

  lemma TakeRouted<C>(s: Sys<C>, d: C)
    requires WellFormed(s.m) && Possible(s, Take) && d in s.m.peers
    ensures d in Do(s, Take).m.peers && Do(s, Take).m.peers[d].written == s.m.peers[d].written + Owed(s, Take, d)
  {
    hide NoDuplicates, Union, VectorToFilter, FilterToVector, Pending;
    assert s.m.queue[0] in s.m.queue;
  }

  lemma ClearRouted<C>(s: Sys<C>, d: C)
    requires WellFormed(s.m) && Possible(s, Clear) && d in s.m.peers
    ensures d in Do(s, Clear).m.peers && Do(s, Clear).m.peers[d].written == s.m.peers[d].written + Owed(s, Clear, d)
  {
    hide NoDuplicates;
  }

  lemma ArriveRouted<C>(s: Sys<C>, r: Reply, d: C)
    requires WellFormed(s.m) && Possible(s, Arrive(r)) && d in s.m.peers
    ensures var t := Do(s, Arrive(r));
            d in t.m.peers && t.m.peers[d].written == s.m.peers[d].written + Owed(s, Arrive(r), d)
  {
    hide NoDuplicates;
  }

  lemma WorldRouted<C>(s: Sys<C>, w: World<C>, d: C)
    requires WellFormed(s.m) && Possible(s, World(w)) && d in s.m.peers && !w.Notification?
    ensures d in Do(s, World(w)).m.peers && Do(s, World(w)).m.peers[d].written == s.m.peers[d].written
  {
    if w.ReadError? {
      RemoveEffect(s.m, w.client);
    }
    hide WellFormed, RemoveClient, Covered, Without, Union, FilterToVector;
  }

  /** Nobody is told OK of a command other than type 2 but by an accepted response
      with code 0 to that command. */
  lemma OkIsAnswered<C>(s: Sys<C>, retries: nat, xs: seq<Step<C>>, x: Step<C>, d: C, o: Output)
    requires FineReachedBy(s, retries, xs) && Possible(s, x) && d in s.m.peers
    requires x.World? ==> !x.world.Notification?
    ensures WellFormed(s.m) && d in Do(s, x).m.peers
    ensures Do(s, x).m.peers[d].written == s.m.peers[d].written + [o] && o.prefix == 0 && o.typ != 2 ==>
              && x.Arrive? && Accepted(s, x.reply) && s.m.current.client == Some(d)
              && o == Output(x.reply.typ, 0, x.reply.payload)
  {
    hide WellFormed, Do, FineReachedBy, Owed, Accepted, Possible;
    ResponsesRouted(s, retries, xs, x, d);
    if Do(s, x).m.peers[d].written == s.m.peers[d].written + [o] && o.prefix == 0 && o.typ != 2 {
      SameTail(s.m.peers[d].written, Owed(s, x, d), o);
      OwedOk(s, x, d, o);
    }
  }

  lemma SameTail(w: seq<Output>, owed: seq<Output>, o: Output)
    requires w + owed == w + [o]
    ensures owed == [o]
  {
    assert (w + owed)[|w|..] == owed && (w + [o])[|w|..] == [o];
  }

  lemma OwedOk<C>(s: Sys<C>, x: Step<C>, d: C, o: Output)
    requires WellFormed(s.m) && Possible(s, x) && d in s.m.peers && Owed(s, x, d) == [o]
    requires o.prefix == 0 && o.typ != 2
    ensures x.Arrive? && Accepted(s, x.reply) && s.m.current.client == Some(d)
    ensures o == Output(x.reply.typ, 0, x.reply.payload)
  {
    BusySame(s);
    assert Owed(s, x, d)[0] == o;
    hide WellFormed, Possible;
  }

  lemma BusySame<C>(s: Sys<C>)
    requires WellFormed(s.m)
    ensures Busy(s) ==> s.m.current.client == s.m.loop.cmd.client && s.m.current.message == s.m.loop.cmd.message
  {
  }

  /** A command goes to the link exactly if its type is above 20 and it has at most
      128 bytes, and its client, if it has one, is connected. */
  lemma ForwardedIff<C>(s: Sys<C>, retries: nat, xs: seq<Step<C>>)
    requires FineReachedBy(s, retries, xs) && Possible(s, Take)
    ensures WellFormed(s.m)
    ensures var q := s.m.queue[0];
            Busy(Do(s, Take)) <==>
              && q.message.typ > 20 && |q.message.data| <= 128
              && (q.client.Some? ==> q.client.value in s.m.clients)
  {
    FineForm(s);
    hide FineInv, NoDuplicates, Union, VectorToFilter, FilterToVector, Pending, LocalReply;
    assert s.m.queue[0] in s.m.queue;
  }

  // ---------------------------------------------------------------
  // Commands that are not about filters.

  /** The type of the command a step is about is not SUBSCRIBE. */
  ghost predicate NotSubscribe<C>(s: Sys<C>, x: Step<C>)
    requires Possible(s, x)
  {
    match x
    case Take => s.m.queue[0].message.typ != 22
    case Arrive(r) => r.typ != 22
    case World(_) => false
    case _ => s.m.loop.cmd.message.typ != 22
  }

  /** Such a step changes neither the union, saved or not, nor anyone's filters:
      not when it succeeds, not when it is refused, and not when it times out. */
  lemma OthersKeepFilters<C>(s: Sys<C>, x: Step<C>)
    requires FineInv(s) && WellFormed(s.m) && Possible(s, x) && NotSubscribe(s, x)
    ensures var t := Do(s, x);
            && t.m.filterUnion == s.m.filterUnion && t.m.prevFilter == s.m.prevFilter
            && t.m.peers.Keys == s.m.peers.Keys
            && forall d :: d in s.m.peers ==>
                 t.m.peers[d].params == s.m.peers[d].params && t.m.peers[d].newParams == s.m.peers[d].newParams
  {
    hide FineInv, NoDuplicates, Union, VectorToFilter, FilterToVector, Pending, LocalReply;
    if x.Take? {
      assert s.m.queue[0] in s.m.queue;
    }
  }
}
