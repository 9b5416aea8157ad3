/** The serial link under the command loop: requests and responses on FIFO wires
    that may lose anything, and a manager at the far end that answers every
    copy of a request it sees with the copy's own type and number. Two pairs of
    fine steps are taken together: a timeout with the resend it causes, and an
    accepted response with the loop's waking. */
module Link {
  import opened Bytes
  import opened MuxMessage
  import opened Subscription
  import opened Manager
  import opened Runs
  import opened Filters
  import opened Responses
  import opened Unions
  import opened FineRuns
  import opened Retries

  /** A request or response in flight. `serial` says which command it belongs
      to; neither end can see it. */
  datatype Packet = Packet(serial: nat, typ: byte, seqNo: byte, code: byte, payload: ByteVector)

  datatype Link<C> = Link(s: Sys<C>, up: seq<Packet>, down: seq<Packet>)

  datatype LinkEvent<C> =
    | Local(step: Step<C>)
    | Timeout
    | Answer(code: byte, payload: ByteVector)
    | LoseRequest(i: nat)
    | LoseResponse(i: nat)
    | Deliver

  /** Responses come over the wire only, waits end as `Timeout` or `Deliver`, and no
      further hello is exchanged. */
  ghost predicate IsLocal<C>(x: Step<C>) {
    x.Take? || x.Send? || x.Clear? || (x.World? && !x.world.HelloResponse? && !x.world.ManagerHello?)
  }

  ghost predicate LinkEnabled<C>(l: Link<C>, e: LinkEvent<C>) {
    match e
    case Local(x) => IsLocal(x) && Possible(l.s, x)
    case Timeout => Possible(l.s, Wake)
    case Answer(_, _) => |l.up| > 0
    case LoseRequest(i) => i < |l.up|
    case LoseResponse(i) => i < |l.down|
    case Deliver => |l.down| > 0 && Possible(l.s, Arrive(ReplyOf(l.down[0])))
  }

  function ToPacket<C>(x: Sent<C>): Packet {
    Packet(x.serial, x.typ, x.seqNo, 0, x.data)
  }

  function ReplyOf(p: Packet): Reply {
    Reply(p.typ, p.seqNo, p.code, p.payload)
  }

  /** A wait that ends, with the resend that follows. */
  ghost function WakeAndResend<C>(s: Sys<C>): Sys<C>
    requires s.m.loop.Waiting?
  {
    var t := WakeUp(s);
    if t.m.loop.Sending? then Transmit(t) else t
  }

  /** A response, with the loop's waking if it was waiting for it. */
  ghost function ReceiveAndWake<C>(s: Sys<C>, r: Reply): Sys<C>
    requires WellFormed(s.m)
  {
    var t := Receive(s, r);
    if Accepted(s, r) && t.m.loop.Waiting? then WakeUp(t) else t
  }

  /** The wire after the loop's step: with a new copy if it handed one over. */
  function Uplink<C>(s: Sys<C>, t: Sys<C>, up: seq<Packet>): seq<Packet> {
    if |t.sent| > |s.sent| then up + [ToPacket(t.sent[|t.sent| - 1])] else up
  }

  ghost function LinkNext<C>(l: Link<C>, e: LinkEvent<C>): Link<C>
    requires WellFormed(l.s.m) && LinkEnabled(l, e)
  {
    match e
    case Local(x) => Link(Do(l.s, x), Uplink(l.s, Do(l.s, x), l.up), l.down)
    case Timeout => Link(WakeAndResend(l.s), Uplink(l.s, WakeAndResend(l.s), l.up), l.down)
    case Answer(code, payload) =>
      l.(up := l.up[1..], down := l.down + [l.up[0].(code := code, payload := payload)])
    case LoseRequest(i) => l.(up := l.up[..i] + l.up[i + 1..])
    case LoseResponse(i) => l.(down := l.down[..i] + l.down[i + 1..])
    case Deliver => l.(s := ReceiveAndWake(l.s, ReplyOf(l.down[0])), down := l.down[1..])
  }

  // ---------------------------------------------------------------
  // What is in flight, oldest first.

  function InFlight<C>(l: Link<C>): seq<Packet> {
    l.down + l.up
  }

  function Previous(seqNo: byte): byte {
    (seqNo + 255) % 256
  }

  /** Where the loop stands with the current command: there is none, no copy of it
      has been sent, it is unanswered, or it has been answered. */
  datatype Phase = Free | NotSent | Open | Answered

  /** The loop as the wires see it. */
  datatype Side = Side(seqNo: byte, serial: nat, phase: Phase, typ: byte)

  ghost function SideOf<C>(s: Sys<C>): Side {
    Side(s.seqNo,
         s.serial,
         if !Busy(s) then Free
         else if s.job.accepted > 0 then Answered
         else if Unsent(s.m) then NotSent
         else Open,
         if Busy(s) then s.m.loop.cmd.message.typ else 0)
  }

  /** A copy that bears the previous number: left over from an earlier command, or,
      once the current one has been answered, one of its own. */
  ghost predicate OldCopy(d: Side, p: Packet) {
    && p.seqNo == Previous(d.seqNo) && p.typ > NOTIFICATION && p.serial <= d.serial
    && (d.phase == NotSent || d.phase == Open ==> p.serial < d.serial)
    && (d.phase == Answered ==> p.serial == d.serial && p.typ == d.typ)
  }

  /** A copy of the unanswered command in progress. */
  ghost predicate NewCopy(d: Side, p: Packet) {
    d.phase == Open && p.serial == d.serial && p.seqNo == d.seqNo && p.typ == d.typ && p.typ > NOTIFICATION
  }

  /** `k` old copies, then copies of the command in progress. */
  ghost predicate OldThenNew(d: Side, pipe: seq<Packet>, k: nat) {
    && k <= |pipe|
    && (forall i :: 0 <= i < k ==> OldCopy(d, pipe[i]))
    && (forall i :: k <= i < |pipe| ==> NewCopy(d, pipe[i]))
  }

  ghost predicate Ordered(d: Side, pipe: seq<Packet>) {
    exists k: nat :: OldThenNew(d, pipe, k)
  }

  /** Nothing is accepted before a copy is sent or while the loop waits, and the
      number a response is compared with is the one the copies bear. */
  ghost predicate LoopFits<C>(s: Sys<C>) {
    && (s.m.loop.Sending? ==> s.m.loop.attempt == 0)
    && (s.m.loop.Waiting? || (Busy(s) && Unsent(s.m)) ==> s.job.accepted == 0)
    && (SideOf(s).phase == Open ==> s.m.current.seqNo == s.seqNo)
    && (SideOf(s).phase == Answered ==> s.m.current.seqNo == Previous(s.seqNo))
  }

  ghost predicate LinkInv<C>(l: Link<C>) {
    && FineInv(l.s)
    && (l.s.m.running ==> LoopFits(l.s) && Ordered(SideOf(l.s), InFlight(l)))
  }

  /** The two ways to lose the order: a response is accepted before the command in
      progress has been sent at all, or a command without a client is given up
      and cleared, which does not reset the connection, while a packet with its
      number is in flight. */
  ghost predicate Unsafe<C>(l: Link<C>, e: LinkEvent<C>) {
    match e
    case Deliver =>
      Busy(l.s) && Unsent(l.s.m) && |l.down| > 0 && l.down[0].seqNo == 0 && l.down[0].typ == l.s.m.loop.cmd.message.typ
    case Local(x) =>
      x.Clear? && Busy(l.s) && l.s.m.loop.cmd.client.None? && exists p :: p in InFlight(l) && p.seqNo == l.s.seqNo
    case _ => false
  }

  // ---------------------------------------------------------------
  // The wires, as the loop's side changes.

  lemma TakePipe(d: Side, pipe: seq<Packet>, after: Side)
    requires Ordered(d, pipe) && d.phase == Free
    requires after.seqNo == d.seqNo && after.serial == d.serial + 1 && (after.phase == Free || after.phase == NotSent)
    ensures Ordered(after, pipe)
  {
    var k: nat :| OldThenNew(d, pipe, k);
    assert OldThenNew(after, pipe, k);
  }

  lemma SendPipe(d: Side, pipe: seq<Packet>, after: Side, p: Packet)
    requires Ordered(d, pipe) && (d.phase == NotSent || d.phase == Open)
    requires after == d.(phase := Open) && NewCopy(after, p)
    ensures Ordered(after, pipe + [p])
  {
    var k: nat :| OldThenNew(d, pipe, k);
    assert OldThenNew(after, pipe + [p], k);
  }

  lemma ClearPipe(d: Side, pipe: seq<Packet>, after: Side)
    requires Ordered(d, pipe)
    requires after.seqNo == d.seqNo && after.serial == d.serial && after.phase == Free
    ensures Ordered(after, pipe) <==> forall p :: p in pipe ==> p.seqNo != d.seqNo
  {
    var k: nat :| OldThenNew(d, pipe, k);
    assert k < |pipe| ==> NewCopy(d, pipe[k]) && pipe[k] in pipe;
    if forall p :: p in pipe ==> p.seqNo != d.seqNo {
      assert OldThenNew(after, pipe, |pipe|);
    }
    if Ordered(after, pipe) {
      var j: nat :| OldThenNew(after, pipe, j);
      assert j < |pipe| ==> NewCopy(after, pipe[j]);
      assert forall i :: 0 <= i < |pipe| ==> OldCopy(after, pipe[i]);
    }
  }

  lemma LosePipe(d: Side, pipe: seq<Packet>, i: nat)
    requires Ordered(d, pipe) && i < |pipe|
    ensures Ordered(d, pipe[..i] + pipe[i + 1..])
  {
    hide OldCopy, NewCopy;
    var k: nat :| OldThenNew(d, pipe, k);
    assert OldThenNew(d, pipe[..i] + pipe[i + 1..], if i < k then k - 1 else k);
  }

  lemma AnswerPipe(d: Side, pipe: seq<Packet>, i: nat, code: byte, payload: ByteVector)
    requires Ordered(d, pipe) && i < |pipe|
    ensures Ordered(d, pipe[i := pipe[i].(code := code, payload := payload)])
  {
    var k: nat :| OldThenNew(d, pipe, k);
    assert OldThenNew(d, pipe[i := pipe[i].(code := code, payload := payload)], k);
  }

  /** The oldest packet, and what is behind it. */
  lemma HeadOf(d: Side, pipe: seq<Packet>)
    requires Ordered(d, pipe) && |pipe| > 0
    ensures pipe[0].typ > NOTIFICATION
    ensures if d.phase == Open && pipe[0].serial == d.serial
            then NewCopy(d, pipe[0]) && forall p :: p in pipe ==> NewCopy(d, p)
            else OldCopy(d, pipe[0]) && Ordered(d, pipe[1..])
  {
    var k: nat :| OldThenNew(d, pipe, k);
    if k > 0 {
      assert OldCopy(d, pipe[0]);
      assert OldThenNew(d, pipe[1..], k - 1);
    } else {
      assert NewCopy(d, pipe[0]);
    }
  }

  /** Once the current command is answered, every other copy of it is old. */
  lemma AnsweredPipe(d: Side, pipe: seq<Packet>, after: Side)
    requires d.phase == Open && forall p :: p in pipe ==> NewCopy(d, p)
    requires after == d.(phase := Answered, seqNo := (d.seqNo + 1) % 256)
    ensures Ordered(after, pipe)
  {
    PreviousUndone(d.seqNo);
    assert forall i :: 0 <= i < |pipe| ==> pipe[i] in pipe;
    assert OldThenNew(after, pipe, |pipe|);
  }

  lemma PreviousUndone(n: byte)
    ensures Previous((n + 1) % 256) == n && (Previous(n) + 1) % 256 == n && Previous(n) != n
  {
  }

  // ---------------------------------------------------------------
  // The loop's side of each step.

  lemma TakeSide<C>(s: Sys<C>)
    requires WellFormed(s.m) && Possible(s, Take)
    ensures var t := Do(s, Take);
            && LoopFits(t) && t.sent == s.sent && SideOf(s).phase == Free
            && SideOf(t).seqNo == SideOf(s).seqNo && SideOf(t).serial == SideOf(s).serial + 1
            && (SideOf(t).phase == Free || SideOf(t).phase == NotSent)
  {
    BeginFrame(s.m);
    BeginStarts(s.m);
    hide WellFormed, Begin;
  }

  lemma SendSide<C>(s: Sys<C>)
    requires FineInv(s) && WellFormed(s.m) && Possible(s, Send) && LoopFits(s)
    ensures var t := Do(s, Send);
            && LoopFits(t) && t.sent[..|s.sent|] == s.sent && |t.sent| == |s.sent| + 1
            && SideOf(s).phase == NotSent && SideOf(t) == SideOf(s).(phase := Open)
            && NewCopy(SideOf(t), ToPacket(t.sent[|s.sent|]))
  {
    hide TransactionInv, AnsweredInv, UnionsInv, Answers, WellFormed;
  }

  lemma TimeoutSide<C>(s: Sys<C>)
    requires FineInv(s) && WellFormed(s.m) && Possible(s, Wake) && LoopFits(s)
    ensures var t := WakeAndResend(s);
            && FineInv(t) && t.m.running && LoopFits(t) && SideOf(s).phase == Open && SideOf(t) == SideOf(s)
            && (t.sent == s.sent
                || (t.sent[..|s.sent|] == s.sent && |t.sent| == |s.sent| + 1
                    && NewCopy(SideOf(t), ToPacket(t.sent[|s.sent|]))))
  {
    WakeFine(s);
    if WakeUp(s).m.loop.Sending? {
      SendFine(WakeUp(s));
    }
    WaitingFacts(s);
    hide FineInv, WellFormed;
  }

  lemma WaitingFacts<C>(s: Sys<C>)
    requires FineInv(s) && s.m.loop.Waiting?
    ensures s.m.loop.attempt < s.m.retries && s.m.loop.cmd.message.typ > NOTIFICATION
    ensures s.m.current.result == ClientOk ==> s.job.accepted > 0
  {
    hide TransactionInv, AnsweredInv, UnionsInv, Answers;
  }

  lemma ClearSide<C>(s: Sys<C>)
    requires FineInv(s) && WellFormed(s.m) && Possible(s, Clear) && LoopFits(s)
    ensures var t := Do(s, Clear);
            && LoopFits(t) && t.sent == s.sent
            && SideOf(t).seqNo == s.seqNo && SideOf(t).serial == s.serial && SideOf(t).phase == Free
            && (t.m.running && s.m.loop.cmd.client.Some? ==> SideOf(s).phase == Answered)
            && (s.m.loop.cmd.client.None? ==> t.m.running)
  {
    hide TransactionInv, AnsweredInv, UnionsInv, Answers, WellFormed;
  }

  lemma WorldSide<C>(s: Sys<C>, w: World<C>)
    requires WellFormed(s.m) && Possible(s, World(w)) && IsLocal(World(w)) && LoopFits(s)
    ensures var t := Do(s, World(w));
            t.m.running && LoopFits(t) && t.sent == s.sent && SideOf(t) == SideOf(s)
  {
    if w.ReadError? {
      RemoveEffect(s.m, w.client);
    }
    hide WellFormed, RemoveClient, Covered, Union, FilterToVector, Without;
  }

  /** A response that is not accepted and bears the previous number changes
      nothing; one that is accepted moves the number on. */
  lemma ReceiveSide<C>(s: Sys<C>, r: Reply)
    requires FineInv(s) && WellFormed(s.m) && Possible(s, Arrive(r)) && LoopFits(s)
    ensures var t := ReceiveAndWake(s, r);
            && FineInv(t) && t.m.running
            && (!Accepted(s, r) && r.seqNo == Previous(s.seqNo) ==> t == s)
            && (Accepted(s, r) ==>
                  && SideOf(t) == SideOf(s).(phase := Answered, seqNo := (r.seqNo + 1) % 256)
                  && (LoopFits(t) <==> SideOf(s).phase != NotSent))
  {
    hide FineInv, WellFormed, Receive, Unsent;
    ArriveFine(s, r);
    ReceiveEffect(s, r);
    PreviousUndone(s.seqNo);
    PreviousUndone(r.seqNo);
    if Accepted(s, r) {
      AcceptedSide(s, r);
    }
  }

  lemma AcceptedSide<C>(s: Sys<C>, r: Reply)
    requires FineInv(s) && WellFormed(s.m) && Possible(s, Arrive(r)) && LoopFits(s) && Accepted(s, r)
    ensures var t := ReceiveAndWake(s, r);
            && FineInv(t) && t.m.running
            && SideOf(t) == SideOf(s).(phase := Answered, seqNo := (r.seqNo + 1) % 256)
            && (LoopFits(t) <==> SideOf(s).phase != NotSent)
  {
    hide FineInv, WellFormed, Receive, Accepted;
    ArriveFine(s, r);
    ReceiveEffect(s, r);
    PreviousUndone(r.seqNo);
    var t := Receive(s, r);
    if t.m.loop.Waiting? {
      WaitingFacts(s);
      WakeFine(t);
    }
  }

  lemma ReceiveEffect<C>(s: Sys<C>, r: Reply)
    requires WellFormed(s.m) && r.typ > NOTIFICATION
    ensures var t := Receive(s, r);
            && t.m.running == s.m.running && t.m.loop == s.m.loop && t.m.retries == s.m.retries
            && t.serial == s.serial && t.seqNo == (r.seqNo + 1) % 256
            && (Accepted(s, r) ==> Busy(s) && t.m.current.result == ClientOk && t.m.current.seqNo == s.m.current.seqNo
                                   && s.m.current.seqNo == r.seqNo && t.job.accepted == s.job.accepted + 1)
            && (!Accepted(s, r) ==> t == s.(seqNo := t.seqNo))
  {
  }

  /** When a response is accepted. */
  lemma AcceptedWhen<C>(s: Sys<C>, p: Packet)
    requires FineInv(s) && LoopFits(s) && p.typ > NOTIFICATION
    ensures var d := SideOf(s);
            && (d.phase == Free ==> !Accepted(s, ReplyOf(p)))
            && (d.phase == NotSent ==>
                  (Accepted(s, ReplyOf(p)) <==> p.seqNo == 0 && p.typ == s.m.loop.cmd.message.typ))
            && (d.phase == Open ==> (Accepted(s, ReplyOf(p)) <==> p.seqNo == s.seqNo && p.typ == d.typ))
            && (d.phase == Answered ==>
                  (Accepted(s, ReplyOf(p)) <==> p.seqNo == Previous(s.seqNo) && p.typ == d.typ))
  {
    hide AnsweredInv, UnionsInv, Answers;
  }

  // ---------------------------------------------------------------
  // The invariant is kept exactly by the safe events.

  lemma LinkForm<C>(l: Link<C>)
    requires LinkInv(l)
    ensures WellFormed(l.s.m)
  {
    FineForm(l.s);
  }

  lemma TakeInv<C>(l: Link<C>)
    requires LinkInv(l) && WellFormed(l.s.m) && LinkEnabled(l, Local(Take))
    ensures LinkInv(LinkNext(l, Local(Take)))
  {
    hide FineInv, WellFormed, SideOf, LoopFits, Ordered, Do;
    DoFine(l.s, Take);
    TakeSide(l.s);
    TakePipe(SideOf(l.s), InFlight(l), SideOf(Do(l.s, Take)));
  }

  lemma SendInv<C>(l: Link<C>)
    requires LinkInv(l) && WellFormed(l.s.m) && LinkEnabled(l, Local(Send))
    ensures LinkInv(LinkNext(l, Local(Send)))
  {
    hide FineInv, WellFormed, SideOf, LoopFits, Ordered, Do, NewCopy;
    var t := Do(l.s, Send);
    DoFine(l.s, Send);
    SendSide(l.s);
    SendPipe(SideOf(l.s), InFlight(l), SideOf(t), ToPacket(t.sent[|l.s.sent|]));
    assert InFlight(LinkNext(l, Local(Send))) == InFlight(l) + [ToPacket(t.sent[|l.s.sent|])];
  }

  lemma TimeoutInv<C>(l: Link<C>)
    requires LinkInv(l) && WellFormed(l.s.m) && LinkEnabled(l, Timeout)
    ensures LinkInv(LinkNext(l, Timeout))
  {
    hide FineInv, WellFormed, SideOf, LoopFits, Ordered, WakeAndResend, NewCopy;
    var t := WakeAndResend(l.s);
    TimeoutSide(l.s);
    if t.sent != l.s.sent {
      SendPipe(SideOf(l.s), InFlight(l), SideOf(t), ToPacket(t.sent[|l.s.sent|]));
      assert InFlight(LinkNext(l, Timeout)) == InFlight(l) + [ToPacket(t.sent[|l.s.sent|])];
    }
  }

  lemma ExhaustionSafeIff<C>(l: Link<C>)
    requires LinkInv(l) && WellFormed(l.s.m) && LinkEnabled(l, Local(Clear))
    ensures LinkInv(LinkNext(l, Local(Clear))) <==> !Unsafe(l, Local(Clear))
  {
    var s := l.s;
    DoFine(s, Clear);
    ClearSide(s);
    ClearPipe(SideOf(s), InFlight(l), SideOf(Do(s, Clear)));
    if SideOf(s).phase == Answered {
      AnsweredIsOld(SideOf(s), InFlight(l));
    }
    assert InFlight(LinkNext(l, Local(Clear))) == InFlight(l);
    assert Busy(s) && SideOf(s).seqNo == s.seqNo;
    hide FineInv, WellFormed, SideOf, LoopFits, Ordered, Do;
  }

  lemma AnsweredIsOld(d: Side, pipe: seq<Packet>)
    requires Ordered(d, pipe) && d.phase == Answered
    ensures forall p :: p in pipe ==> p.seqNo != d.seqNo
  {
    var k: nat :| OldThenNew(d, pipe, k);
    PreviousUndone(d.seqNo);
    assert k < |pipe| ==> NewCopy(d, pipe[k]);
  }

  lemma WorldInv<C>(l: Link<C>, w: World<C>)
    requires LinkInv(l) && WellFormed(l.s.m) && LinkEnabled(l, Local(World(w)))
    ensures LinkInv(LinkNext(l, Local(World(w))))
  {
    hide FineInv, WellFormed, SideOf, LoopFits, Ordered, Do;
    DoFine(l.s, World(w));
    WorldSide(l.s, w);
    assert InFlight(LinkNext(l, Local(World(w)))) == InFlight(l);
  }

  lemma WireInv<C>(l: Link<C>, e: LinkEvent<C>)
    requires LinkInv(l) && WellFormed(l.s.m) && LinkEnabled(l, e)
    requires e.Answer? || e.LoseRequest? || e.LoseResponse?
    ensures LinkInv(LinkNext(l, e))
  {
    hide FineInv, WellFormed, SideOf, LoopFits, Ordered, Do;
    var d, pipe, flow := SideOf(l.s), InFlight(l), InFlight(LinkNext(l, e));
    if l.s.m.running {
      match e
      case Answer(code, payload) =>
        AnswerPipe(d, pipe, |l.down|, code, payload);
        assert flow == pipe[|l.down| := pipe[|l.down|].(code := code, payload := payload)];
      case LoseRequest(i) =>
        LosePipe(d, pipe, |l.down| + i);
        assert flow == pipe[..|l.down| + i] + pipe[|l.down| + i + 1..];
      case LoseResponse(i) =>
        LosePipe(d, pipe, i);
        assert flow == pipe[..i] + pipe[i + 1..];
    }
  }

  /** A response in flight for the command in progress is accepted. One for an
      earlier command is accepted exactly if the command in progress has not
      been sent and the response has its type and the number 0; if it is not
      accepted it changes nothing. */
  lemma DeliverInv<C>(l: Link<C>)
    requires LinkInv(l) && WellFormed(l.s.m) && LinkEnabled(l, Deliver)
    ensures LinkInv(LinkNext(l, Deliver)) <==> !Unsafe(l, Deliver)
    ensures var p := l.down[0];
            && p.serial <= l.s.serial
            && (Busy(l.s) && p.serial == l.s.serial ==> Accepted(l.s, ReplyOf(p)))
            && (Accepted(l.s, ReplyOf(p)) && !(Busy(l.s) && p.serial == l.s.serial) <==> Unsafe(l, Deliver))
            && (!Accepted(l.s, ReplyOf(p)) ==> LinkNext(l, Deliver).s == l.s)
  {
    hide FineInv, WellFormed, SideOf, LoopFits, Ordered, ReceiveAndWake, Unsent, Accepted, OldThenNew;
    var s, p, pipe := l.s, l.down[0], InFlight(l);
    var d, after := SideOf(s), SideOf(LinkNext(l, Deliver).s);
    assert pipe[0] == p && InFlight(LinkNext(l, Deliver)) == pipe[1..];
    HeadOf(d, pipe);
    ReceiveSide(s, ReplyOf(p));
    AcceptedWhen(s, p);
    Phases(s);
    PreviousUndone(s.seqNo);
    if Accepted(s, ReplyOf(p)) && d.phase == Open {
      AnsweredPipe(d, pipe[1..], after);
    }
  }

  lemma Phases<C>(s: Sys<C>)
    requires LoopFits(s)
    ensures var d := SideOf(s);
            && d.seqNo == s.seqNo && d.serial == s.serial
            && (d.phase == Free <==> !Busy(s))
            && (d.phase == NotSent <==> Busy(s) && Unsent(s.m))
            && (Busy(s) ==> d.typ == s.m.loop.cmd.message.typ)
  {
  }

  /** An event keeps the invariant if and only if it is not one of the two unsafe
      ones. */
  lemma LinkNextInv<C>(l: Link<C>, e: LinkEvent<C>)
    requires LinkInv(l) && LinkEnabled(l, e)
    ensures WellFormed(l.s.m)
    ensures LinkInv(LinkNext(l, e)) <==> !Unsafe(l, e)
  {
    LinkForm(l);
    hide LinkInv, LinkNext, WellFormed;
    match e
    case Local(x) =>
      match x {
        case Take => TakeInv(l);
        case Send => SendInv(l);
        case Clear => ExhaustionSafeIff(l);
        case World(w) => WorldInv(l, w);
        case _ =>
      }
    case Timeout => TimeoutInv(l);
    case Deliver => DeliverInv(l);
    case _ => WireInv(l, e);
  }

  // ---------------------------------------------------------------
  // Whole runs.

  /** A link whose hello has just been accepted, before any command. */
  function LinkStart<C>(retries: nat, cliSeqNo: byte): Link<C> {
    Link(Init(retries).(seqNo := (cliSeqNo + 1) % 256), [], [])
  }

  lemma StartInv<C>(retries: nat, cliSeqNo: byte)
    ensures LinkInv(LinkStart<C>(retries, cliSeqNo))
  {
    var l := LinkStart<C>(retries, cliSeqNo);
    assert OldThenNew(SideOf(l.s), InFlight(l), 0);
    InitFine<C>(retries);
    WorldFine(Init<C>(retries), HelloResponse(cliSeqNo));
    assert l.s == WorldStep(Init<C>(retries), HelloResponse(cliSeqNo));
    hide FineInv;
  }

  /** A run all of whose events are safe. */
  ghost predicate CanRunLink<C>(l: Link<C>, es: seq<LinkEvent<C>>)
    requires LinkInv(l)
    decreases |es|
  {
    |es| > 0 ==>
      && LinkEnabled(l, es[0]) && !Unsafe(l, es[0])
      && (LinkNextInv(l, es[0]); CanRunLink(LinkNext(l, es[0]), es[1..]))
  }

  ghost function ExecLink<C>(l: Link<C>, es: seq<LinkEvent<C>>): (t: Link<C>)
    requires LinkInv(l) && CanRunLink(l, es)
    ensures LinkInv(t)
    decreases |es|
  {
    if |es| == 0 then l else LinkNextInv(l, es[0]); ExecLink(LinkNext(l, es[0]), es[1..])
  }

  /** In every state of a run of safe events from an accepted hello: what is in
      flight is copies with the previous number, then copies of the command in
      progress with the current one. A delivered response is accepted if it
      answers the command in progress. If it answers an earlier one it is not,
      and changes nothing, unless its delivery is unsafe. */
  lemma LinkSafety<C>(l: Link<C>, retries: nat, cliSeqNo: byte, es: seq<LinkEvent<C>>)
    requires LinkInv(LinkStart<C>(retries, cliSeqNo)) && CanRunLink(LinkStart(retries, cliSeqNo), es)
    requires l == ExecLink(LinkStart(retries, cliSeqNo), es) && l.s.m.running
    ensures Ordered(SideOf(l.s), InFlight(l))
    ensures |l.down| > 0 ==>
              var p := l.down[0];
              && WellFormed(l.s.m) && LinkEnabled(l, Deliver)
              && (Busy(l.s) && p.serial == l.s.serial ==> Accepted(l.s, ReplyOf(p)))
              && (Accepted(l.s, ReplyOf(p)) && !(Busy(l.s) && p.serial == l.s.serial) <==> Unsafe(l, Deliver))
              && (!Accepted(l.s, ReplyOf(p)) ==> LinkNext(l, Deliver).s == l.s)
  {
    LinkForm(l);
    hide FineInv, WellFormed, SideOf, LoopFits, Ordered, Accepted, LinkNext, Unsafe, ExecLink, CanRunLink;
    if |l.down| > 0 {
      HeadOf(SideOf(l.s), InFlight(l));
      assert InFlight(l)[0] == l.down[0];
      DeliverInv(l);
    }
  }

  // ---------------------------------------------------------------
  // Link runs are fine runs.

  /** The fine steps an event is made of; the wires make none. */
  ghost function FineSteps<C>(l: Link<C>, e: LinkEvent<C>): seq<Step<C>>
    requires WellFormed(l.s.m) && LinkEnabled(l, e)
  {
    match e
    case Local(x) => [x]
    case Timeout => if WakeUp(l.s).m.loop.Sending? then [Wake, Send] else [Wake]
    case Deliver =>
      var r := ReplyOf(l.down[0]);
      if Accepted(l.s, r) && Receive(l.s, r).m.loop.Waiting? then [Arrive(r), Wake] else [Arrive(r)]
    case _ => []
  }

  lemma EventIsFine<C>(l: Link<C>, e: LinkEvent<C>)
    requires FineInv(l.s) && WellFormed(l.s.m) && LinkEnabled(l, e)
    ensures CanDo(l.s, FineSteps(l, e)) && DoAll(l.s, FineSteps(l, e)) == LinkNext(l, e).s
  {
    match e
    case Local(x) => hide FineInv, WellFormed, Do; OneStep(l.s, x);
    case Timeout =>
      hide FineInv, WellFormed, Transmit;
      OneStep(l.s, Wake);
      if WakeUp(l.s).m.loop.Sending? {
        DoFine(l.s, Wake);
        ThenStep(l.s, Wake, Send);
      }
    case Deliver =>
      var r := ReplyOf(l.down[0]);
      ReceiveEffect(l.s, r);
      hide FineInv, WellFormed, Receive, Accepted;
      OneStep(l.s, Arrive(r));
      if Accepted(l.s, r) && Receive(l.s, r).m.loop.Waiting? {
        DoFine(l.s, Arrive(r));
        ThenStep(l.s, Arrive(r), Wake);
      }
    case _ =>
  }

  lemma ThenStep<C>(s: Sys<C>, x: Step<C>, y: Step<C>)
    requires FineInv(s) && WellFormed(s.m) && Possible(s, x) && WellFormed(Do(s, x).m) && Possible(Do(s, x), y)
    ensures CanDo(s, [x, y]) && DoAll(s, [x, y]) == Do(Do(s, x), y)
  {
    hide Do, Possible, FineInv, WellFormed;
    DoFine(s, x);
    OneStep(Do(s, x), y);
    assert [x, y][1..] == [y];
  }

  ghost function FineRun<C>(l: Link<C>, es: seq<LinkEvent<C>>): seq<Step<C>>
    requires LinkInv(l) && CanRunLink(l, es)
    decreases |es|
  {
    if |es| == 0 then [] else LinkNextInv(l, es[0]); FineSteps(l, es[0]) + FineRun(LinkNext(l, es[0]), es[1..])
  }

  lemma {:induction false} FineRunOf<C>(l: Link<C>, es: seq<LinkEvent<C>>)
    requires LinkInv(l) && FineInv(l.s) && CanRunLink(l, es)
    ensures CanDo(l.s, FineRun(l, es)) && DoAll(l.s, FineRun(l, es)) == ExecLink(l, es).s
    decreases |es|
  {
    LinkForm(l);
    if |es| > 0 {
      LinkNextInv(l, es[0]);
      LinkFine(LinkNext(l, es[0]));
      hide LinkInv, FineInv, WellFormed, LinkNext, LinkEnabled, Unsafe, FineSteps;
      EventIsFine(l, es[0]);
      FineRunOf(LinkNext(l, es[0]), es[1..]);
      JoinRuns(l.s, FineSteps(l, es[0]), FineRun(LinkNext(l, es[0]), es[1..]));
    }
  }

  lemma LinkFine<C>(l: Link<C>)
    requires LinkInv(l)
    ensures FineInv(l.s)
  {
  }

  /** Whatever holds over fine runs holds over link runs: the loop's state in one
      is reached by a fine run that starts with the hello. */
  lemma LinkRunIsFine<C>(l: Link<C>, retries: nat, cliSeqNo: byte, es: seq<LinkEvent<C>>)
    requires LinkInv(LinkStart<C>(retries, cliSeqNo)) && CanRunLink(LinkStart(retries, cliSeqNo), es)
    requires l == ExecLink(LinkStart(retries, cliSeqNo), es)
    ensures FineReachedBy(l.s, retries, [World(HelloResponse(cliSeqNo))] + FineRun(LinkStart<C>(retries, cliSeqNo), es))
  {
    var start := LinkStart<C>(retries, cliSeqNo);
    var hello: Step<C> := World(HelloResponse(cliSeqNo));
    InitFine<C>(retries);
    FineForm(Init<C>(retries));
    assert Possible(Init<C>(retries), hello) && Do(Init<C>(retries), hello) == start.s;
    LinkFine(start);
    hide FineInv, WellFormed, LinkInv, Do, Possible;
    OneStep(Init<C>(retries), hello);
    FineRunOf(start, es);
    JoinRuns(Init<C>(retries), [hello], FineRun(start, es));
  }
}
