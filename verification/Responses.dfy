/** Responses over runs: how many the client of the current command has had, and
    under which number a command may be answered. */
module Responses {
  import opened Bytes
  import opened MuxMessage
  import opened Subscription
  import opened Manager
  import opened Runs
  import opened Filters

  /** Responses of one type among what was written from position `mark` on. */
  function CountFrom(written: seq<Output>, mark: nat, typ: byte): nat {
    if |written| <= mark then 0
    else CountFrom(written[..|written| - 1], mark, typ) + (if written[|written| - 1].typ == typ then 1 else 0)
  }

  lemma CountAppend(written: seq<Output>, o: Output, mark: nat, typ: byte)
    requires mark <= |written|
    ensures CountFrom(written + [o], mark, typ) == CountFrom(written, mark, typ) + (if o.typ == typ then 1 else 0)
  {
    assert (written + [o])[..|written|] == written;
  }

  /** Responses of the current command's own type its client has had. */
  ghost function Answers<C>(s: Sys<C>): nat {
    if s.job.client.Some? && s.job.client.value in s.m.peers && s.job.client.value in s.job.before.peers then
      var c := s.job.client.value;
      CountFrom(s.m.peers[c].written, |s.job.before.peers[c].written|, s.job.typ)
    else 0
  }

  ghost predicate JobKnown<C>(s: Sys<C>) {
    s.job.client.Some? ==>
      var c := s.job.client.value;
      c in s.job.before.peers && c in s.m.peers
      && |s.job.before.peers[c].written| <= |s.m.peers[c].written|
  }

  /** While a command is in progress its client has had one response for each one
      accepted. The result is OK only after one was accepted, and says
      disconnect only after a removal, which leaves no timeout standing. */
  ghost predicate AnswerInv<C>(s: Sys<C>) {
    && JobKnown(s)
    && (s.job.uncovered ==> s.job.removed)
    && (Busy(s) ==>
          && s.job.client == s.m.loop.cmd.client
          && s.job.typ == s.m.loop.cmd.message.typ
          && s.job.typ > NOTIFICATION
          && ResultFits(s, s.m.current.result)
          && (s.m.loop.Finishing? ==> ResultFits(s, s.m.loop.result))
          && (s.job.client.Some? && s.job.removed ==> s.m.current.result != ClientTimeout)
          && (s.job.client.Some? ==> Answers(s) == s.job.accepted))
  }

  ghost predicate ResultFits<C>(s: Sys<C>, result: ClientResult) {
    && (result == ClientOk ==> s.job.accepted > 0)
    && (result == ClientDisconnect ==> s.job.client.Some? && s.job.removed)
  }

  /** Nothing of the current command has been handed to the link yet. */
  ghost predicate Unsent<C>(m: Manager<C>) {
    (m.loop.Sending? && m.loop.attempt == 0) || (m.loop.Finishing? && m.retries == 0)
  }

  /** Until its first copy is sent, a command is answered under number 0. */
  ghost predicate NumberInv<C>(m: Manager<C>) {
    && (Unsent(m) ==> m.current.seqNo == 0)
    && (m.loop.Sending? || m.loop.Waiting? ==> m.loop.attempt < m.retries)
  }

  lemma TakeAnswers<C>(s: Sys<C>)
    requires WellFormed(s.m) && s.m.loop.Idle? && |s.m.queue| > 0
    ensures var t := TakeCommand(s);
            && AnswerInv(t) && NumberInv(t.m)
            && (t.m.loop.Idle? && t.job.client.Some? ==> Answers(t) == 1)
            && (Busy(t) ==> t.m.current.result == ClientTimeout && t.job.client == s.m.queue[0].client)
  {
    var t := TakeCommand(s);
    hide NoDuplicates, Union, VectorToFilter, FilterToVector, Pending;
    var cmd := s.m.queue[0];
    assert cmd in s.m.queue;
    if t.job.client.Some? && t.m.loop.Idle? {
      var p := s.m.peers[cmd.client.value];
      CountAppend(p.written, LocalReply(p.version, cmd.message.typ), |p.written|, cmd.message.typ);
    }
  }

  lemma TransmitAnswers<C>(s: Sys<C>)
    requires AnswerInv(s) && NumberInv(s.m) && s.m.loop.Sending?
    ensures AnswerInv(Transmit(s)) && NumberInv(Transmit(s).m)
  {
    hide CountFrom;
  }

  lemma WakeAnswers<C>(s: Sys<C>)
    requires AnswerInv(s) && NumberInv(s.m) && s.m.loop.Waiting?
    ensures AnswerInv(WakeUp(s)) && NumberInv(WakeUp(s).m)
  {
    hide CountFrom;
  }

  lemma WorldAnswers<C>(s: Sys<C>, w: World<C>)
    requires WellFormed(s.m) && AnswerInv(s) && NumberInv(s.m) && WorldEnabled(s, w)
    ensures AnswerInv(WorldStep(s, w)) && NumberInv(WorldStep(s, w).m)
  {
    hide NoDuplicates, Union, FilterToVector, Pending, Without, FilterMatch, Covered, CountFrom;
    match w
    case Connect(c, _) =>
    case ReadError(c) => RemoveEffect(s.m, c);
    case Request(c, message) =>
    case Notification(typ, payload) =>
      if s.job.client.Some? {
        var c := s.job.client.value;
        CountAppend(s.m.peers[c].written, Output(NOTIFICATION, typ, payload), |s.job.before.peers[c].written|, s.job.typ);
      }
    case HelloResponse(_) =>
    case ManagerHello =>
  }

  lemma ReceiveAnswers<C>(s: Sys<C>, r: Reply)
    requires WellFormed(s.m) && AnswerInv(s) && NumberInv(s.m) && r.typ > NOTIFICATION
    ensures AnswerInv(Receive(s, r)) && NumberInv(Receive(s, r).m)
  {
    hide NoDuplicates, CountFrom;
    if Accepted(s, r) && s.m.current.client.Some? {
      var c := s.m.current.client.value;
      CountAppend(s.m.peers[c].written, Output(r.typ, r.code, r.payload), |s.job.before.peers[c].written|, s.job.typ);
    }
  }

  /** When the loop clears a command, its client has had the accepted responses,
      and one more unless the result is OK. */
  lemma FinishAnswers<C>(s: Sys<C>)
    requires WellFormed(s.m) && AnswerInv(s) && s.m.loop.Finishing?
    ensures var t := FinishCommand(s);
            && AnswerInv(t) && NumberInv(t.m)
            && (t.job.client.Some? ==> Answers(t) == s.job.accepted + if s.m.loop.result == ClientOk then 0 else 1)
  {
    hide NoDuplicates, CountFrom;
    if s.m.loop.result != ClientOk && s.job.client.Some? {
      var c := s.job.client.value;
      CountAppend(s.m.peers[c].written, Output(s.job.typ, ERR_COMMAND_TIMEOUT, []),
                  |s.job.before.peers[c].written|, s.job.typ);
    }
  }
}
