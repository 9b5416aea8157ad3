/** A client's session: nothing is passed on until the first hello, and only if
    that hello is accepted. */
module Session {
  import opened Bytes
  import opened MuxMessage
  import opened MuxParser
  import opened Manager

  datatype InitState = WaitingForHello | Authenticated | BadInit | Closed

  const EXPECTED_HELLO_LEN: nat := 9
  const AUTHENTICATION_LEN: nat := 8

  /** What the session has done: how often the client was registered, the
      commands it contributed to the queue, and its replies. */
  datatype Session = Session(state: InitState, registrations: nat, commands: seq<Message>, replies: seq<Output>)

  /** What a client must present. */
  datatype Expected = Expected(auth: ByteVector, version: byte)

  /** The result of a hello: a wrong token outranks a wrong version. */
  function HelloResult(x: Expected, data: ByteVector): byte {
    if |data| != EXPECTED_HELLO_LEN then ERR_INVALID_CMD
    else if data[1..] != x.auth then ERR_INVALID_AUTH
    else if data[0] != x.version then ERR_UNSUPPORTED_VERSION
    else OK
  }

  function Handle(x: Expected, s: Session, m: Message): Session {
    if s.state == Authenticated then s.(commands := s.commands + [m])
    else if s.state == WaitingForHello && m.typ == MUX_HELLO then
      var result := HelloResult(x, m.data);
      var replied := s.(replies := s.replies + [Output(MUX_HELLO, result, [x.version])]);
      if result == OK
      then replied.(state := Authenticated, registrations := s.registrations + 1)
      else replied.(state := BadInit)
    else s
  }

  function HandleAll(x: Expected, s: Session, ms: seq<Message>): Session
    decreases |ms|
  {
    if |ms| == 0 then s else HandleAll(x, Handle(x, s, ms[0]), ms[1..])
  }

  function NewSession(): Session {
    Session(WaitingForHello, 0, [], [])
  }

  /** The parser's buffer and the session after a list of reads; after a bad
      hello nothing more is read. */
  function ReadChunks(x: Expected, buffer: ByteVector, s: Session, chunks: seq<ByteVector>): Session
    decreases |chunks|
  {
    if |chunks| == 0 || s.state == BadInit then s
    else
      var p := ParseAll(buffer + chunks[0]);
      ReadChunks(x, Trim(p.rest), HandleAll(x, s, p.messages), chunks[1..])
  }

  // ---------------------------------------------------------------
  // What a session promises, without its states.

  /** The position of the first hello, or the length if there is none. */
  function FirstHello(ms: seq<Message>): (i: nat)
    ensures i <= |ms|
    ensures i < |ms| ==> ms[i].typ == MUX_HELLO
    ensures forall j :: 0 <= j < i ==> ms[j].typ != MUX_HELLO
  {
    if |ms| == 0 || ms[0].typ == MUX_HELLO then 0 else 1 + FirstHello(ms[1..])
  }

  predicate Admitted(x: Expected, ms: seq<Message>) {
    var i := FirstHello(ms);
    i < |ms| && HelloResult(x, ms[i].data) == OK
  }

  /** The messages after the first hello if it is accepted, and none otherwise. */
  function Contribution(x: Expected, ms: seq<Message>): seq<Message> {
    if Admitted(x, ms) then ms[FirstHello(ms) + 1..] else []
  }

  /** The one reply a session writes, to its first hello. */
  function Greeting(x: Expected, ms: seq<Message>): seq<Output> {
    var i := FirstHello(ms);
    if i < |ms| then [Output(MUX_HELLO, HelloResult(x, ms[i].data), [x.version])] else []
  }

  lemma {:induction false} HandleAllAppend(x: Expected, s: Session, a: seq<Message>, b: seq<Message>)
    ensures HandleAll(x, s, a + b) == HandleAll(x, HandleAll(x, s, a), b)
    decreases |a|
  {
    if |a| == 0 {
      assert a + b == b;
    } else {
      assert (a + b)[0] == a[0] && (a + b)[1..] == a[1..] + b;
      HandleAllAppend(x, Handle(x, s, a[0]), a[1..], b);
    }
  }

  lemma {:induction false} AuthenticatedKeepsAll(x: Expected, s: Session, ms: seq<Message>)
    requires s.state == Authenticated
    ensures HandleAll(x, s, ms) == s.(commands := s.commands + ms)
    decreases |ms|
  {
    if |ms| == 0 {
      assert s.commands + ms == s.commands;
    } else {
      AuthenticatedKeepsAll(x, Handle(x, s, ms[0]), ms[1..]);
      assert s.commands + [ms[0]] + ms[1..] == s.commands + ms;
    }
  }

  /** A refused or closed session does nothing, whatever it is sent. */
  lemma {:induction false} BadInitDropsAll(x: Expected, s: Session, ms: seq<Message>)
    requires s.state == BadInit || s.state == Closed
    ensures HandleAll(x, s, ms) == s
    decreases |ms|
  {
    if |ms| > 0 {
      BadInitDropsAll(x, s, ms[1..]);
    }
  }

  lemma {:induction false} HandleAllContributes(x: Expected, s: Session, ms: seq<Message>)
    requires s.state == WaitingForHello
    ensures var t := HandleAll(x, s, ms);
            && t.commands == s.commands + Contribution(x, ms)
            && t.registrations == s.registrations + (if Admitted(x, ms) then 1 else 0)
            && t.replies == s.replies + Greeting(x, ms)
    decreases |ms|
  {
    if |ms| > 0 {
      if ms[0].typ == MUX_HELLO {
        var t := Handle(x, s, ms[0]);
        if t.state == Authenticated {
          AuthenticatedKeepsAll(x, t, ms[1..]);
        } else {
          BadInitDropsAll(x, t, ms[1..]);
        }
      } else {
        HandleAllContributes(x, s, ms[1..]);
        assert FirstHello(ms) == 1 + FirstHello(ms[1..]);
      }
    }
  }

  /** Reading in chunks is handling the messages the parser hands over. */
  lemma {:induction false} ChunksAreMessages(x: Expected, buffer: ByteVector, s: Session, chunks: seq<ByteVector>)
    ensures ReadChunks(x, buffer, s, chunks) == HandleAll(x, s, ReadAll(buffer, chunks).messages)
    decreases |chunks|
  {
    if |chunks| > 0 {
      if s.state == BadInit {
        BadInitDropsAll(x, s, ReadAll(buffer, chunks).messages);
      } else {
        var p := ParseAll(buffer + chunks[0]);
        ChunksAreMessages(x, Trim(p.rest), HandleAll(x, s, p.messages), chunks[1..]);
        HandleAllAppend(x, s, p.messages, ReadAll(Trim(p.rest), chunks[1..]).messages);
      }
    }
  }

  /** The answer to a hello over its bytes: nine of them or an invalid command,
      else the expected token after the first or an invalid authentication, else
      the expected version before it or an unsupported version. */
  lemma HelloCodes(x: Expected, data: ByteVector)
    ensures HelloResult(x, data) ==
            if |data| != 9 then 1 else if data[1..] != x.auth then 3 else if data[0] != x.version then 4 else 0
  {
  }

  /** A hello is accepted exactly if it is the version and the token. */
  lemma HelloAcceptedIff(x: Expected, data: ByteVector)
    ensures HelloResult(x, data) == 0 <==> |x.auth| == 8 && data == [x.version] + x.auth
  {
    assert |data| > 0 ==> data == [data[0]] + data[1..];
    assert ([x.version] + x.auth)[1..] == x.auth;
  }

  /** What a client has done after sending some messages, the first of type 1 being
      at position `i`: if its data is the expected version and token, the client is
      registered once and has contributed exactly the messages after it; if not,
      or if there is none, it is not registered and has contributed nothing. It
      is written one answer to that hello and nothing else. */
  ghost predicate Done(x: Expected, ms: seq<Message>, i: nat, t: Session)
    requires i <= |ms|
  {
    var admitted := i < |ms| && |x.auth| == 8 && ms[i].data == [x.version] + x.auth;
    && t.commands == (if admitted then ms[i + 1..] else [])
    && t.registrations == (if admitted then 1 else 0)
    && (i == |ms| ==> t.replies == [])
    && (i < |ms| ==>
          var data := ms[i].data;
          var code := if |data| != 9 then 1 else if data[1..] != x.auth then 3 else if data[0] != x.version then 4 else 0;
          t.replies == [Output(1, code, [x.version])])
  }

  /** While no authentication timeout fires, a client contributes exactly the
      messages after its first hello if that is accepted, and none otherwise,
      however the stream is cut; it is registered at most once, and is written
      the result of its first hello and nothing else. */
  lemma SessionRefinement(x: Expected, chunks: seq<ByteVector>)
    ensures var ms := ParseAll(Concat(chunks)).messages;
            var i := FirstHello(ms);
            && (i < |ms| ==> ms[i].typ == 1) && (forall j :: 0 <= j < i ==> ms[j].typ != 1)
            && Done(x, ms, i, ReadChunks(x, Zeros(COMMAND_SIZE), NewSession(), chunks))
  {
    hide HelloResult, ParseAll, ReadChunks, HandleAll, Done, Contribution, Admitted, Greeting, ReadAll;
    var ms := ParseAll(Concat(chunks)).messages;
    ChunkIndependence(chunks);
    ChunksAreMessages(x, Zeros(COMMAND_SIZE), NewSession(), chunks);
    HandleAllContributes(x, NewSession(), ms);
    NothingBefore(x, ms);
    ContributionIsDone(x, ms, ReadChunks(x, Zeros(COMMAND_SIZE), NewSession(), chunks));
  }

  lemma NothingBefore(x: Expected, ms: seq<Message>)
    ensures NewSession().commands + Contribution(x, ms) == Contribution(x, ms)
    ensures NewSession().replies + Greeting(x, ms) == Greeting(x, ms)
  {
  }

  lemma ContributionIsDone(x: Expected, ms: seq<Message>, t: Session)
    requires t.commands == Contribution(x, ms) && t.replies == Greeting(x, ms)
    requires t.registrations == if Admitted(x, ms) then 1 else 0
    ensures Done(x, ms, FirstHello(ms), t)
  {
    var i := FirstHello(ms);
    if i < |ms| {
      HelloCodes(x, ms[i].data);
      HelloAcceptedIff(x, ms[i].data);
    }
    hide HelloResult;
  }
}
