/** The resynchronising parser for the client stream, and why it does not
    matter how the stream is cut into reads. */
module MuxParser {
  import opened Bytes
  import opened MuxMessage

  predicate TokenAt(s: ByteVector, i: nat) {
    i + 4 <= |s| && s[i..i + 4] == TOKEN
  }

  /** The position of the first token, or the length if there is none. */
  function FirstToken(s: ByteVector): (i: nat)
    ensures i <= |s|
    ensures i < |s| ==> TokenAt(s, i)
    ensures forall j: nat :: j < i ==> !TokenAt(s, j)
  {
    Search(s, 0)
  }

  function Search(s: ByteVector, from: nat): (i: nat)
    requires from <= |s|
    ensures from <= i <= |s|
    ensures i < |s| ==> TokenAt(s, i)
    ensures forall j: nat :: from <= j < i ==> !TokenAt(s, j)
    decreases |s| - from
  {
    if from == |s| || TokenAt(s, from) then from else Search(s, from + 1)
  }

  lemma FirstTokenUnique(s: ByteVector, i: nat)
    requires TokenAt(s, i) && forall j: nat :: j < i ==> !TokenAt(s, j)
    ensures FirstToken(s) == i
  {
  }

  predicate TokenFree(s: ByteVector) {
    FirstToken(s) == |s|
  }

  /** One attempt at the front of a buffer. */
  datatype Attempt =
    | NoToken
    | Incomplete(start: nat)
    | Complete(start: nat, end: nat)

  function Attempted(s: ByteVector): (a: Attempt)
    ensures a.Complete? ==> a.start + HEADER <= a.end <= |s|
  {
    var i := FirstToken(s);
    if i == |s| then NoToken
    else if |s| < i + HEADER then Incomplete(i)
    else
      var end := i + HEADER + FromBytes(s[i + 4], s[i + 5]);
      if end <= |s| then Complete(i, end) else Incomplete(i)
  }

  /** Everything a whole byte string holds: its messages and what is left. */
  datatype Parsed = Parsed(messages: seq<Message>, rest: ByteVector)

  function ParseAll(s: ByteVector): Parsed
    decreases |s|
  {
    match Attempted(s)
    case Complete(start, end) =>
      var tail := ParseAll(s[end..]);
      Parsed([FromBody(s[start + HEADER..end])] + tail.messages, tail.rest)
    case _ => Parsed([], s)
  }

  /** What a read keeps of an unparsed rest. */
  function Trim(rest: ByteVector): ByteVector {
    if TokenFree(rest) then Last3(rest) else rest
  }

  function Last3(s: ByteVector): ByteVector {
    if |s| > 3 then s[|s| - 3..] else s
  }

  function FromToken(s: ByteVector): ByteVector {
    s[FirstToken(s)..]
  }

  lemma ParseComplete(s: ByteVector)
    requires Attempted(s).Complete?
    ensures var a := Attempted(s);
            var tail := ParseAll(s[a.end..]);
            ParseAll(s) == Parsed([FromBody(s[a.start + HEADER..a.end])] + tail.messages, tail.rest)
  {
  }

  lemma ParseStuck(s: ByteVector)
    requires !Attempted(s).Complete?
    ensures ParseAll(s) == Parsed([], s)
  {
  }

  /** One more attempt, after `found` has been taken from the front. */
  lemma ParseStep(s: ByteVector, found: seq<Message>, all: Parsed)
    requires all == Parsed(found + ParseAll(s).messages, ParseAll(s).rest)
    ensures Attempted(s).Complete? ==>
              var a := Attempted(s);
              var p := ParseAll(s[a.end..]);
              all == Parsed(found + [FromBody(s[a.start + HEADER..a.end])] + p.messages, p.rest)
    ensures !Attempted(s).Complete? ==> all == Parsed(found, s)
  {
    hide Attempted, ParseAll, FromBody;
    if Attempted(s).Complete? {
      ParseComplete(s);
    } else {
      ParseStuck(s);
    }
  }

  // ---------------------------------------------------------------
  // The parser as the source runs it.

  const COMMAND_SIZE: nat := 128

  /** The constructor leaves this many zero bytes in the buffer. */
  function Zeros(n: nat): (z: ByteVector)
    ensures |z| == n && forall i :: 0 <= i < n ==> z[i] == 0
  {
    seq(n, i => 0)
  }

  class CMuxParser {
    var partialInput: ByteVector
    var handled: seq<Message>  // what the handler has been given

    constructor ()
      ensures partialInput == Zeros(COMMAND_SIZE) && handled == []
      ensures |partialInput| == 128 && forall i :: 0 <= i < 128 ==> partialInput[i] == 0
    {
      partialInput := Zeros(COMMAND_SIZE);
      handled := [];
    }

    method Callback(command: ByteVector)
      modifies this`handled
      ensures handled == old(handled) + [FromBody(command)]
    {
      handled := handled + [FromBody(command)];
    }

    method Parse() returns (more: bool)
      modifies this
      ensures more <==> Attempted(old(partialInput)).Complete?
      ensures more ==>
                var a := Attempted(old(partialInput));
                && partialInput == old(partialInput)[a.end..]
                && handled == old(handled) + [FromBody(old(partialInput)[a.start + HEADER..a.end])]
                && |partialInput| + HEADER <= |old(partialInput)|
      ensures !more ==> partialInput == Trim(old(partialInput)) && handled == old(handled)
    {
      var iter := FirstToken(partialInput);
      if iter != |partialInput| {
        iter := iter + 4;
        if |partialInput| - iter < 2 {
          return false;
        }
        var expectedLength: nat := (partialInput[iter] as int) * 256;
        iter := iter + 1;
        expectedLength := expectedLength + partialInput[iter];
        iter := iter + 1;
        var remaining := |partialInput| - iter;
        if remaining >= expectedLength {
          var endIter := iter + expectedLength;
          Callback(partialInput[iter..endIter]);
          partialInput := partialInput[endIter..];
          return true;
        }
      } else if |partialInput| > 3 {
        partialInput := partialInput[|partialInput| - 3..];
      }
      return false;
    }

    /** A read hands over the messages of buffer and input together, in order. */
    method Read(input: ByteVector)
      modifies this
      ensures var p := ParseAll(old(partialInput) + input);
              handled == old(handled) + p.messages && partialInput == Trim(p.rest)
    {
      hide Attempted, ParseAll, FromBody, Trim;
      partialInput := partialInput + input;
      ghost var all := ParseAll(partialInput);
      ghost var found: seq<Message> := [];
      var more := true;
      while more
        invariant handled == old(handled) + found
        invariant more ==>
                    var p := ParseAll(partialInput);
                    all == Parsed(found + p.messages, p.rest)
        invariant !more ==> found == all.messages && partialInput == Trim(all.rest)
        decreases more, |partialInput|
      {
        ghost var s := partialInput;
        more := Parse();
        ParseStep(s, found, all);
        if more {
          found := found + [FromBody(s[Attempted(s).start + HEADER..Attempted(s).end])];
        }
      }
    }
  }

  // ---------------------------------------------------------------
  // More input does not change what has been found.

  lemma TokenAtPrefix(s: ByteVector, t: ByteVector, j: nat)
    requires j + 4 <= |s|
    ensures TokenAt(s + t, j) == TokenAt(s, j)
  {
    assert (s + t)[j..j + 4] == s[j..j + 4];
  }

  lemma TokenAtSuffix(g: ByteVector, x: ByteVector, j: nat)
    ensures TokenAt(g + x, |g| + j) == TokenAt(x, j)
  {
    if j + 4 <= |x| {
      assert (g + x)[|g| + j..|g| + j + 4] == x[j..j + 4];
    }
  }

  lemma FirstTokenStays(s: ByteVector, t: ByteVector)
    requires !TokenFree(s)
    ensures FirstToken(s + t) == FirstToken(s)
  {
    var i := FirstToken(s);
    TokenAtPrefix(s, t, i);
    forall j: nat | j < i
      ensures !TokenAt(s + t, j)
    {
      TokenAtPrefix(s, t, j);
    }
    FirstTokenUnique(s + t, i);
  }

  lemma AttemptStays(s: ByteVector, t: ByteVector)
    requires Attempted(s).Complete?
    ensures Attempted(s + t) == Attempted(s)
  {
    FirstTokenStays(s, t);
  }

  /** Parsing a longer string is parsing the rest with the addition. */
  lemma {:induction false} ParseAllExtends(s: ByteVector, t: ByteVector)
    ensures var p := ParseAll(s);
            var q := ParseAll(p.rest + t);
            ParseAll(s + t) == Parsed(p.messages + q.messages, q.rest)
    decreases |s|
  {
    hide Attempted, FromBody, ParseAll;
    var a := Attempted(s);
    if a.Complete? {
      AttemptStays(s, t);
      ParseComplete(s);
      ParseComplete(s + t);
      assert (s + t)[a.end..] == s[a.end..] + t;
      assert (s + t)[a.start + HEADER..a.end] == s[a.start + HEADER..a.end];
      ParseAllExtends(s[a.end..], t);
    } else {
      ParseStuck(s);
    }
  }

  /** The rest of a parse holds no complete message. */
  lemma {:induction false} RestIsStuck(s: ByteVector)
    ensures !Attempted(ParseAll(s).rest).Complete?
    decreases |s|
  {
    var a := Attempted(s);
    if a.Complete? {
      RestIsStuck(s[a.end..]);
    }
  }

  // ---------------------------------------------------------------
  // Garbage before the first token.

  /** No token starts inside the first `n` bytes. */
  ghost predicate NoneBefore(s: ByteVector, n: nat) {
    forall j: nat :: j < n ==> !TokenAt(s, j)
  }

  lemma SkipGarbage(g: ByteVector, x: ByteVector)
    requires NoneBefore(g + x, |g|)
    ensures FirstToken(g + x) == |g| + FirstToken(x)
  {
    var i := FirstToken(x);
    if i < |x| {
      TokenAtSuffix(g, x, i);
      forall j: nat | j < |g| + i
        ensures !TokenAt(g + x, j)
      {
        if j >= |g| {
          TokenAtSuffix(g, x, j - |g|);
        }
      }
      FirstTokenUnique(g + x, |g| + i);
    } else {
      var k := FirstToken(g + x);
      if k < |g + x| {
        TokenAtSuffix(g, x, k - |g|);
        assert false;
      }
    }
  }

  lemma GarbageChangesNoMessage(g: ByteVector, x: ByteVector)
    requires NoneBefore(g + x, |g|)
    ensures ParseAll(g + x).messages == ParseAll(x).messages
    ensures ParseAll(g + x).rest == if Attempted(x).Complete? then ParseAll(x).rest else g + ParseAll(x).rest
  {
    AttemptAfterGarbage(g, x);
    hide Attempted, FromBody, ParseAll, NoneBefore;
    if Attempted(x).Complete? {
      GarbageDropped(g, x);
    } else {
      ParseStuck(x);
      ParseStuck(g + x);
    }
  }

  lemma GarbageDropped(g: ByteVector, x: ByteVector)
    requires NoneBefore(g + x, |g|) && Attempted(x).Complete?
    ensures ParseAll(g + x) == ParseAll(x)
  {
    hide Attempted, FromBody, ParseAll, NoneBefore;
    AttemptAfterGarbage(g, x);
    var a, s := Attempted(x), g + x;
    SliceAfter(g, x, a.start + HEADER, a.end);
    ParseComplete(x);
    assert Attempted(s) == Complete(|g| + a.start, |g| + a.end);
    ParseComplete(s);
  }

  lemma SliceAfter(g: ByteVector, x: ByteVector, lo: nat, hi: nat)
    requires lo <= hi <= |x|
    ensures (g + x)[|g| + hi..] == x[hi..]
    ensures (g + x)[|g| + lo..|g| + hi] == x[lo..hi]
  {
  }

  lemma AttemptAfterGarbage(g: ByteVector, x: ByteVector)
    requires NoneBefore(g + x, |g|)
    ensures Attempted(g + x) ==
            match Attempted(x)
            case NoToken => NoToken
            case Incomplete(start) => Incomplete(|g| + start)
            case Complete(start, end) => Complete(|g| + start, |g| + end)
  {
    SkipGarbage(g, x);
    hide FirstToken, NoneBefore;
  }

  // ---------------------------------------------------------------
  // How a buffer that was trimmed relates to the untrimmed rest.

  /** `buffer` is `rest` without a stretch of garbage at the front, too far back
      for a token to begin in it however the stream goes on. */
  ghost predicate Keeps(rest: ByteVector, buffer: ByteVector) {
    && |buffer| <= |rest|
    && buffer == rest[|rest| - |buffer|..]
    && NoneBefore(rest, |rest| - |buffer|)
    && (|buffer| < |rest| ==> |buffer| >= 3)
  }

  lemma KeepsItself(s: ByteVector)
    ensures Keeps(s, s)
  {
  }

  lemma TrimKeeps(rest: ByteVector, buffer: ByteVector)
    requires Keeps(rest, buffer)
    ensures Keeps(rest, Trim(buffer))
  {
    var g := rest[..|rest| - |buffer|];
    assert rest == g + buffer;
    SkipGarbage(g, buffer);
    if TokenFree(buffer) && |buffer| > 3 {
      assert FirstToken(rest) == |rest|;
      assert Last3(buffer) == rest[|rest| - 3..];
    }
  }

  lemma GarbageStays(rest: ByteVector, buffer: ByteVector, t: ByteVector)
    requires Keeps(rest, buffer)
    ensures NoneBefore(rest + t, |rest| - |buffer|)
    ensures rest + t == rest[..|rest| - |buffer|] + (buffer + t)
  {
    assert rest == rest[..|rest| - |buffer|] + buffer;
    forall j: nat | j < |rest| - |buffer|
      ensures !TokenAt(rest + t, j)
    {
      TokenAtPrefix(rest, t, j);
    }
  }

  /** One more read: the same messages, and the relation is kept. */
  lemma KeepsExtends(rest: ByteVector, buffer: ByteVector, t: ByteVector)
    requires Keeps(rest, buffer)
    ensures ParseAll(rest + t).messages == ParseAll(buffer + t).messages
    ensures Keeps(ParseAll(rest + t).rest, Trim(ParseAll(buffer + t).rest))
  {
    GarbageStays(rest, buffer, t);
    var g := rest[..|rest| - |buffer|];
    var x := buffer + t;
    GarbageChangesNoMessage(g, x);
    var y := ParseAll(x).rest;
    if Attempted(x).Complete? {
      assert Keeps(y, y);
    } else {
      assert y == x && Keeps(g + x, x);
    }
    TrimKeeps(ParseAll(rest + t).rest, y);
  }

  // ---------------------------------------------------------------
  // Chunk independence.

  /** The parser's two fields after reading a list of chunks. */
  function ReadAll(buffer: ByteVector, chunks: seq<ByteVector>): Parsed
    decreases |chunks|
  {
    if |chunks| == 0 then Parsed([], buffer)
    else
      var p := ParseAll(buffer + chunks[0]);
      var tail := ReadAll(Trim(p.rest), chunks[1..]);
      Parsed(p.messages + tail.messages, tail.rest)
  }

  lemma {:induction false} ReadAllMatches(rest: ByteVector, buffer: ByteVector, chunks: seq<ByteVector>)
    requires Keeps(rest, buffer) && !Attempted(rest).Complete?
    ensures ReadAll(buffer, chunks).messages == ParseAll(rest + Concat(chunks)).messages
    ensures Keeps(ParseAll(rest + Concat(chunks)).rest, ReadAll(buffer, chunks).rest)
    decreases |chunks|
  {
    hide Attempted, ParseAll, Trim, Keeps;
    if |chunks| == 0 {
      assert rest + Concat(chunks) == rest;
      ParseStuck(rest);
    } else {
      var c, more := chunks[0], chunks[1..];
      KeepsExtends(rest, buffer, c);
      var p := ParseAll(rest + c);
      RestIsStuck(rest + c);
      ReadAllMatches(p.rest, Trim(ParseAll(buffer + c).rest), more);
      ParseAllExtends(rest + c, Concat(more));
      assert rest + Concat(chunks) == (rest + c) + Concat(more);
    }
  }

  lemma ZerosHoldNoToken(n: nat, s: ByteVector, j: nat)
    requires j < n
    ensures !TokenAt(Zeros(n) + s, j)
  {
    if j + 4 <= n + |s| {
      assert (Zeros(n) + s)[j..j + 4][0] == 0;
    }
  }

  lemma ZerosAreGarbage(n: nat, s: ByteVector)
    ensures NoneBefore(Zeros(n) + s, n)
  {
    forall j: nat | j < n
      ensures !TokenAt(Zeros(n) + s, j)
    {
      ZerosHoldNoToken(n, s, j);
    }
  }

  lemma InitialBuffer()
    ensures TokenFree(Zeros(COMMAND_SIZE)) && !Attempted(Zeros(COMMAND_SIZE)).Complete?
  {
    ZerosAreGarbage(COMMAND_SIZE, []);
    assert Zeros(COMMAND_SIZE) + [] == Zeros(COMMAND_SIZE);
  }

  /** However a stream is cut into reads, a new parser hands over the messages
      of the stream parsed in one piece; its buffer agrees with the one-piece
      rest from the first token on, and in its last three bytes. The 128 zero
      bytes it starts with change no message and nothing after a token. */
  lemma ChunkIndependence(chunks: seq<ByteVector>)
    ensures var r := ReadAll(Zeros(COMMAND_SIZE), chunks);
            var whole := ParseAll(Concat(chunks));
            && r.messages == whole.messages
            && FromToken(r.rest) == FromToken(whole.rest)
            && (TokenFree(r.rest) <==> TokenFree(whole.rest))
            && (|whole.rest| >= 3 ==> Last3(r.rest) == Last3(whole.rest))
  {
    hide *;
    var z, s := Zeros(COMMAND_SIZE), Concat(chunks);
    InitialBuffer();
    KeepsItself(z);
    ReadAllMatches(z, z, chunks);
    ZerosChangeNothing(s);
    KeptFromToken(ParseAll(z + s).rest, ReadAll(z, chunks).rest);
  }

  lemma ZerosChangeNothing(s: ByteVector)
    ensures var long, short := ParseAll(Zeros(COMMAND_SIZE) + s), ParseAll(s);
            && long.messages == short.messages
            && FromToken(long.rest) == FromToken(short.rest)
            && (TokenFree(long.rest) <==> TokenFree(short.rest))
            && (|short.rest| >= 3 ==> Last3(long.rest) == Last3(short.rest))
  {
    hide Attempted, ParseAll, NoneBefore;
    var z := Zeros(COMMAND_SIZE);
    ZerosAreGarbage(COMMAND_SIZE, s);
    GarbageChangesNoMessage(z, s);
    var long, whole := ParseAll(z + s).rest, ParseAll(s).rest;
    if Attempted(s).Complete? {
      assert long == whole;
    } else {
      ParseStuck(s);
      SkipGarbage(z, s);
      assert long[FirstToken(long)..] == s[FirstToken(s)..];
      if |s| >= 3 {
        assert Last3(long) == Last3(s);
      }
    }
  }

  lemma KeptFromToken(rest: ByteVector, buffer: ByteVector)
    requires Keeps(rest, buffer)
    ensures FromToken(rest) == FromToken(buffer) && (TokenFree(rest) <==> TokenFree(buffer))
    ensures Last3(rest) == Last3(buffer)
  {
    var g := rest[..|rest| - |buffer|];
    assert rest == g + buffer;
    SkipGarbage(g, buffer);
  }

  // ---------------------------------------------------------------
  // Round trip through noise.

  /** Garbage, a message, garbage, a message, and so on, then `last`. */
  function Noisy(garbage: seq<ByteVector>, messages: seq<Message>, last: ByteVector): ByteVector
    requires |garbage| == |messages|
  {
    if |messages| == 0 then last
    else garbage[0] + Serialize(messages[0]) + Noisy(garbage[1..], messages[1..], last)
  }

  /** The token overlaps no shifted copy of itself, so token-free bytes before a
      token never make an earlier one. */
  lemma TokenEndsGarbage(g: ByteVector, x: ByteVector)
    requires TokenFree(g)
    ensures NoneBefore(g + (TOKEN + x), |g|)
  {
    var s := g + (TOKEN + x);
    forall j: nat | j < |g|
      ensures !TokenAt(s, j)
    {
      if j + 4 <= |g| {
        TokenAtPrefix(g, TOKEN + x, j);
      } else if j + 4 <= |s| {
        assert s[j..j + 4][|g| - j] == s[|g|] == TOKEN[0];
        assert TOKEN[|g| - j] != TOKEN[0];
      }
    }
  }

  lemma SerializedAttempt(m: Message, x: ByteVector)
    ensures var length := (|m.data| + 3) % 0x1_0000;
            Attempted(Serialize(m) + x) ==
            if HEADER + length <= |Serialize(m) + x| then Complete(0, HEADER + length) else Incomplete(0)
  {
    var s := Serialize(m) + x;
    assert s[0..4] == TOKEN;
    assert TokenAt(s, 0);
    JoinSplit(|m.data| + 3);
    assert s[4] == HighByte(|m.data| + 3) && s[5] == LowByte(|m.data| + 3);
  }

  lemma OneMessage(g: ByteVector, m: Message, x: ByteVector)
    requires TokenFree(g) && |m.data| <= MAX_DATA
    ensures var p := ParseAll(x);
            ParseAll(g + (Serialize(m) + x)) == Parsed([m] + p.messages, p.rest)
  {
    hide Attempted, ParseAll, NoneBefore, HighByte, LowByte, FromBody;
    var s := Serialize(m) + x;
    assert s == TOKEN + ([HighByte(|m.data| + 3), LowByte(|m.data| + 3)] + Body(m) + x);
    TokenEndsGarbage(g, [HighByte(|m.data| + 3), LowByte(|m.data| + 3)] + Body(m) + x);
    GarbageChangesNoMessage(g, s);
    SerializedAttempt(m, x);
    var end := HEADER + |m.data| + 3;
    assert s[end..] == x && s[HEADER..end] == Body(m);
    ParseComplete(s);
    BodyRoundTrip(m);
  }

  /** A token at the front, a length high byte first, and the rest: with enough
      bytes the body is taken, whatever its length, and parsing goes on behind
      it; with fewer the buffer waits. A token alone waits for its length. */
  lemma FrontFrame(high: byte, low: byte, rest: ByteVector)
    ensures var n := high as int * 256 + low as int;
            var s := [0xa7, 0x40, 0xa0, 0xf5, high, low] + rest;
            ParseAll(s) ==
            if |rest| >= n
            then Parsed([FromBody(rest[..n])] + ParseAll(rest[n..]).messages, ParseAll(rest[n..]).rest)
            else Parsed([], s)
  {
    hide ParseAll, FromBody;
    var n := high as int * 256 + low as int;
    var s := [0xa7, 0x40, 0xa0, 0xf5, high, low] + rest;
    assert s[0..4] == TOKEN;
    assert TokenAt(s, 0);
    FirstTokenUnique(s, 0);
    assert s[4] == high && s[5] == low;
    if |rest| >= n {
      assert Attempted(s) == Complete(0, 6 + n);
      assert s[6 + n..] == rest[n..] && s[6..6 + n] == rest[..n];
      ParseComplete(s);
    } else {
      ParseStuck(s);
    }
  }

  lemma TokenWaits(some: ByteVector)
    requires |some| < 2
    ensures ParseAll([0xa7, 0x40, 0xa0, 0xf5] + some) == Parsed([], [0xa7, 0x40, 0xa0, 0xf5] + some)
  {
    var s := [0xa7, 0x40, 0xa0, 0xf5] + some;
    assert s[0..4] == TOKEN;
    assert TokenAt(s, 0);
    FirstTokenUnique(s, 0);
  }

  lemma StuckWithoutToken(s: ByteVector)
    requires TokenFree(s)
    ensures ParseAll(s) == Parsed([], s)
  {
  }

  /** Messages come through token-free noise with id, type and data intact, even
      when a payload contains the token. */
  lemma {:induction false} RoundTripThroughNoise(garbage: seq<ByteVector>, messages: seq<Message>, last: ByteVector)
    requires |garbage| == |messages|
    requires forall i :: 0 <= i < |garbage| ==> TokenFree(garbage[i])
    requires forall i :: 0 <= i < |messages| ==> |messages[i].data| <= MAX_DATA
    requires TokenFree(last)
    ensures ParseAll(Noisy(garbage, messages, last)) == Parsed(messages, last)
    decreases |messages|
  {
    hide ParseAll, Serialize;
    if |messages| == 0 {
      StuckWithoutToken(last);
    } else {
      var rest := Noisy(garbage[1..], messages[1..], last);
      RoundTripThroughNoise(garbage[1..], messages[1..], last);
      OneMessage(garbage[0], messages[0], rest);
      assert Noisy(garbage, messages, last) == garbage[0] + (Serialize(messages[0]) + rest);
      assert [messages[0]] + messages[1..] == messages;
    }
  }

  /** The 16-bit length decides it: a message survives serialisation exactly
      when its payload is at most 65532 bytes. */
  lemma SurvivesIffShort(m: Message)
    ensures ParseAll(Serialize(m)).messages == [m] <==> |m.data| <= MAX_DATA
  {
    var s := Serialize(m);
    assert s + [] == s && [] + (s + []) == s;
    if |m.data| <= MAX_DATA {
      OneMessage([], m, []);
      assert [m] + [] == [m];
    } else {
      SerializedAttempt(m, []);
      var length := (|m.data| + 3) % 0x1_0000;
      var first := FromBody(s[HEADER..HEADER + length]);
      assert |first.data| < |m.data|;
      assert ParseAll(s).messages[0] == first;
    }
  }

  // ---------------------------------------------------------------
  // The buffer stays small.

  /** The buffer between reads. */
  predicate Bounded(buffer: ByteVector) {
    if TokenFree(buffer) then |buffer| <= 3
    else FirstToken(buffer) <= 384 && |FromToken(buffer)| <= 65540
  }

  lemma StuckIsShort(s: ByteVector)
    requires !Attempted(s).Complete? && !TokenFree(s)
    ensures |FromToken(s)| <= 65540
  {
  }

  /** A parse that finds something leaves only bytes of the new input. */
  lemma {:induction false} RestIsNew(s: ByteVector, t: ByteVector)
    requires !Attempted(s).Complete?
    requires Attempted(s + t).Complete?
    ensures |ParseAll(s + t).rest| <= |t|
  {
    var a := Attempted(s + t);
    if a.end < |s| {
      assert TokenAt(s + t, a.start);
      TokenAtPrefix(s, t, a.start);
      assert !TokenFree(s) by { TokenFreeAt(s, a.start); }
      FirstTokenStays(s, t);
      assert false;
    }
    RestShrinks((s + t)[a.end..]);
  }

  lemma TokenFreeAt(s: ByteVector, i: nat)
    requires TokenAt(s, i)
    ensures !TokenFree(s)
  {
  }

  lemma {:induction false} RestShrinks(s: ByteVector)
    ensures |ParseAll(s).rest| <= |s|
    decreases |s|
  {
    var a := Attempted(s);
    if a.Complete? {
      RestShrinks(s[a.end..]);
    }
  }

  /** After every read of at most 256 bytes the buffer is bounded, from the
      buffer a new parser starts with or from a bounded one. */
  lemma ReadKeepsBounded(buffer: ByteVector, input: ByteVector)
    requires !Attempted(buffer).Complete?
    requires Bounded(buffer) || buffer == Zeros(COMMAND_SIZE)
    requires |input| <= 256
    ensures var after := Trim(ParseAll(buffer + input).rest);
            Bounded(after) && !Attempted(after).Complete?
  {
    var s := buffer + input;
    var rest := ParseAll(s).rest;
    RestIsStuck(s);
    if Attempted(s).Complete? {
      RestIsNew(buffer, input);
    } else if !TokenFree(buffer) {
      FirstTokenStays(buffer, input);
    }
    if TokenFree(rest) {
      TrimmedIsTokenFree(rest);
    } else {
      StuckIsShort(rest);
    }
  }

  /** After any number of reads of at most 256 bytes, and at least one, the buffer
      of a new parser is bounded. */
  lemma ReadsKeepBounded(chunks: seq<ByteVector>)
    requires |chunks| > 0 && forall i :: 0 <= i < |chunks| ==> |chunks[i]| <= 256
    ensures Bounded(ReadAll(Zeros(COMMAND_SIZE), chunks).rest)
  {
    hide Attempted, Bounded;
    InitialBuffer();
    ReadsFrom(Zeros(COMMAND_SIZE), chunks);
  }

  lemma {:induction false} ReadsFrom(buffer: ByteVector, chunks: seq<ByteVector>)
    requires !Attempted(buffer).Complete?
    requires Bounded(buffer) || (buffer == Zeros(COMMAND_SIZE) && |chunks| > 0)
    requires forall i :: 0 <= i < |chunks| ==> |chunks[i]| <= 256
    ensures Bounded(ReadAll(buffer, chunks).rest)
    decreases |chunks|
  {
    hide Attempted, Bounded, ParseAll, Trim;
    if |chunks| > 0 {
      ReadKeepsBounded(buffer, chunks[0]);
      ReadsFrom(Trim(ParseAll(buffer + chunks[0]).rest), chunks[1..]);
    }
  }

  lemma TrimmedIsTokenFree(rest: ByteVector)
    requires TokenFree(rest)
    ensures TokenFree(Last3(rest)) && |Last3(rest)| <= 3
  {
  }
}
