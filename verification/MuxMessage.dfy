/** Messages on the TCP side: a four-byte token, a 16-bit length, and the
    message id, type and payload. */
module MuxMessage {
  import opened Bytes

  const TOKEN: ByteVector := [0xa7, 0x40, 0xa0, 0xf5]
  const HEADER: nat := 6  // token and length

  type uint16 = x: int | 0 <= x < 0x1_0000

  datatype Message = Message(id: uint16, typ: byte, data: ByteVector)

  /** A parsed body; one shorter than id and type is an empty message of type 0. */
  function FromBody(body: ByteVector): Message {
    if |body| >= 3 then Message(FromBytes(body[0], body[1]), body[2], body[3..]) else Message(0, 0, [])
  }

  function Body(m: Message): ByteVector {
    [HighByte(m.id), LowByte(m.id), m.typ] + m.data
  }

  /** A token, a length and that many bytes; the length wraps at 2^16. */
  function Frame(length: nat, body: ByteVector): ByteVector {
    TOKEN + [HighByte(length), LowByte(length)] + body
  }

  function Serialize(m: Message): ByteVector {
    Frame(|m.data| + 3, Body(m))
  }

  /** The largest payload whose length field does not wrap. */
  const MAX_DATA: nat := 65532

  lemma BodyRoundTrip(m: Message)
    ensures FromBody(Body(m)) == m
  {
    JoinSplit(m.id);
    assert Body(m)[3..] == m.data;
  }

  /** The bytes of a body, and what one too short for id and type is read as. */
  lemma BodyFields(body: ByteVector)
    ensures |body| < 3 ==> FromBody(body) == Message(0, 0, [])
    ensures |body| >= 3 ==>
              var m := FromBody(body);
              m.id == body[0] as int * 256 + body[1] as int && m.typ == body[2] && m.data == body[3..]
  {
  }

  /** The bytes of a serialised message: the token, two bytes of length and two of
      id, each high byte first, the type, and the payload. */
  lemma SerializedBytes(m: Message)
    ensures var s := Serialize(m);
            && |s| == 9 + |m.data| && s[..4] == [0xa7, 0x40, 0xa0, 0xf5]
            && s[4] as int * 256 + s[5] as int == (|m.data| + 3) % 0x1_0000
            && s[6] as int * 256 + s[7] as int == m.id
            && s[8] == m.typ && s[9..] == m.data
  {
    JoinSplit(|m.data| + 3);
    JoinSplit(m.id);
    hide HighByte, LowByte;
    assert Serialize(m) == TOKEN + [HighByte(|m.data| + 3), LowByte(|m.data| + 3), HighByte(m.id), LowByte(m.id), m.typ] + m.data;
  }

  /** A response or notification the multiplexer writes to a client. */
  datatype Output = Output(typ: byte, prefix: byte, payload: ByteVector)

  /** As the client reads it: id 0, and the prefix as the first payload byte. */
  function AsMessage(o: Output): Message {
    Message(0, o.typ, [o.prefix] + o.payload)
  }

  method SerializeMessage(m: Message) returns (output: ByteVector)
    ensures output == Serialize(m)
  {
    output := TOKEN;
    var len := (|m.data| + 3) % 0x1_0000;
    output := output + [HighByte(len)];
    output := output + [LowByte(len)];
    output := output + [HighByte(m.id)];
    output := output + [LowByte(m.id)];
    output := output + [m.typ];
    output := output + m.data;
    WrapKeepsBytes(|m.data| + 3);
    assert output == Serialize(m);
  }

  lemma WrapKeepsBytes(n: nat)
    ensures HighByte(n % 0x1_0000) == HighByte(n) && LowByte(n % 0x1_0000) == LowByte(n)
  {
    var q := n / 256;
    assert n % 0x1_0000 == (q % 256) * 256 + n % 256 by { JoinSplit(n); }
  }

  /** Serialising a response is serialising the message the client reads. */
  method SerializeOutput(o: Output) returns (output: ByteVector)
    ensures output == Serialize(AsMessage(o))
  {
    var data := new byte[|o.payload| + 4];
    data[0], data[1], data[2], data[3] := HighByte(0), LowByte(0), o.typ, o.prefix;
    for i := 0 to |o.payload|
      invariant data[..4] == [0, 0, o.typ, o.prefix]
      invariant data[4..4 + i] == o.payload[..i]
    {
      data[4 + i] := o.payload[i];
      assert data[4..4 + i + 1] == data[4..4 + i] + [data[4 + i]];
    }
    output := TOKEN;
    var len := data.Length % 0x1_0000;
    output := output + [HighByte(len)];
    output := output + [LowByte(len)];
    output := output + data[..];
    WrapKeepsBytes(data.Length);
    assert data[..] == data[..4] + data[4..4 + |o.payload|];
    assert data[..] == Body(AsMessage(o));
  }
}
