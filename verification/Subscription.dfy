/** Notification filters: their wire form, their union, and the pending and
    committed pair each subscriber keeps. */
module Subscription {
  import opened Bytes

  /** The type of a notification, and the SUBSCRIBE command. */
  const NOTIFICATION: byte := 20
  const SUBSCRIBE: byte := 22
  const SUBSCRIBE_PARAMS_LENGTH: nat := 8

  datatype Params = Params(filter: bv32, unreliable: bv32)

  const NO_PARAMS: Params := Params(0, 0)

  function Wide(b: byte): bv32 {
    Octet(b) as bv32
  }

  function Narrow(w: bv32): byte {
    Value((w & 0xff) as bv8)
  }

  function WordBytes(w: bv32): (s: ByteVector)
    ensures |s| == 4
  {
    [Narrow(w >> 24), Narrow(w >> 16), Narrow(w >> 8), Narrow(w)]
  }

  function BytesWord(b3: byte, b2: byte, b1: byte, b0: byte): bv32 {
    ((Wide(b3) << 24) & 0xff00_0000) | ((Wide(b2) << 16) & 0xff_0000) | ((Wide(b1) << 8) & 0xff00) | (Wide(b0) & 0xff)
  }

  /** Writes the parameters over the first eight bytes of a payload. */
  function FilterToVector(params: Params, data: ByteVector): (out: ByteVector)
    requires |data| >= 8
    ensures |out| == |data| && out[8..] == data[8..]
  {
    WordBytes(params.filter) + WordBytes(params.unreliable) + data[8..]
  }

  method WriteWord(w: bv32, data: array<byte>, at: nat)
    requires at + 4 <= data.Length
    modifies data
    ensures data[..] == old(data[..at]) + WordBytes(w) + old(data[at + 4..])
  {
    hide Narrow;
    data[at] := Narrow(w >> 24);
    data[at + 1] := Narrow(w >> 16);
    data[at + 2] := Narrow(w >> 8);
    data[at + 3] := Narrow(w);
    assert data[at..at + 4] == WordBytes(w);
    assert data[..] == data[..at] + data[at..at + 4] + data[at + 4..];
  }

  /** The same in place. */
  method WriteFilter(params: Params, data: array<byte>)
    requires data.Length >= 8
    modifies data
    ensures data[..] == FilterToVector(params, old(data[..]))
  {
    hide WordBytes;
    WriteWord(params.filter, data, 0);
    WriteWord(params.unreliable, data, 4);
  }

  function VectorToFilter(data: ByteVector): Params
    requires |data| >= 4
  {
    Params(BytesWord(data[0], data[1], data[2], data[3]),
           if |data| >= 8 then BytesWord(data[4], data[5], data[6], data[7]) else 0)
  }

  lemma WideNarrow(w: bv32)
    ensures Wide(Narrow(w)) == w & 0xff
  {
    OctetOfValue((w & 0xff) as bv8);
  }

  lemma Reassemble(w: bv32)
    ensures ((((w >> 24) & 0xff) << 24) & 0xff00_0000) | ((((w >> 16) & 0xff) << 16) & 0xff_0000)
            | ((((w >> 8) & 0xff) << 8) & 0xff00) | ((w & 0xff) & 0xff) == w
  {
  }

  lemma WordRoundTrip(w: bv32)
    ensures var s := WordBytes(w);
            BytesWord(s[0], s[1], s[2], s[3]) == w
  {
    hide Wide, Narrow;
    WideNarrow(w >> 24);
    WideNarrow(w >> 16);
    WideNarrow(w >> 8);
    WideNarrow(w);
    Reassemble(w);
  }

  /** A rewritten payload decodes to the parameters written into it, and is
      otherwise what it was. */
  lemma FilterRoundTrip(params: Params, data: ByteVector)
    requires |data| >= 8
    ensures var out := FilterToVector(params, data);
            VectorToFilter(out) == params && |out| == |data| && out[8..] == data[8..]
  {
    hide WordBytes, BytesWord;
    WordRoundTrip(params.filter);
    WordRoundTrip(params.unreliable);
  }

  // ---------------------------------------------------------------
  // Unions.

  function Or(a: bv32, b: bv32): bv32 {
    a | b
  }

  function Join(a: Params, b: Params): Params {
    Params(Or(a.filter, b.filter), Or(a.unreliable, b.unreliable))
  }

  /** The union of a list of parameters, accumulated from the front. */
  function Union(ps: seq<Params>): Params {
    if |ps| == 0 then NO_PARAMS else Join(Union(ps[..|ps| - 1]), ps[|ps| - 1])
  }

  lemma OrZero(a: bv32)
    ensures Or(a, 0) == a
  {
  }

  /** A subscriber without a filter adds nothing. */
  lemma JoinNothing(a: Params)
    ensures Join(a, NO_PARAMS) == a
  {
    OrZero(a.filter);
    OrZero(a.unreliable);
  }

  lemma OrRules(a: bv32, b: bv32, c: bv32)
    ensures Or(Or(a, b), c) == Or(Or(a, c), b)
    ensures Or(a, Or(b, c)) == Or(Or(a, b), c)
    ensures Or(Or(a, b), b) == Or(a, b)
    ensures Or(a, b) == Or(b, a)
  {
  }

  lemma JoinRules(a: Params, b: Params, c: Params)
    ensures Join(Join(a, b), c) == Join(Join(a, c), b)
    ensures Join(a, Join(b, c)) == Join(Join(a, b), c)
    ensures Join(Join(a, b), b) == Join(a, b)
    ensures Join(a, b) == Join(b, a)
  {
    OrRules(a.filter, b.filter, c.filter);
    OrRules(a.unreliable, b.unreliable, c.unreliable);
    hide Or;
  }

  /** Every bit of `p` is one of `q`. */
  predicate Within(p: Params, q: Params) {
    Join(q, p) == q
  }

  /** One list member's part in a union. */
  lemma {:induction false} UnionSplit(a: seq<Params>, p: Params, b: seq<Params>)
    ensures Union(a + [p] + b) == Join(Union(a + b), p)
    decreases |b|
  {
    hide Join;
    if |b| == 0 {
      assert a + [p] + b == a + [p] && a + b == a;
      assert (a + [p])[..|a|] == a;
    } else {
      var c, q := b[..|b| - 1], b[|b| - 1];
      UnionSplit(a, p, c);
      assert (a + [p] + b)[..|a + [p] + b| - 1] == a + [p] + c && (a + b)[..|a + b| - 1] == a + c;
      JoinRules(Union(a + c), p, q);
    }
  }

  /** A smaller union that loses bits never has them all again. */
  lemma ShrinksStrictly(was: Params, now: Params, rest: Params, p: Params)
    requires Within(now, was) && now == Join(rest, p)
    ensures Within(rest, was)
    ensures rest == was <==> now == was && Within(p, rest)
  {
    JoinRules(was, rest, p);
    JoinRules(rest, was, p);
    JoinRules(rest, p, p);
    JoinRules(was, rest, rest);
    JoinRules(Join(was, p), rest, rest);
    hide Join;
  }

  /** Whether notification type `t` passes a filter. */
  predicate FilterMatch(params: Params, t: nat)
    requires t < 31
  {
    params.filter & (1 << t) != 0
  }
}
