/** The filters bit by bit: where each one stands in a payload, in a union, and in
    the test a notification is put to. */
module FilterBits {
  import opened Bytes
  import opened Subscription

  /** Bit `k` of a byte, by halving. */
  predicate BitSet(b: byte, k: nat)
    decreases k
  {
    if k == 0 then b % 2 == 1 else BitSet(b / 2, k - 1)
  }

  /** Bit `t` of a word, counted from the least significant. */
  predicate WordBit(w: bv32, t: nat)
    decreases t
  {
    if t == 0 then w & 1 == 1 else WordBit(w >> 1, t - 1)
  }

  predicate OctetBit(x: bv8, k: nat)
    decreases k
  {
    if k == 0 then x & 1 == 1 else OctetBit(x >> 1, k - 1)
  }

  // ---------------------------------------------------------------
  // Bytes.

  lemma HalfValue(x: bv8)
    ensures Value(x >> 1) == Value(x) / 2
    ensures x & 1 == 1 <==> Value(x) % 2 == 1
  {
  }

  lemma {:induction false} ValueBits(x: bv8, k: nat)
    ensures OctetBit(x, k) <==> BitSet(Value(x), k)
    decreases k
  {
    HalfValue(x);
    hide Value;
    if k > 0 {
      ValueBits(x >> 1, k - 1);
    }
  }

  lemma OctetBits(b: byte, k: nat)
    ensures OctetBit(Octet(b), k) <==> BitSet(b, k)
  {
    hide Octet, Value, OctetBit, BitSet;
    ValueBits(Octet(b), k);
    ValueOfOctet(b);
  }

  // ---------------------------------------------------------------
  // Words.

  function And(a: bv32, b: bv32): bv32 {
    a & b
  }

  function Half(w: bv32): bv32 {
    w >> 1
  }

  predicate Odd(w: bv32) {
    w & 1 == 1
  }

  lemma AndHalves(a: bv32, b: bv32)
    ensures Half(And(a, b)) == And(Half(a), Half(b)) && (Odd(And(a, b)) <==> Odd(a) && Odd(b))
  {
  }

  lemma OrHalves(a: bv32, b: bv32)
    ensures Half(Or(a, b)) == Or(Half(a), Half(b)) && (Odd(Or(a, b)) <==> Odd(a) || Odd(b))
  {
  }

  lemma WordBitUnfolds(w: bv32, t: nat)
    ensures WordBit(w, t) <==> if t == 0 then Odd(w) else WordBit(Half(w), t - 1)
  {
  }

  lemma {:induction false} AndBit(a: bv32, b: bv32, t: nat)
    ensures WordBit(And(a, b), t) <==> WordBit(a, t) && WordBit(b, t)
    decreases t
  {
    hide And, Half, Odd, WordBit;
    WordBitUnfolds(a, t);
    WordBitUnfolds(b, t);
    WordBitUnfolds(And(a, b), t);
    AndHalves(a, b);
    if t > 0 {
      AndBit(Half(a), Half(b), t - 1);
    }
  }

  lemma {:induction false} OrBit(a: bv32, b: bv32, t: nat)
    ensures WordBit(Or(a, b), t) <==> WordBit(a, t) || WordBit(b, t)
    decreases t
  {
    hide Or, Half, Odd, WordBit;
    WordBitUnfolds(a, t);
    WordBitUnfolds(b, t);
    WordBitUnfolds(Or(a, b), t);
    OrHalves(a, b);
    if t > 0 {
      OrBit(Half(a), Half(b), t - 1);
    }
  }

  lemma WideHalves(x: bv8)
    ensures (x as bv32) >> 1 == (x >> 1) as bv32 && ((x as bv32) & 1 == 1 <==> x & 1 == 1)
  {
  }

  lemma {:induction false} WideBit(x: bv8, k: nat)
    ensures WordBit(x as bv32, k) <==> OctetBit(x, k)
    decreases k
  {
    WideHalves(x);
    if k > 0 {
      WideBit(x >> 1, k - 1);
    }
  }

  lemma MaskBits(k: nat)
    requires k < 8
    ensures WordBit(0xff, k)
  {
    hide WordBit;
    if k >= 4 {
      FourDown(0xff, k);
      assert Half(Half(Half(Half(0xff)))) == 0xf;
      FourOnes(0xf, k - 4);
    } else {
      FourOnes(0xff, k);
    }
  }

  lemma FourOnes(m: bv32, k: nat)
    requires k < 4 && m & 0xf == 0xf
    ensures WordBit(m, k)
  {
    hide WordBit;
    assert Odd(m) && Odd(Half(m)) && Odd(Half(Half(m))) && Odd(Half(Half(Half(m))));
    hide Odd, Half;
    WordBitUnfolds(m, k);
    if k > 0 {
      WordBitUnfolds(Half(m), k - 1);
    }
    if k > 1 {
      WordBitUnfolds(Half(Half(m)), k - 2);
    }
    if k > 2 {
      WordBitUnfolds(Half(Half(Half(m))), k - 3);
    }
  }

  /** Eight places further down. */
  function Down8(w: bv32): bv32 {
    w >> 8
  }

  lemma EightHalves(w: bv32)
    ensures Half(Half(Half(Half(Half(Half(Half(Half(w)))))))) == Down8(w)
  {
  }

  lemma ByteDown(w: bv32, t: nat)
    requires t >= 8
    ensures WordBit(w, t) <==> WordBit(Down8(w), t - 8)
  {
    hide Half, Odd, WordBit, Down8;
    EightHalves(w);
    FourDown(w, t);
    FourDown(Half(Half(Half(Half(w)))), t - 4);
  }

  lemma FourDown(w: bv32, t: nat)
    requires t >= 4
    ensures WordBit(w, t) <==> WordBit(Half(Half(Half(Half(w)))), t - 4)
  {
    hide Half, Odd, WordBit;
    WordBitUnfolds(w, t);
    WordBitUnfolds(Half(w), t - 1);
    WordBitUnfolds(Half(Half(w)), t - 2);
    WordBitUnfolds(Half(Half(Half(w))), t - 3);
  }

  lemma TheBytes(b3: byte, b2: byte, b1: byte, b0: byte)
    ensures var w := BytesWord(b3, b2, b1, b0);
            && And(w, 0xff) == Wide(b0) && And(Down8(w), 0xff) == Wide(b1)
            && And(Down8(Down8(w)), 0xff) == Wide(b2) && And(Down8(Down8(Down8(w))), 0xff) == Wide(b3)
  {
    hide Octet;
  }

  lemma LowByteBit(w: bv32, b: byte, k: nat)
    requires And(w, 0xff) == Wide(b) && k < 8
    ensures WordBit(w, k) <==> BitSet(b, k)
  {
    hide And, WordBit, BitSet, OctetBit, Octet;
    AndBit(w, 0xff, k);
    MaskBits(k);
    WideBit(Octet(b), k);
    OctetBits(b, k);
  }

  /** Bit `t` of a word is bit t % 8 of its byte t / 8, counted from the end. */
  lemma BytesWordBit(b3: byte, b2: byte, b1: byte, b0: byte, t: nat)
    requires t < 32
    ensures WordBit(BytesWord(b3, b2, b1, b0), t) <==> BitSet([b3, b2, b1, b0][3 - t / 8], t % 8)
  {
    hide And, WordBit, BitSet, Wide, BytesWord, Down8;
    var w := BytesWord(b3, b2, b1, b0);
    TheBytes(b3, b2, b1, b0);
    if t < 8 {
      LowByteBit(w, b0, t);
    } else {
      ByteDown(w, t);
      if t < 16 {
        LowByteBit(Down8(w), b1, t - 8);
      } else {
        ByteDown(Down8(w), t - 8);
        if t < 24 {
          LowByteBit(Down8(Down8(w)), b2, t - 16);
        } else {
          ByteDown(Down8(Down8(w)), t - 16);
          LowByteBit(Down8(Down8(Down8(w))), b3, t - 24);
        }
      }
    }
  }

  /** Where the bits of a SUBSCRIBE payload stand: the filter in bytes 0 to 3 and
      the unreliable filter in bytes 4 to 7, each highest byte first. */
  lemma PayloadBits(data: ByteVector, t: nat)
    requires |data| >= 8 && t < 32
    ensures WordBit(VectorToFilter(data).filter, t) <==> BitSet(data[3 - t / 8], t % 8)
    ensures WordBit(VectorToFilter(data).unreliable, t) <==> BitSet(data[7 - t / 8], t % 8)
  {
    hide WordBit, BitSet, BytesWord;
    BytesWordBit(data[0], data[1], data[2], data[3], t);
    BytesWordBit(data[4], data[5], data[6], data[7], t);
  }

  /** A payload of four to seven bytes has no unreliable filter. */
  lemma ShortPayloadBits(data: ByteVector, t: nat)
    requires 4 <= |data| < 8 && t < 32
    ensures WordBit(VectorToFilter(data).filter, t) <==> BitSet(data[3 - t / 8], t % 8)
    ensures VectorToFilter(data).unreliable == 0
  {
    hide WordBit, BitSet, BytesWord;
    BytesWordBit(data[0], data[1], data[2], data[3], t);
  }

  // ---------------------------------------------------------------
  // Unions.

  lemma NoBits(t: nat)
    ensures !WordBit(0, t)
    decreases t
  {
    if t > 0 {
      NoBits(t - 1);
    }
  }

  /** A bit is in a union exactly if it is in one of its members. */
  lemma {:induction false} UnionBits(ps: seq<Params>, t: nat)
    ensures WordBit(Union(ps).filter, t) <==> exists i :: 0 <= i < |ps| && WordBit(ps[i].filter, t)
    ensures WordBit(Union(ps).unreliable, t) <==> exists i :: 0 <= i < |ps| && WordBit(ps[i].unreliable, t)
  {
    hide Or, WordBit;
    NoBits(t);
    if |ps| > 0 {
      var rest, p := ps[..|ps| - 1], ps[|ps| - 1];
      UnionBits(rest, t);
      OrBit(Union(rest).filter, p.filter, t);
      OrBit(Union(rest).unreliable, p.unreliable, t);
      assert forall i :: 0 <= i < |rest| ==> rest[i] == ps[i];
    }
  }

  // ---------------------------------------------------------------
  // The test of a notification.

  predicate Masked(w: bv32, m: bv32) {
    w & m != 0
  }

  function OneAt(t: nat): bv32
    requires t < 32
  {
    1 << t
  }

  function Double(m: bv32): bv32 {
    m << 1
  }

  lemma OneUp(t: nat)
    requires 0 < t < 32
    ensures OneAt(t) == Double(OneAt(t - 1))
  {
  }

  lemma OneAtZero(w: bv32)
    ensures Masked(w, OneAt(0)) <==> Odd(w)
  {
  }

  lemma MaskHalves(w: bv32, m: bv32)
    ensures Masked(w, Double(m)) <==> Masked(Half(w), m)
  {
  }

  lemma {:induction false} MaskedBit(w: bv32, t: nat)
    requires t < 32
    ensures Masked(w, OneAt(t)) <==> WordBit(w, t)
    decreases t
  {
    hide Masked, OneAt, Double, Half, Odd, WordBit;
    WordBitUnfolds(w, t);
    if t == 0 {
      OneAtZero(w);
    } else {
      OneUp(t);
      MaskHalves(w, OneAt(t - 1));
      MaskedBit(Half(w), t - 1);
    }
  }

  lemma MatchIsMasked(p: Params, t: nat)
    requires t < 31
    ensures FilterMatch(p, t) <==> Masked(p.filter, OneAt(t))
  {
  }

  /** Type `t` passes a filter exactly if bit `t` of its first word is set. */
  lemma MatchBit(p: Params, t: nat)
    requires t < 31
    ensures FilterMatch(p, t) <==> WordBit(p.filter, t)
  {
    hide FilterMatch, Masked, OneAt, WordBit;
    MatchIsMasked(p, t);
    MaskedBit(p.filter, t);
  }

  /** So a subscriber gets type `t` exactly if bit t % 8 of byte 3 - t / 8 of its
      SUBSCRIBE payload is set. */
  lemma MatchPayloadBit(data: ByteVector, t: nat)
    requires |data| >= 8 && t < 31
    ensures FilterMatch(VectorToFilter(data), t) <==> BitSet(data[3 - t / 8], t % 8)
  {
    hide FilterMatch, WordBit, BitSet, VectorToFilter;
    MatchBit(VectorToFilter(data), t);
    PayloadBits(data, t);
  }
}
