/** Reading an authentication token written in hexadecimal. */
module HexToBin {
  import opened Bytes

  // ---------------------------------------------------------------
  // Characters.

  const NUL: byte := 0
  const DASH: byte := 45
  const COLON: byte := 58

  predicate IsSpace(c: byte) {
    9 <= c <= 13 || c == 32
  }

  predicate IsDigit(c: byte) {
    48 <= c <= 57
  }

  predicate IsXDigit(c: byte) {
    IsDigit(c) || 65 <= c <= 70 || 97 <= c <= 102
  }

  type digit = d: int | 0 <= d < 16

  function DigitValue(c: byte): digit
    requires IsXDigit(c)
  {
    if IsDigit(c) then c - 48 else if c >= 97 then c - 97 + 10 else c - 65 + 10
  }

  predicate Ends(c: byte) {
    c == NUL || IsSpace(c)
  }

  predicate Separates(c: byte) {
    c == DASH || c == COLON
  }

  // ---------------------------------------------------------------
  // What a text spells: runs of digits, single separators between them, and an
  // end. A run is read in pairs; an odd last digit is a byte of its own.

  /** The bytes of a run so far, the last one possibly of one digit only. */
  datatype Run = Run(bytes: ByteVector, half: bool) {
    predicate Valid() {
      half ==> |bytes| > 0 && bytes[|bytes| - 1] < 16
    }

    function Extend(d: digit): (r: Run)
      requires Valid()
      ensures r.Valid() && |r.bytes| > 0
      ensures |r.bytes| == if half then |bytes| else |bytes| + 1
    {
      if half then Run(bytes[..|bytes| - 1] + [PairByte(bytes[|bytes| - 1], d)], false)
      else Run(bytes + [PairByte(0, d)], true)
    }
  }

  const NO_DIGITS: Run := Run([], false)

  function PairByte(high: digit, low: digit): byte {
    (high as int) * 16 + low
  }

  function Prepend(done: ByteVector, rest: Option<ByteVector>): Option<ByteVector> {
    match rest
    case None => None
    case Some(bytes) => Some(done + bytes)
  }

  /** `run` holds what has been read since the last separator. */
  function Runs(text: ByteVector, run: Run): Option<ByteVector>
    requires run.Valid()
    decreases |text|
  {
    if |text| == 0 then None
    else if IsXDigit(text[0]) then Runs(text[1..], run.Extend(DigitValue(text[0])))
    else if run.bytes == [] then None
    else if Ends(text[0]) then Some(run.bytes)
    else if Separates(text[0]) then Prepend(run.bytes, Runs(text[1..], NO_DIGITS))
    else None
  }

  lemma PrependNothing(rest: Option<ByteVector>)
    ensures Prepend([], rest) == rest
  {
    if rest.Some? {
      assert [] + rest.value == rest.value;
    }
  }

  lemma PrependTwice(a: ByteVector, b: ByteVector, rest: Option<ByteVector>)
    ensures Prepend(a, Prepend(b, rest)) == Prepend(a + b, rest)
  {
    if rest.Some? {
      assert a + (b + rest.value) == (a + b) + rest.value;
    }
  }

  function SkipSpaces(text: ByteVector): ByteVector {
    if |text| > 0 && IsSpace(text[0]) then SkipSpaces(text[1..]) else text
  }

  function Spelled(text: ByteVector): Option<ByteVector> {
    Runs(SkipSpaces(text), NO_DIGITS)
  }

  /** Some bytes, then zeros up to a length. */
  ghost predicate Padded(s: ByteVector, bytes: ByteVector) {
    |bytes| <= |s| && forall i :: 0 <= i < |s| ==> s[i] == if i < |bytes| then bytes[i] else 0
  }

  lemma {:induction false} RunsSpellAll(text: ByteVector, run: Run)
    requires run.Valid()
    ensures var r := Runs(text, run);
            r.Some? ==> |r.value| >= |run.bytes|
    decreases |text|
  {
    if |text| > 0 && IsXDigit(text[0]) {
      RunsSpellAll(text[1..], run.Extend(DigitValue(text[0])));
    }
  }

  /** Between two characters: `done` holds the bytes of the finished runs and
      `run` those of the run being read, in front of position `p`. */
  ghost predicate Reading(str: ByteVector, p: nat, out: ByteVector, done: ByteVector, run: Run,
                          idx: nat, nn: nat, wasDigit: bool) {
    && run.Valid() && p < |str| && NUL in str[p..]
    && Spelled(str) == Prepend(done, Runs(str[p..], run))
    && wasDigit == (run.bytes != [])
    && idx == |done| + (if run.bytes == [] then 0 else |run.bytes| - 1)
    && nn == (if run.bytes == [] then 0 else if run.half then 1 else 2)
    && Padded(out, done + run.bytes)
  }

  /** The bytes a NUL-terminated text spells, if they fit; otherwise nothing.
      Reading stops by the NUL and nothing is written at or past `len`. */
  method HexToBin(str: ByteVector, outBuf: array<byte>, len: nat) returns (n: nat)
    requires NUL in str && len <= outBuf.Length
    modifies outBuf
    ensures var s := Spelled(str);
            n == if s.Some? && |s.value| <= len then |s.value| else 0
    ensures n > 0 ==> Padded(outBuf[..len], Spelled(str).value)
    ensures outBuf[len..] == old(outBuf[len..])
  {
    hide Reading, Spelled, Runs, SkipSpaces, Padded, IsXDigit, DigitValue, Prepend, Run.Extend, Run.Valid;
    var idx: nat, nn := 0, 0;
    var isOk, wasDigit := true, false;
    ClearPrefix(outBuf, len);
    var p := AfterSpaces(str);
    StartReading(str, p, outBuf[..len]);
    ghost var done: ByteVector, run := [], NO_DIGITS;
    var ended := false;
    while isOk && !ended
      invariant outBuf[len..] == old(outBuf[len..])
      invariant p <= |str|
      invariant isOk && !ended ==> Reading(str, p, outBuf[..len], done, run, idx, nn, wasDigit)
      invariant ended ==> isOk && Spelled(str) == Some(done) && idx == |done| && Padded(outBuf[..len], done)
      invariant !isOk ==> Spelled(str) == None || |Spelled(str).value| > len
      decreases isOk && !ended, |str| - p
    {
      InText(str, p, outBuf[..len], done, run, idx, nn, wasDigit);
      var c := str[p];
      var isDigit := IsXDigit(c);
      var goes := (wasDigit && (c == NUL || IsSpace(c) || c == DASH || c == COLON)) || isDigit;
      StepOutcome(str, p, outBuf[..len], done, run, idx, nn, wasDigit);
      p := p + 1;
      isOk := goes;
      wasDigit := isDigit;
      if isOk {
        if !isDigit || nn == 2 {
          idx := idx + 1;
          nn := 0;
        }
        if isDigit {
          isOk := idx < len;
          if isOk {
            var d := DigitValue(c);
            ghost var was := outBuf[..len];
            outBuf[idx] := ((outBuf[idx] as int) * 16 + d) % 256;
            nn := nn + 1;
            assert outBuf[..len] == was[idx := ((was[idx] as int) * 16 + d) % 256];
            run := run.Extend(d);
          }
        } else {
          if c != DASH && c != COLON {
            ended := true;
          }
          done := done + run.bytes;
          run := NO_DIGITS;
        }
      }
    }
    if !isOk {
      idx := 0;
    }
    n := idx;
    PaddedFits(outBuf[..len], done);
  }

  method AfterSpaces(str: ByteVector) returns (p: nat)
    requires NUL in str
    ensures p < |str| && NUL in str[p..] && SkipSpaces(str) == str[p..]
  {
    p := 0;
    assert str[p..] == str;
    while IsSpace(str[p])
      invariant p < |str| && NUL in str[p..]
      invariant SkipSpaces(str) == SkipSpaces(str[p..])
      decreases |str| - p
    {
      assert str[p..] == [str[p]] + str[p + 1..];
      p := p + 1;
    }
  }

  lemma StartReading(str: ByteVector, p: nat, out: ByteVector)
    requires p < |str| && NUL in str[p..] && SkipSpaces(str) == str[p..] && Padded(out, [])
    ensures Reading(str, p, out, [], NO_DIGITS, 0, 0, false)
  {
    hide Runs, SkipSpaces, Padded;
    PrependNothing(Runs(str[p..], NO_DIGITS));
    assert [] + NO_DIGITS.bytes == [];
  }

  lemma PaddedFits(s: ByteVector, bytes: ByteVector)
    ensures Padded(s, bytes) ==> |bytes| <= |s|
  {
  }

  /** The next character is there, and only the NUL can be the last one. */
  lemma InText(str: ByteVector, p: nat, out: ByteVector, done: ByteVector, run: Run,
               idx: nat, nn: nat, wasDigit: bool)
    requires Reading(str, p, out, done, run, idx, nn, wasDigit)
    ensures p < |str| && run.Valid()
  {
    hide Runs, Spelled, Prepend, Padded;
  }

  /** What reading one character comes to: a digit is stored or does not fit,
      a separator or an end closes a run, anything else spells nothing. */
  lemma StepOutcome(str: ByteVector, p: nat, out: ByteVector, done: ByteVector, run: Run,
                    idx: nat, nn: nat, wasDigit: bool)
    requires Reading(str, p, out, done, run, idx, nn, wasDigit) && p < |str| && run.Valid()
    ensures var c := str[p];
            var at := if nn == 2 then idx + 1 else idx;
            && (IsXDigit(c) && at < |out| ==>
                  var d := DigitValue(c);
                  Reading(str, p + 1, out[at := ((out[at] as int) * 16 + d) % 256], done, run.Extend(d),
                          at, (if nn == 2 then 0 else nn) + 1, true))
            && (IsXDigit(c) && at >= |out| ==> Spelled(str) == None || |Spelled(str).value| > |out|)
            && (!IsXDigit(c) && wasDigit && Separates(c) ==>
                  Reading(str, p + 1, out, done + run.bytes, NO_DIGITS, idx + 1, 0, false))
            && (!IsXDigit(c) && wasDigit && Ends(c) ==>
                  Spelled(str) == Some(done + run.bytes) && idx + 1 == |done + run.bytes|
                  && Padded(out, done + run.bytes))
            && (!IsXDigit(c) && !(wasDigit && (Ends(c) || Separates(c))) ==> Spelled(str) == None)
  {
    hide Runs, Spelled, Padded, DigitValue, IsXDigit;
    TextUnfolds(str, p, run);
    var c := str[p];
    if IsXDigit(c) {
      DigitOutcome(str, p, out, done, run, idx, nn, wasDigit);
    } else {
      PrependTwice(done, run.bytes, Runs(str[p + 1..], NO_DIGITS));
      assert (done + run.bytes) + NO_DIGITS.bytes == done + run.bytes;
    }
  }

  lemma DigitOutcome(str: ByteVector, p: nat, out: ByteVector, done: ByteVector, run: Run,
                     idx: nat, nn: nat, wasDigit: bool)
    requires Reading(str, p, out, done, run, idx, nn, wasDigit) && IsXDigit(str[p])
    ensures var d := DigitValue(str[p]);
            var at := if nn == 2 then idx + 1 else idx;
            && (at < |out| ==>
                  Reading(str, p + 1, out[at := ((out[at] as int) * 16 + d) % 256], done, run.Extend(d),
                          at, (if nn == 2 then 0 else nn) + 1, true))
            && (at >= |out| ==> Spelled(str) == None || |Spelled(str).value| > |out|)
  {
    hide Runs, Spelled, Padded, DigitValue, IsXDigit;
    TextUnfolds(str, p, run);
    var d := DigitValue(str[p]);
    var at := if nn == 2 then idx + 1 else idx;
    if at < |out| {
      DigitStored(out, out[at := ((out[at] as int) * 16 + d) % 256], done, run, d, at);
    } else {
      RunsSpellAll(str[p + 1..], run.Extend(d));
      PaddedFits(out, done + run.bytes);
    }
  }

  /** One character of the text. */
  lemma TextUnfolds(str: ByteVector, p: nat, run: Run)
    requires p < |str| && NUL in str[p..] && run.Valid()
    ensures Runs(str[p..], run) ==
            (var c := str[p];
             if IsXDigit(c) then Runs(str[p + 1..], run.Extend(DigitValue(c)))
             else if run.bytes == [] then None
             else if Ends(c) then Some(run.bytes)
             else if Separates(c) then Prepend(run.bytes, Runs(str[p + 1..], NO_DIGITS))
             else None)
    ensures IsXDigit(str[p]) || Separates(str[p]) ==> p + 1 < |str| && NUL in str[p + 1..]
  {
    hide DigitValue;
    assert str[p..][0] == str[p] && str[p..][1..] == str[p + 1..];
    assert str[p..] == [str[p]] + str[p + 1..];
  }

  method ClearPrefix(outBuf: array<byte>, len: nat)
    requires len <= outBuf.Length
    modifies outBuf
    ensures Padded(outBuf[..len], []) && outBuf[len..] == old(outBuf[len..])
  {
    for i := 0 to len
      invariant forall j :: 0 <= j < i ==> outBuf[j] == 0
      invariant outBuf[len..] == old(outBuf[len..])
    {
      outBuf[i] := 0;
    }
  }

  /** Storing a digit extends the run by a byte or completes its last one. */
  lemma DigitStored(was: ByteVector, now: ByteVector, done: ByteVector, run: Run, d: digit, idx: nat)
    requires run.Valid() && Padded(was, done + run.bytes) && idx < |was|
    requires idx == |done| + |run.bytes| - (if run.half then 1 else 0)
    requires now == was[idx := ((was[idx] as int) * 16 + d) % 256]
    ensures Padded(now, done + run.Extend(d).bytes)
  {
    var q := done + run.Extend(d).bytes;
    assert forall i :: 0 <= i < idx ==> q[i] == (done + run.bytes)[i];
    assert run.half ==> was[idx] == run.bytes[|run.bytes| - 1];
  }

  // ---------------------------------------------------------------
  // The texts that spell something, character by character.

  /** The characters: white space is the tab to the carriage return and the
      blank, a digit is one of 0-9, A-F and a-f, and a run is closed by a dash or
      a colon, or ended by white space or the NUL. */
  lemma CharClasses(c: byte)
    ensures IsSpace(c) <==> c in {9, 10, 11, 12, 13, ' ' as int}
    ensures IsXDigit(c) <==> '0' as int <= c <= '9' as int || 'A' as int <= c <= 'F' as int || 'a' as int <= c <= 'f' as int
    ensures Separates(c) <==> c == '-' as int || c == ':' as int
    ensures Ends(c) <==> c == 0 || IsSpace(c)
  {
  }

  lemma DigitValues(c: byte)
    ensures '0' as int <= c <= '9' as int ==> DigitValue(c) == c - '0' as int
    ensures 'A' as int <= c <= 'F' as int ==> DigitValue(c) == c - 'A' as int + 10
    ensures 'a' as int <= c <= 'f' as int ==> DigitValue(c) == c - 'a' as int + 10
  {
  }

  /** The bytes of a run of digits: pairs, and an odd last digit by itself. */
  function Pairs(ds: seq<digit>): (r: ByteVector)
    ensures |r| == (|ds| + 1) / 2
  {
    seq((|ds| + 1) / 2, i requires 0 <= i < (|ds| + 1) / 2 =>
      (if 2 * i + 1 < |ds| then ds[2 * i] as int * 16 + ds[2 * i + 1] as int else ds[2 * i] as int))
  }

  /** The digits read so far as a run. */
  function RunOf(ds: seq<digit>): (r: Run)
    ensures r.Valid()
  {
    var r := Run(Pairs(ds), |ds| % 2 == 1);
    assert r.half ==> 2 * (|r.bytes| - 1) + 1 == |ds|;
    r
  }

  lemma RunOfExtends(ds: seq<digit>, d: digit)
    ensures RunOf(ds).Extend(d) == RunOf(ds + [d])
  {
    var a, b := RunOf(ds).Extend(d).bytes, Pairs(ds + [d]);
    assert |a| == |b|;
    forall i | 0 <= i < |a|
      ensures a[i] == b[i]
    {
    }
  }

  function Values(text: ByteVector): (ds: seq<digit>)
    requires forall i :: 0 <= i < |text| ==> IsXDigit(text[i])
    ensures |ds| == |text|
  {
    seq(|text|, i requires 0 <= i < |text| => DigitValue(text[i]))
  }

  lemma {:induction false} ReadRun(ds: seq<digit>, text: ByteVector, more: ByteVector)
    requires forall i :: 0 <= i < |text| ==> IsXDigit(text[i])
    ensures Runs(text + more, RunOf(ds)) == Runs(more, RunOf(ds + Values(text)))
    decreases |text|
  {
    hide Runs, RunOf, IsXDigit, DigitValue, Run.Extend;
    if |text| == 0 {
      assert text + more == more && ds + Values(text) == ds;
    } else {
      var c, rest := text[0], text[1..];
      assert text + more == [c] + (rest + more);
      RunsDigit(c, rest + more, RunOf(ds));
      RunOfExtends(ds, DigitValue(c));
      ReadRun(ds + [DigitValue(c)], rest, more);
      assert ds + [DigitValue(c)] + Values(rest) == ds + Values(text);
    }
  }

  /** What a text spells, run by run. Digits spell their pairs; the character
      behind them ends the text, or is one dash or colon in front of more, or
      makes the text spell nothing. No digits spell nothing. */
  lemma SpellsRun(text: ByteVector, c: byte, more: ByteVector)
    requires forall i :: 0 <= i < |text| ==> IsXDigit(text[i])
    requires !IsXDigit(c)
    ensures Runs(text + ([c] + more), NO_DIGITS) ==
            if |text| == 0 then None
            else if c == 0 || c == 32 || 9 <= c <= 13 then Some(Pairs(Values(text)))
            else if c == 45 || c == 58 then Prepend(Pairs(Values(text)), Runs(more, NO_DIGITS))
            else None
  {
    hide IsXDigit, DigitValue, Run.Extend, Pairs;
    var none: seq<digit> := [];
    assert RunOf(none) == NO_DIGITS by { assert |Pairs(none)| == 0; }
    ReadRun(none, text, [c] + more);
    assert none + Values(text) == Values(text);
    assert ([c] + more)[0] == c && ([c] + more)[1..] == more;
  }

  // ---------------------------------------------------------------
  // Round trip.

  datatype Separator = Nothing | Dash | Colon

  function SeparatorText(s: Separator): ByteVector {
    match s
    case Nothing => []
    case Dash => [DASH]
    case Colon => [COLON]
  }

  function DigitChar(d: digit, upper: bool): byte
  {
    if d < 10 then 48 + d as int else if upper then 55 + d as int else 87 + d as int
  }

  function PrintByte(b: byte, upper: bool): ByteVector {
    [DigitChar(b / 16, upper), DigitChar(b % 16, upper)]
  }

  /** Two digits for each byte; `seps[i]` follows byte `i`, except the last. */
  function Print(bytes: ByteVector, seps: seq<Separator>, upper: bool): ByteVector
    requires |seps| == |bytes|
  {
    if |bytes| == 0 then []
    else if |bytes| == 1 then PrintByte(bytes[0], upper)
    else PrintByte(bytes[0], upper) + SeparatorText(seps[0]) + Print(bytes[1..], seps[1..], upper)
  }

  lemma DigitCharReads(d: digit, upper: bool)
    ensures IsXDigit(DigitChar(d, upper)) && DigitValue(DigitChar(d, upper)) == d
  {
  }

  /** A run of whole bytes. */
  predicate Whole(run: Run) {
    !run.half
  }

  /** A digit in front. */
  lemma RunsDigit(c: byte, rest: ByteVector, run: Run)
    requires IsXDigit(c) && run.Valid()
    ensures Runs([c] + rest, run) == Runs(rest, run.Extend(DigitValue(c)))
  {
    hide DigitValue, Run.Extend, IsXDigit;
    assert ([c] + rest)[0] == c && ([c] + rest)[1..] == rest;
  }

  /** Something other than a digit in front, after a run. */
  lemma RunsMark(c: byte, rest: ByteVector, run: Run)
    requires Ends(c) || Separates(c)
    requires run.Valid() && run.bytes != []
    ensures Runs([c] + rest, run) ==
            if Ends(c) then Some(run.bytes) else Prepend(run.bytes, Runs(rest, NO_DIGITS))
  {
    assert ([c] + rest)[0] == c && ([c] + rest)[1..] == rest;
  }

  lemma ExtendTwice(run: Run, high: digit, low: digit)
    requires Whole(run)
    ensures run.Extend(high).Extend(low) == Run(run.bytes + [PairByte(high, low)], false)
  {
    assert run.Extend(high).bytes == run.bytes + [PairByte(0, high)];
  }

  lemma ReadTwoDigits(b: byte, upper: bool, rest: ByteVector, run: Run)
    requires Whole(run)
    ensures Runs(PrintByte(b, upper) + rest, run) == Runs(rest, Run(run.bytes + [b], false))
  {
    hide Runs, DigitChar, DigitValue, IsXDigit, Run.Extend;
    var high: digit, low: digit := b / 16, b % 16;
    DigitCharReads(high, upper);
    DigitCharReads(low, upper);
    assert PrintByte(b, upper) + rest == [DigitChar(high, upper)] + ([DigitChar(low, upper)] + rest);
    RunsDigit(DigitChar(high, upper), [DigitChar(low, upper)] + rest, run);
    RunsDigit(DigitChar(low, upper), rest, run.Extend(high));
    ExtendTwice(run, high, low);
    assert PairByte(high, low) == b;
  }

  lemma {:induction false} ReadPrinted(bytes: ByteVector, seps: seq<Separator>, upper: bool, end: byte, tail: ByteVector, run: Run)
    requires |bytes| == |seps| > 0 && Ends(end) && Whole(run)
    ensures Runs(Print(bytes, seps, upper) + ([end] + tail), run) == Some(run.bytes + bytes)
    decreases |bytes|
  {
    hide Runs, PrintByte, Run.Extend;
    var b := bytes[0];
    var next := Run(run.bytes + [b], false);
    var stop := [end] + tail;
    assert next.bytes + bytes[1..] == run.bytes + bytes;
    if |bytes| == 1 {
      ReadTwoDigits(b, upper, stop, run);
      RunsMark(end, tail, next);
      assert bytes == [b];
    } else {
      var more := Print(bytes[1..], seps[1..], upper) + stop;
      var mark := SeparatorText(seps[0]);
      assert Print(bytes, seps, upper) + stop == PrintByte(b, upper) + (mark + more);
      ReadTwoDigits(b, upper, mark + more, run);
      if seps[0] == Nothing {
        assert mark + more == more;
        ReadPrinted(bytes[1..], seps[1..], upper, end, tail, next);
      } else {
        ReadPrinted(bytes[1..], seps[1..], upper, end, tail, NO_DIGITS);
        RunsMark(mark[0], more, next);
        assert mark == [mark[0]];
        assert [] + bytes[1..] == bytes[1..];
      }
    }
  }

  /** Printing in hexadecimal, with any mix of separators, any white space
      before and anything after the end, is undone. */
  lemma PrintedSpells(spaces: ByteVector, bytes: ByteVector, seps: seq<Separator>, upper: bool, end: byte, tail: ByteVector)
    requires |bytes| == |seps| > 0 && Ends(end)
    requires forall i :: 0 <= i < |spaces| ==> IsSpace(spaces[i])
    ensures Spelled(spaces + (Print(bytes, seps, upper) + ([end] + tail))) == Some(bytes)
  {
    var text := Print(bytes, seps, upper) + ([end] + tail);
    ReadPrinted(bytes, seps, upper, end, tail, NO_DIGITS);
    assert [] + bytes == bytes;
    StartsWithDigit(bytes, seps, upper);
    assert text[0] == Print(bytes, seps, upper)[0];
    SkipAll(spaces, text);
  }

  lemma StartsWithDigit(bytes: ByteVector, seps: seq<Separator>, upper: bool)
    requires |bytes| == |seps| > 0
    ensures |Print(bytes, seps, upper)| > 0 && !IsSpace(Print(bytes, seps, upper)[0])
  {
    assert Print(bytes, seps, upper)[0] == DigitChar(bytes[0] / 16, upper);
  }

  lemma {:induction false} SkipAll(spaces: ByteVector, text: ByteVector)
    requires |text| > 0 && !IsSpace(text[0])
    requires forall i :: 0 <= i < |spaces| ==> IsSpace(spaces[i])
    ensures SkipSpaces(spaces + text) == text
  {
    if |spaces| == 0 {
      assert spaces + text == text;
    } else {
      assert (spaces + text)[1..] == spaces[1..] + text;
      SkipAll(spaces[1..], text);
    }
  }
}
