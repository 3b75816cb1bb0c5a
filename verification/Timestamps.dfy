// vs_write_packet (videostreamer.c): repair of a packet's timestamps against the last
// dts written, rescaling between time bases, and what a whole run of packets emits.

module Timestamps {

  import opened Wrappers

  const INT64_MAX: int := 0x7FFF_FFFF_FFFF_FFFF
  const INT64_MIN: int := -0x8000_0000_0000_0000
  const NOPTS: int := INT64_MIN  // AV_NOPTS_VALUE

  // An AVRational time base num/den: two positive C ints.
  datatype Base = Base(num: int, den: int)

  predicate Positive(b: Base) {
    0 < b.num <= 0x7FFF_FFFF && 0 < b.den <= 0x7FFF_FFFF
  }

  // a * b / c rounded to nearest, halves away from zero (AV_ROUND_NEAR_INF).
  function Round(a: int, b: int, c: int): int
    requires b > 0 && c > 0
  {
    if a >= 0 then (a * b + c / 2) / c else -((-a * b + c / 2) / c)
  }

  // From one base to another; the extremes pass through (AV_ROUND_PASS_MINMAX).
  function Rescale(a: int, from: Base, to: Base): int
    requires Positive(from) && Positive(to)
  {
    if a == INT64_MIN || a == INT64_MAX then a
    else Round(a, Up(from, to), Down(from, to))
  }

  function Up(from: Base, to: Base): (r: int)
    requires Positive(from) && Positive(to)
    ensures 0 < r < INT64_MAX
  {
    Product(from.num, to.den);
    from.num * to.den
  }

  function Down(from: Base, to: Base): (r: int)
    requires Positive(from) && Positive(to)
    ensures 0 < r < INT64_MAX
  {
    Product(to.num, from.den);
    to.num * from.den
  }

  lemma {:induction false} Product(x: int, y: int)
    requires 0 < x <= 0x7FFF_FFFF && 0 < y <= 0x7FFF_FFFF
    ensures 0 < x * y < INT64_MAX
  {
    assert x * y <= x * 0x7FFF_FFFF;
  }

  // av_rescale_q on a duration: no pass-through, INT64_MIN is clamped before negation.
  function RescaleDuration(a: int, from: Base, to: Base): int
    requires Positive(from) && Positive(to)
  {
    Round(if a < -INT64_MAX then -INT64_MAX else a, Up(from, to), Down(from, to))
  }

  // ---------- one packet ----------

  datatype Stamp = Stamp(pts: int, dts: int)

  predicate Fires(last: int, s: Stamp) {
    last != NOPTS && (s.dts == NOPTS || s.dts <= last)
  }

  function Repaired(last: int, s: Stamp): Stamp {
    if !Fires(last, s) then s
    else
      var next := last + 1;
      var pts := if s.pts != NOPTS && s.pts >= s.dts && s.pts < next then next else s.pts;
      Stamp(if pts == NOPTS then next else pts, next)
  }

  function Emitted(last: int, s: Stamp, from: Base, to: Base): Stamp
    requires Positive(from) && Positive(to)
  {
    var r := Repaired(last, s);
    Stamp(if r.pts == NOPTS then 0 else Rescale(r.pts, from, to),
          if r.dts == NOPTS then 0 else Rescale(r.dts, from, to))
  }

  ghost predicate IsInt64(x: int) {
    INT64_MIN <= x <= INT64_MAX
  }

  // Nothing in the call leaves the int64_t range.
  ghost predicate NoOverflow(last: int, s: Stamp, from: Base, to: Base)
    requires Positive(from) && Positive(to)
  {
    && IsInt64(last) && IsInt64(s.pts) && IsInt64(s.dts)
    && (Fires(last, s) ==> last < INT64_MAX)
    && IsInt64(Emitted(last, s, from, to).pts) && IsInt64(Emitted(last, s, from, to).dts)
  }

  class Packet {
    var pts: int
    var dts: int
    var duration: int
    var pos: int
    var streamIndex: nat

    constructor (pts: int, dts: int, duration: int, pos: int, streamIndex: nat)
      ensures this.pts == pts && this.dts == dts && this.duration == duration
      ensures this.pos == pos && this.streamIndex == streamIndex
    {
      this.pts, this.dts, this.duration, this.pos, this.streamIndex := pts, dts, duration, pos, streamIndex;
    }

    ghost function Stamps(): Stamp
      reads this
    {
      Stamp(pts, dts)
    }
  }

  // The streams of the input; a missing one is a NULL pointer in the table.
  class Input {
    const streams: seq<Option<Base>>

    constructor (streams: seq<Option<Base>>)
      ensures this.streams == streams
    {
      this.streams := streams;
    }
  }

  class Output {
    const stream: Option<Base>  // streams[0]
    var lastDts: int

    // The last step of vs_open_output.
    constructor (stream: Option<Base>)
      ensures this.stream == stream && lastDts == NOPTS
    {
      this.stream := stream;
      lastDts := NOPTS;
    }
  }

  // Every stream has a time base ffmpeg could have given it, and the packet names a slot
  // of the input's table.
  ghost predicate Given(input: Input?, output: Output?, pkt: Packet?)
    reads input, output, pkt
  {
    && (input != null && pkt != null ==> pkt.streamIndex < |input.streams|)
    && (input != null ==> forall i :: 0 <= i < |input.streams| && input.streams[i].Some? ==>
                            Positive(input.streams[i].value))
    && (output != null && output.stream.Some? ==> Positive(output.stream.value))
  }

  // vs_write_packet; `written` is av_write_frame's result.
  method WritePacket(input: Input?, output: Output?, pkt: Packet?, written: bool) returns (r: int)
    requires Given(input, output, pkt)
    modifies pkt, output
    ensures input == null || output == null || pkt == null || old(input.streams[pkt.streamIndex]).None? ==>
              r == -1 && (pkt != null ==> unchanged(pkt)) && (output != null ==> unchanged(output))
    ensures input != null && output != null && pkt != null && old(input.streams[pkt.streamIndex]).Some? ==>
              && pkt.streamIndex == 0
              && (output.stream.None? ==> r == -1 && pkt.Stamps() == old(pkt.Stamps()) && unchanged(output))
    ensures input != null && output != null && pkt != null && old(input.streams[pkt.streamIndex]).Some?
            && output.stream.Some? ==>
              var from, to := old(input.streams[pkt.streamIndex]).value, output.stream.value;
              NoOverflow(old(output.lastDts), old(pkt.Stamps()), from, to)
              && IsInt64(old(pkt.duration)) && IsInt64(RescaleDuration(old(pkt.duration), from, to)) ==>
                && r == (if written then 1 else -1)
                && pkt.Stamps() == Emitted(old(output.lastDts), old(pkt.Stamps()), from, to)
                && pkt.duration == RescaleDuration(old(pkt.duration), from, to)
                && pkt.pos == -1 && output.lastDts == pkt.dts
  {
    if input == null || output == null || pkt == null { return -1; }
    var inStream := input.streams[pkt.streamIndex];
    if inStream.None? { return -1; }
    if pkt.streamIndex != 0 { pkt.streamIndex := 0; }
    if output.stream.None? { return -1; }
    var from, to := inStream.value, output.stream.value;
    var fixDts := pkt.dts != NOPTS && output.lastDts != NOPTS && pkt.dts <= output.lastDts;
    fixDts := fixDts || (pkt.dts == NOPTS && output.lastDts != NOPTS);
    if fixDts {
      var nextDts := output.lastDts + 1;
      if pkt.pts != NOPTS && pkt.pts >= pkt.dts {
        pkt.pts := if pkt.pts > nextDts then pkt.pts else nextDts;
      }
      if pkt.pts == NOPTS { pkt.pts := nextDts; }
      pkt.dts := nextDts;
    }
    if pkt.pts == NOPTS { pkt.pts := 0; } else { pkt.pts := Rescale(pkt.pts, from, to); }
    if pkt.dts == NOPTS { pkt.dts := 0; } else { pkt.dts := Rescale(pkt.dts, from, to); }
    pkt.duration := RescaleDuration(pkt.duration, from, to);
    pkt.pos := -1;
    output.lastDts := pkt.dts;
    return if written then 1 else -1;
  }

  // ---------- the rounding ----------

  // a * b / c is within half of the result, and a tie goes away from zero.
  lemma {:induction false} RoundIsNearest(a: int, b: int, c: int)
    requires b > 0 && c > 0
    ensures var r := Round(a, b, c);
            && -c <= 2 * (r * c - a * b) <= c
            && (2 * (r * c - a * b) == c ==> a > 0) && (2 * (r * c - a * b) == -c ==> a < 0)
  {
    if a >= 0 {
      DivBounds(a * b + c / 2, c);
      if a == 0 { RoundZero(b, c); }
    } else {
      DivBounds(-a * b + c / 2, c);
    }
  }

  lemma {:induction false} DivBounds(x: int, c: int)
    requires c > 0
    ensures x - c < x / c * c <= x
  {
  }

  lemma {:induction false} RoundZero(b: int, c: int)
    requires b > 0 && c > 0
    ensures Round(0, b, c) == 0
  {
    assert 0 * b == 0;
    assert (c / 2) / c == 0;
  }

  lemma {:induction false} DivMonotone(x: int, y: int, c: int)
    requires c > 0 && x <= y
    ensures x / c <= y / c
  {
    DivBounds(x, c);
    DivBounds(y, c);
    ProductMonotone(y / c + 1, if y / c < x / c then x / c else y / c + 1, c);
  }

  lemma {:induction false} ProductMonotone(x: int, y: int, b: int)
    requires b > 0 && x <= y
    ensures x * b <= y * b
  {
  }

  lemma {:induction false} ScaleMonotone(x: int, b: int, c: int)
    requires x >= 0 && b <= c
    ensures x * b <= x * c
  {
  }

  lemma {:induction false} RoundMonotone(x: int, y: int, b: int, c: int)
    requires b > 0 && c > 0 && x <= y
    ensures Round(x, b, c) <= Round(y, b, c)
  {
    if 0 <= x {
      ProductMonotone(x, y, b);
      DivMonotone(x * b + c / 2, y * b + c / 2, c);
    } else if y < 0 {
      ProductMonotone(-y, -x, b);
      DivMonotone(-y * b + c / 2, -x * b + c / 2, c);
    } else {
      RoundSign(x, b, c);
      RoundSign(y, b, c);
    }
  }

  lemma {:induction false} RoundSign(x: int, b: int, c: int)
    requires b > 0 && c > 0
    ensures if x >= 0 then Round(x, b, c) >= 0 else Round(x, b, c) <= 0
  {
    var m := if x >= 0 then x else -x;
    ProductMonotone(0, m, b);
    DivMonotone(0, m * b + c / 2, c);
    assert 0 / c == 0;
  }

  lemma {:induction false} RoundSame(x: int, c: int)
    requires c > 0
    ensures Round(x, c, c) == x
  {
    var m := if x >= 0 then x else -x;
    DivExact(m, c / 2, c);
  }

  lemma {:induction false} DivExact(m: int, h: int, c: int)
    requires 0 <= h < c
    ensures (m * c + h) / c == m
  {
    var q := (m * c + h) / c;
    DivBounds(m * c + h, c);
    assert q * c <= m * c + h < q * c + c;
    ProductMonotone(q + 1, if q < m then m else q + 1, c);
    ProductMonotone(m + 1, if q > m then q else m + 1, c);
  }

  // A finer base does not shrink a non-negative timestamp, a coarser one does not grow it.
  lemma {:induction false} RoundVersus(x: int, b: int, c: int)
    requires b > 0 && c > 0 && x >= 0
    ensures b >= c ==> Round(x, b, c) >= x
    ensures b <= c ==> Round(x, b, c) <= x
  {
    DivExact(x, c / 2, c);
    if b >= c {
      ScaleMonotone(x, c, b);
      DivMonotone(x * c + c / 2, x * b + c / 2, c);
    }
    if b <= c {
      ScaleMonotone(x, b, c);
      DivMonotone(x * b + c / 2, x * c + c / 2, c);
    }
  }

  // ---------- what rescaling means ----------

  // r units of `to` are as near to a units of `from` as whole units get, and of two
  // equally near ones the one further from zero.
  ghost predicate Nearest(a: int, r: int, from: Base, to: Base) {
    var exact, got, unit := a * (from.num * to.den), r * (to.num * from.den), to.num * from.den;
    && -unit <= 2 * (got - exact) <= unit
    && (2 * (got - exact) == unit ==> a > 0) && (2 * (got - exact) == -unit ==> a < 0)
  }

  // The extremes stand for themselves.
  ghost predicate Scaled(a: int, r: int, from: Base, to: Base) {
    if a == INT64_MIN || a == INT64_MAX then r == a else Nearest(a, r, from, to)
  }

  lemma {:induction false} NearestOnce(a: int, r: int, r': int, from: Base, to: Base)
    requires Positive(from) && Positive(to) && Nearest(a, r, from, to) && Nearest(a, r', from, to)
    ensures r == r'
  {
    var c := to.num * from.den;
    Product(to.num, from.den);
    assert (r - r') * c == r * c - r' * c;
    if r < r' { ProductMonotone(1, r' - r, c); }
    if r > r' { ProductMonotone(1, r - r', c); }
  }

  lemma {:induction false} RescaleIff(a: int, r: int, from: Base, to: Base)
    requires Positive(from) && Positive(to)
    ensures Rescale(a, from, to) == r <==> Scaled(a, r, from, to)
  {
    RoundIsNearest(a, Up(from, to), Down(from, to));
    hide Round;
    assert a != INT64_MIN && a != INT64_MAX ==> Nearest(a, Rescale(a, from, to), from, to);
    if a != INT64_MIN && a != INT64_MAX && Nearest(a, r, from, to) {
      NearestOnce(a, r, Rescale(a, from, to), from, to);
    }
  }

  // A duration is rescaled alike, the least one as the least but one.
  lemma {:induction false} RescaleDurationIff(a: int, r: int, from: Base, to: Base)
    requires Positive(from) && Positive(to)
    ensures RescaleDuration(a, from, to) == r <==> Nearest(if a < -INT64_MAX then -INT64_MAX else a, r, from, to)
  {
    var d := if a < -INT64_MAX then -INT64_MAX else a;
    RoundIsNearest(d, Up(from, to), Down(from, to));
    hide Round;
    assert Nearest(d, RescaleDuration(a, from, to), from, to);
    if Nearest(d, r, from, to) { NearestOnce(d, r, RescaleDuration(a, from, to), from, to); }
  }

  // What is handed to the muxer: the dts, moved behind the last one if need be, and the
  // pts, moved with it, both rescaled, and 0 for what is unset.
  lemma {:induction false} EmittedIff(last: int, s: Stamp, from: Base, to: Base, e: Stamp)
    requires Positive(from) && Positive(to) && NoOverflow(last, s, from, to)
    ensures e == Emitted(last, s, from, to)
            <==> var late := last != NOPTS && (s.dts == NOPTS || s.dts <= last);
                 var dts := if late then last + 1 else s.dts;
                 var pts := if late && (s.pts == NOPTS || (s.dts <= s.pts && s.pts <= last)) then last + 1 else s.pts;
                 && (if dts == NOPTS then e.dts == 0 else Scaled(dts, e.dts, from, to))
                 && (if pts == NOPTS then e.pts == 0 else Scaled(pts, e.pts, from, to))
  {
    var r := Repaired(last, s);
    RescaleIff(r.dts, e.dts, from, to);
    RescaleIff(r.pts, e.pts, from, to);
    hide Rescale, Scaled;
  }

  // ---------- whole runs ----------

  // What a fresh output's muxer is handed for a sequence of packets.
  function Run(last: int, ins: seq<Stamp>, from: Base, to: Base): (r: seq<Stamp>)
    requires Positive(from) && Positive(to)
    ensures |r| == |ins|
    decreases |ins|
  {
    if ins == [] then []
    else
      var e := Emitted(last, ins[0], from, to);
      [e] + Run(e.dts, ins[1..], from, to)
  }

  lemma {:induction false} RunAt(last: int, ins: seq<Stamp>, from: Base, to: Base, i: nat)
    requires Positive(from) && Positive(to) && i < |ins|
    ensures var outs := Run(last, ins, from, to);
            outs[i] == Emitted(if i == 0 then last else outs[i - 1].dts, ins[i], from, to)
    decreases i
  {
    if i > 0 {
      hide Emitted;
      RunAt(Emitted(last, ins[0], from, to).dts, ins[1..], from, to, i - 1);
    }
  }

  function Dts(outs: seq<Stamp>): (r: seq<int>)
    ensures |r| == |outs| && forall i :: 0 <= i < |outs| ==> r[i] == outs[i].dts
  {
    seq(|outs|, i requires 0 <= i < |outs| => outs[i].dts)
  }

  ghost predicate Increasing(q: seq<int>) {
    forall i :: 0 < i < |q| ==> q[i - 1] < q[i]
  }

  lemma {:induction false} IncreasingBy(q: seq<int>, j: nat, i: nat)
    requires Increasing(q) && j <= i < |q|
    ensures q[i] >= q[j] + (i - j)
    decreases i
  {
    if j < i { IncreasingBy(q, j, i - 1); }
  }

  // What the i-th packet asks of its output dts; a leading unset one counts as 0 and
  // later unset ones ask for nothing.
  function Asked(ins: seq<Stamp>, i: nat): Option<int>
    requires i < |ins|
  {
    if ins[i].dts != NOPTS then Some(ins[i].dts) else if i == 0 then Some(0) else None
  }

  ghost predicate Meets(q: seq<int>, ins: seq<Stamp>) {
    |q| == |ins| && forall i :: 0 <= i < |ins| && Asked(ins, i).Some? ==> q[i] >= Asked(ins, i).value
  }

  ghost predicate AllInt64(ins: seq<Stamp>) {
    forall i :: 0 <= i < |ins| ==> IsInt64(ins[i].dts)
  }

  // The same unit of time, like 1/2 and 2/4.
  predicate SameBase(from: Base, to: Base) {
    Positive(from) && Positive(to) && from.num * to.den == to.num * from.den
  }

  lemma {:induction false} EmittedSameBase(last: int, s: Stamp, from: Base, to: Base)
    requires SameBase(from, to)
    ensures var r := Repaired(last, s);
            Emitted(last, s, from, to)
            == Stamp(if r.pts == NOPTS then 0 else r.pts, if r.dts == NOPTS then 0 else r.dts)
  {
    var r := Repaired(last, s);
    RoundSame(r.pts, Up(from, to));
    RoundSame(r.dts, Up(from, to));
  }

  // Each output is the packet's own dts or one more than the output before it.
  lemma {:induction false} SameBaseStep(ins: seq<Stamp>, from: Base, to: Base, i: nat)
    requires SameBase(from, to) && AllInt64(ins) && i < |ins|
    ensures var q := Dts(Run(NOPTS, ins, from, to));
            && q[i] > NOPTS
            && (i == 0 ==> q[0] == Asked(ins, 0).value)
            && (i > 0 ==> q[i] == if Asked(ins, i).Some? && Asked(ins, i).value > q[i - 1] then Asked(ins, i).value
                                  else q[i - 1] + 1)
    decreases i
  {
    RunAt(NOPTS, ins, from, to, i);
    hide Run;
    EmittedSameBase(if i == 0 then NOPTS else Run(NOPTS, ins, from, to)[i - 1].dts, ins[i], from, to);
    assert IsInt64(ins[i].dts);
    if i > 0 { SameBaseStep(ins, from, to, i - 1); }
  }

  // Position j explains output i when it asked for it, i - j packets earlier.
  ghost predicate Explains(q: seq<int>, ins: seq<Stamp>, j: nat, i: nat)
    requires |q| == |ins| && j <= i < |ins|
  {
    Asked(ins, j).Some? && q[i] == Asked(ins, j).value + (i - j)
  }

  ghost predicate Explained(q: seq<int>, ins: seq<Stamp>, i: nat)
    requires |q| == |ins| && i < |q|
  {
    exists j :: 0 <= j <= i && Explains(q, ins, j, i)
  }

  lemma {:induction false} SameBaseExplained(ins: seq<Stamp>, from: Base, to: Base, i: nat) returns (j: nat)
    requires SameBase(from, to) && AllInt64(ins) && i < |ins|
    ensures j <= i && Explains(Dts(Run(NOPTS, ins, from, to)), ins, j, i)
    decreases i
  {
    hide Run;
    SameBaseStep(ins, from, to, i);
    var q := Dts(Run(NOPTS, ins, from, to));
    if i == 0 || (Asked(ins, i).Some? && Asked(ins, i).value > q[i - 1]) {
      j := i;
    } else {
      j := SameBaseExplained(ins, from, to, i - 1);
    }
  }

  // With equal time bases the emitted dts strictly increase and meet what was asked, and
  // out[i] is the maximum over j <= i of in[j] + (i - j).
  lemma {:induction false} SameBaseClosedForm(ins: seq<Stamp>, from: Base, to: Base)
    requires SameBase(from, to) && AllInt64(ins)
    ensures var q := Dts(Run(NOPTS, ins, from, to));
            && Increasing(q) && Meets(q, ins)
            && (forall i :: 0 <= i < |ins| ==> Explained(q, ins, i))
            && (forall j, i :: 0 <= j <= i < |ins| && Asked(ins, j).Some? ==> q[i] >= Asked(ins, j).value + (i - j))
  {
    hide Run;
    var q := Dts(Run(NOPTS, ins, from, to));
    forall i | 0 <= i < |ins|
      ensures (i > 0 ==> q[i - 1] < q[i]) && (Asked(ins, i).Some? ==> q[i] >= Asked(ins, i).value)
    {
      SameBaseStep(ins, from, to, i);
    }
    forall i | 0 <= i < |ins| ensures Explained(q, ins, i) {
      var j := SameBaseExplained(ins, from, to, i);
    }
    forall j, i | 0 <= j <= i < |ins| && Asked(ins, j).Some? ensures q[i] >= Asked(ins, j).value + (i - j) {
      IncreasingBy(q, j, i);
    }
  }

  // ... so it is the pointwise least strictly increasing sequence above the input.
  lemma {:induction false} SameBaseLeast(ins: seq<Stamp>, from: Base, to: Base, q: seq<int>, i: nat)
    requires SameBase(from, to) && AllInt64(ins) && Increasing(q) && Meets(q, ins) && i < |ins|
    ensures Dts(Run(NOPTS, ins, from, to))[i] <= q[i]
  {
    hide Run;
    var j := SameBaseExplained(ins, from, to, i);
    IncreasingBy(q, j, i);
  }

  // ---------- a finer or a coarser output base ----------

  // The unit of `to` is no longer than that of `from`.
  predicate AsFine(from: Base, to: Base) {
    from.num * to.den >= to.num * from.den
  }

  ghost predicate NonNegative(ins: seq<Stamp>) {
    forall i :: 0 <= i < |ins| ==> ins[i].dts == NOPTS || 0 <= ins[i].dts <= INT64_MAX
  }

  lemma {:induction false} FineStep(last: int, s: Stamp, from: Base, to: Base)
    requires Positive(from) && Positive(to) && AsFine(from, to)
    requires last == NOPTS || last >= 0
    requires s.dts == NOPTS || 0 <= s.dts <= INT64_MAX
    ensures Emitted(last, s, from, to).dts >= 0 && Emitted(last, s, from, to).dts > last
  {
    var r := Repaired(last, s);
    if r.dts != NOPTS { RoundVersus(r.dts, Up(from, to), Down(from, to)); }
  }

  lemma {:induction false} FineIncreases(last: int, ins: seq<Stamp>, from: Base, to: Base)
    requires Positive(from) && Positive(to) && AsFine(from, to)
    requires (last == NOPTS || last >= 0) && NonNegative(ins)
    ensures var q := Dts(Run(last, ins, from, to));
            Increasing(q) && (ins != [] ==> q[0] > last)
    decreases |ins|
  {
    hide Emitted, AsFine;
    if ins != [] {
      var e := Emitted(last, ins[0], from, to);
      FineStep(last, ins[0], from, to);
      FineIncreases(e.dts, ins[1..], from, to);
      var q, rest := Dts(Run(last, ins, from, to)), Dts(Run(e.dts, ins[1..], from, to));
      assert q == [e.dts] + rest;
    }
  }

  lemma {:induction false} RoundClimbs(b: int, c: int, n: nat)
    requires b > 0 && c > 0 && forall k: nat :: k < n ==> Round(k, b, c) < Round(k + 1, b, c)
    ensures Round(n, b, c) >= n
  {
    if n == 0 {
      RoundZero(b, c);
    } else {
      RoundClimbs(b, c, n - 1);
      assert Round(n - 1, b, c) < Round(n - 1 + 1, b, c);
    }
  }

  lemma {:induction false} RoundAtBase(b: int, c: int)
    requires b > 0 && c > 0
    ensures Round(c, b, c) == b
  {
    DivExact(b, c / 2, c);
  }

  // Into a coarser base, two neighbouring timestamps collapse.
  lemma {:induction false} CoarseCollapses(b: int, c: int) returns (k: nat)
    requires 0 < b < c
    ensures k < c && Round(k, b, c) == Round(k + 1, b, c) <= k
  {
    RoundAtBase(b, c);
    hide Round;
    if forall k: nat :: k < c ==> Round(k, b, c) < Round(k + 1, b, c) {
      RoundClimbs(b, c, c);
    }
    k :| k < c && Round(k, b, c) >= Round(k + 1, b, c);
    RoundMonotone(k, k + 1, b, c);
    RoundVersus(k, b, c);
  }

  lemma {:induction false} CoarseStalls(from: Base, to: Base) returns (ins: seq<Stamp>)
    requires Positive(from) && Positive(to) && !AsFine(from, to)
    ensures NonNegative(ins) && AllInt64(ins) && !Increasing(Dts(Run(NOPTS, ins, from, to)))
  {
    var b, c := Up(from, to), Down(from, to);
    var k := CoarseCollapses(b, c);
    hide Round;
    ins := [Stamp(k, k), Stamp(k + 1, k + 1)];
    var outs := Run(NOPTS, ins, from, to);
    RunAt(NOPTS, ins, from, to, 0);
    RunAt(NOPTS, ins, from, to, 1);
    hide Run;
    assert outs[0].dts == outs[1].dts == Round(k, b, c);
  }

  // Every run of non-negative or unset timestamps emits strictly increasing dts exactly
  // when the output base is at least as fine as the input one.
  lemma {:induction false} IncreasesIffFine(from: Base, to: Base)
    requires Positive(from) && Positive(to)
    ensures (forall ins: seq<Stamp> :: NonNegative(ins) ==> Increasing(Dts(Run(NOPTS, ins, from, to))))
            <==> AsFine(from, to)
  {
    hide Run, Increasing;
    if AsFine(from, to) {
      forall ins: seq<Stamp> | NonNegative(ins) ensures Increasing(Dts(Run(NOPTS, ins, from, to))) {
        FineIncreases(NOPTS, ins, from, to);
      }
    } else {
      var ins := CoarseStalls(from, to);
    }
  }

  // Into a finer base, a repaired negative dts is scaled away again.
  lemma {:induction false} FineGoesBack(from: Base, to: Base) returns (ins: seq<Stamp>)
    requires AsFine(from, to) && Positive(from) && Positive(to) && !SameBase(from, to)
    ensures AllInt64(ins) && !Increasing(Dts(Run(NOPTS, ins, from, to)))
  {
    var b, c := Up(from, to), Down(from, to);
    RoundAtBase(b, c);
    RoundMonotone(c, b - 1, b, c);
    assert Round(-c, b, c) == -b && Round(-(b - 1), b, c) == -Round(b - 1, b, c);
    hide Round;
    ins := [Stamp(-c, -c), Stamp(NOPTS, NOPTS)];
    RunAt(NOPTS, ins, from, to, 0);
    RunAt(NOPTS, ins, from, to, 1);
    hide Run;
    var q := Dts(Run(NOPTS, ins, from, to));
    assert q[0] == -b;
    assert q[1] == -Round(b - 1, b, c);
  }

  // Every run of timestamps of any sign emits strictly increasing dts exactly when the
  // two bases are the same unit.
  lemma {:induction false} IncreasesIffSame(from: Base, to: Base)
    requires Positive(from) && Positive(to)
    ensures (forall ins: seq<Stamp> :: AllInt64(ins) ==> Increasing(Dts(Run(NOPTS, ins, from, to))))
            <==> SameBase(from, to)
  {
    hide Run, Increasing;
    if SameBase(from, to) {
      forall ins: seq<Stamp> | AllInt64(ins) ensures Increasing(Dts(Run(NOPTS, ins, from, to))) {
        SameBaseClosedForm(ins, from, to);
      }
    } else if AsFine(from, to) {
      var ins := FineGoesBack(from, to);
    } else {
      var ins := CoarseStalls(from, to);
    }
  }

  // A literal run that goes back.
  lemma {:induction false} NegativeCanGoBack()
    ensures var from, to := Base(1, 1), Base(1, 100);
            !Increasing(Dts(Run(NOPTS, [Stamp(-10, -10), Stamp(-2000, -2000)], from, to)))
  {
    var from, to := Base(1, 1), Base(1, 100);
    var ins := [Stamp(-10, -10), Stamp(-2000, -2000)];
    RunAt(NOPTS, ins, from, to, 0);
    RunAt(NOPTS, ins, from, to, 1);
    assert Up(from, to) == 100 && Down(from, to) == 1;
    assert Run(NOPTS, ins, from, to)[0].dts == -1000;
    assert Run(NOPTS, ins, from, to)[1].dts == -99900;
  }

  // ---------- pts against dts ----------

  lemma {:induction false} RescaleMonotone(x: int, y: int, from: Base, to: Base)
    requires Positive(from) && Positive(to) && NOPTS < x <= y <= INT64_MAX
    requires IsInt64(Rescale(x, from, to)) && IsInt64(Rescale(y, from, to))
    ensures Rescale(x, from, to) <= Rescale(y, from, to)
  {
    RoundMonotone(x, y, Up(from, to), Down(from, to));
  }

  // Between any two bases, a packet leaves with pts >= dts if it came with both set that
  // way, or if the repair fired on one that did not have them set the other way round.
  lemma {:induction false} PtsNotBelowDts(last: int, s: Stamp, from: Base, to: Base)
    requires Positive(from) && Positive(to) && NoOverflow(last, s, from, to)
    requires (s.pts != NOPTS && s.dts != NOPTS && s.pts >= s.dts)
             || (Fires(last, s) && !(s.pts != NOPTS && s.dts != NOPTS && s.pts < s.dts))
    ensures Emitted(last, s, from, to).pts >= Emitted(last, s, from, to).dts
  {
    var r := Repaired(last, s);
    hide Rescale;
    RescaleMonotone(r.dts, r.pts, from, to);
  }

  // With equal bases that is exact: the remaining cases keep the order they came in,
  // an unset stamp counting as 0.
  lemma {:induction false} PtsNotBelowDtsIff(last: int, s: Stamp, from: Base, to: Base)
    requires SameBase(from, to) && NoOverflow(last, s, from, to)
    ensures Emitted(last, s, from, to).pts >= Emitted(last, s, from, to).dts
            <==> if Fires(last, s) then s.pts == NOPTS || s.dts == NOPTS || s.pts >= s.dts
                 else (if s.pts == NOPTS then 0 else s.pts) >= (if s.dts == NOPTS then 0 else s.dts)
  {
    EmittedSameBase(last, s, from, to);
    hide Emitted;
  }
}
