/**
 * The pseudo-random binary sequence (PRBS) excitation generator of the DC-motor
 * and temperature-lab tools: an 11-cell shift register of +1/-1 chips, each chip
 * held for `frequency_divider + 1` samples, preceded by a warm-up hold and
 * followed by a four-sample tail clamp.
 *
 * `CreatePrbs` follows the imperative algorithm over arrays; `Reference` gives
 * the value of every output index in closed form. The method is proved equal to
 * the reference, and the shape properties are lemmas about the reference.
 */
module Prbs {
  import opened Wrappers

  /** The register list always has eleven cells, whatever its nominal length. */
  const RegisterCells: nat := 11

  /** The generator's arguments, in the order the generator takes them. */
  datatype PrbsConfig = PrbsConfig(
    initialValue: real,
    amplitude: real,
    offset: real,
    registerLength: int,
    frequencyDivider: nat,
    numSamples: nat,
    startTime: nat)

  /** The index errors the generator can raise. */
  datatype PrbsError =
    | RegisterIndexError  // a feedback tap lies outside the 11-cell register
    | BufferIndexError    // a held chip runs past the end of the work buffer
    | TailIndexError      // fewer than four samples are left to clamp

  predicate IsSign(x: int) {
    x == 1 || x == -1
  }

  predicate AllSigns(reg: seq<int>) {
    forall j :: 0 <= j < |reg| ==> IsSign(reg[j])
  }

  // ---------------------------------------------------------------------------
  // The shift register
  // ---------------------------------------------------------------------------

  /** First feedback tap, from the fixed table keyed on register length. */
  function TapK1(length: int): int {
    if length == 5 then 3
    else if length == 7 then 4
    else if length == 9 then 5
    else if length == 10 then 7
    else if length == 11 then 9
    else length - 1
  }

  /** Indices a list of eleven cells accepts, counting negative ones from the end. */
  predicate InRegister(k: int) {
    -(RegisterCells as int) <= k < RegisterCells
  }

  /** The cell a (possibly negative) list index denotes. */
  function PyIndex(k: int): (q: nat)
    requires InRegister(k)
    ensures q < RegisterCells
    ensures k >= 0 ==> q == k
    ensures k < 0 ==> q == RegisterCells + k
  {
    if k >= 0 then k else RegisterCells + k
  }

  /** Register lengths for which both taps `k1` and `k2 = length` index the register. */
  predicate ValidLength(length: int) {
    InRegister(TapK1(length)) && InRegister(length)
  }

  /** The next chip: the product of the two taps, negated, or the four-tap rule at length 7. */
  function Feedback(length: int, reg: seq<int>): (u: int)
    requires |reg| == RegisterCells && ValidLength(length)
    ensures AllSigns(reg) ==> IsSign(u)
  {
    if length == 7 then -reg[1] * reg[2] * reg[4] * reg[7]
    else -reg[PyIndex(TapK1(length))] * reg[PyIndex(length)]
  }

  /** One register shift: cells 1..length take the old cells 0..length-1 and cell 0 takes the new chip. */
  function Shift(length: int, reg: seq<int>, u: int): (r: seq<int>)
    requires |reg| == RegisterCells && length < RegisterCells
    ensures |r| == RegisterCells
    ensures r[0] == u
    ensures forall j :: 1 <= j <= length ==> r[j] == reg[j - 1]
    ensures forall j :: 1 <= j < RegisterCells && length < j ==> r[j] == reg[j]
  {
    var m := if length < 0 then 0 else length;
    [u] + reg[..m] + reg[m + 1..]
  }

  /** The register after `k` shifts from the all-ones seed. */
  function RegisterAt(length: int, k: nat): (reg: seq<int>)
    requires ValidLength(length)
    ensures |reg| == RegisterCells
    ensures AllSigns(reg)
  {
    if k == 0 then seq(RegisterCells, _ => 1)
    else
      var prev := RegisterAt(length, k - 1);
      Shift(length, prev, Feedback(length, prev))
  }

  /** The `k`-th chip the register emits. */
  function Chip(length: int, k: nat): (u: int)
    requires ValidLength(length)
    ensures IsSign(u)
  {
    Feedback(length, RegisterAt(length, k))
  }

  // ---------------------------------------------------------------------------
  // The output buffer, in closed form
  // ---------------------------------------------------------------------------

  /** Samples written per chip: the hold loop counts `j` from 0 to the divider inclusive. */
  function Hold(cfg: PrbsConfig): nat {
    cfg.frequencyDivider + 1
  }

  /** The chip loop starts at `start_time + 1` and runs while the index is at most `num_samples`. */
  predicate LoopRuns(cfg: PrbsConfig) {
    cfg.startTime < cfg.numSamples
  }

  /** Number of chips the loop emits. */
  function ChipCount(cfg: PrbsConfig): nat {
    if LoopRuns(cfg) then (cfg.numSamples - cfg.startTime - 1) / Hold(cfg) + 1 else 0
  }

  /** Size of the zero-filled work buffer. */
  function BufferSize(cfg: PrbsConfig): nat {
    2 * (cfg.numSamples + cfg.startTime)
  }

  /** The last sample of the last chip, at index `start_time + ChipCount * Hold`, fits the buffer. */
  predicate BufferFits(cfg: PrbsConfig) {
    !LoopRuns(cfg) || cfg.startTime + ChipCount(cfg) * Hold(cfg) < BufferSize(cfg)
  }

  /** The hold window, that is the chip number, an index after `start_time` belongs to. */
  function Window(cfg: PrbsConfig, p: nat): nat
    requires cfg.startTime < p
  {
    (p - cfg.startTime - 1) / Hold(cfg)
  }

  /** First index of hold window `k`. */
  function WindowStart(cfg: PrbsConfig, k: nat): nat {
    cfg.startTime + 1 + k * Hold(cfg)
  }

  /** The level a chip is written as. */
  function ChipSample(cfg: PrbsConfig, u: int): real {
    u as real * cfg.amplitude + cfg.offset
  }

  /** The chip level an index after `start_time` is written with. */
  function ChipAt(cfg: PrbsConfig, p: nat): real
    requires cfg.startTime < p && ValidLength(cfg.registerLength)
  {
    ChipSample(cfg, Chip(cfg.registerLength, Window(cfg, p)))
  }

  /**
   * Output index `p`: the tail clamp wins, then the warm-up hold; index
   * `start_time` keeps the buffer's zero; every later index carries the chip
   * whose hold window contains it.
   */
  function Expected(cfg: PrbsConfig, p: nat): real
    requires p < cfg.numSamples
    requires LoopRuns(cfg) ==> ValidLength(cfg.registerLength)
  {
    if cfg.numSamples <= p + 4 then cfg.initialValue
    else if p < cfg.startTime then cfg.initialValue
    else if p == cfg.startTime then 0.0
    else ChipAt(cfg, p)
  }

  /** The whole output sequence, index by index. */
  function ExpectedSeq(cfg: PrbsConfig): (s: seq<real>)
    requires LoopRuns(cfg) ==> ValidLength(cfg.registerLength)
    ensures |s| == cfg.numSamples
    ensures forall p :: 0 <= p < |s| ==> s[p] == Expected(cfg, p)
  {
    seq(cfg.numSamples, p requires 0 <= p < cfg.numSamples => Expected(cfg, p))
  }

  /** What the generator returns or raises, stated without the loops. */
  function Reference(cfg: PrbsConfig): Result<seq<real>, PrbsError> {
    if LoopRuns(cfg) && !ValidLength(cfg.registerLength) then Failure(RegisterIndexError)
    else if !BufferFits(cfg) then Failure(BufferIndexError)
    else if cfg.numSamples < 4 then Failure(TailIndexError)
    else Success(ExpectedSeq(cfg))
  }

  // ---------------------------------------------------------------------------
  // Index arithmetic
  // ---------------------------------------------------------------------------

  lemma MulMono(a: nat, b: nat, c: nat)
    requires a <= b
    ensures a * c <= b * c
  {
  }

  /** Index `k * c + j` with `j < c` lies in hold window `k`. */
  lemma DivOfWindow(k: nat, j: nat, c: nat)
    requires j < c
    ensures (k * c + j) / c == k
  {
    var x := k * c + j;
    var q := x / c;
    if q > k {
      MulMono(k + 1, q, c);
    } else if q < k {
      MulMono(q + 1, k, c);
    }
  }

  /** A window starting at or before `x` has index at most `x / c`. */
  lemma DivLowerBound(k: nat, x: nat, c: nat)
    requires 0 < c && k * c <= x
    ensures k <= x / c
  {
    if x / c < k {
      MulMono(x / c + 1, k, c);
    }
  }

  /** Every index of window `k` maps back to chip `k`. */
  lemma WindowSpan(cfg: PrbsConfig, k: nat)
    ensures forall p :: WindowStart(cfg, k) <= p < WindowStart(cfg, k) + Hold(cfg) ==> Window(cfg, p) == k
  {
    forall p | WindowStart(cfg, k) <= p < WindowStart(cfg, k) + Hold(cfg)
      ensures Window(cfg, p) == k
    {
      DivOfWindow(k, p - cfg.startTime - 1 - k * Hold(cfg), Hold(cfg));
    }
  }

  /** Consecutive windows abut. */
  lemma NextWindow(cfg: PrbsConfig, k: nat)
    ensures WindowStart(cfg, k + 1) == WindowStart(cfg, k) + Hold(cfg)
  {
    assert (k + 1) * Hold(cfg) == k * Hold(cfg) + Hold(cfg);
  }

  /** A window that starts in the loop but ends past the buffer means the buffer is too small. */
  lemma WindowOverflow(cfg: PrbsConfig, k: nat)
    requires WindowStart(cfg, k) <= cfg.numSamples
    requires BufferSize(cfg) < WindowStart(cfg, k) + Hold(cfg)
    ensures !BufferFits(cfg)
  {
    DivLowerBound(k, cfg.numSamples - cfg.startTime - 1, Hold(cfg));
    MulMono(k + 1, ChipCount(cfg), Hold(cfg));
  }

  /** When window `k` starts past `num_samples` and window `k - 1` did not, the loop emitted `k` chips. */
  lemma LoopExit(cfg: PrbsConfig, k: nat)
    requires 0 < k
    requires WindowStart(cfg, k - 1) <= cfg.numSamples < WindowStart(cfg, k)
    ensures ChipCount(cfg) == k
  {
    var c := Hold(cfg);
    NextWindow(cfg, k - 1);
    DivOfWindow(k - 1, cfg.numSamples - cfg.startTime - 1 - (k - 1) * c, c);
  }

  // ---------------------------------------------------------------------------
  // The algorithm
  // ---------------------------------------------------------------------------

  /** The warm-up hold: indices `0..start` take the initial value, the rest keep zero. */
  method FillWarmUp(prbs: array<real>, start: nat, initialValue: real)
    requires start <= prbs.Length
    requires forall p :: 0 <= p < prbs.Length ==> prbs[p] == 0.0
    modifies prbs
    ensures forall p :: 0 <= p < start ==> prbs[p] == initialValue
    ensures forall p :: start <= p < prbs.Length ==> prbs[p] == 0.0
  {
    var i := 0;
    while i < start
      invariant 0 <= i <= start
      invariant forall p :: 0 <= p < i ==> prbs[p] == initialValue
      invariant forall p :: i <= p < prbs.Length ==> prbs[p] == 0.0
    {
      prbs[i] := initialValue;
      i := i + 1;
    }
  }

  /** Cells `length..1` each copy the cell below, top first; then cell 0 takes the new chip. */
  method ShiftRegister(sbpa: array<int>, length: int, uiu: int)
    requires sbpa.Length == RegisterCells && length < RegisterCells
    modifies sbpa
    ensures sbpa[..] == Shift(length, old(sbpa[..]), uiu)
  {
    ghost var before := sbpa[..];
    var m := length;
    while m > 0
      invariant length <= 0 ==> m == length
      invariant length > 0 ==> 0 <= m <= length
      invariant forall q :: m < q <= length ==> sbpa[q] == before[q - 1]
      invariant forall q :: 0 <= q <= m ==> sbpa[q] == before[q]
      invariant forall q :: 0 <= q && length < q < RegisterCells ==> sbpa[q] == before[q]
    {
      sbpa[m] := sbpa[m - 1];
      m := m - 1;
    }
    sbpa[0] := uiu;
    assert forall q :: 0 <= q < RegisterCells ==> sbpa[q] == Shift(length, before, uiu)[q];
  }

  /** The tail clamp: the last four samples (list indices -1..-4) take `value`, the others are unchanged. */
  method ClampTail(s: seq<real>, value: real) returns (out: seq<real>)
    requires 4 <= |s|
    ensures |out| == |s|
    ensures forall p :: 0 <= p < |s| ==> out[p] == (if |s| - 4 <= p then value else s[p])
  {
    out := s;
    var t := 1;
    while t < 5
      invariant 1 <= t <= 5
      invariant |out| == |s|
      invariant forall p :: 0 <= p < |s| ==> out[p] == (if |s| - t < p then value else s[p])
    {
      out := out[|s| - t := value];
      t := t + 1;
    }
  }

  /**
   * The hold loop: `value` goes to `count` consecutive indices from `from`;
   * it fails, as the list assignment raises, when the window runs past the buffer.
   */
  method HoldChip(prbs: array<real>, from: nat, count: nat, value: real) returns (fits: bool)
    modifies prbs
    ensures fits <==> from + count <= prbs.Length
    ensures fits ==> forall p :: from <= p < from + count ==> prbs[p] == value
    ensures forall p :: 0 <= p < prbs.Length && !(from <= p < from + count) ==> prbs[p] == old(prbs[p])
  {
    var i := from;
    var j := 0;
    while j < count
      invariant 0 <= j <= count
      invariant i == from + j
      invariant forall p :: from <= p < i && p < prbs.Length ==> prbs[p] == value
      invariant forall p :: 0 <= p < prbs.Length && !(from <= p < i) ==> prbs[p] == old(prbs[p])
    {
      if i >= prbs.Length {
        return false;
      }
      prbs[i] := value;
      i := i + 1;
      j := j + 1;
    }
    return from + count <= prbs.Length;
  }

  /** One pass of the chip loop: compute chip `k`, hold it over window `k`, then shift it into the register. */
  method ChipStep(cfg: PrbsConfig, prbs: array<real>, sbpa: array<int>, i: nat, ghost k: nat) returns (fits: bool)
    requires prbs.Length == BufferSize(cfg) && sbpa.Length == RegisterCells
    requires ValidLength(cfg.registerLength)
    requires i == WindowStart(cfg, k)
    requires sbpa[..] == RegisterAt(cfg.registerLength, k)
    modifies prbs, sbpa
    ensures fits <==> i + Hold(cfg) <= prbs.Length
    ensures fits ==> sbpa[..] == RegisterAt(cfg.registerLength, k + 1)
    ensures fits ==> forall p :: i <= p < i + Hold(cfg) ==> prbs[p] == ChipAt(cfg, p)
    ensures forall p :: 0 <= p < prbs.Length && !(i <= p < i + Hold(cfg)) ==> prbs[p] == old(prbs[p])
  {
    var uiu := Feedback(cfg.registerLength, sbpa[..]);
    fits := HoldChip(prbs, i, Hold(cfg), uiu as real * cfg.amplitude + cfg.offset);
    if fits {
      WindowSpan(cfg, k);
      ShiftRegister(sbpa, cfg.registerLength, uiu);
    }
  }

  /**
   * The chip loop over an all-ones register: from index `start_time + 1`, while
   * the index is at most `num_samples`, compute a chip, hold it, shift it in.
   * Reports the index error that stops it, if any.
   */
  method EmitChips(cfg: PrbsConfig, prbs: array<real>) returns (err: Option<PrbsError>)
    requires prbs.Length == BufferSize(cfg)
    modifies prbs
    ensures err == Some(RegisterIndexError) <==> LoopRuns(cfg) && !ValidLength(cfg.registerLength)
    ensures err == Some(BufferIndexError) <==>
      !(LoopRuns(cfg) && !ValidLength(cfg.registerLength)) && !BufferFits(cfg)
    ensures err.None? || err == Some(RegisterIndexError) || err == Some(BufferIndexError)
    ensures forall p :: 0 <= p <= cfg.startTime && p < prbs.Length ==> prbs[p] == old(prbs[p])
    ensures err.None? ==> forall p :: cfg.startTime < p < cfg.numSamples ==>
      ValidLength(cfg.registerLength) && prbs[p] == ChipAt(cfg, p)
  {
    var length := cfg.registerLength;
    var n := cfg.numSamples;
    var start := cfg.startTime;
    var c := cfg.frequencyDivider + 1;
    var k1 := TapK1(length);
    var k2 := length;
    var sbpa := new int[RegisterCells](_ => 1);
    assert ValidLength(length) ==> sbpa[..] == RegisterAt(length, 0);

    var i := start + 1;
    ghost var k: nat := 0;
    while i <= n
      invariant i == WindowStart(cfg, k)
      invariant k > 0 ==> ValidLength(length) && WindowStart(cfg, k - 1) <= n && i <= prbs.Length
      invariant ValidLength(length) ==> sbpa[..] == RegisterAt(length, k)
      invariant forall p :: 0 <= p <= start && p < prbs.Length ==> prbs[p] == old(prbs[p])
      invariant forall p :: start < p < i && p < prbs.Length ==>
        ValidLength(length) && prbs[p] == ChipAt(cfg, p)
    {
      if !(InRegister(k1) && InRegister(k2)) {
        return Some(RegisterIndexError);
      }
      var fits := ChipStep(cfg, prbs, sbpa, i, k);
      if !fits {
        WindowOverflow(cfg, k);
        return Some(BufferIndexError);
      }
      NextWindow(cfg, k);
      i := i + c;
      k := k + 1;
    }

    if k > 0 {
      LoopExit(cfg, k);
    }
    return None;
  }

  /** The generator: a zero-filled buffer, the warm-up hold, the chips, truncation and the tail clamp. */
  method CreatePrbs(cfg: PrbsConfig) returns (r: Result<seq<real>, PrbsError>)
    ensures r == Reference(cfg)
  {
    var n := cfg.numSamples;
    var prbs := new real[2 * (n + cfg.startTime)](_ => 0.0);
    FillWarmUp(prbs, cfg.startTime, cfg.initialValue);
    var err := EmitChips(cfg, prbs);
    if err.Some? {
      return Failure(err.value);
    }

    if n < 4 {
      return Failure(TailIndexError);
    }

    // Truncate, then clamp the last four samples.
    var out := ClampTail(prbs[..n], cfg.initialValue);

    assert forall p :: 0 <= p < n ==> out[p] == Expected(cfg, p);
    assert out == ExpectedSeq(cfg);
    return Success(out);
  }

  // ---------------------------------------------------------------------------
  // Properties of the generated sequence
  // ---------------------------------------------------------------------------

  /** The taps index the register exactly for lengths -10..10; length 11 reads cell 11 and raises. */
  lemma ValidLengthRange(length: int)
    ensures ValidLength(length) <==> -10 <= length <= 10
  {
  }

  /** For positive lengths the first tap lies strictly below the second, `k2 = length`. */
  lemma TapsOrdered(length: int)
    requires 1 <= length <= 11
    ensures 0 <= TapK1(length) < length
  {
  }

  /** The generator raises exactly when a tap, the buffer, or the tail clamp is out of range. */
  lemma SucceedsIff(cfg: PrbsConfig)
    ensures Reference(cfg).Success? <==>
      (LoopRuns(cfg) ==> ValidLength(cfg.registerLength)) && BufferFits(cfg) && 4 <= cfg.numSamples
  {
  }

  /**
   * Sufficient conditions for success: a register length of 1..10, at least
   * four samples, and a last write index `num_samples + frequency_divider`
   * inside the buffer.
   */
  lemma SafeInputsSucceed(cfg: PrbsConfig)
    requires 1 <= cfg.registerLength <= 10
    requires 4 <= cfg.numSamples
    requires cfg.numSamples + cfg.frequencyDivider < BufferSize(cfg)
    ensures Reference(cfg).Success?
  {
    if LoopRuns(cfg) {
      var x := cfg.numSamples - cfg.startTime - 1;
      var c := Hold(cfg);
      assert (x / c) * c <= x;
      assert ChipCount(cfg) * c == (x / c) * c + c;
    }
  }

  /** Length, warm-up hold, tail clamp and the zero left at `start_time`. */
  lemma OutputShape(cfg: PrbsConfig)
    requires Reference(cfg).Success?
    ensures |Reference(cfg).value| == cfg.numSamples
    ensures forall p :: 0 <= p < cfg.numSamples && p < cfg.startTime ==>
      Reference(cfg).value[p] == cfg.initialValue
    ensures forall p :: cfg.numSamples - 4 <= p < cfg.numSamples ==>
      Reference(cfg).value[p] == cfg.initialValue
    ensures cfg.startTime + 4 < cfg.numSamples ==> Reference(cfg).value[cfg.startTime] == 0.0
  {
  }

  /** Every index strictly between `start_time` and the tail is `offset + amplitude` or `offset - amplitude`. */
  lemma BinaryExcursion(cfg: PrbsConfig, p: nat)
    requires Reference(cfg).Success?
    requires cfg.startTime < p && p + 4 < cfg.numSamples
    ensures Reference(cfg).value[p] == cfg.offset + cfg.amplitude
         || Reference(cfg).value[p] == cfg.offset - cfg.amplitude
  {
    var u := Chip(cfg.registerLength, Window(cfg, p));
    assert Reference(cfg).value[p] == ChipSample(cfg, u);
  }

  /**
   * Chip `k` occupies the `frequency_divider + 1` consecutive indices
   * `start_time + 1 + k * Hold .. start_time + (k + 1) * Hold`, except where
   * the tail cuts the window short.
   */
  lemma ChipHeld(cfg: PrbsConfig, k: nat, j: nat)
    requires Reference(cfg).Success?
    requires j < Hold(cfg)
    requires cfg.startTime + 1 + k * Hold(cfg) + j + 4 < cfg.numSamples
    ensures Reference(cfg).value[cfg.startTime + 1 + k * Hold(cfg) + j]
         == ChipSample(cfg, Chip(cfg.registerLength, k))
  {
    DivOfWindow(k, j, Hold(cfg));
  }

  /** The seed is all ones, so the first chip is -1 and index `start_time + 1` is `offset - amplitude`. */
  lemma FirstChipLow(cfg: PrbsConfig)
    requires Reference(cfg).Success?
    requires cfg.startTime + 5 < cfg.numSamples
    ensures Reference(cfg).value[cfg.startTime + 1] == cfg.offset - cfg.amplitude
  {
    var ones := RegisterAt(cfg.registerLength, 0);
    assert forall q :: 0 <= q < RegisterCells ==> ones[q] == 1;
    assert Chip(cfg.registerLength, 0) == -1;
    assert 0 / Hold(cfg) == 0;
  }
}
