/** Mixing, output filters and the bounded stereo queue. */
module ApuPcm {
  import opened Numbers
  import opened ApuState

  const DUTY_PATTERNS := [
    [0, 0, 0, 0, 0, 0, 0, 1],
    [1, 0, 0, 0, 0, 0, 0, 1],
    [1, 0, 0, 0, 0, 1, 1, 1],
    [0, 1, 1, 1, 1, 1, 1, 0]]

  // ---- mixing ----

  function SquareOutput(dutyReg: u8, ch: Channel): nat {
    if !ch.forceZero && ch.duty < 8 && DUTY_PATTERNS[dutyReg / 64][ch.duty] != 0 then ch.volume else 0
  }

  function WaveOutput(levelReg: u8, ch: Channel): nat {
    var sample := if ch.wavePosition % 2 == 0 then ch.waveSample / 16 else ch.waveSample % 16;
    match levelReg / 32 % 4
    case 0 => 0
    case 1 => sample
    case 2 => sample / 2
    case _ => sample / 4
  }

  /** The 0..15 level a channel feeds to its DAC. */
  function DigitalOutput(c: Control, i: nat): nat
    requires i < 4
  {
    var ch := c.channels[i];
    if !ch.enabled || !ch.dac || !HasBit(c.mask, i) then 0
    else if i == 0 then SquareOutput(c.regs[1], ch)
    else if i == 1 then SquareOutput(c.regs[6], ch)
    else if i == 2 then WaveOutput(c.regs[0x0C], ch)
    else if ch.lfsr & 1 == 0 then ch.volume else 0
  }

  /** A powered DAC maps its level to -15..15; a silent channel with its DAC on sits at the top. */
  function AnalogOutput(c: Control, i: nat): int
    requires i < 4
  {
    if !c.channels[i].dac then 0
    else 15 - 2 * (if c.channels[i].enabled && HasBit(c.mask, i) then DigitalOutput(c, i) else 0)
  }

  /** The NR51 bit that routes a channel to one side. */
  function RouteBit(left: bool, i: nat): (w: nat)
    requires i < 4
    ensures w > 0
  {
    if left then if i == 0 then 0x10 else if i == 1 then 0x20 else if i == 2 then 0x40 else 0x80
    else if i == 0 then 0x01 else if i == 1 then 0x02 else if i == 2 then 0x04 else 0x08
  }

  function Scaled(sample: int, volume: nat): int { sample * volume }

  /** The contributions of the first n channels to one side. */
  function RoutedTo(c: Control, left: bool, volume: nat, n: nat): int
    requires n <= 4
  {
    if n == 0 then 0 else
    RoutedTo(c, left, volume, n - 1)
    + if TestBit(c.regs[0x15], RouteBit(left, n - 1)) then Scaled(AnalogOutput(c, n - 1), volume) else 0
  }

  lemma MixStep(c: Control, left: bool, volume: nat, n: nat)
    requires n < 4
    ensures RoutedTo(c, left, volume, n + 1) == RoutedTo(c, left, volume, n)
         + if TestBit(c.regs[0x15], RouteBit(left, n)) then Scaled(AnalogOutput(c, n), volume) else 0
    ensures ActiveTo(c, n + 1)
         == if c.channels[n].enabled && HasBit(c.mask, n) then ActiveTo(c, n) | Bit(n) else ActiveTo(c, n)
  {
    hide TestBit, RouteBit, Scaled, AnalogOutput, HasBit, Bit;
  }

  lemma MixNothing(c: Control, left: bool, volume: nat)
    ensures RoutedTo(c, left, volume, 0) == 0 && ActiveTo(c, 0) == 0
  {
  }

  function LeftVolume(c: Control): nat { c.regs[0x14] / 16 % 8 + 1 }

  function RightVolume(c: Control): nat { c.regs[0x14] % 8 + 1 }

  function MixLeft(c: Control): int { if !c.master then 0 else RoutedTo(c, true, LeftVolume(c), 4) }

  function MixRight(c: Control): int { if !c.master then 0 else RoutedTo(c, false, RightVolume(c), 4) }

  /** The channels among the first n that are enabled and agree with the public mask. */
  function ActiveTo(c: Control, n: nat): bv8
    requires n <= 4
  {
    if n == 0 then 0
    else if c.channels[n - 1].enabled && HasBit(c.mask, n - 1) then ActiveTo(c, n - 1) | Bit(n - 1)
    else ActiveTo(c, n - 1)
  }

  function MixMask(c: Control): bv8 { if !c.master then 0 else ActiveTo(c, 4) & c.mask }

  /** x if the bit of NR51 with this weight is set. */
  function Via(nr51: u8, weight: nat, x: int): int
    requires weight > 0
  {
    if nr51 / weight % 2 == 1 then x else 0
  }

  /** What NR50 and NR51 mean: each side sums the analog levels routed to it, the left ones by the upper half of NR51
      and the right ones by the lower, each times that side's own level in NR50 plus one. */
  ghost predicate Routed(c: Control, left: int, right: int) {
    var nr50, nr51 := c.regs[0x14], c.regs[0x15];
    var gainLeft, gainRight := nr50 / 16 % 8 + 1, nr50 % 8 + 1;
    && left == Via(nr51, 0x10, AnalogOutput(c, 0) * gainLeft) + Via(nr51, 0x20, AnalogOutput(c, 1) * gainLeft)
               + Via(nr51, 0x40, AnalogOutput(c, 2) * gainLeft) + Via(nr51, 0x80, AnalogOutput(c, 3) * gainLeft)
    && right == Via(nr51, 0x01, AnalogOutput(c, 0) * gainRight) + Via(nr51, 0x02, AnalogOutput(c, 1) * gainRight)
                + Via(nr51, 0x04, AnalogOutput(c, 2) * gainRight) + Via(nr51, 0x08, AnalogOutput(c, 3) * gainRight)
  }

  lemma MixIsRouted(c: Control)
    ensures if c.master then Routed(c, MixLeft(c), MixRight(c)) else MixLeft(c) == MixRight(c) == 0
  {
    hide AnalogOutput;
    RoutedFour(c, true, LeftVolume(c));
    RoutedFour(c, false, RightVolume(c));
    hide RoutedTo;
  }

  lemma RoutedFour(c: Control, left: bool, gain: nat)
    ensures var w, nr51 := if left then 16 else 1, c.regs[0x15];
            RoutedTo(c, left, gain, 4)
            == Via(nr51, w, AnalogOutput(c, 0) * gain) + Via(nr51, 2 * w, AnalogOutput(c, 1) * gain)
               + Via(nr51, 4 * w, AnalogOutput(c, 2) * gain) + Via(nr51, 8 * w, AnalogOutput(c, 3) * gain)
  {
    hide AnalogOutput;
    forall n: nat | n < 4
      ensures RoutedTo(c, left, gain, n + 1) == RoutedTo(c, left, gain, n)
           + Via(c.regs[0x15], RouteBit(left, n), AnalogOutput(c, n) * gain)
    {
      MixStep(c, left, gain, n);
    }
    MixNothing(c, left, gain);
    hide RoutedTo, Via;
    assert RoutedTo(c, left, gain, 4) == RoutedTo(c, left, gain, 3)
         + Via(c.regs[0x15], RouteBit(left, 3), AnalogOutput(c, 3) * gain);
  }

  lemma AnalogBound(c: Control, i: nat)
    requires i < 4 && ChannelsInv(c)
    ensures Abs(AnalogOutput(c, i)) <= 15
  {
    assert ChannelInv(c.channels[i], i);
  }

  lemma ScaleBound(x: int, v: nat)
    requires Abs(x) <= 15 && v <= 8
    ensures Abs(Scaled(x, v)) <= 120
  {
    MulMonotone(x, 15, v);
    MulMonotone(-15, x, v);
  }

  lemma {:induction false} RoutedBound(c: Control, left: bool, volume: nat, n: nat)
    requires n <= 4 && volume <= 8 && ChannelsInv(c)
    ensures Abs(RoutedTo(c, left, volume, n)) <= 120 * n
  {
    hide AnalogOutput, ChannelsInv, TestBit, Scaled;
    if n > 0 {
      RoutedBound(c, left, volume, n - 1);
      AnalogBound(c, n - 1);
      ScaleBound(AnalogOutput(c, n - 1), volume);
    }
  }

  /** The 16-bit mix never leaves -480..480, so its additions cannot overflow. */
  lemma MixBound(c: Control)
    requires ChannelsInv(c)
    ensures Abs(MixLeft(c)) <= 480 && Abs(MixRight(c)) <= 480
  {
    RoutedBound(c, true, LeftVolume(c), 4);
    RoutedBound(c, false, RightVolume(c), 4);
    hide RoutedTo;
  }

  // ---- filters ----

  function RealPow(b: real, n: nat): real {
    if n == 0 then 1.0 else RealPow(b, n - 1) * b
  }

  /** The per-sample high-pass factor: the per-cycle charge factor compounded over 64 cycles. */
  function Charge(cgb: bool): real { RealPow(if cgb then 0.998943 else 0.999958, SAMPLE_CYCLES) }

  function Alpha(cgb: bool): real { if cgb then 0.78 else 0.68 }

  function HighPassOut(raw: real, hpf: real): real { raw - hpf }

  function HighPassNext(raw: real, hpf: real, charge: real): real { raw - (raw - hpf) * charge }

  function LowPassNext(x: real, lpf: real, alpha: real): real { lpf + (x - lpf) * alpha }

  /** Round half away from zero, then saturate to 16 bits. */
  function ClampPcm(x: real): int {
    var rounded := if x >= 0.0 then (x + 0.5).Floor else -((0.5 - x).Floor);
    Max(-0x8000, Min(rounded, 0x7FFF))
  }

  lemma {:induction false} RealPowUnit(b: real, n: nat)
    requires 0.0 < b < 1.0
    ensures 0.0 < RealPow(b, n) <= 1.0
    ensures n > 0 ==> RealPow(b, n) < 1.0
  {
    if n > 0 {
      RealPowUnit(b, n - 1);
      assert RealPow(b, n - 1) * b <= 1.0 * b;
    }
  }

  lemma ChargeUnit(cgb: bool)
    ensures 0.0 < Charge(cgb) < 1.0
  {
    hide RealPow;
    RealPowUnit(if cgb then 0.998943 else 0.999958, SAMPLE_CYCLES);
  }

  /** Bernoulli: with b = 1 / (1 + h), the power b^k is at most 1 / (1 + k * h). */
  lemma {:induction false} PowerShrinks(b: real, h: real, k: nat)
    requires 0.0 < b < 1.0 && h > 0.0 && b * (1.0 + h) == 1.0
    ensures 0.0 < RealPow(b, k) && RealPow(b, k) * (1.0 + k as real * h) <= 1.0
  {
    if k > 0 {
      PowerShrinks(b, h, k - 1);
      RealPowUnit(b, k);
      var p, kh := RealPow(b, k - 1), (k - 1) as real * h;
      assert kh >= 0.0;
      assert k as real * h == kh + h;
      assert b * (1.0 + kh + h) == 1.0 + b * kh;
      RealMonotone(b, 1.0, kh);
      assert b * (1.0 + kh + h) <= 1.0 + kh;
      RealMonotone(b * (1.0 + kh + h), 1.0 + kh, p);
      assert p * b * (1.0 + kh + h) == b * (1.0 + kh + h) * p;
    }
  }

  /** Powers of a factor below 1 fall below any bound and stay there. */
  lemma PowersVanish(b: real, eps: real) returns (k: nat)
    requires 0.0 < b < 1.0 && eps > 0.0
    ensures forall n: nat :: n >= k ==> 0.0 < RealPow(b, n) < eps
  {
    var h := 1.0 / b - 1.0;
    assert b * (1.0 + h) == 1.0;
    assert h > 0.0 by {
      if h <= 0.0 {
        RealMonotone(h, 0.0, b);
      }
    }
    var bound := 1.0 / (eps * h);
    assert eps * h > 0.0;
    k := bound.Floor + 1;
    forall n: nat | n >= k ensures 0.0 < RealPow(b, n) < eps {
      PowerShrinks(b, h, n);
      PowerBelow(RealPow(b, n), eps, h, n as real);
    }
  }

  lemma PowerBelow(p: real, eps: real, h: real, n: real)
    requires p > 0.0 && eps > 0.0 && h > 0.0 && eps * h > 0.0
    requires p * (1.0 + n * h) <= 1.0 && n > 1.0 / (eps * h)
    ensures p < eps
  {
    var nh := n * h;
    StrictlyMonotone(1.0 / (eps * h), n, eps * h);
    assert 1.0 / (eps * h) * (eps * h) == 1.0;
    assert n * (eps * h) == eps * nh;
    assert p * (1.0 + nh) == p + p * nh;
    assert nh > 0.0;
    if p >= eps {
      RealMonotone(eps, p, nh);
    }
  }

  lemma StrictlyMonotone(a: real, b: real, t: real)
    requires a < b && t > 0.0
    ensures a * t < b * t
  {
  }

  lemma RealMonotone(a: real, b: real, t: real)
    requires a <= b && t >= 0.0
    ensures a * t <= b * t
  {
  }

  /** Moving a fraction of the way from one bounded value to another stays bounded. */
  lemma Blend(a: real, b: real, t: real, m: real)
    requires -m <= a <= m && -m <= b <= m && 0.0 <= t <= 1.0
    ensures -m <= a + (b - a) * t <= m
  {
    var u := 1.0 - t;
    var au, bt, mu, mt := a * u, b * t, m * u, m * t;
    assert -mt <= bt <= mt by {
      RealMonotone(b, m, t);
      RealMonotone(-m, b, t);
      assert -m * t == -mt;
    }
    assert -mu <= au <= mu by {
      RealMonotone(a, m, u);
      RealMonotone(-m, a, u);
      assert -m * u == -mu;
    }
    assert mu + mt == m;
    assert a + (b - a) * t == au + bt;
  }

  lemma HighPassBound(raw: real, hpf: real, charge: real)
    requires -30720.0 <= raw <= 30720.0 && -30720.0 <= hpf <= 30720.0 && 0.0 <= charge <= 1.0
    ensures -30720.0 <= HighPassNext(raw, hpf, charge) <= 30720.0
  {
    Blend(raw, hpf, charge, 30720.0);
    assert (raw - hpf) * charge == -((hpf - raw) * charge);
  }

  /** Neither filter memory ever leaves its range, whatever bounded input arrives. */
  lemma FilterBounds(raw: real, hpf: real, lpf: real, cgb: bool)
    requires -30720.0 <= raw <= 30720.0 && -30720.0 <= hpf <= 30720.0 && -61440.0 <= lpf <= 61440.0
    ensures -30720.0 <= HighPassNext(raw, hpf, Charge(cgb)) <= 30720.0
    ensures -61440.0 <= LowPassNext(HighPassOut(raw, hpf), lpf, Alpha(cgb)) <= 61440.0
  {
    hide Charge;
    ChargeUnit(cgb);
    HighPassBound(raw, hpf, Charge(cgb));
    Blend(lpf, raw - hpf, Alpha(cgb), 61440.0);
  }

  /** The capacitor after k frames of constant input. */
  function HighPassAfter(raw: real, hpf: real, charge: real, k: nat): real {
    if k == 0 then hpf else HighPassNext(raw, HighPassAfter(raw, hpf, charge, k - 1), charge)
  }

  /** Constant input decays geometrically at the high-pass output. */
  lemma {:induction false} ConstantInputDecays(raw: real, hpf: real, charge: real, k: nat)
    ensures HighPassOut(raw, HighPassAfter(raw, hpf, charge, k)) == (raw - hpf) * RealPow(charge, k)
  {
    if k > 0 {
      ConstantInputDecays(raw, hpf, charge, k - 1);
      assert (raw - hpf) * RealPow(charge, k - 1) * charge == (raw - hpf) * (RealPow(charge, k - 1) * charge);
    }
  }

  /** So constant input decays to silence: whatever the bound, from some frame on the high-pass output is below it. */
  lemma ConstantInputFallsSilent(raw: real, hpf: real, cgb: bool, eps: real) returns (k: nat)
    requires eps > 0.0
    ensures forall n: nat :: n >= k ==> -eps < HighPassOut(raw, HighPassAfter(raw, hpf, Charge(cgb), n)) < eps
  {
    hide Charge, HighPassOut, HighPassAfter, RealPow;
    ChargeUnit(cgb);
    var offset := raw - hpf;
    var size := if offset >= 0.0 then offset else -offset;
    k := PowersVanish(Charge(cgb), eps / (size + 1.0));
    forall n: nat | n >= k
      ensures -eps < HighPassOut(raw, HighPassAfter(raw, hpf, Charge(cgb), n)) < eps
    {
      ConstantInputDecays(raw, hpf, Charge(cgb), n);
      ScaledBelow(offset, size, RealPow(Charge(cgb), n), eps);
    }
  }

  lemma ScaledBelow(x: real, size: real, p: real, eps: real)
    requires size == (if x >= 0.0 then x else -x) && eps > 0.0 && 0.0 < p < eps / (size + 1.0)
    ensures -eps < x * p < eps
  {
    StrictlyMonotone(p, eps / (size + 1.0), size + 1.0);
    assert eps / (size + 1.0) * (size + 1.0) == eps;
    var sp := size * p;
    assert p * (size + 1.0) == sp + p;
    assert x * p == if x >= 0.0 then sp else -sp;
    assert sp >= 0.0;
  }

  // ---- the queue ----

  function Frames(p: Pcm): nat { |p.queue| / 2 }

  predicate AnyDac(c: Control) {
    c.channels[0].dac || c.channels[1].dac || c.channels[2].dac || c.channels[3].dac
  }

  /** Add one chunk of the current mix, weighted by its length. */
  function Accumulate(p: Pcm, left: int, right: int, n: nat): Pcm {
    p.(accLeft := SatAddI32(p.accLeft, left * n),
       accRight := SatAddI32(p.accRight, right * n),
       accCycles := SatAddU16(p.accCycles, n))
  }

  function RawSample(acc: int, cycles: nat): real { (TruncDiv(acc, Max(cycles, 1)) * 64) as real }

  function Emptied(p: Pcm): Pcm { p.(accLeft := 0, accRight := 0, accCycles := 0) }

  /** The filter memories after one frame of raw input; with every DAC off the high-pass charge stays. */
  function Filtered(p: Pcm, c: Control, left: real, right: real): Pcm {
    if !AnyDac(c) then p.(lpfLeft := 0.0, lpfRight := 0.0) else
    p.(hpfLeft := HighPassNext(left, p.hpfLeft, Charge(c.cgb)),
       hpfRight := HighPassNext(right, p.hpfRight, Charge(c.cgb)),
       lpfLeft := LowPassNext(HighPassOut(left, p.hpfLeft), p.lpfLeft, Alpha(c.cgb)),
       lpfRight := LowPassNext(HighPassOut(right, p.hpfRight), p.lpfRight, Alpha(c.cgb)))
  }

  /** Average and empty the accumulators, then filter. */
  function Filter(p: Pcm, c: Control): Pcm {
    Filtered(Emptied(p), c, RawSample(p.accLeft, p.accCycles), RawSample(p.accRight, p.accCycles))
  }

  lemma FilterKeepsQueue(p: Pcm, c: Control)
    ensures var q := Filter(p, c);
            q.queue == p.queue && q.capacity == p.capacity && q.generated == p.generated && q.dropped == p.dropped
  {
    hide RawSample, HighPassNext, LowPassNext, HighPassOut, Charge, Alpha;
  }

  /** The frame a filter state stands for. */
  function FrameOf(p: Pcm, c: Control): (f: seq<int>)
    ensures |f| == 2 && InRange16(f)
  {
    if AnyDac(c) then [ClampPcm(p.lpfLeft), ClampPcm(p.lpfRight)] else [0, 0]
  }

  /** Evict whole frames until there is room, counting each, then append. */
  function Push(p: Pcm, frame: seq<int>): Pcm {
    var evicted := Max(Frames(p) - p.capacity + 1, 0);
    p.(queue := p.queue[2 * evicted..] + frame,
       dropped := SatAddU64(p.dropped, evicted),
       generated := SatAddU64(p.generated, 1))
  }

  function Enqueue(p: Pcm, c: Control): Pcm {
    var filtered := Filter(p, c);
    Push(filtered, FrameOf(filtered, c))
  }

  /** Remember the mix last reported. */
  function Report(p: Pcm, c: Control): Pcm {
    p.(lastLeft := MixLeft(c), lastRight := MixRight(c), lastMask := MixMask(c))
  }

  lemma AccumulateBound(acc: int, cycles: nat, mix: int, n: nat)
    requires Abs(acc) <= 480 * cycles && Abs(mix) <= 480 && cycles + n <= SAMPLE_CYCLES
    ensures SatAddI32(acc, mix * n) == acc + mix * n
    ensures Abs(acc + mix * n) <= 480 * (cycles + n)
  {
    MulMonotone(mix, 480, n);
    MulMonotone(-480, mix, n);
  }

  lemma RawBound(acc: int, cycles: nat)
    requires Abs(acc) <= 480 * cycles
    ensures -30720.0 <= RawSample(acc, cycles) <= 30720.0
  {
    TruncDivBound(acc, Max(cycles, 1), 480);
    hide TruncDiv;
  }

  lemma FilterKeepsInv(p: Pcm, c: Control)
    requires PcmInv(p)
    ensures PcmInv(Filter(p, c)) && Filter(p, c).accCycles == 0
  {
    RawBound(p.accLeft, p.accCycles);
    RawBound(p.accRight, p.accCycles);
    FilterBounds(RawSample(p.accLeft, p.accCycles), p.hpfLeft, p.lpfLeft, c.cgb);
    FilterBounds(RawSample(p.accRight, p.accCycles), p.hpfRight, p.lpfRight, c.cgb);
    hide RawSample, HighPassNext, LowPassNext, HighPassOut, Charge, Alpha;
  }

  lemma KeptInRange(q: seq<int>, k: nat, frame: seq<int>)
    requires k <= |q| && InRange16(q) && InRange16(frame)
    ensures InRange16(q[k..] + frame)
  {
  }

  lemma EvictionFits(samples: nat, capacity: Capacity)
    requires samples % 2 == 0 && samples <= 2 * capacity
    ensures var evicted := Max(samples / 2 - capacity + 1, 0);
            2 * evicted <= samples && (samples - 2 * evicted) % 2 == 0 && samples - 2 * evicted + 2 <= 2 * capacity
  {
  }

  lemma PushKeepsInv(p: Pcm, frame: seq<int>)
    requires PcmInv(p) && |frame| == 2 && InRange16(frame)
    ensures PcmInv(Push(p, frame))
  {
    hide InRange16;
    var evicted := Max(Frames(p) - p.capacity + 1, 0);
    EvictionFits(|p.queue|, p.capacity);
    KeptInRange(p.queue, 2 * evicted, frame);
    hide Max;
  }

  /** Filtering and queueing a frame keeps every PCM bound. */
  lemma EnqueueKeepsInv(p: Pcm, c: Control)
    requires PcmInv(p)
    ensures PcmInv(Enqueue(p, c)) && Enqueue(p, c).accCycles == 0
  {
    hide Filter, FrameOf, PcmInv;
    FilterKeepsInv(p, c);
    PushKeepsInv(Filter(p, c), FrameOf(Filter(p, c), c));
  }
}
