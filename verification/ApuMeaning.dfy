/** What reaches the ear: the levels of the channels, their routing, and the samples made from them. */
module ApuMeaning {
  import opened Numbers
  import opened ApuState
  import opened ApuSequencer
  import opened ApuPcm
  import opened ApuRun

  // ---- channel levels ----

  /** Duty 0 to 3 is high for one, two, four and six of the eight phases. */
  predicate High(duty: nat, phase: nat) {
    if duty == 0 then phase == 7
    else if duty == 1 then phase == 0 || phase == 7
    else if duty == 2 then phase == 0 || phase >= 5
    else 1 <= phase <= 6
  }

  /** A DAC that is off contributes nothing, one whose channel is silent the level of digital zero. */
  lemma IdleLevel(c: Control, i: nat)
    requires i < 4 && ChannelsInv(c)
    ensures !c.channels[i].dac ==> AnalogOutput(c, i) == 0
    ensures c.channels[i].dac && !c.channels[i].enabled ==> AnalogOutput(c, i) == 15
  {
    hide DigitalOutput;
  }

  lemma LiveLevel(c: Control, i: nat)
    requires i < 4 && ChannelsInv(c) && c.channels[i].enabled
    ensures HasBit(c.mask, i) && c.channels[i].dac && AnalogOutput(c, i) == 15 - 2 * DigitalOutput(c, i)
    ensures ChannelInv(c.channels[i], i)
  {
    hide DigitalOutput;
  }

  /** A playing square: its volume in the high phases of its duty, once it has turned since power-on. */
  lemma SquareLevel(c: Control, i: nat)
    requires i < 2 && ChannelsInv(c) && c.channels[i].enabled
    ensures var ch, nrx1 := c.channels[i], if i == 0 then c.regs[1] else c.regs[6];
            AnalogOutput(c, i) == if !ch.forceZero && High(nrx1 / 64, ch.duty) then 15 - 2 * ch.volume else 15
  {
    LiveLevel(c, i);
    hide ChannelsInv, HasBit, AnalogOutput;
    var ch, nrx1 := c.channels[i], if i == 0 then c.regs[1] else c.regs[6];
    DutyPhase(nrx1 / 64, ch.duty);
    hide High;
  }

  lemma DutyPhase(duty: nat, phase: nat)
    requires duty < 4 && phase < 8
    ensures DUTY_PATTERNS[duty][phase] != 0 <==> High(duty, phase)
  {
    assert duty == 0 || duty == 1 || duty == 2 || duty == 3;
  }

  /** A playing wave: the high nibble of the held byte at even positions, the low one at odd; muted, whole, halved or
      quartered by NR32. */
  lemma WaveLevel(c: Control)
    requires ChannelsInv(c) && c.channels[2].enabled
    ensures var ch, code := c.channels[2], c.regs[0x0C] / 32 % 4;
            var nibble := if ch.wavePosition % 2 == 0 then ch.waveSample / 16 else ch.waveSample % 16;
            && (code == 0 ==> AnalogOutput(c, 2) == 15)
            && (code == 1 ==> AnalogOutput(c, 2) == 15 - 2 * nibble)
            && (code == 2 ==> AnalogOutput(c, 2) == 15 - 2 * (nibble / 2))
            && (code == 3 ==> AnalogOutput(c, 2) == 15 - 2 * (nibble / 4))
  {
    LiveLevel(c, 2);
    hide ChannelsInv, HasBit, AnalogOutput;
  }

  /** A playing noise: its volume while the lowest bit of the register is clear. */
  lemma NoiseLevel(c: Control)
    requires ChannelsInv(c) && c.channels[3].enabled
    ensures var ch := c.channels[3];
            AnalogOutput(c, 3) == if ch.lfsr % 2 == 0 then 15 - 2 * ch.volume else 15
  {
    LiveLevel(c, 3);
    hide ChannelsInv, HasBit, AnalogOutput;
    LowBit(c.channels[3].lfsr);
  }

  lemma LowBit(l: bv16)
    ensures l & 1 == 0 <==> l % 2 == 0
  {
  }

  /** The active mask and the public enable mask are the playing channels, channel 1 in the lowest bit. */
  lemma MaskLayout(c: Control)
    requires ChannelsInv(c)
    ensures var bits := (if c.channels[0].enabled then 1 else 0) | (if c.channels[1].enabled then 2 else 0)
                        | (if c.channels[2].enabled then 4 else 0) | (if c.channels[3].enabled then 8 else 0);
            c.mask == bits && MixMask(c) == if c.master then bits else 0
  {
    assert HasBit(c.mask, 0) == c.channels[0].enabled && HasBit(c.mask, 1) == c.channels[1].enabled;
    assert HasBit(c.mask, 2) == c.channels[2].enabled && HasBit(c.mask, 3) == c.channels[3].enabled;
    hide ChannelInv;
    MaskBits(c.mask);
    forall n: nat | n < 4
      ensures ActiveTo(c, n + 1)
           == if c.channels[n].enabled && HasBit(c.mask, n) then ActiveTo(c, n) | Bit(n) else ActiveTo(c, n)
    {
      MixStep(c, true, 0, n);
    }
    MixNothing(c, true, 0);
    hide ActiveTo, HasBit;
    assert ActiveTo(c, 4) == ActiveTo(c, 3) | (if c.channels[3].enabled then 8 else 0);
  }

  lemma MaskBits(mask: bv8)
    requires mask & 0xF0 == 0
    ensures mask == (if HasBit(mask, 0) then 1 else 0) | (if HasBit(mask, 1) then 2 else 0)
                    | (if HasBit(mask, 2) then 4 else 0) | (if HasBit(mask, 3) then 8 else 0)
  {
  }

  // ---- samples ----

  /** Sixteen cycles that end no sample: the mix they end on is weighed with them. */
  lemma SixteenCycles(s: State)
    requires Inv(s) && s.ctl.sampleCycles < 48
    ensures Inv(Run(s, 16, false)) && Run(s, 16, false).ctl == Elapse(s.ctl, 16)
    ensures Run(s, 16, false).ctl.sampleCycles == s.ctl.sampleCycles + 16
    ensures var p, c := s.pcm, Elapse(s.ctl, 16);
            Run(s, 16, false).pcm
            == p.(accLeft := p.accLeft + 16 * MixLeft(c), accRight := p.accRight + 16 * MixRight(c),
                  accCycles := p.accCycles + 16)
  {
    hide Elapse, MixLeft, MixRight, Run, Chunk, ControlInv, PcmInv, Accumulate;
    RunIsChunk(s, 16, false);
    RunKeepsInv(s, 16, false);
    QuietChunk(s, 16, false);
    ElapsedSample(s.ctl, 16);
    SixteenWeighed(s);
  }

  /** Sixteen cycles weighed exactly: nothing saturates. */
  lemma SixteenWeighed(s: State)
    requires Inv(s) && s.ctl.sampleCycles <= 48
    ensures var p, c := s.pcm, Elapse(s.ctl, 16);
            Accumulate(p, MixLeft(c), MixRight(c), 16)
            == p.(accLeft := p.accLeft + 16 * MixLeft(c), accRight := p.accRight + 16 * MixRight(c),
                  accCycles := p.accCycles + 16)
  {
    var p, c := s.pcm, Elapse(s.ctl, 16);
    hide MixLeft, MixRight;
    ElapseSound(s.ctl, 16);
    hide ControlInv, Elapse;
    MixBound(c);
    AccumulateBound(p.accLeft, p.accCycles, MixLeft(c), 16);
    AccumulateBound(p.accRight, p.accCycles, MixRight(c), 16);
  }

  lemma ElapseSound(c: Control, n: nat)
    requires ControlInv(c) && c.sampleCycles + n <= 64 && n >= 1
    ensures ChannelsInv(Elapse(c, n))
  {
    hide ChannelsInv, Elapse;
    ElapseKeepsInv(c, n);
  }

  /** The last sixteen cycles of a sample. */
  lemma LastSixteen(s: State)
    requires Inv(s) && s.ctl.sampleCycles == 48
    ensures var p, c := s.pcm, Elapse(s.ctl, 16);
            Run(s, 16, false).pcm
            == Enqueue(p.(accLeft := p.accLeft + 16 * MixLeft(c), accRight := p.accRight + 16 * MixRight(c),
                          accCycles := p.accCycles + 16), c)
  {
    hide Elapse, MixLeft, MixRight, Run, ControlInv, PcmInv, Accumulate, Enqueue, Serve;
    RunIsChunk(s, 16, false);
    SixteenWeighed(s);
    ElapsedSample(s.ctl, 16);
  }

  /** The control state after 16, 32, 48 and 64 cycles of one sample, before its deadlines are served. */
  lemma QuartersOfSample(c: Control)
    requires ControlInv(c) && c.sampleCycles == 0
    ensures Elapse(Elapse(c, 16), 16) == Elapse(c, 32) && Elapse(Elapse(c, 32), 16) == Elapse(c, 48)
    ensures Elapse(Elapse(c, 48), 16) == Elapse(c, 64)
  {
    hide Elapse, ChannelsInv;
    ElapseAdds(c, 16, 16);
    ElapseAdds(c, 32, 16);
    ElapseAdds(c, 48, 16);
  }

  /** The mixes of a sample, taken every sixteen cycles, its last one before the deadlines are served. */
  function LeftSum(c: Control): int {
    MixLeft(Elapse(c, 16)) + MixLeft(Elapse(c, 32)) + MixLeft(Elapse(c, 48)) + MixLeft(Elapse(c, 64))
  }

  function RightSum(c: Control): int {
    MixRight(Elapse(c, 16)) + MixRight(Elapse(c, 32)) + MixRight(Elapse(c, 48)) + MixRight(Elapse(c, 64))
  }

  /** The 64 cycles of one sample queue one frame, made from four mixes of each side. */
  lemma WholeSample(s: State)
    requires Inv(s) && s.ctl.sampleCycles == 0
    ensures Run(s, 64, false).pcm == Enqueue(s.pcm.(accLeft := 16 * LeftSum(s.ctl), accRight := 16 * RightSum(s.ctl),
                                                    accCycles := 64), Elapse(s.ctl, 64))
  {
    hide Run, Elapse, MixLeft, MixRight, Enqueue, ControlInv;
    QuartersOfSample(s.ctl);
    NothingGathered(s);
    var s1 := Run(s, 16, false);
    var s2 := Run(s1, 16, false);
    var s3 := Run(s2, 16, false);
    RunSplitAtBoundary(s, 16, 48, false);
    SixteenCycles(s);
    hide Inv;
    RunSplitAtBoundary(s1, 16, 32, false);
    SixteenCycles(s1);
    RunSplitAtBoundary(s2, 16, 16, false);
    SixteenCycles(s2);
    LastSixteen(s3);
  }

  lemma NothingGathered(s: State)
    requires Inv(s) && s.ctl.sampleCycles == 0
    ensures s.pcm.accLeft == 0 && s.pcm.accRight == 0 && s.pcm.accCycles == 0
  {
  }

  /** The quotient toward zero: a multiple of b at most a in size, with less than b to go. */
  lemma TowardZero(a: int, b: int)
    requires b > 0
    ensures var q := TruncDiv(a, b);
            && (a >= 0 ==> 0 <= q && q * b <= a < (q + 1) * b)
            && (a <= 0 ==> q <= 0 && (q - 1) * b < a <= q * b)
  {
    var x := Abs(a);
    assert x == x / b * b + x % b;
    assert x / b >= 0;
  }

  /** One side filtered once: the input less the high-pass memory feeds the low pass, and the memory follows the input
      by the per-cycle charge factor to the 64th power. */
  ghost predicate Smoothed(input: real, cgb: bool, hpf: real, lpf: real, hpf': real, lpf': real) {
    var charge := RealPow(if cgb then 0.998943 else 0.999958, 64);
    && hpf' == input - (input - hpf) * charge
    && lpf' == lpf + (input - hpf - lpf) * if cgb then 0.78 else 0.68
  }

  /** One frame from what was gathered in 64 cycles: each side is its average mix times 64, smoothed and rounded. While
      every DAC is off frames are silent and the high-pass memories wait. */
  lemma FrameMeaning(p: Pcm, c: Control)
    requires p.accCycles == 64
    ensures var q, n := Enqueue(p, c), |Enqueue(p, c).queue|;
            var l, r := (64 * TruncDiv(p.accLeft, 64)) as real, (64 * TruncDiv(p.accRight, 64)) as real;
            && n >= 2 && q.accLeft == 0 && q.accRight == 0 && q.accCycles == 0
            && ((exists i :: 0 <= i < 4 && c.channels[i].dac) ==>
                  && Smoothed(l, c.cgb, p.hpfLeft, p.lpfLeft, q.hpfLeft, q.lpfLeft)
                  && Smoothed(r, c.cgb, p.hpfRight, p.lpfRight, q.hpfRight, q.lpfRight)
                  && q.queue[n - 2..] == [ClampPcm(q.lpfLeft), ClampPcm(q.lpfRight)])
            && ((forall i :: 0 <= i < 4 ==> !c.channels[i].dac) ==>
                  && q.hpfLeft == p.hpfLeft && q.hpfRight == p.hpfRight && q.lpfLeft == 0.0 && q.lpfRight == 0.0
                  && q.queue[n - 2..] == [0, 0])
  {
    FilterMeaning(p, c);
    var f := Filter(p, c);
    PushEndsWith(f, FrameOf(f, c));
    DacsAre(c);
    hide Filter, Smoothed, TruncDiv, Push, ClampPcm, AnyDac;
  }

  lemma FilterMeaning(p: Pcm, c: Control)
    requires p.accCycles == 64
    ensures var q := Filter(p, c);
            var l, r := (64 * TruncDiv(p.accLeft, 64)) as real, (64 * TruncDiv(p.accRight, 64)) as real;
            && q.accLeft == 0 && q.accRight == 0 && q.accCycles == 0
            && (AnyDac(c) ==>
                  && Smoothed(l, c.cgb, p.hpfLeft, p.lpfLeft, q.hpfLeft, q.lpfLeft)
                  && Smoothed(r, c.cgb, p.hpfRight, p.lpfRight, q.hpfRight, q.lpfRight))
            && (!AnyDac(c) ==>
                  q.hpfLeft == p.hpfLeft && q.hpfRight == p.hpfRight && q.lpfLeft == 0.0 && q.lpfRight == 0.0)
  {
    SideSmoothed(p.accLeft, c.cgb, p.hpfLeft, p.lpfLeft);
    SideSmoothed(p.accRight, c.cgb, p.hpfRight, p.lpfRight);
    hide RawSample, Smoothed, TruncDiv, HighPassNext, LowPassNext, HighPassOut, Charge, Alpha, AnyDac;
  }

  lemma SideSmoothed(acc: int, cgb: bool, hpf: real, lpf: real)
    ensures var input := RawSample(acc, 64);
            && input == (64 * TruncDiv(acc, 64)) as real
            && Smoothed(input, cgb, hpf, lpf, HighPassNext(input, hpf, Charge(cgb)),
                        LowPassNext(HighPassOut(input, hpf), lpf, Alpha(cgb)))
  {
    hide TruncDiv, RealPow;
  }

  lemma DacsAre(c: Control)
    ensures AnyDac(c) <==> exists i :: 0 <= i < 4 && c.channels[i].dac
  {
    if AnyDac(c) {
      var i := if c.channels[0].dac then 0 else if c.channels[1].dac then 1 else if c.channels[2].dac then 2 else 3;
      assert c.channels[i].dac;
    }
  }

  lemma PushEndsWith(p: Pcm, frame: seq<int>)
    requires |frame| == 2
    ensures var q := Push(p, frame);
            && |q.queue| >= 2 && q.queue[|q.queue| - 2..] == frame
            && q == p.(queue := q.queue, dropped := q.dropped, generated := q.generated)
  {
  }

  /** Samples are the nearest 16-bit integers, halves away from zero, and saturate at the ends. */
  lemma ClampMeaning(x: real)
    ensures x >= 32767.0 ==> ClampPcm(x) == 32767
    ensures x <= -32768.0 ==> ClampPcm(x) == -32768
    ensures -32768.0 < x < 32767.0 ==>
              && -0.5 <= ClampPcm(x) as real - x <= 0.5
              && (x > 0.0 ==> ClampPcm(x) as real - x > -0.5)
              && (x < 0.0 ==> ClampPcm(x) as real - x < 0.5)
  {
  }

  /** What a tick reports: the mix of the state it ends in, each side routed, and the channels playing there. */
  lemma TickReports(s: State, n: nat)
    requires Inv(s) && s.ctl.master
    ensures var t := Tick(s, n);
            var bits := (if t.ctl.channels[0].enabled then 1 else 0) | (if t.ctl.channels[1].enabled then 2 else 0)
                        | (if t.ctl.channels[2].enabled then 4 else 0) | (if t.ctl.channels[3].enabled then 8 else 0);
            Routed(t.ctl, t.pcm.lastLeft, t.pcm.lastRight) && t.pcm.lastMask == bits
  {
    var t := Tick(s, n);
    TickKeepsInv(s, n);
    RunKeepsSettings(s, n, true);
    MixIsRouted(t.ctl);
    MaskLayout(t.ctl);
    hide Run, Inv, Routed, MixLeft, MixRight, MixMask;
  }
}
