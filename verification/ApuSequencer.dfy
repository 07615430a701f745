/** The eight-step frame sequencer and the control machine it drives, in chunks and cycle by cycle. */
module ApuSequencer {
  import opened Numbers
  import opened ApuState
  import opened ApuOscillator

  // ---- sequencer events ----

  /** One length clock of one channel. */
  function LengthTick(ch: Channel, counting: bool): Channel {
    if !ch.enabled || !counting || ch.length == 0 then ch
    else ch.(length := ch.length - 1, enabled := ch.length > 1)
  }

  /** Length clocks for the first n channels, in channel order. */
  function ClockLengths(c: Control, n: nat): Control
    requires n <= 4
  {
    if n == 0 then c else
    var before := ClockLengths(c, n - 1);
    var i := n - 1;
    var ticked := LengthTick(before.channels[i], LengthEnabled(before.regs, i));
    before.(channels := before.channels[i := ticked],
            mask := if before.channels[i].enabled && !ticked.enabled then Clear(before.mask, i) else before.mask)
  }

  function ClockLength(c: Control): Control { ClockLengths(c, 4) }

  function ReloadCounter(period: nat): nat { if period == 0 then 8 else period }

  function EnvelopeTick(ch: Channel): Channel {
    if !ch.enabled || !ch.dac || ch.envelopePeriod == 0 then ch else
    var counter := Max(ch.envelopeCounter - 1, 0);
    if counter != 0 then ch.(envelopeCounter := counter) else
    ch.(envelopeCounter := ReloadCounter(ch.envelopePeriod),
        volume := if ch.envelopeIncrease then Min(ch.volume + 1, 15) else Max(ch.volume - 1, 0))
  }

  function ClockEnvelopes(c: Control): Control {
    c.(channels := [EnvelopeTick(c.channels[0]), EnvelopeTick(c.channels[1]),
                    c.channels[2], EnvelopeTick(c.channels[3])])
  }

  /** One sweep calculation in saturating 16-bit arithmetic. */
  function SweepNext(f: nat, shift: nat, negate: bool): nat {
    if negate then Max(f - Shr(f, shift), 0) else Min(f + Shr(f, shift), 0xFFFF)
  }

  /** Store a new pitch for channel 1 in its registers and its shadow. */
  function SetFrequency(c: Control, f: nat): Control {
    c.(regs := c.regs[3 := f % 256][4 := c.regs[4] - c.regs[4] % 8 + f / 256 % 8],
       channels := c.channels[0 := c.channels[0].(shadow := f)])
  }

  predicate SweepActive(ch: Channel) {
    ch.enabled && ch.dac && !(ch.sweepPeriod == 0 && ch.sweepShift == 0)
  }

  /** A sweep is applied when its counter runs out and its period is not zero. */
  predicate SweepDue(ch: Channel) {
    SweepActive(ch) && ch.sweepCounter <= 1 && ch.sweepPeriod != 0
  }

  function SweepCount(ch: Channel): Channel {
    var counter := Max(ch.sweepCounter - 1, 0);
    if !SweepActive(ch) then ch
    else if counter > 0 then ch.(sweepCounter := counter)
    else ch.(sweepCounter := ReloadCounter(ch.sweepPeriod),
             negateUsed := ch.negateUsed || (ch.sweepPeriod != 0 && ch.sweepNegate))
  }

  function ClockSweep(c: Control): Control {
    var counted := c.(channels := c.channels[0 := SweepCount(c.channels[0])]);
    if SweepDue(c.channels[0]) then ApplySweep(counted) else counted
  }

  /** The due sweep: overflow test, pitch update, then a second overflow test on the new pitch. */
  function ApplySweep(c: Control): Control {
    var ch := c.channels[0];
    var next := SweepNext(ch.shadow, ch.sweepShift, ch.sweepNegate);
    if next > 2047 then Disable(c, 0)
    else if ch.sweepShift == 0 then c
    else if SweepNext(next, ch.sweepShift, ch.sweepNegate) > 2047 then Disable(SetFrequency(c, next), 0)
    else SetFrequency(c, next)
  }

  function LengthPhase(c: Control): Control { if c.seqStep % 2 == 0 then ClockLength(c) else c }

  function SweepPhase(c: Control): Control { if c.seqStep == 2 || c.seqStep == 6 then ClockSweep(c) else c }

  function EnvelopePhase(c: Control): Control { if c.seqStep == 7 then ClockEnvelopes(c) else c }

  /** Advance the step first, then dispatch: even steps clock lengths, 2 and 6 the sweep, 7 the envelopes. */
  function SequencerEvent(c: Control): Control {
    EnvelopePhase(SweepPhase(LengthPhase(c.(seqStep := (c.seqStep + 1) % 8))))
  }

  // ---- chunks ----

  function AdvanceChannels(c: Control, n: nat): Control {
    c.(channels := [AdvanceSquare(c.channels[0], Period(c.regs, 0), n),
                    AdvanceSquare(c.channels[1], Period(c.regs, 1), n),
                    AdvanceWave(c.channels[2], c.wave, Period(c.regs, 2), n),
                    AdvanceNoise(c.channels[3], c.regs[0x12], n)])
  }

  function AddCycles(c: Control, n: nat): Control {
    c.(seqCycles := SatAddU16(c.seqCycles, n),
       mixCycles := SatAddU16(c.mixCycles, n),
       sampleCycles := SatAddU16(c.sampleCycles, n))
  }

  /** Everything that happens before the deadlines of a chunk are served. */
  function Elapse(c: Control, n: nat): Control { AddCycles(AdvanceChannels(c, n), n) }

  /** Serve the sample, sequencer and mix deadlines, in that order. */
  function Serve(c: Control): Control {
    var c1 := if c.sampleCycles >= SAMPLE_CYCLES then c.(sampleCycles := c.sampleCycles - SAMPLE_CYCLES) else c;
    var c2 := if c1.seqCycles >= SEQUENCER_CYCLES
              then SequencerEvent(c1.(seqCycles := c1.seqCycles - SEQUENCER_CYCLES)) else c1;
    if c2.mixCycles >= MIX_CYCLES then c2.(mixCycles := c2.mixCycles % MIX_CYCLES) else c2
  }

  function ChunkControl(c: Control, n: nat): Control { Serve(Elapse(c, n)) }

  /** The longest chunk that stays within 16 cycles and stops at the next deadline. */
  function NextChunk(c: Control, remaining: nat): (n: nat)
    requires remaining > 0
    ensures 1 <= n <= Min(remaining, OVERSAMPLE_CYCLES)
    ensures TimersInv(c) ==> n <= Distance(c)
  {
    var n0 := Min(remaining, 0xFFFF);
    var n1 := Min(n0, Max(SAMPLE_CYCLES - c.sampleCycles, 1));
    var n2 := Min(n1, Max(SEQUENCER_CYCLES - c.seqCycles, 1));
    var n3 := Min(n2, Max(MIX_CYCLES - c.mixCycles, 1));
    Max(Min(n3, OVERSAMPLE_CYCLES), 1)
  }

  /** Cycles left until the nearest deadline: always a sample, since the other periods are multiples of 64. */
  ghost function Distance(c: Control): int { SAMPLE_CYCLES - c.sampleCycles }

  // ---- the reference machine: one cycle at a time ----

  function Cycle(c: Control): Control {
    Serve(c.(channels := [CycleSquare(c.channels[0], Period(c.regs, 0)),
                          CycleSquare(c.channels[1], Period(c.regs, 1)),
                          CycleWave(c.channels[2], c.wave, Period(c.regs, 2)),
                          CycleNoise(c.channels[3], c.regs[0x12])],
             seqCycles := c.seqCycles + 1,
             mixCycles := c.mixCycles + 1,
             sampleCycles := c.sampleCycles + 1))
  }

  function Cycles(c: Control, n: nat): Control
    decreases n
  {
    if n == 0 then c else Cycles(Cycle(c), n - 1)
  }

  lemma {:induction false} CyclesAdd(c: Control, a: nat, b: nat)
    ensures Cycles(c, a + b) == Cycles(Cycles(c, a), b)
    decreases a
  {
    hide Cycle;
    if a > 0 {
      CyclesAdd(Cycle(c), a - 1, b);
      assert a + b - 1 == (a - 1) + b;
    }
  }

  // ---- the invariant is inductive ----

  lemma AdvanceKeepsInv(c: Control, n: nat)
    requires ChannelsInv(c)
    ensures ChannelsInv(AdvanceChannels(c, n))
    ensures AdvanceChannels(c, n) == c.(channels := AdvanceChannels(c, n).channels)
  {
    NoiseNeverSticks(c.channels[3].lfsr, Narrow(c.regs[0x12]),
                     Fires(c.channels[3].timer, NoisePeriod(c.regs[0x12]), n));
  }

  /** Length clocks act on each channel separately and touch nothing but channels and mask. */
  lemma {:induction false} LengthsKeepInv(c: Control, n: nat)
    requires n <= 4 && ChannelsInv(c)
    ensures ChannelsInv(ClockLengths(c, n))
    ensures ClockLengths(c, n) == c.(channels := ClockLengths(c, n).channels, mask := ClockLengths(c, n).mask)
    ensures forall i :: 0 <= i < n ==>
              ClockLengths(c, n).channels[i] == LengthTick(c.channels[i], LengthEnabled(c.regs, i))
    ensures forall i :: n <= i < 4 ==> ClockLengths(c, n).channels[i] == c.channels[i]
  {
    hide LengthTick, LengthEnabled, ChannelInv, Agree, Clear;
    if n > 0 {
      LengthsKeepInv(c, n - 1);
      LengthTickAgrees(ClockLengths(c, n - 1), n - 1);
    }
  }

  /** Clocking one length keeps channels and mask together. */
  lemma LengthTickAgrees(c: Control, i: nat)
    requires i < 4 && ChannelsInv(c)
    ensures var ticked := LengthTick(c.channels[i], LengthEnabled(c.regs, i));
            Agree(c.channels[i := ticked],
                  if c.channels[i].enabled && !ticked.enabled then Clear(c.mask, i) else c.mask)
  {
    hide LengthEnabled;
    assert ChannelInv(c.channels[i], i);
  }

  lemma DisableKeepsInv(c: Control, i: nat)
    requires i < 4 && ChannelsInv(c)
    ensures ChannelsInv(Disable(c, i))
  {
  }

  lemma SetFrequencyKeepsInv(c: Control, f: nat)
    requires f <= 2047 && ChannelsInv(c)
    ensures ChannelsInv(SetFrequency(c, f))
  {
  }

  /** A stored pitch reads back, and no bit beside the pitch moves: length gates and other channels stay. */
  lemma StoredPitchReadsBack(c: Control, f: nat)
    requires f <= 2047
    ensures var regs := SetFrequency(c, f).regs;
            && Pitch(regs, 0) == f
            && regs[4] / 8 == c.regs[4] / 8
            && forall j :: 0 <= j < 0x17 && j != 3 && j != 4 ==> regs[j] == c.regs[j]
  {
    var high: nat := c.regs[4];
    assert f == f / 256 * 256 + f % 256 && f / 256 < 8;
    DivUnique(8, high / 8, f / 256);
    assert high - high % 8 == high / 8 * 8;
  }

  lemma ApplySweepKeepsInv(c: Control)
    requires ChannelsInv(c)
    ensures ChannelsInv(ApplySweep(c))
    ensures var d := ApplySweep(c); d == c.(regs := d.regs, channels := d.channels, mask := d.mask)
  {
    var ch := c.channels[0];
    var next := SweepNext(ch.shadow, ch.sweepShift, ch.sweepNegate);
    DisableKeepsInv(c, 0);
    if next <= 2047 {
      SetFrequencyKeepsInv(c, next);
      DisableKeepsInv(SetFrequency(c, next), 0);
    }
  }

  lemma CountKeepsInv(c: Control)
    requires ChannelsInv(c)
    ensures ChannelsInv(c.(channels := c.channels[0 := SweepCount(c.channels[0])]))
  {
    hide SweepCount, ChannelInv, Agree;
    ChannelSound(c, 0);
    CountSound(c.channels[0]);
    ReplaceAgrees(c.channels, c.mask, 0, SweepCount(c.channels[0]));
  }

  lemma ChannelSound(c: Control, i: nat)
    requires ChannelsInv(c) && i < 4
    ensures ChannelInv(c.channels[i], i)
  {
  }

  lemma CountSound(ch: Channel)
    requires ChannelInv(ch, 0)
    ensures ChannelInv(SweepCount(ch), 0) && SweepCount(ch).enabled == ch.enabled
  {
    CountCounts(ch);
    hide SweepCount;
  }

  lemma CountCounts(ch: Channel)
    ensures var t := SweepCount(ch);
            && t == ch.(sweepCounter := t.sweepCounter, negateUsed := t.negateUsed)
            && (ch.sweepCounter <= 8 && ch.sweepPeriod < 8 ==> t.sweepCounter <= 8)
  {
    hide SweepActive;
  }

  lemma SweepKeepsInv(c: Control)
    requires ChannelsInv(c)
    ensures ChannelsInv(ClockSweep(c))
    ensures var d := ClockSweep(c); d == c.(regs := d.regs, channels := d.channels, mask := d.mask)
  {
    hide ApplySweep, SweepDue, SweepCount, Agree;
    var counted := SweepCount(c.channels[0]);
    CountKeepsInv(c);
    ApplySweepKeepsInv(c.(channels := c.channels[0 := counted]));
  }

  lemma EnvelopesKeepInv(c: Control)
    requires ChannelsInv(c)
    ensures ChannelsInv(ClockEnvelopes(c))
    ensures ClockEnvelopes(c) == c.(channels := ClockEnvelopes(c).channels)
  {
    forall i: nat | i < 4
      ensures ChannelInv(c.channels[i], i) && HasBit(c.mask, i) == c.channels[i].enabled
      ensures ChannelInv(EnvelopeTick(c.channels[i]), i) && EnvelopeTick(c.channels[i]).enabled == c.channels[i].enabled
    {
      EnvelopeTickSound(c.channels[i], i);
    }
    hide EnvelopeTick, ChannelInv, HasBit;
  }

  lemma EnvelopeTickSound(ch: Channel, i: nat)
    requires ChannelInv(ch, i)
    ensures ChannelInv(EnvelopeTick(ch), i) && EnvelopeTick(ch).enabled == ch.enabled
  {
  }

  lemma EventKeepsInv(c: Control)
    requires ChannelsInv(c)
    ensures ChannelsInv(SequencerEvent(c))
    ensures var d := SequencerEvent(c);
            d == c.(regs := d.regs, channels := d.channels, mask := d.mask, seqStep := (c.seqStep + 1) % 8)
  {
    hide LengthPhase, SweepPhase, EnvelopePhase, ChannelsInv;
    var c1 := c.(seqStep := (c.seqStep + 1) % 8);
    StepKeepsInv(c, (c.seqStep + 1) % 8);
    PhasesKeepInv(c1);
    PhasesKeepInv(LengthPhase(c1));
    PhasesKeepInv(SweepPhase(LengthPhase(c1)));
  }

  lemma StepKeepsInv(c: Control, step: nat)
    requires ChannelsInv(c)
    ensures ChannelsInv(c.(seqStep := step))
  {
    hide Agree;
  }

  lemma PhasesKeepInv(c: Control)
    requires ChannelsInv(c)
    ensures ChannelsInv(LengthPhase(c)) && ChannelsInv(SweepPhase(c)) && ChannelsInv(EnvelopePhase(c))
    ensures LengthPhase(c) == c.(channels := LengthPhase(c).channels, mask := LengthPhase(c).mask)
    ensures var d := SweepPhase(c); d == c.(regs := d.regs, channels := d.channels, mask := d.mask)
    ensures EnvelopePhase(c) == c.(channels := EnvelopePhase(c).channels)
  {
    hide ClockSweep, ClockLengths, Agree, ClockEnvelopes;
    LengthsKeepInv(c, 4);
    SweepKeepsInv(c);
    EnvelopesKeepInv(c);
  }

  /** The counters of one clock that has reached t cycles within the current sequencer period. */
  ghost predicate TimersAt(c: Control, t: int) {
    && 0 < t <= SEQUENCER_CYCLES
    && c.seqCycles == t
    && c.mixCycles == (t - 1) % MIX_CYCLES + 1
    && c.sampleCycles == (t - 1) % SAMPLE_CYCLES + 1
    && c.seqStep < 8
  }

  /** What no amount of time changes. */
  ghost predicate SameSettings(c: Control, d: Control) {
    c.master == d.master && c.cgb == d.cgb && c.wave == d.wave
  }

  /** A counter that runs from 1 to its period, once the full period is taken off. */
  lemma CounterServed(t: nat, period: nat)
    requires t > 0 && period > 1
    ensures var m := (t - 1) % period + 1;
            t % period == (if m >= period then m - period else m) && (m >= period ==> m % period == m - period)
  {
    DivSplit(t - 1, 1, period);
    if (t - 1) % period + 1 < period {
      DivUnique(period, 0, (t - 1) % period + 1);
    } else {
      DivUnique(period, 1, 0);
    }
  }

  /** What serving leaves of the three counters. */
  lemma CountersServed(t: nat)
    requires 0 < t <= SEQUENCER_CYCLES
    ensures var m := (t - 1) % MIX_CYCLES + 1;
            t % SEQUENCER_CYCLES % MIX_CYCLES == if m >= MIX_CYCLES then m % MIX_CYCLES else m
    ensures var p := (t - 1) % SAMPLE_CYCLES + 1;
            t % SEQUENCER_CYCLES % SAMPLE_CYCLES == if p >= SAMPLE_CYCLES then p - SAMPLE_CYCLES else p
    ensures t % SEQUENCER_CYCLES == (if t >= SEQUENCER_CYCLES then t - SEQUENCER_CYCLES else t)
    ensures t / SEQUENCER_CYCLES == if t >= SEQUENCER_CYCLES then 1 else 0
  {
    CounterServed(t, MIX_CYCLES);
    CounterServed(t, SAMPLE_CYCLES);
    if t == SEQUENCER_CYCLES {
      assert t % MIX_CYCLES == 0 && t % SAMPLE_CYCLES == 0 && t % SEQUENCER_CYCLES == 0;
    } else {
      assert t % SEQUENCER_CYCLES == t;
    }
  }

  lemma ServeKeepsInv(c: Control)
    requires ChannelsInv(c) && TimersAt(c, c.seqCycles)
    ensures ControlInv(Serve(c)) && SameSettings(c, Serve(c))
    ensures Serve(c).seqCycles == c.seqCycles % SEQUENCER_CYCLES
    ensures Serve(c).seqStep == (c.seqStep + c.seqCycles / SEQUENCER_CYCLES) % 8
  {
    hide Agree, SequencerEvent;
    CountersServed(c.seqCycles);
    var c1 := if c.sampleCycles >= SAMPLE_CYCLES then c.(sampleCycles := c.sampleCycles - SAMPLE_CYCLES) else c;
    if c1.seqCycles >= SEQUENCER_CYCLES {
      EventKeepsInv(c1.(seqCycles := c1.seqCycles - SEQUENCER_CYCLES));
    }
  }

  lemma ElapseKeepsInv(c: Control, n: nat)
    requires ControlInv(c) && 1 <= n <= Distance(c)
    ensures ChannelsInv(Elapse(c, n)) && TimersAt(Elapse(c, n), c.seqCycles + n)
  {
    hide AdvanceChannels;
    AdvanceKeepsInv(c, n);
  }

  lemma ChunkKeepsInv(c: Control, n: nat)
    requires ControlInv(c) && 1 <= n <= Distance(c)
    ensures ControlInv(ChunkControl(c, n)) && SameSettings(c, ChunkControl(c, n))
    ensures ChunkControl(c, n).seqCycles == (c.seqCycles + n) % SEQUENCER_CYCLES
    ensures ChunkControl(c, n).seqStep == (c.seqStep + (c.seqCycles + n) / SEQUENCER_CYCLES) % 8
  {
    ElapseKeepsInv(c, n);
    ServeKeepsInv(Elapse(c, n));
  }

  // ---- a chunk is as many cycles of the reference machine ----

  lemma CycleIsChunk(c: Control)
    requires ControlInv(c)
    ensures Cycle(c) == ChunkControl(c, 1)
  {
    hide Serve, Period;
    forall i | 0 <= i < 4 {
      OneCycle(c.channels[i], c.wave, Period(c.regs, i), c.regs[0x12]);
    }
  }

  lemma AdvanceAdds(c: Control, a: nat, b: nat)
    requires ChannelsInv(c)
    ensures AdvanceChannels(AdvanceChannels(c, a), b) == AdvanceChannels(c, a + b)
  {
    assert ChannelInv(c.channels[2], 2);
    hide AdvanceSquare, AdvanceWave, AdvanceNoise, Period, ChannelInv, Agree;
    SquareSplit(c.channels[0], Period(c.regs, 0), a, b);
    SquareSplit(c.channels[1], Period(c.regs, 1), a, b);
    WaveSplit(c.channels[2], c.wave, Period(c.regs, 2), a, b);
    NoiseSplit(c.channels[3], c.regs[0x12], a, b);
  }

  /** Short of every deadline, elapsed times add up. */
  lemma ElapseAdds(c: Control, a: nat, b: nat)
    requires ControlInv(c) && 1 <= a && a + b <= Distance(c)
    ensures Elapse(Elapse(c, a), b) == Elapse(c, a + b)
    ensures a < Distance(c) ==> Serve(Elapse(c, a)) == Elapse(c, a)
  {
    ElapsedTwice(c, a, b);
    ElapsedQuietly(c, a);
    hide Elapse, Serve;
  }

  lemma ElapsedTwice(c: Control, a: nat, b: nat)
    requires ControlInv(c) && 1 <= a && a + b <= Distance(c)
    ensures Elapse(Elapse(c, a), b) == Elapse(c, a + b)
  {
    AdvanceAdds(c, a, b);
    AdvanceKeepsInv(c, a);
    AdvanceKeepsInv(c, a + b);
    AdvanceIgnoresCycles(AdvanceChannels(c, a), a, b);
    CyclesAddUp(AdvanceChannels(c, a + b), a, b);
    hide AdvanceChannels, Agree, AddCycles;
  }

  lemma CyclesAddUp(c: Control, a: nat, b: nat)
    requires c.seqCycles + a + b <= 0xFFFF && c.mixCycles + a + b <= 0xFFFF && c.sampleCycles + a + b <= 0xFFFF
    ensures AddCycles(AddCycles(c, a), b) == AddCycles(c, a + b)
  {
  }

  lemma ElapsedQuietly(c: Control, a: nat)
    requires ControlInv(c) && 1 <= a <= Distance(c)
    ensures a < Distance(c) ==> Serve(Elapse(c, a)) == Elapse(c, a)
  {
    AdvanceKeepsInv(c, a);
    hide AdvanceChannels, Agree, Serve;
    if a < Distance(c) {
      ServeQuiet(Elapse(c, a));
    }
  }

  lemma ServeQuiet(c: Control)
    requires c.sampleCycles < SAMPLE_CYCLES && c.seqCycles < SEQUENCER_CYCLES && c.mixCycles < MIX_CYCLES
    ensures Serve(c) == c
  {
  }

  lemma AdvanceIgnoresCycles(c: Control, a: nat, b: nat)
    ensures AdvanceChannels(AddCycles(c, a), b) == AddCycles(AdvanceChannels(c, b), a)
  {
    hide AdvanceSquare, AdvanceWave, AdvanceNoise, Period;
  }

  /** A chunk of n cycles is one cycle followed by a chunk of the rest. */
  lemma ChunkPeel(c: Control, n: nat)
    requires ControlInv(c) && 1 < n <= Distance(c)
    ensures ChunkControl(c, n) == ChunkControl(ChunkControl(c, 1), n - 1)
  {
    ElapseAdds(c, 1, n - 1);
    hide Elapse, Serve, Agree;
  }

  lemma {:induction false} ChunkIsCycles(c: Control, n: nat)
    requires ControlInv(c) && 1 <= n <= Distance(c)
    ensures ChunkControl(c, n) == Cycles(c, n)
    decreases n
  {
    hide Cycle, ChunkControl;
    CycleIsChunk(c);
    if n == 1 {
      assert Cycles(Cycle(c), 0) == Cycle(c);
    } else {
      ChunkPeel(c, n);
      ChunkKeepsInv(c, 1);
      ChunkIsCycles(ChunkControl(c, 1), n - 1);
    }
  }

  lemma WithinReach(c: Control)
    requires ControlInv(c)
    ensures 1 <= Distance(c)
  {
    hide ChannelsInv;
  }

  /** One cycle and n - 1 more, read off the clock. */
  lemma ClockPeel(x: nat, step: nat, n: nat)
    requires n > 0
    ensures ((x + 1) % SEQUENCER_CYCLES + (n - 1)) % SEQUENCER_CYCLES == (x + n) % SEQUENCER_CYCLES
    ensures ((step + (x + 1) / SEQUENCER_CYCLES) % 8 + ((x + 1) % SEQUENCER_CYCLES + (n - 1)) / SEQUENCER_CYCLES) % 8
         == (step + (x + n) / SEQUENCER_CYCLES) % 8
  {
    DivSplit(x + 1, n - 1, SEQUENCER_CYCLES);
    DivSplit(step + (x + 1) / SEQUENCER_CYCLES, ((x + 1) % SEQUENCER_CYCLES + (n - 1)) / SEQUENCER_CYCLES, 8);
  }

  lemma NoCycles(c: Control)
    requires ControlInv(c)
    ensures Cycles(c, 0) == c && SameSettings(c, c)
    ensures c.seqCycles % SEQUENCER_CYCLES == c.seqCycles
    ensures (c.seqStep + c.seqCycles / SEQUENCER_CYCLES) % 8 == c.seqStep
  {
    hide ChannelsInv;
  }

  /** The invariant along any number of cycles, with the clock and the sequencer step in closed form. */
  lemma {:induction false} CyclesKeepInv(c: Control, n: nat)
    requires ControlInv(c)
    ensures ControlInv(Cycles(c, n)) && SameSettings(c, Cycles(c, n))
    ensures Cycles(c, n).seqCycles == (c.seqCycles + n) % SEQUENCER_CYCLES
    ensures Cycles(c, n).seqStep == (c.seqStep + (c.seqCycles + n) / SEQUENCER_CYCLES) % 8
    decreases n
  {
    hide Cycle, ChunkControl, ControlInv;
    if n == 0 {
      NoCycles(c);
    } else {
      CycleIsChunk(c);
      WithinReach(c);
      ChunkKeepsInv(c, 1);
      CyclesKeepInv(Cycle(c), n - 1);
      ClockPeel(c.seqCycles, c.seqStep, n);
    }
  }
}
