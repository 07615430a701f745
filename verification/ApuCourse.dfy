/** Channels in the course of time, in the hardware's own numbers: turns of the oscillators, envelopes and sweeps. */
module ApuCourse {
  import opened Numbers
  import opened ApuState
  import opened ApuOscillator
  import opened ApuSequencer
  import opened ApuWrite
  import opened ApuLiveness

  // ---- envelopes over time ----

  /** The part of a channel that envelope clocks read and write. */
  ghost predicate SameEnvelope(ch: Channel, ch': Channel) {
    && ch'.volume == ch.volume && ch'.envelopeCounter == ch.envelopeCounter
    && ch'.envelopePeriod == ch.envelopePeriod && ch'.envelopeIncrease == ch.envelopeIncrease
  }

  lemma SweepPhaseEnvelope(c: Control, i: nat)
    requires i < 4
    ensures SameEnvelope(c.channels[i], SweepPhase(c).channels[i])
  {
    if i == 0 {
      SweepPhaseIs(c);
      SweepTickEnvelope(c.channels[0]);
    } else {
      SweepPhaseLength(c, i);
    }
    hide SweepPhase, SweepTick, LengthEnabled;
  }

  lemma SweepTickEnvelope(ch: Channel)
    ensures SameEnvelope(ch, SweepTick(ch))
  {
    hide SweepNext;
  }

  lemma LengthPhaseEnvelope(c: Control, i: nat)
    requires ChannelsInv(c) && i < 4
    ensures SameEnvelope(c.channels[i], LengthPhase(c).channels[i]) && LengthPhase(c).seqStep == c.seqStep
    ensures c.seqStep == 7 ==> LengthPhase(c).channels[i] == c.channels[i]
  {
    LengthPhaseLength(c, i);
    LengthPhaseKeeps(c);
    hide ChannelsInv, LengthPhase, LengthEnabled;
    OtherTicksKeepSweep(c.channels[i], LengthEnabled(c.regs, i));
    hide LengthTick;
  }

  lemma EnvelopePhaseIs(c: Control, i: nat)
    requires i < 4
    ensures EnvelopePhase(c).channels[i]
         == if c.seqStep == 7 && i != 2 then EnvelopeTick(c.channels[i]) else c.channels[i]
  {
    hide EnvelopeTick;
  }

  /** Envelopes are clocked on step 7 only, and not for channel 3. */
  lemma EventEnvelope(c: Control, i: nat)
    requires ChannelsInv(c) && i < 4
    ensures var due := (c.seqStep + 1) % 8 == 7 && i != 2;
            SameEnvelope(if due then EnvelopeTick(c.channels[i]) else c.channels[i], SequencerEvent(c).channels[i])
  {
    var c1 := c.(seqStep := (c.seqStep + 1) % 8);
    StepKeepsInv(c, (c.seqStep + 1) % 8);
    hide ChannelsInv, LengthPhase, EnvelopePhase, EnvelopeTick;
    LengthPhaseEnvelope(c1, i);
    LengthPhaseKeeps(c1);
    var c2 := LengthPhase(c1);
    SweepPhaseEnvelope(c2, i);
    SweepPhaseStep(c2);
    SweepQuiet(c2);
    var c3 := SweepPhase(c2);
    hide SweepPhase, SameEnvelope;
    EnvelopePhaseIs(c3, i);
    EnvelopeOn(c.channels[i], c2.channels[i], c3.channels[i]);
    EnvelopeOn(EnvelopePhase(c3).channels[i], c3.channels[i], c3.channels[i]);
  }

  lemma EnvelopeOn(r: Channel, s: Channel, t: Channel)
    ensures SameEnvelope(r, r) && (SameEnvelope(r, s) && SameEnvelope(s, t) ==> SameEnvelope(r, t))
  {
  }

  lemma SweepQuiet(c: Control)
    ensures c.seqStep == 7 ==> SweepPhase(c) == c
  {
  }

  /** Step-7 clocks among the next k. */
  function EnvelopeClocks(step: nat, k: nat): nat { (step + k + 1) / 8 - (step + 1) / 8 }

  lemma EnvelopeClocksPeel(step: nat, k: nat)
    requires step < 8 && k > 0
    ensures EnvelopeClocks(step, k)
         == (if (step + 1) % 8 == 7 then 1 else 0) + EnvelopeClocks((step + 1) % 8, k - 1)
    ensures EnvelopeClocks((step + 1) % 8, k - 1) >= 0
  {
    if step == 7 {
      DivStep(step + k + 1, 8);
    }
  }

  /** A volume after k changes of one step each. */
  function Moved(volume: nat, increase: bool, k: nat): int {
    if increase then Min(15, volume + k) else Max(0, volume - k)
  }

  /** The volume changes due within w clocks: one when the counter runs out, then one every pace. */
  function Changes(ch: Channel, w: nat): nat {
    if ch.envelopePeriod == 0 then 0 else Fires(Max(ch.envelopeCounter, 1), ch.envelopePeriod, w)
  }

  lemma ChangesPeel(ch: Channel, w: nat)
    requires ch.enabled && ch.dac && w > 0 && ch.volume <= 15
    ensures var t := EnvelopeTick(ch);
            Moved(ch.volume, ch.envelopeIncrease, Changes(ch, w))
            == Moved(t.volume, t.envelopeIncrease, Changes(t, w - 1))
  {
    var p, t := ch.envelopePeriod, Max(ch.envelopeCounter, 1);
    if p != 0 && t == 1 {
      FireStep(1, p, w);
    }
    hide Fires;
    if p != 0 && t > 1 {
      FiresLater(t, p, w);
    }
  }

  lemma FiresLater(timer: nat, period: nat, n: nat)
    requires timer > 1 && period >= 1 && n > 0
    ensures Fires(timer, period, n) == Fires(timer - 1, period, n - 1)
  {
  }

  /** One event takes its clock off those to come. */
  lemma EventMoves(c: Control, w: nat, i: nat)
    requires ChannelsInv(c) && i < 4
    ensures var ch, d := c.channels[i], SequencerEvent(c).channels[i];
            var clock: nat := if (c.seqStep + 1) % 8 == 7 && i != 2 then 1 else 0;
            d.enabled && w >= clock ==>
              Moved(ch.volume, ch.envelopeIncrease, Changes(ch, w))
              == Moved(d.volume, d.envelopeIncrease, Changes(d, w - clock))
  {
    EventEnvelope(c, i);
    EventLength(c, i);
    EnabledSound(c, i);
    hide SequencerEvent, Agree, EnvelopeTick, Changes, Moved, LengthEnabled;
    var ch, d := c.channels[i], SequencerEvent(c).channels[i];
    if (c.seqStep + 1) % 8 == 7 && i != 2 && d.enabled && w >= 1 {
      ChangesPeel(ch, w);
      SameChanges(EnvelopeTick(ch), d, w - 1);
    } else {
      SameChanges(ch, if SameEnvelope(ch, d) then d else ch, w);
    }
  }

  lemma EnabledSound(c: Control, i: nat)
    requires ChannelsInv(c) && i < 4
    ensures c.channels[i].volume <= 15 && (c.channels[i].enabled ==> c.channels[i].dac)
  {
    ChannelSound(c, i);
  }

  lemma {:induction false} EventsEnvelope(c: Control, k: nat, i: nat)
    requires ChannelsInv(c) && c.seqStep < 8 && i < 4
    ensures var ch, d := c.channels[i], Events(c, k).channels[i];
            var w := if i == 2 then 0 else EnvelopeClocks(c.seqStep, k);
            d.enabled ==> d.volume == Moved(ch.volume, ch.envelopeIncrease, Changes(ch, w))
    decreases k
  {
    hide SequencerEvent, Agree, Changes, Moved, EnvelopeTick, EnvelopeClocks;
    if k == 0 {
      EnabledSound(c, i);
      NothingMoved(c.channels[i], c.seqStep);
    } else {
      var d := SequencerEvent(c);
      EventKeepsInv(c);
      EnvelopeClocksPeel(c.seqStep, k);
      EventMoves(c, if i == 2 then 0 else EnvelopeClocks(c.seqStep, k), i);
      EventsEnvelope(d, k - 1, i);
      if !d.channels[i].enabled {
        OffStaysOff(d, k - 1, i);
      }
    }
  }

  lemma SameChanges(ch: Channel, ch': Channel, w: nat)
    requires SameEnvelope(ch, ch')
    ensures Changes(ch, w) == Changes(ch', w)
  {
  }

  lemma NothingMoved(ch: Channel, step: nat)
    requires ch.volume <= 15
    ensures Moved(ch.volume, ch.envelopeIncrease, Changes(ch, 0)) == ch.volume
    ensures EnvelopeClocks(step, 0) == 0
  {
  }

  /** The volume of a channel still playing after n cycles without a write. Of the sequencer steps passed, one in eight
      clocks the envelope; the volume moves when the envelope counter runs out and then once every pace clocks, up to
      15 or down to 0. Without a pace, and on channel 3, it never moves. */
  lemma EnvelopeFate(c: Control, n: nat, i: nat)
    requires ControlInv(c) && i < 4
    ensures var ch, d := c.channels[i], Cycles(c, n).channels[i];
            var steps := (c.seqCycles + n) / 8192;
            var clocks := if i == 2 then 0 else (c.seqStep + steps + 1) / 8 - (c.seqStep + 1) / 8;
            var moves := Turns(if ch.envelopeCounter == 0 then 1 else ch.envelopeCounter, ch.envelopePeriod, clocks);
            d.enabled ==>
              d.volume == if moves == 0 then ch.volume
                          else if ch.envelopeIncrease then Min(15, ch.volume + moves) else Max(0, ch.volume - moves)
  {
    hide Cycles, ControlInv, Changes, Moved, Turns;
    CyclesEnvelope(c, n, i);
    MovedIs(c.channels[i], if i == 2 then 0 else EnvelopeClocks(c.seqStep, (c.seqCycles + n) / 8192));
  }

  lemma CyclesEnvelope(c: Control, n: nat, i: nat)
    requires ControlInv(c) && i < 4
    ensures var ch, d := c.channels[i], Cycles(c, n).channels[i];
            var w := if i == 2 then 0 else EnvelopeClocks(c.seqStep, (c.seqCycles + n) / SEQUENCER_CYCLES);
            d.enabled ==> d.volume == Moved(ch.volume, ch.envelopeIncrease, Changes(ch, w))
    ensures c.channels[i].volume <= 15
  {
    EnabledSound(c, i);
    CyclesChannel(c, n, i);
    SlowKeepsInv(c);
    StillUpdate(c.channels, i, SILENT);
    var k := (c.seqCycles + n) / SEQUENCER_CYCLES;
    EventsEnvelope(Slow(c), k, i);
    SameChanges(c.channels[i], Still(c.channels[i]), if i == 2 then 0 else EnvelopeClocks(c.seqStep, k));
    hide Cycles, Events, StillAll, Agree, Changes, Moved, EnvelopeClocks;
  }

  lemma MovedIs(ch: Channel, w: nat)
    requires ch.volume <= 15
    ensures var moves := Turns(if ch.envelopeCounter == 0 then 1 else ch.envelopeCounter, ch.envelopePeriod, w);
            Moved(ch.volume, ch.envelopeIncrease, Changes(ch, w))
            == if moves == 0 then ch.volume
               else if ch.envelopeIncrease then Min(15, ch.volume + moves) else Max(0, ch.volume - moves)
  {
  }

  // ---- oscillators over time ----

  /** The part of a channel that its oscillator reads and writes. */
  ghost predicate SameVoice(ch: Channel, ch': Channel) {
    && ch'.timer == ch.timer && ch'.duty == ch.duty && ch'.forceZero == ch.forceZero
    && ch'.wavePosition == ch.wavePosition && ch'.waveSample == ch.waveSample && ch'.lfsr == ch.lfsr
  }

  /** The registers an oscillator reads: only the first has registers that time can change. */
  ghost predicate SameTuning(c: Control, d: Control, i: nat) {
    && d.wave == c.wave
    && (forall j :: 0 <= j < 0x17 && j != 3 && j != 4 ==> d.regs[j] == c.regs[j])
    && (i == 0 ==> d.regs == c.regs)
  }

  /** Whether the pitch of a channel is at rest. */
  predicate Steady(c: Control, i: nat) { i == 0 ==> c.channels[0].sweepShift == 0 }

  lemma SweepKeepsVoice(c: Control, i: nat)
    requires i < 4 && Steady(c, i)
    ensures SameVoice(c.channels[i], SweepPhase(c).channels[i]) && SameTuning(c, SweepPhase(c), i)
  {
    SweepKeepsRegisters(c);
    if i == 0 {
      SweepPhaseIs(c);
      SweepTickVoice(c.channels[0]);
    } else {
      SweepPhaseLength(c, i);
    }
    hide SweepPhase, SweepTick, LengthEnabled;
  }

  lemma SweepTickVoice(ch: Channel)
    ensures SameVoice(ch, SweepTick(ch))
  {
    hide SweepNext;
  }

  lemma SweepKeepsRegisters(c: Control)
    ensures SameTuning(c, SweepPhase(c), if c.channels[0].sweepShift == 0 then 0 else 1)
  {
    hide SweepNext, SweepDue, Clear;
  }

  lemma LengthKeepsVoice(c: Control, i: nat)
    requires ChannelsInv(c) && i < 4
    ensures SameVoice(c.channels[i], LengthPhase(c).channels[i]) && LengthPhase(c).regs == c.regs
    ensures LengthPhase(c).channels[0].sweepShift == c.channels[0].sweepShift && LengthPhase(c).wave == c.wave
  {
    PhasesKeepInv(c);
    hide ChannelsInv, LengthPhase, LengthEnabled;
    LengthPhaseLength(c, i);
    LengthPhaseLength(c, 0);
    OtherTicksKeepSweep(c.channels[i], LengthEnabled(c.regs, i));
    OtherTicksKeepSweep(c.channels[0], LengthEnabled(c.regs, 0));
    hide LengthTick;
  }

  lemma EnvelopeKeepsVoice(c: Control, i: nat)
    requires i < 4
    ensures SameVoice(c.channels[i], EnvelopePhase(c).channels[i])
    ensures EnvelopePhase(c).regs == c.regs && EnvelopePhase(c).wave == c.wave
  {
    OtherTicksKeepSweep(c.channels[i], false);
    hide EnvelopeTick;
  }

  lemma EventKeepsVoice(c: Control, i: nat)
    requires ChannelsInv(c) && i < 4 && Steady(c, i)
    ensures SameVoice(c.channels[i], SequencerEvent(c).channels[i]) && SameTuning(c, SequencerEvent(c), i)
  {
    var c1 := c.(seqStep := (c.seqStep + 1) % 8);
    StepKeepsInv(c, (c.seqStep + 1) % 8);
    hide ChannelsInv, LengthPhase, SweepPhase, EnvelopePhase;
    LengthKeepsVoice(c1, i);
    var c2 := LengthPhase(c1);
    SweepKeepsVoice(c2, i);
    EnvelopeKeepsVoice(SweepPhase(c2), i);
    VoiceOn(c.channels[i], c2.channels[i], SweepPhase(c2).channels[i]);
    VoiceOn(c.channels[i], SweepPhase(c2).channels[i], EnvelopePhase(SweepPhase(c2)).channels[i]);
    hide SameVoice;
  }

  lemma VoiceOn(r: Channel, s: Channel, t: Channel)
    ensures SameVoice(r, s) && SameVoice(s, t) ==> SameVoice(r, t)
  {
  }

  lemma ServeKeepsVoice(c: Control, i: nat)
    requires ChannelsInv(c) && i < 4 && Steady(c, i)
    ensures SameVoice(c.channels[i], Serve(c).channels[i]) && SameTuning(c, Serve(c), i)
    ensures Serve(c).channels[i].enabled ==> c.channels[i].enabled
  {
    hide SequencerEvent, Agree, LengthEnabled;
    var c1 := if c.sampleCycles >= SAMPLE_CYCLES then c.(sampleCycles := c.sampleCycles - SAMPLE_CYCLES) else c;
    if c1.seqCycles >= SEQUENCER_CYCLES {
      EventKeepsVoice(c1.(seqCycles := c1.seqCycles - SEQUENCER_CYCLES), i);
      EventLength(c1.(seqCycles := c1.seqCycles - SEQUENCER_CYCLES), i);
    }
  }

  /** Channel i, with the registers of c, n cycles later. */
  function Advanced(c: Control, i: nat, ch: Channel, n: nat): Channel
    requires i < 4
  {
    if i <= 1 then AdvanceSquare(ch, Period(c.regs, i), n)
    else if i == 2 then AdvanceWave(ch, c.wave, Period(c.regs, 2), n)
    else AdvanceNoise(ch, c.regs[0x12], n)
  }

  lemma SamePeriod(c: Control, d: Control, i: nat)
    requires i < 4 && SameTuning(c, d, i)
    ensures Period(c.regs, i) == Period(d.regs, i) && c.regs[0x12] == d.regs[0x12] && c.wave == d.wave
  {
    hide NoisePeriod;
  }

  lemma TunedAlike(c: Control, d: Control, i: nat, ch: Channel, ch': Channel, n: nat)
    requires i < 4 && SameTuning(c, d, i) && SameVoice(ch, ch') && ch.enabled == ch'.enabled
    ensures SameVoice(Advanced(c, i, ch, n), Advanced(d, i, ch', n))
  {
    SamePeriod(c, d, i);
    SquareAlike(ch, ch', Period(c.regs, i), n);
    WaveAlike(ch, ch', c.wave, Period(c.regs, i), n);
    NoiseAlike(ch, ch', c.regs[0x12], n);
    hide SameTuning, SameVoice, Period, AdvanceSquare, AdvanceWave, AdvanceNoise;
  }

  lemma SquareAlike(ch: Channel, ch': Channel, period: nat, n: nat)
    requires SameVoice(ch, ch') && ch.enabled == ch'.enabled && period >= 1
    ensures SameVoice(AdvanceSquare(ch, period, n), AdvanceSquare(ch', period, n))
  {
    hide Fires, TimerAfter;
  }

  lemma WaveAlike(ch: Channel, ch': Channel, wave: WaveRam, period: nat, n: nat)
    requires SameVoice(ch, ch') && ch.enabled == ch'.enabled && period >= 1
    ensures SameVoice(AdvanceWave(ch, wave, period, n), AdvanceWave(ch', wave, period, n))
  {
    hide Fires, TimerAfter;
  }

  lemma NoiseAlike(ch: Channel, ch': Channel, nr43: u8, n: nat)
    requires SameVoice(ch, ch') && ch.enabled == ch'.enabled
    ensures SameVoice(AdvanceNoise(ch, nr43, n), AdvanceNoise(ch', nr43, n))
  {
    hide NoisePeriod, Fires, TimerAfter, NoiseShifts;
  }

  lemma AdvancedSplit(c: Control, i: nat, ch: Channel, a: nat, b: nat)
    requires i < 4 && ChannelInv(ch, i)
    ensures Advanced(c, i, ch, a + b) == Advanced(c, i, Advanced(c, i, ch, a), b)
  {
    SquareSplit(ch, Period(c.regs, i), a, b);
    WaveSplit(ch, c.wave, Period(c.regs, i), a, b);
    NoiseSplit(ch, c.regs[0x12], a, b);
    hide Period, AdvanceSquare, AdvanceWave, AdvanceNoise;
  }

  lemma NotAdvanced(c: Control, i: nat, ch: Channel)
    requires i < 4 && ChannelInv(ch, i)
    ensures SameVoice(Advanced(c, i, ch, 0), ch)
  {
    hide Period, NoisePeriod, MaxLength, Frozen, Narrow;
  }

  lemma ElapseVoice(c: Control, i: nat)
    requires i < 4
    ensures Elapse(c, 1).channels[i] == Advanced(c, i, c.channels[i], 1)
    ensures SameTuning(c, Elapse(c, 1), i) && Elapse(c, 1).channels[0].sweepShift == c.channels[0].sweepShift
  {
    hide Period, Fires, TimerAfter, NoisePeriod, NoiseShifts, Frozen, Narrow;
  }

  /** A channel that is off stays off. */
  lemma CyclesStayOff(c: Control, n: nat, i: nat)
    requires ControlInv(c) && i < 4 && !c.channels[i].enabled
    ensures !Cycles(c, n).channels[i].enabled
  {
    CyclesChannel(c, n, i);
    SlowKeepsInv(c);
    StillUpdate(c.channels, i, SILENT);
    OffStaysOff(Slow(c), (c.seqCycles + n) / SEQUENCER_CYCLES, i);
    hide Cycles, Events, StillAll, ControlInv;
  }

  /** As long as a channel plays its oscillator runs as if nothing else existed. */
  lemma {:induction false} CyclesVoice(c: Control, n: nat, i: nat)
    requires ControlInv(c) && i < 4 && Steady(c, i)
    ensures var d := Cycles(c, n).channels[i];
            d.enabled ==> SameVoice(Advanced(c, i, c.channels[i], n), d)
    decreases n
  {
    hide Cycle, Agree, ChannelInv, SameTuning, SameVoice, Advanced, Elapse, Serve, TimersInv, TimersAt;
    ChannelSound(c, i);
    if n == 0 {
      NotAdvanced(c, i, c.channels[i]);
    } else {
      var e, d := Elapse(c, 1), Cycle(c);
      CycleIsChunk(c);
      WithinReach(c);
      ElapseKeepsInv(c, 1);
      ChunkKeepsInv(c, 1);
      ElapseVoice(c, i);
      ServeKeepsVoice(e, i);
      CyclesSettings(c, 1);
      CyclesVoice(d, n - 1, i);
      if d.channels[i].enabled {
        VoicesJoin(c, e, d, i, n);
        VoiceOn(Advanced(c, i, c.channels[i], n), Advanced(d, i, d.channels[i], n - 1), Cycles(c, n).channels[i]);
      } else {
        CyclesStayOff(d, n - 1, i);
      }
    }
  }

  lemma VoicesJoin(c: Control, e: Control, d: Control, i: nat, n: nat)
    requires i < 4 && n > 0 && ChannelInv(c.channels[i], i)
    requires e.channels[i] == Advanced(c, i, c.channels[i], 1) && SameTuning(c, e, i) && SameTuning(e, d, i)
    requires SameVoice(e.channels[i], d.channels[i]) && d.channels[i].enabled && e.channels[i].enabled
    ensures SameVoice(Advanced(c, i, c.channels[i], n), Advanced(d, i, d.channels[i], n - 1))
  {
    hide Advanced, ChannelInv;
    AdvancedSplit(c, i, c.channels[i], 1, n - 1);
    TunedAlike(c, d, i, e.channels[i], d.channels[i], n - 1);
  }

  /** How often a divider turns within n cycles. */
  function Turns(timer: nat, period: nat, n: nat): nat {
    var first := if timer == 0 then period else timer;
    if period == 0 || n < first then 0 else 1 + (n - first) / period
  }

  /** What a divider holds once it has turned k times within n cycles. */
  function Remaining(timer: nat, period: nat, n: nat, k: nat): int {
    if n == 0 then timer else (if timer == 0 then period else timer) + k * period - n
  }

  lemma FiresAreTurns(timer: nat, period: nat, n: nat)
    requires period >= 1
    ensures Fires(timer, period, n) == Turns(timer, period, n)
    ensures TimerAfter(timer, period, n) == Remaining(timer, period, n, Turns(timer, period, n))
  {
    var first := if timer == 0 then period else timer;
    if n >= first {
      var x := n - first;
      assert x == x / period * period + x % period;
      assert (1 + x / period) * period == period + x / period * period;
    }
  }

  /** The 11-bit pitch in a pair of registers. */
  function PitchOf(high: nat, low: u8): (f: nat)
    ensures f < 2048
  {
    high % 8 * 256 + low
  }

  /** The cycles between two turns of a channel, as its registers program them: 4 or 2 cycles for each of 2048 - f, f
      being the pitch; for the noise channel 8 or 16 * r cycles, doubled s times in 16 bits and at least 8, where r and
      s are the low three and the high four bits of NR43. */
  function Programmed(regs: Regs, i: nat): nat
    requires i < 4
  {
    if i == 0 then 4 * (2048 - PitchOf(regs[4], regs[3]))
    else if i == 1 then 4 * (2048 - PitchOf(regs[9], regs[8]))
    else if i == 2 then 2 * (2048 - PitchOf(regs[14], regs[13]))
    else
      var r: nat := regs[0x12] % 8;
      Max((if r == 0 then 8 else 16 * r) * Pow2(regs[0x12] / 16) % 0x1_0000, 8)
  }

  lemma PeriodIs(regs: Regs, i: nat)
    requires i < 4
    ensures Period(regs, i) == Programmed(regs, i) >= 1
  {
    var nr43 := regs[0x12];
    var r := nr43 % 8;
    assert r == 0 || r == 1 || r == 2 || r == 3 || r == 4 || r == 5 || r == 6 || r == 7;
    hide Pow2;
  }

  ghost predicate SquareStepped(ch: Channel, d: Channel, period: nat, n: nat) {
    var k := Turns(ch.timer, period, n);
    && d.timer == Remaining(ch.timer, period, n, k)
    && d.duty == (ch.duty + k) % 8 && d.forceZero == (ch.forceZero && k == 0)
  }

  ghost predicate WaveStepped(ch: Channel, d: Channel, wave: WaveRam, period: nat, n: nat) {
    var k := Turns(ch.timer, period, n);
    && d.timer == Remaining(ch.timer, period, n, k)
    && d.wavePosition == (ch.wavePosition + k) % 32
    && d.waveSample == (if k == 0 then ch.waveSample else wave[(ch.wavePosition + k) % 32 / 2])
  }

  ghost predicate NoiseStepped(ch: Channel, d: Channel, narrow: bool, period: nat, n: nat) {
    var k := Turns(ch.timer, period, n);
    && d.timer == Remaining(ch.timer, period, n, k)
    && d.lfsr == NoiseShifts(ch.lfsr, narrow, k)
  }

  /** A square channel that plays for n cycles steps its duty once every programmed period, and sounds from the first
      step on. */
  lemma SquareTurns(c: Control, n: nat, i: nat)
    requires ControlInv(c) && i < 2 && (i == 0 ==> c.channels[0].sweepShift == 0)
    ensures var d := Cycles(c, n).channels[i];
            d.enabled ==> SquareStepped(c.channels[i], d, Programmed(c.regs, i), n)
  {
    hide Cycles, ControlInv, Period, SquareStepped, Programmed;
    CyclesSquare(c, n, i);
    PeriodIs(c.regs, i);
  }

  lemma CyclesSquare(c: Control, n: nat, i: nat)
    requires ControlInv(c) && i < 2 && Steady(c, i)
    ensures var d := Cycles(c, n).channels[i];
            d.enabled ==> SquareStepped(c.channels[i], d, Period(c.regs, i), n)
  {
    hide Cycles, ControlInv, Period;
    CyclesVoice(c, n, i);
    StillOff(c, n, i);
    SquareSteps(c.channels[i], Period(c.regs, i), n);
    hide AdvanceSquare, Turns, Remaining;
  }

  lemma SquareSteps(ch: Channel, period: nat, n: nat)
    requires period >= 1
    ensures ch.enabled ==> SquareStepped(ch, AdvanceSquare(ch, period, n), period, n)
  {
    FiresAreTurns(ch.timer, period, n);
    hide Fires, TimerAfter, Turns, Remaining;
  }

  lemma StillOff(c: Control, n: nat, i: nat)
    requires ControlInv(c) && i < 4
    ensures Cycles(c, n).channels[i].enabled ==> c.channels[i].enabled
  {
    hide Cycles, ControlInv;
    if !c.channels[i].enabled {
      CyclesStayOff(c, n, i);
    }
  }

  /** A wave channel that plays for n cycles steps its position once every programmed period, and holds the byte last
      stepped to. */
  lemma WaveTurns(c: Control, n: nat)
    requires ControlInv(c)
    ensures var d := Cycles(c, n).channels[2];
            d.enabled ==> WaveStepped(c.channels[2], d, c.wave, Programmed(c.regs, 2), n)
  {
    hide Cycles, ControlInv, Period, WaveStepped, Programmed;
    CyclesWave(c, n);
    PeriodIs(c.regs, 2);
  }

  lemma CyclesWave(c: Control, n: nat)
    requires ControlInv(c)
    ensures var d := Cycles(c, n).channels[2];
            d.enabled ==> WaveStepped(c.channels[2], d, c.wave, Period(c.regs, 2), n)
  {
    hide Cycles, ControlInv, Period;
    CyclesVoice(c, n, 2);
    StillOff(c, n, 2);
    WaveSteps(c.channels[2], c.wave, Period(c.regs, 2), n);
    hide AdvanceWave, Turns, Remaining;
  }

  lemma WaveSteps(ch: Channel, wave: WaveRam, period: nat, n: nat)
    requires period >= 1
    ensures ch.enabled ==> WaveStepped(ch, AdvanceWave(ch, wave, period, n), wave, period, n)
  {
    FiresAreTurns(ch.timer, period, n);
    hide Fires, TimerAfter, Turns, Remaining;
  }

  /** A noise channel that plays for n cycles shifts its register once every programmed period, in the width that bit 3
      of NR43 selects; from NR43 = E0 on it stands still. */
  lemma NoiseTurns(c: Control, n: nat)
    requires ControlInv(c)
    ensures var ch, d, nr43 := c.channels[3], Cycles(c, n).channels[3], c.regs[0x12];
            d.enabled ==>
              if nr43 >= 0xE0 then d.lfsr == ch.lfsr && d.timer == ch.timer
              else NoiseStepped(ch, d, nr43 / 8 % 2 == 1, Programmed(c.regs, 3), n)
  {
    CyclesVoice(c, n, 3);
    StillOff(c, n, 3);
    PeriodIs(c.regs, 3);
    hide Cycles, ControlInv, NoisePeriod, Programmed;
    NoiseSteps(c.channels[3], c.regs[0x12], n);
    hide AdvanceNoise, NoiseStepped;
  }

  lemma NoiseSteps(ch: Channel, nr43: u8, n: nat)
    ensures var d := AdvanceNoise(ch, nr43, n);
            ch.enabled ==>
              if nr43 >= 0xE0 then d == ch else NoiseStepped(ch, d, nr43 / 8 % 2 == 1, NoisePeriod(nr43), n)
  {
    FiresAreTurns(ch.timer, NoisePeriod(nr43), n);
    hide NoisePeriod, Fires, TimerAfter, Turns, Remaining, NoiseShifts;
  }

  /** One shift of the noise register: halved, with the difference of its two lowest bits coming in at bit 14 and, in
      narrow mode, replacing bit 6. */
  lemma NoiseShiftIs(l: bv16, narrow: bool)
    requires l < 0x8000
    ensures var r, bit: bv16 := NoiseShift(l, narrow), if l % 2 != l / 2 % 2 then 1 else 0;
            && r / 0x4000 == bit && r / 0x80 % 0x80 == l / 0x100 % 0x80 && r % 0x40 == l / 2 % 0x40
            && r / 0x40 % 2 == if narrow then bit else l / 0x80 % 2
  {
  }

  // ---- the swept pitch over time ----

  /** One sweep: up or down by the pitch divided by 2^shift. */
  function OneSweep(f: nat, shift: nat, negate: bool): nat {
    hide Pow2;
    if negate then Max(f - f / Pow2(shift), 0) else f + f / Pow2(shift)
  }

  function Swept(f: nat, shift: nat, negate: bool, k: nat): nat
    decreases k
  {
    if k == 0 then f else Swept(OneSweep(f, shift, negate), shift, negate, k - 1)
  }

  lemma {:induction false} SweptAdds(f: nat, shift: nat, negate: bool, j: nat, k: nat)
    ensures Swept(Swept(f, shift, negate, j), shift, negate, k) == Swept(f, shift, negate, j + k)
    decreases j
  {
    hide OneSweep;
    if j > 0 {
      SweptAdds(OneSweep(f, shift, negate), shift, negate, j - 1, k);
      assert j + k - 1 == (j - 1) + k;
    }
  }

  /** A logical shift is a division. */
  lemma {:induction false} ShrIsDiv(v: nat, k: nat)
    ensures Shr(v, k) == v / Pow2(k)
    decreases k
  {
    if k > 0 {
      ShrIsDiv(v / 2, k - 1);
      HalvedDiv(v, Pow2(k - 1));
    }
  }

  lemma HalvedDiv(v: nat, p: nat)
    requires p >= 1
    ensures v / 2 / p == v / (2 * p)
  {
    var q, r := v / 2 / p, v / 2 % p;
    assert v / 2 == q * p + r;
    assert q * (2 * p) == 2 * (q * p);
    DivUnique(2 * p, q, 2 * r + v % 2);
  }

  /** Channel 1 of d as k sweeps leave that of c: the pitch is swept if there is a shift, the registers hold what was
      swept last, nothing beside the pitch bits moves, and a negated sweep is remembered. */
  ghost predicate SweptTo(c: Control, d: Control, k: nat) {
    var ch, ch' := c.channels[0], d.channels[0];
    var k' := if ch.sweepShift == 0 then 0 else k;
    && ch'.sweepShift == ch.sweepShift && ch'.sweepNegate == ch.sweepNegate && ch'.sweepPeriod == ch.sweepPeriod
    && ch'.shadow == Swept(ch.shadow, ch.sweepShift, ch.sweepNegate, k')
    && ch'.negateUsed == (ch.negateUsed || (ch.sweepNegate && k > 0))
    && (k' == 0 ==> d.regs[3] == c.regs[3] && d.regs[4] == c.regs[4])
    && (k' > 0 ==> PitchOf(d.regs[4], d.regs[3]) == ch'.shadow)
    && d.regs[4] / 8 == c.regs[4] / 8
    && forall j :: 0 <= j < 0x17 && j != 3 && j != 4 ==> d.regs[j] == c.regs[j]
  }

  lemma NotSwept(c: Control)
    ensures SweptTo(c, c, 0)
  {
  }

  lemma SweptOn(c: Control, d: Control, e: Control, j: nat, k: nat)
    requires SweptTo(c, d, j) && SweptTo(d, e, k)
    ensures SweptTo(c, e, j + k)
  {
    var ch := c.channels[0];
    SweptAdds(ch.shadow, ch.sweepShift, ch.sweepNegate, j, k);
    hide Swept, PitchOf;
  }

  /** The same sweep, pitch and registers, whatever else differs. */
  ghost predicate SamePitch(c: Control, d: Control) {
    var ch, ch' := c.channels[0], d.channels[0];
    && ch'.sweepShift == ch.sweepShift && ch'.sweepNegate == ch.sweepNegate && ch'.sweepPeriod == ch.sweepPeriod
    && ch'.sweepCounter == ch.sweepCounter && ch'.shadow == ch.shadow && ch'.negateUsed == ch.negateUsed
    && d.regs == c.regs
  }

  lemma SameSwept(c: Control, c': Control, d: Control, d': Control, k: nat)
    requires SamePitch(c, c') && SamePitch(d, d') && SweptTo(c', d, k)
    ensures SweptTo(c, d', k)
  {
    hide Swept, PitchOf;
  }

  lemma LengthKeepsPitch(c: Control)
    requires ChannelsInv(c)
    ensures SamePitch(c, LengthPhase(c))
    ensures LengthPhase(c).channels[0].enabled ==> c.channels[0].enabled
    ensures LengthPhase(c).channels[0].dac == c.channels[0].dac
  {
    LengthPhaseLength(c, 0);
    hide ChannelsInv, LengthPhase, LengthEnabled;
    OtherTicksKeepSweep(c.channels[0], LengthEnabled(c.regs, 0));
    hide LengthTick;
  }

  lemma EnvelopeKeepsPitch(c: Control)
    ensures SamePitch(c, EnvelopePhase(c))
    ensures EnvelopePhase(c).channels[0].enabled == c.channels[0].enabled
  {
    OtherTicksKeepSweep(c.channels[0], false);
    hide EnvelopeTick;
  }

  /** A sweep clock applies the sweep when its counter has run out, unless the pace is zero. */
  predicate SweepApplies(ch: Channel, step: nat) {
    (step == 2 || step == 6) && ch.sweepCounter <= 1 && ch.sweepPeriod != 0
  }

  /** The counter after a sequencer step: it counts sweep clocks and is reloaded with the pace. */
  function SweepCounterAfter(ch: Channel, step: nat): nat {
    if !(step == 2 || step == 6) || (ch.sweepPeriod == 0 && ch.sweepShift == 0) then ch.sweepCounter
    else if ch.sweepCounter > 1 then ch.sweepCounter - 1
    else if ch.sweepPeriod == 0 then 8 else ch.sweepPeriod
  }

  lemma SweepPhaseSwept(c: Control)
    requires c.channels[0].shadow <= 2047 && (c.channels[0].enabled ==> c.channels[0].dac)
    ensures var ch, d := c.channels[0], SweepPhase(c);
            d.channels[0].enabled ==>
              && SweptTo(c, d, if SweepApplies(ch, c.seqStep) then 1 else 0)
              && d.channels[0].sweepCounter == SweepCounterAfter(ch, c.seqStep)
  {
    NotSwept(c);
    if c.seqStep == 2 || c.seqStep == 6 {
      ClockSweepSwept(c);
    }
    hide ClockSweep, SweptTo;
  }

  lemma ClockSweepSwept(c: Control)
    requires c.channels[0].shadow <= 2047 && (c.channels[0].enabled ==> c.channels[0].dac)
    ensures var ch, d := c.channels[0], ClockSweep(c);
            d.channels[0].enabled ==>
              && SweptTo(c, d, if SweepApplies(ch, 2) then 1 else 0)
              && d.channels[0].sweepCounter == SweepCounterAfter(ch, 2)
  {
    if SweepDue(c.channels[0]) {
      DueSweepSwept(c);
      hide SweptTo, ClockSweep;
    } else {
      SweepWaits(c);
      hide SweptTo, ClockSweep;
    }
  }

  lemma SweepWaits(c: Control)
    requires !SweepDue(c.channels[0]) && (c.channels[0].enabled ==> c.channels[0].dac)
    ensures var ch, d := c.channels[0], ClockSweep(c);
            d.channels[0].enabled ==>
              SweptTo(c, d, 0) && !SweepApplies(ch, 2) && d.channels[0].sweepCounter == SweepCounterAfter(ch, 2)
  {
    NotSwept(c);
    hide Swept, PitchOf;
  }

  lemma DueSweepSwept(c: Control)
    requires c.channels[0].shadow <= 2047 && SweepDue(c.channels[0])
    ensures var ch, d := c.channels[0], ClockSweep(c);
            d.channels[0].enabled ==>
              SweptTo(c, d, 1) && SweepApplies(ch, 2) && d.channels[0].sweepCounter == SweepCounterAfter(ch, 2)
  {
    var ch := c.channels[0];
    SweptOnce(ch.shadow, ch.sweepShift, ch.sweepNegate);
    ApplySweepSwept(c.(channels := c.channels[0 := SweepCount(ch)]));
    hide ApplySweep, PitchOf, Swept, OneSweep;
  }

  lemma SweptOnce(f: nat, shift: nat, negate: bool)
    ensures Swept(f, shift, negate, 0) == f && Swept(f, shift, negate, 1) == OneSweep(f, shift, negate)
  {
    assert Swept(f, shift, negate, 1) == Swept(OneSweep(f, shift, negate), shift, negate, 0);
  }

  /** What an application that leaves channel 1 playing does to it and to the registers. */
  lemma ApplySweepSwept(c: Control)
    ensures var ch, d := c.channels[0], ApplySweep(c);
            var next := OneSweep(ch.shadow, ch.sweepShift, ch.sweepNegate);
            d.channels[0].enabled ==>
              && d.channels[0] == ch.(shadow := if ch.sweepShift == 0 then ch.shadow else next)
              && (ch.sweepShift == 0 ==> d.regs == c.regs)
              && (ch.sweepShift != 0 ==>
                    PitchOf(d.regs[4], d.regs[3]) == next && d.regs[4] / 8 == c.regs[4] / 8)
              && forall j :: 0 <= j < 0x17 && j != 3 && j != 4 ==> d.regs[j] == c.regs[j]
  {
    var ch := c.channels[0];
    ShrIsDiv(ch.shadow, ch.sweepShift);
    hide Shr, Clear, Pow2;
    var next := SweepNext(ch.shadow, ch.sweepShift, ch.sweepNegate);
    if next <= 2047 {
      StoredPitchReadsBack(c, next);
    }
    Disabled(c, 0);
    Disabled(SetFrequency(c, next), 0);
    hide Disable, HasBit;
  }

  /** Sweep clocks to come, as many changes as the counter and the pace allow. */
  function Sweeps(ch: Channel, w: nat): nat { Turns(Max(ch.sweepCounter, 1), ch.sweepPeriod, w) }

  lemma SweepsPeel(ch: Channel, t: Channel, step: nat, w: nat)
    requires t.sweepPeriod == ch.sweepPeriod && t.sweepCounter == SweepCounterAfter(ch, step)
    ensures var clock: nat := if step == 2 || step == 6 then 1 else 0;
            w >= clock ==> Sweeps(ch, w) == (if SweepApplies(ch, step) then 1 else 0) + Sweeps(t, w - clock)
  {
    var p, first := ch.sweepPeriod, Max(ch.sweepCounter, 1);
    if p != 0 && (step == 2 || step == 6) && w >= 1 {
      FiresAreTurns(first, p, w);
      if first == 1 {
        FireStep(1, p, w);
        FiresAreTurns(p, p, w - 1);
      } else {
        FiresLater(first, p, w);
        FiresAreTurns(first - 1, p, w - 1);
      }
    }
    hide Fires, Turns;
    NoTurns(first, w);
  }

  lemma NoTurns(timer: nat, n: nat)
    ensures forall t: nat, m: nat :: Turns(t, 0, m) == 0
    ensures forall t: nat, p: nat :: t > 0 ==> Turns(t, p, 0) == 0
  {
  }

  /** One event: swept once if it applies the sweep, and the counter taken on. */
  lemma EventSwept(c: Control)
    requires ChannelsInv(c)
    ensures var ch, d, step := c.channels[0], SequencerEvent(c), (c.seqStep + 1) % 8;
            d.channels[0].enabled ==>
              && SweptTo(c, d, if SweepApplies(ch, step) then 1 else 0)
              && d.channels[0].sweepCounter == SweepCounterAfter(ch, step)
  {
    ChannelSound(c, 0);
    var step := (c.seqStep + 1) % 8;
    var c1 := c.(seqStep := step);
    StepKeepsInv(c, step);
    hide Agree, ChannelsInv, LengthPhase, SweepPhase, EnvelopePhase;
    LengthKeepsPitch(c1);
    LengthPhaseKeeps(c1);
    var c2 := LengthPhase(c1);
    SweepPhaseSwept(c2);
    var c3 := SweepPhase(c2);
    EnvelopeKeepsPitch(c3);
    hide SweptTo;
    if SequencerEvent(c).channels[0].enabled {
      SameSwept(c, c2, c3, SequencerEvent(c), if SweepApplies(c.channels[0], step) then 1 else 0);
    }
  }

  lemma {:induction false} EventsSwept(c: Control, k: nat)
    requires ChannelsInv(c) && c.seqStep < 8
    ensures var d := Events(c, k);
            d.channels[0].enabled ==> SweptTo(c, d, Sweeps(c.channels[0], SweepClocks(c.seqStep, k)))
    decreases k
  {
    hide SequencerEvent, Agree, SweptTo, Sweeps, SweepClocks, SweepApplies, SweepCounterAfter;
    if k == 0 {
      NoClocks(c.seqStep);
      NoSweeps(c.channels[0]);
      NotSwept(c);
    } else {
      var d := SequencerEvent(c);
      EventKeepsInv(c);
      EventSwept(c);
      SweepPeel(c.seqStep, k);
      ClocksCount(d.seqStep, k - 1);
      EventsSwept(d, k - 1);
      if d.channels[0].enabled {
        assert d.channels[0].sweepPeriod == c.channels[0].sweepPeriod by { SweptPace(c, d); }
        SweepsPeel(c.channels[0], d.channels[0], d.seqStep, SweepClocks(c.seqStep, k));
        if Events(c, k).channels[0].enabled {
          SweptOn(c, d, Events(c, k), if SweepApplies(c.channels[0], d.seqStep) then 1 else 0,
                  Sweeps(d.channels[0], SweepClocks(d.seqStep, k - 1)));
        }
      } else {
        OffStaysOff(d, k - 1, 0);
      }
    }
  }

  lemma NoSweeps(ch: Channel)
    ensures Sweeps(ch, 0) == 0
  {
  }

  lemma SweptPace(c: Control, d: Control)
    ensures SweptTo(c, d, 0) || SweptTo(c, d, 1) ==> d.channels[0].sweepPeriod == c.channels[0].sweepPeriod
  {
  }

  lemma SamePitchSlow(c: Control)
    ensures SamePitch(c, Slow(c))
  {
    StillUpdate(c.channels, 0, SILENT);
    hide StillAll;
  }

  /** The pitch of a channel 1 still playing after n cycles without a write. Of the sequencer steps passed, one in four
      clocks the sweep; it applies when its counter runs out and then once every pace clocks. */
  lemma SweepPitch(c: Control, n: nat)
    requires ControlInv(c)
    ensures var ch, d, steps := c.channels[0], Cycles(c, n), (c.seqCycles + n) / 8192;
            var clocks := (c.seqStep + steps + 2) / 4 - (c.seqStep + 2) / 4;
            var first := if ch.sweepCounter == 0 then 1 else ch.sweepCounter;
            d.channels[0].enabled ==> SweptTo(c, d, Turns(first, ch.sweepPeriod, clocks))
  {
    hide Cycles, ControlInv, SweptTo, Turns;
    CyclesSwept(c, n);
  }

  lemma CyclesSwept(c: Control, n: nat)
    requires ControlInv(c)
    ensures var d, steps := Cycles(c, n), (c.seqCycles + n) / SEQUENCER_CYCLES;
            d.channels[0].enabled ==> SweptTo(c, d, Sweeps(c.channels[0], SweepClocks(c.seqStep, steps)))
  {
    CyclesAreEvents(c, n);
    CyclesChannel(c, n, 0);
    SlowKeepsInv(c);
    SamePitchSlow(c);
    SamePitchSlow(Cycles(c, n));
    var steps := (c.seqCycles + n) / SEQUENCER_CYCLES;
    EventsSwept(Slow(c), steps);
    hide Cycles, Events, Slow, Agree, SweptTo, Sweeps, SweepClocks;
  }
}
