/** What ticking does to lengths and sweeps in the long run. */
module ApuLiveness {
  import opened Numbers
  import opened ApuState
  import opened ApuOscillator
  import opened ApuSequencer
  import opened ApuWrite

  // ---- between sequencer events nothing slow changes ----

  /** A channel without its oscillator phase. */
  function Still(ch: Channel): Channel {
    ch.(timer := 0, duty := 0, wavePosition := 0, waveSample := 0, lfsr := 0, forceZero := false)
  }

  function StillAll(channels: Channels): Channels {
    [Still(channels[0]), Still(channels[1]), Still(channels[2]), Still(channels[3])]
  }

  /** The control state without oscillator phases and cycle counters. */
  function Slow(c: Control): Control {
    c.(channels := StillAll(c.channels), seqCycles := 0, mixCycles := 0, sampleCycles := 0)
  }

  /** k sequencer events with no time in between. */
  function Events(c: Control, k: nat): Control
    decreases k
  {
    if k == 0 then c else Events(SequencerEvent(c), k - 1)
  }

  lemma StillUpdate(channels: Channels, i: nat, ch: Channel)
    requires i < 4
    ensures StillAll(channels[i := ch]) == StillAll(channels)[i := Still(ch)]
    ensures StillAll(channels)[i] == Still(channels[i])
  {
    hide Still;
  }

  /** No clock looks at an oscillator phase. */
  lemma LengthTickCommutes(ch: Channel, counting: bool)
    ensures LengthTick(Still(ch), counting) == Still(LengthTick(ch, counting))
  {
  }

  lemma EnvelopeTickCommutes(ch: Channel)
    ensures EnvelopeTick(Still(ch)) == Still(EnvelopeTick(ch))
  {
  }

  lemma SweepCountCommutes(ch: Channel)
    ensures SweepCount(Still(ch)) == Still(SweepCount(ch))
    ensures SweepDue(Still(ch)) == SweepDue(ch)
  {
  }

  lemma DisablingCommutes(ch: Channel)
    ensures Still(ch).enabled == ch.enabled
    ensures Still(ch.(enabled := false)) == Still(ch).(enabled := false)
  {
  }

  lemma {:induction false} LengthsCommute(c: Control, n: nat)
    requires n <= 4
    ensures Slow(ClockLengths(c, n)) == ClockLengths(Slow(c), n)
  {
    hide Still, StillAll, LengthTick, Clear, LengthEnabled;
    if n > 0 {
      LengthsCommute(c, n - 1);
      var d := ClockLengths(c, n - 1);
      var ch := d.channels[n - 1];
      LengthTickCommutes(ch, LengthEnabled(d.regs, n - 1));
      DisablingCommutes(ch);
      DisablingCommutes(LengthTick(ch, LengthEnabled(d.regs, n - 1)));
      StillUpdate(d.channels, n - 1, LengthTick(ch, LengthEnabled(d.regs, n - 1)));
    }
  }

  lemma DisableCommutes(c: Control, i: nat)
    requires i < 4
    ensures Slow(Disable(c, i)) == Disable(Slow(c), i)
  {
    hide Still, StillAll, Clear;
    StillUpdate(c.channels, i, c.channels[i].(enabled := false));
    DisablingCommutes(c.channels[i]);
  }

  lemma SetFrequencyCommutes(c: Control, f: nat)
    ensures Slow(SetFrequency(c, f)) == SetFrequency(Slow(c), f)
  {
    hide StillAll;
    StillUpdate(c.channels, 0, c.channels[0].(shadow := f));
  }

  lemma ApplySweepCommutes(c: Control)
    ensures Slow(ApplySweep(c)) == ApplySweep(Slow(c))
  {
    var ch := c.channels[0];
    StillUpdate(c.channels, 0, ch);
    var next := SweepNext(ch.shadow, ch.sweepShift, ch.sweepNegate);
    DisableCommutes(c, 0);
    SetFrequencyCommutes(c, next);
    DisableCommutes(SetFrequency(c, next), 0);
    assert Slow(c).channels[0] == Still(ch);
    hide SweepNext, Disable, SetFrequency, Slow, StillAll;
  }

  lemma SweepCommutes(c: Control)
    ensures Slow(ClockSweep(c)) == ClockSweep(Slow(c))
  {
    hide ApplySweep, SweepDue, SweepCount, Still, StillAll;
    SweepCountCommutes(c.channels[0]);
    var counted := SweepCount(c.channels[0]);
    StillUpdate(c.channels, 0, c.channels[0]);
    StillUpdate(c.channels, 0, counted);
    ApplySweepCommutes(c.(channels := c.channels[0 := counted]));
  }

  lemma EnvelopesCommute(c: Control)
    ensures Slow(ClockEnvelopes(c)) == ClockEnvelopes(Slow(c))
  {
    hide Still, EnvelopeTick;
    forall i | 0 <= i < 4 {
      EnvelopeTickCommutes(c.channels[i]);
    }
  }

  lemma EventCommutes(c: Control)
    ensures Slow(SequencerEvent(c)) == SequencerEvent(Slow(c))
  {
    hide ClockSweep, ClockLengths, ClockEnvelopes, Still, StillAll;
    var c1 := c.(seqStep := (c.seqStep + 1) % 8);
    LengthsCommute(c1, 4);
    SweepCommutes(LengthPhase(c1));
    EnvelopesCommute(SweepPhase(LengthPhase(c1)));
  }

  lemma ServeIsEvent(c: Control)
    requires ChannelsInv(c)
    ensures Slow(Serve(c)) == if c.seqCycles >= SEQUENCER_CYCLES then SequencerEvent(Slow(c)) else Slow(c)
  {
    hide SequencerEvent, Agree, Still, StillAll;
    var c1 := if c.sampleCycles >= SAMPLE_CYCLES then c.(sampleCycles := c.sampleCycles - SAMPLE_CYCLES) else c;
    if c1.seqCycles >= SEQUENCER_CYCLES {
      var c2 := c1.(seqCycles := c1.seqCycles - SEQUENCER_CYCLES);
      EventCommutes(c2);
      EventKeepsInv(c2);
    }
  }

  lemma ElapseKeepsSlow(c: Control, n: nat)
    ensures Slow(Elapse(c, n)) == Slow(c)
  {
  }

  /** Over n cycles the slow part of the machine performs exactly the sequencer events that fall due. */
  lemma {:induction false} CyclesAreEvents(c: Control, n: nat)
    requires ControlInv(c)
    ensures Slow(Cycles(c, n)) == Events(Slow(c), (c.seqCycles + n) / SEQUENCER_CYCLES)
    decreases n
  {
    hide Cycle, Slow, SequencerEvent, Agree, Serve, Elapse;
    if n > 0 {
      CycleIsChunk(c);
      ChunkKeepsInv(c, 1);
      ElapseKeepsInv(c, 1);
      ElapseKeepsSlow(c, 1);
      ServeIsEvent(Elapse(c, 1));
      CyclesAreEvents(Cycle(c), n - 1);
    }
  }

  /** What the channels show after n cycles, read off the event machine. */
  lemma CyclesChannel(c: Control, n: nat, i: nat)
    requires ControlInv(c) && i < 4
    ensures var k := (c.seqCycles + n) / SEQUENCER_CYCLES;
            Still(Cycles(c, n).channels[i]) == Events(Slow(c), k).channels[i]
  {
    CyclesAreEvents(c, n);
    StillUpdate(Cycles(c, n).channels, i, SILENT);
    hide Cycles, Events, Still, StillAll, ControlInv;
  }

  // ---- lengths ----

  /** A length-enabled channel sees one length clock on every even step among the next k. */
  function EvenSteps(step: nat, k: nat): nat { (step + k) / 2 - step / 2 }

  /** One event seen from a channel: never switched on, gates kept, lengths clocked on even steps. */
  lemma EventLength(c: Control, i: nat)
    requires ChannelsInv(c) && i < 4
    ensures var ch, d := c.channels[i], SequencerEvent(c);
            var e := if (c.seqStep + 1) % 2 == 0 then 1 else 0;
            && LengthEnabled(d.regs, i) == LengthEnabled(c.regs, i)
            && (d.channels[i].enabled ==> ch.enabled)
            && (!LengthEnabled(c.regs, i) || ch.length == 0 ==> d.channels[i].length == ch.length)
            && (ch.enabled && LengthEnabled(c.regs, i) && ch.length >= 1 ==>
                  && d.channels[i].length == ch.length - e
                  && (d.channels[i].enabled ==> ch.length > e)
                  && (i != 0 && ch.length > e ==> d.channels[i].enabled))
  {
    hide LengthPhase, SweepPhase, EnvelopePhase, LengthEnabled;
    var c1 := c.(seqStep := (c.seqStep + 1) % 8);
    var c2 := LengthPhase(c1);
    LengthPhaseLength(c1, i);
    SweepPhaseLength(c2, i);
    EnvelopePhaseLength(SweepPhase(c2), i);
    LengthTickLength(c.channels[i], LengthEnabled(c.regs, i));
    hide LengthTick, Agree;
  }

  lemma LengthTickLength(ch: Channel, counting: bool)
    ensures var t := LengthTick(ch, counting);
            && (t.enabled ==> ch.enabled)
            && (!counting || ch.length == 0 ==> t.length == ch.length)
            && (ch.enabled && counting && ch.length >= 1 ==>
                  t.length == ch.length - 1 && (t.enabled <==> ch.length > 1))
  {
  }

  lemma LengthPhaseLength(c: Control, i: nat)
    requires ChannelsInv(c) && i < 4
    ensures var d := LengthPhase(c);
            && d.regs == c.regs
            && d.channels[i] ==
               if c.seqStep % 2 == 0 then LengthTick(c.channels[i], LengthEnabled(c.regs, i)) else c.channels[i]
  {
    hide ClockLengths, Agree, LengthTick;
    LengthsKeepInv(c, 4);
  }

  lemma SweepPhaseLength(c: Control, i: nat)
    requires i < 4
    ensures var ch, d := c.channels[i], SweepPhase(c);
            && d.channels[i].length == ch.length
            && (d.channels[i].enabled ==> ch.enabled)
            && (i != 0 ==> d.channels[i] == ch)
            && LengthEnabled(d.regs, i) == LengthEnabled(c.regs, i)
  {
    hide ClockSweep, LengthEnabled;
    SweepLength(c, i);
  }

  lemma EnvelopePhaseLength(c: Control, i: nat)
    requires i < 4
    ensures var ch, d := c.channels[i], EnvelopePhase(c);
            d.channels[i].length == ch.length && d.channels[i].enabled == ch.enabled && d.regs == c.regs
  {
    hide ClockEnvelopes;
    EnvelopesLength(c, i);
  }

  lemma EnvelopesLength(c: Control, i: nat)
    requires i < 4
    ensures var ch, d := c.channels[i], ClockEnvelopes(c);
            d.channels[i].length == ch.length && d.channels[i].enabled == ch.enabled && d.regs == c.regs
  {
    OtherTicksKeepSweep(c.channels[i], false);
    hide EnvelopeTick;
  }

  lemma EvenStepsPeel(step: nat, k: nat)
    requires step < 8 && k > 0
    ensures EvenSteps(step, k) == (if (step + 1) % 2 == 0 then 1 else 0) + EvenSteps((step + 1) % 8, k - 1)
    ensures EvenSteps((step + 1) % 8, k - 1) >= 0
  {
  }

  lemma SweepLength(c: Control, i: nat)
    requires i < 4
    ensures var ch, d := c.channels[i], ClockSweep(c);
            && d.channels[i].length == ch.length
            && (d.channels[i].enabled ==> ch.enabled)
            && (i != 0 ==> d.channels[i] == ch)
            && LengthEnabled(d.regs, i) == LengthEnabled(c.regs, i)
  {
    hide ApplySweep, LengthEnabled, SweepDue;
    var counted := c.(channels := c.channels[0 := SweepCount(c.channels[0])]);
    ApplySweepLength(counted, i);
  }

  lemma ApplySweepLength(c: Control, i: nat)
    requires i < 4
    ensures var ch, d := c.channels[i], ApplySweep(c);
            && d.channels[i].length == ch.length
            && (d.channels[i].enabled ==> ch.enabled)
            && (i != 0 ==> d.channels[i] == ch)
            && LengthEnabled(d.regs, i) == LengthEnabled(c.regs, i)
  {
    FrequencyKeepsGate(c, SweepNext(c.channels[0].shadow, c.channels[0].sweepShift, c.channels[0].sweepNegate), i);
    hide SweepNext, Clear, LengthEnabled;
  }

  /** A channel that is off stays off until something is written. */
  lemma {:induction false} OffStaysOff(c: Control, k: nat, i: nat)
    requires ChannelsInv(c) && i < 4 && !c.channels[i].enabled
    ensures !Events(c, k).channels[i].enabled
    decreases k
  {
    hide SequencerEvent, Agree;
    if k > 0 {
      EventLength(c, i);
      EventKeepsInv(c);
      OffStaysOff(SequencerEvent(c), k - 1, i);
    }
  }

  lemma {:induction false} LengthAfterEvents(c: Control, k: nat, i: nat)
    requires ChannelsInv(c) && c.seqStep < 8 && i < 4
    requires c.channels[i].enabled && LengthEnabled(c.regs, i) && c.channels[i].length >= 1
    ensures var ch, e := Events(c, k).channels[i], EvenSteps(c.seqStep, k);
            && (ch.enabled ==> e < c.channels[i].length && ch.length == c.channels[i].length - e)
            && (i != 0 && e < c.channels[i].length ==> ch.enabled)
    decreases k
  {
    hide SequencerEvent, Agree, LengthEnabled;
    if k > 0 {
      var d := SequencerEvent(c);
      EventLength(c, i);
      EventKeepsInv(c);
      EvenStepsPeel(c.seqStep, k);
      hide EvenSteps;
      if d.channels[i].enabled {
        LengthAfterEvents(d, k - 1, i);
      } else {
        OffStaysOff(d, k - 1, i);
      }
    }
  }

  /** Without writes, a length-enabled channel with counter L stops after exactly L even sequencer steps, unless it is
      channel 1 and its sweep ends it sooner; until then its counter is L less the even steps passed. */
  lemma LengthRunsOut(c: Control, n: nat, i: nat)
    requires ControlInv(c) && i < 4
    requires c.channels[i].enabled && LengthEnabled(c.regs, i) && c.channels[i].length >= 1
    ensures var ch, L := Cycles(c, n).channels[i], c.channels[i].length;
            var e := EvenSteps(c.seqStep, (c.seqCycles + n) / SEQUENCER_CYCLES);
            && (ch.enabled ==> e < L && ch.length == L - e)
            && (i != 0 || !SweepStops(c, n) ==> (ch.enabled <==> e < L))
  {
    CyclesChannel(c, n, i);
    SlowKeepsInv(c);
    StillUpdate(c.channels, i, SILENT);
    LengthAfterEvents(Slow(c), (c.seqCycles + n) / SEQUENCER_CYCLES, i);
    if i == 0 {
      SweepFate(c, n);
    }
    hide Cycles, Events, StillAll, ControlInv, LengthEnabled, SweepStops;
  }

  lemma SlowKeepsInv(c: Control)
    requires ChannelsInv(c)
    ensures ChannelsInv(Slow(c))
  {
    forall i | 0 <= i < 4
      ensures ChannelInv(Slow(c).channels[i], i) && HasBit(c.mask, i) == Slow(c).channels[i].enabled {
      assert ChannelInv(c.channels[i], i);
    }
  }

  // ---- channel 1 by itself ----

  /** A due sweep as channel 1 sees it. */
  function SweepApplied(ch: Channel): Channel {
    var next := SweepNext(ch.shadow, ch.sweepShift, ch.sweepNegate);
    if next > 2047 then ch.(enabled := false)
    else if ch.sweepShift == 0 then ch
    else ch.(shadow := next, enabled := ch.enabled && SweepNext(next, ch.sweepShift, ch.sweepNegate) <= 2047)
  }

  function SweepTick(ch: Channel): Channel {
    if SweepDue(ch) then SweepApplied(SweepCount(ch)) else SweepCount(ch)
  }

  predicate SweepStep(step: nat) { step == 2 || step == 6 }

  /** A sequencer event as channel 1 sees it, by its gate and the step it brings. */
  function FirstEvent(ch: Channel, gate: bool, step: nat): Channel {
    var clocked := if step % 2 == 0 then LengthTick(ch, gate) else ch;
    var swept := if SweepStep(step) then SweepTick(clocked) else clocked;
    if step == 7 then EnvelopeTick(swept) else swept
  }

  lemma FrequencyKeepsGate(c: Control, f: nat, i: nat)
    requires i < 4
    ensures LengthEnabled(SetFrequency(c, f).regs, i) == LengthEnabled(c.regs, i)
  {
  }

  lemma ApplySweepIs(c: Control)
    ensures ApplySweep(c).channels[0] == SweepApplied(c.channels[0])
    ensures LengthEnabled(ApplySweep(c).regs, 0) == LengthEnabled(c.regs, 0)
  {
    var ch := c.channels[0];
    var next := SweepNext(ch.shadow, ch.sweepShift, ch.sweepNegate);
    FrequencyKeepsGate(c, next, 0);
    Disabled(c, 0);
    Disabled(SetFrequency(c, next), 0);
    assert SetFrequency(c, next).channels[0] == ch.(shadow := next);
    hide SweepNext, SetFrequency, Disable, LengthEnabled, HasBit;
  }

  lemma SweepPhaseIs(c: Control)
    ensures SweepPhase(c).channels[0] == if SweepStep(c.seqStep) then SweepTick(c.channels[0]) else c.channels[0]
    ensures LengthEnabled(SweepPhase(c).regs, 0) == LengthEnabled(c.regs, 0)
  {
    hide ApplySweep, SweepApplied, SweepDue, SweepCount, LengthEnabled;
    ApplySweepIs(c.(channels := c.channels[0 := SweepCount(c.channels[0])]));
  }

  lemma EventIs(c: Control)
    requires ChannelsInv(c)
    ensures SequencerEvent(c).channels[0]
         == FirstEvent(c.channels[0], LengthEnabled(c.regs, 0), (c.seqStep + 1) % 8)
    ensures LengthEnabled(SequencerEvent(c).regs, 0) == LengthEnabled(c.regs, 0)
  {
    hide LengthPhase, SweepPhase, LengthEnabled, LengthTick, SweepTick, EnvelopeTick;
    var c1 := c.(seqStep := (c.seqStep + 1) % 8);
    StepKeepsInv(c, (c.seqStep + 1) % 8);
    hide ChannelsInv;
    LengthPhaseLength(c1, 0);
    LengthPhaseKeeps(c1);
    var c2 := LengthPhase(c1);
    SweepPhaseIs(c2);
    SweepPhaseStep(c2);
  }

  lemma SweepPhaseStep(c: Control)
    requires ChannelsInv(c)
    ensures SweepPhase(c).seqStep == c.seqStep
  {
    hide ClockSweep, Agree;
    SweepKeepsInv(c);
  }

  lemma LengthPhaseKeeps(c: Control)
    requires ChannelsInv(c)
    ensures ChannelsInv(LengthPhase(c)) && LengthPhase(c).seqStep == c.seqStep
  {
    hide ClockLengths, Agree;
    LengthsKeepInv(c, 4);
  }

  /** What no event changes of a sweep, and what it changes only with a shift and a pitch. */
  ghost predicate SameSweep(ch: Channel, ch': Channel) {
    && ch'.sweepShift == ch.sweepShift && ch'.sweepNegate == ch.sweepNegate && ch'.sweepPeriod == ch.sweepPeriod
    && (ch.sweepShift == 0 ==> ch'.shadow == ch.shadow)
    && (ch.shadow == 0 ==> ch'.shadow == 0)
    && (SweepSafe(ch) ==> SweepSafe(ch'))
    && (!SweepSafe(ch) && ch'.enabled ==> !SweepSafe(ch'))
  }

  lemma SweepTickSettings(ch: Channel)
    requires ch.shadow <= 2047
    ensures SameSweep(ch, SweepTick(ch)) && SweepTick(ch).shadow <= 2047
    ensures SweepTick(ch).enabled ==> ch.enabled
  {
    NothingShifted(ch.sweepShift);
    hide Shr;
  }

  lemma {:induction false} NothingShifted(k: nat)
    ensures Shr(0, k) == 0
  {
    if k > 0 {
      NothingShifted(k - 1);
    }
  }

  lemma OtherTicksKeepSweep(ch: Channel, gate: bool)
    ensures var t := LengthTick(ch, gate);
            t == ch.(length := t.length, enabled := t.enabled) && (t.enabled ==> ch.enabled)
    ensures var t := EnvelopeTick(ch); t == ch.(volume := t.volume, envelopeCounter := t.envelopeCounter)
  {
  }

  lemma FirstEventSettings(ch: Channel, gate: bool, step: nat)
    requires ch.shadow <= 2047
    ensures SameSweep(ch, FirstEvent(ch, gate, step)) && FirstEvent(ch, gate, step).shadow <= 2047
    ensures FirstEvent(ch, gate, step).enabled ==> ch.enabled
  {
    var clocked := if step % 2 == 0 then LengthTick(ch, gate) else ch;
    var swept := if SweepStep(step) then SweepTick(clocked) else clocked;
    OtherTicksSame(ch, gate);
    SweepTickSettings(clocked);
    OtherTicksSame(swept, gate);
    hide LengthTick, EnvelopeTick, SweepTick, SameSweep;
    SameSweepOn(ch, clocked, swept);
    SameSweepOn(ch, swept, FirstEvent(ch, gate, step));
  }

  lemma OtherTicksSame(ch: Channel, gate: bool)
    ensures SameSweep(ch, ch)
    ensures SameSweep(ch, LengthTick(ch, gate)) && (LengthTick(ch, gate).enabled ==> ch.enabled)
    ensures SameSweep(ch, EnvelopeTick(ch)) && EnvelopeTick(ch).enabled == ch.enabled
    ensures LengthTick(ch, gate).shadow == ch.shadow == EnvelopeTick(ch).shadow
  {
    OtherTicksKeepSweep(ch, gate);
    hide LengthTick, EnvelopeTick, Shr;
  }

  lemma SameSweepOn(r: Channel, s: Channel, t: Channel)
    requires t.enabled ==> s.enabled
    ensures SameSweep(r, s) && SameSweep(s, t) ==> SameSweep(r, t)
  {
    hide Shr;
  }

  /** The sweep of channel 1 after any number of events. */
  lemma {:induction false} EventsSettings(c: Control, k: nat)
    requires ChannelsInv(c)
    ensures SameSweep(c.channels[0], Events(c, k).channels[0])
    ensures Events(c, k).channels[0].enabled ==> c.channels[0].enabled
    decreases k
  {
    ChannelSound(c, 0);
    hide SequencerEvent, Agree, ChannelInv, LengthEnabled, FirstEvent, Shr;
    if k > 0 {
      EventIs(c);
      EventKeepsInv(c);
      FirstEventSettings(c.channels[0], LengthEnabled(c.regs, 0), (c.seqStep + 1) % 8);
      EventsSettings(SequencerEvent(c), k - 1);
    }
  }

  /** And after any number of cycles. */
  lemma CyclesSettings(c: Control, n: nat)
    requires ControlInv(c)
    ensures SameSweep(c.channels[0], Cycles(c, n).channels[0])
    ensures Cycles(c, n).channels[0].enabled ==> c.channels[0].enabled
  {
    CyclesChannel(c, n, 0);
    SlowKeepsInv(c);
    StillUpdate(c.channels, 0, SILENT);
    EventsSettings(Slow(c), (c.seqCycles + n) / SEQUENCER_CYCLES);
    hide Cycles, Events, StillAll, ControlInv, Shr;
  }

  // ---- how a sweep ends ----

  predicate Climbing(f: nat, shift: nat) { if shift == 0 then f >= 1024 else Shr(f, shift) >= 1 }

  /** An additive sweep that climbs until it overflows. */
  predicate Rising(ch: Channel) {
    !ch.sweepNegate && ch.sweepPeriod != 0 && Climbing(ch.shadow, ch.sweepShift)
  }

  function Raised(f: nat, shift: nat): nat { f + Shr(f, shift) }

  lemma ClimbOn(f: nat, shift: nat)
    requires f <= 2047 && Climbing(f, shift)
    ensures Raised(f, shift) > f
    ensures Raised(f, shift) <= 2047 ==> shift != 0 && Climbing(Raised(f, shift), shift)
  {
    ShrMonotone(f, Raised(f, shift), shift);
    assert Shr(f, 0) == f;
    hide Shr;
  }

  /** How many applications a climbing sweep makes, the one that ends it included. */
  function Applications(f: nat, shift: nat): (r: nat)
    requires f <= 2047 && Climbing(f, shift)
    ensures r >= 1
    decreases 2047 - f
  {
    ClimbOn(f, shift);
    var next := Raised(f, shift);
    if next > 2047 || Raised(next, shift) > 2047 then 1 else 1 + Applications(next, shift)
  }

  /** How many sweep clocks end a rising sweep: those left on the counter, then one period for each application more. */
  function SweepsLeft(ch: Channel): (r: nat)
    requires Rising(ch) && ch.shadow <= 2047
    ensures r >= 1
  {
    Max(ch.sweepCounter, 1) + Product(Applications(ch.shadow, ch.sweepShift) - 1, ch.sweepPeriod)
  }

  function Product(a: nat, b: nat): nat { a * b }

  lemma ProductStep(a: nat, b: nat)
    requires a >= 1
    ensures Product(a, b) == b + Product(a - 1, b) && Product(0, b) == 0
  {
  }

  /** One sweep clock of a rising sweep: one less to go, or the end. */
  lemma SweepTickEnds(ch: Channel)
    requires Rising(ch) && ch.shadow <= 2047 && ch.enabled && ch.dac && ch.sweepPeriod < 8
    ensures var t := SweepTick(ch);
            && (t.enabled <==> SweepsLeft(ch) > 1)
            && (t.enabled ==> t.dac && t.shadow <= 2047 && Rising(t) && SweepsLeft(t) == SweepsLeft(ch) - 1)
  {
    if ch.sweepCounter > 1 {
      assert SweepTick(ch) == ch.(sweepCounter := ch.sweepCounter - 1);
      assert Product(Applications(ch.shadow, ch.sweepShift) - 1, ch.sweepPeriod) >= 0 by { ProductPositive(ch); }
      hide SweepTick, Applications, Product, Climbing;
    } else {
      DueTickEnds(ch);
    }
  }

  lemma ProductPositive(ch: Channel)
    requires Rising(ch) && ch.shadow <= 2047
    ensures Product(Applications(ch.shadow, ch.sweepShift) - 1, ch.sweepPeriod) >= 0
  {
    hide Climbing, Applications;
  }

  lemma DueTickEnds(ch: Channel)
    requires Rising(ch) && ch.shadow <= 2047 && ch.enabled && ch.dac && ch.sweepPeriod < 8 && ch.sweepCounter <= 1
    ensures var t := SweepTick(ch);
            && (t.enabled <==> SweepsLeft(ch) > 1)
            && (t.enabled ==> t.dac && t.shadow <= 2047 && Rising(t) && SweepsLeft(t) == SweepsLeft(ch) - 1)
  {
    var a := Applications(ch.shadow, ch.sweepShift);
    ClimbOn(ch.shadow, ch.sweepShift);
    if a > 1 {
      ProductStep(a - 1, ch.sweepPeriod);
      PositiveProduct(a - 2, ch.sweepPeriod);
    }
    ProductStep(1, ch.sweepPeriod);
    hide Shr, Product;
  }

  lemma PositiveProduct(a: nat, b: nat)
    ensures Product(a, b) >= 0
  {
  }

  /** Any other sweep goes on for ever. */
  lemma SweepTickSteady(ch: Channel)
    requires !Rising(ch) && ch.shadow <= 2047
    ensures SweepTick(ch).enabled == ch.enabled && !Rising(SweepTick(ch))
  {
    assert Shr(ch.shadow, 0) == ch.shadow;
    hide Shr;
  }

  lemma SweepTickKeeps(ch: Channel)
    ensures var t := SweepTick(ch); t.length == ch.length && t.dac == ch.dac && t.sweepPeriod == ch.sweepPeriod
  {
    hide SweepNext;
  }

  /** Whether length clocks count channel 1 down. */
  predicate Counting(c: Control) { LengthEnabled(c.regs, 0) && c.channels[0].length >= 1 }

  function OnEven(step: nat): nat { if step % 2 == 0 then 1 else 0 }

  function OnSweep(step: nat): nat { if SweepStep(step) then 1 else 0 }

  /** One event of a playing channel 1: when it ends, and what it has left otherwise. */
  lemma FirstEventEnds(ch: Channel, gate: bool, step: nat)
    requires ChannelInv(ch, 0) && ch.enabled && step < 8
    ensures var t, counting := FirstEvent(ch, gate, step), gate && ch.length >= 1;
            && (t.enabled
                <==> (counting ==> ch.length > OnEven(step)) && (Rising(ch) ==> SweepsLeft(ch) > OnSweep(step)))
            && (t.enabled ==>
                  && (gate && t.length >= 1) == counting
                  && (counting ==> t.length == ch.length - OnEven(step))
                  && Rising(t) == Rising(ch)
                  && (Rising(ch) ==> t.shadow <= 2047 && SweepsLeft(t) == SweepsLeft(ch) - OnSweep(step)))
  {
    var clocked := if step % 2 == 0 then LengthTick(ch, gate) else ch;
    LengthTickEnds(ch, gate);
    LengthTickLeft(ch, gate);
    hide LengthTick, SweepsLeft, Rising, SweepTick, EnvelopeTick;
    if SweepStep(step) {
      SweepTickLeft(clocked);
    } else if step == 7 {
      EnvelopeTickLeft(clocked);
    }
  }

  lemma LengthTickLeft(ch: Channel, gate: bool)
    requires ch.shadow <= 2047
    ensures var t := LengthTick(ch, gate);
            && t.shadow == ch.shadow && t.dac == ch.dac && t.sweepPeriod == ch.sweepPeriod
            && Rising(t) == Rising(ch) && (Rising(ch) ==> SweepsLeft(t) == SweepsLeft(ch))
  {
    OtherTicksKeepSweep(ch, gate);
    hide LengthTick, Rising, SweepsLeft;
    SameLeft(ch, LengthTick(ch, gate));
  }

  lemma EnvelopeTickLeft(ch: Channel)
    requires ch.shadow <= 2047
    ensures var t := EnvelopeTick(ch);
            && t.shadow == ch.shadow && t.enabled == ch.enabled && t.length == ch.length
            && Rising(t) == Rising(ch) && (Rising(ch) ==> SweepsLeft(t) == SweepsLeft(ch))
  {
    OtherTicksKeepSweep(ch, false);
    hide EnvelopeTick, Rising, SweepsLeft;
    SameLeft(ch, EnvelopeTick(ch));
  }

  lemma SweepTickLeft(ch: Channel)
    requires ch.shadow <= 2047 && ch.sweepPeriod < 8 && (ch.enabled ==> ch.dac)
    ensures var t := SweepTick(ch);
            && t.length == ch.length && t.shadow <= 2047
            && (t.enabled <==> ch.enabled && (Rising(ch) ==> SweepsLeft(ch) > 1))
            && (t.enabled ==> Rising(t) == Rising(ch) && (Rising(ch) ==> SweepsLeft(t) == SweepsLeft(ch) - 1))
  {
    SweepTickSettings(ch);
    SweepTickKeeps(ch);
    hide SweepTick, SweepsLeft, Rising, SameSweep;
    if !Rising(ch) {
      SweepTickSteady(ch);
    } else if ch.enabled {
      SweepTickEnds(ch);
    }
  }

  lemma SameLeft(ch: Channel, t: Channel)
    requires t.shadow == ch.shadow && t.sweepShift == ch.sweepShift && t.sweepNegate == ch.sweepNegate
    requires t.sweepPeriod == ch.sweepPeriod && t.sweepCounter == ch.sweepCounter
    ensures Rising(t) == Rising(ch)
    ensures Rising(ch) && ch.shadow <= 2047 ==> SweepsLeft(t) == SweepsLeft(ch)
  {
    hide Climbing, Applications;
  }

  lemma LengthTickEnds(ch: Channel, gate: bool)
    requires ch.enabled
    ensures var t, counting := LengthTick(ch, gate), gate && ch.length >= 1;
            && (t.enabled <==> (counting ==> ch.length > 1))
            && t.length == (if counting then ch.length - 1 else ch.length)
  {
  }

  /** Sweep clocks, on steps 2 and 6, among the next k. */
  function SweepClocks(step: nat, k: nat): nat { (step + k + 2) / 4 - (step + 2) / 4 }

  lemma ClocksPeel(step: nat, k: nat)
    requires step < 8 && k > 0
    ensures EvenSteps(step, k) == OnEven((step + 1) % 8) + EvenSteps((step + 1) % 8, k - 1)
    ensures SweepClocks(step, k) == OnSweep((step + 1) % 8) + SweepClocks((step + 1) % 8, k - 1)
  {
    EvenPeel(step, k);
    SweepPeel(step, k);
    hide EvenSteps, SweepClocks, OnEven, OnSweep;
  }

  lemma EvenPeel(step: nat, k: nat)
    requires step < 8 && k > 0
    ensures EvenSteps(step, k) == OnEven((step + 1) % 8) + EvenSteps((step + 1) % 8, k - 1)
  {
    EvenStepsPeel(step, k);
    hide EvenSteps;
  }

  lemma SweepPeel(step: nat, k: nat)
    requires step < 8 && k > 0
    ensures SweepClocks(step, k) == OnSweep((step + 1) % 8) + SweepClocks((step + 1) % 8, k - 1)
  {
    if step == 7 {
      DivStep(k + 9, 4);
      DivStep(k + 5, 4);
    }
  }

  lemma NoClocks(step: nat)
    ensures EvenSteps(step, 0) == 0 && SweepClocks(step, 0) == 0
  {
  }

  /** One event of the whole machine, as far as the end of channel 1 is concerned. */
  lemma EventEnds(c: Control)
    requires ChannelsInv(c) && c.seqStep < 8 && c.channels[0].enabled && c.channels[0].shadow <= 2047
    ensures var d, step := SequencerEvent(c), (c.seqStep + 1) % 8;
            var ch, ch' := c.channels[0], d.channels[0];
            && ChannelsInv(d) && d.seqStep == step && ch'.shadow <= 2047
            && (ch'.enabled
                <==> (Counting(c) ==> ch.length > OnEven(step)) && (Rising(ch) ==> SweepsLeft(ch) > OnSweep(step)))
            && (ch'.enabled ==>
                  && Counting(d) == Counting(c)
                  && (Counting(c) ==> ch'.length == ch.length - OnEven(step))
                  && Rising(ch') == Rising(ch)
                  && (Rising(ch) ==> SweepsLeft(ch') == SweepsLeft(ch) - OnSweep(step)))
  {
    ChannelSound(c, 0);
    EventKeepsInv(c);
    EventIs(c);
    ChannelSound(SequencerEvent(c), 0);
    ShadowInRange(SequencerEvent(c).channels[0]);
    hide SequencerEvent, Agree, ChannelInv, LengthEnabled, Rising, SweepsLeft, FirstEvent, OnEven, OnSweep;
    FirstEventEnds(c.channels[0], LengthEnabled(c.regs, 0), (c.seqStep + 1) % 8);
  }

  /** Channel 1 plays as long as neither its counted length nor its rising sweep has run out of clocks. */
  predicate Lasts(c: Control, evens: int, sweeps: int)
    requires c.channels[0].shadow <= 2047
  {
    && (Counting(c) ==> evens < c.channels[0].length)
    && (Rising(c.channels[0]) ==> sweeps < SweepsLeft(c.channels[0]))
  }

  lemma LastsOn(c: Control, evens: nat, sweeps: nat)
    requires ChannelsInv(c) && c.seqStep < 8 && c.channels[0].enabled && c.channels[0].shadow <= 2047
    ensures var d, step := SequencerEvent(c), (c.seqStep + 1) % 8;
            && d.channels[0].shadow <= 2047
            && (Lasts(c, OnEven(step) + evens, OnSweep(step) + sweeps)
                <==> d.channels[0].enabled && Lasts(d, evens, sweeps))
  {
    EventEnds(c);
    hide SequencerEvent, Counting, Rising, SweepsLeft, OnEven, OnSweep, Agree;
  }

  lemma {:induction false} FirstChannelEnds(c: Control, k: nat)
    requires ChannelsInv(c) && c.seqStep < 8 && c.channels[0].enabled && c.channels[0].shadow <= 2047
    ensures Events(c, k).channels[0].enabled <==> Lasts(c, EvenSteps(c.seqStep, k), SweepClocks(c.seqStep, k))
    decreases k
  {
    hide SequencerEvent, Agree, Lasts, EvenSteps, SweepClocks, OnEven, OnSweep;
    if k == 0 {
      NoClocks(c.seqStep);
      LastsNow(c);
    } else {
      var d := SequencerEvent(c);
      EventEnds(c);
      ClocksPeel(c.seqStep, k);
      ClocksCount(d.seqStep, k - 1);
      LastsOn(c, EvenSteps(d.seqStep, k - 1), SweepClocks(d.seqStep, k - 1));
      if d.channels[0].enabled {
        FirstChannelEnds(d, k - 1);
      } else {
        OffStaysOff(d, k - 1, 0);
      }
    }
  }

  lemma LastsNow(c: Control)
    requires c.channels[0].shadow <= 2047
    ensures Lasts(c, 0, 0)
  {
    hide Rising, SweepsLeft, LengthEnabled;
  }

  lemma ClocksCount(step: nat, k: nat)
    ensures EvenSteps(step, k) >= 0 && SweepClocks(step, k) >= 0
  {
  }

  lemma ShadowInRange(ch: Channel)
    requires ChannelInv(ch, 0)
    ensures ch.shadow <= 2047
  {
  }

  /** Within n cycles the length of channel 1 runs out. */
  predicate LengthStops(c: Control, n: nat) {
    Counting(c) && EvenSteps(c.seqStep, (c.seqCycles + n) / SEQUENCER_CYCLES) >= c.channels[0].length
  }

  /** Within n cycles the sweep of channel 1 overflows. */
  predicate SweepStops(c: Control, n: nat) {
    var ch := c.channels[0];
    Rising(ch) && ch.shadow <= 2047
    && SweepClocks(c.seqStep, (c.seqCycles + n) / SEQUENCER_CYCLES) >= SweepsLeft(ch)
  }

  /** The fate of a playing channel 1 to which nothing is written, to the cycle: it is off after n cycles exactly when
      by then its counted length has run out or its rising sweep has made its last application. */
  lemma SweepFate(c: Control, n: nat)
    requires ControlInv(c) && c.channels[0].enabled
    ensures Cycles(c, n).channels[0].enabled <==> !LengthStops(c, n) && !SweepStops(c, n)
    ensures c.channels[0].shadow <= 2047
  {
    CyclesChannel(c, n, 0);
    SlowKeepsInv(c);
    StillUpdate(c.channels, 0, SILENT);
    ChannelSound(c, 0);
    ShadowInRange(c.channels[0]);
    SameLeft(c.channels[0], Still(c.channels[0]));
    FirstChannelEnds(Slow(c), (c.seqCycles + n) / SEQUENCER_CYCLES);
    hide Cycles, Events, StillAll, Agree, ChannelInv, LengthEnabled, Rising, SweepsLeft, EvenSteps, SweepClocks;
  }

  lemma ClocksReach(c: Control, m: nat)
    ensures var k := (c.seqCycles + SEQUENCER_CYCLES * (4 * m)) / SEQUENCER_CYCLES;
            EvenSteps(c.seqStep, k) >= m && SweepClocks(c.seqStep, k) >= m
  {
  }

  /** So it falls silent at some point exactly when its length is counted or its sweep is rising. Uncounted, it plays
      for ever under a negated, paused or stalled sweep. */
  lemma SweepEndsSometime(c: Control)
    requires ControlInv(c) && c.channels[0].enabled
    ensures (exists n: nat :: !Cycles(c, n).channels[0].enabled) <==> Counting(c) || Rising(c.channels[0])
  {
    hide Cycles, ControlInv, Rising, LengthEnabled, EvenSteps, SweepClocks, SweepsLeft;
    SweepFate(c, 0);
    if Counting(c) || Rising(c.channels[0]) {
      var m := if Counting(c) then c.channels[0].length else SweepsLeft(c.channels[0]);
      var n := SEQUENCER_CYCLES * (4 * m);
      ClocksReach(c, m);
      SweepFate(c, n);
      assert !Cycles(c, n).channels[0].enabled;
    } else {
      forall n: nat ensures Cycles(c, n).channels[0].enabled {
        SweepFate(c, n);
      }
    }
  }

  /** With a nonzero shift and period an additive sweep rises exactly when the shadow reaches 2^shift. */
  lemma RisingMeansReach(ch: Channel)
    requires ch.sweepShift != 0 && ch.sweepPeriod != 0 && !ch.sweepNegate
    ensures Rising(ch) <==> ch.shadow >= Pow2(ch.sweepShift)
  {
    ShrPositive(ch.shadow, ch.sweepShift);
  }

  // ---- two invariants of undisturbed ticking ----

  /** Channel i, if it plays, has a length to count. */
  predicate ChannelLive(c: Control, i: nat)
    requires i < 4
  {
    c.channels[i].enabled ==> c.channels[i].length >= 1
  }

  /** No enabled channel has an empty length counter. */
  ghost predicate LengthLive(c: Control) {
    forall i :: 0 <= i < 4 ==> ChannelLive(c, i)
  }

  /** An additive shifted sweep has already passed the test it will face next. */
  predicate SweepSafe(ch: Channel) {
    ch.enabled && !ch.sweepNegate && ch.sweepShift != 0 ==> ch.shadow + Shr(ch.shadow, ch.sweepShift) <= 2047
  }

  lemma EventKeepsLive(c: Control, i: nat)
    requires ChannelsInv(c) && i < 4
    ensures ChannelLive(c, i) ==> ChannelLive(SequencerEvent(c), i)
    ensures c.channels[i].length == 0 ==> SequencerEvent(c).channels[i].length == 0
  {
    hide SequencerEvent, Agree, LengthEnabled;
    EventLength(c, i);
  }

  lemma {:induction false} EventsKeepLive(c: Control, k: nat, i: nat)
    requires ChannelsInv(c) && i < 4
    ensures ChannelLive(c, i) ==> ChannelLive(Events(c, k), i)
    ensures c.channels[i].length == 0 ==> Events(c, k).channels[i].length == 0
    decreases k
  {
    hide SequencerEvent, Agree;
    if k > 0 {
      EventKeepsInv(c);
      EventKeepsLive(c, i);
      EventsKeepLive(SequencerEvent(c), k - 1, i);
    }
  }

  lemma SlowSame(c: Control, i: nat)
    requires i < 4
    ensures ChannelLive(Slow(c), i) <==> ChannelLive(c, i)
    ensures Slow(c).channels[i].length == c.channels[i].length
  {
    StillUpdate(c.channels, i, SILENT);
    hide StillAll;
  }

  /** Ticking never empties the length counter of a playing channel, never fills an empty one, and never leaves the
      sweep unsafe. */
  lemma CyclesKeepLiveAndSafe(c: Control, n: nat, i: nat)
    requires ControlInv(c) && i < 4
    ensures ChannelLive(c, i) ==> ChannelLive(Cycles(c, n), i)
    ensures c.channels[i].length == 0 ==> Cycles(c, n).channels[i].length == 0
    ensures SweepSafe(c.channels[0]) ==> SweepSafe(Cycles(c, n).channels[0])
  {
    CyclesAreEvents(c, n);
    CyclesSettings(c, n);
    SlowKeepsInv(c);
    SlowSame(c, i);
    SlowSame(Cycles(c, n), i);
    hide Cycles, Events, Slow, Agree, ChannelLive, SweepSafe;
    EventsKeepLive(Slow(c), (c.seqCycles + n) / SEQUENCER_CYCLES, i);
  }

  /** Exactly when an unsafe sweep is mended by time: when it ends the channel, or its length does. */
  lemma CyclesMend(c: Control, n: nat)
    requires ControlInv(c) && !SweepSafe(c.channels[0])
    ensures SweepSafe(Cycles(c, n).channels[0]) <==> LengthStops(c, n) || SweepStops(c, n)
  {
    CyclesSettings(c, n);
    SweepFate(c, n);
    hide Cycles, ControlInv, LengthStops, SweepStops, Shr;
  }

  // ---- the first overflow test while time passes ----

  /** What the sweep clock of the next sequencer event sees: the step advanced and the lengths clocked. */
  function SweepView(c: Control): Control { LengthPhase(c.(seqStep := (c.seqStep + 1) % 8)) }

  /** The next sequencer event applies a sweep. */
  predicate SweepFalls(c: Control) {
    SweepStep(SweepView(c).seqStep) && SweepDue(SweepView(c).channels[0])
  }

  /** And the first overflow test of that sweep fires. */
  predicate FirstTestFires(c: Control) {
    var ch := SweepView(c).channels[0];
    SweepFalls(c) && SweepNext(ch.shadow, ch.sweepShift, ch.sweepNegate) > 2047
  }

  /** An additive sweep without a shift, which doubles the pitch and tests nothing beforehand. */
  predicate Doubling(ch: Channel) { !ch.sweepNegate && ch.sweepShift == 0 && ch.shadow >= 1024 }

  /** Exactly when the first overflow test of a due sweep fires in a safe state: in an additive sweep without a shift,
      from shadow 1024. */
  lemma FirstTestExactly(ch: Channel)
    requires ch.shadow <= 2047 && SweepSafe(ch) && SweepDue(ch)
    ensures SweepNext(ch.shadow, ch.sweepShift, ch.sweepNegate) > 2047 <==> Doubling(ch)
  {
    assert Shr(ch.shadow, 0) == ch.shadow;
    hide Shr;
  }

  lemma FirstTestAtEvent(c: Control)
    requires ChannelsInv(c) && SweepSafe(c.channels[0])
    ensures FirstTestFires(c) <==> SweepFalls(c) && Doubling(c.channels[0])
  {
    var ch := SweepView(c).channels[0];
    var c1 := c.(seqStep := (c.seqStep + 1) % 8);
    ChannelSound(c, 0);
    ShadowInRange(c.channels[0]);
    StepKeepsInv(c, (c.seqStep + 1) % 8);
    hide ChannelsInv, ChannelInv, LengthPhase, LengthEnabled, SweepNext, Shr;
    LengthPhaseLength(c1, 0);
    OtherTicksKeepSweep(c.channels[0], LengthEnabled(c.regs, 0));
    hide LengthTick;
    if SweepFalls(c) {
      FirstTestExactly(ch);
    }
  }

  /** At every later sequencer event: settings and unshifted pitch stay, so the start of the run decides. */
  lemma FirstTestAtEveryEvent(c: Control, k: nat)
    requires ChannelsInv(c) && SweepSafe(c.channels[0])
    ensures FirstTestFires(Events(c, k)) <==> SweepFalls(Events(c, k)) && Doubling(c.channels[0])
  {
    hide Events, SweepSafe, FirstTestFires, SweepFalls, Agree;
    EventsSettings(c, k);
    EventsKeepInv(c, k);
    FirstTestAtEvent(Events(c, k));
  }

  lemma {:induction false} EventsKeepInv(c: Control, k: nat)
    requires ChannelsInv(c)
    ensures ChannelsInv(Events(c, k))
    decreases k
  {
    hide SequencerEvent, Agree;
    if k > 0 {
      EventKeepsInv(c);
      EventsKeepInv(SequencerEvent(c), k - 1);
    }
  }

  /** The same in cycles, whichever cycle of a tick meets a sequencer deadline. The state asked about is the one in
      which the sequencer event of cycle n + 1 would start. */
  lemma FirstTestInEveryCycle(c: Control, n: nat)
    requires ControlInv(c) && SweepSafe(c.channels[0])
    ensures var d := Elapse(Cycles(c, n), 1);
            FirstTestFires(d) <==> SweepFalls(d) && Doubling(c.channels[0])
  {
    hide Cycles, SweepSafe, FirstTestFires, SweepFalls, Elapse, Agree, Distance;
    CyclesKeepInv(c, n);
    CyclesSettings(c, n);
    var d := Cycles(c, n);
    WithinReach(d);
    ElapseKeepsInv(d, 1);
    ElapseKeepsSweep(d, 1);
    FirstTestAtEvent(Elapse(d, 1));
  }

  lemma ElapseKeepsSweep(c: Control, n: nat)
    ensures SweepSafe(Elapse(c, n).channels[0]) == SweepSafe(c.channels[0])
    ensures Doubling(Elapse(c, n).channels[0]) == Doubling(c.channels[0])
  {
    hide Shr;
  }

  // ---- the noise register while time passes ----

  lemma EventKeepsNoise(c: Control)
    requires ChannelsInv(c)
    ensures SequencerEvent(c).channels[3].lfsr == c.channels[3].lfsr
    ensures SequencerEvent(c).regs[0x12] == c.regs[0x12]
  {
    hide LengthPhase, SweepPhase, LengthEnabled, ChannelsInv;
    var c1 := c.(seqStep := (c.seqStep + 1) % 8);
    StepKeepsInv(c, (c.seqStep + 1) % 8);
    LengthPhaseLength(c1, 3);
    OtherTicksKeepSweep(c.channels[3], LengthEnabled(c.regs, 3));
    hide LengthTick;
    SweepPhaseLength(LengthPhase(c1), 3);
    SweepKeepsNoiseRegister(LengthPhase(c1));
    hide EnvelopeTick;
    OtherTicksKeepSweep(SweepPhase(LengthPhase(c1)).channels[3], false);
  }

  lemma SweepKeepsNoiseRegister(c: Control)
    ensures SweepPhase(c).regs[0x12] == c.regs[0x12]
  {
    hide SweepNext, SweepDue, SweepCount, Clear;
  }

  lemma CycleKeepsNoise(c: Control)
    requires ControlInv(c)
    ensures Cycle(c).regs[0x12] == c.regs[0x12]
    ensures var l, l' := c.channels[3].lfsr, Cycle(c).channels[3].lfsr;
            l' == l || l' == NoiseShift(l, Narrow(c.regs[0x12]))
  {
    CycleIsChunk(c);
    WithinReach(c);
    ElapseKeepsInv(c, 1);
    var d := Elapse(c, 1);
    assert OneShift(c.channels[3].lfsr, d.channels[3].lfsr, Narrow(c.regs[0x12])) by { ElapseShifts(c); }
    hide Elapse, SequencerEvent, ControlInv, ChannelsInv, Cycle, NoiseShift;
    ServeKeepsNoise(d);
  }

  predicate OneShift(l: bv16, l': bv16, narrow: bool) { l' == l || l' == NoiseShift(l, narrow) }

  lemma ElapseShifts(c: Control)
    ensures OneShift(c.channels[3].lfsr, Elapse(c, 1).channels[3].lfsr, Narrow(c.regs[0x12]))
    ensures Elapse(c, 1).regs == c.regs
  {
    FiresOnce(c.channels[3].timer, NoisePeriod(c.regs[0x12]));
    hide Period, NoisePeriod, Fires, TimerAfter, NoiseShift, AdvanceSquare, AdvanceWave;
  }

  lemma ServeKeepsNoise(c: Control)
    requires ChannelsInv(c)
    ensures Serve(c).channels[3].lfsr == c.channels[3].lfsr && Serve(c).regs[0x12] == c.regs[0x12]
  {
    hide SequencerEvent, Agree;
    var c1 := if c.sampleCycles >= SAMPLE_CYCLES then c.(sampleCycles := c.sampleCycles - SAMPLE_CYCLES) else c;
    if c1.seqCycles >= SEQUENCER_CYCLES {
      EventKeepsNoise(c1.(seqCycles := c1.seqCycles - SEQUENCER_CYCLES));
    }
  }

  /** In any number of cycles without a write the noise register stays within 15 bits, does not die, and does not come
      back from the dead. */
  lemma {:induction false} NoiseSurvives(c: Control, n: nat)
    requires ControlInv(c)
    ensures var l, l', narrow := c.channels[3].lfsr, Cycles(c, n).channels[3].lfsr, Narrow(c.regs[0x12]);
            && l' < 0x8000
            && (!narrow && l != 0 ==> l' != 0)
            && (narrow && l & 0x7F != 0 ==> l' & 0x7F != 0)
            && (l == 0 ==> l' == 0)
    decreases n
  {
    hide Cycle, ChannelsInv, NoiseShift;
    ChannelSound(c, 3);
    if n > 0 {
      CycleKeepsNoise(c);
      CycleIsChunk(c);
      WithinReach(c);
      ChunkKeepsInv(c, 1);
      hide ChunkControl, ControlInv;
      NoiseSurvives(Cycle(c), n - 1);
      assert c.channels[3].lfsr < 0x8000;
      hide ChannelInv;
      OneShiftSurvives(c.channels[3].lfsr, Narrow(c.regs[0x12]));
    }
  }

  lemma OneShiftSurvives(l: bv16, narrow: bool)
    requires l < 0x8000
    ensures var l' := NoiseShift(l, narrow);
            && l' < 0x8000
            && (!narrow && l != 0 ==> l' != 0)
            && (narrow && l & 0x7F != 0 ==> l' & 0x7F != 0)
            && (l == 0 ==> l' == 0)
  {
    NoiseShiftBounds(l, narrow);
  }

  // ---- writes ----

  /** A write outside NR10 and the triggers: at most switches off, at most loads a length. */
  ghost predicate Milder(ch: Channel, ch': Channel) {
    && (ch'.enabled ==> ch.enabled)
    && (ch'.length == ch.length || ch'.length >= 1)
    && ch'.sweepNegate == ch.sweepNegate && ch'.sweepShift == ch.sweepShift && ch'.shadow == ch.shadow
  }

  ghost predicate AllMilder(c: Control, d: Control) {
    forall j :: 0 <= j < 4 ==> Milder(c.channels[j], d.channels[j])
  }

  lemma DacMild(c: Control, i: nat, on: bool)
    requires i < 4
    ensures AllMilder(c, UpdateDac(c, i, on))
  {
    Disabled(WithChannel(c, i, c.channels[i].(dac := on)), i);
    hide Disable, HasBit;
  }

  lemma EnvelopeMild(c: Control, i: nat, value: u8)
    requires i < 4
    ensures AllMilder(c, UpdateEnvelope(c, i, value))
  {
    var d := WithChannel(c, i, LoadEnvelope(c.channels[i], value));
    assert AllMilder(c, d);
    DacMild(d, i, value >= 8);
    hide UpdateDac, WithChannel;
  }

  lemma SyncMild(c: Control, i: nat)
    requires i < 4
    ensures AllMilder(c, SyncFrequency(c, i))
  {
    hide Period;
  }

  lemma LengthLoadMild(c: Control, i: nat, length: nat)
    requires i < 4 && length >= 1
    ensures AllMilder(c, c) && AllMilder(c, WithChannel(c, i, c.channels[i].(length := length)))
  {
  }

  lemma SideEffectsMild(c: Control, addr: u16, value: u8)
    requires addr != 0xFF10
    ensures AllMilder(c, SideEffects(c, addr, value))
  {
    var i := LengthChannel(addr);
    if i < 4 {
      assert DecodeLength(i, value) >= 1 by { LengthLoaded(i, value); }
      LengthLoadMild(c, i, DecodeLength(i, value));
    } else {
      LengthLoadMild(c, 0, 1);
    }
    hide DecodeLength;
    hide UpdateDac, UpdateEnvelope, SyncFrequency, WriteSweep, AllMilder, WithChannel;
    forall j: nat | j < 4
      ensures AllMilder(c, UpdateDac(c, j, value >= 0x80))
      ensures AllMilder(c, UpdateEnvelope(c, j, value)) && AllMilder(c, SyncFrequency(c, j))
    {
      DacMild(c, j, value >= 0x80);
      EnvelopeMild(c, j, value);
      SyncMild(c, j);
    }
  }

  lemma SideEffectsKeepLive(c: Control, addr: u16, value: u8, i: nat)
    requires i < 4 && ChannelLive(c, i)
    ensures ChannelLive(SideEffects(c, addr, value), i)
  {
    if addr == 0xFF10 {
      WriteSweepKeepsLive(c, value, i);
    } else {
      SideEffectsMild(c, addr, value);
    }
    hide UpdateDac, UpdateEnvelope, SyncFrequency, WriteSweep, WithChannel;
  }

  lemma WriteSweepKeepsLive(c: Control, value: u8, i: nat)
    requires i < 4 && ChannelLive(c, i)
    ensures ChannelLive(WriteSweep(c, value), i)
  {
  }

  lemma TriggerKeepsLive(c: Control, target: nat, i: nat)
    requires target < 4 && i < 4 && ChannelLive(c, i)
    ensures ChannelLive(Trigger(c, target), i)
  {
    hide Trigger;
    TriggerOutcome(c, target);
    hide FirstSweepOverflows, HasBit;
  }

  /** Every register write keeps every playing channel off an empty length counter. */
  lemma WriteKeepsLive(c: Control, addr: u16, value: u8, i: nat)
    requires i < 4 && ChannelLive(c, i)
    ensures ChannelLive(WriteControl(c, addr, value), i)
  {
    hide SideEffects, Trigger;
    if 0xFF10 <= addr <= 0xFF25 {
      var d := c.(regs := c.regs[addr - 0xFF10 := value]);
      SideEffectsKeepLive(d, addr, value, i);
      var target := TriggerTarget(addr);
      if target < 4 {
        TriggerKeepsLive(SideEffects(d, addr, value), target, i);
      }
    }
  }

  /** A register write that switches channel 1 off: its DAC, a cleared negate after use, or the power. */
  predicate Silences(c: Control, addr: u16, value: u8) {
    && c.master
    && (|| (addr == 0xFF12 && value < 8)
        || (addr == 0xFF10 && c.channels[0].sweepNegate && c.channels[0].negateUsed && !TestBit(value, 8))
        || (addr == 0xFF26 && value < 0x80))
  }

  /** A register write after which channel 1, playing on an empty counter before, no longer does: NR11 loads the
      length, NR14 triggers, or the channel goes off. */
  predicate WriteRefreshes(c: Control, addr: u16, value: u8) {
    || (addr == 0xFF11 && (c.master || !c.cgb))
    || (addr == 0xFF14 && value >= 0x80 && c.master)
    || Silences(c, addr, value)
  }

  lemma FirstChannelEffects(c: Control, addr: u16, value: u8)
    requires c.master
    ensures var ch, d := c.channels[0], SideEffects(c, addr, value).channels[0];
            && d.enabled == (ch.enabled && !(addr != 0xFF26 && Silences(c, addr, value)))
            && d.length == if addr == 0xFF11 then DecodeLength(0, value) else ch.length
  {
    hide UpdateDac, UpdateEnvelope, SyncFrequency, WriteSweep, TestBit, DecodeLength;
    forall i: nat | i < 4 {
      FirstChannelParts(c, i, value);
    }
    FirstChannelSweep(c, value);
    FirstChannelDac(c, 2, value >= 0x80);
  }

  lemma FirstChannelDac(c: Control, i: nat, on: bool)
    requires i < 4
    ensures var d := UpdateDac(c, i, on).channels[0];
            d == if i == 0 then c.channels[0].(dac := on, enabled := c.channels[0].enabled && on) else c.channels[0]
  {
    hide Clear;
  }

  lemma FirstChannelParts(c: Control, i: nat, value: u8)
    requires i < 4
    ensures var ch, d := c.channels[0], UpdateEnvelope(c, i, value).channels[0];
            d.enabled == (ch.enabled && (i != 0 || value >= 8)) && d.length == ch.length
    ensures var ch, d := c.channels[0], SyncFrequency(c, i).channels[0];
            d.enabled == ch.enabled && d.length == ch.length
  {
    FirstChannelDac(WithChannel(c, i, LoadEnvelope(c.channels[i], value)), i, value >= 8);
    hide UpdateDac, Period, TestBit;
  }

  lemma FirstChannelSweep(c: Control, value: u8)
    ensures var ch, d := c.channels[0], WriteSweep(c, value).channels[0];
            && d.enabled == (ch.enabled && !(ch.sweepNegate && ch.negateUsed && !TestBit(value, 8)))
            && d.length == ch.length
  {
    Disabled(WithChannel(c, 0, LoadSweep(c.channels[0], value)), 0);
    hide Disable, TestBit, HasBit;
  }

  /** Exactly which writes end the empty counter of a playing channel 1. */
  lemma WriteRevives(c: Control, addr: u16, value: u8)
    requires !ChannelLive(c, 0)
    ensures ChannelLive(WriteControl(c, addr, value), 0) <==> WriteRefreshes(c, addr, value)
  {
    hide SideEffects, Trigger, DecodeLength, TestBit;
    assert DecodeLength(0, value) >= 1 by { LengthLoaded(0, value); }
    if 0xFF10 <= addr <= 0xFF25 && c.master {
      var d := c.(regs := c.regs[addr - 0xFF10 := value]);
      FirstChannelEffects(d, addr, value);
      var target := TriggerTarget(addr);
      if target < 4 {
        TriggerOutcome(SideEffects(d, addr, value), target);
      }
      hide FirstSweepOverflows, HasBit;
    }
  }

  lemma LengthLoaded(i: nat, value: u8)
    ensures DecodeLength(i, value) >= 1
  {
  }

  lemma SideEffectsKeepSafe(c: Control, addr: u16, value: u8)
    requires SweepSafe(c.channels[0]) && addr != 0xFF10
    ensures SweepSafe(SideEffects(c, addr, value).channels[0])
  {
    SideEffectsMild(c, addr, value);
    hide SideEffects, Shr;
  }

  lemma FirstSweepSafe(c: Control)
    ensures SweepSafe(FirstSweep(c).channels[0])
  {
    hide Clear, Shr;
  }

  lemma TriggerKeepsSafe(c: Control, i: nat)
    requires i < 4 && SweepSafe(c.channels[0])
    ensures SweepSafe(Trigger(c, i).channels[0])
  {
    hide Clear, Set, Shr, Restarted, FirstSweep;
    if i == 0 && c.channels[0].dac {
      FirstSweepSafe(WithChannel(c, i, Restarted(c, i)).(mask := Set(c.mask, i)));
    }
  }

  /** Only a sweep register write can leave the sweep unsafe. */
  lemma WriteKeepsSafe(c: Control, addr: u16, value: u8)
    requires SweepSafe(c.channels[0]) && addr != 0xFF10
    ensures SweepSafe(WriteControl(c, addr, value).channels[0])
  {
    hide SideEffects, Trigger, Shr;
    if 0xFF10 <= addr <= 0xFF25 {
      var d := c.(regs := c.regs[addr - 0xFF10 := value]);
      SideEffectsKeepSafe(d, addr, value);
      var i := TriggerTarget(addr);
      if i < 4 {
        TriggerKeepsSafe(SideEffects(d, addr, value), i);
      }
    }
  }

  /** What a sweep register write has to offer for the sweep to be safe after it. */
  predicate SweepWriteOk(ch: Channel, value: u8) {
    || !ch.enabled
    || (ch.sweepNegate && ch.negateUsed)
    || TestBit(value, 8)
    || value % 8 == 0
    || ch.shadow + Shr(ch.shadow, value % 8) <= 2047
  }

  /** Exactly when a sweep register write leaves the sweep safe: it makes no overflow test of its own. */
  lemma SweepWriteOutcome(c: Control, value: u8)
    requires c.master
    ensures SweepSafe(WriteControl(c, 0xFF10, value).channels[0]) <==> SweepWriteOk(c.channels[0], value)
  {
    SweepWriteIs(c, value);
    hide Shr, Clear, TestBit, WriteControl;
  }

  lemma SweepWriteIs(c: Control, value: u8)
    requires c.master
    ensures WriteControl(c, 0xFF10, value) == WriteSweep(c.(regs := c.regs[0 := value]), value)
  {
    hide WriteSweep;
  }

  /** A register write after which an unsafe sweep is safe: a fitting NR10, a trigger, which makes its own test, or an
      end of the channel. */
  predicate WriteMends(c: Control, addr: u16, value: u8) {
    && c.master
    && (|| (addr == 0xFF10 && SweepWriteOk(c.channels[0], value))
        || (addr == 0xFF14 && value >= 0x80)
        || (addr == 0xFF12 && value < 8)
        || (addr == 0xFF26 && value < 0x80))
  }

  lemma TriggerMakesSafe(c: Control)
    ensures SweepSafe(Trigger(c, 0).channels[0])
  {
    Disabled(c, 0);
    FirstSweepSafe(WithChannel(c, 0, Restarted(c, 0)).(mask := Set(c.mask, 0)));
    hide Set, Shr, Restarted, FirstSweep, Disable, HasBit;
  }

  /** Exactly which writes make an unsafe sweep safe again. */
  lemma WriteMendsExactly(c: Control, addr: u16, value: u8)
    requires !SweepSafe(c.channels[0])
    ensures SweepSafe(WriteControl(c, addr, value).channels[0]) <==> WriteMends(c, addr, value)
  {
    if c.master && addr == 0xFF10 {
      SweepWriteOutcome(c, value);
    } else if 0xFF10 <= addr <= 0xFF25 && c.master {
      RegisterMends(c, addr, value);
    }
    hide WriteRegister, SweepWriteOk, Shr;
    if 0xFF10 <= addr <= 0xFF25 && !c.master {
      UnpoweredKeepsSweep(c, addr, value);
    }
  }

  lemma UnpoweredKeepsSweep(c: Control, addr: u16, value: u8)
    requires 0xFF10 <= addr <= 0xFF25 && !c.master
    ensures SweepSafe(WriteRegister(c, addr, value).channels[0]) == SweepSafe(c.channels[0])
    ensures WriteRegister(c, addr, value).channels[0].shadow == c.channels[0].shadow
  {
    hide DecodeLength, Shr;
  }

  lemma RegisterMends(c: Control, addr: u16, value: u8)
    requires 0xFF10 < addr <= 0xFF25 && c.master && !SweepSafe(c.channels[0])
    ensures SweepSafe(WriteControl(c, addr, value).channels[0]) <==> WriteMends(c, addr, value)
  {
    hide SideEffects, Trigger, Shr;
    var d := c.(regs := c.regs[addr - 0xFF10 := value]);
    var e := SideEffects(d, addr, value);
    SideEffectsMild(d, addr, value);
    FirstChannelEffects(d, addr, value);
    assert Milder(d.channels[0], e.channels[0]);
    var target := TriggerTarget(addr);
    if target == 0 {
      TriggerMakesSafe(e);
    } else if target < 4 {
      TriggerOutcome(e, target);
    }
    hide HasBit, FirstSweepOverflows, DecodeLength;
  }

  /** Only a trigger gives channel 1 a pitch to sweep. */
  lemma WriteKeepsZero(c: Control, addr: u16, value: u8)
    requires c.channels[0].shadow == 0 && !(addr == 0xFF14 && value >= 0x80 && c.master)
    ensures WriteControl(c, addr, value).channels[0].shadow == 0
  {
    hide SideEffects, Trigger, WriteSweep;
    if 0xFF10 <= addr <= 0xFF25 {
      if c.master {
        var d := c.(regs := c.regs[addr - 0xFF10 := value]);
        var e := SideEffects(d, addr, value);
        if addr == 0xFF10 {
          SweepWriteIs(c, value);
          SweepWriteKeepsPitch(d, value);
        } else {
          SideEffectsMild(d, addr, value);
          assert Milder(d.channels[0], e.channels[0]);
        }
        var target := TriggerTarget(addr);
        if 0 < target < 4 {
          TriggerOutcome(e, target);
        }
        hide HasBit, FirstSweepOverflows;
      } else {
        UnpoweredKeepsSweep(c, addr, value);
      }
    }
  }

  lemma SweepWriteKeepsPitch(c: Control, value: u8)
    ensures WriteSweep(c, value).channels[0].shadow == c.channels[0].shadow
  {
    Disabled(WithChannel(c, 0, LoadSweep(c.channels[0], value)), 0);
    hide Disable, TestBit, HasBit;
  }
}
