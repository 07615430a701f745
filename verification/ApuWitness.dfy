/** Runs of public calls that reach the exceptional states, and what they settle: exactly which splits of a tick keep
    every sample. */
module ApuWitness {
  import opened Numbers
  import opened ApuState
  import opened ApuOscillator
  import opened ApuSequencer
  import opened ApuPcm
  import opened ApuRun
  import opened ApuWrite
  import opened ApuLiveness
  import opened ApuCalls

  // ---- channels the sequencer leaves alone ----

  /** No playing channel has a length, an envelope or a sweep under way. */
  predicate Unsequenced(c: Control) {
    forall i :: 0 <= i < 4 ==> UnsequencedAt(c, i)
  }

  predicate UnsequencedAt(c: Control, i: nat)
    requires i < 4
  {
    var ch := c.channels[i];
    ch.enabled ==>
      !LengthEnabled(c.regs, i) && ch.envelopePeriod == 0 && ch.sweepPeriod == 0 && ch.sweepShift == 0
  }

  lemma IdleTicks(ch: Channel, counting: bool)
    requires ch.enabled ==> !counting && ch.envelopePeriod == 0 && ch.sweepPeriod == 0 && ch.sweepShift == 0
    ensures LengthTick(ch, counting) == ch && EnvelopeTick(ch) == ch && SweepCount(ch) == ch && !SweepDue(ch)
  {
  }

  lemma {:induction false} IdleLengths(c: Control, n: nat)
    requires n <= 4 && Unsequenced(c)
    ensures ClockLengths(c, n) == c
  {
    hide LengthTick, LengthEnabled;
    if n > 0 {
      IdleLengths(c, n - 1);
      assert UnsequencedAt(c, n - 1);
      IdleTicks(c.channels[n - 1], LengthEnabled(c.regs, n - 1));
      assert c.channels[n - 1 := c.channels[n - 1]] == c.channels;
    }
  }

  lemma IdleEvent(c: Control)
    requires Unsequenced(c)
    ensures SequencerEvent(c) == c.(seqStep := (c.seqStep + 1) % 8)
  {
    hide LengthEnabled, ClockLengths, LengthTick, EnvelopeTick, SweepCount, SweepDue, ApplySweep;
    var c1 := c.(seqStep := (c.seqStep + 1) % 8);
    forall i: nat | i < 4
      ensures EnvelopeTick(c.channels[i]) == c.channels[i] == SweepCount(c.channels[i]) && !SweepDue(c.channels[i])
    {
      assert UnsequencedAt(c, i);
      IdleTicks(c.channels[i], LengthEnabled(c.regs, i));
    }
    assert forall i: nat :: i < 4 && UnsequencedAt(c, i) ==> UnsequencedAt(c1, i);
    IdleLengths(c1, 4);
    assert c.channels[0 := c.channels[0]] == c.channels;
    assert [c.channels[0], c.channels[1], c.channels[2], c.channels[3]] == c.channels;
  }

  /** Equal in everything the oscillators and the mixer look at. */
  ghost predicate SameSound(c: Control, d: Control) {
    c.regs == d.regs && c.channels == d.channels && c.mask == d.mask && SameSettings(c, d)
  }

  lemma ServeKeepsSound(c: Control)
    requires Unsequenced(c)
    ensures SameSound(c, Serve(c))
  {
    hide SequencerEvent, Unsequenced;
    var c1 := if c.sampleCycles >= SAMPLE_CYCLES then c.(sampleCycles := c.sampleCycles - SAMPLE_CYCLES) else c;
    if c1.seqCycles >= SEQUENCER_CYCLES {
      var c2 := c1.(seqCycles := c1.seqCycles - SEQUENCER_CYCLES);
      assert Unsequenced(c2) by { UnsequencedSame(c, c2); }
      IdleEvent(c2);
    }
  }

  lemma UnsequencedSame(c: Control, d: Control)
    requires Unsequenced(c) && c.regs == d.regs && c.channels == d.channels
    ensures Unsequenced(d)
  {
    hide LengthEnabled;
    assert forall i: nat :: i < 4 && UnsequencedAt(c, i) ==> UnsequencedAt(d, i);
  }

  lemma AdvanceKeepsUnsequenced(c: Control, n: nat)
    requires Unsequenced(c)
    ensures Unsequenced(AdvanceChannels(c, n)) && SameSettings(c, AdvanceChannels(c, n))
  {
    var d := AdvanceChannels(c, n);
    hide LengthEnabled, Period, Fires, TimerAfter, NoiseShifts;
    assert forall i: nat :: i < 4 && UnsequencedAt(c, i) ==> UnsequencedAt(d, i);
  }

  /** Without sequencing, n cycles do to the channels what their oscillators do, and nothing else sounds different. */
  lemma {:induction false} CyclesAdvance(c: Control, n: nat)
    requires ControlInv(c) && Unsequenced(c)
    ensures SameSound(Cycles(c, n), AdvanceChannels(c, n)) && Unsequenced(Cycles(c, n))
    decreases n
  {
    hide Cycle, AdvanceChannels, ControlInv, Serve, Unsequenced, AddCycles;
    if n == 0 {
      NothingAdvances(c);
    } else {
      CycleIsChunk(c);
      WithinReach(c);
      ChunkKeepsInv(c, 1);
      AdvanceKeepsUnsequenced(c, 1);
      CyclesKeepSound(c, n);
    }
  }

  lemma NothingAdvances(c: Control)
    requires ControlInv(c)
    ensures AdvanceChannels(c, 0) == c
  {
    hide Period;
    forall i: nat | i < 4
      ensures AdvanceSquare(c.channels[i], Period(c.regs, i), 0) == c.channels[i]
      ensures AdvanceWave(c.channels[i], c.wave, Period(c.regs, i), 0) == c.channels[i]
      ensures AdvanceNoise(c.channels[i], c.regs[0x12], 0) == c.channels[i]
    {
      assert ChannelInv(c.channels[i], i);
      StandsStill(c.channels[i], c.wave, Period(c.regs, i), c.regs[0x12]);
    }
    hide AdvanceSquare, AdvanceWave, AdvanceNoise, ChannelInv;
    assert c.channels == [c.channels[0], c.channels[1], c.channels[2], c.channels[3]];
  }

  lemma StandsStill(ch: Channel, wave: WaveRam, period: nat, nr43: u8)
    requires period >= 1 && ch.duty < 8 && ch.wavePosition < 32
    ensures AdvanceSquare(ch, period, 0) == ch == AdvanceWave(ch, wave, period, 0) && AdvanceNoise(ch, nr43, 0) == ch
  {
    hide NoisePeriod;
  }

  lemma CyclesKeepSound(c: Control, n: nat)
    requires ControlInv(c) && Unsequenced(c) && n > 0
    requires Cycle(c) == ChunkControl(c, 1) && ControlInv(Cycle(c)) && Unsequenced(AdvanceChannels(c, 1))
    ensures SameSound(Cycles(c, n), AdvanceChannels(c, n)) && Unsequenced(Cycles(c, n))
    decreases n, 0
  {
    hide Cycle, AdvanceChannels, ControlInv, Serve, Unsequenced;
    var d, e := Elapse(c, 1), AdvanceChannels(c, 1);
    assert ChannelsInv(c) by { InvOfControl(c); }
    UnsequencedSame(e, d);
    ServeKeepsSound(d);
    assert SameSound(Cycle(c), e);
    UnsequencedSame(e, Cycle(c));
    CyclesAdvance(Cycle(c), n - 1);
    AdvanceAdds(c, 1, n - 1);
    AdvanceReads(Cycle(c), e, n - 1);
    hide Elapse;
  }

  lemma InvOfControl(c: Control)
    requires ControlInv(c)
    ensures ChannelsInv(c) && TimersInv(c)
  {
  }

  lemma AdvanceReads(c: Control, d: Control, n: nat)
    requires SameSound(c, d)
    ensures SameSound(AdvanceChannels(c, n), AdvanceChannels(d, n))
  {
    hide AdvanceSquare, AdvanceWave, AdvanceNoise, Period;
  }

  // ---- runs of calls ----

  /** Powered, and otherwise as after power-off. */
  ghost predicate Blank(c: Control) {
    && ControlInv(c) && c.master && c.regs == seq(0x17, _ => 0) && c.channels == SILENT_CHANNELS
  }

  /** Channel 1 ready to be triggered at full volume, three quarters duty and lowest pitch, routed to both sides at
      full level; nothing else sounds. */
  ghost predicate Ready(c: Control) {
    && c.master && c.channels[0].dac && c.channels[0].duty == 0
    && c.regs[0] == 0 && c.regs[1] == 0xC0 && c.regs[2] == 0xF0 && c.regs[3] == 0
    && c.regs[0x14] == 0x77 && c.regs[0x15] == 0x11
    && Alone(c)
  }

  /** Channels 2 to 4 are off, DACs included. */
  predicate Alone(c: Control) {
    forall i :: 1 <= i < 4 ==> !c.channels[i].enabled && !c.channels[i].dac
  }

  /** Channel 1 just triggered. */
  ghost predicate Playing(c: Control) {
    var ch := c.channels[0];
    && ControlInv(c) && c.master && Alone(c) && Unsequenced(c)
    && c.regs[1] == 0xC0 && c.regs[0x14] == 0x77 && c.regs[0x15] == 0x11 && Period(c.regs, 0) == 8192
    && ch.enabled && ch.dac && ch.volume == 15 && ch.duty == 0 && ch.timer == 8192
  }

  function Setup(c: Control): Control {
    var c1 := WriteControl(c, 0xFF24, 0x77);
    var c2 := WriteControl(c1, 0xFF25, 0x11);
    var c3 := WriteControl(c2, 0xFF11, 0xC0);
    WriteControl(c3, 0xFF12, 0xF0)
  }

  lemma SetupReady(c: Control)
    requires Blank(c)
    ensures Ready(Setup(c)) && ControlInv(Setup(c)) && Setup(c).sampleCycles == c.sampleCycles
  {
    var c1 := WriteControl(c, 0xFF24, 0x77);
    var c2 := WriteControl(c1, 0xFF25, 0x11);
    var c3 := WriteControl(c2, 0xFF11, 0xC0);
    WriteKeepsInv(c, 0xFF24, 0x77);
    WriteKeepsInv(c1, 0xFF25, 0x11);
    WriteKeepsInv(c2, 0xFF11, 0xC0);
    WriteKeepsInv(c3, 0xFF12, 0xF0);
    hide ControlInv;
    PlainWrite(c, 0xFF24, 0x77);
    PlainWrite(c1, 0xFF25, 0x11);
    LengthWrite(c2);
    VolumeWrite(c3);
    hide WriteControl;
  }

  lemma PlainWrite(c: Control, addr: u16, value: u8)
    requires c.master && (addr == 0xFF24 || addr == 0xFF25)
    ensures WriteControl(c, addr, value) == c.(regs := c.regs[addr - 0xFF10 := value])
  {
  }

  lemma LengthWrite(c: Control)
    requires c.master
    ensures WriteControl(c, 0xFF11, 0xC0)
         == c.(regs := c.regs[1 := 0xC0], channels := c.channels[0 := c.channels[0].(length := 64)])
  {
  }

  lemma VolumeWrite(c: Control)
    requires c.master && !c.channels[0].enabled
    ensures var d := WriteControl(c, 0xFF12, 0xF0);
            d == c.(regs := c.regs[2 := 0xF0], channels := c.channels[0 := d.channels[0]])
            && d.channels[0].dac && d.channels[0].duty == c.channels[0].duty
  {
  }

  lemma TriggerPlays(c: Control)
    requires Ready(c) && ControlInv(c)
    ensures var d := WriteControl(c, 0xFF14, 0x80);
            Playing(d) && d.sampleCycles == c.sampleCycles
  {
    var d := WriteControl(c, 0xFF14, 0x80);
    WriteKeepsInv(c, 0xFF14, 0x80);
    hide ControlInv;
    TriggerWrite(c);
    hide WriteControl;
    assert UnsequencedAt(d, 0);
  }

  lemma TriggerWrite(c: Control)
    requires Ready(c)
    ensures var d := WriteControl(c, 0xFF14, 0x80);
            && d == c.(regs := c.regs[4 := 0x80], channels := c.channels[0 := d.channels[0]], mask := d.mask)
            && Period(d.regs, 0) == 8192 && !LengthEnabled(d.regs, 0)
    ensures var ch := WriteControl(c, 0xFF14, 0x80).channels[0];
            && ch.enabled && ch.dac && ch.volume == 15 && ch.duty == 0 && ch.timer == 8192
            && ch.envelopePeriod == 0 && ch.sweepPeriod == 0 && ch.sweepShift == 0
  {
    var regs := c.regs[4 := 0x80];
    assert Pitch(regs, 0) == 0 && Period(regs, 0) == 8192;
    assert !LengthEnabled(regs, 0) && regs[0] == 0 && regs[2] == 0xF0;
    var e := SyncFrequency(c.(regs := regs), 0);
    assert e == c.(regs := regs, channels := c.channels[0 := e.channels[0]])
        && e.channels[0].dac && e.channels[0].duty == 0;
    assert WriteControl(c, 0xFF14, 0x80) == Trigger(e, 0);
    hide Period, Pitch, SyncFrequency, WriteControl, Trigger, LengthEnabled;
    PlainTrigger(e);
  }

  /** Triggering channel 1 without a shift. */
  lemma PlainTrigger(c: Control)
    requires c.channels[0].dac && (c.regs[0] == 0 || c.regs[0] == 0x10) && c.regs[2] == 0xF0
    ensures var d := Trigger(c, 0);
            d == c.(channels := c.channels[0 := d.channels[0]], mask := d.mask)
    ensures var ch := Trigger(c, 0).channels[0];
            && ch.enabled && ch.dac && ch.volume == 15 && ch.duty == c.channels[0].duty
            && ch.timer == Max(Period(c.regs, 0), 1)
            && ch.envelopePeriod == 0 && ch.sweepPeriod == c.regs[0] / 16 && ch.sweepShift == 0
            && !ch.sweepNegate && ch.shadow == Pitch(c.regs, 0)
            && ch.sweepCounter == ReloadCounter(ch.sweepPeriod)
  {
    hide Period, Pitch, Set, Clear, SweepNext;
    assert !TestBit(0, 8) && !TestBit(0x10, 8);
    var ch := Restarted(c, 0);
    assert ch.sweepShift == 0 && ch.sweepPeriod == c.regs[0] / 16 && !ch.sweepNegate;
    assert ch.sweepCounter == ReloadCounter(ch.sweepPeriod);
    assert ch.volume == 15 && ch.envelopePeriod == 0 && ch.enabled && ch.dac;
    assert ch.duty == c.channels[0].duty && ch.timer == Max(Period(c.regs, 0), 1) && ch.shadow == Pitch(c.regs, 0);
    hide Restarted, TestBit;
  }

  lemma BlankStart(r: nat)
    requires r < SAMPLE_CYCLES
    ensures var c := After([Write(0xFF26, 0x80), TickFor(r)]).ctl;
            Blank(c) && c.sampleCycles == r
  {
    var s := After([Write(0xFF26, 0x80)]);
    AfterMore([], Write(0xFF26, 0x80));
    AfterMore([Write(0xFF26, 0x80)], TickFor(r));
    assert [] + [Write(0xFF26, 0x80)] == [Write(0xFF26, 0x80)];
    assert [Write(0xFF26, 0x80)] + [TickFor(r)] == [Write(0xFF26, 0x80), TickFor(r)];
    assert s.ctl == Default().ctl.(master := true);
    ReachableInv([Write(0xFF26, 0x80)]);
    hide After, ControlInv, PcmInv, Apply;
    BlankStays(s.ctl, r);
    assert Apply(s, TickFor(r)) == Tick(s, r) by { TickCall(s, r); }
    TickIsCycles(s, r);
  }

  lemma TickCall(s: State, n: nat)
    ensures Apply(s, TickFor(n)) == Tick(s, n)
  {
  }

  lemma WriteCall(s: State, addr: u16, value: u8)
    ensures Apply(s, Write(addr, value)).ctl == WriteControl(s.ctl, addr, value)
  {
    hide WriteControl;
  }

  /** Time changes nothing but the clocks while nothing plays. */
  lemma BlankStays(c: Control, r: nat)
    requires Blank(c) && c.seqCycles == 0 && r < SAMPLE_CYCLES
    ensures Blank(Cycles(c, r)) && Cycles(c, r).sampleCycles == r
  {
    hide Cycles, AdvanceChannels, ControlInv, LengthEnabled;
    assert forall i: nat :: i < 4 ==> UnsequencedAt(c, i);
    CyclesAdvance(c, r);
    CyclesKeepInv(c, r);
    SilentAdvance(c, r);
    PlayingClock(c, r);
    InvOfControl(c);
  }

  lemma SilentAdvance(c: Control, n: nat)
    requires c.channels == SILENT_CHANNELS
    ensures AdvanceChannels(c, n) == c
  {
    hide Period;
  }

  /** Power on, wait r cycles, set channel 1 up and trigger it, then wait q cycles. */
  function PlayRun(r: nat, q: nat): seq<Call> {
    [Write(0xFF26, 0x80), TickFor(r)]
    + [Write(0xFF24, 0x77)] + [Write(0xFF25, 0x11)] + [Write(0xFF11, 0xC0)] + [Write(0xFF12, 0xF0)]
    + [Write(0xFF14, 0x80)] + [TickFor(q)]
  }

  lemma PlayRunPlays(r: nat, q: nat) returns (c: Control)
    requires r < SAMPLE_CYCLES
    ensures Playing(c) && c.sampleCycles == r && After(PlayRun(r, q)).ctl == Cycles(c, q)
  {
    var calls := [Write(0xFF26, 0x80), TickFor(r)];
    BlankStart(r);
    var s := After(calls);
    var calls1 := calls + [Write(0xFF24, 0x77)];
    var calls2 := calls1 + [Write(0xFF25, 0x11)];
    var calls3 := calls2 + [Write(0xFF11, 0xC0)];
    var calls4 := calls3 + [Write(0xFF12, 0xF0)];
    var calls5 := calls4 + [Write(0xFF14, 0x80)];
    hide Apply, After, ControlInv, WriteControl, Blank, Ready, Playing;
    AfterMore(calls, Write(0xFF24, 0x77));
    AfterMore(calls1, Write(0xFF25, 0x11));
    AfterMore(calls2, Write(0xFF11, 0xC0));
    AfterMore(calls3, Write(0xFF12, 0xF0));
    AfterMore(calls4, Write(0xFF14, 0x80));
    AfterMore(calls5, TickFor(q));
    WriteCall(s, 0xFF24, 0x77);
    WriteCall(After(calls1), 0xFF25, 0x11);
    WriteCall(After(calls2), 0xFF11, 0xC0);
    WriteCall(After(calls3), 0xFF12, 0xF0);
    WriteCall(After(calls4), 0xFF14, 0x80);
    TickCall(After(calls5), q);
    SetupReady(s.ctl);
    c := WriteControl(Setup(s.ctl), 0xFF14, 0x80);
    TriggerPlays(Setup(s.ctl));
    PlayingFacts(c);
    TickIsCycles(After(calls5), q);
    assert PlayRun(r, q) == calls5 + [TickFor(q)];
  }

  lemma PlayingFacts(c: Control)
    requires Playing(c)
    ensures ControlInv(c) && c.master && Unsequenced(c)
  {
  }

  // ---- the mix of a lone square ----

  /** Three quarters duty: low in phase 0, high in phase 1. */
  lemma LoneSquare(c: Control)
    requires c.master && Alone(c) && HasBit(c.mask, 0)
             && c.regs[1] == 0xC0 && c.regs[0x14] == 0x77 && c.regs[0x15] == 0x11
    requires c.channels[0].enabled && c.channels[0].dac && c.channels[0].volume == 15
    ensures c.channels[0].duty == 0 ==> MixLeft(c) == 120
    ensures c.channels[0].duty == 1 && !c.channels[0].forceZero ==> MixLeft(c) == -120
  {
    LoneMix(c);
    hide MixLeft, HasBit;
  }

  lemma LoneMix(c: Control)
    requires c.master && Alone(c) && c.regs[0x14] == 0x77 && c.regs[0x15] == 0x11
    ensures MixLeft(c) == 8 * AnalogOutput(c, 0)
  {
    assert AnalogOutput(c, 1) == AnalogOutput(c, 2) == AnalogOutput(c, 3) == 0;
    hide AnalogOutput;
    assert LeftVolume(c) == 8;
    assert TestBit(0x11, 0x10) && Scaled(AnalogOutput(c, 0), 8) == 8 * AnalogOutput(c, 0);
    assert RoutedTo(c, true, 8, 1) == 8 * AnalogOutput(c, 0);
    forall n: nat | 1 <= n < 4 ensures RoutedTo(c, true, 8, n + 1) == RoutedTo(c, true, 8, n) {
      MixStep(c, true, 8, n);
    }
    hide RoutedTo;
    assert RoutedTo(c, true, 8, 4) == RoutedTo(c, true, 8, 3) == RoutedTo(c, true, 8, 2) == RoutedTo(c, true, 8, 1);
  }

  /** The channel n cycles after the trigger. */
  lemma PlayingAfter(c: Control, d: Control, n: nat)
    requires Playing(c) && SameSound(d, AdvanceChannels(c, n)) && n >= 8192
    ensures n / 8192 % 8 == 0 ==> MixLeft(d) == 120
    ensures n / 8192 % 8 == 1 ==> MixLeft(d) == -120
    ensures AnyDac(d)
  {
    FullTimer(n);
    var ch := d.channels[0];
    assert ch == AdvanceSquare(c.channels[0], 8192, n) by { hide Period, ControlInv, AdvanceSquare; }
    assert HasBit(c.mask, 0) by { InvOfControl(c); }
    hide Fires, TimerAfter, ControlInv, Period, HasBit;
    assert Alone(d) by { AloneAdvances(c, n); }
    assert ch.duty == n / 8192 % 8;
    hide AdvanceSquare;
    hide AdvanceChannels;
    LoneSquare(d);
  }

  lemma FullTimer(n: nat)
    requires n >= 8192
    ensures Fires(8192, 8192, n) == n / 8192 >= 1
  {
    DivStep(n, 8192);
  }

  lemma AloneAdvances(c: Control, n: nat)
    requires Alone(c)
    ensures Alone(AdvanceChannels(c, n))
  {
    hide Period;
  }

  // ---- exactly which splits keep every sample ----

  /** A run of calls that ends x cycles into a sample, just so that channel 1 turns from low to high
      with cycle a + 1. */
  function SplitRun(x: nat, a: nat): seq<Call>
    requires x < SAMPLE_CYCLES
  {
    PlayRun((x + SAMPLE_CYCLES - Lead(a) % SAMPLE_CYCLES) % SAMPLE_CYCLES, Lead(a))
  }

  /** Cycles from the trigger to the start of the split tick: a + 1 short of the first turn of some round of eight. */
  function Lead(a: nat): nat { 8192 * (8 * (a + 1) + 1) - (a + 1) }

  lemma LeadPhase(x: nat, q: nat)
    requires x < SAMPLE_CYCLES
    ensures ((x + SAMPLE_CYCLES - q % SAMPLE_CYCLES) % SAMPLE_CYCLES + q) % SAMPLE_CYCLES == x
  {
  }

  lemma LeadTurns(a: nat)
    ensures (Lead(a) + a) / 8192 % 8 == 0 && (Lead(a) + a + 1) / 8192 % 8 == 1 && Lead(a) + a >= 8192
  {
    var rounds := 8 * (a + 1);
    DivUnique(8192, rounds, 8191);
    DivUnique(8192, rounds + 1, 0);
    assert Lead(a) + a == rounds * 8192 + 8191 && Lead(a) + a + 1 == (rounds + 1) * 8192 + 0;
  }

  /** For every phase and every split inside a chunk there is a reachable state in which the split shows. */
  lemma InsideChunkShows(x: nat, a: nat)
    requires x < SAMPLE_CYCLES && !ChunkBoundary(x, a)
    ensures var s := After(SplitRun(x, a));
            s.ctl.sampleCycles == x && Tick(Tick(s, a), 1) != Tick(s, a + 1)
  {
    hide Tick, After, ChunkBoundary, PlayRun, Lead;
    LeadPhase(x, Lead(a));
    PlayRunShows((x + SAMPLE_CYCLES - Lead(a) % SAMPLE_CYCLES) % SAMPLE_CYCLES, x, a);
  }

  lemma PlayRunShows(r: nat, x: nat, a: nat)
    requires r < SAMPLE_CYCLES && (r + Lead(a)) % SAMPLE_CYCLES == x && !ChunkBoundary(x, a)
    ensures var s := After(PlayRun(r, Lead(a)));
            s.ctl.sampleCycles == x && Tick(Tick(s, a), 1) != Tick(s, a + 1)
  {
    hide Tick, Cycles, Inv, Playing, After, ChunkBoundary, PlayRun, Lead, ControlInv, Unsequenced;
    ReachableInv(PlayRun(r, Lead(a)));
    var c := PlayRunPlays(r, Lead(a));
    PlayingFacts(c);
    PlayingClock(c, Lead(a));
    PlayingShows(c, After(PlayRun(r, Lead(a))), a);
  }

  lemma PlayingShows(c: Control, s: State, a: nat)
    requires Playing(c) && Inv(s) && !ChunkBoundary(s.ctl.sampleCycles, a)
    ensures s.ctl == Cycles(c, Lead(a)) ==> Tick(Tick(s, a), 1) != Tick(s, a + 1)
  {
    var q := Lead(a);
    LeadTurns(a);
    hide Tick, Cycles, Inv, Playing, ChunkBoundary, AnyDac, MixLeft, Elapse, AdvanceChannels, Lead;
    hide ControlInv, Unsequenced, SameSound;
    PlayingFacts(c);
    PlayingCycles(c, q + a);
    CyclesAdd(c, q, a);
    PlayingAfter(c, Cycles(c, q + a), q + a);
    PlayingAfter(c, Elapse(Cycles(c, q + a), 1), q + a + 1);
    StaysPowered(c, q);
    if s.ctl == Cycles(c, q) {
      SplitShows(s, a);
    }
  }

  lemma StaysPowered(c: Control, n: nat)
    requires ControlInv(c)
    ensures Cycles(c, n).master == c.master
  {
    hide Cycles, ControlInv;
    CyclesKeepInv(c, n);
  }

  lemma PlayingClock(c: Control, q: nat)
    requires ControlInv(c)
    ensures Cycles(c, q).sampleCycles == (c.sampleCycles + q) % SAMPLE_CYCLES
  {
    CyclesKeepInv(c, q);
    InvOfControl(c);
    InvOfControl(Cycles(c, q));
    SampleClock(c.seqCycles, q);
    hide Cycles, ControlInv;
  }

  lemma PlayingCycles(c: Control, n: nat)
    requires ControlInv(c) && Unsequenced(c)
    ensures SameSound(Cycles(c, n), AdvanceChannels(c, n))
    ensures SameSound(Elapse(Cycles(c, n), 1), AdvanceChannels(c, n + 1))
  {
    hide Cycles, AdvanceChannels, ControlInv, Unsequenced;
    CyclesAdvance(c, n);
    InvOfControl(c);
    AdvanceAdds(c, n, 1);
    AdvanceReads(Cycles(c, n), AdvanceChannels(c, n), 1);
  }

  /** Whether the tick may be split after a cycles. */
  predicate SplitKeeps(s: State, a: nat, b: nat) { Tick(Tick(s, a), b) == Tick(s, a + b) }

  /** The exact condition, for every phase x of the open sample: a split after a cycles keeps the complete state for
      every remainder and in every state of that phase, reachable or merely within the invariant, if and only if
      chunks end there anyway. */
  lemma SplitsExactly(x: nat, a: nat)
    requires x < SAMPLE_CYCLES
    ensures (forall s, b: nat :: Inv(s) && s.ctl.sampleCycles == x ==> SplitKeeps(s, a, b)) <==> ChunkBoundary(x, a)
    ensures (forall calls, b: nat :: After(calls).ctl.sampleCycles == x ==> SplitKeeps(After(calls), a, b))
       <==> ChunkBoundary(x, a)
  {
    hide Tick, Inv, After, ChunkBoundary, SplitRun;
    if ChunkBoundary(x, a) {
      forall s, b: nat | Inv(s) && s.ctl.sampleCycles == x ensures SplitKeeps(s, a, b) {
        TickSplitAtBoundary(s, a, b);
      }
      forall calls, b: nat | After(calls).ctl.sampleCycles == x ensures SplitKeeps(After(calls), a, b) {
        ReachableInv(calls);
      }
    } else {
      InsideChunkShows(x, a);
      ReachableInv(SplitRun(x, a));
      assert !SplitKeeps(After(SplitRun(x, a)), a, 1);
    }
  }

  // ---- a run that leaves the sweep unsafe ----

  const TOP_PITCH_RUN := [Write(0xFF26, 0x80)] + [Write(0xFF12, 0xF0)] + [Write(0xFF13, 0xFF)] + [Write(0xFF14, 0x87)]

  /** Channel 1 plays the highest pitch with a safe sweep; writing shift 1 into NR10 then makes the sweep unsafe. */
  lemma SweepBreakingRun()
    ensures SweepSafe(After(TOP_PITCH_RUN).ctl.channels[0])
    ensures !SweepSafe(After(TOP_PITCH_RUN + [Write(0xFF10, 0x11)]).ctl.channels[0])
  {
    var run1 := [Write(0xFF26, 0x80)];
    var run2 := run1 + [Write(0xFF12, 0xF0)];
    var run3 := run2 + [Write(0xFF13, 0xFF)];
    PoweredOn();
    hide After, Apply, WriteControl, Shr;
    AfterMore(run1, Write(0xFF12, 0xF0));
    AfterMore(run2, Write(0xFF13, 0xFF));
    AfterMore(run3, Write(0xFF14, 0x87));
    AfterMore(TOP_PITCH_RUN, Write(0xFF10, 0x11));
    WriteCall(After(run1), 0xFF12, 0xF0);
    WriteCall(After(run2), 0xFF13, 0xFF);
    WriteCall(After(run3), 0xFF14, 0x87);
    VolumeWrite(After(run1).ctl);
    LowPitchWrite(After(run2).ctl);
    TopTriggerWrite(After(run3).ctl);
    SweepWriteCanBreak(After(TOP_PITCH_RUN));
  }

  lemma PoweredOn()
    ensures After([Write(0xFF26, 0x80)]).ctl == Default().ctl.(master := true)
  {
    AfterMore([], Write(0xFF26, 0x80));
    assert [] + [Write(0xFF26, 0x80)] == [Write(0xFF26, 0x80)];
  }

  lemma LowPitchWrite(c: Control)
    requires c.master
    ensures var d := WriteControl(c, 0xFF13, 0xFF);
            d.master && d.regs == c.regs[3 := 0xFF] && d.channels[0].dac == c.channels[0].dac
  {
    var regs := c.regs[3 := 0xFF];
    var e := SyncFrequency(c.(regs := regs), 0);
    assert e == c.(regs := regs, channels := c.channels[0 := e.channels[0]]) && e.channels[0].dac == c.channels[0].dac;
    assert WriteControl(c, 0xFF13, 0xFF) == e;
    hide Period, SyncFrequency, WriteControl;
  }

  lemma TopTriggerWrite(c: Control)
    requires c.master && c.channels[0].dac && c.regs[2] == 0xF0 && c.regs[3] == 0xFF
    requires c.regs[0] == 0 || c.regs[0] == 0x10
    ensures var d := WriteControl(c, 0xFF14, 0x87);
            && d.master && d.channels[0].enabled && d.channels[0].dac && d.channels[0].shadow == 2047
            && d.channels[0].sweepShift == 0 && !d.channels[0].sweepNegate
            && d.channels[0].sweepPeriod == c.regs[0] / 16
            && d.channels[0].sweepCounter == ReloadCounter(d.channels[0].sweepPeriod)
  {
    var regs := c.regs[4 := 0x87];
    assert Pitch(regs, 0) == 2047;
    var e := SyncFrequency(c.(regs := regs), 0);
    assert e == c.(regs := regs, channels := c.channels[0 := e.channels[0]]) && e.channels[0].dac;
    assert WriteControl(c, 0xFF14, 0x87) == Trigger(e, 0);
    hide Period, Pitch, SyncFrequency, WriteControl, Trigger;
    PlainTrigger(e);
  }

  // ---- a run whose first overflow test fires although the sweep is safe ----

  const PACED_RUN := [Write(0xFF26, 0x80)] + [Write(0xFF12, 0xF0)] + [Write(0xFF10, 0x10)]
  const PACED_TOP_RUN := PACED_RUN + [Write(0xFF13, 0xFF)] + [Write(0xFF14, 0x87)]

  /** A sweep of period 1 without a shift is safe, and stays so without another NR10 write. But triggered at the highest
      pitch it is due with the next sweep clock, and its first overflow test then fires. */
  lemma DoublingRun()
    ensures SweepSafe(After(PACED_RUN).ctl.channels[0])
    ensures var ch := After(PACED_TOP_RUN).ctl.channels[0];
            && SweepSafe(ch) && SweepDue(ch) && Doubling(ch)
            && SweepNext(ch.shadow, ch.sweepShift, ch.sweepNegate) > 2047
  {
    var run1 := [Write(0xFF26, 0x80)];
    var run2 := run1 + [Write(0xFF12, 0xF0)];
    var run3 := PACED_RUN + [Write(0xFF13, 0xFF)];
    PoweredOn();
    assert Shr(2047, 0) == 2047;
    hide After, Apply, WriteControl, Shr;
    AfterMore(run1, Write(0xFF12, 0xF0));
    AfterMore(run2, Write(0xFF10, 0x10));
    AfterMore(PACED_RUN, Write(0xFF13, 0xFF));
    AfterMore(run3, Write(0xFF14, 0x87));
    WriteCall(After(run1), 0xFF12, 0xF0);
    WriteCall(After(run2), 0xFF10, 0x10);
    WriteCall(After(PACED_RUN), 0xFF13, 0xFF);
    WriteCall(After(run3), 0xFF14, 0x87);
    VolumeWrite(After(run1).ctl);
    PaceWrite(After(run2).ctl);
    LowPitchWrite(After(PACED_RUN).ctl);
    TopTriggerWrite(After(run3).ctl);
  }

  lemma PaceWrite(c: Control)
    requires c.master && !c.channels[0].enabled
    ensures var d := WriteControl(c, 0xFF10, 0x10);
            && d.master && d.regs == c.regs[0 := 0x10]
            && d.channels[0].dac == c.channels[0].dac && !d.channels[0].enabled
  {
    SweepWriteIs(c, 0x10);
    hide WriteControl, TestBit;
  }

  // ---- a run that silences the noise channel for good ----

  const HISS_RUN := [Write(0xFF26, 0x80)] + [Write(0xFF21, 0xF0)] + [Write(0xFF23, 0x80)]
  const NOISE_RUN := HISS_RUN + [TickFor(120)]
  const NARROW_RUN := NOISE_RUN + [Write(0xFF22, 0x08)]
  const DEAD_NOISE_RUN := NARROW_RUN + [TickFor(64)]

  /** Channel 4 plays without length, envelope or sweep; nothing else does. */
  ghost predicate Hissing(c: Control) {
    var ch := c.channels[3];
    && ControlInv(c) && c.master && Unsequenced(c) && ch.enabled && ch.timer == 8
  }

  lemma HissStarts()
    ensures var c := After(HISS_RUN).ctl;
            Hissing(c) && c.regs[0x12] == 0 && c.channels[3].lfsr == 0x7FFF
  {
    var run1 := [Write(0xFF26, 0x80)];
    var run2 := run1 + [Write(0xFF21, 0xF0)];
    PoweredOn();
    hide After, Apply, WriteControl, ControlInv, LengthEnabled, Hissing;
    AfterMore(run1, Write(0xFF21, 0xF0));
    AfterMore(run2, Write(0xFF23, 0x80));
    WriteCall(After(run1), 0xFF21, 0xF0);
    WriteCall(After(run2), 0xFF23, 0x80);
    ReachableControl(run2);
    NoiseVolumeWrite(After(run1).ctl);
    NoiseTriggerWrite(After(run2).ctl);
  }

  lemma HissTicks(calls: seq<Call>, n: nat)
    requires n % 8 == 0 && n >= 8
    ensures var c, d := After(calls).ctl, After(calls + [TickFor(n)]).ctl;
            Hissing(c) && (c.regs[0x12] == 0 || c.regs[0x12] == 8) ==>
              && Hissing(d) && d.regs == c.regs
              && d.channels[3].lfsr == NoiseShifts(c.channels[3].lfsr, c.regs[0x12] == 8, n / 8)
  {
    hide After, Apply, Cycles, ControlInv, Hissing;
    AfterMore(calls, TickFor(n));
    var c := After(calls).ctl;
    if Hissing(c) && (c.regs[0x12] == 0 || c.regs[0x12] == 8) {
      HissPowered(c);
      TickCycles(After(calls), n);
      HissAdvances(c, n);
    }
  }

  lemma HissPowered(c: Control)
    requires Hissing(c)
    ensures ControlInv(c) && c.master
  {
  }

  lemma NarrowHiss()
    ensures var c := After(NARROW_RUN).ctl;
            Hissing(c) && c.regs[0x12] == 8 && c.channels[3].lfsr == 0x4000
  {
    hide After, Apply, WriteControl, ControlInv, Hissing, NoiseShifts;
    HissStarts();
    HissTicks(HISS_RUN, 120);
    WidthChangeCanKill();
    AfterMore(NOISE_RUN, Write(0xFF22, 0x08));
    WriteCall(After(NOISE_RUN), 0xFF22, 0x08);
    ReachableControl(NARROW_RUN);
    NoiseWidthWrite(After(NOISE_RUN).ctl);
  }

  /** Fifteen shifts in wide mode, then eight in narrow mode: the noise register is empty, and no time brings it back
      although the channel plays on. */
  lemma NoiseDiesRun(n: nat)
    ensures var c := Cycles(After(DEAD_NOISE_RUN).ctl, n);
            c.channels[3].enabled && c.channels[3].lfsr == 0
  {
    hide After, Cycles, Hissing, NoiseShifts;
    NarrowHiss();
    HissTicks(NARROW_RUN, 64);
    NarrowDies(0x4000);
    HissGoesOn(After(DEAD_NOISE_RUN).ctl, n);
  }

  lemma ReachableControl(calls: seq<Call>)
    ensures ControlInv(After(calls).ctl)
  {
    hide After, ControlInv;
    ReachableInv(calls);
  }

  lemma TickCycles(s: State, n: nat)
    requires ControlInv(s.ctl) && s.ctl.master
    ensures Apply(s, TickFor(n)).ctl == Cycles(s.ctl, n)
  {
    hide Cycles, ControlInv;
    TickCall(s, n);
    TickIsCycles(s, n);
    hide Apply, Tick;
  }

  lemma NoiseVolumeWrite(c: Control)
    requires c.master && c.regs == seq(0x17, _ => 0) && c.channels == SILENT_CHANNELS
    ensures var d := WriteControl(c, 0xFF21, 0xF0);
            && d == c.(regs := c.regs[0x11 := 0xF0], channels := c.channels[3 := d.channels[3]])
            && d.channels[3].dac && d.channels[3].sweepPeriod == d.channels[3].sweepShift == 0
  {
  }

  lemma NoiseTriggerWrite(c: Control)
    requires ControlInv(c) && c.master && c.channels[3].dac && c.regs == seq(0x17, _ => 0)[0x11 := 0xF0]
    requires c.channels[3].sweepPeriod == c.channels[3].sweepShift == 0
    requires forall i :: 0 <= i < 3 ==> !c.channels[i].enabled
    ensures var d := WriteControl(c, 0xFF23, 0x80);
            && Hissing(d) && d.regs[0x12] == 0 && d.channels[3].lfsr == 0x7FFF
  {
    var d := WriteControl(c, 0xFF23, 0x80);
    WriteKeepsInv(c, 0xFF23, 0x80);
    var regs := c.regs[0x13 := 0x80];
    assert NoisePeriod(0) == 8 by { assert Pow2(0) == 1; }
    assert Period(regs, 3) == 8 && !LengthEnabled(regs, 3);
    assert d == Trigger(c.(regs := regs), 3);
    hide WriteControl, ControlInv, Period, LengthEnabled, NoisePeriod;
    NoiseTrigger(c.(regs := regs));
    assert UnsequencedAt(d, 3);
    assert forall i: nat :: i < 3 ==> UnsequencedAt(d, i);
  }

  lemma NoiseTrigger(c: Control)
    requires c.channels[3].dac && c.regs[0x11] == 0xF0
    ensures var d, ch := Trigger(c, 3), Trigger(c, 3).channels[3];
            && d == c.(channels := c.channels[3 := ch], mask := d.mask)
            && ch.enabled && ch.timer == Max(Period(c.regs, 3), 1) && ch.lfsr == 0x7FFF && ch.envelopePeriod == 0
            && ch.sweepPeriod == c.channels[3].sweepPeriod && ch.sweepShift == c.channels[3].sweepShift
  {
    hide Period, Set, Clear, TestBit;
  }

  lemma NoiseWidthWrite(c: Control)
    requires Hissing(c) && ControlInv(WriteControl(c, 0xFF22, 0x08))
    ensures var d := WriteControl(c, 0xFF22, 0x08);
            Hissing(d) && d.regs[0x12] == 8 && d.channels == c.channels
  {
    var d := WriteControl(c, 0xFF22, 0x08);
    assert d == c.(regs := c.regs[0x12 := 8]) by { hide Period, ControlInv, LengthEnabled; }
    hide WriteControl, ControlInv;
    forall i: nat | i < 4 ensures UnsequencedAt(d, i) {
      assert UnsequencedAt(c, i);
    }
  }

  /** A multiple of 8 cycles at the shortest period. */
  lemma HissAdvances(c: Control, n: nat)
    requires Hissing(c) && (c.regs[0x12] == 0 || c.regs[0x12] == 8) && n % 8 == 0 && n >= 8
    ensures var d := Cycles(c, n);
            && Hissing(d) && d.regs == c.regs
            && d.channels[3].lfsr == NoiseShifts(c.channels[3].lfsr, c.regs[0x12] == 8, n / 8)
  {
    assert NoisePeriod(c.regs[0x12]) == 8 by { assert Pow2(0) == 1; }
    assert !Frozen(c.regs[0x12]) && Narrow(c.regs[0x12]) == (c.regs[0x12] == 8);
    assert Fires(8, 8, n) == n / 8 && TimerAfter(8, 8, n) == 8;
    CyclesAdvance(c, n);
    CyclesKeepInv(c, n);
    hide Cycles, ControlInv, Period, NoisePeriod, Fires, TimerAfter, Unsequenced, Frozen, Narrow;
    hide AdvanceSquare, AdvanceWave;
  }

  lemma HissGoesOn(c: Control, n: nat)
    requires Hissing(c) && c.channels[3].lfsr == 0
    ensures Cycles(c, n).channels[3].enabled && Cycles(c, n).channels[3].lfsr == 0
  {
    CyclesAdvance(c, n);
    NoiseSurvives(c, n);
    hide Cycles, ControlInv, Period, NoisePeriod, Fires, TimerAfter, Unsequenced, AdvanceSquare, AdvanceWave, Narrow;
  }
}
