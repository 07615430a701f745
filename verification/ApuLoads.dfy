/** What each write loads, in the hardware's own numbers, and what a loaded length leads to. */
module ApuLoads {
  import opened Numbers
  import opened ApuState
  import opened ApuSequencer
  import opened ApuWrite
  import opened ApuLiveness
  import opened ApuCourse
  import Calls = ApuCalls

  /** NR11, NR21, NR31 and NR41 hold the lengths. */
  function LengthAddress(i: nat): (a: u16)
    requires i < 4
    ensures 0xFF10 <= a <= 0xFF25
  {
    if i == 0 then 0xFF11 else if i == 1 then 0xFF16 else if i == 2 then 0xFF1B else 0xFF20
  }

  function TriggerAddress(i: nat): (a: u16)
    requires i < 4
    ensures 0xFF10 <= a <= 0xFF25
  {
    if i == 0 then 0xFF14 else if i == 1 then 0xFF19 else if i == 2 then 0xFF1E else 0xFF23
  }

  function EnvelopeAddress(i: nat): (a: u16)
    requires i < 4 && i != 2
    ensures 0xFF10 <= a <= 0xFF25
  {
    if i == 0 then 0xFF12 else if i == 1 then 0xFF17 else 0xFF21
  }

  /** Only channel i differs, and of the registers only what was written. */
  ghost predicate OnlyChannel(c: Control, d: Control, i: nat)
    requires i < 4
  {
    && d == c.(regs := d.regs, channels := d.channels, mask := d.mask)
    && forall j :: 0 <= j < 4 && j != i ==> d.channels[j] == c.channels[j] && HasBit(d.mask, j) == HasBit(c.mask, j)
  }

  lemma OnlyFrom(c: Control, regs: Regs, d: Control, i: nat)
    requires i < 4 && OnlyChannel(c.(regs := regs), d, i)
    ensures OnlyChannel(c, d, i)
  {
    hide HasBit;
  }

  // ---- registers ----

  lemma PoweredWrite(c: Control, addr: u16, value: u8)
    requires c.master && 0xFF10 <= addr <= 0xFF25
    ensures var i, d := TriggerTarget(addr), SideEffects(c.(regs := c.regs[addr - 0xFF10 := value]), addr, value);
            WriteControl(c, addr, value) == if i < 4 && value >= 0x80 then Trigger(d, i) else d
  {
    hide SideEffects, Trigger, TriggerTarget;
  }

  /** Which effect each address has. */
  lemma EffectAt(c: Control, i: nat, addr: u16, value: u8)
    requires i < 4
    ensures SideEffects(c, LengthAddress(i), value)
         == WithChannel(c, i, c.channels[i].(length := DecodeLength(i, value)))
    ensures i != 2 ==> SideEffects(c, EnvelopeAddress(i), value) == UpdateEnvelope(c, i, value)
    ensures Tunes(addr, i) ==> SideEffects(c, addr, value) == SyncFrequency(c, i)
    ensures SideEffects(c, 0xFF10, value) == WriteSweep(c, value)
    ensures SideEffects(c, 0xFF1A, value) == UpdateDac(c, 2, value >= 0x80)
  {
    hide UpdateDac, UpdateEnvelope, SyncFrequency, WriteSweep, DecodeLength, WithChannel;
  }

  /** Which address triggers which channel. */
  lemma TriggerAt(i: nat, addr: u16)
    requires i < 4
    ensures TriggerTarget(addr) == i <==> addr == TriggerAddress(i)
    ensures TriggerTarget(LengthAddress(i)) == 4 && (i != 2 ==> TriggerTarget(EnvelopeAddress(i)) == 4)
  {
  }

  /** A powered write to a register stores the byte there and nowhere else, whatever else it does. */
  lemma RegisterStored(c: Control, addr: u16, value: u8)
    requires c.master && 0xFF10 <= addr <= 0xFF25
    ensures WriteControl(c, addr, value).regs == c.regs[addr - 0xFF10 := value]
  {
    var e := c.(regs := c.regs[addr - 0xFF10 := value]);
    EffectsKeepRegisters(e, addr, value);
    var i := TriggerTarget(addr);
    if i < 4 {
      TriggerKeepsRegisters(SideEffects(e, addr, value), i);
    }
    hide SideEffects, Trigger;
  }

  lemma EffectsKeepRegisters(c: Control, addr: u16, value: u8)
    ensures SideEffects(c, addr, value).regs == c.regs
  {
    hide Period, LoadEnvelope, LoadSweep, DecodeLength, Clear;
  }

  lemma TriggerKeepsRegisters(c: Control, i: nat)
    requires i < 4
    ensures Trigger(c, i).regs == c.regs
  {
    hide Restarted, SweepNext, Clear, Set;
  }

  // ---- lengths ----

  /** An accepted write to a length register leaves what is missing to 64, or to 256 on channel 3, and touches no other
      channel. It is accepted with power, or without it on a DMG. */
  lemma LengthLoads(c: Control, i: nat, value: u8)
    requires i < 4
    ensures var d := WriteControl(c, LengthAddress(i), value);
            var length := d.channels[i].length;
            && (!c.master && c.cgb ==> d == c)
            && (c.master || !c.cgb ==>
                  && (if i == 2 then length + value == 256 else length + value % 64 == 64)
                  && d == c.(regs := d.regs, channels := c.channels[i := c.channels[i].(length := length)])
                  && (!c.master ==> d.regs == c.regs))
  {
    var e := c.(regs := c.regs[LengthAddress(i) - 0xFF10 := value]);
    if c.master {
      PoweredWrite(c, LengthAddress(i), value);
      EffectAt(e, i, 0, value);
      TriggerAt(i, 0);
      hide WriteControl, SideEffects, TriggerTarget;
    } else {
      UnpoweredLength(c, i, value);
      hide WriteControl;
    }
  }

  lemma UnpoweredLength(c: Control, i: nat, value: u8)
    requires i < 4 && !c.master
    ensures WriteControl(c, LengthAddress(i), value)
         == if c.cgb then c else WithChannel(c, i, c.channels[i].(length := DecodeLength(i, value)))
  {
    hide DecodeLength, WithChannel;
  }

  /** The length gate of a channel. */
  predicate Gated(regs: Regs, i: nat)
    requires i < 4
  {
    (if i == 0 then regs[4] else if i == 1 then regs[9] else if i == 2 then regs[14] else regs[0x13]) / 64 % 2 == 1
  }

  /** So a playing gated channel stops on the even step that the loaded length names, unless it is channel 1 and its
      sweep ends it sooner. */
  lemma LoadedLengthStops(c: Control, i: nat, value: u8, n: nat)
    requires ControlInv(c) && i < 4 && (c.master || !c.cgb) && c.channels[i].enabled && Gated(c.regs, i)
    ensures var d, steps := WriteControl(c, LengthAddress(i), value), (c.seqCycles + n) / 8192;
            var evens := (c.seqStep + steps) / 2 - c.seqStep / 2;
            var length := if i == 2 then 256 - value else 64 - value % 64;
            i != 0 || !SweepStops(d, n) ==> (Cycles(d, n).channels[i].enabled <==> evens < length)
  {
    var d := WriteControl(c, LengthAddress(i), value);
    LengthLoads(c, i, value);
    WriteKeepsInv(c, LengthAddress(i), value);
    GateStays(c, i, value);
    hide Cycles, ControlInv, WriteControl, Gated, LengthEnabled, SweepStops;
    LengthRunsOut(d, n, i);
  }

  lemma GateStays(c: Control, i: nat, value: u8)
    requires i < 4
    ensures LengthEnabled(WriteControl(c, LengthAddress(i), value).regs, i) == Gated(c.regs, i)
  {
    if c.master {
      RegisterStored(c, LengthAddress(i), value);
    } else {
      UnpoweredLength(c, i, value);
    }
    hide WriteControl, DecodeLength;
  }

  // ---- envelopes and DACs ----

  /** Volume in the upper half, direction in bit 3, pace below; the upper five bits power the DAC, without which the
      channel stops. A playing channel that rises at pace zero and is written 8 steps its volume instead. */
  ghost predicate EnvelopeLoaded(ch: Channel, d: Channel, value: u8) {
    var steps := ch.enabled && ch.envelopePeriod == 0 && ch.envelopeIncrease && value % 16 == 8;
    d == ch.(volume := if steps then (ch.volume + 1) % 16 else value / 16,
             envelopeIncrease := value / 8 % 2 == 1, envelopePeriod := value % 8,
             envelopeCounter := if value % 8 == 0 then 8 else value % 8,
             dac := value >= 8, enabled := ch.enabled && value >= 8)
  }

  /** What a powered write to an envelope register loads. */
  lemma EnvelopeWrite(c: Control, i: nat, value: u8)
    requires c.master && i < 4 && i != 2
    ensures var ch, d := c.channels[i], WriteControl(c, EnvelopeAddress(i), value);
            && OnlyChannel(c, d, i) && EnvelopeLoaded(ch, d.channels[i], value)
            && HasBit(d.mask, i) == (HasBit(c.mask, i) && value >= 8)
  {
    hide WriteControl, SideEffects, TriggerTarget, HasBit, UpdateEnvelope, OnlyChannel, EnvelopeLoaded, EnvelopeAddress;
    var e := c.(regs := c.regs[EnvelopeAddress(i) - 0xFF10 := value]);
    PoweredWrite(c, EnvelopeAddress(i), value);
    EffectAt(e, i, 0, value);
    TriggerAt(i, 0);
    EnvelopeUpdated(e, i, value);
    OnlyFrom(c, e.regs, UpdateEnvelope(e, i, value), i);
  }

  lemma EnvelopeUpdated(c: Control, i: nat, value: u8)
    requires i < 4
    ensures var ch, d := c.channels[i], UpdateEnvelope(c, i, value);
            && OnlyChannel(c, d, i) && EnvelopeLoaded(ch, d.channels[i], value)
            && HasBit(d.mask, i) == (HasBit(c.mask, i) && value >= 8)
  {
    var loaded := LoadEnvelope(c.channels[i], value);
    EnvelopeIs(c.channels[i], value);
    DacUpdated(WithChannel(c, i, loaded), i, value >= 8);
    OnlyOn(c, loaded, UpdateEnvelope(c, i, value), i);
    hide HasBit, UpdateDac, LoadEnvelope, OnlyChannel, EnvelopeLoaded;
  }

  lemma EnvelopeIs(ch: Channel, value: u8)
    ensures var d := LoadEnvelope(ch, value);
            EnvelopeLoaded(ch, d.(dac := value >= 8, enabled := d.enabled && value >= 8), value)
  {
  }

  lemma OnlyOn(c: Control, ch: Channel, d: Control, i: nat)
    requires i < 4 && OnlyChannel(WithChannel(c, i, ch), d, i)
    ensures OnlyChannel(c, d, i)
  {
    hide HasBit;
  }

  lemma DacUpdated(c: Control, i: nat, on: bool)
    requires i < 4
    ensures var ch, d := c.channels[i], UpdateDac(c, i, on);
            && OnlyChannel(c, d, i) && d.regs == c.regs
            && d.channels[i] == ch.(dac := on, enabled := ch.enabled && on)
            && HasBit(d.mask, i) == (HasBit(c.mask, i) && on)
  {
    Disabled(WithChannel(c, i, c.channels[i].(dac := on)), i);
    hide HasBit;
  }

  /** Bit 7 of NR30 powers the DAC of channel 3. */
  lemma WaveDacWrite(c: Control, value: u8)
    requires c.master
    ensures var ch, d := c.channels[2], WriteControl(c, 0xFF1A, value);
            && OnlyChannel(c, d, 2)
            && d.channels[2] == ch.(dac := value >= 0x80, enabled := ch.enabled && value >= 0x80)
            && HasBit(d.mask, 2) == (HasBit(c.mask, 2) && value >= 0x80)
  {
    var e := c.(regs := c.regs[0x0A := value]);
    PoweredWrite(c, 0xFF1A, value);
    EffectAt(e, 2, 0, value);
    DacUpdated(e, 2, value >= 0x80);
    OnlyFrom(c, e.regs, UpdateDac(e, 2, value >= 0x80), 2);
    hide WriteControl, SideEffects, HasBit, UpdateDac, OnlyChannel;
  }

  /** Pace in bits 4 to 6, negate in bit 3, shift below. Clearing a negate that was used stops channel 1. */
  ghost predicate SweepLoaded(ch: Channel, d: Channel, value: u8) {
    var negate := value / 8 % 2 == 1;
    d == ch.(sweepPeriod := value / 16 % 8, sweepNegate := negate, sweepShift := value % 8,
             enabled := ch.enabled && !(ch.sweepNegate && !negate && ch.negateUsed))
  }

  /** What a powered write to NR10 loads. */
  lemma SweepWrite(c: Control, value: u8)
    requires c.master
    ensures var ch, d := c.channels[0], WriteControl(c, 0xFF10, value);
            && OnlyChannel(c, d, 0) && SweepLoaded(ch, d.channels[0], value)
            && (HasBit(c.mask, 0) == ch.enabled ==> HasBit(d.mask, 0) == d.channels[0].enabled)
  {
    var e := c.(regs := c.regs[0 := value]);
    PoweredWrite(c, 0xFF10, value);
    EffectAt(e, 0, 0, value);
    SweepWritten(e, value);
    OnlyFrom(c, e.regs, WriteSweep(e, value), 0);
    hide WriteControl, SideEffects, HasBit, WriteSweep, OnlyChannel, SweepLoaded;
  }

  lemma SweepWritten(c: Control, value: u8)
    ensures var ch, d := c.channels[0], WriteSweep(c, value);
            && OnlyChannel(c, d, 0) && SweepLoaded(ch, d.channels[0], value)
            && (HasBit(c.mask, 0) == ch.enabled ==> HasBit(d.mask, 0) == d.channels[0].enabled)
  {
    Disabled(WithChannel(c, 0, LoadSweep(c.channels[0], value)), 0);
    hide HasBit, Clear;
  }

  /** The registers that program the period of a channel. */
  predicate Tunes(addr: u16, i: nat) {
    || (i == 0 && (addr == 0xFF13 || addr == 0xFF14)) || (i == 1 && (addr == 0xFF18 || addr == 0xFF19))
    || (i == 2 && (addr == 0xFF1D || addr == 0xFF1E)) || (i == 3 && addr == 0xFF22)
  }

  /** Tuning without a trigger leaves a running divider alone and starts an idle one with the new period. */
  lemma TuningWrite(c: Control, addr: u16, value: u8, i: nat)
    requires c.master && i < 4 && Tunes(addr, i) && !(value >= 0x80 && addr == TriggerAddress(i))
    ensures var ch, d := c.channels[i], WriteControl(c, addr, value);
            && OnlyChannel(c, d, i) && d.mask == c.mask
            && d.channels[i] == if ch.timer != 0 then ch else ch.(timer := Programmed(d.regs, i))
  {
    var e := c.(regs := c.regs[addr - 0xFF10 := value]);
    PoweredWrite(c, addr, value);
    EffectAt(e, i, addr, value);
    TunesOnly(addr, i);
    Synced(e, i);
    OnlyFrom(c, e.regs, SyncFrequency(e, i), i);
    hide WriteControl, SideEffects, TriggerTarget, SyncFrequency, Programmed, OnlyChannel, Tunes, TriggerAddress;
  }

  lemma TunesOnly(addr: u16, i: nat)
    requires i < 4 && Tunes(addr, i)
    ensures 0xFF10 <= addr <= 0xFF25 && (TriggerTarget(addr) < 4 ==> addr == TriggerAddress(i))
  {
  }

  lemma Synced(c: Control, i: nat)
    requires i < 4
    ensures var ch, d := c.channels[i], SyncFrequency(c, i);
            && OnlyChannel(c, d, i) && d.mask == c.mask && d.regs == c.regs
            && d.channels[i] == if ch.timer != 0 then ch else ch.(timer := Programmed(c.regs, i))
  {
    PeriodIs(c.regs, i);
    hide Period, Programmed, HasBit;
  }

  // ---- triggers ----

  /** A channel restarted by a trigger from the registers: rewound, envelope and sweep reloaded. */
  function Reloaded(regs: Regs, i: nat, ch: Channel): Channel
    requires i < 4
  {
    var env := if i == 0 then regs[2] else if i == 1 then regs[7] else regs[0x11];
    var swept := if i == 0 then Reswept(Rewound(regs, i, ch), regs[0]) else Rewound(regs, i, ch);
    if i == 2 then swept else Reshaped(swept, env)
  }

  /** A new divider, the phase at its start, the noise register full, an empty length filled. */
  function Rewound(regs: Regs, i: nat, ch: Channel): Channel
    requires i < 4
  {
    ch.(timer := Programmed(regs, i), wavePosition := 0, lfsr := 0x7FFF,
        length := if ch.length != 0 then ch.length else if i == 2 then 256 else 64,
        shadow := if i == 0 then PitchOf(regs[4], regs[3]) else if i == 1 then PitchOf(regs[9], regs[8])
                  else if i == 2 then PitchOf(regs[14], regs[13]) else ch.shadow)
  }

  function Reshaped(ch: Channel, env: u8): Channel {
    ch.(volume := env / 16, envelopeIncrease := env / 8 % 2 == 1, envelopePeriod := env % 8,
        envelopeCounter := if env % 8 == 0 then 8 else env % 8)
  }

  function Reswept(ch: Channel, nr10: u8): Channel {
    ch.(sweepPeriod := nr10 / 16 % 8, sweepNegate := nr10 / 8 % 2 == 1, sweepShift := nr10 % 8,
        sweepCounter := if nr10 / 16 % 8 == 0 then 8 else nr10 / 16 % 8,
        negateUsed := nr10 % 8 != 0 && nr10 / 8 % 2 == 1)
  }

  /** A trigger of channel 1 with a shift overflows at once if adding the shifted pitch leaves 11 bits. */
  predicate OverflowsAtOnce(regs: Regs) {
    var f, shift: nat := PitchOf(regs[4], regs[3]), regs[0] % 8;
    shift != 0 && regs[0] / 8 % 2 == 0 && f + f / Pow2(shift) > 2047
  }

  lemma RestartedIs(c: Control, i: nat)
    requires i < 4
    ensures Restarted(c, i) == Reloaded(c.regs, i, c.channels[i]).(
              enabled := true, negateUsed := i != 0 && c.channels[i].negateUsed)
  {
    var ch, regs := c.channels[i], c.regs;
    var base := Rewound(regs, i, ch).(enabled := true);
    RewoundIs(c, i);
    RestartedFrom(c, i, base);
    if i == 0 {
      SweepIs(base, regs[0]);
    }
    ShapeIs(TriggerSweep(base, regs[0]), EnvelopeRegister(regs, i));
    ShapeIs(base, EnvelopeRegister(regs, i));
    ReshapedMarks(Rewound(regs, i, ch), EnvelopeRegister(regs, i), ch.negateUsed);
    ReshapedMarks(Reswept(Rewound(regs, i, ch), regs[0]), EnvelopeRegister(regs, i), false);
    assert Rewound(regs, i, ch).negateUsed == ch.negateUsed;
    hide Restarted, Rewound, TriggerSweep, Reswept, TriggerEnvelope, Reshaped;
  }

  lemma RewoundIs(c: Control, i: nat)
    requires i < 4
    ensures Base(c, i) == Rewound(c.regs, i, c.channels[i]).(enabled := true)
  {
    PeriodIs(c.regs, i);
    hide Period, Programmed;
  }

  lemma RestartedFrom(c: Control, i: nat, base: Channel)
    requires i < 4
    ensures base == Base(c, i) ==>
              Restarted(c, i)
              == if i == 2 then base
                 else TriggerEnvelope(if i == 0 then TriggerSweep(base, c.regs[0]) else base,
                                      EnvelopeRegister(c.regs, i))
  {
    hide Base, TriggerSweep, TriggerEnvelope, EnvelopeRegister;
  }

  lemma SweepIs(ch: Channel, nr10: u8)
    ensures TriggerSweep(ch, nr10) == Reswept(ch.(enabled := false), nr10).(enabled := ch.enabled, negateUsed := false)
  {
  }

  lemma ShapeIs(ch: Channel, env: u8)
    ensures TriggerEnvelope(ch, env) == Reshaped(ch, env)
  {
  }

  lemma ReshapedMarks(ch: Channel, env: u8, used: bool)
    ensures Reshaped(ch.(enabled := true, negateUsed := used), env)
         == Reshaped(ch, env).(enabled := true, negateUsed := used)
  {
  }

  lemma OverflowIs(regs: Regs)
    ensures FirstSweepOverflows(regs) <==> OverflowsAtOnce(regs)
  {
    ShrIsDiv(Pitch(regs, 0), regs[0] % 8);
    hide Shr, Pow2;
  }

  /** What a trigger makes of its channel. */
  lemma TriggerIs(c: Control, i: nat)
    requires i < 4 && c.channels[i].dac
    ensures Trigger(c, i).channels[i]
         == Reloaded(c.regs, i, c.channels[i]).(enabled := !(i == 0 && OverflowsAtOnce(c.regs)))
    ensures OnlyChannel(c, Trigger(c, i), i) && Trigger(c, i).regs == c.regs
  {
    TriggerOutcome(c, i);
    TriggerKeepsClock(c, i);
    TriggerKeepsRegisters(c, i);
    OverflowIs(c.regs);
    RestartedIs(c, i);
    hide FirstSweepOverflows, OverflowsAtOnce, HasBit;
    TriggerChannel(c, i);
    hide Trigger, Restarted;
  }

  /** Beside the enable flag, only a negated first sweep leaves a mark. */
  lemma TriggerChannel(c: Control, i: nat)
    requires i < 4 && c.channels[i].dac
    ensures var ch, d := Restarted(c, i), Trigger(c, i).channels[i];
            d == ch.(enabled := d.enabled,
                     negateUsed := ch.negateUsed || (i == 0 && ch.sweepShift != 0 && ch.sweepNegate))
  {
    hide Restarted, Set;
    if i == 0 {
      FirstSweepMarks(WithChannel(c, 0, Restarted(c, 0)).(mask := Set(c.mask, 0)));
    }
    hide FirstSweep;
  }

  lemma FirstSweepMarks(c: Control)
    ensures var ch, d := c.channels[0], FirstSweep(c).channels[0];
            d == ch.(enabled := d.enabled, negateUsed := ch.negateUsed || (ch.sweepShift != 0 && ch.sweepNegate))
  {
    hide SweepNext, Clear;
  }

  /** What a trigger register does before the trigger: it starts an idle divider, except on channel 4. */
  lemma TriggerEffect(c: Control, i: nat, value: u8)
    requires i < 4
    ensures SideEffects(c, TriggerAddress(i), value) == if i == 3 then c else SyncFrequency(c, i)
  {
    hide SyncFrequency;
  }

  /** The control state a trigger finds. */
  function Tuned(c: Control, i: nat): Control
    requires i < 4
  {
    if i == 3 then c else SyncFrequency(c, i)
  }

  /** With its DAC on the channel is reloaded, and plays unless its sweep overflows at once; with its DAC off it
      stops. */
  ghost predicate Triggered(regs: Regs, i: nat, ch: Channel, d: Channel)
    requires i < 4
  {
    if ch.dac then d == Reloaded(regs, i, ch).(enabled := !(i == 0 && OverflowsAtOnce(regs)))
    else d == ch.(enabled := false, timer := if ch.timer != 0 || i == 3 then ch.timer else Programmed(regs, i))
  }

  /** A powered write with bit 7 set to a trigger register. */
  lemma TriggerWrite(c: Control, i: nat, value: u8)
    requires c.master && i < 4 && value >= 0x80
    ensures var d := WriteControl(c, TriggerAddress(i), value);
            OnlyChannel(c, d, i) && Triggered(d.regs, i, c.channels[i], d.channels[i])
  {
    var addr := TriggerAddress(i);
    var e := c.(regs := c.regs[addr - 0xFF10 := value]);
    PoweredWrite(c, addr, value);
    TriggerAt(i, addr);
    TriggerEffect(e, i, value);
    TunedTriggered(e, i);
    OnlyFrom(c, e.regs, Trigger(Tuned(e, i), i), i);
    hide WriteControl, SideEffects, TriggerTarget, TriggerAddress, SyncFrequency, Trigger, OnlyChannel, Triggered;
  }

  lemma TunedTriggered(c: Control, i: nat)
    requires i < 4
    ensures var d := Trigger(Tuned(c, i), i);
            OnlyChannel(c, d, i) && d.regs == c.regs && Triggered(c.regs, i, c.channels[i], d.channels[i])
  {
    var e := Tuned(c, i);
    TunedIs(c, i);
    hide Tuned, HasBit, Programmed;
    if c.channels[i].dac {
      TriggerIs(e, i);
      ReloadedAlike(c.regs, i, c.channels[i], e.channels[i]);
    } else {
      TriggerStops(e, i);
    }
    hide Trigger, Reloaded, OverflowsAtOnce;
    OnlyTwice(c, e, Trigger(e, i), i);
    hide OnlyChannel;
  }

  lemma TunedIs(c: Control, i: nat)
    requires i < 4
    ensures var ch, d := c.channels[i], Tuned(c, i);
            && OnlyChannel(c, d, i) && d.mask == c.mask && d.regs == c.regs
            && d.channels[i] == ch.(timer := if ch.timer != 0 || i == 3 then ch.timer else Programmed(c.regs, i))
  {
    Synced(c, i);
    hide SyncFrequency, HasBit, Programmed;
  }

  lemma TriggerStops(c: Control, i: nat)
    requires i < 4 && !c.channels[i].dac
    ensures var d := Trigger(c, i);
            OnlyChannel(c, d, i) && d.regs == c.regs && d.channels[i] == c.channels[i].(enabled := false)
  {
    Disabled(c, i);
    hide HasBit;
  }

  lemma ReloadedAlike(regs: Regs, i: nat, ch: Channel, ch': Channel)
    requires i < 4 && ch' == ch.(timer := ch'.timer)
    ensures Reloaded(regs, i, ch') == Reloaded(regs, i, ch)
  {
    RewoundAlike(regs, i, ch, ch');
    hide Rewound, Reshaped, Reswept;
  }

  lemma RewoundAlike(regs: Regs, i: nat, ch: Channel, ch': Channel)
    requires i < 4 && ch' == ch.(timer := ch'.timer)
    ensures Rewound(regs, i, ch') == Rewound(regs, i, ch)
  {
    hide Programmed, PitchOf;
  }

  lemma OnlyTwice(c: Control, d: Control, e: Control, i: nat)
    requires i < 4 && OnlyChannel(c, d, i) && OnlyChannel(d, e, i)
    ensures OnlyChannel(c, e, i)
  {
    hide HasBit;
  }

  // ---- wave RAM, power and boot ----

  /** Wave RAM: a free byte is stored. While channel 3 plays, a DMG ignores the write and a CGB stores at the byte
      being played. Nothing else changes. */
  lemma WaveWrite(c: Control, k: nat, value: u8)
    requires k < 16 && ChannelsInv(c)
    ensures var d, played := WriteControl(c, (0xFF30 + k) as u16, value), c.channels[2].wavePosition / 2;
            if !c.channels[2].enabled then d == c.(wave := c.wave[k := value])
            else if c.cgb then played < 16 && d == c.(wave := c.wave[played := value])
            else d == c
  {
    hide HasBit;
    ChannelSound(c, 2);
  }

  /** Bit 7 of NR52 is the power: switching on touches nothing else, switching off leaves wave RAM and the mode only,
      and there is nothing to switch in a unit already on or off. Other addresses do nothing. */
  lemma PowerWrite(c: Control, addr: u16, value: u8)
    requires addr < 0xFF10 || addr == 0xFF26 || 0xFF27 <= addr < 0xFF30 || addr > 0xFF3F
    ensures var d := WriteControl(c, addr, value);
            if addr != 0xFF26 then d == c
            else if value / 128 == 1 then d == c.(master := true)
            else if !c.master then d == c
            else
              && !d.master && d.mask == 0 && d.cgb == c.cgb && d.wave == c.wave
              && (forall j :: 0 <= j < 0x17 ==> d.regs[j] == 0)
              && d.seqCycles == d.mixCycles == d.sampleCycles == d.seqStep == 0
              && forall i :: 0 <= i < 4 ==> Fresh(d.channels[i])
  {
  }

  /** A channel at power-on: off, all counters zero, the noise register full. */
  ghost predicate Fresh(ch: Channel) {
    && !ch.enabled && !ch.dac && ch.length == 0 && ch.volume == 0 && ch.timer == 0 && ch.duty == 0 && ch.forceZero
    && ch.envelopePeriod == 0 && !ch.envelopeIncrease && ch.envelopeCounter == 0
    && ch.shadow == 0 && ch.sweepPeriod == 0 && ch.sweepCounter == 0 && ch.sweepShift == 0 && !ch.sweepNegate
    && !ch.negateUsed && ch.wavePosition == 0 && ch.waveSample == 0 && ch.lfsr == 0x7FFF
  }

  /** After boot the unit is powered, NR50 is 77, all channels go to the left and 1 and 2 also to the right; a DMG plays
      channel 1 in silence, on a CGB every channel is off. */
  lemma BootMeaning(c: Control, cgbMachine: bool)
    ensures var d := PostBoot(c, cgbMachine);
            && d.master && d.cgb == c.cgb && (forall j :: 0 <= j < 16 ==> d.wave[j] == 0)
            && d.seqCycles == d.mixCycles == d.sampleCycles == d.seqStep == 0
            && (forall i :: 1 <= i < 4 ==> Fresh(d.channels[i]))
            && (cgbMachine ==> d.mask == 0 && Fresh(d.channels[0]))
            && (!cgbMachine ==>
                  && d.mask == 1 && d.channels[0].enabled && d.channels[0].dac
                  && Fresh(d.channels[0].(enabled := false, dac := false)))
    ensures PostBoot(c, cgbMachine).regs == [
              0x80, 0xBF, 0xF3, 0xFF, 0xBF, 0x3F, 0x00, 0xFF, 0xBF, 0x7F, 0xFF, 0x9F, 0xFF, 0xBF, 0xFF, 0x00,
              0x00, 0xBF, 0x77, 0xF3, 0x00, 0x00, 0x00]
  {
  }

  /** A new unit: no power, registers and wave RAM zero, channels off, an empty queue for 65536 frames. */
  lemma NewUnit()
    ensures var c, p := Calls.Default().ctl, Calls.Default().pcm;
            && !c.master && c.mask == 0 && !c.cgb
            && c.seqCycles == c.mixCycles == c.sampleCycles == c.seqStep == 0
            && (forall j :: 0 <= j < 0x17 ==> c.regs[j] == 0) && (forall j :: 0 <= j < 16 ==> c.wave[j] == 0)
            && (forall i :: 0 <= i < 4 ==> Fresh(c.channels[i]))
            && p.capacity == 65536 && p.generated == p.dropped == 0 && Quiet(p)
  {
  }

  /** Nothing queued, nothing filtered, nothing gathered, nothing reported. */
  ghost predicate Quiet(p: Pcm) {
    && p.queue == [] && p.accLeft == p.accRight == 0 && p.accCycles == 0
    && p.hpfLeft == p.hpfRight == p.lpfLeft == p.lpfRight == 0.0
    && p.lastLeft == p.lastRight == 0 && p.lastMask == 0
  }

  /** Boot and switching the power off quiet the output side; the limit and the lifetime counters stay. No other write
      touches the output side. */
  lemma OutputCleared(s: State, call: Calls.Call)
    requires call.Boot? || call.Write?
    ensures var p, q := s.pcm, Calls.Apply(s, call).pcm;
            var clears := call.Boot? || (call.addr == 0xFF26 && call.value / 128 == 0 && s.ctl.master);
            if clears then Quiet(q) && q.capacity == p.capacity && q.generated == p.generated && q.dropped == p.dropped
            else q == p
  {
    hide WriteControl, PostBoot;
  }
}
