/** Register writes, and the states set up at power-off and after boot. */
module ApuWrite {
  import opened Numbers
  import opened ApuState
  import opened ApuSequencer

  function WithChannel(c: Control, i: nat, ch: Channel): Control
    requires i < 4
  {
    c.(channels := c.channels[i := ch])
  }

  function DecodeLength(i: nat, value: u8): nat { if i == 2 then 256 - value else 64 - value % 64 }

  /** The channel whose length register is at this address. */
  function LengthChannel(addr: u16): (i: nat)
    ensures i <= 4
  {
    if addr == 0xFF11 then 0 else if addr == 0xFF16 then 1 else if addr == 0xFF1B then 2
    else if addr == 0xFF20 then 3 else 4
  }

  /** The channel whose trigger register is at this address. */
  function TriggerTarget(addr: u16): (i: nat)
    ensures i <= 4
  {
    if addr == 0xFF14 then 0 else if addr == 0xFF19 then 1 else if addr == 0xFF1E then 2
    else if addr == 0xFF23 then 3 else 4
  }

  function UpdateDac(c: Control, i: nat, on: bool): Control
    requires i < 4
  {
    var d := WithChannel(c, i, c.channels[i].(dac := on));
    if on then d else Disable(d, i)
  }

  /** Envelope parameters, including the single volume step of a rewritten zero-pace increasing envelope. */
  function LoadEnvelope(ch: Channel, value: u8): Channel {
    ch.(volume := if ch.enabled && ch.envelopePeriod == 0 && ch.envelopeIncrease && value % 16 == 8
                  then (ch.volume + 1) % 16 else value / 16,
        envelopeIncrease := TestBit(value, 8),
        envelopePeriod := value % 8,
        envelopeCounter := ReloadCounter(value % 8))
  }

  function UpdateEnvelope(c: Control, i: nat, value: u8): Control
    requires i < 4
  {
    UpdateDac(WithChannel(c, i, LoadEnvelope(c.channels[i], value)), i, value >= 8)
  }

  /** Start an idle divider; a running one is left alone. */
  function SyncFrequency(c: Control, i: nat): Control
    requires i < 4
  {
    if c.channels[i].timer != 0 then c
    else WithChannel(c, i, c.channels[i].(timer := Max(Period(c.regs, i), 1)))
  }

  function LoadSweep(ch: Channel, value: u8): Channel {
    ch.(sweepPeriod := value / 16 % 8, sweepNegate := TestBit(value, 8), sweepShift := value % 8)
  }

  /** NR10: clearing negate after a negate calculation switches channel 1 off. */
  function WriteSweep(c: Control, value: u8): Control {
    var ch := c.channels[0];
    var d := WithChannel(c, 0, LoadSweep(ch, value));
    if ch.sweepNegate && !TestBit(value, 8) && ch.negateUsed && ch.enabled then Disable(d, 0) else d
  }

  function SideEffects(c: Control, addr: u16, value: u8): Control {
    var i := LengthChannel(addr);
    if i < 4 then WithChannel(c, i, c.channels[i].(length := DecodeLength(i, value)))
    else if addr == 0xFF10 then WriteSweep(c, value)
    else if addr == 0xFF12 then UpdateEnvelope(c, 0, value)
    else if addr == 0xFF13 || addr == 0xFF14 then SyncFrequency(c, 0)
    else if addr == 0xFF17 then UpdateEnvelope(c, 1, value)
    else if addr == 0xFF18 || addr == 0xFF19 then SyncFrequency(c, 1)
    else if addr == 0xFF1A then UpdateDac(c, 2, value >= 0x80)
    else if addr == 0xFF1D || addr == 0xFF1E then SyncFrequency(c, 2)
    else if addr == 0xFF21 then UpdateEnvelope(c, 3, value)
    else if addr == 0xFF22 then SyncFrequency(c, 3)
    else c
  }

  function EnvelopeRegister(regs: Regs, i: nat): u8 {
    if i == 0 then regs[2] else if i == 1 then regs[7] else if i == 3 then regs[0x11] else 0
  }

  function TriggerSweep(ch: Channel, nr10: u8): Channel {
    LoadSweep(ch, nr10).(sweepCounter := ReloadCounter(nr10 / 16 % 8), negateUsed := false)
  }

  function TriggerEnvelope(ch: Channel, env: u8): Channel {
    ch.(volume := env / 16, envelopeIncrease := TestBit(env, 8),
        envelopePeriod := env % 8, envelopeCounter := ReloadCounter(env % 8))
  }

  /** A triggered channel before its envelope and sweep are reloaded. */
  function Base(c: Control, i: nat): Channel
    requires i < 4
  {
    var ch := c.channels[i];
    ch.(enabled := true, length := if ch.length == 0 then MaxLength(i) else ch.length, shadow := Frequency(c, i),
        timer := Max(Period(c.regs, i), 1), wavePosition := 0, lfsr := 0x7FFF)
  }

  /** A channel as a successful trigger leaves it, before the first sweep calculation. */
  function Restarted(c: Control, i: nat): Channel
    requires i < 4
  {
    var base := Base(c, i);
    var swept := if i == 0 then TriggerSweep(base, c.regs[0]) else base;
    if i == 2 then swept else TriggerEnvelope(swept, EnvelopeRegister(c.regs, i))
  }

  /** The overflow test a channel-1 trigger makes when its shift is not zero. */
  function FirstSweep(c: Control): Control {
    var ch := c.channels[0];
    if ch.sweepShift == 0 then c else
    var d := if ch.sweepNegate then WithChannel(c, 0, ch.(negateUsed := true)) else c;
    if SweepNext(ch.shadow, ch.sweepShift, ch.sweepNegate) > 2047 then Disable(d, 0) else d
  }

  function Trigger(c: Control, i: nat): Control
    requires i < 4
  {
    if !c.channels[i].dac then Disable(c, i) else
    var d := WithChannel(c, i, Restarted(c, i)).(mask := Set(c.mask, i));
    if i == 0 then FirstSweep(d) else d
  }

  /** Only a DMG accepts writes while powered off, and only to the length counters. */
  function WritePoweredOff(c: Control, addr: u16, value: u8): Control {
    var i := LengthChannel(addr);
    if c.cgb || i == 4 then c
    else WithChannel(c, i, c.channels[i].(length := DecodeLength(i, value)))
  }

  function WriteRegister(c: Control, addr: u16, value: u8): Control
    requires 0xFF10 <= addr <= 0xFF25
  {
    if !c.master then WritePoweredOff(c, addr, value) else
    var d := SideEffects(c.(regs := c.regs[addr - 0xFF10 := value]), addr, value);
    var i := TriggerTarget(addr);
    if i < 4 && value >= 0x80 then Trigger(d, i) else d
  }

  predicate WaveActive(c: Control) {
    c.channels[2].enabled && c.channels[2].dac && HasBit(c.mask, 2)
  }

  /** While channel 3 plays, a CGB redirects wave accesses to the byte being played. */
  function WaveIndex(c: Control, requested: nat): (i: nat)
    ensures i < 16
  {
    if c.cgb && WaveActive(c) then Min(c.channels[2].wavePosition / 2, 15) else Min(requested, 15)
  }

  function WriteWave(c: Control, addr: u16, value: u8): Control
    requires 0xFF30 <= addr <= 0xFF3F
  {
    if !c.cgb && WaveActive(c) then c
    else c.(wave := c.wave[WaveIndex(c, addr - 0xFF30) := value])
  }

  const SILENT_CHANNELS: Channels := [SILENT, SILENT, SILENT, SILENT]

  /** Power-off clears everything but wave RAM and the mode. */
  function PoweredOff(c: Control): Control {
    Control(seq(0x17, _ => 0), c.wave, false, 0, 0, 0, SILENT_CHANNELS, 0, 0, c.cgb)
  }

  function WriteControl(c: Control, addr: u16, value: u8): Control {
    if 0xFF10 <= addr <= 0xFF25 then WriteRegister(c, addr, value)
    else if addr == 0xFF26 then
      if value >= 0x80 then c.(master := true) else if c.master then PoweredOff(c) else c
    else if 0xFF30 <= addr <= 0xFF3F then WriteWave(c, addr, value)
    else c
  }

  predicate PowersOff(c: Control, addr: u16, value: u8) { addr == 0xFF26 && value < 0x80 && c.master }

  /** An empty queue and cleared histories; capacity and lifetime counters stay. */
  function ClearedPcm(p: Pcm): Pcm {
    Pcm([], p.capacity, p.generated, p.dropped, 0.0, 0.0, 0.0, 0.0, 0, 0, 0, 0, 0, 0)
  }

  const POST_BOOT_REGS: Regs := [
    0x80, 0xBF, 0xF3, 0xFF, 0xBF, 0x3F, 0x00, 0xFF, 0xBF, 0x7F, 0xFF, 0x9F, 0xFF, 0xBF,
    0xFF, 0x00, 0x00, 0xBF, 0x77, 0xF3, 0x00, 0x00, 0x00]

  /** After boot a DMG leaves channel 1 playing, with nothing in its length counter. */
  function PostBoot(c: Control, cgbMachine: bool): Control {
    Control(POST_BOOT_REGS, seq(0x10, _ => 0), true, if cgbMachine then 0 else 1, 0, 0,
            if cgbMachine then SILENT_CHANNELS
            else SILENT_CHANNELS[0 := SILENT.(enabled := true, dac := true)],
            0, 0, c.cgb)
  }

  // ---- writes keep the invariant ----

  lemma UpdateDacKeepsInv(c: Control, i: nat, on: bool)
    requires i < 4 && ChannelsInv(c)
    ensures ChannelsInv(UpdateDac(c, i, on))
  {
  }

  lemma LoadEnvelopeSound(ch: Channel, i: nat, value: u8)
    requires ChannelInv(ch, i)
    ensures ChannelInv(LoadEnvelope(ch, value), i)
  {
  }

  lemma UpdateEnvelopeKeepsInv(c: Control, i: nat, value: u8)
    requires i < 4 && ChannelsInv(c)
    ensures ChannelsInv(UpdateEnvelope(c, i, value))
  {
    hide UpdateDac;
    assert ChannelInv(c.channels[i], i);
    LoadEnvelopeSound(c.channels[i], i, value);
    ReplaceAgrees(c.channels, c.mask, i, LoadEnvelope(c.channels[i], value));
    UpdateDacKeepsInv(WithChannel(c, i, LoadEnvelope(c.channels[i], value)), i, value >= 8);
  }

  lemma WriteSweepKeepsInv(c: Control, value: u8)
    requires ChannelsInv(c)
    ensures ChannelsInv(WriteSweep(c, value))
  {
    assert ChannelInv(c.channels[0], 0);
    ReplaceAgrees(c.channels, c.mask, 0, LoadSweep(c.channels[0], value));
    DisableKeepsInv(WithChannel(c, 0, LoadSweep(c.channels[0], value)), 0);
  }

  lemma SyncKeepsInv(c: Control, i: nat)
    requires i < 4 && ChannelsInv(c)
    ensures ChannelsInv(SyncFrequency(c, i))
  {
    hide Period;
    assert ChannelInv(c.channels[i], i);
    ReplaceAgrees(c.channels, c.mask, i, c.channels[i].(timer := Max(Period(c.regs, i), 1)));
  }

  lemma SideEffectsKeepInv(c: Control, addr: u16, value: u8)
    requires ChannelsInv(c)
    ensures ChannelsInv(SideEffects(c, addr, value))
  {
    hide UpdateDac, UpdateEnvelope, WriteSweep, SyncFrequency;
    var i := LengthChannel(addr);
    if i < 4 {
      assert ChannelInv(c.channels[i], i);
      ReplaceAgrees(c.channels, c.mask, i, c.channels[i].(length := DecodeLength(i, value)));
    }
    hide Agree;
    WriteSweepKeepsInv(c, value);
    UpdateDacKeepsInv(c, 2, value >= 0x80);
    forall j: nat | j < 4
      ensures ChannelsInv(UpdateEnvelope(c, j, value)) && ChannelsInv(SyncFrequency(c, j))
    {
      UpdateEnvelopeKeepsInv(c, j, value);
      SyncKeepsInv(c, j);
    }
  }

  lemma RestartedSound(c: Control, i: nat)
    requires i < 4 && ChannelsInv(c) && c.channels[i].dac
    ensures ChannelInv(Restarted(c, i), i) && Restarted(c, i).enabled && Restarted(c, i).dac
  {
    hide Period;
    assert ChannelInv(c.channels[i], i) && ChannelInv(c.channels[3], 3);
  }

  /** The first sweep calculation of a triggered channel 1 overflows. */
  predicate FirstSweepOverflows(regs: Regs) {
    regs[0] % 8 != 0 && SweepNext(Pitch(regs, 0), regs[0] % 8, TestBit(regs[0], 8)) > 2047
  }

  /** Exactly when a trigger leaves its channel playing, and that it then has a length; other channels are not
      concerned. */
  lemma TriggerOutcome(c: Control, i: nat)
    requires i < 4
    ensures var ch := Trigger(c, i).channels[i];
            && (ch.enabled <==> c.channels[i].dac && !(i == 0 && FirstSweepOverflows(c.regs)))
            && (HasBit(Trigger(c, i).mask, i) <==> ch.enabled)
            && (ch.enabled ==> ch.length == if c.channels[i].length == 0 then MaxLength(i) else c.channels[i].length)
    ensures forall j :: 0 <= j < 4 && j != i ==>
              Trigger(c, i).channels[j] == c.channels[j] && HasBit(Trigger(c, i).mask, j) == HasBit(c.mask, j)
  {
    hide Restarted, FirstSweep, Clear, Set, HasBit, FirstSweepOverflows;
    RestartedOutcome(c, i);
    if c.channels[i].dac && i == 0 {
      FirstSweepOutcome(WithChannel(c, 0, Restarted(c, 0)).(mask := Set(c.mask, 0)));
      RestartedSweep(c);
    }
  }

  lemma RestartedOutcome(c: Control, i: nat)
    requires i < 4
    ensures var ch := Restarted(c, i);
            ch.enabled && ch.length == if c.channels[i].length == 0 then MaxLength(i) else c.channels[i].length
  {
    hide Period, Frequency, MaxLength, TestBit;
  }

  /** What a restarted channel 1 brings to its first sweep calculation. */
  lemma RestartedSweep(c: Control)
    ensures var ch := Restarted(c, 0);
            FirstSweepOverflows(c.regs)
            <==> ch.sweepShift != 0 && SweepNext(ch.shadow, ch.sweepShift, ch.sweepNegate) > 2047
  {
    hide Period, Pitch, MaxLength, TestBit, SweepNext;
  }

  lemma FirstSweepOutcome(c: Control)
    requires c.channels[0].enabled && HasBit(c.mask, 0)
    ensures var ch, d := c.channels[0], FirstSweep(c);
            && (d.channels[0].enabled
                <==> !(ch.sweepShift != 0 && SweepNext(ch.shadow, ch.sweepShift, ch.sweepNegate) > 2047))
            && (HasBit(d.mask, 0) <==> d.channels[0].enabled)
            && d.channels[0].length == ch.length
    ensures forall j :: 1 <= j < 4 ==>
              FirstSweep(c).channels[j] == c.channels[j] && HasBit(FirstSweep(c).mask, j) == HasBit(c.mask, j)
  {
    var used := WithChannel(c, 0, c.channels[0].(negateUsed := true));
    Disabled(c, 0);
    Disabled(used, 0);
    hide SweepNext, HasBit, Disable;
  }

  lemma Disabled(c: Control, i: nat)
    requires i < 4
    ensures var d := Disable(c, i);
            && d.channels == c.channels[i := c.channels[i].(enabled := false)]
            && forall j :: 0 <= j < 4 ==> HasBit(d.mask, j) == (j != i && HasBit(c.mask, j))
  {
    hide HasBit;
  }

  lemma TriggerKeepsInv(c: Control, i: nat)
    requires i < 4 && ChannelsInv(c)
    ensures ChannelsInv(Trigger(c, i))
  {
    DisableKeepsInv(c, i);
    if c.channels[i].dac {
      RestartedSound(c, i);
      SwitchedOn(c, i, Restarted(c, i));
      FirstSweepKeepsInv(WithChannel(c, i, Restarted(c, i)).(mask := Set(c.mask, i)));
    }
    hide Restarted, FirstSweep, Set, Disable, Agree;
  }

  lemma SwitchedOn(c: Control, i: nat, ch: Channel)
    requires i < 4 && ChannelsInv(c) && ChannelInv(ch, i) && ch.enabled
    ensures ChannelsInv(WithChannel(c, i, ch).(mask := Set(c.mask, i)))
  {
    hide ChannelInv;
  }

  lemma FirstSweepKeepsInv(c: Control)
    requires ChannelsInv(c)
    ensures ChannelsInv(FirstSweep(c))
  {
    var used := c.channels[0].(negateUsed := true);
    assert ChannelInv(c.channels[0], 0);
    ReplaceAgrees(c.channels, c.mask, 0, used);
    DisableKeepsInv(c, 0);
    DisableKeepsInv(WithChannel(c, 0, used), 0);
    hide Disable, SweepNext, Agree;
  }

  lemma RegisterKeepsInv(c: Control, addr: u16, value: u8)
    requires 0xFF10 <= addr <= 0xFF25 && ChannelsInv(c)
    ensures ChannelsInv(WriteRegister(c, addr, value))
  {
    hide SideEffects, Trigger;
    var i := LengthChannel(addr);
    if i < 4 {
      assert ChannelInv(c.channels[i], i);
      ReplaceAgrees(c.channels, c.mask, i, c.channels[i].(length := DecodeLength(i, value)));
    }
    hide Agree;
    var e := c.(regs := c.regs[addr - 0xFF10 := value]);
    SideEffectsKeepInv(e, addr, value);
    var j := TriggerTarget(addr);
    if j < 4 {
      TriggerKeepsInv(SideEffects(e, addr, value), j);
    }
  }

  /** Nothing but registers, channels and mask differs. */
  ghost predicate SameClock(c: Control, d: Control) {
    d == c.(regs := d.regs, channels := d.channels, mask := d.mask)
  }

  lemma SideEffectsKeepClock(c: Control, addr: u16, value: u8)
    ensures SameClock(c, SideEffects(c, addr, value))
  {
    forall i: nat | i < 4
      ensures SameClock(c, UpdateDac(c, i, value >= 0x80)) && SameClock(c, UpdateEnvelope(c, i, value))
      ensures SameClock(c, SyncFrequency(c, i)) && SameClock(c, WriteSweep(c, value))
    {
      PartsKeepClock(c, i, value, value >= 0x80);
    }
    hide UpdateDac, UpdateEnvelope, SyncFrequency, WriteSweep, DecodeLength;
  }

  lemma PartsKeepClock(c: Control, i: nat, value: u8, on: bool)
    requires i < 4
    ensures SameClock(c, UpdateDac(c, i, on)) && SameClock(c, UpdateEnvelope(c, i, value))
    ensures SameClock(c, SyncFrequency(c, i)) && SameClock(c, WriteSweep(c, value))
  {
    hide LoadEnvelope, LoadSweep, Period, Clear;
  }

  lemma TriggerKeepsClock(c: Control, i: nat)
    requires i < 4
    ensures SameClock(c, Trigger(c, i))
  {
    hide Restarted, SweepNext, Clear, Set;
  }

  /** A register write moves no clock, and never touches the step, the mode or wave RAM. */
  lemma RegisterKeepsClock(c: Control, addr: u16, value: u8)
    requires 0xFF10 <= addr <= 0xFF25
    ensures SameClock(c, WriteRegister(c, addr, value))
  {
    hide SideEffects, Trigger;
    var e := c.(regs := c.regs[addr - 0xFF10 := value]);
    SideEffectsKeepClock(e, addr, value);
    var j := TriggerTarget(addr);
    if j < 4 {
      TriggerKeepsClock(SideEffects(e, addr, value), j);
    }
  }

  lemma WriteKeepsInv(c: Control, addr: u16, value: u8)
    requires ControlInv(c)
    ensures ControlInv(WriteControl(c, addr, value))
  {
    hide WriteRegister;
    if 0xFF10 <= addr <= 0xFF25 {
      RegisterKeepsInv(c, addr, value);
      RegisterKeepsClock(c, addr, value);
    }
  }

  /** Exactly which register writes change a unit without power: length loads on a DMG that bring a new length. They
      change that length and nothing else, registers included. */
  lemma PoweredOffWrites(c: Control, addr: u16, value: u8)
    requires !c.master && 0xFF10 <= addr <= 0xFF25
    ensures var i, d := LengthChannel(addr), WriteControl(c, addr, value);
            && (d != c <==> !c.cgb && i < 4 && c.channels[i].length != DecodeLength(i, value))
            && (d != c ==> d == c.(channels := c.channels[i := c.channels[i].(length := DecodeLength(i, value))]))
  {
    hide DecodeLength;
    var i := LengthChannel(addr);
    if i < 4 && c.channels[i].length == DecodeLength(i, value) {
      assert c.channels[i := c.channels[i].(length := DecodeLength(i, value))] == c.channels;
    }
  }

  lemma PostBootInv(c: Control, cgbMachine: bool)
    ensures ControlInv(PostBoot(c, cgbMachine))
  {
  }
}
