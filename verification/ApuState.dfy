/** The values held by the audio unit: registers, channels, timing counters and PCM history. */
module ApuState {
  import opened Numbers

  const SAMPLE_CYCLES := 64
  const MIX_CYCLES := 1024
  const SEQUENCER_CYCLES := 8192
  const OVERSAMPLE_CYCLES := 16
  const DEFAULT_CAPACITY: Capacity := 65_536

  type Regs = s: seq<u8> | |s| == 0x17 witness seq(0x17, _ => 0)
  type WaveRam = s: seq<u8> | |s| == 0x10 witness seq(0x10, _ => 0)

  /** A logical queue limit in stereo frames. */
  type Capacity = x: int | 1 <= x <= U64_MAX witness 1

  datatype Channel = Channel(
    enabled: bool,
    dac: bool,
    length: nat,
    volume: nat,
    envelopePeriod: nat,
    envelopeIncrease: bool,
    envelopeCounter: nat,
    shadow: nat,
    sweepPeriod: nat,
    sweepCounter: nat,
    sweepShift: nat,
    sweepNegate: bool,
    duty: nat,
    timer: nat,
    wavePosition: nat,
    waveSample: u8,
    lfsr: bv16,
    forceZero: bool,
    negateUsed: bool
  )

  const SILENT := Channel(
    false, false, 0, 0, 0, false, 0, 0, 0, 0, 0, false, 0, 0, 0, 0, 0x7FFF, true, false)

  /** Channels 1 to 4 of the hardware sit at indices 0 to 3. */
  type Channels = s: seq<Channel> | |s| == 4 witness [SILENT, SILENT, SILENT, SILENT]

  /** Everything that decides how sound evolves: no PCM data. */
  datatype Control = Control(
    regs: Regs,
    wave: WaveRam,
    master: bool,
    mask: bv8,
    seqCycles: nat,
    seqStep: nat,
    channels: Channels,
    mixCycles: nat,
    sampleCycles: nat,
    cgb: bool
  )

  /** The output side: interleaved queue, filter memories, accumulators and the last reported mix. */
  datatype Pcm = Pcm(
    queue: seq<int>,
    capacity: Capacity,
    generated: nat,
    dropped: nat,
    hpfLeft: real,
    hpfRight: real,
    lpfLeft: real,
    lpfRight: real,
    accLeft: int,
    accRight: int,
    accCycles: nat,
    lastLeft: int,
    lastRight: int,
    lastMask: bv8
  )

  datatype State = State(ctl: Control, pcm: Pcm)

  // ---- the enable mask ----

  function Bit(i: nat): bv8
    requires i < 4
  {
    if i == 0 then 1 else if i == 1 then 2 else if i == 2 then 4 else 8
  }

  predicate HasBit(mask: bv8, i: nat)
    requires i < 4
  {
    mask & Bit(i) != 0
  }

  function Clear(mask: bv8, i: nat): (r: bv8)
    requires i < 4
    ensures forall j: nat :: j < 4 ==> HasBit(r, j) == (j != i && HasBit(mask, j))
    ensures r & 0xF0 == mask & 0xF0
  {
    mask & !Bit(i)
  }

  function Set(mask: bv8, i: nat): (r: bv8)
    requires i < 4
    ensures forall j: nat :: j < 4 ==> HasBit(r, j) == (j == i || HasBit(mask, j))
    ensures r & 0xF0 == mask & 0xF0
  {
    mask | Bit(i)
  }

  function Disable(c: Control, i: nat): Control
    requires i < 4
  {
    c.(channels := c.channels[i := c.channels[i].(enabled := false)], mask := Clear(c.mask, i))
  }

  // ---- register decoding ----

  function MaxLength(i: nat): nat { if i == 2 then 256 else 64 }

  /** The 11-bit pitch of a tone channel. */
  function Pitch(regs: Regs, i: nat): nat
    requires i < 3
  {
    var high: nat := if i == 0 then regs[4] else if i == 1 then regs[9] else regs[14];
    var low: nat := if i == 0 then regs[3] else if i == 1 then regs[8] else regs[13];
    high % 8 * 256 + low
  }

  /** What a trigger latches: the pitch, or for the noise channel its own stored shadow. */
  function Frequency(c: Control, i: nat): nat
    requires i < 4
  {
    if i < 3 then Pitch(c.regs, i) else c.channels[3].shadow
  }

  const NOISE_DIVISORS := [8, 16, 32, 48, 64, 80, 96, 112]

  /** Divisor shifted left in 16-bit arithmetic: bits pushed past the top are lost. */
  function NoisePeriod(nr43: u8): (p: nat)
    ensures 8 <= p < 0x1_0000
  {
    Max(NOISE_DIVISORS[nr43 % 8] * Pow2(nr43 / 16) % 0x1_0000, 8)
  }

  function Period(regs: Regs, i: nat): (p: nat)
    requires i < 4
    ensures p >= 1
  {
    if i <= 1 then Max(2048 - Min(Pitch(regs, i), 2047), 1) * 4
    else if i == 2 then Max(2048 - Min(Pitch(regs, 2), 2047), 1) * 2
    else NoisePeriod(regs[0x12])
  }

  predicate LengthEnabled(regs: Regs, i: nat)
    requires i < 4
  {
    TestBit(if i == 0 then regs[4] else if i == 1 then regs[9] else if i == 2 then regs[14] else regs[0x13], 0x40)
  }

  // ---- the invariant of every reachable state ----

  ghost predicate ChannelInv(ch: Channel, i: nat) {
    && (ch.enabled ==> ch.dac)
    && ch.length <= MaxLength(i)
    && ch.volume <= 15
    && ch.duty < 8
    && ch.wavePosition < 32
    && ch.lfsr < 0x8000
    && ch.shadow <= 2047
    && ch.sweepCounter <= 8
    && ch.sweepPeriod < 8
    && ch.sweepShift < 8
  }

  /** Every channel is sane and the public mask repeats the enable flags. */
  ghost predicate Agree(channels: Channels, mask: bv8) {
    && (forall i :: 0 <= i < 4 ==> ChannelInv(channels[i], i) && HasBit(mask, i) == channels[i].enabled)
    && mask & 0xF0 == 0
  }

  ghost predicate ChannelsInv(c: Control) {
    Agree(c.channels, c.mask)
  }

  /** The three counters are views of one clock, so every deadline is met exactly. */
  ghost predicate TimersInv(c: Control) {
    && c.seqCycles < SEQUENCER_CYCLES
    && c.mixCycles == c.seqCycles % MIX_CYCLES
    && c.sampleCycles == c.seqCycles % SAMPLE_CYCLES
    && c.seqStep < 8
  }

  ghost predicate ControlInv(c: Control) {
    ChannelsInv(c) && TimersInv(c)
  }

  /** Signed 16-bit samples. */
  ghost predicate InRange16(q: seq<int>) {
    forall i :: 0 <= i < |q| ==> -0x8000 <= q[i] < 0x8000
  }

  ghost predicate PcmInv(p: Pcm) {
    && |p.queue| % 2 == 0
    && |p.queue| <= 2 * p.capacity
    && InRange16(p.queue)
    && p.generated <= U64_MAX
    && p.dropped <= U64_MAX
    && Abs(p.accLeft) <= 480 * p.accCycles
    && Abs(p.accRight) <= 480 * p.accCycles
    && -30720.0 <= p.hpfLeft <= 30720.0
    && -30720.0 <= p.hpfRight <= 30720.0
    && -61440.0 <= p.lpfLeft <= 61440.0
    && -61440.0 <= p.lpfRight <= 61440.0
  }

  ghost predicate Inv(s: State) {
    ControlInv(s.ctl) && PcmInv(s.pcm) && s.pcm.accCycles == s.ctl.sampleCycles
  }

  lemma ReplaceAgrees(channels: Channels, mask: bv8, i: nat, ch: Channel)
    requires i < 4 && Agree(channels, mask)
    requires ChannelInv(ch, i) && ch.enabled == channels[i].enabled
    ensures Agree(channels[i := ch], mask)
  {
  }
}
