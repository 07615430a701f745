/** The audio unit itself: an object whose methods update its fields in place, each proved against the
    functions of the other modules. Channels 1 to 4 are numbered 0 to 3; trace events are not modelled. */
module ApuDevice {
  import opened Numbers
  import opened ApuState
  import Osc = ApuOscillator
  import Seqr = ApuSequencer
  import opened ApuPcm
  import Wr = ApuWrite
  import R = ApuRun
  import Calls = ApuCalls

  class Apu {
    const regs: array<u8>
    const waveRam: array<u8>
    const channels: array<Channel>
    var masterEnabled: bool
    var channelEnable: bv8
    var frameSeqCycles: nat
    var frameSeqStep: nat
    var mixTraceCycles: nat
    var pcmSampleCycles: nat
    var cgbMode: bool

    var pcmBuffer: seq<int>
    var pcmBufferCapacityFrames: Capacity
    var pcmFramesGenerated: nat
    var pcmFramesDropped: nat
    var pcmHpfLeft: real
    var pcmHpfRight: real
    var pcmLpfLeft: real
    var pcmLpfRight: real
    var pcmAccumLeft: int
    var pcmAccumRight: int
    var pcmAccumCycles: nat
    var lastMixedLeft: int
    var lastMixedRight: int
    var lastMixedMask: bv8

    /** The fixed-size arrays have their sizes and do not alias. */
    predicate Shaped() {
      regs.Length == 0x17 && waveRam.Length == 0x10 && channels.Length == 4 && regs != waveRam
    }

    /** The control state as a value. */
    function Ctl(): Control
      requires Shaped()
      reads this, regs, waveRam, channels
    {
      Control(regs[..], waveRam[..], masterEnabled, channelEnable, frameSeqCycles, frameSeqStep,
              channels[..], mixTraceCycles, pcmSampleCycles, cgbMode)
    }

    /** The PCM state as a value. */
    function Out(): Pcm
      reads this
    {
      Pcm(pcmBuffer, pcmBufferCapacityFrames, pcmFramesGenerated, pcmFramesDropped, pcmHpfLeft, pcmHpfRight,
          pcmLpfLeft, pcmLpfRight, pcmAccumLeft, pcmAccumRight, pcmAccumCycles,
          lastMixedLeft, lastMixedRight, lastMixedMask)
    }

    function View(): State
      requires Shaped()
      reads this, regs, waveRam, channels
    {
      State(Ctl(), Out())
    }

    ghost predicate Valid()
      reads this, regs, waveRam, channels
    {
      Shaped() && Inv(View())
    }

    // ---- oscillators ----

    method AdvanceSquare(i: nat, cycles: nat)
      requires Shaped() && i < 2 && ChannelInv(channels[i], i)
      modifies channels
      ensures channels[..] == old(channels[..])[i :=
                Osc.AdvanceSquare(old(channels[i]), Period(regs[..], i), cycles)]
    {
      hide Period, Osc.AdvanceSquare;
      channels[i] := SquareAfter(channels[i], Period(regs[..], i), cycles);
    }

    /** The deadline loop of a square channel. */
    static method SquareAfter(ch: Channel, period: nat, cycles: nat) returns (st: Channel)
      requires period >= 1 && ch.duty < 8 && ch.wavePosition < 32
      ensures st == Osc.AdvanceSquare(ch, period, cycles)
    {
      hide Osc.AdvanceSquare, Osc.AdvanceWave;
      ghost var wave: WaveRam := seq(0x10, _ => 0);
      st := ch;
      if !st.enabled {
        Osc.OffStays(ch, wave, period, 0, cycles);
        return;
      }
      var remaining := cycles;
      while remaining > 0
        invariant remaining >= 0
        invariant st.enabled && st.duty < 8 && st.wavePosition < 32
        invariant Osc.AdvanceSquare(ch, period, cycles) == Osc.AdvanceSquare(st, period, remaining)
      {
        ghost var start := st;
        if st.timer == 0 {
          st := st.(timer := period);
        }
        var timer := Max(st.timer, 1);
        if remaining < timer {
          Osc.Coasted(start, wave, period, remaining);
          st := st.(timer := st.timer - remaining);
          remaining := 0;
          break;
        }
        Osc.SquareFire(start, period, remaining);
        remaining := remaining - timer;
        st := st.(timer := period, duty := (st.duty + 1) % 8, forceZero := false);
      }
      Osc.Coast(st, wave, period, 0);
    }

    method AdvanceWave(cycles: nat)
      requires Shaped() && ChannelInv(channels[2], 2)
      modifies channels
      ensures channels[..] == old(channels[..])[2 :=
                Osc.AdvanceWave(old(channels[2]), waveRam[..], Period(regs[..], 2), cycles)]
    {
      hide Period, Osc.AdvanceWave;
      channels[2] := WaveAfter(channels[2], waveRam[..], Period(regs[..], 2), cycles);
    }

    /** The deadline loop of the wave channel, which fetches a byte at each deadline. */
    static method WaveAfter(ch: Channel, wave: WaveRam, period: nat, cycles: nat) returns (st: Channel)
      requires period >= 1 && ch.duty < 8 && ch.wavePosition < 32
      ensures st == Osc.AdvanceWave(ch, wave, period, cycles)
    {
      hide Osc.AdvanceSquare, Osc.AdvanceWave;
      st := ch;
      if !st.enabled {
        Osc.OffStays(ch, wave, period, 0, cycles);
        return;
      }
      var remaining := cycles;
      while remaining > 0
        invariant remaining >= 0
        invariant st.enabled && st.duty < 8 && st.wavePosition < 32
        invariant Osc.AdvanceWave(ch, wave, period, cycles) == Osc.AdvanceWave(st, wave, period, remaining)
      {
        ghost var start := st;
        if st.timer == 0 {
          st := st.(timer := period);
        }
        var timer := Max(st.timer, 1);
        if remaining < timer {
          Osc.Coasted(start, wave, period, remaining);
          st := st.(timer := st.timer - remaining);
          remaining := 0;
          break;
        }
        Osc.WaveFire(start, wave, period, remaining);
        remaining := remaining - timer;
        var position := (st.wavePosition + 1) % 32;
        st := st.(timer := period, wavePosition := position, waveSample := wave[position / 2]);
      }
      Osc.Coast(st, wave, period, 0);
    }

    method AdvanceNoise(cycles: nat)
      requires Shaped()
      modifies channels
      ensures channels[..] == old(channels[..])[3 :=
                Osc.AdvanceNoise(old(channels[3]), regs[0x12], cycles)]
    {
      hide Osc.AdvanceNoise;
      channels[3] := NoiseAfter(channels[3], regs[0x12], cycles);
    }

    /** The deadline loop of the noise channel: none from shift 14 on. */
    static method NoiseAfter(ch: Channel, nr43: u8, cycles: nat) returns (st: Channel)
      ensures st == Osc.AdvanceNoise(ch, nr43, cycles)
    {
      hide NoisePeriod, Osc.AdvanceNoise, Osc.NoiseShift;
      st := ch;
      if !st.enabled || nr43 / 16 >= 14 {
        Osc.OffStays(ch, seq(0x10, _ => 0), 1, nr43, cycles);
        return;
      }
      var period := NoisePeriod(nr43);
      var remaining := cycles;
      while remaining > 0
        invariant remaining >= 0
        invariant st.enabled
        invariant Osc.AdvanceNoise(ch, nr43, cycles) == Osc.AdvanceNoise(st, nr43, remaining)
      {
        ghost var start := st;
        if st.timer == 0 {
          st := st.(timer := period);
        }
        var timer := Max(st.timer, 1);
        if remaining < timer {
          Osc.NoiseCoast(start, nr43, remaining);
          st := st.(timer := st.timer - remaining);
          Osc.NoiseCoast(st, nr43, 0);
          remaining := 0;
          break;
        }
        Osc.NoiseFire(start, nr43, remaining);
        remaining := remaining - timer;
        st := st.(timer := period, lfsr := Osc.NoiseShift(st.lfsr, Osc.Narrow(nr43)));
      }
      Osc.NoiseCoast(st, nr43, 0);
    }

    method AdvanceChannels(cycles: nat)
      requires Shaped() && ChannelsInv(Ctl())
      modifies channels
      ensures Ctl() == Seqr.AdvanceChannels(old(Ctl()), cycles)
    {
      hide Osc.AdvanceSquare, Osc.AdvanceWave, Osc.AdvanceNoise, Period, ChannelInv;
      assert forall i :: 0 <= i < 4 ==> ChannelInv(channels[..][i], i);
      AdvanceSquare(0, cycles);
      AdvanceSquare(1, cycles);
      AdvanceWave(cycles);
      AdvanceNoise(cycles);
    }

    // ---- the frame sequencer ----

    method DisableChannel(i: nat)
      requires Shaped() && i < 4
      modifies channels, this`channelEnable
      ensures Ctl() == Disable(old(Ctl()), i)
    {
      channels[i] := channels[i].(enabled := false);
      channelEnable := Clear(channelEnable, i);
    }

    method ClockLength()
      requires Shaped()
      modifies channels, this`channelEnable
      ensures Ctl() == Seqr.ClockLength(old(Ctl()))
    {
      hide LengthEnabled, Clear, Seqr.LengthTick;
      for i := 0 to 4
        invariant Ctl() == Seqr.ClockLengths(old(Ctl()), i)
      {
        ClockChannelLength(i);
      }
    }

    method ClockChannelLength(i: nat)
      requires Shaped() && i < 4
      modifies channels, this`channelEnable
      ensures var c := old(Ctl());
              var ticked := Seqr.LengthTick(c.channels[i], LengthEnabled(c.regs, i));
              Ctl() == c.(channels := c.channels[i := ticked],
                          mask := if c.channels[i].enabled && !ticked.enabled then Clear(c.mask, i) else c.mask)
    {
      hide LengthEnabled, Clear;
      ghost var before := channels[..];
      if channels[i].enabled && LengthEnabled(regs[..], i) {
        if channels[i].length > 0 {
          channels[i] := channels[i].(length := channels[i].length - 1);
          if channels[i].length == 0 {
            DisableChannel(i);
          }
        }
      }
      assert channels[..] == before[i := Seqr.LengthTick(before[i], LengthEnabled(regs[..], i))];
    }

    method ClockEnvelope(i: nat)
      requires Shaped() && i < 4
      modifies channels
      ensures channels[..] == old(channels[..])[i := Seqr.EnvelopeTick(old(channels[i]))]
    {
      var st := channels[i];
      if st.enabled && st.dac && st.envelopePeriod != 0 {
        if st.envelopeCounter > 0 {
          st := st.(envelopeCounter := st.envelopeCounter - 1);
        }
        if st.envelopeCounter == 0 {
          st := st.(envelopeCounter := Seqr.ReloadCounter(st.envelopePeriod));
          if st.envelopeIncrease {
            st := st.(volume := Min(st.volume + 1, 15));
          } else {
            st := st.(volume := Max(st.volume - 1, 0));
          }
        }
        channels[i] := st;
      }
    }

    method ClockEnvelopes()
      requires Shaped()
      modifies channels
      ensures Ctl() == Seqr.ClockEnvelopes(old(Ctl()))
    {
      hide Seqr.EnvelopeTick;
      ClockEnvelope(0);
      ClockEnvelope(1);
      ClockEnvelope(3);
    }

    method SetCurrentFrequency(frequency: nat)
      requires Shaped()
      modifies regs, channels
      ensures Ctl() == Seqr.SetFrequency(old(Ctl()), frequency)
    {
      regs[3] := frequency % 256;
      regs[4] := regs[4] - regs[4] % 8 + frequency / 256 % 8;
      channels[0] := channels[0].(shadow := frequency);
    }

    method ClockSweep()
      requires Shaped()
      modifies regs, channels, this`channelEnable
      ensures Ctl() == Seqr.ClockSweep(old(Ctl()))
    {
      hide Seqr.SweepNext, Seqr.SetFrequency, Clear;
      var st := channels[0];
      if !st.enabled || !st.dac || (st.sweepPeriod == 0 && st.sweepShift == 0) {
        assert channels[..] == channels[..][0 := st];
        return;
      }
      if st.sweepCounter > 0 {
        st := st.(sweepCounter := st.sweepCounter - 1);
      }
      if st.sweepCounter == 0 {
        st := st.(sweepCounter := Seqr.ReloadCounter(st.sweepPeriod));
        if st.sweepPeriod != 0 && st.sweepNegate {
          st := st.(negateUsed := true);
        }
      }
      assert st == Seqr.SweepCount(channels[0]);
      var due := Seqr.SweepDue(channels[0]);
      channels[0] := st;
      if due {
        PerformSweep();
      }
    }

    method PerformSweep()
      requires Shaped()
      modifies regs, channels, this`channelEnable
      ensures Ctl() == Seqr.ApplySweep(old(Ctl()))
    {
      hide Seqr.SweepNext, Seqr.SetFrequency, Clear;
      var shift, negate := channels[0].sweepShift, channels[0].sweepNegate;
      var next := Seqr.SweepNext(channels[0].shadow, shift, negate);
      if next > 2047 {
        DisableChannel(0);
        return;
      }
      if shift == 0 {
        return;
      }
      var second := Seqr.SweepNext(next, shift, negate);
      SetCurrentFrequency(next);
      if second > 2047 {
        DisableChannel(0);
      }
    }

    method StepSequencer()
      requires Shaped()
      modifies regs, channels, this`channelEnable, this`frameSeqStep
      ensures Ctl() == Seqr.SequencerEvent(old(Ctl()))
    {
      hide Seqr.ClockLength, Seqr.ClockSweep, Seqr.ClockEnvelopes;
      frameSeqStep := (frameSeqStep + 1) % 8;
      assert Ctl() == old(Ctl()).(seqStep := frameSeqStep);
      if frameSeqStep % 2 == 0 {
        ClockLength();
      }
      if frameSeqStep == 2 || frameSeqStep == 6 {
        ClockSweep();
      }
      if frameSeqStep == 7 {
        ClockEnvelopes();
      }
    }

    // ---- mixing and PCM ----

    method MixOutput() returns (left: int, right: int, active: bv8)
      requires Shaped()
      ensures left == MixLeft(Ctl()) && right == MixRight(Ctl()) && active == MixMask(Ctl())
      ensures if masterEnabled then Routed(Ctl(), left, right) else left == right == 0
    {
      MixIsRouted(Ctl());
      hide AnalogOutput, TestBit, RouteBit, Bit, HasBit, Scaled, LeftVolume, RightVolume, RoutedTo, ActiveTo, Routed;
      left, right, active := 0, 0, 0;
      if !masterEnabled {
        return;
      }
      left, right, active := MixChannels(LeftVolume(Ctl()), RightVolume(Ctl()));
      active := active & channelEnable;
    }

    /** The sums of all channels on both sides, and those of them that are active. */
    method MixChannels(leftVolume: nat, rightVolume: nat) returns (left: int, right: int, active: bv8)
      requires Shaped()
      ensures left == RoutedTo(Ctl(), true, leftVolume, 4) && right == RoutedTo(Ctl(), false, rightVolume, 4)
      ensures active == ActiveTo(Ctl(), 4)
    {
      hide AnalogOutput, TestBit, RouteBit, Bit, HasBit, Scaled, RoutedTo, ActiveTo;
      left, right, active := 0, 0, 0;
      ghost var c := Ctl();
      MixNothing(c, true, leftVolume);
      MixNothing(c, false, rightVolume);
      for i := 0 to 4
        invariant left == RoutedTo(c, true, leftVolume, i) && right == RoutedTo(c, false, rightVolume, i)
        invariant active == ActiveTo(c, i)
      {
        MixStep(c, true, leftVolume, i);
        MixStep(c, false, rightVolume, i);
        left, right, active := MixChannel(i, left, right, active, leftVolume, rightVolume);
      }
    }

    /** Add one channel to the sides it is routed to, and mark it if it is active. */
    method MixChannel(i: nat, left: int, right: int, active: bv8, leftVolume: nat, rightVolume: nat)
      returns (l: int, r: int, a: bv8)
      requires Shaped() && i < 4
      ensures var c := Ctl();
              var nr51 := c.regs[0x15];
              var toLeft, toRight := TestBit(nr51, RouteBit(true, i)), TestBit(nr51, RouteBit(false, i));
              && l == left + (if toLeft then Scaled(AnalogOutput(c, i), leftVolume) else 0)
              && r == right + (if toRight then Scaled(AnalogOutput(c, i), rightVolume) else 0)
              && a == if c.channels[i].enabled && HasBit(c.mask, i) then active | Bit(i) else active
    {
      hide AnalogOutput, TestBit, RouteBit, Bit, HasBit, Scaled;
      l, r, a := left, right, active;
      var sample := AnalogOutput(Ctl(), i);
      if channels[i].enabled && HasBit(channelEnable, i) {
        a := a | Bit(i);
      }
      if TestBit(regs[0x15], RouteBit(false, i)) {
        r := r + Scaled(sample, rightVolume);
      }
      if TestBit(regs[0x15], RouteBit(true, i)) {
        l := l + Scaled(sample, leftVolume);
      }
    }

    method EmitMixedOutputIfChanged()
      requires Shaped()
      modifies this`lastMixedLeft, this`lastMixedRight, this`lastMixedMask
      ensures Out() == Report(old(Out()), Ctl())
    {
      hide MixLeft, MixRight, MixMask;
      var left, right, mask := MixOutput();
      if left != lastMixedLeft || right != lastMixedRight || mask != lastMixedMask {
        lastMixedLeft, lastMixedRight, lastMixedMask := left, right, mask;
      }
    }

    method ApplyHighPass(rawLeft: real, rawRight: real) returns (left: real, right: real)
      modifies this`pcmHpfLeft, this`pcmHpfRight
      ensures left == HighPassOut(rawLeft, old(pcmHpfLeft)) && right == HighPassOut(rawRight, old(pcmHpfRight))
      ensures pcmHpfLeft == HighPassNext(rawLeft, old(pcmHpfLeft), Charge(cgbMode))
      ensures pcmHpfRight == HighPassNext(rawRight, old(pcmHpfRight), Charge(cgbMode))
    {
      hide Charge;
      var charge := Charge(cgbMode);
      left, right := rawLeft - pcmHpfLeft, rawRight - pcmHpfRight;
      pcmHpfLeft := rawLeft - left * charge;
      pcmHpfRight := rawRight - right * charge;
    }

    method ApplyOutputLowPass(left: real, right: real)
      modifies this`pcmLpfLeft, this`pcmLpfRight
      ensures pcmLpfLeft == LowPassNext(left, old(pcmLpfLeft), Alpha(cgbMode))
      ensures pcmLpfRight == LowPassNext(right, old(pcmLpfRight), Alpha(cgbMode))
    {
      hide Alpha;
      pcmLpfLeft := pcmLpfLeft + (left - pcmLpfLeft) * Alpha(cgbMode);
      pcmLpfRight := pcmLpfRight + (right - pcmLpfRight) * Alpha(cgbMode);
    }

    method TakeRawSamples() returns (left: real, right: real)
      modifies this`pcmAccumLeft, this`pcmAccumRight, this`pcmAccumCycles
      ensures Out() == Emptied(old(Out()))
      ensures left == RawSample(old(pcmAccumLeft), old(pcmAccumCycles))
      ensures right == RawSample(old(pcmAccumRight), old(pcmAccumCycles))
    {
      hide TruncDiv;
      var cycles := Max(pcmAccumCycles, 1);
      var averagedLeft, averagedRight := TruncDiv(pcmAccumLeft, cycles), TruncDiv(pcmAccumRight, cycles);
      pcmAccumLeft, pcmAccumRight, pcmAccumCycles := 0, 0, 0;
      left, right := (averagedLeft * 64) as real, (averagedRight * 64) as real;
    }

    method FilterSamples(rawLeft: real, rawRight: real) returns (left: int, right: int)
      requires Shaped()
      modifies this`pcmHpfLeft, this`pcmHpfRight, this`pcmLpfLeft, this`pcmLpfRight
      ensures Out() == Filtered(old(Out()), Ctl(), rawLeft, rawRight)
      ensures [left, right] == FrameOf(Out(), Ctl())
    {
      hide HighPassOut, HighPassNext, LowPassNext, Charge, Alpha, ClampPcm;
      if AnyDac(Ctl()) {
        var outLeft, outRight := ApplyHighPass(rawLeft, rawRight);
        ApplyOutputLowPass(outLeft, outRight);
        left, right := ClampPcm(pcmLpfLeft), ClampPcm(pcmLpfRight);
      } else {
        pcmLpfLeft, pcmLpfRight := 0.0, 0.0;
        left, right := 0, 0;
      }
    }

    method PushFrame(left: int, right: int)
      requires pcmFramesDropped <= U64_MAX
      modifies this`pcmBuffer, this`pcmFramesDropped, this`pcmFramesGenerated
      ensures Out() == Push(old(Out()), [left, right])
    {
      ghost var p := Out();
      ghost var evicted := 0;
      while |pcmBuffer| / 2 >= pcmBufferCapacityFrames
        invariant 0 <= evicted <= Max(Frames(p) - p.capacity + 1, 0)
        invariant pcmBuffer == p.queue[2 * evicted..]
        invariant pcmFramesDropped == SatAddU64(p.dropped, evicted)
        invariant pcmFramesGenerated == p.generated
        decreases |pcmBuffer|
      {
        pcmBuffer := pcmBuffer[1..];
        pcmBuffer := pcmBuffer[1..];
        pcmFramesDropped := SatAddU64(pcmFramesDropped, 1);
        evicted := evicted + 1;
      }
      pcmBuffer := pcmBuffer + [left];
      pcmBuffer := pcmBuffer + [right];
      pcmFramesGenerated := SatAddU64(pcmFramesGenerated, 1);
    }

    method EnqueuePcmFrame()
      requires Shaped() && pcmFramesDropped <= U64_MAX
      modifies this`pcmAccumLeft, this`pcmAccumRight, this`pcmAccumCycles
      modifies this`pcmHpfLeft, this`pcmHpfRight, this`pcmLpfLeft, this`pcmLpfRight
      modifies this`pcmBuffer, this`pcmFramesDropped, this`pcmFramesGenerated
      ensures Out() == Enqueue(old(Out()), Ctl())
    {
      hide Filtered, FrameOf, Push, RawSample;
      FilterKeepsQueue(Out(), Ctl());
      var rawLeft, rawRight := TakeRawSamples();
      var left, right := FilterSamples(rawLeft, rawRight);
      PushFrame(left, right);
    }

    // ---- time ----

    method NextTimedChunk(remaining: nat) returns (chunk: nat)
      requires Shaped() && remaining > 0
      ensures chunk == Seqr.NextChunk(Ctl(), remaining)
    {
      chunk := Min(remaining, 0xFFFF);
      chunk := Min(chunk, Max(SAMPLE_CYCLES - pcmSampleCycles, 1));
      chunk := Min(chunk, Max(SEQUENCER_CYCLES - frameSeqCycles, 1));
      chunk := Min(chunk, Max(MIX_CYCLES - mixTraceCycles, 1));
      chunk := Min(chunk, OVERSAMPLE_CYCLES);
      chunk := Max(chunk, 1);
    }

    /** Let a chunk pass: oscillators first, then the counters. */
    method PassChunk(chunk: nat)
      requires Shaped() && ChannelsInv(Ctl())
      modifies channels, this`frameSeqCycles, this`mixTraceCycles, this`pcmSampleCycles
      ensures Ctl() == Seqr.Elapse(old(Ctl()), chunk)
    {
      hide Seqr.AdvanceChannels, ChannelsInv;
      AdvanceChannels(chunk);
      frameSeqCycles := SatAddU16(frameSeqCycles, chunk);
      mixTraceCycles := SatAddU16(mixTraceCycles, chunk);
      pcmSampleCycles := SatAddU16(pcmSampleCycles, chunk);
    }

    method AccumulateMix(chunk: nat)
      requires Shaped()
      modifies this`pcmAccumLeft, this`pcmAccumRight, this`pcmAccumCycles
      ensures Out() == Accumulate(old(Out()), MixLeft(Ctl()), MixRight(Ctl()), chunk)
    {
      hide MixLeft, MixRight, MixMask;
      var left, right, _ := MixOutput();
      pcmAccumLeft := SatAddI32(pcmAccumLeft, left * chunk);
      pcmAccumRight := SatAddI32(pcmAccumRight, right * chunk);
      pcmAccumCycles := SatAddU16(pcmAccumCycles, chunk);
    }

    /** The part of a chunk before any deadline: let it pass, then weigh the mix it ends with. */
    method PassAndMix(chunk: nat)
      requires Shaped() && ChannelsInv(Ctl())
      modifies channels, this`frameSeqCycles, this`mixTraceCycles, this`pcmSampleCycles
      modifies this`pcmAccumLeft, this`pcmAccumRight, this`pcmAccumCycles
      ensures Ctl() == Seqr.Elapse(old(Ctl()), chunk)
      ensures Out() == Accumulate(old(Out()), MixLeft(Ctl()), MixRight(Ctl()), chunk)
    {
      hide Seqr.Elapse, ChannelsInv, MixLeft, MixRight, Accumulate;
      PassChunk(chunk);
      AccumulateMix(chunk);
    }

    method ServeSample()
      requires Shaped() && pcmFramesDropped <= U64_MAX
      modifies this`pcmAccumLeft, this`pcmAccumRight, this`pcmAccumCycles
      modifies this`pcmHpfLeft, this`pcmHpfRight, this`pcmLpfLeft, this`pcmLpfRight
      modifies this`pcmBuffer, this`pcmFramesDropped, this`pcmFramesGenerated, this`pcmSampleCycles
      ensures Ctl() == old(Ctl()).(sampleCycles := pcmSampleCycles)
      ensures pcmSampleCycles == old(pcmSampleCycles)
                 - if old(pcmSampleCycles) >= SAMPLE_CYCLES then SAMPLE_CYCLES else 0
      ensures Out() == if old(pcmSampleCycles) >= SAMPLE_CYCLES then Enqueue(old(Out()), old(Ctl())) else old(Out())
    {
      hide Enqueue;
      if pcmSampleCycles >= SAMPLE_CYCLES {
        EnqueuePcmFrame();
        pcmSampleCycles := pcmSampleCycles - SAMPLE_CYCLES;
      }
    }

    method ServeSequencer()
      requires Shaped()
      modifies regs, channels, this`channelEnable, this`frameSeqStep, this`frameSeqCycles
      ensures var c := old(Ctl());
              Ctl() == if c.seqCycles >= SEQUENCER_CYCLES
                       then Seqr.SequencerEvent(c.(seqCycles := c.seqCycles - SEQUENCER_CYCLES)) else c
    {
      hide Seqr.SequencerEvent;
      if frameSeqCycles >= SEQUENCER_CYCLES {
        frameSeqCycles := frameSeqCycles - SEQUENCER_CYCLES;
        StepSequencer();
      }
    }

    method ServeMix(emitTrace: bool)
      requires Shaped()
      modifies this`mixTraceCycles, this`lastMixedLeft, this`lastMixedRight, this`lastMixedMask
      ensures var c := old(Ctl());
              Ctl() == if c.mixCycles >= MIX_CYCLES then c.(mixCycles := c.mixCycles % MIX_CYCLES) else c
      ensures Out() == if emitTrace && old(mixTraceCycles) >= MIX_CYCLES then Report(old(Out()), Ctl()) else old(Out())
    {
      hide Report;
      if mixTraceCycles >= MIX_CYCLES {
        mixTraceCycles := mixTraceCycles % MIX_CYCLES;
        if emitTrace {
          EmitMixedOutputIfChanged();
        }
      }
    }

    /** Sample, sequencer and mix deadlines, in that order. */
    method ServeDeadlines(emitTrace: bool)
      requires Shaped() && pcmFramesDropped <= U64_MAX
      modifies this, regs, channels
      ensures Ctl() == Seqr.Serve(old(Ctl())) && Out() == R.Served(old(Out()), old(Ctl()), emitTrace)
    {
      hide Enqueue, Report, Seqr.SequencerEvent, Seqr.Serve, R.Served;
      ghost var c0, p0 := Ctl(), Out();
      ServeSample();
      ghost var c1, p1 := Ctl(), Out();
      ServeSequencer();
      ghost var c2 := Ctl();
      ServeMix(emitTrace);
      R.DeadlinesServed(emitTrace, c0, c1, c2, Ctl(), p0, p1, Out());
    }

    method ProcessTimedChunk(chunk: nat, emitTrace: bool)
      requires Shaped() && ChannelsInv(Ctl()) && pcmFramesDropped <= U64_MAX
      modifies this, regs, channels
      ensures View() == R.Chunk(old(View()), chunk, emitTrace)
    {
      hide MixLeft, MixRight, Accumulate, ChannelsInv, Seqr.Elapse, Seqr.Serve, R.Chunk, R.Served;
      R.ChunkIs(View(), chunk, emitTrace);
      PassAndMix(chunk);
      ServeDeadlines(emitTrace);
    }

    method Tick(cycles: nat)
      requires Valid()
      modifies this, regs, channels
      ensures Valid() && View() == R.Tick(old(View()), cycles)
    {
      if !masterEnabled {
        return;
      }
      hide R.Run, Report, Inv;
      RunChunks(cycles, true);
      R.ReportKeepsInv(View());
      EmitMixedOutputIfChanged();
    }

    method TickFast(cycles: nat)
      requires Valid()
      modifies this, regs, channels
      ensures Valid() && View() == R.TickFast(old(View()), cycles)
    {
      if !masterEnabled {
        return;
      }
      hide R.Run, Report, Inv;
      RunChunks(cycles, false);
      R.ReportKeepsInv(View());
      EmitMixedOutputIfChanged();
    }

    method RunChunks(cycles: nat, emitTrace: bool)
      requires Valid()
      modifies this, regs, channels
      ensures Valid() && View() == R.Run(old(View()), cycles, emitTrace)
    {
      hide R.Chunk, Seqr.NextChunk, ControlInv, PcmInv;
      var remaining := cycles;
      while remaining > 0
        invariant 0 <= remaining <= cycles
        invariant Valid() && R.Run(View(), remaining, emitTrace) == R.Run(old(View()), cycles, emitTrace)
      {
        R.InvParts(View());
        var chunk := NextTimedChunk(remaining);
        R.ChunkKeepsStateInv(View(), chunk, emitTrace);
        ProcessTimedChunk(chunk, emitTrace);
        remaining := remaining - chunk;
      }
    }

    // ---- register writes ----

    method UpdateDacState(i: nat, on: bool)
      requires Shaped() && i < 4
      modifies channels, this`channelEnable
      ensures Ctl() == Wr.UpdateDac(old(Ctl()), i, on)
    {
      hide Clear;
      channels[i] := channels[i].(dac := on);
      if !on {
        DisableChannel(i);
      }
    }

    method UpdateEnvelopeFromReg(i: nat, value: u8)
      requires Shaped() && i < 4
      modifies channels, this`channelEnable
      ensures Ctl() == Wr.UpdateEnvelope(old(Ctl()), i, value)
    {
      hide Wr.UpdateDac, Wr.LoadEnvelope;
      LoadEnvelope(i, value);
      UpdateDacState(i, value >= 8);
    }

    method LoadEnvelope(i: nat, value: u8)
      requires Shaped() && i < 4
      modifies channels
      ensures channels[..] == old(channels[..])[i := Wr.LoadEnvelope(old(channels[i]), value)]
    {
      channels[i] := EnvelopeLoaded(channels[i], value);
    }

    static method EnvelopeLoaded(ch: Channel, value: u8) returns (st: Channel)
      ensures st == Wr.LoadEnvelope(ch, value)
    {
      var volume: nat := value / 16;
      if ch.enabled && ch.envelopePeriod == 0 && ch.envelopeIncrease && value % 16 == 8 {
        volume := (ch.volume + 1) % 16;
      }
      st := ch.(volume := volume, envelopeIncrease := TestBit(value, 8), envelopePeriod := value % 8,
                envelopeCounter := if value % 8 == 0 then 8 else value % 8);
    }

    method SyncFrequencyFromRegs(i: nat)
      requires Shaped() && i < 4
      modifies channels
      ensures Ctl() == Wr.SyncFrequency(old(Ctl()), i)
    {
      hide Period;
      if channels[i].timer == 0 {
        channels[i] := channels[i].(timer := Max(Period(regs[..], i), 1));
      }
    }

    method WriteSweep(value: u8)
      requires Shaped()
      modifies channels, this`channelEnable
      ensures Ctl() == Wr.WriteSweep(old(Ctl()), value)
    {
      hide Clear;
      var before := channels[0];
      channels[0] := before.(sweepPeriod := value / 16 % 8, sweepNegate := TestBit(value, 8), sweepShift := value % 8);
      if before.sweepNegate && !TestBit(value, 8) && before.negateUsed && before.enabled {
        DisableChannel(0);
      }
    }

    method LoadLength(i: nat, value: u8)
      requires Shaped() && i < 4
      modifies channels
      ensures Ctl() == Wr.WithChannel(old(Ctl()), i, old(channels[i]).(length := Wr.DecodeLength(i, value)))
    {
      channels[i] := channels[i].(length := if i == 2 then 256 - value else 64 - value % 64);
    }

    method ApplyRegisterSideEffects(addr: u16, value: u8)
      requires Shaped()
      modifies channels, this`channelEnable
      ensures Ctl() == Wr.SideEffects(old(Ctl()), addr, value)
    {
      hide Wr.UpdateEnvelope, Wr.SyncFrequency, Wr.WriteSweep, Wr.UpdateDac, Wr.WithChannel, Wr.DecodeLength;
      match addr
      case 0xFF10 => WriteSweep(value);
      case 0xFF11 => LoadLength(0, value);
      case 0xFF12 => UpdateEnvelopeFromReg(0, value);
      case 0xFF13 => SyncFrequencyFromRegs(0);
      case 0xFF14 => SyncFrequencyFromRegs(0);
      case 0xFF16 => LoadLength(1, value);
      case 0xFF17 => UpdateEnvelopeFromReg(1, value);
      case 0xFF18 => SyncFrequencyFromRegs(1);
      case 0xFF19 => SyncFrequencyFromRegs(1);
      case 0xFF1A => UpdateDacState(2, value >= 0x80);
      case 0xFF1B => LoadLength(2, value);
      case 0xFF1D => SyncFrequencyFromRegs(2);
      case 0xFF1E => SyncFrequencyFromRegs(2);
      case 0xFF20 => LoadLength(3, value);
      case 0xFF21 => UpdateEnvelopeFromReg(3, value);
      case 0xFF22 => SyncFrequencyFromRegs(3);
      case _ =>
    }

    method TriggerChannel(i: nat)
      requires Shaped() && i < 4
      modifies channels, this`channelEnable
      ensures Ctl() == Wr.Trigger(old(Ctl()), i)
    {
      hide Wr.FirstSweep, Wr.Restarted, Clear, Set;
      if !channels[i].dac {
        DisableChannel(i);
        return;
      }
      RestartChannel(i);
      channelEnable := Set(channelEnable, i);
      if i == 0 {
        CheckFirstSweep();
      }
    }

    method ReloadSweep()
      requires Shaped()
      modifies channels
      ensures channels[..] == old(channels[..])[0 := Wr.TriggerSweep(old(channels[0]), regs[0])]
    {
      var nr10 := regs[0];
      var st := channels[0].(sweepPeriod := nr10 / 16 % 8, sweepNegate := TestBit(nr10, 8), sweepShift := nr10 % 8);
      channels[0] := st.(sweepCounter := if st.sweepPeriod == 0 then 8 else st.sweepPeriod, negateUsed := false);
    }

    method ReloadEnvelope(i: nat, env: u8)
      requires Shaped() && i < 4
      modifies channels
      ensures channels[..] == old(channels[..])[i := Wr.TriggerEnvelope(old(channels[i]), env)]
    {
      var st := channels[i].(volume := env / 16, envelopeIncrease := TestBit(env, 8), envelopePeriod := env % 8);
      channels[i] := st.(envelopeCounter := if st.envelopePeriod == 0 then 8 else st.envelopePeriod);
    }

    method RestartChannel(i: nat)
      requires Shaped() && i < 4
      modifies channels
      ensures Ctl() == Wr.WithChannel(old(Ctl()), i, Wr.Restarted(old(Ctl()), i))
    {
      hide Period, Frequency, MaxLength, Wr.TriggerSweep, Wr.TriggerEnvelope, Wr.EnvelopeRegister;
      var frequency, period := Frequency(Ctl(), i), Max(Period(regs[..], i), 1);
      channels[i] := channels[i].(enabled := true, shadow := frequency, timer := period,
                                   wavePosition := 0, lfsr := 0x7FFF,
                                  length := if channels[i].length == 0 then MaxLength(i) else channels[i].length);
      if i == 0 {
        ReloadSweep();
      }
      if i != 2 {
        ReloadEnvelope(i, Wr.EnvelopeRegister(regs[..], i));
      }
    }

    method CheckFirstSweep()
      requires Shaped()
      modifies channels, this`channelEnable
      ensures Ctl() == Wr.FirstSweep(old(Ctl()))
    {
      hide Clear, Seqr.SweepNext;
      var st := channels[0];
      if st.sweepShift != 0 {
        if st.sweepNegate {
          channels[0] := st.(negateUsed := true);
        }
        if Seqr.SweepNext(st.shadow, st.sweepShift, st.sweepNegate) > 2047 {
          DisableChannel(0);
        }
      }
    }

    method WriteRegister(addr: u16, value: u8)
      requires Shaped() && 0xFF10 <= addr <= 0xFF25
      modifies regs, channels, this`channelEnable
      ensures Ctl() == Wr.WriteRegister(old(Ctl()), addr, value)
    {
      hide Wr.SideEffects, Wr.Trigger;
      if !masterEnabled {
        var i := Wr.LengthChannel(addr);
        if !cgbMode && i < 4 {
          LoadLength(i, value);
        }
        return;
      }
      regs[addr - 0xFF10] := value;
      assert Ctl() == old(Ctl()).(regs := old(regs[..])[addr - 0xFF10 := value]);
      ApplyRegisterSideEffects(addr, value);
      var channel := Wr.TriggerTarget(addr);
      if channel < 4 && value >= 0x80 {
        TriggerChannel(channel);
      }
    }

    /** Empty the queue and every history; capacity and lifetime counters stay. */
    method ClearPcm()
      modifies this`pcmBuffer, this`pcmHpfLeft, this`pcmHpfRight, this`pcmLpfLeft, this`pcmLpfRight
      modifies this`pcmAccumLeft, this`pcmAccumRight, this`pcmAccumCycles
      modifies this`lastMixedLeft, this`lastMixedRight, this`lastMixedMask
      ensures Out() == Wr.ClearedPcm(old(Out()))
    {
      ClearQueue();
      ClearSums();
    }

    method ClearQueue()
      modifies this`pcmBuffer, this`pcmHpfLeft, this`pcmHpfRight, this`pcmLpfLeft, this`pcmLpfRight
      ensures Out() == old(Out()).(queue := [], hpfLeft := 0.0, hpfRight := 0.0, lpfLeft := 0.0, lpfRight := 0.0)
    {
      pcmBuffer := [];
      pcmHpfLeft, pcmHpfRight, pcmLpfLeft, pcmLpfRight := 0.0, 0.0, 0.0, 0.0;
    }

    method ClearSums()
      modifies this`pcmAccumLeft, this`pcmAccumRight, this`pcmAccumCycles
      modifies this`lastMixedLeft, this`lastMixedRight, this`lastMixedMask
      ensures Out() == old(Out()).(accLeft := 0, accRight := 0, accCycles := 0,
                                   lastLeft := 0, lastRight := 0, lastMask := 0)
    {
      pcmAccumLeft, pcmAccumRight, pcmAccumCycles := 0, 0, 0;
      lastMixedLeft, lastMixedRight, lastMixedMask := 0, 0, 0;
    }

    /** Restart the sequencer and every clock, with all channels silent. */
    method ResetClocks()
      requires Shaped()
      modifies this`frameSeqCycles, this`frameSeqStep, this`mixTraceCycles, this`pcmSampleCycles, channels
      ensures Ctl() == old(Ctl()).(seqCycles := 0, seqStep := 0, mixCycles := 0, sampleCycles := 0,
                                   channels := Wr.SILENT_CHANNELS)
    {
      frameSeqCycles, frameSeqStep, mixTraceCycles, pcmSampleCycles := 0, 0, 0, 0;
      forall i | 0 <= i < 4 {
        channels[i] := SILENT;
      }
    }

    method LoadRegisters(values: Regs)
      requires Shaped()
      modifies regs
      ensures regs[..] == values
    {
      forall i | 0 <= i < 0x17 {
        regs[i] := values[i];
      }
    }

    method ClearWaveRam()
      requires Shaped()
      modifies waveRam
      ensures waveRam[..] == seq(0x10, _ => 0)
    {
      forall i | 0 <= i < 0x10 {
        waveRam[i] := 0;
      }
    }

    method PowerOff()
      requires Shaped()
      modifies this, regs, channels
      ensures Ctl() == Wr.PoweredOff(old(Ctl())) && Out() == Wr.ClearedPcm(old(Out()))
    {
      hide Wr.ClearedPcm;
      ClearPcm();
      RestartControl(false, 0, seq(0x17, _ => 0));
    }

    /** New registers, power and mask, with clocks and channels reset. */
    method RestartControl(power: bool, mask: bv8, values: Regs)
      requires Shaped()
      modifies this`masterEnabled, this`channelEnable, regs, channels
      modifies this`frameSeqCycles, this`frameSeqStep, this`mixTraceCycles, this`pcmSampleCycles
      ensures Ctl() == Control(values, old(waveRam[..]), power, mask, 0, 0, Wr.SILENT_CHANNELS, 0, 0, old(cgbMode))
    {
      masterEnabled, channelEnable := power, mask;
      LoadRegisters(values);
      ResetClocks();
    }

    method Write(addr: u16, value: u8)
      requires Valid()
      modifies this, regs, waveRam, channels
      ensures Valid() && View() == Calls.Apply(old(View()), Calls.Write(addr, value))
    {
      hide Wr.WriteRegister, Inv, R.Tick, R.TickFast;
      Calls.ApplyKeepsInv(View(), Calls.Write(addr, value));
      if 0xFF10 <= addr <= 0xFF25 {
        WriteRegister(addr, value);
      } else if addr == 0xFF26 {
        if value >= 0x80 {
          masterEnabled := true;
        } else if masterEnabled {
          PowerOff();
        }
      } else if 0xFF30 <= addr <= 0xFF3F {
        if cgbMode || !Wr.WaveActive(Ctl()) {
          waveRam[Wr.WaveIndex(Ctl(), addr - 0xFF30)] := value;
        }
      }
    }

    // ---- the other public calls ----

    constructor ()
      ensures Valid() && View() == Calls.Default()
      ensures fresh(regs) && fresh(waveRam) && fresh(channels)
    {
      regs := new u8[0x17](_ => 0);
      waveRam := new u8[0x10](_ => 0);
      channels := new Channel[4](_ => SILENT);
      masterEnabled, channelEnable, cgbMode := false, 0, false;
      frameSeqCycles, frameSeqStep, mixTraceCycles, pcmSampleCycles := 0, 0, 0, 0;
      pcmBuffer, pcmBufferCapacityFrames, pcmFramesGenerated, pcmFramesDropped := [], DEFAULT_CAPACITY, 0, 0;
      pcmHpfLeft, pcmHpfRight, pcmLpfLeft, pcmLpfRight := 0.0, 0.0, 0.0, 0.0;
      pcmAccumLeft, pcmAccumRight, pcmAccumCycles := 0, 0, 0;
      lastMixedLeft, lastMixedRight, lastMixedMask := 0, 0, 0;
      new;
      assert View() == Calls.Default();
      Calls.ReachableInv([]);
    }

    method InitializePostBootState(cgbMachine: bool)
      requires Valid()
      modifies this, regs, waveRam, channels
      ensures Valid() && View() == Calls.Apply(old(View()), Calls.Boot(cgbMachine))
    {
      hide Inv, R.Tick, R.TickFast, Wr.ClearedPcm;
      Calls.ApplyKeepsInv(View(), Calls.Boot(cgbMachine));
      hide Wr.PostBoot;
      ClearPcm();
      BootControl(cgbMachine);
    }

    method BootControl(cgbMachine: bool)
      requires Shaped()
      modifies this`masterEnabled, this`channelEnable, regs, waveRam, channels
      modifies this`frameSeqCycles, this`frameSeqStep, this`mixTraceCycles, this`pcmSampleCycles
      ensures Ctl() == Wr.PostBoot(old(Ctl()), cgbMachine)
    {
      ClearWaveRam();
      RestartControl(true, if cgbMachine then 0 else 1, Wr.POST_BOOT_REGS);
      if channelEnable == 1 {
        channels[0] := channels[0].(enabled := true, dac := true);
      }
    }

    method SetCgbMode(on: bool)
      requires Valid()
      modifies this`cgbMode
      ensures Valid() && View() == Calls.Apply(old(View()), Calls.SetCgb(on))
    {
      cgbMode := on;
    }

    /** Zero is refused; shrinking discards the oldest samples without counting them as dropped. The doubled limit
        saturates, which no queue notices whose length is a 64-bit number, as every length is. */
    method SetBufferCapacityFrames(capacity: Calls.FrameLimit) returns (ok: bool)
      requires Valid() && |pcmBuffer| <= U64_MAX
      modifies this`pcmBufferCapacityFrames, this`pcmBuffer
      ensures ok == (capacity != 0)
      ensures Valid() && View() == Calls.Apply(old(View()), Calls.Resize(capacity))
    {
      hide Inv, R.Tick, R.TickFast;
      Calls.ApplyKeepsInv(View(), Calls.Resize(capacity));
      if capacity == 0 {
        return false;
      }
      pcmBufferCapacityFrames := capacity;
      TrimTo(Min(2 * capacity, U64_MAX));
      return true;
    }

    method TrimTo(samples: nat)
      modifies this`pcmBuffer
      ensures pcmBuffer == R.Newest(old(pcmBuffer), samples)
    {
      ghost var removed := 0;
      while |pcmBuffer| > samples
        invariant 0 <= removed <= Max(old(|pcmBuffer|) - samples, 0)
        invariant pcmBuffer == old(pcmBuffer)[removed..]
      {
        pcmBuffer := pcmBuffer[1..];
        removed := removed + 1;
      }
    }

    /** Remove and return the oldest whole frames, at most maxFrames of them. */
    method DrainInterleaved(maxFrames: nat) returns (drained: seq<int>)
      requires Valid()
      modifies this`pcmBuffer
      ensures Valid() && View() == Calls.Apply(old(View()), Calls.Drain(maxFrames))
      ensures drained + pcmBuffer == old(pcmBuffer)
      ensures |drained| == 2 * Min(maxFrames, old(|pcmBuffer|) / 2)
    {
      hide ControlInv;
      Calls.ApplyKeepsInv(View(), Calls.Drain(maxFrames));
      var frames := Min(maxFrames, |pcmBuffer| / 2);
      drained := [];
      for k := 0 to frames * 2
        invariant drained == old(pcmBuffer)[..k] && pcmBuffer == old(pcmBuffer)[k..]
      {
        drained := drained + [pcmBuffer[0]];
        pcmBuffer := pcmBuffer[1..];
      }
    }

    /** Any public call leaves the device valid and does to it what Apply says. */
    method Perform(call: Calls.Call)
      requires Valid() && |pcmBuffer| <= U64_MAX
      modifies this, regs, waveRam, channels
      ensures Valid() && View() == Calls.Apply(old(View()), call)
    {
      hide Inv, R.Run, Wr.WriteControl;
      match call
      case Write(addr, value) => Write(addr, value);
      case TickFor(cycles) => Tick(cycles);
      case TickFastFor(cycles) => TickFast(cycles);
      case SetCgb(on) => SetCgbMode(on);
      case Resize(capacity) => var _ := SetBufferCapacityFrames(capacity);
      case Drain(limit) => var _ := DrainInterleaved(limit);
      case Boot(cgbMachine) => InitializePostBootState(cgbMachine);
    }
  }
}
