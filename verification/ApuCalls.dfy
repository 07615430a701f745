/** Every public call of the audio unit as one function, and what holds after any run of calls. */
module ApuCalls {
  import opened Numbers
  import opened ApuState
  import opened ApuSequencer
  import opened ApuPcm
  import opened ApuRun
  import opened ApuWrite
  import opened ApuLiveness

  /** A frame limit a caller may ask for; zero is refused. */
  type FrameLimit = x: int | 0 <= x <= U64_MAX

  datatype Call =
    | Write(addr: u16, value: u8)
    | TickFor(cycles: nat)
    | TickFastFor(cycles: nat)
    | SetCgb(on: bool)
    | Resize(capacity: FrameLimit)
    | Drain(limit: nat)
    | Boot(cgbMachine: bool)

  function Default(): State {
    State(Control(seq(0x17, _ => 0), seq(0x10, _ => 0), false, 0, 0, 0, SILENT_CHANNELS, 0, 0, false),
          Pcm([], DEFAULT_CAPACITY, 0, 0, 0.0, 0.0, 0.0, 0.0, 0, 0, 0, 0, 0, 0))
  }

  function DrainCount(p: Pcm, limit: nat): nat { Min(limit, Frames(p)) }

  function Resized(p: Pcm, limit: FrameLimit): Pcm {
    if limit == 0 then p else p.(capacity := limit, queue := Newest(p.queue, 2 * limit))
  }

  function Apply(s: State, call: Call): State {
    match call
    case Write(addr, value) =>
      State(WriteControl(s.ctl, addr, value), if PowersOff(s.ctl, addr, value) then ClearedPcm(s.pcm) else s.pcm)
    case TickFor(n) => Tick(s, n)
    case TickFastFor(n) => TickFast(s, n)
    case SetCgb(on) => s.(ctl := s.ctl.(cgb := on))
    case Resize(limit) => s.(pcm := Resized(s.pcm, limit))
    case Drain(limit) => s.(pcm := s.pcm.(queue := s.pcm.queue[2 * DrainCount(s.pcm, limit)..]))
    case Boot(cgbMachine) => State(PostBoot(s.ctl, cgbMachine), ClearedPcm(s.pcm))
  }

  /** The state after a run of calls on a fresh unit. */
  function After(calls: seq<Call>): State {
    if calls == [] then Default()
    else Apply(After(calls[..|calls| - 1]), calls[|calls| - 1])
  }

  // ---- the reachable-state invariant ----

  lemma ApplyKeepsInv(s: State, call: Call)
    requires Inv(s)
    ensures Inv(Apply(s, call))
  {
    hide Run, MixLeft, MixRight, MixMask, WriteControl;
    match call
    case Write(addr, value) =>
      WriteKeepsInv(s.ctl, addr, value);
      WriteKeepsSampleClock(s.ctl, addr, value);
      hide ControlInv;
    case TickFor(n) =>
      RunKeepsInv(s, n, true);
    case TickFastFor(n) =>
      RunKeepsInv(s, n, false);
    case SetCgb(_) =>
    case Resize(_) =>
    case Drain(_) =>
    case Boot(cgbMachine) =>
      PostBootInv(s.ctl, cgbMachine);
  }

  lemma WriteKeepsSampleClock(c: Control, addr: u16, value: u8)
    ensures PowersOff(c, addr, value) ==> WriteControl(c, addr, value).sampleCycles == 0
    ensures !PowersOff(c, addr, value) ==> WriteControl(c, addr, value).sampleCycles == c.sampleCycles
  {
    hide WriteRegister;
    if 0xFF10 <= addr <= 0xFF25 {
      RegisterKeepsClock(c, addr, value);
    }
  }

  /** After any run of calls: masks agree with channels, every field is in range, the three counters are one
      clock, the accumulators cover exactly the cycles of the open sample, and the queue fits its capacity. */
  lemma {:induction false} ReachableInv(calls: seq<Call>)
    ensures Inv(After(calls))
  {
    hide Apply;
    if calls != [] {
      ReachableInv(calls[..|calls| - 1]);
      ApplyKeepsInv(After(calls[..|calls| - 1]), calls[|calls| - 1]);
    }
  }

  /** Channels 2 to 4 keep a length under every call, channel 1 under every call but a DMG boot. */
  lemma ApplyKeepsLive(s: State, call: Call, i: nat)
    requires Inv(s) && i < 4 && ChannelLive(s.ctl, i) && (i == 0 ==> call != Boot(false))
    ensures ChannelLive(Apply(s, call).ctl, i)
  {
    hide Run, Cycles, MixLeft, MixRight, MixMask, WriteControl, ControlInv;
    match call
    case Write(addr, value) =>
      WriteKeepsLive(s.ctl, addr, value, i);
    case TickFor(n) =>
      RunIsCycles(s, n, true);
      CyclesKeepLiveAndSafe(s.ctl, n, i);
    case TickFastFor(n) =>
      RunIsCycles(s, n, false);
      CyclesKeepLiveAndSafe(s.ctl, n, i);
    case SetCgb(_) =>
    case Resize(_) =>
    case Drain(_) =>
    case Boot(_) =>
  }

  /** Exactly one call takes a live unit out of life: the DMG boot. */
  lemma ApplyLiveExactly(s: State, call: Call)
    requires Inv(s) && LengthLive(s.ctl)
    ensures LengthLive(Apply(s, call).ctl) <==> call != Boot(false)
  {
    hide Apply, ChannelLive;
    if call == Boot(false) {
      BootIsEndless(s);
    } else {
      forall i: nat | i < 4 {
        ApplyKeepsLive(s, call, i);
      }
    }
  }

  /** Calls after which a playing channel 1 with an empty counter is no more: the writes of WriteRefreshes, and a CGB
      boot. Time is not among them. */
  predicate Refreshes(s: State, call: Call) {
    match call
    case Write(addr, value) => WriteRefreshes(s.ctl, addr, value)
    case Boot(cgbMachine) => cgbMachine
    case _ => false
  }

  /** Channel 1 as a DMG boot leaves it: playing on an empty counter, with no pitch to sweep. */
  predicate Endless(c: Control) { !ChannelLive(c, 0) && c.channels[0].shadow == 0 }

  /** However much time passes, it stays so. */
  lemma CyclesStayEndless(c: Control, n: nat)
    requires ControlInv(c) && Endless(c)
    ensures Endless(Cycles(c, n))
  {
    SweepFate(c, n);
    CyclesSettings(c, n);
    CyclesKeepLiveAndSafe(c, n, 0);
    assert Shr(0, 0) == 0;
    NothingShifted(c.channels[0].sweepShift);
    hide Cycles, ControlInv, SweepSafe, Shr, LengthEnabled;
  }

  /** Exactly which calls end it. */
  lemma ApplyRevives(s: State, call: Call)
    requires Inv(s) && Endless(s.ctl)
    ensures ChannelLive(Apply(s, call).ctl, 0) <==> Refreshes(s, call)
    ensures Refreshes(s, call) || Endless(Apply(s, call).ctl)
  {
    hide Run, Cycles, MixLeft, MixRight, MixMask, WriteControl, ControlInv, WriteRefreshes;
    match call
    case Write(addr, value) =>
      WriteRevives(s.ctl, addr, value);
      if !WriteRefreshes(s.ctl, addr, value) {
        TriggerRefreshes(s.ctl, addr, value);
        WriteKeepsZero(s.ctl, addr, value);
      }
    case TickFor(n) =>
      RunIsCycles(s, n, true);
      CyclesStayEndless(s.ctl, n);
    case TickFastFor(n) =>
      RunIsCycles(s, n, false);
      CyclesStayEndless(s.ctl, n);
    case SetCgb(_) =>
    case Resize(_) =>
    case Drain(_) =>
    case Boot(_) =>
  }

  lemma TriggerRefreshes(c: Control, addr: u16, value: u8)
    ensures addr == 0xFF14 && value >= 0x80 && c.master ==> WriteRefreshes(c, addr, value)
  {
  }

  lemma BootIsEndless(s: State)
    ensures Endless(Apply(s, Boot(false)).ctl)
  {
  }

  /** Whether the last DMG boot in a run has not been followed by a refreshing call. */
  predicate Stale(calls: seq<Call>) {
    calls != [] &&
    var before, call := calls[..|calls| - 1], calls[|calls| - 1];
    call == Boot(false) || (Stale(before) && !Refreshes(After(before), call))
  }

  /** After every run: channels 2 to 4 have a length to count whenever they play, and channel 1 has one exactly when
      no DMG boot is left unrefreshed. If one is, channel 1 has no pitch to sweep either. */
  lemma {:induction false} ReachableLive(calls: seq<Call>)
    ensures forall i :: 1 <= i < 4 ==> ChannelLive(After(calls).ctl, i)
    ensures ChannelLive(After(calls).ctl, 0) <==> !Stale(calls)
    ensures LengthLive(After(calls).ctl) <==> !Stale(calls)
    ensures Stale(calls) ==> Endless(After(calls).ctl)
  {
    hide Apply, ChannelLive, Refreshes, Inv;
    if calls == [] {
      DefaultIsLive();
    } else {
      var before, call := calls[..|calls| - 1], calls[|calls| - 1];
      ReachableLive(before);
      ReachableInv(before);
      forall i | 1 <= i < 4 {
        ApplyKeepsLive(After(before), call, i);
      }
      if call == Boot(false) {
        BootIsEndless(After(before));
      } else if Stale(before) {
        ApplyRevives(After(before), call);
      } else {
        ApplyKeepsLive(After(before), call, 0);
      }
    }
  }

  /** In every reachable state whose channel 1 plays on an empty counter: no amount of ticking, traced or fast, ends
      that, and of the other calls exactly the refreshing ones do. */
  lemma OnlyCallsRevive(calls: seq<Call>, call: Call, n: nat)
    requires Stale(calls)
    ensures After(calls).ctl.channels[0].enabled && After(calls).ctl.channels[0].length == 0
    ensures var c := Cycles(After(calls).ctl, n); c.channels[0].enabled && c.channels[0].length == 0
    ensures Stale(calls + [TickFor(n)]) && Stale(calls + [TickFastFor(n)])
    ensures ChannelLive(After(calls + [call]).ctl, 0) <==> Refreshes(After(calls), call)
  {
    hide After, Refreshes, Cycles, ControlInv;
    ReachableLive(calls);
    ReachableInv(calls);
    CyclesStayEndless(After(calls).ctl, n);
    assert (calls + [TickFor(n)])[..|calls|] == calls && (calls + [TickFastFor(n)])[..|calls|] == calls;
    NoTickRefreshes(After(calls), n);
    AfterMore(calls, call);
    ApplyRevives(After(calls), call);
    hide Apply;
  }

  lemma NoTickRefreshes(s: State, n: nat)
    ensures !Refreshes(s, TickFor(n)) && !Refreshes(s, TickFastFor(n))
  {
  }

  lemma AfterMore(calls: seq<Call>, call: Call)
    ensures After(calls + [call]) == Apply(After(calls), call)
  {
    assert (calls + [call])[..|calls|] == calls;
  }

  lemma DefaultIsLive()
    ensures forall i :: 0 <= i < 4 ==> ChannelLive(Default().ctl, i)
  {
  }

  /** The exception: a DMG boot leaves channel 1 playing on an empty counter. */
  lemma DmgBootIsNotLive()
    ensures After([Boot(false)]).ctl.channels[0].enabled && !LengthLive(After([Boot(false)]).ctl)
  {
    assert After([Boot(false)]) == Apply(Default(), Boot(false));
    assert After([Boot(false)]).ctl.channels[0].length == 0;
    assert !ChannelLive(After([Boot(false)]).ctl, 0);
  }

  lemma ApplyKeepsSafe(s: State, call: Call)
    requires Inv(s) && SweepSafe(s.ctl.channels[0])
    requires !(call.Write? && call.addr == 0xFF10)
    ensures SweepSafe(Apply(s, call).ctl.channels[0])
  {
    hide Run, Cycles, MixLeft, MixRight, MixMask, WriteControl, ControlInv;
    match call
    case Write(addr, value) =>
      WriteKeepsSafe(s.ctl, addr, value);
    case TickFor(n) =>
      RunIsCycles(s, n, true);
      CyclesKeepLiveAndSafe(s.ctl, n, 0);
    case TickFastFor(n) =>
      RunIsCycles(s, n, false);
      CyclesKeepLiveAndSafe(s.ctl, n, 0);
    case SetCgb(_) =>
    case Resize(_) =>
    case Drain(_) =>
    case Boot(_) =>
  }

  /** From any point where the sweep is safe, a stretch of calls without a sweep register write keeps it safe. */
  lemma {:induction false} SafeBetweenSweepWrites(before: seq<Call>, calls: seq<Call>)
    requires SweepSafe(After(before).ctl.channels[0])
    requires forall v: u8 :: Write(0xFF10, v) !in calls
    ensures SweepSafe(After(before + calls).ctl.channels[0])
    decreases |calls|
  {
    hide Apply, SweepSafe, Inv;
    if calls == [] {
      assert before + calls == before;
    } else {
      var most, last := calls[..|calls| - 1], calls[|calls| - 1];
      assert forall c :: c in most ==> c in calls;
      SafeBetweenSweepWrites(before, most);
      assert (before + calls)[..|before + calls| - 1] == before + most;
      ReachableInv(before + most);
      assert last in calls;
      ApplyKeepsSafe(After(before + most), last);
    }
  }

  /** So between sweep register writes the first overflow test fires in unshifted sweeps only: wherever the sweep is
      safe, then through any calls that write no NR10 and in any cycle of a tick after them, the test of the sweep that
      the next sequencer event applies fires exactly when at the start of the tick the sweep is additive, without a
      shift, and its shadow is 1024 or more. */
  lemma FirstOverflowExactly(before: seq<Call>, calls: seq<Call>, n: nat)
    requires SweepSafe(After(before).ctl.channels[0])
    requires forall v: u8 :: Write(0xFF10, v) !in calls
    ensures var c := After(before + calls).ctl;
            var d := Elapse(Cycles(c, n), 1);
            FirstTestFires(d) <==> SweepFalls(d) && Doubling(c.channels[0])
  {
    hide After, SweepSafe, FirstTestFires, SweepFalls, Doubling, Elapse, Cycles, ControlInv;
    SafeBetweenSweepWrites(before, calls);
    ReachableInv(before + calls);
    FirstTestInEveryCycle(After(before + calls).ctl, n);
  }

  /** Exactly when a sweep register write leaves the sweep safe: it makes no overflow test of its own. */
  lemma SweepWriteSafety(s: State, value: u8)
    requires s.ctl.master
    ensures var ch := s.ctl.channels[0];
            SweepSafe(Apply(s, Write(0xFF10, value)).ctl.channels[0])
            <==> || !ch.enabled
                 || (ch.sweepNegate && ch.negateUsed)
                 || TestBit(value, 8)
                 || value % 8 == 0
                 || ch.shadow + Shr(ch.shadow, value % 8) <= 2047
  {
    SweepWriteOutcome(s.ctl, value);
    hide Shr, TestBit, MixLeft, MixRight, MixMask, WriteControl, Run, SweepSafe;
  }

  /** Calls that make a sweep unsafe: an NR10 write that does not fit. */
  predicate Breaks(s: State, call: Call) {
    call.Write? && call.addr == 0xFF10 && s.ctl.master && !SweepWriteOk(s.ctl.channels[0], call.value)
  }

  /** Calls that make an unsafe sweep safe: the writes of WriteMends, a tick in which the sweep or the length ends the
      channel, and either boot. */
  predicate Mends(s: State, call: Call) {
    match call
    case Write(addr, value) => WriteMends(s.ctl, addr, value)
    case TickFor(n) => s.ctl.master && (LengthStops(s.ctl, n) || SweepStops(s.ctl, n))
    case TickFastFor(n) => s.ctl.master && (LengthStops(s.ctl, n) || SweepStops(s.ctl, n))
    case Boot(_) => true
    case _ => false
  }

  lemma ApplyBreaks(s: State, call: Call)
    requires Inv(s) && SweepSafe(s.ctl.channels[0])
    ensures SweepSafe(Apply(s, call).ctl.channels[0]) <==> !Breaks(s, call)
  {
    hide Apply, SweepSafe, Inv, SweepWriteOk;
    if call.Write? && call.addr == 0xFF10 {
      SweepRegisterBreaks(s, call.value);
    } else {
      ApplyKeepsSafe(s, call);
    }
  }

  lemma SweepRegisterBreaks(s: State, value: u8)
    requires SweepSafe(s.ctl.channels[0])
    ensures SweepSafe(Apply(s, Write(0xFF10, value)).ctl.channels[0]) <==> !Breaks(s, Write(0xFF10, value))
  {
    hide Run, MixLeft, MixRight, MixMask, SweepSafe, SweepWriteOk, WriteRegister;
    if s.ctl.master {
      SweepWriteOutcome(s.ctl, value);
    } else {
      UnpoweredKeepsSweep(s.ctl, 0xFF10, value);
    }
  }

  lemma ApplyMends(s: State, call: Call)
    requires Inv(s) && !SweepSafe(s.ctl.channels[0])
    ensures SweepSafe(Apply(s, call).ctl.channels[0]) <==> Mends(s, call)
  {
    hide Run, Cycles, MixLeft, MixRight, MixMask, WriteControl, ControlInv, WriteMends, LengthStops, SweepStops, Shr;
    match call
    case Write(addr, value) =>
      WriteMendsExactly(s.ctl, addr, value);
    case TickFor(n) =>
      RunIsCycles(s, n, true);
      CyclesMend(s.ctl, n);
    case TickFastFor(n) =>
      RunIsCycles(s, n, false);
      CyclesMend(s.ctl, n);
    case SetCgb(_) =>
    case Resize(_) =>
    case Drain(_) =>
    case Boot(_) =>
  }

  /** Whether the last breaking call in a run has not been mended. */
  predicate Broken(calls: seq<Call>) {
    calls != [] &&
    var before, call := calls[..|calls| - 1], calls[|calls| - 1];
    if Broken(before) then !Mends(After(before), call) else Breaks(After(before), call)
  }

  /** After every run: the sweep is safe exactly when no breaking NR10 write is left unmended. */
  lemma {:induction false} ReachableSafe(calls: seq<Call>)
    ensures SweepSafe(After(calls).ctl.channels[0]) <==> !Broken(calls)
  {
    hide Apply, Mends, Breaks, Inv;
    if calls != [] {
      hide SweepSafe;
      var before, call := calls[..|calls| - 1], calls[|calls| - 1];
      ReachableSafe(before);
      ReachableInv(before);
      if Broken(before) {
        ApplyMends(After(before), call);
      } else {
        ApplyBreaks(After(before), call);
      }
    }
  }

  /** So the sweep register can break it: it changes the shift of a playing channel without a test. */
  lemma SweepWriteCanBreak(s: State)
    requires s.ctl.master && s.ctl.channels[0].enabled && !s.ctl.channels[0].sweepNegate
             && s.ctl.channels[0].shadow >= 1366
    ensures !SweepSafe(Apply(s, Write(0xFF10, 0x11)).ctl.channels[0])
  {
    var f := s.ctl.channels[0].shadow;
    assert Shr(f, 1) == f / 2;
  }

  // ---- where every generated frame went ----

  /** Bookkeeping no caller sees: every sample ever generated, where in it the last clear fell, the drained samples
      with their places in it, and frame totals by fate. */
  datatype Ledger = Ledger(
    history: seq<int>, base: nat, output: seq<int>, places: seq<nat>,
    drained: nat, dropped: nat, discarded: nat, cleared: nat)

  const EMPTY := Ledger([], 0, [], [], 0, 0, 0, 0)

  /** n consecutive places from `first` on. */
  function Places(first: nat, n: nat): (r: seq<nat>)
    ensures |r| == n && forall k :: 0 <= k < n ==> r[k] == first + k
  {
    seq(n, k => first + k)
  }

  function Extended(l: Ledger, p: Pcm, added: seq<int>): Ledger {
    l.(history := l.history + added, dropped := l.dropped + Max(0, Frames(p) + |added| / 2 - p.capacity))
  }

  function Ticked(l: Ledger, s: State, n: nat, traced: bool): Ledger {
    if !s.ctl.master then l else Extended(l, s.pcm, Generated(s, n, traced))
  }

  function Cleared(l: Ledger, s: State): Ledger {
    l.(base := |l.history|, cleared := l.cleared + Frames(s.pcm))
  }

  /** Frames leave at the head of the queue. */
  function Drained(l: Ledger, p: Pcm, frames: nat): Ledger
    requires 2 * frames <= |p.queue|
  {
    var head := Max(|l.history| - |p.queue|, 0);
    l.(output := l.output + p.queue[..2 * frames], places := l.places + Places(head, 2 * frames),
       drained := l.drained + frames)
  }

  function Record(l: Ledger, s: State, call: Call): Ledger {
    match call
    case Write(addr, value) => if PowersOff(s.ctl, addr, value) then Cleared(l, s) else l
    case TickFor(n) => Ticked(l, s, n, true)
    case TickFastFor(n) => Ticked(l, s, n, false)
    case SetCgb(_) => l
    case Resize(limit) => if limit == 0 then l else l.(discarded := l.discarded + Max(0, Frames(s.pcm) - limit))
    case Drain(limit) => Drained(l, s.pcm, DrainCount(s.pcm, limit))
    case Boot(_) => Cleared(l, s)
  }

  function Account(calls: seq<Call>): Ledger {
    if calls == [] then EMPTY
    else
      var before := calls[..|calls| - 1];
      Record(Account(before), After(before), calls[|calls| - 1])
  }

  /** The queue is the newest part of the history, in order and since the last clear, and no frame is lost track of. */
  ghost predicate Balanced(l: Ledger, p: Pcm) {
    && l.base + |p.queue| <= |l.history| && |l.history| % 2 == 0
    && p.queue == l.history[|l.history| - |p.queue|..]
    && |l.history| / 2 == l.drained + l.dropped + l.discarded + l.cleared + Frames(p)
    && p.generated == Min(|l.history| / 2, U64_MAX)
    && p.dropped == Min(l.dropped, U64_MAX)
  }

  /** First in, first out: the drained samples are samples of the history, in its order and each once, and all of them
      older than what is still queued. */
  ghost predicate InOrder(l: Ledger, p: Pcm) {
    && |l.output| == |l.places| == 2 * l.drained
    && |p.queue| <= |l.history|
    && (forall k :: 0 <= k < |l.places| ==>
          l.places[k] < |l.history| - |p.queue| && l.output[k] == l.history[l.places[k]])
    && (forall j, k :: 0 <= j < k < |l.places| ==> l.places[j] < l.places[k])
  }

  lemma NewestBalances(l: Ledger, p: Pcm, q: Pcm, added: seq<int>)
    requires Balanced(l, p) && PcmInv(p) && |added| % 2 == 0 && Queued(p, q, added)
    ensures Balanced(Extended(l, p, added), q)
  {
    NewestSuffix(l.history, p.queue, added, 2 * p.capacity);
    QueuedFrames(p, q, added);
    HalvesAdd(|l.history|, |added|);
    hide Newest, InRange16;
  }

  lemma NewestKeepsOrder(l: Ledger, p: Pcm, q: Pcm, added: seq<int>)
    requires InOrder(l, p) && |q.queue| <= |p.queue| + |added|
    ensures InOrder(Extended(l, p, added), q)
  {
  }

  lemma QueuedLength(p: Pcm, q: Pcm, added: seq<int>)
    requires Queued(p, q, added)
    ensures |q.queue| <= |p.queue| + |added|
  {
  }

  /** The newest part of a suffix with more behind it is a suffix of all, and no longer. */
  lemma NewestSuffix(history: seq<int>, queue: seq<int>, added: seq<int>, m: nat)
    requires |queue| <= |history| && queue == history[|history| - |queue|..]
    ensures var all, r := history + added, Newest(queue + added, m);
            |r| <= |queue| + |added| && r == all[|all| - |r|..]
  {
  }

  lemma TickBalances(l: Ledger, s: State, n: nat, traced: bool)
    requires Inv(s) && Balanced(l, s.pcm) && InOrder(l, s.pcm) && s.ctl.master
    ensures var q := Reported(Run(s, n, traced)).pcm;
            Balanced(Ticked(l, s, n, traced), q) && InOrder(Ticked(l, s, n, traced), q)
  {
    hide Run, Generated, Report, ControlInv, Queued, PcmInv, Balanced, InOrder, Extended, FramesIn;
    RunQueues(s, n, traced);
    NewestBalances(l, s.pcm, Run(s, n, traced).pcm, Generated(s, n, traced));
    QueuedLength(s.pcm, Run(s, n, traced).pcm, Generated(s, n, traced));
    NewestKeepsOrder(l, s.pcm, Run(s, n, traced).pcm, Generated(s, n, traced));
    ReportBalances(Ticked(l, s, n, traced), Run(s, n, traced).pcm, Run(s, n, traced).ctl);
  }

  lemma ReportBalances(l: Ledger, p: Pcm, c: Control)
    requires Balanced(l, p) && InOrder(l, p)
    ensures Balanced(l, Report(p, c)) && InOrder(l, Report(p, c))
  {
    hide MixLeft, MixRight, MixMask;
  }

  lemma DrainBalances(l: Ledger, p: Pcm, frames: nat)
    requires Balanced(l, p) && InOrder(l, p) && 2 * frames <= |p.queue|
    ensures var q := p.(queue := p.queue[2 * frames..]);
            Balanced(Drained(l, p, frames), q) && InOrder(Drained(l, p, frames), q)
  {
    var head := |l.history| - |p.queue|;
    var m := Drained(l, p, frames);
    assert p.queue[2 * frames..] == l.history[head + 2 * frames..];
    forall k | 0 <= k < |m.places|
      ensures m.places[k] < head + 2 * frames && m.output[k] == l.history[m.places[k]]
    {
      if k >= |l.places| {
        assert m.output[k] == p.queue[k - |l.places|];
      }
    }
  }

  lemma ResizeBalances(l: Ledger, p: Pcm, limit: FrameLimit)
    requires Balanced(l, p) && InOrder(l, p) && limit != 0
    ensures var m := l.(discarded := l.discarded + Max(0, Frames(p) - limit));
            Balanced(m, Resized(p, limit)) && InOrder(m, Resized(p, limit))
  {
    NewestSuffix(l.history, p.queue, [], 2 * limit);
    assert p.queue + [] == p.queue && l.history + [] == l.history;
  }

  lemma ClearBalances(l: Ledger, s: State)
    requires Balanced(l, s.pcm) && InOrder(l, s.pcm)
    ensures Balanced(Cleared(l, s), ClearedPcm(s.pcm)) && InOrder(Cleared(l, s), ClearedPcm(s.pcm))
  {
  }

  lemma RecordBalances(l: Ledger, s: State, call: Call)
    requires Inv(s) && Balanced(l, s.pcm) && InOrder(l, s.pcm)
    ensures Balanced(Record(l, s, call), Apply(s, call).pcm) && InOrder(Record(l, s, call), Apply(s, call).pcm)
  {
    hide Run, Generated, MixLeft, MixRight, MixMask, Inv, WriteControl, PostBoot, Ticked, Drained;
    hide Balanced, InOrder, ClearedPcm, Resized, Cleared;
    match call
    case TickFor(n) =>
      if s.ctl.master { TickBalances(l, s, n, true); } else { TickPoweredOff(l, s, n, true); }
    case TickFastFor(n) =>
      if s.ctl.master { TickBalances(l, s, n, false); } else { TickPoweredOff(l, s, n, false); }
    case Drain(limit) =>
      DrainBalances(l, s.pcm, DrainCount(s.pcm, limit));
    case Resize(limit) =>
      if limit == 0 { ResizeRefused(s.pcm); } else { ResizeBalances(l, s.pcm, limit); }
    case _ =>
      ClearBalances(l, s);
  }

  lemma ResizeRefused(p: Pcm)
    ensures Resized(p, 0) == p
  {
  }

  lemma TickPoweredOff(l: Ledger, s: State, n: nat, traced: bool)
    requires !s.ctl.master
    ensures Ticked(l, s, n, traced) == l
  {
  }

  /** Over every run of ticks, drains, resizes, power cycles and boots the queue is a contiguous suffix of the
      frames generated since the last clear, every generated frame is drained, dropped, discarded by a resize,
      cleared or still queued, and what was drained came out in the order it was generated. */
  lemma {:induction false} FramesAreConserved(calls: seq<Call>)
    ensures Balanced(Account(calls), After(calls).pcm) && InOrder(Account(calls), After(calls).pcm)
    ensures |After(calls).pcm.queue| % 2 == 0 && |After(calls).pcm.queue| <= 2 * After(calls).pcm.capacity
  {
    hide Apply, Record, Balanced, InOrder, ControlInv;
    ReachableInv(calls);
    if calls == [] {
      EmptyBalances(Default().pcm);
    } else {
      var before := calls[..|calls| - 1];
      FramesAreConserved(before);
      ReachableInv(before);
      RecordBalances(Account(before), After(before), calls[|calls| - 1]);
    }
  }

  lemma EmptyBalances(p: Pcm)
    requires p.queue == [] && p.generated == p.dropped == 0
    ensures Balanced(EMPTY, p) && InOrder(EMPTY, p)
  {
  }
}
