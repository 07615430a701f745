/** Ticking the whole machine: chunks, their refinement to cycles, and how a tick may be split. */
module ApuRun {
  import opened Numbers
  import opened ApuState
  import opened ApuSequencer
  import opened ApuPcm

  // ---- one chunk, one run, one tick ----

  /** The PCM side of a chunk; c is the control state before its deadlines are served. */
  function Sampled(p: Pcm, c: Control, n: nat): Pcm {
    var mixed := Accumulate(p, MixLeft(c), MixRight(c), n);
    if c.sampleCycles >= SAMPLE_CYCLES then Enqueue(mixed, c) else mixed
  }

  /** One timed chunk. `traced` tells whether mix deadlines report the mix on the way. */
  function Chunk(s: State, n: nat, traced: bool): State {
    var c := Elapse(s.ctl, n);
    var served := Serve(c);
    var p := Sampled(s.pcm, c, n);
    State(served, if traced && c.mixCycles >= MIX_CYCLES then Report(p, served) else p)
  }

  function Run(s: State, n: nat, traced: bool): State
    decreases n
  {
    if n == 0 then s else
    var k := NextChunk(s.ctl, n);
    Run(Chunk(s, k, traced), n - k, traced)
  }

  function Reported(s: State): State { s.(pcm := Report(s.pcm, s.ctl)) }

  function Tick(s: State, n: nat): State {
    if !s.ctl.master then s else Reported(Run(s, n, true))
  }

  function TickFast(s: State, n: nat): State {
    if !s.ctl.master then s else Reported(Run(s, n, false))
  }

  // ---- the invariant over a run ----

  lemma ChunkKeepsStateInv(s: State, n: nat, traced: bool)
    requires Inv(s) && 1 <= n <= Distance(s.ctl)
    ensures Inv(Chunk(s, n, traced))
  {
    var c := Elapse(s.ctl, n);
    var p := Accumulate(s.pcm, MixLeft(c), MixRight(c), n);
    ElapseKeepsInv(s.ctl, n);
    ChunkKeepsInv(s.ctl, n);
    assert c.sampleCycles == s.ctl.sampleCycles + n;
    ServedSampleCycles(c);
    hide Elapse, Serve, MixLeft, MixRight, MixMask, Enqueue, Accumulate, ControlInv, ChannelsInv, PcmInv;
    AccumulateKeepsInv(s.pcm, c, n);
    EnqueueKeepsInv(p, c);
    ReportKeepsPcm(p, Serve(c));
    ReportKeepsPcm(Enqueue(p, c), Serve(c));
  }

  lemma AccumulateKeepsInv(p: Pcm, c: Control, n: nat)
    requires PcmInv(p) && ChannelsInv(c) && p.accCycles + n <= SAMPLE_CYCLES
    ensures var q := Accumulate(p, MixLeft(c), MixRight(c), n);
            PcmInv(q) && q.accCycles == p.accCycles + n
  {
    MixBound(c);
    AccumulateBound(p.accLeft, p.accCycles, MixLeft(c), n);
    AccumulateBound(p.accRight, p.accCycles, MixRight(c), n);
    hide MixLeft, MixRight, ChannelsInv;
  }

  lemma ReportKeepsPcm(p: Pcm, c: Control)
    ensures PcmInv(Report(p, c)) == PcmInv(p) && Report(p, c).accCycles == p.accCycles
  {
    hide MixLeft, MixRight, MixMask, InRange16;
  }

  lemma InvParts(s: State)
    requires Inv(s)
    ensures ChannelsInv(s.ctl) && TimersInv(s.ctl) && s.pcm.dropped <= U64_MAX
  {
  }

  /** The PCM side of the deadlines of a chunk; c is the control state before they are served. */
  function Served(p: Pcm, c: Control, traced: bool): Pcm {
    var q := if c.sampleCycles >= SAMPLE_CYCLES then Enqueue(p, c) else p;
    if traced && c.mixCycles >= MIX_CYCLES then Report(q, Serve(c)) else q
  }

  lemma ChunkIs(s: State, n: nat, traced: bool)
    ensures var c := Elapse(s.ctl, n);
            Chunk(s, n, traced) == State(Serve(c), Served(Accumulate(s.pcm, MixLeft(c), MixRight(c), n), c, traced))
  {
    hide Elapse, Serve, Accumulate, Enqueue, Report, MixLeft, MixRight;
  }

  /** One deadline after another, put together. */
  lemma DeadlinesServed(traced: bool, c0: Control, c1: Control, c2: Control, c3: Control, p0: Pcm, p1: Pcm, p2: Pcm)
    requires c1 == c0.(sampleCycles := c1.sampleCycles)
    requires c1.sampleCycles == c0.sampleCycles - if c0.sampleCycles >= SAMPLE_CYCLES then SAMPLE_CYCLES else 0
    requires p1 == if c0.sampleCycles >= SAMPLE_CYCLES then Enqueue(p0, c0) else p0
    requires c2 == if c1.seqCycles >= SEQUENCER_CYCLES
                   then SequencerEvent(c1.(seqCycles := c1.seqCycles - SEQUENCER_CYCLES)) else c1
    requires c2.mixCycles == c0.mixCycles
    requires c3 == if c2.mixCycles >= MIX_CYCLES then c2.(mixCycles := c2.mixCycles % MIX_CYCLES) else c2
    requires p2 == if traced && c2.mixCycles >= MIX_CYCLES then Report(p1, c3) else p1
    ensures c3 == Serve(c0) && p2 == Served(p0, c0, traced)
  {
    hide Enqueue, SequencerEvent, Report;
  }

  lemma ServedSampleCycles(c: Control)
    requires ChannelsInv(c)
    ensures Serve(c).sampleCycles ==
              if c.sampleCycles >= SAMPLE_CYCLES then c.sampleCycles - SAMPLE_CYCLES else c.sampleCycles
  {
    hide SequencerEvent, Agree;
    var c1 := if c.sampleCycles >= SAMPLE_CYCLES then c.(sampleCycles := c.sampleCycles - SAMPLE_CYCLES) else c;
    if c1.seqCycles >= SEQUENCER_CYCLES {
      var c2 := c1.(seqCycles := c1.seqCycles - SEQUENCER_CYCLES);
      EventKeepsInv(c2);
    }
  }

  lemma ReportKeepsInv(s: State)
    requires Inv(s)
    ensures Inv(Reported(s))
  {
    hide MixLeft, MixRight, MixMask, ControlInv;
  }

  lemma {:induction false} RunKeepsInv(s: State, n: nat, traced: bool)
    requires Inv(s)
    ensures Inv(Run(s, n, traced))
    decreases n
  {
    hide Chunk, Distance;
    if n > 0 {
      var k := NextChunk(s.ctl, n);
      ChunkKeepsStateInv(s, k, traced);
      RunKeepsInv(Chunk(s, k, traced), n - k, traced);
    }
  }

  // ---- the control side of a run is a count of cycles ----

  /** However time is cut into chunks, n cycles of ticking are n cycles of the reference machine. */
  lemma {:induction false} RunIsCycles(s: State, n: nat, traced: bool)
    requires ControlInv(s.ctl)
    ensures Run(s, n, traced).ctl == Cycles(s.ctl, n)
    decreases n
  {
    hide ChannelsInv, ChunkControl, Chunk, Cycle;
    if n > 0 {
      var k := NextChunk(s.ctl, n);
      var t := Chunk(s, k, traced);
      ChunkCtl(s, k, traced);
      ChunkIsCycles(s.ctl, k);
      ChunkKeepsInv(s.ctl, k);
      RunIsCycles(t, n - k, traced);
      CyclesAdd(s.ctl, k, n - k);
    }
  }

  lemma ChunkCtl(s: State, n: nat, traced: bool)
    ensures Chunk(s, n, traced).ctl == ChunkControl(s.ctl, n)
  {
  }

  lemma RunKeepsSettings(s: State, n: nat, traced: bool)
    requires ControlInv(s.ctl)
    ensures SameSettings(s.ctl, Run(s, n, traced).ctl)
    ensures Run(s, n, traced).ctl.sampleCycles == (s.ctl.sampleCycles + n) % SAMPLE_CYCLES
  {
    hide Run, Cycles, ChannelsInv;
    RunIsCycles(s, n, traced);
    CyclesKeepInv(s.ctl, n);
    SampleClock(s.ctl.seqCycles, n);
  }

  /** The sample counter after n more cycles, read off the sequencer clock. */
  lemma SampleClock(x: nat, n: nat)
    ensures (x + n) % SEQUENCER_CYCLES % SAMPLE_CYCLES == (x % SAMPLE_CYCLES + n) % SAMPLE_CYCLES
  {
    NestedMod(x + n);
    DivSplit(x, n, SAMPLE_CYCLES);
  }

  lemma NestedMod(y: nat)
    ensures y % SEQUENCER_CYCLES % SAMPLE_CYCLES == y % SAMPLE_CYCLES
  {
  }

  // ---- the untraced driver refines the traced one ----

  /** Two states that differ at most in the mix last reported. */
  ghost predicate SameButReport(s: State, t: State) {
    s.ctl == t.ctl && SamePcmButReport(s.pcm, t.pcm)
  }

  ghost predicate SamePcmButReport(p: Pcm, q: Pcm) {
    p == q.(lastLeft := p.lastLeft, lastRight := p.lastRight, lastMask := p.lastMask)
  }

  lemma SampledSameButReport(p: Pcm, q: Pcm, c: Control, n: nat)
    requires SamePcmButReport(p, q)
    ensures SamePcmButReport(Sampled(p, c, n), Sampled(q, c, n))
  {
    hide MixLeft, MixRight, RawSample, HighPassNext, LowPassNext, FrameOf, AnyDac, Charge, Alpha;
    var p', q' := Accumulate(p, MixLeft(c), MixRight(c), n), Accumulate(q, MixLeft(c), MixRight(c), n);
    assert SamePcmButReport(Filter(p', c), Filter(q', c));
    FrameIgnoresReport(Filter(p', c), Filter(q', c), c);
    hide Filter, Accumulate;
  }

  lemma ChunkSameButReport(s: State, t: State, n: nat, traced: bool, traced': bool)
    requires SameButReport(s, t)
    ensures SameButReport(Chunk(s, n, traced), Chunk(t, n, traced'))
  {
    hide Elapse, Serve, MixLeft, MixRight, MixMask, Sampled;
    SampledSameButReport(s.pcm, t.pcm, Elapse(s.ctl, n), n);
  }

  lemma FrameIgnoresReport(p: Pcm, q: Pcm, c: Control)
    requires p.lpfLeft == q.lpfLeft && p.lpfRight == q.lpfRight
    ensures FrameOf(p, c) == FrameOf(q, c)
  {
  }

  lemma {:induction false} RunSameButReport(s: State, t: State, n: nat, traced: bool, traced': bool)
    requires SameButReport(s, t)
    ensures SameButReport(Run(s, n, traced), Run(t, n, traced'))
    decreases n
  {
    hide Chunk;
    if n > 0 {
      var k := NextChunk(s.ctl, n);
      ChunkSameButReport(s, t, k, traced, traced');
      RunSameButReport(Chunk(s, k, traced), Chunk(t, k, traced'), n - k, traced, traced');
    }
  }

  /** Both drivers leave the same complete state, PCM queue, filters and reported mix included. */
  lemma FastRefinesTraced(s: State, n: nat)
    ensures TickFast(s, n) == Tick(s, n)
  {
    hide MixLeft, MixRight, MixMask, Run;
    RunSameButReport(s, s, n, true, false);
  }

  // ---- the queue during a run ----

  /** The newest m samples of q. */
  function Newest(q: seq<int>, m: nat): (r: seq<int>)
    ensures |r| == Min(|q|, m)
  {
    if |q| <= m then q else q[|q| - m..]
  }

  lemma NewestAppend(q: seq<int>, f: seq<int>, m: nat)
    ensures Newest(Newest(q, m) + f, m) == Newest(q + f, m)
  {
  }

  /** The samples generated while n cycles pass, in order. */
  function Generated(s: State, n: nat, traced: bool): seq<int>
    decreases n
  {
    if n == 0 then [] else
    var k := NextChunk(s.ctl, n);
    ChunkFrame(s, k) + Generated(Chunk(s, k, traced), n - k, traced)
  }

  function SampledFrame(p: Pcm, c: Control, n: nat): seq<int> {
    if c.sampleCycles < SAMPLE_CYCLES then []
    else FrameOf(Filter(Accumulate(p, MixLeft(c), MixRight(c), n), c), c)
  }

  function ChunkFrame(s: State, n: nat): seq<int> { SampledFrame(s.pcm, Elapse(s.ctl, n), n) }

  /** How many frames n cycles complete. */
  function FramesIn(c: Control, n: nat): nat { (c.sampleCycles + n) / SAMPLE_CYCLES }

  /** p became q by generating the samples `added` and dropping only what no longer fits. */
  ghost predicate Queued(p: Pcm, q: Pcm, added: seq<int>) {
    && q.capacity == p.capacity
    && q.queue == Newest(p.queue + added, 2 * p.capacity)
    && q.generated == SatAddU64(p.generated, |added| / 2)
    && q.dropped == SatAddU64(p.dropped, Max(0, Frames(p) + |added| / 2 - p.capacity))
  }

  lemma PushQueues(p: Pcm, frame: seq<int>)
    requires PcmInv(p) && |frame| == 2
    ensures Queued(p, Push(p, frame), frame)
  {
  }

  lemma DropsAdd(dropped: nat, held: nat, j: nat, k: nat, capacity: nat)
    ensures SatAddU64(SatAddU64(dropped, Max(0, held + j - capacity)), Max(0, Min(held + j, capacity) + k - capacity))
         == SatAddU64(dropped, Max(0, held + j + k - capacity))
    ensures SatAddU64(SatAddU64(dropped, j), k) == SatAddU64(dropped, j + k)
  {
  }

  lemma QueuedTwice(p: Pcm, q: Pcm, r: Pcm, f: seq<int>, g: seq<int>)
    requires |p.queue| % 2 == 0 && |f| % 2 == 0 && |g| % 2 == 0
    requires Queued(p, q, f) && Queued(q, r, g)
    ensures Queued(p, r, f + g)
  {
    hide Newest, Frames, SatAddU64, Max, Min;
    QueuedFrames(p, q, f);
    NewestAppend(p.queue + f, g, 2 * p.capacity);
    assert p.queue + f + g == p.queue + (f + g);
    HalvesAdd(|f|, |g|);
    DropsAdd(p.dropped, Frames(p), |f| / 2, |g| / 2, p.capacity);
    DropsAdd(p.generated, 0, |f| / 2, |g| / 2, 0);
  }

  lemma HalvesAdd(a: nat, b: nat)
    requires a % 2 == 0 && b % 2 == 0
    ensures (a + b) / 2 == a / 2 + b / 2
  {
  }

  lemma SampledQueues(p: Pcm, c: Control, n: nat)
    requires PcmInv(p)
    ensures Queued(p, Sampled(p, c, n), SampledFrame(p, c, n))
  {
    hide MixLeft, MixRight, FrameOf, Filter;
    var mixed := Accumulate(p, MixLeft(c), MixRight(c), n);
    FilterKeepsQueue(mixed, c);
    PushQueues(p, FrameOf(Filter(mixed, c), c));
    RunQueuesNothing(p);
    hide PcmInv;
  }

  lemma QueuedFrames(p: Pcm, q: Pcm, f: seq<int>)
    requires |p.queue| % 2 == 0 && |f| % 2 == 0 && Queued(p, q, f)
    ensures Frames(q) == Min(Frames(p) + |f| / 2, p.capacity)
  {
  }

  lemma ChunkQueues(s: State, n: nat, traced: bool)
    requires Inv(s) && 1 <= n <= Distance(s.ctl)
    ensures Queued(s.pcm, Chunk(s, n, traced).pcm, ChunkFrame(s, n))
    ensures |ChunkFrame(s, n)| == 2 * FramesIn(s.ctl, n)
  {
    var c := Elapse(s.ctl, n);
    assert c.sampleCycles == s.ctl.sampleCycles + n && s.ctl.sampleCycles < SAMPLE_CYCLES;
    hide Elapse, Serve, MixLeft, MixRight, MixMask, Filter, Accumulate, ControlInv, PcmInv, Sampled, FrameOf;
    SampledQueues(s.pcm, c, n);
  }

  /** A run appends its frames to the queue and sheds the oldest, all counted. */
  lemma {:induction false} RunQueues(s: State, n: nat, traced: bool)
    requires Inv(s)
    ensures Queued(s.pcm, Run(s, n, traced).pcm, Generated(s, n, traced))
    ensures |Generated(s, n, traced)| == 2 * FramesIn(s.ctl, n)
    decreases n
  {
    hide Chunk, ChunkFrame, Queued, NextChunk, Run, Generated, Inv, TimersInv, ControlInv, PcmInv;
    RunQueuesFacts(s);
    if n == 0 {
      RunUnfoldsNothing(s, traced);
      RunQueuesNothing(s.pcm);
    } else {
      var k := NextChunk(s.ctl, n);
      var t := Chunk(s, k, traced);
      RunUnfolds(s, n, traced);
      ChunkKeepsStateInv(s, k, traced);
      ChunkQueues(s, k, traced);
      RunQueues(t, n - k, traced);
      ChunkSampleCycles(s, k, traced);
      FramesAdd(s.ctl.sampleCycles, k, n - k);
      QueuedTwice(s.pcm, t.pcm, Run(s, n, traced).pcm, ChunkFrame(s, k), Generated(t, n - k, traced));
    }
  }

  lemma RunQueuesFacts(s: State)
    requires Inv(s)
    ensures ControlInv(s.ctl) && TimersInv(s.ctl) && PcmInv(s.pcm)
    ensures |s.pcm.queue| % 2 == 0 && s.ctl.sampleCycles < SAMPLE_CYCLES
  {
  }

  lemma RunUnfoldsNothing(s: State, traced: bool)
    ensures Run(s, 0, traced) == s && Generated(s, 0, traced) == []
  {
  }

  lemma RunUnfolds(s: State, n: nat, traced: bool)
    requires n > 0
    ensures var k := NextChunk(s.ctl, n);
            && Run(s, n, traced) == Run(Chunk(s, k, traced), n - k, traced)
            && Generated(s, n, traced) == ChunkFrame(s, k) + Generated(Chunk(s, k, traced), n - k, traced)
  {
    hide Chunk, ChunkFrame, NextChunk;
  }

  lemma FramesAdd(x: nat, a: nat, b: nat)
    ensures (x + a + b) / SAMPLE_CYCLES == (x + a) / SAMPLE_CYCLES + ((x + a) % SAMPLE_CYCLES + b) / SAMPLE_CYCLES
  {
  }

  lemma ChunkSampleCycles(s: State, n: nat, traced: bool)
    requires ControlInv(s.ctl) && 1 <= n <= Distance(s.ctl)
    ensures Chunk(s, n, traced).ctl.sampleCycles == (s.ctl.sampleCycles + n) % SAMPLE_CYCLES
  {
    ChunkCtl(s, n, traced);
    ChunkKeepsInv(s.ctl, n);
    hide Chunk, ChunkControl, ChannelsInv;
    SampleClock(s.ctl.seqCycles, n);
  }

  lemma RunQueuesNothing(p: Pcm)
    requires PcmInv(p)
    ensures Queued(p, p, [])
  {
    assert p.queue + [] == p.queue;
  }

  // ---- splitting a tick ----

  /** Equal in everything but the samples: the control state, the queue length and the counters. */
  ghost predicate SameButSamples(s: State, t: State) {
    && s.ctl == t.ctl
    && |s.pcm.queue| == |t.pcm.queue|
    && s.pcm.capacity == t.pcm.capacity
    && s.pcm.generated == t.pcm.generated
    && s.pcm.dropped == t.pcm.dropped
  }

  /** Splitting a tick anywhere moves chunk boundaries but no control state, counter or queue length. */
  lemma TickSplit(s: State, a: nat, b: nat)
    requires Inv(s)
    ensures SameButSamples(Tick(Tick(s, a), b), Tick(s, a + b))
  {
    hide MixLeft, MixRight, MixMask, Run, Cycles, Inv, Max, SatAddU64, Frames;
    if s.ctl.master {
      var r := Tick(s, a);
      TickParts(s);
      RunKeepsInv(s, a, true);
      ReportKeepsInv(Run(s, a, true));
      TickParts(r);
      RunKeepsSettings(s, a, true);
      RunIsCycles(s, a, true);
      RunIsCycles(r, b, true);
      RunIsCycles(s, a + b, true);
      CyclesAdd(s.ctl, a, b);
      RunMeters(s, a);
      RunMeters(r, b);
      RunMeters(s, a + b);
      FramesAdd(s.ctl.sampleCycles, a, b);
      MetersAdd(s.pcm, r.pcm, FramesIn(s.ctl, a), FramesIn(r.ctl, b));
    }
  }

  /** Queue length and counters add up over two stretches of j and k frames. */
  lemma MetersAdd(p: Pcm, q: Pcm, j: nat, k: nat)
    requires |p.queue| % 2 == 0 && q.capacity == p.capacity && |q.queue| == Min(|p.queue| + 2 * j, 2 * p.capacity)
    ensures Min(|q.queue| + 2 * k, 2 * q.capacity) == Min(|p.queue| + 2 * (j + k), 2 * p.capacity)
    ensures SatAddU64(SatAddU64(p.dropped, Max(0, Frames(p) + j - p.capacity)), Max(0, Frames(q) + k - q.capacity))
         == SatAddU64(p.dropped, Max(0, Frames(p) + (j + k) - p.capacity))
    ensures SatAddU64(SatAddU64(p.generated, j), k) == SatAddU64(p.generated, j + k)
  {
    DropsAdd(p.dropped, Frames(p), j, k, p.capacity);
    DropsAdd(p.generated, 0, j, k, 0);
    assert Frames(q) == Min(Frames(p) + j, p.capacity);
    hide SatAddU64, Max;
  }

  /** Queue length and counters after a run, in closed form. */
  lemma RunMeters(s: State, n: nat)
    requires Inv(s)
    ensures var k, p, q := FramesIn(s.ctl, n), s.pcm, Run(s, n, true).pcm;
            && q.capacity == p.capacity
            && |q.queue| == Min(|p.queue| + 2 * k, 2 * p.capacity)
            && q.generated == SatAddU64(p.generated, k)
            && q.dropped == SatAddU64(p.dropped, Max(0, Frames(p) + k - p.capacity))
  {
    hide Run, Generated, ControlInv;
    RunQueues(s, n, true);
  }

  /** The chunk boundaries of a run that starts x cycles into a sample: every 16 cycles, and every sample. */
  predicate ChunkBoundary(x: nat, a: nat) {
    if x + a < SAMPLE_CYCLES then a % 16 == 0 else (x + a) % 16 == 0
  }

  /** The longest chunk x cycles into a sample. */
  function FullChunk(x: nat): int { Min(OVERSAMPLE_CYCLES, SAMPLE_CYCLES - x) }

  /** The next sample is never later than the other deadlines. */
  lemma SampleComesFirst(x: nat)
    requires x < SEQUENCER_CYCLES
    ensures SAMPLE_CYCLES - x % SAMPLE_CYCLES <= MIX_CYCLES - x % MIX_CYCLES
    ensures SAMPLE_CYCLES - x % SAMPLE_CYCLES <= SEQUENCER_CYCLES - x
  {
    var mixes, samples := x % MIX_CYCLES / SAMPLE_CYCLES, x / SAMPLE_CYCLES;
    assert x % MIX_CYCLES % SAMPLE_CYCLES == x % SAMPLE_CYCLES;
    assert x % MIX_CYCLES == mixes * SAMPLE_CYCLES + x % SAMPLE_CYCLES;
    assert x == samples * SAMPLE_CYCLES + x % SAMPLE_CYCLES;
  }

  lemma ChunkChosen(c: Control, n: nat)
    requires ControlInv(c) && n > 0
    ensures c.sampleCycles < SAMPLE_CYCLES && 1 <= FullChunk(c.sampleCycles) <= Distance(c)
    ensures NextChunk(c, n) == Min(n, FullChunk(c.sampleCycles))
  {
    hide ChannelsInv;
    SampleComesFirst(c.seqCycles);
  }

  lemma BoundaryPeel(x: nat, a: nat)
    requires x < SAMPLE_CYCLES && a > 0 && ChunkBoundary(x, a)
    ensures var k := FullChunk(x);
            k <= a && ChunkBoundary((x + k) % SAMPLE_CYCLES, a - k)
  {
  }

  /** A run may be split at any of its chunk boundaries. */
  lemma {:induction false} RunSplitAtBoundary(s: State, a: nat, b: nat, traced: bool)
    requires Inv(s) && ChunkBoundary(s.ctl.sampleCycles, a)
    ensures Run(s, a + b, traced) == Run(Run(s, a, traced), b, traced)
    decreases a
  {
    hide Chunk, ControlInv, NextChunk, ChunkBoundary, Distance;
    if a > 0 {
      var k := FullChunk(s.ctl.sampleCycles);
      ChunkChosen(s.ctl, a);
      ChunkChosen(s.ctl, a + b);
      BoundaryPeel(s.ctl.sampleCycles, a);
      var t := Chunk(s, k, traced);
      ChunkKeepsStateInv(s, k, traced);
      ChunkSampleCycles(s, k, traced);
      RunSplitAtBoundary(t, a - k, b, traced);
      assert a + b - k == (a - k) + b;
    }
  }

  /** Ticks that meet at a chunk boundary compose exactly: PCM samples and filters included. */
  lemma TickSplitAtBoundary(s: State, a: nat, b: nat)
    requires Inv(s) && ChunkBoundary(s.ctl.sampleCycles, a)
    ensures Tick(Tick(s, a), b) == Tick(s, a + b)
  {
    hide MixLeft, MixRight, MixMask, Run, ChunkBoundary;
    if s.ctl.master {
      RunKeepsSettings(s, a, true);
      RunSplitAtBoundary(s, a, b, true);
      RunSameButReport(Run(s, a, true), Tick(s, a), b, true, true);
    }
  }

  /** In particular on the 16-cycle grid. */
  lemma TickSplitOnGrid(s: State, a: nat, b: nat)
    requires Inv(s) && s.ctl.sampleCycles % 16 == 0 && a % 16 == 0
    ensures Tick(Tick(s, a), b) == Tick(s, a + b)
  {
    hide Tick, Inv;
    TickSplitAtBoundary(s, a, b);
  }

  // ---- ticks as wholes ----

  /** A tick of a powered unit is that many cycles of the reference machine; an unpowered one stands still. */
  lemma TickIsCycles(s: State, n: nat)
    requires ControlInv(s.ctl)
    ensures Tick(s, n).ctl == if s.ctl.master then Cycles(s.ctl, n) else s.ctl
  {
    hide Run, Cycles, MixLeft, MixRight, MixMask, ControlInv;
    RunIsCycles(s, n, true);
  }

  lemma TickKeepsInv(s: State, n: nat)
    requires Inv(s)
    ensures Inv(Tick(s, n))
  {
    hide Run, Inv, Reported;
    if s.ctl.master {
      RunKeepsInv(s, n, true);
      ReportKeepsInv(Run(s, n, true));
    }
  }

  function TickMany(s: State, parts: seq<nat>): State
    decreases |parts|
  {
    if parts == [] then s else TickMany(Tick(s, parts[0]), parts[1..])
  }

  function Total(parts: seq<nat>): nat {
    if parts == [] then 0 else parts[0] + Total(parts[1..])
  }

  lemma SameTrans(r: State, s: State, t: State)
    requires SameButSamples(r, s) && SameButSamples(s, t)
    ensures SameButSamples(r, t)
  {
  }

  lemma TickZero(s: State)
    ensures SameButSamples(s, Tick(s, 0))
  {
    hide MixLeft, MixRight, MixMask;
    assert Run(s, 0, true) == s;
  }

  /** Time-split invariance: however a stretch of time is cut into ticks, down to single cycles, registers, wave RAM,
      channels, sequencer, timing counters, frame counters and queue length end up the same. */
  lemma {:induction false} TimeSplitInvariance(s: State, parts: seq<nat>)
    requires Inv(s)
    ensures SameButSamples(TickMany(s, parts), Tick(s, Total(parts)))
    decreases |parts|
  {
    hide Tick, SameButSamples, Inv;
    if parts == [] {
      TickZero(s);
    } else {
      TickKeepsInv(s, parts[0]);
      TimeSplitInvariance(Tick(s, parts[0]), parts[1..]);
      TickSplit(s, parts[0], Total(parts[1..]));
      SameTrans(TickMany(s, parts), Tick(Tick(s, parts[0]), Total(parts[1..])), Tick(s, Total(parts)));
    }
  }

  // ---- splits inside a chunk ----

  /** Inside a chunk there is a last boundary before, and room for one more cycle. */
  lemma BoundaryBefore(x: nat, a: nat) returns (p: nat)
    requires x < SAMPLE_CYCLES && !ChunkBoundary(x, a)
    ensures p < a && ChunkBoundary(x, p) && a + 1 - p <= FullChunk((x + p) % SAMPLE_CYCLES)
  {
    p := if x + a < SAMPLE_CYCLES then a - a % 16 else a - (x + a) % 16;
  }

  lemma RunIsChunk(s: State, n: nat, traced: bool)
    requires Inv(s) && 1 <= n <= FullChunk(s.ctl.sampleCycles)
    ensures n <= Distance(s.ctl) && Run(s, n, traced) == Chunk(s, n, traced)
  {
    hide Chunk, Run, ControlInv, PcmInv, NextChunk, FullChunk;
    ChunkChosen(s.ctl, n);
    RunUnfolds(s, n, traced);
    RunUnfoldsNothing(Chunk(s, n, traced), traced);
  }

  /** A chunk that meets no deadline: time passes and the mix is weighed, nothing else. */
  lemma QuietChunk(s: State, n: nat, traced: bool)
    requires Inv(s) && 1 <= n < Distance(s.ctl)
    ensures Chunk(s, n, traced).ctl == Elapse(s.ctl, n)
    ensures var c := Elapse(s.ctl, n);
            Chunk(s, n, traced).pcm == Accumulate(s.pcm, MixLeft(c), MixRight(c), n)
  {
    hide MixLeft, MixRight, MixMask, ControlInv, Accumulate;
    TimersOf(s);
    ElapseAdds(s.ctl, n, 0);
    SampleComesFirst(s.ctl.seqCycles);
    assert Elapse(s.ctl, n).mixCycles < MIX_CYCLES && Elapse(s.ctl, n).sampleCycles < SAMPLE_CYCLES;
    hide Elapse, Serve, Enqueue;
  }

  lemma TimersOf(s: State)
    requires Inv(s)
    ensures TimersInv(s.ctl)
  {
  }

  /** Truncated averages over 64 cycles differ when the sums are at least 127 apart. */
  lemma AveragesApart(u: int, v: int)
    requires Abs(u - v) >= 127
    ensures TruncDiv(u, 64) != TruncDiv(v, 64)
  {
  }

  lemma HighPassApart(u: int, v: int, hpf: real, charge: real)
    requires Abs(u - v) >= 127 && 0.0 < charge < 1.0
    ensures HighPassNext(RawSample(u, SAMPLE_CYCLES), hpf, charge)
         != HighPassNext(RawSample(v, SAMPLE_CYCLES), hpf, charge)
  {
    AveragesApart(u, v);
    hide TruncDiv;
    var x, y := RawSample(u, SAMPLE_CYCLES), RawSample(v, SAMPLE_CYCLES);
    var k := 1.0 - charge;
    assert HighPassNext(x, hpf, charge) - HighPassNext(y, hpf, charge) == (x - y) * k;
    assert x != y;
    if x < y {
      StrictlyMonotone(x, y, k);
    } else {
      StrictlyMonotone(y, x, k);
    }
  }

  lemma EnqueueApart(p: Pcm, q: Pcm, c: Control)
    requires p.accCycles == q.accCycles == SAMPLE_CYCLES && p.hpfLeft == q.hpfLeft
    requires Abs(p.accLeft - q.accLeft) >= 127 && AnyDac(c)
    ensures Enqueue(p, c).hpfLeft != Enqueue(q, c).hpfLeft
  {
    hide HighPassNext, LowPassNext, HighPassOut, RawSample, Charge, Alpha, FrameOf, AnyDac;
    ChargeUnit(c.cgb);
    HighPassApart(p.accLeft, q.accLeft, p.hpfLeft, Charge(c.cgb));
  }

  /** The sums of a chunk taken at once and of the same chunk split before its last cycle. */
  lemma SumsApart(acc: int, y: nat, e: nat, m0: int, m1: int)
    requires Abs(acc) <= 480 * y && 1 <= e && y + e + 1 <= SAMPLE_CYCLES && Abs(m0) <= 480 && Abs(m1) <= 480
    requires Abs(m0 - m1) >= 127
    ensures var split, whole := SatAddI32(SatAddI32(acc, m0 * e), m1 * 1), SatAddI32(acc, m1 * (e + 1));
            Abs(split - whole) >= 127
  {
    AccumulateBound(acc, y, m0, e);
    AccumulateBound(acc + m0 * e, y + e, m1, 1);
    AccumulateBound(acc, y, m1, e + 1);
    hide SatAddI32;
    ProductsApart(m0, m1, e);
  }

  lemma ProductsApart(m0: int, m1: int, e: nat)
    requires 1 <= e && Abs(m0 - m1) >= 127
    ensures Abs((m0 * e + m1 * 1) - m1 * (e + 1)) >= 127
  {
    var d := m0 - m1;
    assert (m0 * e + m1 * 1) - m1 * (e + 1) == d * e;
    if d > 0 {
      MulMonotone(1, e, d);
    } else {
      MulMonotone(1, e, -d);
    }
  }

  /** With the next cycle the left mix moves far enough to show in a sample. */
  predicate Turning(c: Control) {
    Abs(MixLeft(c) - MixLeft(Elapse(c, 1))) >= 127 && AnyDac(Elapse(c, 1))
  }

  /** A split inside a chunk shows as soon as the left mix changes enough with the next cycle. */
  lemma SplitShows(s: State, a: nat)
    requires Inv(s) && s.ctl.master && !ChunkBoundary(s.ctl.sampleCycles, a)
    ensures Turning(Cycles(s.ctl, a)) ==> Tick(Tick(s, a), 1) != Tick(s, a + 1)
  {
    hide Run, Chunk, Cycles, ChunkBoundary, FullChunk, ControlInv, MixLeft, MixRight, MixMask, Inv, Turning;
    TickParts(s);
    var p := BoundaryBefore(s.ctl.sampleCycles, a);
    var e := a - p;
    var t := Run(s, p, true);
    RunKeepsInv(s, p, true);
    RunKeepsSettings(s, p, true);
    RunKeepsSettings(s, a, true);
    RunSplitAtBoundary(s, p, e, true);
    RunSplitAtBoundary(s, p, e + 1, true);
    assert p + e == a && p + (e + 1) == a + 1;
    TickIsCycles(s, a);
    InsideChunk(t, e);
  }

  lemma TickParts(s: State)
    requires Inv(s)
    ensures ControlInv(s.ctl) && s.ctl.sampleCycles < SAMPLE_CYCLES && |s.pcm.queue| % 2 == 0
    ensures s.pcm.accCycles == s.ctl.sampleCycles && Abs(s.pcm.accLeft) <= 480 * s.pcm.accCycles
  {
  }

  lemma InsideChunk(t: State, e: nat)
    requires Inv(t) && t.ctl.master && 1 <= e && e + 1 <= FullChunk(t.ctl.sampleCycles)
    ensures Turning(Run(t, e, true).ctl) ==>
              Reported(Run(Reported(Run(t, e, true)), 1, true)) != Reported(Run(t, e + 1, true))
  {
    hide Run, Chunk, ControlInv, MixLeft, MixRight, MixMask, Elapse, AnyDac, Accumulate, Enqueue, PcmInv, FullChunk;
    RunIsChunk(t, e, true);
    RunIsChunk(t, e + 1, true);
    QuietChunk(t, e, true);
    var u := Reported(Chunk(t, e, true));
    ChunkKeepsStateInv(t, e, true);
    ReportKeepsInv(Chunk(t, e, true));
    ElapseAdds(t.ctl, e, 1);
    assert u.ctl.sampleCycles == t.ctl.sampleCycles + e by { ElapsedSample(t.ctl, e); }
    assert 1 <= FullChunk(u.ctl.sampleCycles) by { FullChunkPositive(t.ctl.sampleCycles, e); }
    RunIsChunk(u, 1, true);
    if Turning(u.ctl) {
      LastCycleApart(t, u, e);
    }
  }

  lemma ElapsedSample(c: Control, n: nat)
    requires ControlInv(c) && n <= Distance(c)
    ensures Elapse(c, n).sampleCycles == c.sampleCycles + n
  {
  }

  lemma FullChunkPositive(x: nat, e: nat)
    requires e + 1 <= FullChunk(x)
    ensures 1 <= FullChunk(x + e)
  {
  }

  lemma LastCycleApart(t: State, u: State, e: nat)
    requires Inv(t) && Inv(u) && 1 <= e && e + 1 <= Distance(t.ctl)
    requires u.ctl == Elapse(t.ctl, e) && Elapse(u.ctl, 1) == Elapse(t.ctl, e + 1)
    requires u.pcm == Report(Accumulate(t.pcm, MixLeft(u.ctl), MixRight(u.ctl), e), u.ctl)
    requires Abs(MixLeft(u.ctl) - MixLeft(Elapse(u.ctl, 1))) >= 127 && AnyDac(Elapse(u.ctl, 1))
    ensures Reported(Chunk(u, 1, true)) != Reported(Chunk(t, e + 1, true))
  {
    var c := Elapse(t.ctl, e + 1);
    LastMixes(t, u, e);
    ElapsedSample(t.ctl, e + 1);
    hide MixLeft, MixRight, MixMask, Elapse, Inv, Serve, SatAddI32, AnyDac, Distance, Sampled;
    SampledApart(u.pcm, t.pcm, c, e);
    ChunkHistory(u, 1);
    ChunkHistory(t, e + 1);
  }

  lemma LastMixes(t: State, u: State, e: nat)
    requires Inv(t) && Inv(u) && 1 <= e && e + 1 <= Distance(t.ctl)
    requires u.ctl == Elapse(t.ctl, e)
    requires Abs(MixLeft(u.ctl) - MixLeft(Elapse(t.ctl, e + 1))) >= 127
    ensures var m0, m1 := MixLeft(u.ctl), MixLeft(Elapse(t.ctl, e + 1));
            var split := SatAddI32(SatAddI32(t.pcm.accLeft, m0 * e), m1 * 1);
            Abs(split - SatAddI32(t.pcm.accLeft, m1 * (e + 1))) >= 127
    ensures t.pcm.accCycles == t.ctl.sampleCycles && t.ctl.sampleCycles + e + 1 <= SAMPLE_CYCLES
  {
    hide Elapse, ChannelsInv, Inv, ControlInv, MixLeft, SatAddI32;
    var c := Elapse(t.ctl, e + 1);
    TickParts(t);
    ElapseKeepsInv(t.ctl, e + 1);
    InvParts(u);
    MixBound(c);
    MixBound(u.ctl);
    SumsApart(t.pcm.accLeft, t.pcm.accCycles, e, MixLeft(u.ctl), MixLeft(c));
  }

  /** The traces of a sum that no report changes: the open sum, or once the sample is out the filter memory. */
  lemma SampledApart(p: Pcm, q: Pcm, c: Control, e: nat)
    requires p.hpfLeft == q.hpfLeft && p.accCycles == q.accCycles + e
    requires q.accCycles + e + 1 == c.sampleCycles <= SAMPLE_CYCLES && AnyDac(c)
    requires Abs(SatAddI32(p.accLeft, MixLeft(c) * 1) - SatAddI32(q.accLeft, MixLeft(c) * (e + 1))) >= 127
    ensures var r, t := Sampled(p, c, 1), Sampled(q, c, e + 1);
            r.accLeft != t.accLeft || r.hpfLeft != t.hpfLeft
  {
    hide MixLeft, MixRight, SatAddI32, AnyDac, Enqueue;
    if c.sampleCycles >= SAMPLE_CYCLES {
      EnqueueApart(Accumulate(p, MixLeft(c), MixRight(c), 1), Accumulate(q, MixLeft(c), MixRight(c), e + 1), c);
    }
  }

  lemma ChunkHistory(s: State, n: nat)
    ensures var p, q := Sampled(s.pcm, Elapse(s.ctl, n), n), Reported(Chunk(s, n, true)).pcm;
            q.accLeft == p.accLeft && q.hpfLeft == p.hpfLeft
  {
    hide Sampled, Elapse, Serve, MixLeft, MixRight, MixMask;
  }
}
