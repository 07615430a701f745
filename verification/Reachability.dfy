/** Walking the instructions reachable from a function start inside one ROM window. */
module Reachability {
  import opened Numbers
  import opened Options

  datatype Flow =
    Plain | Jump | JumpCond | Call | CallCond | Return | ReturnCond | Reti | Rst | IndirectJump | Stop | Halt | Invalid

  datatype Ins = Ins(length: nat, flow: Flow, target: Option<u16>, fallthrough: bool)

  /** What the walk is given: the bank, the decoder, the other roots of this bank, the bank count and, for
      targets a symbol table resolves, their bank. */
  datatype Rom = Rom(bank: nat, banks: nat, decode: u16 -> Ins, roots: set<u16>, symbolBank: u16 -> Option<nat>)

  const FIXED_BANK_END := 0x3FFF
  const BANK_WINDOW_START := 0x4000
  const BANK_WINDOW_END := 0x7FFF

  predicate InWindow(bank: nat, addr: u16) {
    if bank == 0 then addr <= FIXED_BANK_END else BANK_WINDOW_START <= addr <= BANK_WINDOW_END
  }

  function StaticBank(rom: Rom, target: u16): Option<nat> {
    if target <= FIXED_BANK_END then Some(0)
    else if target <= BANK_WINDOW_END && 0 < rom.bank < rom.banks then Some(rom.bank)
    else None
  }

  function TargetBank(rom: Rom, ins: Ins, target: u16): Option<nat> {
    if StaticBank(rom, target).Some? then StaticBank(rom, target)
    else if rom.bank == 0 && target >= BANK_WINDOW_START && rom.symbolBank(target).Some? then rom.symbolBank(target)
    else if ins.flow == Rst then Some(0)
    else None
  }

  function Next(addr: u16, ins: Ins): u16 { Min(addr + ins.length, 0xFFFF) }

  function FallThrough(rom: Rom, addr: u16, ins: Ins): seq<u16> {
    if ins.fallthrough && InWindow(rom.bank, Next(addr, ins)) then [Next(addr, ins)] else []
  }

  /** What a decoded instruction queues. A target-bearing instruction that is no jump or call queues nothing. */
  function Follow(rom: Rom, addr: u16): seq<u16> {
    var ins := rom.decode(addr);
    match ins.target
    case None => FallThrough(rom, addr, ins)
    case Some(target) =>
      match ins.flow
      case Jump | JumpCond =>
        (if TargetBank(rom, ins, target) == Some(rom.bank) && InWindow(rom.bank, target) && target !in rom.roots
         then [target] else []) + FallThrough(rom, addr, ins)
      case Call | CallCond | Rst => FallThrough(rom, addr, ins)
      case _ => []
  }

  /** Whether a queued address is decoded at all. */
  predicate Accepted(rom: Rom, start: u16, addr: u16) {
    InWindow(rom.bank, addr) && (addr == start || addr !in rom.roots)
  }

  /** One step of the walk. */
  predicate Step(rom: Rom, start: u16, a: u16, b: u16) {
    b in Follow(rom, a) && Accepted(rom, start, b)
  }

  /** p leads from the start to addr through accepted addresses only. */
  ghost predicate Trail(rom: Rom, start: u16, p: seq<u16>, addr: u16) {
    && p != [] && p[0] == start && p[|p| - 1] == addr
    && Accepted(rom, start, start)
    && forall k :: 0 <= k < |p| - 1 ==> Step(rom, start, p[k], p[k + 1])
  }

  ghost predicate Reachable(rom: Rom, start: u16, addr: u16) {
    exists p :: Trail(rom, start, p, addr)
  }

  /** S holds the start and everything the walk queues and accepts from its members. */
  ghost predicate Closed(rom: Rom, start: u16, S: set<u16>) {
    && (Accepted(rom, start, start) ==> start in S)
    && forall a, b :: a in S && Step(rom, start, a, b) ==> b in S
  }

  lemma TrailExtend(rom: Rom, start: u16, a: u16, b: u16)
    requires Reachable(rom, start, a) && Step(rom, start, a, b)
    ensures Reachable(rom, start, b)
  {
    var p :| Trail(rom, start, p, a);
    assert Trail(rom, start, p + [b], b);
  }

  /** A closed set holds everything reachable. */
  lemma {:induction false} TrailStaysInside(rom: Rom, start: u16, S: set<u16>, p: seq<u16>, addr: u16)
    requires Closed(rom, start, S) && Trail(rom, start, p, addr)
    ensures addr in S
    decreases |p|
  {
    if |p| > 1 {
      var q := p[..|p| - 1];
      assert Trail(rom, start, q, q[|q| - 1]);
      TrailStaysInside(rom, start, S, q, q[|q| - 1]);
      assert Step(rom, start, p[|p| - 2], p[|p| - 1]);
    }
  }

  /** The reachable addresses are the least closed set, so no queue order can change them. */
  lemma ReachableIsLeast(rom: Rom, start: u16, R: set<u16>)
    requires forall a :: a in R <==> Reachable(rom, start, a)
    ensures Closed(rom, start, R)
    ensures forall S: set<u16> :: Closed(rom, start, S) ==> R <= S
  {
    if Accepted(rom, start, start) {
      assert Trail(rom, start, [start], start);
    }
    forall a, b | a in R && Step(rom, start, a, b) ensures b in R {
      TrailExtend(rom, start, a, b);
    }
    forall S: set<u16>, a | Closed(rom, start, S) && a in R ensures a in S {
      var p :| Trail(rom, start, p, a);
      TrailStaysInside(rom, start, S, p, a);
    }
  }

  // ---- cross references ----

  datatype Xref = Xref(from: u16, to: u16, toBank: Option<nat>, kind: Flow)

  function XrefKind(flow: Flow): Flow {
    if flow in {Call, CallCond, Jump, JumpCond, Rst} then flow else Plain
  }

  function XrefOf(rom: Rom, addr: u16): Xref
    requires rom.decode(addr).target.Some?
  {
    var ins := rom.decode(addr);
    Xref(addr, ins.target.value, TargetBank(rom, ins, ins.target.value), XrefKind(ins.flow))
  }

  /** One cross reference for every decoded instruction with a target, and no other. */
  ghost predicate OneXrefEach(rom: Rom, decoded: set<u16>, xrefs: seq<Xref>) {
    && (forall k :: 0 <= k < |xrefs| ==>
          xrefs[k].from in decoded && rom.decode(xrefs[k].from).target.Some? && xrefs[k] == XrefOf(rom, xrefs[k].from))
    && (forall a :: a in decoded && rom.decode(a).target.Some? ==> XrefOf(rom, a) in xrefs)
    && (forall j, k :: 0 <= j < k < |xrefs| ==> xrefs[j].from != xrefs[k].from)
  }

  // ---- the worklist ----

  /** Every queued address is the start or was queued by a decoded instruction. */
  ghost predicate Justified(rom: Rom, start: u16, decoded: set<u16>, queue: seq<u16>) {
    forall b <- queue :: b == start || exists a :: a in decoded && b in Follow(rom, a)
  }

  /** What the walk still owes: every accepted follower of a decoded instruction is decoded or queued. */
  ghost predicate Pending(rom: Rom, start: u16, decoded: set<u16>, queue: seq<u16>) {
    && (Accepted(rom, start, start) ==> start in decoded || start in queue)
    && forall a, b :: a in decoded && Step(rom, start, a, b) ==> b in decoded || b in queue
  }

  ghost predicate AllReachable(rom: Rom, start: u16, decoded: set<u16>) {
    forall a :: a in decoded ==> Reachable(rom, start, a)
  }

  function Window(bank: nat): set<u16> {
    set a: u16 | InWindow(bank, a)
  }

  lemma JustifiedIsReachable(rom: Rom, start: u16, decoded: set<u16>, queue: seq<u16>, addr: u16)
    requires Justified(rom, start, decoded, queue) && AllReachable(rom, start, decoded)
    requires addr in queue && Accepted(rom, start, addr)
    ensures Reachable(rom, start, addr)
  {
    if addr == start {
      assert Trail(rom, start, [start], start);
    } else {
      var a :| a in decoded && addr in Follow(rom, a);
      TrailExtend(rom, start, a, addr);
    }
  }

  lemma SkipKeeps(rom: Rom, start: u16, decoded: set<u16>, addr: u16, later: seq<u16>)
    requires Justified(rom, start, decoded, [addr] + later) && Pending(rom, start, decoded, [addr] + later)
    requires addr in decoded || !Accepted(rom, start, addr)
    ensures Justified(rom, start, decoded, later) && Pending(rom, start, decoded, later)
  {
    assert forall b :: b in later ==> b in [addr] + later;
    assert forall b :: b in [addr] + later ==> b == addr || b in later;
  }

  lemma DecodeKeeps(rom: Rom, start: u16, decoded: set<u16>, addr: u16, later: seq<u16>)
    requires Justified(rom, start, decoded, [addr] + later) && Pending(rom, start, decoded, [addr] + later)
    ensures Justified(rom, start, decoded + {addr}, later + Follow(rom, addr))
    ensures Pending(rom, start, decoded + {addr}, later + Follow(rom, addr))
  {
    var queue := later + Follow(rom, addr);
    forall b <- queue ensures b == start || exists a :: a in decoded + {addr} && b in Follow(rom, a) {
      if b in later {
        assert b in [addr] + later;
        if b != start {
          var a :| a in decoded && b in Follow(rom, a);
          assert a in decoded + {addr};
        }
      } else {
        assert addr in decoded + {addr} && b in Follow(rom, addr);
      }
    }
    assert forall b :: b in [addr] + later ==> b == addr || b in later;
  }

  lemma XrefAdded(rom: Rom, decoded: set<u16>, xrefs: seq<Xref>, addr: u16)
    requires OneXrefEach(rom, decoded, xrefs) && addr !in decoded
    ensures rom.decode(addr).target.None? ==> OneXrefEach(rom, decoded + {addr}, xrefs)
    ensures rom.decode(addr).target.Some? ==> OneXrefEach(rom, decoded + {addr}, xrefs + [XrefOf(rom, addr)])
  {
    if rom.decode(addr).target.Some? {
      var more := xrefs + [XrefOf(rom, addr)];
      assert more[|xrefs|] == XrefOf(rom, addr);
      forall a | a in decoded + {addr} && rom.decode(a).target.Some? ensures XrefOf(rom, a) in more {
        if a != addr {
          assert XrefOf(rom, a) in xrefs;
        }
      }
    }
  }

  // ---- what the walk decodes, instruction by instruction ----

  /** In the 16 KiB window of the bank: bank 0 is mapped at 0000, the others at 4000. */
  predicate Mapped(rom: Rom, a: u16) { if rom.bank == 0 then a < 0x4000 else 0x4000 <= a < 0x8000 }

  /** Execution goes on from a to b without a jump. An instruction with a target goes on only if it is a jump, a call
      or a restart. */
  predicate GoesOn(rom: Rom, a: u16, b: u16) {
    var ins := rom.decode(a);
    && ins.fallthrough && b == Min(a + ins.length, 0xFFFF)
    && (ins.target.None? || ins.flow in {Jump, JumpCond, Call, CallCond, Rst})
  }

  /** Execution jumps from a to b within the bank. */
  predicate JumpsTo(rom: Rom, a: u16, b: u16) {
    var ins := rom.decode(a);
    ins.flow in {Jump, JumpCond} && ins.target == Some(b) && (rom.bank == 0 || rom.bank < rom.banks)
  }

  /** The decoded addresses: the start if it is mapped, and closed under going on and jumping to mapped addresses that
      are no other function's root; with nothing else in them. */
  ghost predicate WalkResult(rom: Rom, start: u16, decoded: set<u16>) {
    && (start in decoded <==> Mapped(rom, start))
    && (forall a, b :: a in decoded && GoesOn(rom, a, b) && Mapped(rom, b) && b !in rom.roots ==> b in decoded)
    && (forall a, b :: a in decoded && JumpsTo(rom, a, b) && Mapped(rom, b) && b !in rom.roots ==> b in decoded)
    && (forall b :: b in decoded && b != start ==>
          && Mapped(rom, b) && b !in rom.roots
          && exists a :: a in decoded && (GoesOn(rom, a, b) || JumpsTo(rom, a, b)))
  }

  lemma FollowIs(rom: Rom, a: u16, b: u16)
    requires Mapped(rom, b) && b !in rom.roots
    ensures b in Follow(rom, a) <==> GoesOn(rom, a, b) || JumpsTo(rom, a, b)
  {
  }

  lemma AcceptedIs(rom: Rom, start: u16, b: u16)
    ensures Accepted(rom, start, b) <==> Mapped(rom, b) && (b == start || b !in rom.roots)
  {
  }

  lemma ReachableIsResult(rom: Rom, start: u16, decoded: set<u16>)
    requires forall a :: a in decoded <==> Reachable(rom, start, a)
    ensures WalkResult(rom, start, decoded)
  {
    hide Follow, GoesOn, JumpsTo, Mapped, Accepted;
    forall b {
      AcceptedIs(rom, start, b);
    }
    if Mapped(rom, start) {
      assert Trail(rom, start, [start], start);
    }
    forall a, b | a in decoded && (GoesOn(rom, a, b) || JumpsTo(rom, a, b)) && Mapped(rom, b) && b !in rom.roots
      ensures b in decoded
    {
      FollowIs(rom, a, b);
      TrailExtend(rom, start, a, b);
    }
    forall b | b in decoded && b != start
      ensures Mapped(rom, b) && b !in rom.roots
      ensures exists a :: a in decoded && (GoesOn(rom, a, b) || JumpsTo(rom, a, b))
    {
      var p :| Trail(rom, start, p, b);
      var a := p[|p| - 2];
      assert Step(rom, start, p[|p| - 2], p[|p| - 1]);
      assert Trail(rom, start, p[..|p| - 1], a);
      FollowIs(rom, a, b);
    }
  }

  // ---- what a cross reference says ----

  /** The target, the kind and the bank: the fixed window is bank 0 and the switchable window the bank of the code; for
      targets outside both bank 0 asks the symbols, and what stays unknown is bank 0 for a restart and open otherwise.
      From bank 0, or a bank the ROM does not have, the switchable window counts as outside. */
  lemma XrefSays(rom: Rom, a: u16)
    requires rom.decode(a).target.Some?
    ensures var x, ins := XrefOf(rom, a), rom.decode(a);
            var outside := x.to >= 0x4000 && (x.to >= 0x8000 || rom.bank == 0 || rom.bank >= rom.banks);
            var known := rom.bank == 0 && rom.symbolBank(x.to).Some?;
            && x.from == a && Some(x.to) == ins.target
            && (x.kind == ins.flow || (x.kind == Plain && ins.flow !in {Call, CallCond, Jump, JumpCond, Rst}))
            && (ins.flow in {Call, CallCond, Jump, JumpCond, Rst} ==> x.kind == ins.flow)
            && (!outside ==> x.toBank == Some(if x.to < 0x4000 then 0 else rom.bank))
            && (outside && known ==> x.toBank == rom.symbolBank(x.to))
            && (outside && !known ==> x.toBank == if ins.flow == Rst then Some(0) else None)
  {
  }

  /** Decode exactly the reachable addresses of the window, each once, with one cross reference per decoded
      instruction that has a target. */
  method AnalyzeFunction(rom: Rom, start: u16) returns (instructions: map<u16, Ins>, xrefs: seq<Xref>)
    ensures forall a :: a in instructions <==> Reachable(rom, start, a)
    ensures WalkResult(rom, start, instructions.Keys)
    ensures forall a :: a in instructions ==> instructions[a] == rom.decode(a)
    ensures OneXrefEach(rom, instructions.Keys, xrefs)
  {
    hide Follow, Reachable, OneXrefEach, Justified, Pending, AllReachable, InWindow, WalkResult;
    instructions, xrefs := map[], [];
    var queue := [start];
    WalkBegins(rom, start);
    assert instructions.Keys == {};
    while queue != []
      invariant Justified(rom, start, instructions.Keys, queue) && Pending(rom, start, instructions.Keys, queue)
      invariant AllReachable(rom, start, instructions.Keys) && OneXrefEach(rom, instructions.Keys, xrefs)
      invariant forall a :: a in instructions ==> instructions[a] == rom.decode(a)
      decreases Window(rom.bank) - instructions.Keys, |queue|
    {
      var addr, later := queue[0], queue[1..];
      assert queue == [addr] + later;
      if !InWindow(rom.bank, addr) || addr in instructions || (addr != start && addr in rom.roots) {
        SkipKeeps(rom, start, instructions.Keys, addr, later);
        queue := later;
        continue;
      }
      ghost var decoded := instructions.Keys;
      JustifiedIsReachable(rom, start, decoded, queue, addr);
      ReachableAdded(rom, start, decoded, addr);
      DecodeKeeps(rom, start, decoded, addr, later);
      XrefAdded(rom, decoded, xrefs, addr);
      var ins := rom.decode(addr);
      if ins.target.Some? {
        xrefs := xrefs + [Xref(addr, ins.target.value, TargetBank(rom, ins, ins.target.value), XrefKind(ins.flow))];
      }
      var queued := Queue(rom, addr, ins);
      queue := later + queued;
      instructions := instructions[addr := ins];
      assert instructions.Keys == decoded + {addr};
      assert addr in Window(rom.bank) - decoded;
    }
    EmptyQueueIsAll(rom, start, instructions.Keys);
    ReachableIsResult(rom, start, instructions.Keys);
  }

  /** The addresses an instruction queues, jump target before fallthrough. */
  method Queue(rom: Rom, addr: u16, ins: Ins) returns (queued: seq<u16>)
    requires ins == rom.decode(addr)
    ensures queued == Follow(rom, addr)
  {
    queued := [];
    var next := Next(addr, ins);
    if ins.target.Some? {
      var target := ins.target.value;
      match ins.flow
      case Jump | JumpCond =>
        if TargetBank(rom, ins, target) == Some(rom.bank) && InWindow(rom.bank, target) && target !in rom.roots {
          queued := queued + [target];
        }
        if ins.fallthrough && InWindow(rom.bank, next) {
          queued := queued + [next];
        }
      case Call | CallCond | Rst =>
        if ins.fallthrough && InWindow(rom.bank, next) {
          queued := queued + [next];
        }
      case _ =>
    } else if ins.fallthrough && InWindow(rom.bank, next) {
      queued := queued + [next];
    }
  }

  lemma WalkBegins(rom: Rom, start: u16)
    ensures Justified(rom, start, {}, [start]) && Pending(rom, start, {}, [start])
    ensures AllReachable(rom, start, {}) && OneXrefEach(rom, {}, [])
  {
  }

  lemma ReachableAdded(rom: Rom, start: u16, decoded: set<u16>, addr: u16)
    requires AllReachable(rom, start, decoded) && Reachable(rom, start, addr)
    ensures AllReachable(rom, start, decoded + {addr})
  {
  }

  lemma EmptyQueueIsAll(rom: Rom, start: u16, decoded: set<u16>)
    requires Pending(rom, start, decoded, []) && AllReachable(rom, start, decoded)
    ensures forall a :: a in decoded <==> Reachable(rom, start, a)
  {
    forall a | Reachable(rom, start, a) ensures a in decoded {
      var p :| Trail(rom, start, p, a);
      TrailStaysInside(rom, start, decoded, p, a);
    }
  }
}
