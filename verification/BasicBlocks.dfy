/** Splitting decoded instructions into basic blocks and connecting them. */
module BasicBlocks {
  import opened Numbers
  import opened Options
  import opened Reachability
  import Dominators

  type Code = map<u16, Ins>

  // ---- leaders ----

  /** Control transfers that make leaders. A conditional return is not among them. */
  predicate MakesLeaders(flow: Flow) { flow in {Jump, JumpCond, Call, CallCond, Rst} }

  /** Instructions that end a block wherever they stand. */
  predicate EndsBlock(ins: Ins) {
    !ins.fallthrough || ins.flow in {Jump, Return, ReturnCond, Reti, IndirectJump}
  }

  /** The leaders one instruction makes: the code after it when it falls through, and its target. */
  function LeadersOf(code: Code, a: u16): (r: set<u16>)
    requires a in code
    ensures r <= code.Keys
  {
    var ins := code[a];
    if !MakesLeaders(ins.flow) then {} else
    (if ins.fallthrough && Next(a, ins) in code then {Next(a, ins)} else {})
    + (if ins.target.Some? && ins.target.value in code then {ins.target.value} else {})
  }

  /** The jump, call or restart at a makes the decoded addr a leader: as the code after it, or as its target. */
  ghost predicate Makes(code: Code, a: u16, addr: u16)
    requires a in code
  {
    && code[a].flow in {Jump, JumpCond, Call, CallCond, Rst} && addr in code
    && ((code[a].fallthrough && addr == Min(a + code[a].length, 0xFFFF)) || code[a].target == Some(addr))
  }

  ghost predicate IsLeader(code: Code, start: u16, addr: u16) {
    addr == start || exists a :: a in code && Makes(code, a, addr)
  }

  lemma LeadersAre(code: Code, a: u16)
    requires a in code
    ensures forall addr: u16 :: addr in LeadersOf(code, a) <==> Makes(code, a, addr)
  {
  }

  // ---- sorted addresses ----

  predicate Increasing(s: seq<u16>) {
    forall j, k :: 0 <= j < k < |s| ==> s[j] < s[k]
  }

  /** The members of s from lo on, in increasing order. */
  function Listing(s: set<u16>, lo: nat): (r: seq<u16>)
    requires lo <= 0x1_0000
    ensures Increasing(r)
    ensures forall a :: a in r <==> a in s && a >= lo
    decreases 0x1_0000 - lo
  {
    if lo == 0x1_0000 then [] else
    var later := Listing(s, lo + 1);
    assert forall k :: 0 <= k < |later| ==> later[k] in later;
    if lo in s then [lo as u16] + later else later
  }

  function LeadersUpTo(code: Code, order: seq<u16>, n: nat): (r: set<u16>)
    requires n <= |order| && forall a <- order :: a in code
    ensures r <= code.Keys
    ensures forall a :: a in r <==> exists j :: 0 <= j < n && a in LeadersOf(code, order[j])
  {
    if n == 0 then {} else LeadersUpTo(code, order, n - 1) + LeadersOf(code, order[n - 1])
  }

  method CollectLeaders(code: Code, start: u16) returns (leaders: set<u16>)
    requires start in code
    ensures forall a :: a in leaders <==> IsLeader(code, start, a)
    ensures leaders <= code.Keys
  {
    hide Listing, LeadersOf, LeadersUpTo;
    leaders := {start};
    var order := Listing(code.Keys, 0);
    LeadersStep(code, order, 0);
    for i := 0 to |order|
      invariant leaders == {start} + LeadersUpTo(code, order, i)
    {
      LeadersStep(code, order, i);
      assert order[i] in order;
      var made := MakeLeaders(code, order[i]);
      leaders := leaders + made;
    }
    LeadersComplete(code, start, order);
  }

  method MakeLeaders(code: Code, a: u16) returns (made: set<u16>)
    requires a in code
    ensures made == LeadersOf(code, a)
  {
    made := {};
    var ins := code[a];
    if MakesLeaders(ins.flow) {
      if ins.fallthrough && Next(a, ins) in code {
        made := made + {Next(a, ins)};
      }
      if ins.target.Some? && ins.target.value in code {
        made := made + {ins.target.value};
      }
    }
  }

  lemma LeadersStep(code: Code, order: seq<u16>, n: nat)
    requires n <= |order| && forall a <- order :: a in code
    ensures LeadersUpTo(code, order, 0) == {}
    ensures n < |order| ==> LeadersUpTo(code, order, n + 1) == LeadersUpTo(code, order, n) + LeadersOf(code, order[n])
  {
    hide LeadersOf;
  }

  lemma LeadersComplete(code: Code, start: u16, order: seq<u16>)
    requires forall a :: a in order <==> a in code
    ensures forall a :: a == start || a in LeadersUpTo(code, order, |order|) <==> IsLeader(code, start, a)
  {
    hide LeadersUpTo, LeadersOf, Makes;
    forall a | a in code {
      LeadersAre(code, a);
    }
    forall a ensures a == start || a in LeadersUpTo(code, order, |order|) <==> IsLeader(code, start, a) {
      if a in LeadersUpTo(code, order, |order|) {
        var j :| 0 <= j < |order| && a in LeadersOf(code, order[j]);
        assert order[j] in order;
      }
    }
  }

  // ---- block extents ----

  /** Block addresses starting at position p of the sorted order and stopping before `limit` or after a block end. */
  ghost predicate Extent(code: Code, order: seq<u16>, p: nat, limit: Option<u16>, addrs: seq<u16>)
    requires forall a <- order :: a in code
  {
    && addrs != [] && p + |addrs| <= |order|
    && addrs == order[p..p + |addrs|]
    && (forall k :: p <= k < p + |addrs| - 1 ==> !EndsBlock(code[order[k]]))
    && (forall k :: p < k < p + |addrs| ==> limit != Some(order[k]))
    && (p + |addrs| == |order| || limit == Some(order[p + |addrs|]) || EndsBlock(code[order[p + |addrs| - 1]]))
  }

  method TakeBlock(code: Code, order: seq<u16>, p: nat, limit: Option<u16>) returns (addrs: seq<u16>)
    requires (forall a <- order :: a in code) && p < |order| && limit != Some(order[p])
    ensures Extent(code, order, p, limit, addrs)
  {
    addrs := [];
    var k := p;
    while k < |order|
      invariant p <= k <= |order| && addrs == order[p..k]
      invariant forall j :: p <= j < k ==> !EndsBlock(code[order[j]]) && limit != Some(order[j])
    {
      if limit == Some(order[k]) {
        break;
      }
      addrs := addrs + [order[k]];
      k := k + 1;
      if EndsBlock(code[order[k - 1]]) {
        break;
      }
    }
  }

  // ---- all blocks ----

  /** One block per leader: block i starts at leader i and is bounded by leader i + 1. */
  ghost predicate Blocks(code: Code, order: seq<u16>, leaders: seq<u16>, blocks: seq<seq<u16>>)
    requires forall a <- order :: a in code
  {
    && |blocks| <= |leaders|
    && forall i :: 0 <= i < |blocks| ==> BlockAt(code, order, leaders, blocks[i], i)
  }

  ghost predicate BlockAt(code: Code, order: seq<u16>, leaders: seq<u16>, block: seq<u16>, i: nat)
    requires i < |leaders| && forall a <- order :: a in code
  {
    exists p :: 0 <= p < |order| && order[p] == leaders[i] && Extent(code, order, p, LimitOf(leaders, i), block)
  }

  /** What forming blocks delivers: sorted code, sorted leaders, and one maximal block per leader. */
  ghost predicate Formed(code: Code, start: u16, order: seq<u16>, leaders: seq<u16>, blocks: seq<seq<u16>>) {
    && Increasing(order) && (forall a :: a in order <==> a in code)
    && Increasing(leaders) && (forall a :: a in leaders <==> IsLeader(code, start, a))
    && (forall a <- leaders :: a in order)
    && |blocks| == |leaders| && Blocks(code, order, leaders, blocks)
  }

  function LimitOf(leaders: seq<u16>, i: nat): Option<u16> {
    if i + 1 < |leaders| then Some(leaders[i + 1]) else None
  }

  lemma BlockAdded(code: Code, order: seq<u16>, leaders: seq<u16>, blocks: seq<seq<u16>>, block: seq<u16>, p: nat)
    requires (forall a <- order :: a in code) && Blocks(code, order, leaders, blocks) && |blocks| < |leaders|
    requires p < |order| && order[p] == leaders[|blocks|]
    requires Extent(code, order, p, LimitOf(leaders, |blocks|), block)
    ensures Blocks(code, order, leaders, blocks + [block])
  {
    hide Extent;
  }

  /** Where a listed address stands. */
  method Position(order: seq<u16>, addr: u16) returns (p: nat)
    requires Increasing(order) && addr in order
    ensures p < |order| && order[p] == addr
  {
    p := 0;
    ghost var q :| 0 <= q < |order| && order[q] == addr;
    while order[p] < addr
      invariant p <= q
    {
      p := p + 1;
    }
  }

  method FormBlocks(code: Code, start: u16) returns (order: seq<u16>, leaders: seq<u16>, blocks: seq<seq<u16>>)
    requires start in code
    ensures Formed(code, start, order, leaders, blocks)
  {
    hide IsLeader, Extent, Listing, BlockAt;
    var found := CollectLeaders(code, start);
    order := Listing(code.Keys, 0);
    leaders := Listing(found, 0);
    blocks := [];
    for i := 0 to |leaders|
      invariant |blocks| == i && Blocks(code, order, leaders, blocks)
    {
      assert leaders[i] in leaders && leaders[i] in order;
      var p := Position(order, leaders[i]);
      var block := TakeBlock(code, order, p, LimitOf(leaders, i));
      BlockAdded(code, order, leaders, blocks, block, p);
      blocks := blocks + [block];
    }
  }

  // ---- order and disjointness ----

  lemma ExtentRange(code: Code, order: seq<u16>, p: nat, limit: Option<u16>, block: seq<u16>)
    requires Increasing(order) && (forall a <- order :: a in code) && Extent(code, order, p, limit, block)
    requires limit.Some? ==> limit.value in order && order[p] < limit.value
    ensures Increasing(block) && block[0] == order[p]
    ensures forall k :: 0 <= k < |block| ==>
              block[k] in order && order[p] <= block[k] && (limit.Some? ==> block[k] < limit.value)
  {
    assert forall k :: 0 <= k < |block| ==> block[k] == order[p + k];
    if limit.Some? {
      var q :| 0 <= q < |order| && order[q] == limit.value;
      assert q >= p + |block|;
    }
    hide EndsBlock;
  }

  /** Every address of block i lies from leader i up to, not including, leader i + 1. */
  lemma BlockRange(code: Code, start: u16, order: seq<u16>, leaders: seq<u16>, blocks: seq<seq<u16>>, i: nat)
    requires Formed(code, start, order, leaders, blocks) && i < |blocks|
    ensures blocks[i] != [] && blocks[i][0] == leaders[i] && Increasing(blocks[i])
    ensures forall a <- blocks[i] :: a in code && leaders[i] <= a && (i + 1 < |leaders| ==> a < leaders[i + 1])
  {
    hide IsLeader, Extent;
    assert BlockAt(code, order, leaders, blocks[i], i);
    var p :| 0 <= p < |order| && order[p] == leaders[i] && Extent(code, order, p, LimitOf(leaders, i), blocks[i]);
    if i + 1 < |leaders| {
      assert leaders[i + 1] in leaders && leaders[i] < leaders[i + 1];
    }
    NonEmptyExtent(code, order, p, LimitOf(leaders, i), blocks[i]);
    ExtentRange(code, order, p, LimitOf(leaders, i), blocks[i]);
  }

  lemma NonEmptyExtent(code: Code, order: seq<u16>, p: nat, limit: Option<u16>, block: seq<u16>)
    requires (forall a <- order :: a in code) && Extent(code, order, p, limit, block)
    ensures block != [] && p < |order|
  {
  }

  /** Blocks come in address order and share no instruction. */
  lemma BlocksDisjoint(code: Code, start: u16, order: seq<u16>, leaders: seq<u16>, blocks: seq<seq<u16>>,
                       i: nat, j: nat)
    requires Formed(code, start, order, leaders, blocks) && i < j < |blocks|
    ensures forall a, b :: a in blocks[i] && b in blocks[j] ==> a < b
  {
    BlockRange(code, start, order, leaders, blocks, i);
    BlockRange(code, start, order, leaders, blocks, j);
    assert leaders[i + 1] <= leaders[j];
  }

  lemma InsideFlows(ins: Ins)
    ensures !EndsBlock(ins)
       <==> ins.fallthrough && ins.flow in {JumpCond, Call, CallCond, Rst, Plain, Stop, Halt, Invalid}
  {
    match ins.flow
    case Plain => case Jump => case JumpCond => case Call => case CallCond => case Return => case ReturnCond =>
    case Reti => case Rst => case IndirectJump => case Stop => case Halt => case Invalid =>
  }

  /** The shape of every block: its instructions are neighbours in address order, all but the last go on to the next
      one, and the last ends the block, is the last of the code, or is followed by a leader. */
  lemma BlockShape(code: Code, start: u16, order: seq<u16>, leaders: seq<u16>, blocks: seq<seq<u16>>, i: nat)
    returns (p: nat)
    requires Formed(code, start, order, leaders, blocks) && i < |blocks|
    ensures blocks[i] != [] && p + |blocks[i]| <= |order| && blocks[i] == order[p..p + |blocks[i]|]
    ensures forall k :: 0 <= k < |blocks[i]| ==> blocks[i][k] in code
    ensures forall k :: 0 <= k < |blocks[i]| - 1 ==>
              var ins := code[blocks[i][k]];
              ins.fallthrough && ins.flow in {JumpCond, Call, CallCond, Rst, Plain, Stop, Halt, Invalid}
    ensures var q, last := p + |blocks[i]|, code[blocks[i][|blocks[i]| - 1]];
            || q == |order| || IsLeader(code, start, order[q])
            || !last.fallthrough || last.flow in {Jump, Return, ReturnCond, Reti, IndirectJump}
  {
    hide IsLeader, Extent;
    assert BlockAt(code, order, leaders, blocks[i], i);
    p :| 0 <= p < |order| && order[p] == leaders[i] && Extent(code, order, p, LimitOf(leaders, i), blocks[i]);
    ExtentShape(code, order, p, LimitOf(leaders, i), blocks[i]);
    LimitIsLeader(code, start, order, leaders, blocks, i);
  }

  lemma ExtentShape(code: Code, order: seq<u16>, p: nat, limit: Option<u16>, block: seq<u16>)
    requires (forall a <- order :: a in code) && p < |order| && Extent(code, order, p, limit, block)
    ensures block != [] && p + |block| <= |order| && block == order[p..p + |block|]
    ensures forall k :: 0 <= k < |block| ==> block[k] in code
    ensures forall k :: 0 <= k < |block| - 1 ==>
              var ins := code[block[k]];
              ins.fallthrough && ins.flow in {JumpCond, Call, CallCond, Rst, Plain, Stop, Halt, Invalid}
    ensures var q, last := p + |block|, code[block[|block| - 1]];
            || q == |order| || limit == Some(order[q])
            || !last.fallthrough || last.flow in {Jump, Return, ReturnCond, Reti, IndirectJump}
  {
    forall k | 0 <= k < |block|
      ensures block[k] in code && block[k] == order[p + k]
      ensures var ins := code[block[k]];
              k < |block| - 1 ==>
                ins.fallthrough && ins.flow in {JumpCond, Call, CallCond, Rst, Plain, Stop, Halt, Invalid}
    {
      assert order[p + k] in order;
      InsideFlows(code[order[p + k]]);
    }
  }

  // ---- coverage ----

  ghost predicate Covered(blocks: seq<seq<u16>>, a: u16) {
    exists i :: 0 <= i < |blocks| && a in blocks[i]
  }

  /** Instruction k of the sorted code follows from a leader without a block end in between. */
  ghost predicate Carried(code: Code, start: u16, order: seq<u16>, k: nat)
    requires k < |order| && forall a <- order :: a in code
  {
    IsLeader(code, start, order[k]) || (k > 0 && !EndsBlock(code[order[k - 1]]) && Carried(code, start, order, k - 1))
  }

  /** Instruction k is no leader and the one before it, if any, ends a block. */
  ghost predicate Lost(code: Code, start: u16, order: seq<u16>, k: nat)
    requires k < |order| && forall a <- order :: a in code
  {
    !IsLeader(code, start, order[k]) && (k == 0 || EndsBlock(code[order[k - 1]]))
  }

  lemma OrderIsCode(code: Code, start: u16, order: seq<u16>, leaders: seq<u16>, blocks: seq<seq<u16>>)
    requires Formed(code, start, order, leaders, blocks)
    ensures Increasing(order) && forall a <- order :: a in code
    ensures forall a :: a in code <==> a in order
  {
  }

  lemma LeaderCovered(code: Code, start: u16, order: seq<u16>, leaders: seq<u16>, blocks: seq<seq<u16>>, a: u16)
    requires Formed(code, start, order, leaders, blocks) && IsLeader(code, start, a)
    ensures Covered(blocks, a)
  {
    hide IsLeader;
    assert a in leaders;
    var i :| 0 <= i < |leaders| && leaders[i] == a;
    BlockRange(code, start, order, leaders, blocks, i);
    assert blocks[i][0] in blocks[i];
  }

  /** Where an instruction stands in a block that holds it. */
  lemma PlaceInBlock(code: Code, start: u16, order: seq<u16>, leaders: seq<u16>, blocks: seq<seq<u16>>, i: nat, k: nat)
    returns (p: nat)
    requires Formed(code, start, order, leaders, blocks) && i < |blocks| && k < |order| && order[k] in blocks[i]
    ensures forall a <- order :: a in code
    ensures p <= k < p + |blocks[i]| && IsLeader(code, start, order[p])
    ensures Extent(code, order, p, LimitOf(leaders, i), blocks[i])
  {
    hide IsLeader;
    assert BlockAt(code, order, leaders, blocks[i], i);
    p :| 0 <= p < |order| && order[p] == leaders[i] && Extent(code, order, p, LimitOf(leaders, i), blocks[i]);
    assert leaders[i] in leaders;
    var j :| 0 <= j < |blocks[i]| && blocks[i][j] == order[k];
    assert order[p + j] == order[k];
  }

  /** An instruction that is no leader lies in a block exactly when the one before it does and ends no block. */
  lemma CoveredStep(code: Code, start: u16, order: seq<u16>, leaders: seq<u16>, blocks: seq<seq<u16>>, k: nat)
    requires Formed(code, start, order, leaders, blocks) && k < |order| && !IsLeader(code, start, order[k])
    ensures forall a <- order :: a in code
    ensures Covered(blocks, order[k])
       <==> k > 0 && !EndsBlock(code[order[k - 1]]) && Covered(blocks, order[k - 1])
  {
    OrderIsCode(code, start, order, leaders, blocks);
    hide IsLeader, EndsBlock, Formed;
    if i: nat :| i < |blocks| && order[k] in blocks[i] {
      StepBack(code, start, order, leaders, blocks, i, k);
    }
    if k > 0 && !EndsBlock(code[order[k - 1]]) {
      if i: nat :| i < |blocks| && order[k - 1] in blocks[i] {
        StepOn(code, start, order, leaders, blocks, i, k);
      }
    }
  }

  lemma StepBack(code: Code, start: u16, order: seq<u16>, leaders: seq<u16>, blocks: seq<seq<u16>>, i: nat, k: nat)
    requires Formed(code, start, order, leaders, blocks) && k < |order| && !IsLeader(code, start, order[k])
    requires i < |blocks| && order[k] in blocks[i]
    ensures forall a <- order :: a in code
    ensures k > 0 && !EndsBlock(code[order[k - 1]]) && order[k - 1] in blocks[i]
  {
    hide IsLeader, EndsBlock, Extent, Increasing, Formed;
    var p := PlaceInBlock(code, start, order, leaders, blocks, i, k);
    ExtentBack(code, order, p, LimitOf(leaders, i), blocks[i], k);
  }

  lemma StepOn(code: Code, start: u16, order: seq<u16>, leaders: seq<u16>, blocks: seq<seq<u16>>, i: nat, k: nat)
    requires Formed(code, start, order, leaders, blocks) && 0 < k < |order| && !IsLeader(code, start, order[k])
    requires forall a <- order :: a in code
    requires i < |blocks| && order[k - 1] in blocks[i] && !EndsBlock(code[order[k - 1]])
    ensures order[k] in blocks[i]
  {
    hide IsLeader, EndsBlock, Extent, Increasing, Formed;
    var p := PlaceInBlock(code, start, order, leaders, blocks, i, k - 1);
    LimitIsLeader(code, start, order, leaders, blocks, i);
    ExtentOn(code, order, p, LimitOf(leaders, i), blocks[i], k);
  }

  lemma LimitIsLeader(code: Code, start: u16, order: seq<u16>, leaders: seq<u16>, blocks: seq<seq<u16>>, i: nat)
    requires Formed(code, start, order, leaders, blocks)
    ensures LimitOf(leaders, i).Some? ==> IsLeader(code, start, LimitOf(leaders, i).value)
  {
    hide IsLeader;
    if i + 1 < |leaders| {
      assert leaders[i + 1] in leaders;
    }
  }

  lemma ExtentBack(code: Code, order: seq<u16>, p: nat, limit: Option<u16>, block: seq<u16>, k: nat)
    requires (forall a <- order :: a in code) && Extent(code, order, p, limit, block) && p < k < p + |block|
    ensures !EndsBlock(code[order[k - 1]]) && order[k - 1] in block
  {
    hide EndsBlock;
    assert block[k - 1 - p] == order[k - 1];
  }

  lemma ExtentOn(code: Code, order: seq<u16>, p: nat, limit: Option<u16>, block: seq<u16>, k: nat)
    requires (forall a <- order :: a in code) && Extent(code, order, p, limit, block) && p < k <= p + |block|
    requires k < |order| && !EndsBlock(code[order[k - 1]]) && limit != Some(order[k])
    ensures order[k] in block
  {
    hide EndsBlock;
    if k < p + |block| {
      assert block[k - p] == order[k];
    }
  }

  /** Exactly which instructions lie in blocks, whatever was decoded. */
  lemma {:induction false} CoveredExactly(code: Code, start: u16, order: seq<u16>, leaders: seq<u16>,
                                          blocks: seq<seq<u16>>, k: nat)
    requires Formed(code, start, order, leaders, blocks) && k < |order|
    ensures forall a <- order :: a in code
    ensures Covered(blocks, order[k]) <==> Carried(code, start, order, k)
  {
    hide Formed, Covered, IsLeader, EndsBlock;
    OrderIsCode(code, start, order, leaders, blocks);
    if IsLeader(code, start, order[k]) {
      LeaderCovered(code, start, order, leaders, blocks, order[k]);
    } else {
      CoveredStep(code, start, order, leaders, blocks, k);
      if k > 0 {
        CoveredExactly(code, start, order, leaders, blocks, k - 1);
      }
    }
  }

  lemma {:induction false} NoneLostCarries(code: Code, start: u16, order: seq<u16>, k: nat)
    requires k < |order| && forall a <- order :: a in code
    requires forall j :: 0 <= j <= k ==> !Lost(code, start, order, j)
    ensures Carried(code, start, order, k)
  {
    hide IsLeader, EndsBlock;
    assert !Lost(code, start, order, k);
    if !IsLeader(code, start, order[k]) {
      NoneLostCarries(code, start, order, k - 1);
    }
  }

  /** Every instruction lies in a block if and only if each one that is no leader comes right after an instruction
      that ends no block. This holds of any decoded code, overlapping or not. No instruction ever lies in two blocks. */
  lemma BlocksCover(code: Code, start: u16, order: seq<u16>, leaders: seq<u16>, blocks: seq<seq<u16>>)
    requires Formed(code, start, order, leaders, blocks)
    ensures forall a <- order :: a in code
    ensures (forall x :: x in code ==> Covered(blocks, x))
       <==> (forall k :: 0 <= k < |order| ==> !Lost(code, start, order, k))
    ensures forall i, j, x :: 0 <= i < j < |blocks| && x in blocks[i] ==> x !in blocks[j]
  {
    hide Formed, Covered, IsLeader, EndsBlock, Increasing;
    OrderIsCode(code, start, order, leaders, blocks);
    if forall k :: 0 <= k < |order| ==> !Lost(code, start, order, k) {
      forall x | x in code ensures Covered(blocks, x) {
        var k :| 0 <= k < |order| && order[k] == x;
        NoneLostCarries(code, start, order, k);
        CoveredExactly(code, start, order, leaders, blocks, k);
      }
    } else {
      var k :| 0 <= k < |order| && Lost(code, start, order, k);
      CoveredExactly(code, start, order, leaders, blocks, k);
      assert order[k] in order;
    }
    forall i, j, x | 0 <= i < j < |blocks| && x in blocks[i] ensures x !in blocks[j] {
      BlocksDisjoint(code, start, order, leaders, blocks, i, j);
    }
  }

  // ---- coverage of walked code without overlap ----

  /** What the decoder guarantees of the flow kinds that end a block, conditional returns aside. */
  ghost predicate DecoderFlows(code: Code) {
    && (forall a :: a in code ==> code[a].length >= 1)
    && (forall a :: a in code && code[a].flow in {Jump, Return, Reti, IndirectJump} ==> !code[a].fallthrough)
    && (forall a :: a in code && code[a].flow == ReturnCond ==> code[a].target.None?)
  }

  /** No decoded instruction starts inside another. */
  ghost predicate NoOverlap(code: Code) {
    forall a, b :: a in code && b in code && a < b ==> a + code[a].length <= b
  }

  /** The code is what a walk from the start decoded. */
  ghost predicate WalkedFrom(rom: Rom, start: u16, code: Code) {
    && (forall a :: a in code <==> Reachable(rom, start, a))
    && (forall a :: a in code ==> code[a] == rom.decode(a))
  }

  /** The start of a conditional return whose following instruction was decoded but made no leader. */
  ghost predicate Stranding(code: Code, start: u16, a: u16) {
    a in code && code[a].flow == ReturnCond && Next(a, code[a]) in code && !IsLeader(code, start, Next(a, code[a]))
  }

  /** A walked instruction other than the start was queued by some other walked instruction. */
  lemma HasPredecessor(rom: Rom, start: u16, code: Code, x: u16)
    requires WalkedFrom(rom, start, code) && x in code && x != start
    ensures exists z :: z in code && x in Follow(rom, z)
  {
    var p :| Trail(rom, start, p, x);
    var q := p[..|p| - 1];
    assert Step(rom, start, p[|p| - 2], p[|p| - 1]);
    assert Trail(rom, start, q, p[|p| - 2]);
  }

  /** A walked instruction that is no leader follows its address predecessor by falling through it, and that
      predecessor ends no block unless it is a conditional return. */
  lemma NonLeaderFallsThrough(rom: Rom, start: u16, code: Code, x: u16) returns (z: u16)
    requires WalkedFrom(rom, start, code) && DecoderFlows(code)
    requires x in code && !IsLeader(code, start, x)
    ensures z in code && z < x && x == Next(z, code[z]) && code[z].fallthrough
    ensures code[z].flow != ReturnCond ==> !EndsBlock(code[z])
  {
    HasPredecessor(rom, start, code, x);
    z :| z in code && x in Follow(rom, z);
    assert !Makes(code, z, x);
    InWindowReached(rom, start, code, z);
  }

  /** A walk that decoded anything decoded its start, so block forming has an entry. */
  lemma StartIsWalked(rom: Rom, start: u16, code: Code)
    requires WalkedFrom(rom, start, code) && code != map[]
    ensures start in code
  {
    var x :| x in code;
    var p :| Trail(rom, start, p, x);
    assert Trail(rom, start, [start], start);
  }

  lemma InWindowReached(rom: Rom, start: u16, code: Code, x: u16)
    requires WalkedFrom(rom, start, code) && x in code
    ensures InWindow(rom.bank, x)
  {
    var p :| Trail(rom, start, p, x);
    if |p| > 1 {
      assert Step(rom, start, p[|p| - 2], p[|p| - 1]);
    }
  }

  /** Without overlap the instruction fallen into is the next one in address order. */
  lemma NextInOrder(code: Code, order: seq<u16>, k: nat, x: u16)
    requires Increasing(order) && (forall a :: a in order <==> a in code) && NoOverlap(code)
    requires k < |order| && x in code && order[k] < x == order[k] + code[order[k]].length
    ensures k + 1 < |order| && order[k + 1] == x
  {
    var q :| 0 <= q < |order| && order[q] == x;
    assert q > k;
    assert order[k] in order && order[k + 1] in order;
  }

  lemma NextIsExact(rom: Rom, start: u16, code: Code, z: u16, x: u16)
    requires WalkedFrom(rom, start, code) && z in code && x in code && x == Next(z, code[z])
    ensures x == z + code[z].length
  {
    InWindowReached(rom, start, code, x);
  }

  /** In such code an instruction is lost exactly when it is the one after a stranding conditional return. */
  lemma LostIsStranded(rom: Rom, start: u16, code: Code, order: seq<u16>, k: nat)
    requires WalkedFrom(rom, start, code) && DecoderFlows(code) && NoOverlap(code)
    requires Increasing(order) && (forall a :: a in order <==> a in code) && k < |order|
    ensures forall a <- order :: a in code
    ensures Lost(code, start, order, k) <==> exists a :: Stranding(code, start, a) && Next(a, code[a]) == order[k]
  {
    var x := order[k];
    assert x in order;
    if Lost(code, start, order, k) {
      var z := NonLeaderFallsThrough(rom, start, code, x);
      NextIsExact(rom, start, code, z, x);
      hide IsLeader, WalkedFrom, DecoderFlows;
      var q :| 0 <= q < |order| && order[q] == z;
      NextInOrder(code, order, q, x);
      assert k == q + 1;
      assert Stranding(code, start, z);
    }
    hide IsLeader, WalkedFrom;
    if a :| Stranding(code, start, a) && Next(a, code[a]) == x {
      NextIsExact(rom, start, code, a, x);
      assert code[a].length >= 1;
      var q :| 0 <= q < |order| && order[q] == a;
      NextInOrder(code, order, q, x);
      assert k == q + 1;
    }
  }

  lemma StrandedIsUncovered(rom: Rom, start: u16, code: Code, order: seq<u16>, leaders: seq<u16>,
                            blocks: seq<seq<u16>>, a: u16)
    requires WalkedFrom(rom, start, code) && DecoderFlows(code) && NoOverlap(code)
    requires Formed(code, start, order, leaders, blocks) && Stranding(code, start, a)
    ensures !Covered(blocks, Next(a, code[a]))
  {
    OrderIsCode(code, start, order, leaders, blocks);
    hide IsLeader, WalkedFrom, DecoderFlows, NoOverlap, EndsBlock, Covered, Formed;
    var k :| 0 <= k < |order| && order[k] == Next(a, code[a]);
    LostIsStranded(rom, start, code, order, k);
    CoveredExactly(code, start, order, leaders, blocks, k);
  }

  /** So for walked code without overlap every instruction lies in a block exactly when no conditional return strands
      the instruction after it. */
  lemma BlocksCoverWalked(rom: Rom, start: u16, code: Code, order: seq<u16>, leaders: seq<u16>, blocks: seq<seq<u16>>)
    requires WalkedFrom(rom, start, code) && DecoderFlows(code) && NoOverlap(code)
    requires Formed(code, start, order, leaders, blocks)
    ensures (forall x :: x in code ==> Covered(blocks, x)) <==> (forall a :: !Stranding(code, start, a))
  {
    OrderIsCode(code, start, order, leaders, blocks);
    hide IsLeader, WalkedFrom, DecoderFlows, NoOverlap, EndsBlock, Covered, Formed;
    BlocksCover(code, start, order, leaders, blocks);
    if a :| Stranding(code, start, a) {
      StrandedIsUncovered(rom, start, code, order, leaders, blocks, a);
      assert Next(a, code[a]) in code;
    } else {
      forall k | 0 <= k < |order| ensures !Lost(code, start, order, k) {
        LostIsStranded(rom, start, code, order, k);
      }
    }
  }

  // ---- a ROM that strands an instruction ----

  /** A conditional return, then plain returns, one byte each. */
  function ReturnsAt(a: u16): Ins {
    if a == 0 then Ins(1, ReturnCond, None, true) else Ins(1, Return, None, false)
  }

  function ReturnsRom(): Rom { Rom(0, 1, ReturnsAt, {}, _ => None) }

  const RETURNS_CODE: Code := map[0 := ReturnsAt(0), 1 := ReturnsAt(1)]

  /** Every hypothesis of BlocksCoverWalked can hold with coverage failing: the plain return at 1 is decoded and lies in
      no block, however the blocks are formed. */
  lemma StrandingInput()
    ensures WalkedFrom(ReturnsRom(), 0, RETURNS_CODE) && DecoderFlows(RETURNS_CODE) && NoOverlap(RETURNS_CODE)
    ensures Stranding(RETURNS_CODE, 0, 0)
    ensures forall order, leaders, blocks :: Formed(RETURNS_CODE, 0, order, leaders, blocks) ==> !Covered(blocks, 1)
  {
    ReturnsWalked();
    assert Next(0, RETURNS_CODE[0]) == 1;
    forall order, leaders, blocks | Formed(RETURNS_CODE, 0, order, leaders, blocks) ensures !Covered(blocks, 1) {
      StrandedIsUncovered(ReturnsRom(), 0, RETURNS_CODE, order, leaders, blocks, 0);
    }
  }

  lemma ReturnsWalked()
    ensures WalkedFrom(ReturnsRom(), 0, RETURNS_CODE)
  {
    var rom := ReturnsRom();
    assert Trail(rom, 0, [0], 0);
    assert Follow(rom, 0) == [1] && Follow(rom, 1) == [];
    assert Step(rom, 0, 0, 1);
    assert Trail(rom, 0, [0, 1], 1);
    forall a | Reachable(rom, 0, a) ensures a in RETURNS_CODE {
      var p :| Trail(rom, 0, p, a);
      TrailStaysInside(rom, 0, {0, 1}, p, a);
    }
  }

  // ---- a ROM whose code overlaps itself ----

  /** The bytes 20 01 01 C9 00 C9: a conditional jump to 3, a three-byte load at 2 with a return inside it at 3, and a
      return at 5 after the load. */
  function OverlapAt(a: u16): Ins {
    if a == 0 then Ins(2, JumpCond, Some(3), true)
    else if a == 2 then Ins(3, Plain, None, true)
    else Ins(1, Return, None, false)
  }

  function OverlapRom(): Rom { Rom(0, 1, OverlapAt, {}, _ => None) }

  const OVERLAP_CODE: Code := map[0 := OverlapAt(0), 2 := OverlapAt(2), 3 := OverlapAt(3), 5 := OverlapAt(5)]

  /** Without any conditional return the return at 5 lies in no block, however the blocks are formed: the return at 3
      stands between the load and it. */
  lemma OverlapInput()
    ensures WalkedFrom(OverlapRom(), 0, OVERLAP_CODE) && DecoderFlows(OVERLAP_CODE)
    ensures forall a :: !Stranding(OVERLAP_CODE, 0, a)
    ensures forall order, leaders, blocks :: Formed(OVERLAP_CODE, 0, order, leaders, blocks) ==> !Covered(blocks, 5)
  {
    OverlapWalked();
    hide IsLeader, OverlapRom, Formed, Covered, WalkedFrom;
    forall order, leaders, blocks | Formed(OVERLAP_CODE, 0, order, leaders, blocks) ensures !Covered(blocks, 5) {
      OverlapUncovered(order, leaders, blocks);
    }
  }

  lemma OverlapUncovered(order: seq<u16>, leaders: seq<u16>, blocks: seq<seq<u16>>)
    requires Formed(OVERLAP_CODE, 0, order, leaders, blocks)
    ensures !Covered(blocks, 5)
  {
    OverlapLeaders();
    OrderIsCode(OVERLAP_CODE, 0, order, leaders, blocks);
    hide IsLeader, Formed, Covered;
    assert 3 in order && 5 in order && 4 !in order;
    var k, q :| 0 <= k < |order| && 0 <= q < |order| && order[k] == 5 && order[q] == 3;
    BetweenIsNothing(order, q, k);
    CoveredStep(OVERLAP_CODE, 0, order, leaders, blocks, k);
  }

  lemma BetweenIsNothing(order: seq<u16>, q: nat, k: nat)
    requires Increasing(order) && q < |order| && k < |order| && order[q] == 3 && order[k] == 5
    requires 4 !in order
    ensures k == q + 1
  {
    assert q < k;
    assert order[q + 1] in order;
  }

  lemma OverlapLeaders()
    ensures !IsLeader(OVERLAP_CODE, 0, 5)
  {
    assert forall a :: a in OVERLAP_CODE ==> !Makes(OVERLAP_CODE, a, 5);
  }

  lemma OverlapWalked()
    ensures WalkedFrom(OverlapRom(), 0, OVERLAP_CODE)
  {
    var rom := OverlapRom();
    assert Follow(rom, 0) == [3, 2] && Follow(rom, 2) == [5] && Follow(rom, 3) == [] && Follow(rom, 5) == [];
    assert Step(rom, 0, 0, 3) && Step(rom, 0, 0, 2) && Step(rom, 0, 2, 5);
    assert Trail(rom, 0, [0], 0);
    assert Trail(rom, 0, [0, 3], 3);
    assert Trail(rom, 0, [0, 2], 2);
    assert Trail(rom, 0, [0, 2, 5], 5);
    forall a | Reachable(rom, 0, a) ensures a in OVERLAP_CODE {
      var p :| Trail(rom, 0, p, a);
      TrailStaysInside(rom, 0, {0, 2, 3, 5}, p, a);
    }
  }

  // ---- edges ----

  function IndexOf(starts: seq<u16>, addr: u16): (r: Option<nat>)
    ensures r.Some? ==> r.value < |starts| && starts[r.value] == addr
    ensures r.None? ==> addr !in starts
  {
    if starts == [] then None
    else if starts[|starts| - 1] == addr then Some(|starts| - 1)
    else IndexOf(starts[..|starts| - 1], addr)
  }

  function TargetEdge(starts: seq<u16>, ins: Ins): seq<nat> {
    if ins.target.Some? && IndexOf(starts, ins.target.value).Some?
    then [IndexOf(starts, ins.target.value).value] else []
  }

  /** The blocks that can follow a block ending in `ins`: the target first, then the next block in address order. */
  function Successors(starts: seq<u16>, i: nat, ins: Ins): (r: seq<nat>)
    requires i < |starts|
    ensures forall k :: 0 <= k < |r| ==> r[k] < |starts|
  {
    var next := if i + 1 < |starts| then [i + 1] else [];
    match ins.flow
    case Jump => TargetEdge(starts, ins)
    case JumpCond => TargetEdge(starts, ins) + next
    case Call | CallCond | Rst | Halt | Stop | Plain | Invalid => next
    case _ => []
  }

  ghost predicate NoRepeats(s: seq<nat>) {
    forall j, k :: 0 <= j < k < |s| ==> s[j] != s[k]
  }

  /** Block i leads to block j: to the next one unless its last instruction leaves for good, and by a jump to the block
      that starts at the target. */
  predicate Edge(starts: seq<u16>, lasts: seq<Ins>, i: nat, j: nat)
    requires |lasts| == |starts|
  {
    && i < |starts| && j < |starts|
    && (|| (j == i + 1 && lasts[i].flow in {JumpCond, Call, CallCond, Rst, Halt, Stop, Plain, Invalid})
        || (lasts[i].flow in {Jump, JumpCond} && lasts[i].target == Some(starts[j])))
  }

  lemma SuccessorsAre(starts: seq<u16>, lasts: seq<Ins>, i: nat, j: nat)
    requires |lasts| == |starts| && i < |starts| && Increasing(starts)
    ensures j in Successors(starts, i, lasts[i]) <==> Edge(starts, lasts, i, j)
  {
    if lasts[i].target.Some? {
      var found := IndexOf(starts, lasts[i].target.value);
      assert found.Some? && j < |starts| ==> (starts[j] == starts[found.value] <==> j == found.value);
      assert j < |starts| ==> starts[j] in starts;
    }
    hide IndexOf;
  }

  /** Every edge, block by block. */
  method CollectEdges(starts: seq<u16>, lasts: seq<Ins>) returns (edges: seq<(nat, nat)>)
    requires |lasts| == |starts| && Increasing(starts)
    ensures forall i: nat, j: nat :: (i, j) in edges <==> Edge(starts, lasts, i, j)
    ensures forall k :: 0 <= k < |edges| ==> edges[k].0 < |starts| && edges[k].1 < |starts|
  {
    edges := [];
    for i := 0 to |starts|
      invariant forall a: nat, b: nat :: (a, b) in edges <==> a < i && Edge(starts, lasts, a, b)
      invariant forall k :: 0 <= k < |edges| ==> edges[k].0 < |starts| && edges[k].1 < |starts|
    {
      var targets := Successors(starts, i, lasts[i]);
      forall b: nat ensures Edge(starts, lasts, i, b) <==> b in targets {
        SuccessorsAre(starts, lasts, i, b);
      }
      hide Successors, Edge;
      ghost var before := edges;
      for k := 0 to |targets|
        invariant forall a: nat, b: nat :: (a, b) in edges <==> (a, b) in before || (a == i && b in targets[..k])
        invariant forall k :: 0 <= k < |edges| ==> edges[k].0 < |starts| && edges[k].1 < |starts|
      {
        assert targets[..k + 1] == targets[..k] + [targets[k]];
        edges := edges + [(i, targets[k])];
      }
      assert targets[..|targets|] == targets;
    }
  }

  /** Both lists hold exactly the edges, each once, and are mutually inverse. */
  ghost predicate Linked(preds: seq<seq<nat>>, succs: seq<seq<nat>>, n: nat, edges: seq<(nat, nat)>) {
    && |preds| == |succs| == n
    && (forall i: nat, j: nat :: i < n && j in succs[i] <==> (i, j) in edges)
    && (forall i: nat, j: nat :: j < n && i in preds[j] <==> (i, j) in edges)
    && (forall i :: 0 <= i < n ==> NoRepeats(preds[i]) && NoRepeats(succs[i]))
  }

  /** Adding one edge to both lists, where it is missing. */
  lemma LinkedAdds(preds: seq<seq<nat>>, succs: seq<seq<nat>>, n: nat, edges: seq<(nat, nat)>, i: nat, t: nat)
    requires Linked(preds, succs, n, edges) && i < n && t < n
    ensures var succs' := if t !in succs[i] then succs[i := succs[i] + [t]] else succs;
            var preds' := if i !in preds[t] then preds[t := preds[t] + [i]] else preds;
            Linked(preds', succs', n, edges + [(i, t)])
  {
    assert NoRepeats(succs[i]) && NoRepeats(preds[t]);
  }

  method LinkBlocks(n: nat, edges: seq<(nat, nat)>) returns (preds: seq<seq<nat>>, succs: seq<seq<nat>>)
    requires forall k :: 0 <= k < |edges| ==> edges[k].0 < n && edges[k].1 < n
    ensures Linked(preds, succs, n, edges)
  {
    preds, succs := seq(n, _ => []), seq(n, _ => []);
    assert Linked(preds, succs, n, []);
    hide Linked;
    for k := 0 to |edges|
      invariant |preds| == |succs| == n && Linked(preds, succs, n, edges[..k])
    {
      assert edges[..k + 1] == edges[..k] + [edges[k]];
      var (from, to) := edges[k];
      LinkedAdds(preds, succs, n, edges[..k], from, to);
      if to !in succs[from] {
        succs := succs[from := succs[from] + [to]];
      }
      if from !in preds[to] {
        preds := preds[to := preds[to] + [from]];
      }
    }
    assert edges[..|edges|] == edges;
  }

  /** The block graph: addresses per block, edges both ways, and both dominance relations. */
  datatype Graph = Graph(
    blocks: seq<seq<u16>>,
    preds: seq<seq<nat>>,
    succs: seq<seq<nat>>,
    dominators: seq<set<nat>>,
    postDominators: seq<set<nat>>)

  /** The last instruction of every block. */
  ghost predicate LastsOf(code: Code, blocks: seq<seq<u16>>, lasts: seq<Ins>) {
    && |lasts| == |blocks|
    && forall i :: 0 <= i < |blocks| ==>
         blocks[i] != [] && blocks[i][|blocks[i]| - 1] in code && lasts[i] == code[blocks[i][|blocks[i]| - 1]]
  }

  method LastInstructions(code: Code, start: u16, ghost order: seq<u16>, ghost leaders: seq<u16>, blocks: seq<seq<u16>>)
    returns (lasts: seq<Ins>)
    requires Formed(code, start, order, leaders, blocks)
    ensures LastsOf(code, blocks, lasts)
  {
    hide Formed;
    lasts := [];
    for i := 0 to |blocks|
      invariant |lasts| == i && LastsOf(code, blocks[..i], lasts)
    {
      FormedCount(code, start, order, leaders, blocks);
      BlockRange(code, start, order, leaders, blocks, i);
      var block := blocks[i];
      assert block[|block| - 1] in block;
      lasts := lasts + [code[block[|block| - 1]]];
    }
    assert blocks[..|blocks|] == blocks;
  }

  lemma FormedCount(code: Code, start: u16, order: seq<u16>, leaders: seq<u16>, blocks: seq<seq<u16>>)
    requires Formed(code, start, order, leaders, blocks)
    ensures |blocks| == |leaders|
  {
  }

  /** Nothing decoded means no blocks; otherwise blocks, edges between the blocks found at branch targets and next in
      address order, and dominance over exactly those edges. */
  method BuildBasicBlocks(code: Code, start: u16) returns (graph: Graph, ghost order: seq<u16>, ghost leaders: seq<u16>)
    requires code != map[] ==> start in code
    ensures code == map[] ==> graph == Graph([], [], [], [], [])
    ensures code != map[] ==> Formed(code, start, order, leaders, graph.blocks)
    ensures code != map[] ==> exists lasts, edges ::
              && LastsOf(code, graph.blocks, lasts) && |lasts| == |leaders|
              && (forall i: nat, j: nat :: (i, j) in edges <==> Edge(leaders, lasts, i, j))
              && Linked(graph.preds, graph.succs, |leaders|, edges)
    ensures code != map[] ==>
              && Dominators.Meaning(graph.preds, {0}, graph.dominators)
              && Dominators.Meaning(graph.succs, Dominators.ExitBlocks(graph.succs), graph.postDominators)
  {
    hide Formed, LastsOf, Edge, Linked, Dominators.Meaning;
    order, leaders := [], [];
    if |code| == 0 {
      return Graph([], [], [], [], []), [], [];
    }
    var found, starts, blocks := FormBlocks(code, start);
    var lasts := LastInstructions(code, start, found, starts, blocks);
    FormedCount(code, start, found, starts, blocks);
    assert Increasing(starts) by { StartsIncrease(code, start, found, starts, blocks); }
    hide Increasing;
    assert |lasts| == |blocks| by { LastsCount(code, blocks, lasts); }
    var edges := CollectEdges(starts, lasts);
    var preds, succs := LinkBlocks(|starts|, edges);
    var dom := Dominators.ComputeDominators(preds);
    var pdom := Dominators.ComputePostDominators(succs);
    order, leaders := found, starts;
    graph := Graph(blocks, preds, succs, dom, pdom);
  }

  lemma StartsIncrease(code: Code, start: u16, order: seq<u16>, leaders: seq<u16>, blocks: seq<seq<u16>>)
    requires Formed(code, start, order, leaders, blocks)
    ensures Increasing(leaders)
  {
  }

  lemma LastsCount(code: Code, blocks: seq<seq<u16>>, lasts: seq<Ins>)
    requires LastsOf(code, blocks, lasts)
    ensures |lasts| == |blocks|
  {
  }
}
