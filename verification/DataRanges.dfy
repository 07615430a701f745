/** Dividing each ROM bank window into code bytes and runs of other bytes. */
module DataRanges {
  import opened Numbers

  datatype Placed = Placed(bank: nat, addr: u16, length: nat)

  /** A classified run: first address, and the address after the last. */
  datatype Range = Range(bank: nat, start: nat, end: nat)

  type Bytes = set<(nat, nat)>

  const MIN_RUN := 4

  function WindowStart(bank: nat): nat { if bank == 0 then 0x0000 else 0x4000 }

  /** The address after the window. */
  function WindowEnd(bank: nat): nat { if bank == 0 then 0x4000 else 0x8000 }

  // ---- code bytes ----

  ghost predicate IsCodeByte(instructions: seq<Placed>, bank: nat, addr: nat) {
    exists k :: 0 <= k < |instructions| && ByteOf(instructions[k], bank, addr)
  }

  /** Addresses saturate at the top of the address space. */
  predicate ByteOf(ins: Placed, bank: nat, addr: nat) {
    ins.bank == bank && exists offset :: 0 <= offset < ins.length && addr == SatAddU16(ins.addr, offset)
  }

  /** The bytes covered by instructions, as a set. */
  ghost function CodeBytes(instructions: seq<Placed>): (r: Bytes)
    ensures forall b: nat, a: nat :: (b, a) in r <==> IsCodeByte(instructions, b, a)
  {
    if instructions == [] then {} else
    var n := |instructions| - 1;
    var earlier, last := CodeBytes(instructions[..n]), instructions[n];
    var r := earlier + set offset | 0 <= offset < last.length :: (last.bank, SatAddU16(last.addr, offset));
    assert forall b: nat, a: nat :: (b, a) in r <==> (b, a) in earlier || ByteOf(last, b, a);
    r
  }

  method MarkCode(instructions: seq<Placed>) returns (code: Bytes)
    ensures code == CodeBytes(instructions)
  {
    code := {};
    for k := 0 to |instructions|
      invariant forall b: nat, a: nat :: (b, a) in code <==> exists j :: 0 <= j < k && ByteOf(instructions[j], b, a)
    {
      var ins := instructions[k];
      ghost var before := code;
      for offset := 0 to ins.length
        invariant forall b: nat, a: nat ::
                    (b, a) in code <==> (b, a) in before
                                        || (b == ins.bank && exists o :: 0 <= o < offset && a == SatAddU16(ins.addr, o))
      {
        code := code + {(ins.bank, SatAddU16(ins.addr, offset))};
      }
    }
    forall x: (nat, nat) ensures x in code <==> x in CodeBytes(instructions) {
      assert x == (x.0, x.1) && (x in code <==> IsCodeByte(instructions, x.0, x.1));
    }
  }

  // ---- runs ----

  /** A maximal run of bytes in the window that are not code. */
  ghost predicate MaximalRun(code: Bytes, bank: nat, start: nat, end: nat) {
    && WindowStart(bank) <= start < end <= WindowEnd(bank)
    && (forall a: nat :: start <= a < end ==> (bank, a) !in code)
    && (start == WindowStart(bank) || (bank, start - 1) in code)
    && (end == WindowEnd(bank) || (bank, end) in code)
  }

  /** The ranges reported for one bank below `limit`: exactly its long maximal runs, in order. */
  ghost predicate ExactlyRuns(code: Bytes, bank: nat, limit: nat, ranges: seq<Range>) {
    && (forall k :: 0 <= k < |ranges| ==> Reported(code, ranges[k]) && ranges[k].bank == bank && ranges[k].end <= limit)
    && (forall s: nat, e: nat :: MaximalRun(code, bank, s, e) && e - s >= MIN_RUN && e <= limit ==>
         Range(bank, s, e) in ranges)
    && (forall j, k :: 0 <= j < k < |ranges| ==> ranges[j].end <= ranges[k].start)
  }

  ghost predicate Reported(code: Bytes, r: Range) {
    MaximalRun(code, r.bank, r.start, r.end) && r.end - r.start >= MIN_RUN
  }

  /** No run straddles the cursor. */
  ghost predicate Boundary(code: Bytes, bank: nat, cursor: nat) {
    && WindowStart(bank) <= cursor <= WindowEnd(bank)
    && (cursor == WindowStart(bank) || cursor == WindowEnd(bank)
        || (bank, cursor - 1) in code || (bank, cursor) in code)
  }

  lemma RunsMeet(code: Bytes, bank: nat, s: nat, e: nat, s': nat, e': nat)
    requires MaximalRun(code, bank, s, e) && MaximalRun(code, bank, s', e')
    requires s < e' && s' < e
    ensures s == s' && e == e'
  {
  }

  /** Passing a code byte or a short run reports nothing new. */
  lemma PassSilently(code: Bytes, bank: nat, cursor: nat, next: nat, ranges: seq<Range>)
    requires ExactlyRuns(code, bank, cursor, ranges) && Boundary(code, bank, cursor) && cursor < next <= WindowEnd(bank)
    requires (next == cursor + 1 && (bank, cursor) in code)
          || (MaximalRun(code, bank, cursor, next) && next - cursor < MIN_RUN)
    ensures ExactlyRuns(code, bank, next, ranges) && Boundary(code, bank, next)
  {
    forall s: nat, e: nat | MaximalRun(code, bank, s, e) && e - s >= MIN_RUN && e <= next
      ensures Range(bank, s, e) in ranges
    {
      if e > cursor {
        if (bank, cursor) !in code {
          RunsMeet(code, bank, s, e, cursor, next);
        }
      }
    }
  }

  lemma ReportRun(code: Bytes, bank: nat, cursor: nat, next: nat, ranges: seq<Range>)
    requires ExactlyRuns(code, bank, cursor, ranges) && Boundary(code, bank, cursor)
    requires MaximalRun(code, bank, cursor, next) && next - cursor >= MIN_RUN
    ensures ExactlyRuns(code, bank, next, ranges + [Range(bank, cursor, next)]) && Boundary(code, bank, next)
  {
    var more := ranges + [Range(bank, cursor, next)];
    assert more[|ranges|] == Range(bank, cursor, next);
    forall s: nat, e: nat | MaximalRun(code, bank, s, e) && e - s >= MIN_RUN && e <= next
      ensures Range(bank, s, e) in more
    {
      if e > cursor {
        assert s < next;
        RunsMeet(code, bank, s, e, cursor, next);
      } else {
        assert Range(bank, s, e) in ranges;
      }
    }
  }

  method ScanBank(code: Bytes, bank: nat) returns (ranges: seq<Range>)
    ensures ExactlyRuns(code, bank, WindowEnd(bank), ranges)
  {
    hide ExactlyRuns;
    var startAddr, endAddr := WindowStart(bank), WindowEnd(bank) - 1;
    ranges := [];
    var cursor: nat := startAddr;
    NothingYet(code, bank);
    while cursor <= endAddr
      invariant ExactlyRuns(code, bank, cursor, ranges) && Boundary(code, bank, cursor)
    {
      if (bank, cursor) in code {
        PassSilently(code, bank, cursor, cursor + 1, ranges);
        cursor := SatAddU16(cursor, 1);
        continue;
      }
      var rangeStart := cursor;
      while cursor <= endAddr && (bank, cursor) !in code
        invariant rangeStart <= cursor <= endAddr + 1
        invariant forall a: nat :: rangeStart <= a < cursor ==> (bank, a) !in code
      {
        cursor := SatAddU16(cursor, 1);
      }
      var rangeEnd := cursor;
      if rangeEnd - rangeStart < MIN_RUN {
        PassSilently(code, bank, rangeStart, rangeEnd, ranges);
        continue;
      }
      ReportRun(code, bank, rangeStart, rangeEnd, ranges);
      ranges := ranges + [Range(bank, rangeStart, rangeEnd)];
    }
  }

  lemma NothingYet(code: Bytes, bank: nat)
    ensures ExactlyRuns(code, bank, WindowStart(bank), [])
  {
  }

  /** Bank first, then address; two ranges never touch. */
  predicate Before(q: Range, r: Range) { q.bank < r.bank || (q.bank == r.bank && q.end <= r.start) }

  /** Exactly the long maximal runs of every bank, in bank and address order. */
  ghost predicate Partition(code: Bytes, banks: nat, ranges: seq<Range>) {
    && (forall k :: 0 <= k < |ranges| ==> ranges[k].bank < banks && Reported(code, ranges[k]))
    && (forall b: nat, s: nat, e: nat :: b < banks && MaximalRun(code, b, s, e) && e - s >= MIN_RUN ==>
         Range(b, s, e) in ranges)
    && (forall j, k :: 0 <= j < k < |ranges| ==> Before(ranges[j], ranges[k]))
  }

  lemma PartitionGrows(code: Bytes, bank: nat, ranges: seq<Range>, more: seq<Range>)
    requires Partition(code, bank, ranges) && ExactlyRuns(code, bank, WindowEnd(bank), more)
    ensures Partition(code, bank + 1, ranges + more)
  {
    hide MaximalRun;
    forall b: nat, s: nat, e: nat | b < bank + 1 && MaximalRun(code, b, s, e) && e - s >= MIN_RUN
      ensures Range(b, s, e) in ranges + more
    {
      RunInWindow(code, b, s, e);
      if b < bank {
        assert Range(b, s, e) in ranges;
      } else {
        assert Range(b, s, e) in more;
      }
    }
  }

  lemma RunInWindow(code: Bytes, b: nat, s: nat, e: nat)
    requires MaximalRun(code, b, s, e)
    ensures e <= WindowEnd(b)
  {
  }

  /** A decoded instruction covers the byte. What reaches past the top of memory is lost. */
  ghost predicate Covers(instructions: seq<Placed>, bank: nat, a: nat) {
    exists ins <- instructions :: ins.bank == bank && ins.addr <= a < ins.addr + ins.length && a <= 0xFFFF
  }

  /** From s up to, not including, e lie four or more bytes of the bank's 16 KiB window that no instruction covers, and
      no more of them on either side. Bank 0 is mapped at 0000, the others at 4000. */
  ghost predicate LongGap(instructions: seq<Placed>, bank: nat, s: nat, e: nat) {
    var low := if bank == 0 then 0 else 0x4000;
    && low <= s && s + 4 <= e <= low + 0x4000
    && (forall a: nat :: s <= a < e ==> !Covers(instructions, bank, a))
    && (s > low ==> Covers(instructions, bank, s - 1))
    && (e < low + 0x4000 ==> Covers(instructions, bank, e))
  }

  lemma CoversIs(instructions: seq<Placed>, bank: nat, a: nat)
    ensures (bank, a) in CodeBytes(instructions) <==> Covers(instructions, bank, a)
  {
    hide CodeBytes;
    forall k | 0 <= k < |instructions|
      ensures ByteOf(instructions[k], bank, a)
         <==> var ins := instructions[k]; ins.bank == bank && ins.addr <= a < ins.addr + ins.length && a <= 0xFFFF
    {
      ByteIs(instructions[k], bank, a);
    }
    hide ByteOf;
    if Covers(instructions, bank, a) {
      var ins :| ins in instructions && ins.bank == bank && ins.addr <= a < ins.addr + ins.length && a <= 0xFFFF;
      var k :| 0 <= k < |instructions| && instructions[k] == ins;
      assert ByteOf(instructions[k], bank, a);
    }
    if IsCodeByte(instructions, bank, a) {
      var k :| 0 <= k < |instructions| && ByteOf(instructions[k], bank, a);
      assert instructions[k] in instructions;
    }
  }

  lemma ByteIs(ins: Placed, bank: nat, a: nat)
    ensures ByteOf(ins, bank, a) <==> ins.bank == bank && ins.addr <= a < ins.addr + ins.length && a <= 0xFFFF
  {
    if ins.addr <= a < ins.addr + ins.length && a <= 0xFFFF {
      assert a == SatAddU16(ins.addr, a - ins.addr);
    }
  }

  lemma LongGapIs(instructions: seq<Placed>, bank: nat, s: nat, e: nat)
    ensures Reported(CodeBytes(instructions), Range(bank, s, e)) <==> LongGap(instructions, bank, s, e)
  {
    hide CodeBytes, Covers;
    forall a: nat ensures (bank, a) in CodeBytes(instructions) <==> Covers(instructions, bank, a) {
      CoversIs(instructions, bank, a);
    }
  }

  /** The reported ranges are exactly the maximal runs of at least four bytes that no decoded instruction covers, in
      bank and address order. */
  method ClassifyDataRanges(instructions: seq<Placed>, bankCount: nat) returns (ranges: seq<Range>)
    ensures Partition(CodeBytes(instructions), bankCount, ranges)
    ensures forall b: nat, s: nat, e: nat ::
              Range(b, s, e) in ranges <==> b < bankCount && LongGap(instructions, b, s, e)
    ensures forall j, k :: 0 <= j < k < |ranges| ==>
              || ranges[j].bank < ranges[k].bank
              || (ranges[j].bank == ranges[k].bank && ranges[j].end <= ranges[k].start)
  {
    hide ExactlyRuns, Partition, IsCodeByte, CodeBytes;
    var marked := MarkCode(instructions);
    ranges := [];
    assert Partition(marked, 0, []) by { NoBanks(marked); }
    for bank := 0 to bankCount
      invariant Partition(marked, bank, ranges)
    {
      var found := ScanBank(marked, bank);
      PartitionGrows(marked, bank, ranges, found);
      ranges := ranges + found;
    }
    PartitionIs(instructions, bankCount, ranges);
  }

  lemma PartitionIs(instructions: seq<Placed>, banks: nat, ranges: seq<Range>)
    requires Partition(CodeBytes(instructions), banks, ranges)
    ensures forall b: nat, s: nat, e: nat :: Range(b, s, e) in ranges <==> b < banks && LongGap(instructions, b, s, e)
    ensures forall j, k :: 0 <= j < k < |ranges| ==>
              || ranges[j].bank < ranges[k].bank
              || (ranges[j].bank == ranges[k].bank && ranges[j].end <= ranges[k].start)
  {
    hide CodeBytes, LongGap;
    forall b: nat, s: nat, e: nat
      ensures Range(b, s, e) in ranges <==> b < banks && LongGap(instructions, b, s, e)
    {
      LongGapIs(instructions, b, s, e);
      if Range(b, s, e) in ranges {
        var k :| 0 <= k < |ranges| && ranges[k] == Range(b, s, e);
        assert Reported(CodeBytes(instructions), ranges[k]);
      }
    }
    assert forall j, k :: 0 <= j < k < |ranges| ==> Before(ranges[j], ranges[k]);
  }

  lemma NoBanks(code: Bytes)
    ensures Partition(code, 0, [])
  {
  }

  // ---- every byte has one place ----

  predicate Holds(r: Range, bank: nat, a: nat) { r.bank == bank && r.start <= a < r.end }

  /** Around a byte that is not code there is exactly one maximal run. */
  lemma RunAround(code: Bytes, bank: nat, a: nat) returns (s: nat, e: nat)
    requires WindowStart(bank) <= a < WindowEnd(bank) && (bank, a) !in code
    ensures MaximalRun(code, bank, s, e) && s <= a < e
    ensures forall s': nat, e': nat :: MaximalRun(code, bank, s', e') && s' <= a < e' ==> s' == s && e' == e
  {
    s, e := a, a + 1;
    while s > WindowStart(bank) && (bank, s - 1) !in code
      invariant WindowStart(bank) <= s <= a && forall x: nat :: s <= x <= a ==> (bank, x) !in code
    {
      s := s - 1;
    }
    while e < WindowEnd(bank) && (bank, e) !in code
      invariant a < e <= WindowEnd(bank) && forall x: nat :: a <= x < e ==> (bank, x) !in code
      decreases WindowEnd(bank) - e
    {
      e := e + 1;
    }
    forall s': nat, e': nat | MaximalRun(code, bank, s', e') && s' <= a < e' ensures s' == s && e' == e {
      RunsMeet(code, bank, s, e, s', e');
    }
  }

  /** Every byte of every window is code, or in exactly one reported range, or in a maximal run shorter than four. */
  lemma EveryByteHasOnePlace(code: Bytes, banks: nat, ranges: seq<Range>, bank: nat, a: nat)
    requires Partition(code, banks, ranges) && bank < banks && WindowStart(bank) <= a < WindowEnd(bank)
    ensures (bank, a) in code ==> forall r <- ranges :: !Holds(r, bank, a)
    ensures forall j, k :: 0 <= j < k < |ranges| && Holds(ranges[j], bank, a) ==> !Holds(ranges[k], bank, a)
    ensures (bank, a) !in code ==>
              (exists r :: r in ranges && Holds(r, bank, a))
              || (exists s: nat, e: nat :: MaximalRun(code, bank, s, e) && s <= a < e && e - s < MIN_RUN)
  {
    forall r <- ranges | Holds(r, bank, a) ensures (bank, a) !in code {
      var k :| 0 <= k < |ranges| && ranges[k] == r;
      assert Reported(code, ranges[k]);
    }
    if (bank, a) !in code {
      var s, e := RunAround(code, bank, a);
      if e - s >= MIN_RUN {
        assert Range(bank, s, e) in ranges && Holds(Range(bank, s, e), bank, a);
      }
    }
  }
}
