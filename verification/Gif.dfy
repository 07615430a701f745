/** GIF image data: a decoder written from the GIF89a specification, and the literal-only LZW encoder. */
module GifStream {
  import opened Numbers
  import opened Options

  type Bits = seq<bool>

  // ---- bits and codes (GIF89a, Appendix F: codes are packed starting from the least significant bit) ----

  /** The low `width` bits of a code, least significant first. */
  function CodeBits(code: nat, width: nat): (b: Bits)
    ensures |b| == width
    decreases width
  {
    if width == 0 then [] else [code % 2 == 1] + CodeBits(code / 2, width - 1)
  }

  function BitsValue(b: Bits): nat {
    if b == [] then 0 else (if b[0] then 1 else 0) + 2 * BitsValue(b[1..])
  }

  function ByteBits(bytes: seq<u8>): (b: Bits)
    ensures |b| == 8 * |bytes|
  {
    if bytes == [] then [] else ByteBits(bytes[..|bytes| - 1]) + CodeBits(bytes[|bytes| - 1], 8)
  }

  lemma {:induction false} CodeRoundTrip(code: nat, width: nat)
    requires code < Pow2(width)
    ensures BitsValue(CodeBits(code, width)) == code
    decreases width
  {
    if width > 0 {
      CodeRoundTrip(code / 2, width - 1);
    }
  }

  // ---- data sub-blocks (GIF89a, section 15) ----

  /** Read length-prefixed blocks up to the terminator; the rest of the stream is returned too. */
  function Unblock(stream: seq<u8>): Option<(seq<u8>, seq<u8>)>
    decreases |stream|
  {
    if stream == [] then None
    else if stream[0] == 0 then Some(([], stream[1..]))
    else
      var size: nat := stream[0];
      if |stream| < 1 + size then None
      else Joined(stream[1..1 + size], Unblock(stream[1 + size..]))
  }

  function Joined(block: seq<u8>, later: Option<(seq<u8>, seq<u8>)>): Option<(seq<u8>, seq<u8>)> {
    if later.None? then None else Some((block + later.value.0, later.value.1))
  }

  // ---- variable-length-code LZW (GIF89a, Appendix F) ----

  const CLEAR := 256
  const END := 257
  const FIRST_FREE := 258
  const FIRST_WIDTH := 9

  /** The table after a clear code: every byte stands for itself, the two control codes for nothing. */
  function Roots(): (t: seq<seq<u8>>)
    ensures |t| == FIRST_FREE
    ensures forall v :: 0 <= v < 256 ==> t[v] == [v]
  {
    seq(FIRST_FREE, v requires 0 <= v < FIRST_FREE => if v < 256 then [v] else [])
  }

  /** One code as the decoder met it. */
  datatype Met = Met(code: nat, width: nat, tableSize: nat)

  datatype Decoded = Decoded(output: seq<u8>, met: seq<Met>)

  /** After a code, the table grows by the previous string plus the first byte of the current one, unless it is
      full, and codes get one bit wider when the table reaches the next power of two, up to 12 bits. */
  function Grown(table: seq<seq<u8>>, previous: seq<u8>, entry: seq<u8>): seq<seq<u8>>
    requires entry != []
  {
    if |table| < 4096 then table + [previous + entry[..1]] else table
  }

  function NextWidth(width: nat, tableSize: nat): nat {
    if tableSize == Pow2(width) && width < 12 then width + 1 else width
  }

  /** Decode from a bit stream. `previous` is the last string since the clear code, empty before the first. */
  function Decode(bits: Bits, table: seq<seq<u8>>, width: nat, previous: seq<u8>): Option<Decoded>
    requires width >= 1 && |table| >= FIRST_FREE
    decreases |bits|
  {
    if |bits| < width then None else
    var code := BitsValue(bits[..width]);
    var met := Met(code, width, |table|);
    if code == END then Some(Decoded([], [met]))
    else if code == CLEAR then Prefixed([], met, Decode(bits[width..], Roots(), FIRST_WIDTH, []))
    else if previous == [] then
      if code >= |table| || table[code] == [] then None
      else Prefixed(table[code], met, Decode(bits[width..], table, width, table[code]))
    else
      var entry := if code < |table| then table[code] else previous + previous[..1];
      if code > |table| || entry == [] then None
      else
        var grown := Grown(table, previous, entry);
        Prefixed(entry, met, Decode(bits[width..], grown, NextWidth(width, |grown|), entry))
  }

  function Prefixed(entry: seq<u8>, met: Met, rest: Option<Decoded>): Option<Decoded> {
    match rest
    case None => None
    case Some(d) => Some(Decoded(entry + d.output, [met] + d.met))
  }

  /** Image data as it follows the minimum code size byte 8: sub-blocks holding one LZW stream. */
  function DecodeImage(stream: seq<u8>): Option<(Decoded, seq<u8>)> {
    match Unblock(stream)
    case None => None
    case Some((data, rest)) =>
      match Decode(ByteBits(data), Roots(), FIRST_WIDTH, [])
      case None => None
      case Some(d) => Some((d, rest))
  }

  // ---- what the encoder writes ----

  /** The widths and clear codes the encoder chooses by counting the decoder's table entries. */
  datatype Counter = Counter(nextCode: nat, width: nat, first: bool)

  const FRESH := Counter(FIRST_FREE, FIRST_WIDTH, true)

  /** Whether a clear code follows this literal. */
  predicate Full(k: Counter) { !k.first && k.nextCode + 1 >= 4096 }

  function Counted(k: Counter): Counter {
    if k.first then k.(first := false)
    else if Full(k) then FRESH
    else
      var next := k.nextCode + 1;
      Counter(next, if next >= Pow2(k.width) && k.width < 12 then k.width + 1 else k.width, false)
  }

  function LiteralBits(value: u8, k: Counter): Bits {
    CodeBits(value, k.width) + if Full(k) then CodeBits(CLEAR, k.width) else []
  }

  /** The bits for the values still to come, up to and including the end code. */
  function TailBits(values: seq<u8>, k: Counter): Bits {
    if values == [] then CodeBits(END, k.width)
    else LiteralBits(values[0], k) + TailBits(values[1..], Counted(k))
  }

  function StreamBits(values: seq<u8>): Bits { CodeBits(CLEAR, FIRST_WIDTH) + TailBits(values, FRESH) }

  /** The codes of TailBits, each with its width and the encoder's count of table entries. */
  function Written(values: seq<u8>, k: Counter): seq<Met> {
    if values == [] then [Met(END, k.width, k.nextCode)]
    else
      var later := Written(values[1..], Counted(k));
      [Met(values[0], k.width, k.nextCode)] + if Full(k) then [Met(CLEAR, k.width, k.nextCode + 1)] + later else later
  }

  function AllWritten(values: seq<u8>): seq<Met> { [Met(CLEAR, FIRST_WIDTH, FIRST_FREE)] + Written(values, FRESH) }

  /** Counters the encoder can be in: the width always covers the next free code. */
  predicate Steady(k: Counter) {
    && FIRST_FREE <= k.nextCode <= 4095
    && 9 <= k.width <= 12
    && k.nextCode < Pow2(k.width)
    && (k.width > 9 ==> k.nextCode >= Pow2(k.width - 1))
    && (k.first ==> k.nextCode == FIRST_FREE)
  }

  lemma Powers()
    ensures Pow2(8) == 256 && Pow2(9) == 512 && Pow2(10) == 1024 && Pow2(11) == 2048 && Pow2(12) == 4096
  {
    assert Pow2(4) == 16;
    assert Pow2(8) == 256;
  }

  lemma CountedSteady(k: Counter)
    requires Steady(k)
    ensures Steady(Counted(k))
  {
    Powers();
  }

  // ---- the round trip at the level of codes ----

  lemma {:induction false} CodeReadBack(code: nat, width: nat, rest: Bits)
    requires code < Pow2(width)
    ensures var b := CodeBits(code, width) + rest;
            b[..width] == CodeBits(code, width) && b[width..] == rest && BitsValue(b[..width]) == code
  {
    CodeRoundTrip(code, width);
    assert (CodeBits(code, width) + rest)[..width] == CodeBits(code, width);
    assert (CodeBits(code, width) + rest)[width..] == rest;
  }

  lemma WidthHolds(width: nat)
    requires 9 <= width <= 12
    ensures Pow2(width) >= 512
  {
    Powers();
  }

  /** A table a decoder can hold while the encoder's counter is k. */
  ghost predicate InStep(table: seq<seq<u8>>, previous: seq<u8>, k: Counter) {
    && Steady(k)
    && |table| == k.nextCode
    && (forall v :: 0 <= v < 256 ==> table[v] == [v])
    && (k.first <==> previous == [])
  }

  /** One literal read by the decoder. */
  lemma ReadLiteral(value: u8, k: Counter, table: seq<seq<u8>>, previous: seq<u8>, rest: Bits)
    requires InStep(table, previous, k)
    ensures var table' := if k.first then table else Grown(table, previous, [value]);
            var width' := if k.first then k.width else NextWidth(k.width, |table'|);
            Decode(CodeBits(value, k.width) + rest, table, k.width, previous)
            == Prefixed([value], Met(value, k.width, k.nextCode), Decode(rest, table', width', [value]))
  {
    WidthHolds(k.width);
    CodeReadBack(value, k.width, rest);
    hide CodeBits, BitsValue, Grown, NextWidth, Pow2;
  }

  /** One literal: the decoder outputs it and takes its table and width to where the encoder's count went. */
  lemma DecodeLiteral(value: u8, k: Counter, table: seq<seq<u8>>, previous: seq<u8>, rest: Bits)
    requires InStep(table, previous, k)
    ensures var table' := if k.first then table else Grown(table, previous, [value]);
            var width' := if k.first then k.width else NextWidth(k.width, |table'|);
            && Decode(CodeBits(value, k.width) + rest, table, k.width, previous)
               == Prefixed([value], Met(value, k.width, k.nextCode), Decode(rest, table', width', [value]))
            && |table'| == (if k.first then k.nextCode else k.nextCode + 1)
            && (!Full(k) ==> InStep(table', [value], Counted(k)) && width' == Counted(k).width)
            && (Full(k) ==> width' == k.width == 12)
  {
    hide Decode, CodeBits, Prefixed;
    ReadLiteral(value, k, table, previous, rest);
    LiteralInStep(value, k, table, previous);
    hide InStep, Grown, NextWidth, Counted;
  }

  lemma LiteralInStep(value: u8, k: Counter, table: seq<seq<u8>>, previous: seq<u8>)
    requires InStep(table, previous, k)
    ensures var table' := if k.first then table else Grown(table, previous, [value]);
            var width' := if k.first then k.width else NextWidth(k.width, |table'|);
            && |table'| == (if k.first then k.nextCode else k.nextCode + 1)
            && (!Full(k) ==> InStep(table', [value], Counted(k)) && width' == Counted(k).width)
            && (Full(k) ==> width' == k.width == 12)
  {
    Powers();
    CountedSteady(k);
    hide Pow2;
  }

  lemma DecodeClear(table: seq<seq<u8>>, width: nat, previous: seq<u8>, rest: Bits)
    requires 9 <= width <= 12 && |table| >= FIRST_FREE
    ensures Decode(CodeBits(CLEAR, width) + rest, table, width, previous)
         == Prefixed([], Met(CLEAR, width, |table|), Decode(rest, Roots(), FIRST_WIDTH, []))
  {
    WidthHolds(width);
    CodeReadBack(CLEAR, width, rest);
    hide CodeBits, BitsValue;
  }

  lemma DecodeEnd(table: seq<seq<u8>>, width: nat, previous: seq<u8>, rest: Bits)
    requires 9 <= width <= 12 && |table| >= FIRST_FREE
    ensures Decode(CodeBits(END, width) + rest, table, width, previous)
         == Some(Decoded([], [Met(END, width, |table|)]))
  {
    WidthHolds(width);
    CodeReadBack(END, width, rest);
    hide CodeBits, BitsValue;
  }

  /** The decoder gives the values back, meeting every code at the width and table size the encoder counted. */
  lemma {:induction false} DecodeTail(values: seq<u8>, k: Counter, table: seq<seq<u8>>, previous: seq<u8>, pad: Bits)
    requires InStep(table, previous, k)
    ensures Decode(TailBits(values, k) + pad, table, k.width, previous) == Some(Decoded(values, Written(values, k)))
    decreases |values|
  {
    hide CodeBits, BitsValue, Decode, Grown, NextWidth, Roots, Prefixed;
    if values == [] {
      DecodeEnd(table, k.width, previous, pad);
    } else {
      var v, later := values[0], values[1..];
      var rest := TailBits(later, Counted(k)) + pad;
      var after := if Full(k) then CodeBits(CLEAR, k.width) + rest else rest;
      TailBitsStep(values, k, pad);
      DecodeLiteral(v, k, table, previous, after);
      var table' := if k.first then table else Grown(table, previous, [v]);
      if Full(k) {
        DecodeClear(table', k.width, [v], rest);
        FreshInStep();
        DecodeTail(later, FRESH, Roots(), [], pad);
      } else {
        DecodeTail(later, Counted(k), table', [v], pad);
      }
      WrittenStep(values, k);
    }
  }

  /** Bits and codes of a first literal, apart from those of the rest. */
  lemma TailBitsStep(values: seq<u8>, k: Counter, pad: Bits)
    requires values != []
    ensures var rest := TailBits(values[1..], Counted(k)) + pad;
            TailBits(values, k) + pad
            == CodeBits(values[0], k.width) + if Full(k) then CodeBits(CLEAR, k.width) + rest else rest
  {
    hide CodeBits, Counted;
  }

  /** A decoded rest, with the codes of the first literal put in front. */
  lemma WrittenStep(values: seq<u8>, k: Counter)
    requires values != []
    ensures var rest := Some(Decoded(values[1..], Written(values[1..], Counted(k))));
            var cleared := if Full(k) then Prefixed([], Met(CLEAR, k.width, k.nextCode + 1), rest) else rest;
            Prefixed([values[0]], Met(values[0], k.width, k.nextCode), cleared)
              == Some(Decoded(values, Written(values, k)))
  {
    WrittenUnfolds(values, k);
    var later := Written(values[1..], Counted(k));
    var clear, literal := Met(CLEAR, k.width, k.nextCode + 1), Met(values[0], k.width, k.nextCode);
    PrefixedIs([], clear, values[1..], later);
    PrefixedIs([values[0]], literal, values[1..], if Full(k) then [clear] + later else later);
    hide Counted, Full, Written, Prefixed;
    assert [] + values[1..] == values[1..];
    assert [values[0]] + values[1..] == values;
  }

  lemma PrefixedIs(entry: seq<u8>, met: Met, output: seq<u8>, mets: seq<Met>)
    ensures Prefixed(entry, met, Some(Decoded(output, mets))) == Some(Decoded(entry + output, [met] + mets))
  {
  }

  lemma WrittenUnfolds(values: seq<u8>, k: Counter)
    requires values != []
    ensures var later := Written(values[1..], Counted(k));
            Written(values, k)
            == [Met(values[0], k.width, k.nextCode)] +
               if Full(k) then [Met(CLEAR, k.width, k.nextCode + 1)] + later else later
  {
    hide Counted, Full;
  }

  lemma FreshInStep()
    ensures InStep(Roots(), [], FRESH)
  {
    Powers();
  }

  lemma DecodeStream(values: seq<u8>, pad: Bits)
    ensures Decode(StreamBits(values) + pad, Roots(), FIRST_WIDTH, []) == Some(Decoded(values, AllWritten(values)))
  {
    hide CodeBits, BitsValue, Decode, Roots;
    FreshInStep();
    assert StreamBits(values) + pad == CodeBits(CLEAR, FIRST_WIDTH) + (TailBits(values, FRESH) + pad);
    DecodeClear(Roots(), FIRST_WIDTH, [], TailBits(values, FRESH) + pad);
    DecodeTail(values, FRESH, Roots(), [], pad);
    assert [] + values == values;
  }

  /** Every code fits its width, widths stay within 12 bits, and a literal never meets a full table, so no
      entry is ever refused. */
  lemma {:induction false} WrittenFits(values: seq<u8>, k: Counter)
    requires Steady(k)
    ensures forall m <- Written(values, k) ::
              && 9 <= m.width <= 12 && m.code < Pow2(m.width) && m.tableSize <= 4096
              && (m.code < 256 ==> m.tableSize < 4096)
    decreases |values|
  {
    Powers();
    WidthHolds(k.width);
    if values != [] {
      CountedSteady(k);
      WrittenFits(values[1..], Counted(k));
    }
  }

  /** The same of a whole stream, whatever the values. */
  lemma StreamFits(values: seq<u8>)
    ensures forall m <- AllWritten(values) ::
              && 9 <= m.width <= 12 && m.code < Pow2(m.width) && m.tableSize <= 4096
              && (m.code < 256 ==> m.tableSize < 4096)
  {
    Powers();
    WrittenFits(values, FRESH);
    hide Written;
  }

  /** Control codes in the numbers of the format: 257 last, and 256 whenever the table has 4096 entries, each time
      emptying it to 258 and starting over with nine bits. */
  ghost predicate Controlled(met: seq<Met>) {
    && met != [] && met[|met| - 1].code == 257
    && (forall k :: 0 <= k < |met| - 1 ==> met[k].code < 256 || met[k] == Met(256, 12, 4096))
    && (forall k :: 0 < k < |met| && met[k - 1].code == 256 ==> met[k].width == 9 && met[k].tableSize == 258)
  }

  /** A stream starts with 256 at nine bits; the rest is controlled, from an empty table on. */
  lemma ControlCodes(values: seq<u8>)
    ensures var met := AllWritten(values);
            && met[0] == Met(256, 9, 258) && met[1..] == Written(values, FRESH) && Controlled(met[1..])
            && met[1].width == 9 && met[1].tableSize == 258
  {
    Powers();
    ControlsWritten(values, FRESH);
    hide Written, Controlled, Pow2;
    assert AllWritten(values)[1..] == Written(values, FRESH);
  }

  lemma {:induction false} ControlsWritten(values: seq<u8>, k: Counter)
    requires Steady(k)
    ensures var met := Written(values, k);
            met != [] && Controlled(met) && met[0].width == k.width && met[0].tableSize == k.nextCode
  {
    if values != [] {
      CountedSteady(k);
      ControlsWritten(values[1..], Counted(k));
      FullMeans(k);
      var later := Written(values[1..], Counted(k));
      var clear, literal := Met(CLEAR, k.width, k.nextCode + 1), Met(values[0], k.width, k.nextCode);
      if Full(k) {
        ControlledOn(clear, later);
        ControlledOn(literal, [clear] + later);
      } else {
        ControlledOn(literal, later);
      }
      hide Steady, Controlled;
    }
  }

  lemma ControlledOn(m: Met, met: seq<Met>)
    requires Controlled(met)
    requires m.code < 256 || (m == Met(256, 12, 4096) && met[0].width == 9 && met[0].tableSize == 258)
    ensures Controlled([m] + met)
  {
    var all := [m] + met;
    forall k | 0 < k < |all| && all[k - 1].code == 256 ensures all[k].width == 9 && all[k].tableSize == 258 {
      assert all[k] == met[k - 1];
    }
  }

  lemma FullMeans(k: Counter)
    requires Steady(k)
    ensures Full(k) ==> k.width == 12 && k.nextCode + 1 == 4096 && Counted(k).width == 9 && Counted(k).nextCode == 258
  {
    Powers();
  }

  // ---- packing bits into bytes ----

  /** Appending a code above the bits already buffered. */
  lemma {:induction false} CodeBitsAppend(low: nat, count: nat, code: nat, width: nat)
    requires low < Pow2(count)
    ensures CodeBits(low + code * Pow2(count), count + width) == CodeBits(low, count) + CodeBits(code, width)
    decreases count
  {
    if count > 0 {
      var p := Pow2(count - 1);
      assert code * Pow2(count) == 2 * (code * p);
      assert (low + code * Pow2(count)) / 2 == low / 2 + code * p && (low + code * Pow2(count)) % 2 == low % 2;
      CodeBitsAppend(low / 2, count - 1, code, width);
    }
  }

  /** The lowest byte comes off the front. */
  lemma CodeBitsByte(buffer: nat, count: nat)
    requires count >= 8
    ensures CodeBits(buffer, count) == CodeBits(buffer % 256, 8) + CodeBits(buffer / 256, count - 8)
  {
    Powers();
    hide CodeBits, Pow2;
    CodeBitsAppend(buffer % 256, 8, buffer / 256, count - 8);
  }

  lemma {:induction false} Pow2Add(a: nat, b: nat)
    ensures Pow2(a + b) == Pow2(a) * Pow2(b)
    decreases a
  {
    if a > 0 {
      Pow2Add(a - 1, b);
      assert Pow2(a + b) == 2 * (Pow2(a - 1) * Pow2(b));
    }
  }

  lemma ByteBitsAppend(bytes: seq<u8>, byte: u8)
    ensures ByteBits(bytes + [byte]) == ByteBits(bytes) + CodeBits(byte, 8)
  {
    assert (bytes + [byte])[..|bytes|] == bytes;
  }

  /** A buffered code stays below the next power of two. */
  lemma BufferBound(low: nat, count: nat, code: nat, width: nat)
    requires low < Pow2(count) && code < Pow2(width)
    ensures low + code * Pow2(count) < Pow2(count + width)
  {
    Pow2Add(width, count);
    MulMonotone(code + 1, Pow2(width), Pow2(count));
    assert (code + 1) * Pow2(count) == code * Pow2(count) + Pow2(count);
  }

  /** The packing state of the encoder: whole bytes, and a buffer of bits not yet flushed. */
  class BitPacker {
    var packed: seq<u8>
    var bitBuffer: nat
    var bitCount: nat

    predicate Valid()
      reads this
    {
      bitBuffer < Pow2(bitCount) && bitCount < 8
    }

    /** Every bit written so far. */
    function Written(): Bits
      reads this
    {
      ByteBits(packed) + CodeBits(bitBuffer, bitCount)
    }

    constructor ()
      ensures Valid() && Written() == []
    {
      packed, bitBuffer, bitCount := [], 0, 0;
    }

    method WriteCode(code: nat, width: nat)
      requires Valid() && code < Pow2(width)
      modifies this
      ensures Valid() && Written() == old(Written()) + CodeBits(code, width)
    {
      hide CodeBits, Pow2;
      CodeBitsAppend(bitBuffer, bitCount, code, width);
      BufferBound(bitBuffer, bitCount, code, width);
      // The buffer holds fewer than bitCount bits, so combining with a shifted code is addition.
      bitBuffer := bitBuffer + code * Pow2(bitCount);
      bitCount := bitCount + width;
      assert Written() == old(Written()) + CodeBits(code, width);
      while bitCount >= 8
        invariant bitBuffer < Pow2(bitCount)
        invariant Written() == old(Written()) + CodeBits(code, width)
      {
        CodeBitsByte(bitBuffer, bitCount);
        ByteBitsAppend(packed, bitBuffer % 256);
        Pow2Byte(bitCount);
        packed := packed + [bitBuffer % 256];
        bitBuffer := bitBuffer / 256;
        bitCount := bitCount - 8;
      }
    }

    /** Flush what is left, padded with zero bits. */
    method Finish() returns (padding: nat)
      requires Valid()
      modifies this
      ensures padding < 8 && ByteBits(packed) == old(Written()) + CodeBits(0, padding)
    {
      hide ByteBits, Pow2;
      padding := 0;
      if bitCount > 0 {
        padding := 8 - bitCount;
        FlushedByte(packed, bitBuffer, bitCount);
        packed := packed + [bitBuffer % 256];
      }
    }
  }

  lemma FlushedByte(packed: seq<u8>, buffer: nat, count: nat)
    requires 0 < count < 8 && buffer < Pow2(count)
    ensures ByteBits(packed + [buffer % 256]) == ByteBits(packed) + CodeBits(buffer, count) + CodeBits(0, 8 - count)
  {
    hide ByteBits, CodeBits;
    Powers();
    PowerMonotone(count, 8);
    hide Pow2;
    ByteBitsAppend(packed, buffer % 256);
    CodeBitsAppend(buffer, count, 0, 8 - count);
  }

  lemma Pow2Byte(count: nat)
    requires count >= 8
    ensures Pow2(count) == 256 * Pow2(count - 8)
  {
    Powers();
    Pow2Add(8, count - 8);
  }

  lemma {:induction false} PowerMonotone(a: nat, b: nat)
    requires a <= b
    ensures Pow2(a) <= Pow2(b)
    decreases b - a
  {
    if a < b {
      PowerMonotone(a + 1, b);
    }
  }

  // ---- the encoder ----

  /** Data sub-blocks of at most 255 bytes and a terminator. */
  function Blocked(payload: seq<u8>): seq<u8>
    decreases |payload|
  {
    if payload == [] then [0]
    else
      var n := Min(255, |payload|);
      [n as u8] + payload[..n] + Blocked(payload[n..])
  }

  lemma UnblockStep(chunk: seq<u8>, tail: seq<u8>)
    requires 1 <= |chunk| <= 255
    ensures Unblock([|chunk| as u8] + chunk + tail) == Joined(chunk, Unblock(tail))
  {
    var stream := [|chunk| as u8] + chunk + tail;
    assert stream[1..1 + |chunk|] == chunk && stream[1 + |chunk|..] == tail;
  }

  lemma UnblockEnd(rest: seq<u8>)
    ensures Unblock([0] + rest) == Some(([], rest)) && Blocked([]) == [0]
  {
    assert ([0] + rest)[1..] == rest;
  }

  /** Reading the blocks gives the payload back and leaves whatever follows. */
  lemma {:induction false} UnblockBlocked(payload: seq<u8>, rest: seq<u8>)
    ensures Unblock(Blocked(payload) + rest) == Some((payload, rest))
    decreases |payload|
  {
    hide Unblock, Blocked;
    if payload == [] {
      UnblockEnd(rest);
    } else {
      var n := Min(255, |payload|);
      var chunk, later := payload[..n], payload[n..];
      UnblockBlocked(later, rest);
      UnblockStep(chunk, Blocked(later) + rest);
      assert payload == chunk + later;
      BlockedStep(payload, later, chunk);
      var head := [|chunk| as u8] + chunk;
      assert head + Blocked(later) + rest == head + (Blocked(later) + rest);
    }
  }

  method PackSubblocks(payload: seq<u8>) returns (out: seq<u8>)
    ensures out == Blocked(payload)
  {
    hide Blocked;
    out := [];
    var offset: nat := 0;
    assert payload[0..] == payload;
    while offset < |payload|
      invariant out + Blocked(payload[Min(offset, |payload|)..]) == Blocked(payload)
    {
      var end := Min(offset + 255, |payload|);
      var chunk := payload[offset..end];
      assert payload[offset..] == chunk + payload[end..];
      BlockedStep(payload[offset..], payload[end..], chunk);
      out := out + [|chunk| as u8];
      out := out + chunk;
      offset := offset + 255;
    }
    assert payload[|payload|..] == [];
    UnblockEnd([]);
    out := out + [0];
  }

  lemma BlockedStep(left: seq<u8>, later: seq<u8>, chunk: seq<u8>)
    requires left == chunk + later && 1 <= |chunk| == Min(255, |left|)
    ensures Blocked(left) == [|chunk| as u8] + chunk + Blocked(later)
  {
    assert left[..|chunk|] == chunk && left[|chunk|..] == later;
  }

  /** Writing the next literal moves it from what is to come to what is written. */
  lemma TailStep(written: Bits, indices: seq<u8>, i: nat, k: Counter)
    requires i < |indices|
    ensures written + TailBits(indices[i..], k)
         == written + LiteralBits(indices[i], k) + TailBits(indices[i + 1..], Counted(k))
  {
    hide LiteralBits, Counted;
    assert indices[i..][0] == indices[i] && indices[i..][1..] == indices[i + 1..];
  }

  /** What a finished payload means to a decoder. */
  lemma PayloadDecodes(indices: seq<u8>, payload: seq<u8>, padding: nat, rest: seq<u8>)
    requires ByteBits(payload) == StreamBits(indices) + CodeBits(0, padding)
    ensures DecodeImage(Blocked(payload) + rest) == Some((Decoded(indices, AllWritten(indices)), rest))
  {
    hide CodeBits, ByteBits, Decode, Written, Unblock, StreamBits, Blocked;
    DecodeStream(indices, CodeBits(0, padding));
    UnblockBlocked(payload, rest);
  }

  /** The GIF encoder: whatever follows its output in the file, an independent decoder reads back exactly the
      indices, and meets every code at the width and table size the encoder counted. */
  method EncodeIndices(indices: seq<u8>) returns (stream: seq<u8>)
    ensures forall rest: seq<u8> ::
              DecodeImage(stream + rest) == Some((Decoded(indices, AllWritten(indices)), rest))
  {
    hide CodeBits, ByteBits, DecodeImage, Written, TailBits, Blocked;
    var nextCode: nat, codeSize: nat, firstSymbol := FIRST_FREE, FIRST_WIDTH, true;
    var packer := new BitPacker();
    Powers();
    hide Pow2;
    packer.WriteCode(CLEAR, codeSize);
    assert packer.Written() == CodeBits(CLEAR, codeSize);
    assert indices[0..] == indices;
    for i := 0 to |indices|
      invariant fresh(packer) && packer.Valid()
      invariant Steady(Counter(nextCode, codeSize, firstSymbol))
      invariant packer.Written() + TailBits(indices[i..], Counter(nextCode, codeSize, firstSymbol))
                == StreamBits(indices)
    {
      ghost var k := Counter(nextCode, codeSize, firstSymbol);
      ghost var before := packer.Written();
      TailStep(before, indices, i, k);
      WidthHolds(codeSize);
      CountedSteady(k);
      var value := indices[i];
      packer.WriteCode(value, codeSize);
      if firstSymbol {
        firstSymbol := false;
      } else {
        nextCode := nextCode + 1;
        if nextCode >= 4096 {
          packer.WriteCode(CLEAR, codeSize);
          nextCode, codeSize, firstSymbol := FIRST_FREE, FIRST_WIDTH, true;
        } else if nextCode >= Pow2(codeSize) && codeSize < 12 {
          codeSize := codeSize + 1;
        }
      }
      assert packer.Written() == before + LiteralBits(value, k);
      assert Counter(nextCode, codeSize, firstSymbol) == Counted(k);
      hide Counted, LiteralBits, Steady;
    }
    WidthHolds(codeSize);
    assert indices[|indices|..] == [];
    TailEnd(Counter(nextCode, codeSize, firstSymbol));
    packer.WriteCode(END, codeSize);
    var padding := packer.Finish();
    stream := PackSubblocks(packer.packed);
    forall rest: seq<u8>
      ensures DecodeImage(stream + rest) == Some((Decoded(indices, AllWritten(indices)), rest))
    {
      PayloadDecodes(indices, packer.packed, padding, rest);
    }
  }

  lemma TailEnd(k: Counter)
    ensures TailBits([], k) == CodeBits(END, k.width)
  {
  }

  // ---- frame delays ----

  const FPS_NUM := 59_727
  const CENTISECONDS_NUM := 100 * 1_000

  function Sum(s: seq<nat>): nat {
    if s == [] then 0 else Sum(s[..|s| - 1]) + s[|s| - 1]
  }

  /** The carried remainder makes frame delays exact in total: after any number of frames they add up to the
      true duration rounded down, and the substitute delay of 1 is never needed. */
  method FrameDelays(frames: nat) returns (delays: seq<nat>)
    ensures |delays| == frames
    ensures forall n :: 0 <= n <= frames ==> Sum(delays[..n]) == n * 100_000 / 59_727
    ensures forall d <- delays :: d == 1 || d == 2
  {
    delays := [];
    var remainder: nat := 0;
    for i := 0 to frames
      invariant |delays| == i && remainder < FPS_NUM
      invariant Sum(delays) * FPS_NUM + remainder == i * CENTISECONDS_NUM
      invariant forall n :: 0 <= n <= i ==> Sum(delays[..n]) == n * CENTISECONDS_NUM / FPS_NUM
      invariant forall d <- delays :: d == 1 || d == 2
    {
      remainder := remainder + CENTISECONDS_NUM;
      var delay := remainder / FPS_NUM;
      remainder := remainder % FPS_NUM;
      if delay == 0 {
        delay := 1;
      }
      ghost var before := delays;
      delays := delays + [delay];
      assert delays[..i] == before && delays[..i + 1] == delays;
      assert forall n :: 0 <= n <= i ==> delays[..n] == before[..n];
      DivUnique(FPS_NUM, Sum(delays), remainder);
    }
  }
}
