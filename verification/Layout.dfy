/**
 Where everything in the shared region is (`hm2_region_layout`), for any number
 of signals: the fixed part, the block that describes the rest, the descriptor
 table, and two parity halves of each value block.
 */
module Layout {
  import opened Options
  import opened Words

  const LINE: nat := 64

  // sizeof(cnc_outboard_shm): the header line, `cycle`, two inputs of 1056
  // bytes, `response`, two outputs of 768, `futex_word` and `state`, each of
  // the single words on a line of its own.
  const FIXED: nat := 64 + 64 + 2 * 1056 + 64 + 2 * 768 + 64 + 64
  // sizeof(cnc_outboard_signal_block), of a descriptor and of a value.
  const BLOCK: nat := 80
  const DESC: nat := 96
  const VALUE: nat := 8

  function ToLine(bytes: nat): nat { ((bytes + LINE - 1) / LINE) * LINE }

  // The counts are stored as 32-bit words, the rest as 64-bit ones.
  datatype SignalBlock = SignalBlock(
    count: nat, inputCount: nat, outputCount: nat, descSize: nat,
    tableOffset: nat, inputOffset: nat, outputOffset: nat,
    inputStride: nat, outputStride: nat, regionSize: nat)

  function RegionLayout(inputs: nat, outputs: nat): SignalBlock {
    var count := inputs + outputs;
    if count == 0 then
      SignalBlock(0, 0, 0, 0, 0, 0, 0, 0, 0, FIXED)
    else
      var tableOffset := ToLine(FIXED + BLOCK);
      var inputOffset := ToLine(tableOffset + count * DESC);
      var inputStride := ToLine(inputs * VALUE);
      var outputOffset := inputOffset + 2 * inputStride;
      var outputStride := ToLine(outputs * VALUE);
      SignalBlock(count % UINT32, inputs % UINT32, outputs % UINT32, DESC,
                  tableOffset, inputOffset, outputOffset, inputStride, outputStride,
                  outputOffset + 2 * outputStride)
  }

  // The byte a value half starts at, or no half when there are no signals.
  function ValueHalf(b: SignalBlock, offset: nat, stride: nat, cycle: nat): Option<nat> {
    if b.count == 0 then None else Some(offset + (cycle % 2) * stride)
  }

  // --- Soundness ------------------------------------------------------------

  lemma ToLineIsLeast(bytes: nat)
    ensures ToLine(bytes) % LINE == 0 && bytes <= ToLine(bytes) < bytes + LINE
    ensures forall m: nat :: m * LINE >= bytes ==> m * LINE >= ToLine(bytes)
  {
    var q := (bytes + LINE - 1) / LINE;
    forall m: nat | m * LINE >= bytes
      ensures m * LINE >= ToLine(bytes)
    {
      assert m >= q;
    }
  }

  lemma Aligned(a: nat, b: nat)
    requires a % LINE == b % LINE == 0
    ensures (a + 2 * b) % LINE == 0
  {
    assert a == LINE * (a / LINE) && b == LINE * (b / LINE);
    assert a + 2 * b == LINE * (a / LINE + 2 * (b / LINE));
  }

  // What the offsets are, free of the rounding that made them.
  ghost predicate InOrder(b: SignalBlock, inputs: nat, outputs: nat) {
    && FIXED + BLOCK <= b.tableOffset
    && b.tableOffset + (inputs + outputs) * DESC <= b.inputOffset
    && inputs * VALUE <= b.inputStride && outputs * VALUE <= b.outputStride
    && b.outputOffset == b.inputOffset + 2 * b.inputStride
    && b.regionSize == b.outputOffset + 2 * b.outputStride
  }

  ghost predicate OnLines(b: SignalBlock) {
    && b.tableOffset % LINE == b.inputOffset % LINE == b.inputStride % LINE == 0
    && b.outputOffset % LINE == b.outputStride % LINE == b.regionSize % LINE == 0
  }

  lemma Offsets(inputs: nat, outputs: nat)
    requires inputs + outputs > 0
    ensures InOrder(RegionLayout(inputs, outputs), inputs, outputs)
    ensures OnLines(RegionLayout(inputs, outputs))
  {
    var b := RegionLayout(inputs, outputs);
    ToLineIsLeast(FIXED + BLOCK);
    ToLineIsLeast(b.tableOffset + (inputs + outputs) * DESC);
    ToLineIsLeast(inputs * VALUE);
    ToLineIsLeast(outputs * VALUE);
    Aligned(b.inputOffset, b.inputStride);
    Aligned(b.outputOffset, b.outputStride);
  }

  // A stretch of bytes of the region.
  datatype Extent = Extent(start: nat, end: nat)

  // The parts of the region, in order.
  function Parts(inputs: nat, outputs: nat): seq<Extent> {
    var b := RegionLayout(inputs, outputs);
    if inputs + outputs == 0 then [Extent(0, FIXED)]
    else [
      Extent(0, FIXED),
      Extent(FIXED, FIXED + BLOCK),
      Extent(b.tableOffset, b.tableOffset + (inputs + outputs) * DESC),
      Extent(b.inputOffset, b.inputOffset + inputs * VALUE),
      Extent(b.inputOffset + b.inputStride, b.inputOffset + b.inputStride + inputs * VALUE),
      Extent(b.outputOffset, b.outputOffset + outputs * VALUE),
      Extent(b.outputOffset + b.outputStride, b.outputOffset + b.outputStride + outputs * VALUE)]
  }

  // No two parts overlap and all are inside the region; what the values need
  // aligned to a line is; without signals the region is the fixed part alone.
  lemma LayoutIsSound(inputs: nat, outputs: nat)
    ensures
      var b, parts := RegionLayout(inputs, outputs), Parts(inputs, outputs);
      && (forall i, j :: 0 <= i < j < |parts| ==> parts[i].end <= parts[j].start)
      && (forall i :: 0 <= i < |parts| ==> parts[i].start <= parts[i].end <= b.regionSize)
      && b.tableOffset % LINE == b.inputOffset % LINE == b.outputOffset % LINE == 0
      && b.inputStride % LINE == b.outputStride % LINE == b.regionSize % LINE == 0
      && (inputs + outputs == 0 <==> b.regionSize == FIXED)
  {
    if inputs + outputs > 0 {
      Offsets(inputs, outputs);
      var parts := Parts(inputs, outputs);
      forall i | 0 <= i < |parts| - 1
        ensures InTurn(parts, i)
      {}
      Increasing(parts);
    }
  }

  // Part `i` ends before the next begins.
  predicate InTurn(parts: seq<Extent>, i: nat)
    requires i + 1 < |parts|
  {
    parts[i].end <= parts[i + 1].start
  }

  lemma {:induction false} Increasing(parts: seq<Extent>)
    requires forall i :: 0 <= i < |parts| ==> parts[i].start <= parts[i].end
    requires forall i {:trigger InTurn(parts, i)} :: 0 <= i < |parts| - 1 ==> InTurn(parts, i)
    ensures forall i, j :: 0 <= i < j < |parts| ==> parts[i].end <= parts[j].start
  {
    if |parts| <= 1 {
    } else {
      var n := |parts| - 1;
      forall i | 0 <= i < n - 1 ensures InTurn(parts[..n], i) {
        assert InTurn(parts, i);
      }
      Increasing(parts[..n]);
      assert InTurn(parts, n - 1);
      forall i | 0 <= i < n ensures parts[i].end <= parts[n].start {
        assert i < n - 1 ==> parts[..n][i].end <= parts[..n][n - 1].start;
      }
    }
  }

  // The header can carry the counts, and no size overflows 64 bits, whenever
  // the total fits its 32-bit word. Beyond, a total that is a multiple of 2^32
  // reads as no signals at all.
  lemma CountsFit(inputs: nat, outputs: nat)
    ensures inputs + outputs < UINT32 ==>
      var b := RegionLayout(inputs, outputs);
      && b.count == inputs + outputs && b.inputCount == inputs && b.outputCount == outputs
      && b.regionSize < TWO64
    ensures RegionLayout(inputs, outputs).count == 0 <==> (inputs + outputs) % UINT32 == 0
  {
    if 0 < inputs + outputs < UINT32 {
      SmallWord(inputs + outputs);
      SmallWord(inputs);
      SmallWord(outputs);
      SizeFits(inputs, outputs);
    }
  }

  lemma SmallWord(x: nat)
    requires x < UINT32
    ensures x % UINT32 == x
  {}

  lemma SizeFits(inputs: nat, outputs: nat)
    requires 0 < inputs + outputs < UINT32
    ensures RegionLayout(inputs, outputs).regionSize < TWO64
  {
    var b := RegionLayout(inputs, outputs);
    Bound(FIXED + BLOCK);
    Bound(b.tableOffset + (inputs + outputs) * DESC);
    Bound(inputs * VALUE);
    Bound(outputs * VALUE);
  }

  lemma Bound(bytes: nat)
    ensures ToLine(bytes) < bytes + LINE
  {}

  // --- Cells ----------------------------------------------------------------

  // One value: which block, which parity, which index within its direction.
  datatype Cell = Cell(output: bool, cycle: nat, index: nat)

  predicate IsCell(inputs: nat, outputs: nat, c: Cell) {
    c.index < if c.output then outputs else inputs
  }

  // Its first byte, through `value_half`.
  function Address(inputs: nat, outputs: nat, c: Cell): (a: Option<nat>)
    requires 0 < inputs + outputs < UINT32
  {
    var b := RegionLayout(inputs, outputs);
    var half := if c.output then ValueHalf(b, b.outputOffset, b.outputStride, c.cycle)
                else ValueHalf(b, b.inputOffset, b.inputStride, c.cycle);
    match half
    case None => None
    case Some(start) => Some(start + c.index * VALUE)
  }

  // The first byte of the half a cell is in, without the product.
  function HalfStart(b: SignalBlock, c: Cell): nat {
    if c.output then (if c.cycle % 2 == 0 then b.outputOffset else b.outputOffset + b.outputStride)
    else (if c.cycle % 2 == 0 then b.inputOffset else b.inputOffset + b.inputStride)
  }

  lemma AddressIs(inputs: nat, outputs: nat, c: Cell)
    requires 0 < inputs + outputs < UINT32
    ensures Address(inputs, outputs, c)
         == Some(HalfStart(RegionLayout(inputs, outputs), c) + c.index * VALUE)
  {
    CountsFit(inputs, outputs);
    var b := RegionLayout(inputs, outputs);
    HalfIs(b.inputOffset, b.inputStride, c.cycle);
    HalfIs(b.outputOffset, b.outputStride, c.cycle);
  }

  lemma HalfIs(offset: nat, stride: nat, cycle: nat)
    ensures offset + (cycle % 2) * stride == if cycle % 2 == 0 then offset else offset + stride
  {}

  // Every cell is eight aligned bytes of the region, past the table.
  lemma CellIsInside(inputs: nat, outputs: nat, c: Cell)
    requires 0 < inputs + outputs < UINT32 && IsCell(inputs, outputs, c)
    ensures Address(inputs, outputs, c).Some?
    ensures
      var b, a := RegionLayout(inputs, outputs), Address(inputs, outputs, c).value;
      && a % VALUE == 0
      && b.tableOffset + (inputs + outputs) * DESC <= a && a + VALUE <= b.regionSize
  {
    AddressIs(inputs, outputs, c);
    Offsets(inputs, outputs);
    SlotIsInside(RegionLayout(inputs, outputs), inputs, outputs, c);
  }

  lemma SlotIsInside(b: SignalBlock, inputs: nat, outputs: nat, c: Cell)
    requires InOrder(b, inputs, outputs) && IsCell(inputs, outputs, c)
    requires OnLines(b)
    ensures
      var a := HalfStart(b, c) + c.index * VALUE;
      && a % VALUE == 0
      && b.tableOffset + (inputs + outputs) * DESC <= a && a + VALUE <= b.regionSize
  {
    OnValues(b.inputOffset, b.inputStride, c.index);
    OnValues(b.outputOffset, b.outputStride, c.index);
  }

  lemma OnValues(offset: nat, stride: nat, index: nat)
    requires offset % LINE == stride % LINE == 0
    ensures (offset + index * VALUE) % VALUE == (offset + stride + index * VALUE) % VALUE == 0
  {
    var i, j := offset / LINE, stride / LINE;
    assert offset == LINE * i && stride == LINE * j;
    OnValue(offset + index * VALUE, 8 * i + index);
    OnValue(offset + stride + index * VALUE, 8 * i + 8 * j + index);
  }

  lemma OnValue(a: nat, k: nat)
    requires a == VALUE * k
    ensures a % VALUE == 0
  {}

  // Cells that differ in direction, parity or index have no byte in common.
  lemma CellsAreDisjoint(inputs: nat, outputs: nat, c: Cell, e: Cell)
    requires 0 < inputs + outputs < UINT32
    requires IsCell(inputs, outputs, c) && IsCell(inputs, outputs, e)
    ensures Address(inputs, outputs, c).Some? && Address(inputs, outputs, e).Some?
    ensures
      var a, a' := Address(inputs, outputs, c).value, Address(inputs, outputs, e).value;
      if c.output == e.output && c.cycle % 2 == e.cycle % 2 && c.index == e.index then a == a'
      else a + VALUE <= a' || a' + VALUE <= a
  {
    AddressIs(inputs, outputs, c);
    AddressIs(inputs, outputs, e);
    Offsets(inputs, outputs);
    if !(c.output == e.output && c.cycle % 2 == e.cycle % 2 && c.index == e.index) {
      SlotsAreDisjoint(RegionLayout(inputs, outputs), inputs, outputs, c, e);
    }
  }

  lemma SlotsAreDisjoint(b: SignalBlock, inputs: nat, outputs: nat, c: Cell, e: Cell)
    requires InOrder(b, inputs, outputs)
    requires IsCell(inputs, outputs, c) && IsCell(inputs, outputs, e)
    requires !(c.output == e.output && c.cycle % 2 == e.cycle % 2 && c.index == e.index)
    ensures
      var a, a' := HalfStart(b, c) + c.index * VALUE, HalfStart(b, e) + e.index * VALUE;
      a + VALUE <= a' || a' + VALUE <= a
  {}
}
