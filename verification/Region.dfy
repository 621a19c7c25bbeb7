/**
 The shared region from this side (`host/region.c`): the value blocks as one
 flat memory addressed through the layout, the counters, and the calls a cycle
 makes. Each call is one process's own steps; what the other may do between
 them is the channel's business.
 */
module Region {
  import opened Layout
  import opened Words
  import HostLoop

  datatype Freshness = Fresh | Stale | Never

  // The two words `hm2_region_set_bus` writes into a half's fixed input.
  datatype Bus = Bus(state: nat, fault: nat)

  // Two names of one place: the cycle only counts by its parity.
  predicate SameCell(c: Cell, e: Cell) {
    c.output == e.output && c.cycle % 2 == e.cycle % 2 && c.index == e.index
  }

  // Whether the first `parities` halves of output `index` include this place.
  predicate SeededBy(c: Cell, index: nat, parities: nat) {
    c.output && c.index == index && c.cycle % 2 < parities
  }

  lemma SeededOneMore(index: nat, parity: nat)
    requires parity < 2
    ensures forall c :: SeededBy(c, index, parity + 1) <==>
                        SeededBy(c, index, parity) || SameCell(Cell(true, parity, index), c)
    ensures forall c :: SeededBy(c, index, 2) <==> c.output && c.index == index
  {}

  // The first `count` inputs of the half of this cycle.
  predicate FilledBy(c: Cell, cycle: nat, count: nat) {
    !c.output && c.cycle % 2 == cycle % 2 && c.index < count
  }

  // What the region holds, value by value.
  type Values = Cell -> real

  // The place in memory of a value, from its byte address.
  function Word(inputs: nat, outputs: nat, c: Cell): nat
    requires inputs + outputs < UINT32 && IsCell(inputs, outputs, c)
  {
    AddressIs(inputs, outputs, c);
    Address(inputs, outputs, c).value / VALUE
  }

  // The memory holds these values, each at its own place.
  ghost predicate Holds(inputs: nat, outputs: nat, memory: seq<real>, values: Values)
    requires inputs + outputs < UINT32
  {
    forall c :: IsCell(inputs, outputs, c) ==>
      Word(inputs, outputs, c) < |memory| && memory[Word(inputs, outputs, c)] == values(c)
  }

  class SharedRegion {
    const inputs: nat
    const outputs: nat
    // The object's bytes from 0, as eight-byte values.
    const memory: array<real>
    const bus: array<Bus>
    var cycle: nat
    var response: nat
    var futexWord: nat
    var overruns: nat
    ghost var at: Values

    ghost predicate Valid()
      reads this, memory
    {
      && inputs + outputs < UINT32
      && VALUE * memory.Length == RegionLayout(inputs, outputs).regionSize
      && bus.Length == 2
      && futexWord < UINT32
      && Holds(inputs, outputs, memory[..], at)
    }

    // A new object is zero everywhere (`ftruncate` of an empty one).
    constructor (inputs: nat, outputs: nat)
      requires inputs + outputs < UINT32
      ensures Valid() && fresh(memory) && fresh(bus)
      ensures this.inputs == inputs && this.outputs == outputs
      ensures cycle == response == futexWord == overruns == 0
      ensures forall c :: at(c) == 0.0
    {
      LayoutIsSound(inputs, outputs);
      var size := RegionLayout(inputs, outputs).regionSize;
      LineIsValues(size);
      this.inputs, this.outputs := inputs, outputs;
      memory := new real[size / VALUE](_ => 0.0);
      bus := new Bus[2](_ => Bus(0, 0));
      cycle, response, futexWord, overruns := 0, 0, 0, 0;
      at := _ => 0.0;
      new;
      ZeroHolds(inputs, outputs, memory[..], at);
    }

    // One value stored: no other value of either block changes.
    method Store(c: Cell, value: real)
      requires Valid() && IsCell(inputs, outputs, c)
      modifies memory, this`at
      ensures Valid() && forall e :: at(e) == if SameCell(c, e) then value else old(at)(e)
    {
      CellIsWord(inputs, outputs, c, memory.Length);
      StoredHolds(inputs, outputs, memory[..], at, c, value);
      ghost var before, now := at, memory[..][Word(inputs, outputs, c) := value];
      memory[Word(inputs, outputs, c)] := value;
      at := e => if SameCell(c, e) then value else before(e);
      assert memory[..] == now;
    }

    // Both halves of one output; an index past the outputs writes nothing.
    method SeedOutput(index: nat, value: real)
      requires Valid()
      modifies memory, this`at
      ensures Valid()
      ensures forall c :: at(c) == if SeededBy(c, index, 2) && index < outputs then value else old(at)(c)
    {
      if index >= outputs {
        return;
      }
      for parity := 0 to 2
        invariant Valid()
        invariant forall c :: at(c) == if SeededBy(c, index, parity) then value else old(at)(c)
      {
        SeededOneMore(index, parity);
        Store(Cell(true, parity, index), value);
      }
    }

    // The guard: zero exactly when a cycle is published that the core has not
    // answered, and otherwise the next, which is in the other half.
    method Begin() returns (next: nat)
      requires Valid()
      modifies this`overruns
      ensures Valid()
      ensures next == 0 <==> 1 <= cycle && response < cycle
      ensures next == 0 <==> HostLoop.Behind(cycle, response)
      ensures next != 0 ==> next == cycle + 1 && next % 2 != cycle % 2
      ensures overruns == old(overruns) + if next == 0 then 1 else 0
    {
      next := cycle + 1;
      if next >= 2 {
        if response + 1 < next {
          overruns := overruns + 1;
          next := 0;
        }
      }
    }

    // The pins into this cycle's half, one after another, between `Begin` and
    // `Publish`: every value of the cycle, and of no other.
    method FillInputs(cycle: nat, values: array<real>)
      requires Valid() && values.Length == inputs && values != memory
      modifies memory, this`at
      ensures Valid()
      ensures forall c :: at(c) == if FilledBy(c, cycle, inputs) then values[c.index] else old(at)(c)
    {
      for i := 0 to values.Length
        invariant Valid()
        invariant forall c :: at(c) == if FilledBy(c, cycle, i) then values[c.index] else old(at)(c)
      {
        Store(Cell(false, cycle, i), values[i]);
      }
    }

    method SetBus(cycle: nat, state: nat, fault: nat)
      requires Valid()
      modifies bus
      ensures Valid() && bus[cycle % 2] == Bus(state, fault)
      ensures bus[(cycle + 1) % 2] == old(bus[(cycle + 1) % 2])
    {
      bus[cycle % 2] := Bus(state, fault);
    }

    method Publish(cycle: nat)
      requires Valid()
      modifies this`cycle, this`futexWord
      ensures Valid() && this.cycle == cycle
      ensures futexWord == (old(futexWord) + 1) % UINT32
    {
      this.cycle := cycle;
      futexWord := (futexWord + 1) % UINT32;
    }

    // From `hm2_region_begin` to the publish. Refused, it changes nothing but the
    // count; otherwise this cycle's half is filled, and the inputs and bus words
    // of the cycle before, and every output, are left to the core.
    method MakeCycle(values: array<real>, state: nat, fault: nat) returns (made: nat)
      requires Valid() && values.Length == inputs && values != memory
      modifies this`cycle, this`overruns, this`futexWord, this`at, memory, bus
      ensures Valid()
      ensures made == 0 <==> 1 <= old(cycle) && response < old(cycle)
      ensures overruns == old(overruns) + if made == 0 then 1 else 0
      ensures if made == 0 then cycle == old(cycle) && futexWord == old(futexWord) && bus[..] == old(bus[..])
              else cycle == made == old(cycle) + 1 && futexWord == (old(futexWord) + 1) % UINT32
                   && bus[made % 2] == Bus(state, fault)
      ensures bus[old(cycle) % 2] == old(bus[cycle % 2])
      ensures made != 0 ==> forall c :: FilledBy(c, made, inputs) ==> at(c) == values[c.index]
      ensures forall c: Cell :: made == 0 || c.output || c.cycle % 2 == old(cycle) % 2 ==> at(c) == old(at)(c)
    {
      made := Begin();
      if made == 0 {
        return;
      }
      FillInputs(made, values);
      SetBus(made, state, fault);
      Publish(made);
    }

    method Collect() returns (freshness: Freshness, answered: nat)
      ensures answered == response
      ensures freshness == Never <==> response == 0
      ensures freshness == Fresh <==> HostLoop.Collected(answered, cycle).Fresh()
    {
      answered := response;
      if answered == 0 {
        return Never, answered;
      }
      freshness := if answered == cycle then Fresh else Stale;
    }
  }

  lemma WordOf(address: nat, words: nat)
    requires address % VALUE == 0 && address + VALUE <= VALUE * words
    ensures address / VALUE < words && VALUE * (address / VALUE) == address
  {}

  lemma CellIsWord(inputs: nat, outputs: nat, c: Cell, words: nat)
    requires inputs + outputs < UINT32 && IsCell(inputs, outputs, c)
    requires VALUE * words == RegionLayout(inputs, outputs).regionSize
    ensures Address(inputs, outputs, c).Some?
    ensures var a := Address(inputs, outputs, c).value; a / VALUE < words && VALUE * (a / VALUE) == a
  {
    CellIsInside(inputs, outputs, c);
    WordOf(Address(inputs, outputs, c).value, words);
  }

  lemma ZeroHolds(inputs: nat, outputs: nat, memory: seq<real>, values: Values)
    requires inputs + outputs < UINT32 && VALUE * |memory| == RegionLayout(inputs, outputs).regionSize
    requires (forall k :: 0 <= k < |memory| ==> memory[k] == 0.0) && forall c :: values(c) == 0.0
    ensures Holds(inputs, outputs, memory, values)
  {
    forall c | IsCell(inputs, outputs, c) ensures Word(inputs, outputs, c) < |memory| {
      CellIsWord(inputs, outputs, c, |memory|);
    }
  }

  lemma WordsApart(inputs: nat, outputs: nat, c: Cell, e: Cell)
    requires inputs + outputs < UINT32 && IsCell(inputs, outputs, c) && IsCell(inputs, outputs, e)
    ensures Word(inputs, outputs, c) == Word(inputs, outputs, e) <==> SameCell(c, e)
  {
    CellsAreDisjoint(inputs, outputs, c, e);
    CellIsInside(inputs, outputs, c);
    CellIsInside(inputs, outputs, e);
  }

  lemma StoredHolds(inputs: nat, outputs: nat, memory: seq<real>, values: Values, c: Cell, value: real)
    requires inputs + outputs < UINT32 && Holds(inputs, outputs, memory, values) && IsCell(inputs, outputs, c)
    ensures Holds(inputs, outputs, memory[Word(inputs, outputs, c) := value],
                  e => if SameCell(c, e) then value else values(e))
  {
    forall e | IsCell(inputs, outputs, e)
      ensures Word(inputs, outputs, c) == Word(inputs, outputs, e) <==> SameCell(c, e)
    {
      WordsApart(inputs, outputs, c, e);
    }
  }

  lemma LineIsValues(size: nat)
    requires size % LINE == 0
    ensures size % VALUE == 0 && VALUE * (size / VALUE) == size
  {
    OnValue(size, 8 * (size / LINE));
  }
}
