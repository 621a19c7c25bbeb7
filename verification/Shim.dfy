/**
 The shim's own state (`shim/hal_shim.c`): the arena as memory that cells are
 written in, a fixed table of signals, and the table of parameters. Each call
 is proved to be the function of the tables that `Declarations` reasons about.
 */
module Shim {
  import opened Cells
  import opened Options
  import opened Params
  import opened Declarations

  class Hal {
    const arena: nat
    // The arena in eight-byte words, a cell at an offset being word `offset / 8`.
    const memory: array<Content>
    const signals: array<Entry>
    const params: ParamTable
    var used: nat
    var signalCount: nat
    ghost var blocks: seq<Block>

    ghost function Given(): Setup
      reads this
    {
      Setup(arena, signals.Length, params.names, params.values)
    }

    ghost predicate Valid()
      reads this, params
    {
      && used % 8 == 0 && used <= arena
      && memory.Length == arena / 8
      && signalCount <= signals.Length
      && params.Valid()
    }

    ghost function View(): (t: Tables)
      reads this, memory, signals, params, params.claimed, params.declared
      requires Valid()
      ensures Sized(Given(), t)
    {
      Tables(used, blocks, memory[..], signals[..signalCount], params.View())
    }

    constructor (arena: nat, slots: nat, names: seq<string>, values: seq<real>)
      requires |names| == |values|
      ensures Valid() && Given() == Setup(arena, slots, names, values)
      ensures View() == Tables(0, [], seq(arena / 8, _ => Word(0)), [],
                               Table(names, values, seq(|names|, _ => false), []))
      ensures fresh(memory) && fresh(signals) && fresh(params) && fresh(params.claimed) && fresh(params.declared)
    {
      this.arena := arena;
      memory := new Content[arena / 8](_ => Word(0));
      signals := new Entry[slots](_ => Entry("", Bool, ToCore, 0));
      params := new ParamTable(names, values);
      used, signalCount, blocks := 0, 0, [];
      new;
      assert memory[..] == seq(arena / 8, _ => Word(0));
    }

    method HalMalloc(size: int) returns (place: Option<nat>)
      requires Valid()
      modifies this`used, this`blocks
      ensures Valid() && (View(), place) == Allocate(Given(), old(View()), size)
    {
      if size < 0 {
        return None;
      }
      var want := RoundUp(size);
      if want > arena - used {
        return None;
      }
      place := Some(used);
      blocks := blocks + [Block(used, want)];
      used := used + want;
    }

    // A name too long is refused before anything is taken.
    method ArenaName(name: string) returns (place: Option<nat>)
      requires Valid()
      modifies this`used, this`blocks
      ensures Valid() && (View(), place) ==
              if |name| > NAME_LEN then (old(View()), None) else Allocate(Given(), old(View()), |name| + 1)
    {
      if |name| >= NAME_LEN + 1 {
        return None;
      }
      place := HalMalloc(|name| + 1);
    }

    method PublishSignal(e: Entry) returns (published: bool)
      requires Valid()
      modifies this`signalCount, signals
      ensures Valid() && (View(), published) == Publish(Given(), old(View()), e)
    {
      if signalCount >= signals.Length {
        return false;
      }
      signals[signalCount] := e;
      signalCount := signalCount + 1;
      published := true;
      assert signals[..signalCount] == old(signals[..signalCount]) + [e];
    }

    method NewPin(d: Declaration) returns (o: Outcome)
      requires Valid() && d.Pin? && Typed(Given(), d)
      modifies this`used, this`blocks, this`signalCount, memory, signals
      ensures Valid() && (View(), o) == Declare(Given(), old(View()), d)
    {
      if !d.named {
        return Invalid;
      }
      var name := ArenaName(d.name);
      if name.None? {
        return NoMemory;
      }
      var cell := HalMalloc(8);
      if cell.None? {
        return NoMemory;
      }
      label Taken:
      memory[cell.value / 8] := d.initial;
      assert memory[..] == old@Taken(memory[..])[cell.value / 8 := d.initial];
      var whole: bool;
      if BothWays(d.dir, d.name) {
        whole := PublishSignal(Entry(d.name, d.kind, FromCore, cell.value));
        if whole {
          whole := PublishSignal(Entry(d.name, d.kind, ToCore, cell.value));
        }
      } else {
        whole := PublishSignal(Entry(d.name, d.kind, OneWay(d.dir), cell.value));
      }
      o := if whole then Done(cell.value) else NoMemory;
    }

    // The driver's default, and the configured value over it.
    method StartParam(d: Declaration, cell: nat)
      requires Valid() && d.Param? && Typed(Given(), d) && cell / 8 < memory.Length
      modifies memory, params.claimed
      ensures Valid()
      ensures View() == Write(old(View()), cell, Starting(Given(), d)).(params := Claim(old(View()).params, d.name))
    {
      memory[cell / 8] := d.initial;
      var configured := params.Lookup(d.name);
      if configured.Some? {
        memory[cell / 8] := Set(d.kind, configured.value);
      }
      assert memory[..] == old(memory[..])[cell / 8 := Starting(Given(), d)];
    }

    method NewParam(d: Declaration) returns (o: Outcome)
      requires Valid() && d.Param? && Typed(Given(), d)
      modifies this`used, this`blocks, memory, params, params.claimed, params.declared
      ensures Valid() && (View(), o) == Declare(Given(), old(View()), d)
      ensures params.declared == old(params.declared) || fresh(params.declared)
    {
      if !d.named {
        return Invalid;
      }
      var name := ArenaName(d.name);
      if name.None? {
        return NoMemory;
      }
      var cell := HalMalloc(8);
      if cell.None? {
        return NoMemory;
      }
      StartParam(d, cell.value);
      params.Add(Declared(d.name, d.kind, cell.value, d.dir & HAL_WO == HAL_WO));
      o := Done(cell.value);
    }

    method ParamNewFake(named: bool) returns (o: Outcome)
      requires Valid()
      modifies this`used, this`blocks, memory
      ensures Valid() && (View(), o) == Declare(Given(), old(View()), Fake(named))
    {
      if !named {
        return Invalid;
      }
      var cell := HalMalloc(8);
      if cell.None? {
        return NoMemory;
      }
      memory[cell.value / 8] := Word(0);
      assert memory[..] == old(memory[..])[cell.value / 8 := Word(0)];
      o := Done(cell.value);
    }
  }
}
