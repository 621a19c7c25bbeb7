/**
 What the driver declares at start-up (`shim/hal_shim.c`) as a value: the arena
 that only grows, the table of signals, and the parameters. A declaration is a
 function of the tables, and the theorems are about any sequence of them.
 */
module Declarations {
  import opened Cells
  import opened Options
  import opened Params

  const NAME_LEN: nat := 55
  const HAL_IN: bv32 := 16
  const HAL_IO: bv32 := 48
  const HAL_WO: bv32 := 128
  const PROBE_ENABLE: string := ".probe-enable"

  datatype Direction = ToCore | FromCore

  datatype Entry = Entry(name: string, kind: Kind, dir: Direction, cell: nat)

  // A piece of the arena, as it was handed out.
  datatype Block = Block(start: nat, length: nat)

  datatype Tables = Tables(
    used: nat, blocks: seq<Block>, memory: seq<Content>, entries: seq<Entry>, params: Table)

  // What the host set up: the arena's bytes, the signal table's slots, the configured values.
  datatype Setup = Setup(arena: nat, slots: nat, names: seq<string>, values: seq<real>)

  // `named` is whether the caller gave a place for the handle.
  datatype Declaration =
    | Raw(size: int)
    | Fake(named: bool)
    | Pin(named: bool, dir: bv32, kind: Kind, initial: Content, name: string)
    | Param(named: bool, dir: bv32, kind: Kind, initial: Content, name: string)

  datatype Outcome = Done(cell: nat) | Invalid | NoMemory

  ghost predicate Sized(s: Setup, t: Tables) {
    && t.used % 8 == 0 && t.used <= s.arena
    && |t.memory| == s.arena / 8
    && |t.entries| <= s.slots
    && |s.names| == |s.values| && Fitting(t.params)
    && t.params.names == s.names && t.params.values == s.values
  }

  // --- The arena ------------------------------------------------------------

  function RoundUp(size: nat): (want: nat)
    ensures want % 8 == 0 && size <= want < size + 8
  {
    (size + 7) / 8 * 8
  }

  function Allocate(s: Setup, t: Tables, size: int): (r: (Tables, Option<nat>))
    requires Sized(s, t)
    ensures Sized(s, r.0) && r.0 == t.(used := r.0.used, blocks := r.0.blocks)
    ensures r.1.None? ==> r.0 == t
    ensures r.1.Some? ==> size >= 0 && r.1.value == t.used && r.0.used == t.used + RoundUp(size)
  {
    if size < 0 || t.used + RoundUp(size) > s.arena then (t, None)
    else (t.(used := t.used + RoundUp(size), blocks := t.blocks + [Block(t.used, RoundUp(size))]),
          Some(t.used))
  }

  // A name and then a cell: what a pin and a parameter both begin with.
  function NamedCell(s: Setup, t: Tables, name: string): (r: (Tables, Option<nat>))
    requires Sized(s, t)
    ensures Sized(s, r.0) && r.0 == t.(used := r.0.used, blocks := r.0.blocks)
    ensures r.1.Some? ==> r.1.value % 8 == 0 && t.used < r.1.value && r.1.value + 8 == r.0.used
  {
    if |name| > NAME_LEN then (t, None)
    else
      var (u, place) := Allocate(s, t, |name| + 1);
      if place.None? then (u, None) else Allocate(s, u, 8)
  }

  function Write(t: Tables, cell: nat, c: Content): Tables
    requires cell / 8 < |t.memory|
  {
    t.(memory := t.memory[cell / 8 := c])
  }

  // --- Pins and parameters --------------------------------------------------

  predicate WrittenBackAnyway(name: string) {
    |name| > |PROBE_ENABLE| && name[|name| - |PROBE_ENABLE|..] == PROBE_ENABLE
  }

  predicate BothWays(dir: bv32, name: string) {
    dir & HAL_IO == HAL_IO || (dir & HAL_IN != 0 && WrittenBackAnyway(name))
  }

  function Publish(s: Setup, t: Tables, e: Entry): (r: (Tables, bool))
    requires Sized(s, t)
    ensures Sized(s, r.0) && r.0 == t.(entries := r.0.entries)
  {
    if |t.entries| >= s.slots then (t, false) else (t.(entries := t.entries + [e]), true)
  }

  function OneWay(dir: bv32): Direction {
    if dir & HAL_IN != 0 then FromCore else ToCore
  }

  function PublishPin(s: Setup, t: Tables, dir: bv32, name: string, kind: Kind, cell: nat): (r: (Tables, bool))
    requires Sized(s, t)
    ensures Sized(s, r.0) && r.0 == t.(entries := r.0.entries)
  {
    if BothWays(dir, name) then
      var (u, first) := Publish(s, t, Entry(name, kind, FromCore, cell));
      if first then Publish(s, u, Entry(name, kind, ToCore, cell)) else (u, false)
    else
      Publish(s, t, Entry(name, kind, OneWay(dir), cell))
  }

  // Whether the cast of a configured value, which does not look at the sign, is defined.
  predicate Castable(s: Setup, kind: Kind, name: string)
    requires |s.names| == |s.values|
  {
    var v := Configured(s.names, s.values, name);
    v.Some? ==> Settable(kind, v.value) && (kind.Uint? ==> v.value > -1.0)
  }

  // The driver's default, unless the configuration has a value under the name.
  function StartingParam(s: Setup, kind: Kind, initial: Content, name: string): Content
    requires |s.names| == |s.values| && Castable(s, kind, name)
  {
    var v := Configured(s.names, s.values, name);
    if v.None? then initial else Set(kind, v.value)
  }

  // What the types of the driver's calls see to.
  predicate Typed(s: Setup, d: Declaration)
    requires |s.names| == |s.values|
  {
    && (d.Pin? || d.Param? ==> Holds(d.kind, d.initial))
    && (d.Param? ==> Castable(s, d.kind, d.name))
  }

  // --- One declaration ------------------------------------------------------

  // The arena's part in it: what is asked for, in the order it is asked for.
  function Reserve(s: Setup, t: Tables, d: Declaration): (r: (Tables, Option<nat>))
    requires Sized(s, t)
    ensures Sized(s, r.0) && r.0 == t.(used := r.0.used, blocks := r.0.blocks) && t.used <= r.0.used
    ensures r.1.Some? && !d.Raw? ==> r.1.value % 8 == 0 && t.used <= r.1.value && r.1.value + 8 == r.0.used
  {
    match d
    case Raw(size) => Allocate(s, t, size)
    case Fake(_) => Allocate(s, t, 8)
    case _ => NamedCell(s, t, d.name)
  }

  // What a new cell holds when the driver first reads it.
  function Starting(s: Setup, d: Declaration): (c: Content)
    requires |s.names| == |s.values| && Typed(s, d) && !d.Raw?
  {
    match d
    case Fake(_) => Word(0)
    case Pin(_, _, _, initial, _) => initial
    case Param(_, _, kind, initial, name) => StartingParam(s, kind, initial, name)
  }

  // The cell written and the tables' part in it.
  function Record(s: Setup, t: Tables, d: Declaration, cell: nat): (r: (Tables, bool))
    requires Sized(s, t) && Typed(s, d) && (d.Raw? || cell / 8 < |t.memory|)
    ensures Sized(s, r.0)
    ensures r.0 == t.(memory := r.0.memory, entries := r.0.entries, params := r.0.params)
  {
    match d
    case Raw(_) => (t, true)
    case Fake(_) => (Write(t, cell, Starting(s, d)), true)
    case Pin(_, dir, kind, _, name) =>
      PublishPin(s, Write(t, cell, Starting(s, d)), dir, name, kind, cell)
    case Param(_, dir, kind, _, name) =>
      var noted := Declared(name, kind, cell, dir & HAL_WO == HAL_WO);
      (Write(t, cell, Starting(s, d)).(params := Note(Claim(t.params, name), noted)), true)
  }

  function Declare(s: Setup, t: Tables, d: Declaration): (r: (Tables, Outcome))
    requires Sized(s, t) && Typed(s, d)
    ensures Sized(s, r.0)
  {
    if !d.Raw? && !d.named then (t, Invalid)
    else
      var (u, place) := Reserve(s, t, d);
      if place.None? then (u, NoMemory)
      else
        var (v, whole) := Record(s, u, d, place.value);
        (v, if whole then Done(place.value) else NoMemory)
  }
}
