/**
 Any sequence of declarations (`shim/hal_shim.c`, `shim/param_table.c`) from
 empty tables, in any mix, including those that are refused half-way: what the
 arena, the signal table and the claimed parameters are afterwards.
 */
module DeclarationRuns {
  import opened Cells
  import opened Options
  import opened Params
  import opened Declarations

  ghost predicate Ready(s: Setup, ds: seq<Declaration>) {
    |s.names| == |s.values| && forall i :: 0 <= i < |ds| ==> Typed(s, ds[i])
  }

  function Empty(s: Setup): Tables {
    Tables(0, [], seq(s.arena / 8, _ => Word(0)), [],
           Table(s.names, s.values, seq(|s.names|, _ => false), []))
  }

  function Run(s: Setup, ds: seq<Declaration>): (t: Tables)
    requires Ready(s, ds)
    ensures Sized(s, t)
  {
    if |ds| == 0 then Empty(s) else Declare(s, Run(s, ds[..|ds| - 1]), ds[|ds| - 1]).0
  }

  // What the `i`-th declaration found, and what it said to the driver.
  function Before(s: Setup, ds: seq<Declaration>, i: nat): (t: Tables)
    requires Ready(s, ds) && i <= |ds|
    ensures Sized(s, t)
  {
    Run(s, ds[..i])
  }

  function OutcomeOf(s: Setup, ds: seq<Declaration>, i: nat): Outcome
    requires Ready(s, ds) && i < |ds|
  {
    Declare(s, Before(s, ds, i), ds[i]).1
  }

  // What one declaration changes: the rest is as it was.
  ghost predicate Grows(t: Tables, u: Tables) {
    && t.used <= u.used
    && t.blocks <= u.blocks && t.entries <= u.entries && t.params.declared <= u.params.declared
    && |t.memory| == |u.memory|
    && forall w :: 0 <= w < |t.memory| && 8 * w + 8 <= t.used ==> u.memory[w] == t.memory[w]
  }

  lemma ReserveGrows(s: Setup, t: Tables, d: Declaration)
    requires Sized(s, t)
    ensures t.blocks <= Reserve(s, t, d).0.blocks
  {}

  lemma RecordGrows(s: Setup, t: Tables, d: Declaration, cell: nat, used: nat)
    requires Sized(s, t) && Typed(s, d) && cell % 8 == 0 && (d.Raw? || used <= cell < 8 * |t.memory|)
    ensures var u := Record(s, t, d, cell).0;
            && t.entries <= u.entries && t.params.declared <= u.params.declared
            && |t.memory| == |u.memory|
            && forall w :: 0 <= w < |t.memory| && 8 * w + 8 <= used ==> u.memory[w] == t.memory[w]
  {}

  lemma DeclareGrows(s: Setup, t: Tables, d: Declaration)
    requires Sized(s, t) && Typed(s, d)
    ensures Grows(t, Declare(s, t, d).0)
  {
    if d.Raw? || d.named {
      var (u, place) := Reserve(s, t, d);
      ReserveGrows(s, t, d);
      if place.Some? {
        RecordGrows(s, u, d, place.value, t.used);
      }
    }
  }

  lemma {:induction false} RunGrows(s: Setup, ds: seq<Declaration>, i: nat)
    requires Ready(s, ds) && i <= |ds|
    ensures Grows(Before(s, ds, i), Run(s, ds))
  {
    if i == |ds| {
      assert ds[..i] == ds;
    } else {
      var n := |ds| - 1;
      RunGrows(s, ds[..n], i);
      assert ds[..n][..i] == ds[..i];
      DeclareGrows(s, Run(s, ds[..n]), ds[n]);
    }
  }

  // --- The arena ------------------------------------------------------------

  ghost predicate BlocksApart(t: Tables) {
    && (forall i :: 0 <= i < |t.blocks| ==>
          && t.blocks[i].start % 8 == 0 && t.blocks[i].length % 8 == 0
          && t.blocks[i].start + t.blocks[i].length <= t.used)
    && forall i, j :: 0 <= i < j < |t.blocks| ==> t.blocks[i].start + t.blocks[i].length <= t.blocks[j].start
  }

  lemma AllocateApart(s: Setup, t: Tables, size: int)
    requires Sized(s, t) && BlocksApart(t)
    ensures BlocksApart(Allocate(s, t, size).0)
  {}

  lemma NamedApart(s: Setup, t: Tables, name: string)
    requires Sized(s, t) && BlocksApart(t)
    ensures BlocksApart(NamedCell(s, t, name).0)
  {
    if |name| <= NAME_LEN {
      AllocateApart(s, t, |name| + 1);
      AllocateApart(s, Allocate(s, t, |name| + 1).0, 8);
    }
  }

  lemma ReserveApart(s: Setup, t: Tables, d: Declaration)
    requires Sized(s, t) && BlocksApart(t)
    ensures BlocksApart(Reserve(s, t, d).0)
  {
    match d
    case Raw(size) => AllocateApart(s, t, size);
    case Fake(_) => AllocateApart(s, t, 8);
    case _ => NamedApart(s, t, d.name);
  }

  // --- Cells ----------------------------------------------------------------

  // An aligned block of eight bytes, handed out as such, holding a value of its type.
  ghost predicate HasCell(t: Tables, cell: nat, kind: Kind) {
    && cell % 8 == 0 && cell + 8 <= t.used && cell / 8 < |t.memory|
    && Holds(kind, t.memory[cell / 8])
    && HasBlock(t.blocks, cell)
  }

  ghost predicate HasBlock(blocks: seq<Block>, cell: nat) {
    exists i :: 0 <= i < |blocks| && blocks[i] == Block(cell, 8)
  }

  ghost predicate CellsHeld(t: Tables) {
    && (forall k :: 0 <= k < |t.entries| ==> HasCell(t, t.entries[k].cell, t.entries[k].kind))
    && forall k :: 0 <= k < |t.params.declared| ==>
         HasCell(t, t.params.declared[k].cell, t.params.declared[k].kind)
  }

  lemma ReserveGivesBlock(s: Setup, t: Tables, d: Declaration)
    requires Sized(s, t) && !d.Raw? && Reserve(s, t, d).1.Some?
    ensures HasBlock(Reserve(s, t, d).0.blocks, Reserve(s, t, d).1.value)
  {
    var (u, place) := Reserve(s, t, d);
    assert u.blocks[|u.blocks| - 1] == Block(place.value, 8);
  }

  // A cell of `t` is one of `u` if nothing below `t.used` was written meanwhile.
  lemma CellStays(t: Tables, u: Tables, cell: nat, kind: Kind)
    requires Grows(t, u) && HasCell(t, cell, kind)
    ensures HasCell(u, cell, kind)
  {
    var i :| 0 <= i < |t.blocks| && t.blocks[i] == Block(cell, 8);
    assert u.blocks[i] == Block(cell, 8);
  }

  // The entries a pin is to have, in order.
  function EntriesOf(d: Declaration, cell: nat): seq<Entry>
    requires d.Pin?
  {
    if BothWays(d.dir, d.name)
    then [Entry(d.name, d.kind, FromCore, cell), Entry(d.name, d.kind, ToCore, cell)]
    else [Entry(d.name, d.kind, OneWay(d.dir), cell)]
  }

  // How many of a pin's entries are published with this many slots left.
  function Room(s: Setup, t: Tables, d: Declaration): (n: nat)
    requires Sized(s, t) && d.Pin?
    ensures n <= 2
  {
    var n := if BothWays(d.dir, d.name) then 2 else 1;
    if s.slots - |t.entries| < n then s.slots - |t.entries| else n
  }

  lemma RecordSays(s: Setup, t: Tables, d: Declaration, cell: nat)
    requires Sized(s, t) && Typed(s, d) && cell / 8 < |t.memory|
    ensures var (u, whole) := Record(s, t, d, cell);
            && u.entries == t.entries + (if d.Pin? then EntriesOf(d, cell)[..Room(s, t, d)] else [])
            && (whole <==> d.Pin? ==> Room(s, t, d) == |EntriesOf(d, cell)|)
            && u.params == (if d.Param?
                            then Note(Claim(t.params, d.name), Declared(d.name, d.kind, cell, d.dir & HAL_WO == HAL_WO))
                            else t.params)
            && u.memory == (if d.Raw? then t.memory else t.memory[cell / 8 := Starting(s, d)])
  {}

  lemma StartingHolds(s: Setup, d: Declaration)
    requires |s.names| == |s.values| && Typed(s, d) && (d.Pin? || d.Param?)
    ensures Holds(d.kind, Starting(s, d))
  {}

  lemma DeclareHeld(s: Setup, t: Tables, d: Declaration)
    requires Sized(s, t) && Typed(s, d) && CellsHeld(t)
    ensures CellsHeld(Declare(s, t, d).0)
  {
    var u := Declare(s, t, d).0;
    DeclareGrows(s, t, d);
    forall k | 0 <= k < |t.entries| ensures HasCell(u, t.entries[k].cell, t.entries[k].kind) {
      CellStays(t, u, t.entries[k].cell, t.entries[k].kind);
    }
    forall k | 0 <= k < |t.params.declared|
      ensures HasCell(u, t.params.declared[k].cell, t.params.declared[k].kind)
    {
      CellStays(t, u, t.params.declared[k].cell, t.params.declared[k].kind);
    }
    if (d.Pin? || d.Param?) && d.named {
      var (v, place) := Reserve(s, t, d);
      if place.Some? {
        ReserveGivesBlock(s, t, d);
        RecordSays(s, v, d, place.value);
        StartingHolds(s, d);
        assert HasCell(u, place.value, d.kind);
      }
    }
  }

  lemma DeclareExact(s: Setup, t: Tables, d: Declaration)
    requires Sized(s, t) && Typed(s, d) && Exact(t.params)
    ensures Exact(Declare(s, t, d).0.params)
  {
    if d.Param? && d.named {
      var (u, place) := Reserve(s, t, d);
      if place.Some? {
        RecordSays(s, u, d, place.value);
        DeclaringKeepsExact(t.params, Declared(d.name, d.kind, place.value, d.dir & HAL_WO == HAL_WO));
      }
    }
  }

  lemma DeclareApart(s: Setup, t: Tables, d: Declaration)
    requires Sized(s, t) && Typed(s, d) && BlocksApart(t)
    ensures BlocksApart(Declare(s, t, d).0)
  {
    ReserveApart(s, t, d);
  }

  // After any declarations: what was handed out is aligned, inside the arena
  // and apart, every pin and parameter holds one such cell with a value of its
  // type, and what is claimed is what was declared.
  lemma {:induction false} AllIsLaid(s: Setup, ds: seq<Declaration>)
    requires Ready(s, ds)
    ensures var t := Run(s, ds); BlocksApart(t) && CellsHeld(t) && Exact(t.params)
  {
    if ds == [] {
    } else {
      var n := |ds| - 1;
      var t := Run(s, ds[..n]);
      AllIsLaid(s, ds[..n]);
      DeclareApart(s, t, ds[n]);
      DeclareHeld(s, t, ds[n]);
      DeclareExact(s, t, ds[n]);
    }
  }

  // --- Which declaration an entry comes from --------------------------------

  function From(s: Setup, ds: seq<Declaration>, k: nat): (i: nat)
    requires Ready(s, ds) && k < |Run(s, ds).entries|
    ensures i < |ds|
  {
    var n := |ds| - 1;
    if k < |Run(s, ds[..n]).entries| then From(s, ds[..n], k) else n
  }

  // What a declaration found does not depend on those after it.
  lemma BeforeIsBefore(s: Setup, ds: seq<Declaration>, i: nat)
    requires Ready(s, ds) && i < |ds| - 1
    ensures Before(s, ds[..|ds| - 1], i) == Before(s, ds, i)
    ensures Before(s, ds[..|ds| - 1], i + 1) == Before(s, ds, i + 1)
  {
    assert ds[..|ds| - 1][..i] == ds[..i] && ds[..|ds| - 1][..i + 1] == ds[..i + 1];
  }

  ghost predicate IsPlace(s: Setup, ds: seq<Declaration>, k: nat, i: nat)
    requires Ready(s, ds) && i < |ds|
  {
    |Before(s, ds, i).entries| <= k < |Before(s, ds, i + 1).entries|
  }

  lemma {:induction false} FromIsBetween(s: Setup, ds: seq<Declaration>, k: nat)
    requires Ready(s, ds) && k < |Run(s, ds).entries|
    ensures IsPlace(s, ds, k, From(s, ds, k))
  {
    var n := |ds| - 1;
    if k < |Run(s, ds[..n]).entries| {
      FromIsBetween(s, ds[..n], k);
      BeforeIsBefore(s, ds, From(s, ds[..n], k));
    } else {
      assert ds[..n + 1] == ds;
    }
  }

  // It is published between what that declaration found and what it left.
  lemma FromIsPlace(s: Setup, ds: seq<Declaration>, k: nat)
    requires Ready(s, ds) && k < |Run(s, ds).entries|
    ensures var i := From(s, ds, k);
            && |Before(s, ds, i).entries| <= k < |Before(s, ds, i + 1).entries|
            && Before(s, ds, i + 1).entries <= Run(s, ds).entries
  {
    FromIsBetween(s, ds, k);
    RunGrows(s, ds, From(s, ds, k) + 1);
  }

  lemma StepIs(s: Setup, ds: seq<Declaration>, i: nat)
    requires Ready(s, ds) && i < |ds|
    ensures Before(s, ds, i + 1) == Declare(s, Before(s, ds, i), ds[i]).0
  {
    assert ds[..i + 1][..i] == ds[..i];
  }

  // What declaration `d` published between `t` and `u`: nothing, or as much of
  // a pin's entries as there was room for, over the last cell of the arena.
  ghost predicate Published(s: Setup, t: Tables, d: Declaration, u: Tables, o: Outcome)
    requires Sized(s, t)
  {
    u.entries == t.entries ||
    (&& d.Pin? && u.used >= t.used + 8
     && u.entries == t.entries + EntriesOf(d, u.used - 8)[..Room(s, t, d)]
     && (o.Done? <==> |t.entries| + |EntriesOf(d, 0)| <= s.slots))
  }

  lemma DeclarePublishes(s: Setup, t: Tables, d: Declaration)
    requires Sized(s, t) && Typed(s, d)
    ensures Published(s, t, d, Declare(s, t, d).0, Declare(s, t, d).1)
  {
    if d.Raw? || d.named {
      var (u, place) := Reserve(s, t, d);
      if place.Some? && !d.Raw? {
        RecordSays(s, u, d, place.value);
      }
    }
  }

  // An entry is one its declaration published, in its place.
  lemma EntryIsOwn(s: Setup, ds: seq<Declaration>, k: nat)
    requires Ready(s, ds) && k < |Run(s, ds).entries|
    ensures var i := From(s, ds, k); var t := Before(s, ds, i); var u := Before(s, ds, i + 1);
            && |t.entries| <= k < |u.entries| && Run(s, ds).entries[k] == u.entries[k]
            && Published(s, t, ds[i], u, OutcomeOf(s, ds, i))
  {
    var i := From(s, ds, k);
    FromIsPlace(s, ds, k);
    StepIs(s, ds, i);
    DeclarePublishes(s, Before(s, ds, i), ds[i]);
  }

  // The cell of an entry: the last one its declaration took.
  lemma EntryCell(s: Setup, ds: seq<Declaration>, k: nat)
    requires Ready(s, ds) && k < |Run(s, ds).entries|
    ensures var i := From(s, ds, k);
            && Run(s, ds).entries[k].cell == Before(s, ds, i + 1).used - 8
            && Run(s, ds).entries[k].cell >= Before(s, ds, i).used
  {
    EntryIsOwn(s, ds, k);
  }

  // Two entries share a cell exactly when one declaration made both.
  lemma SharingIsOneDeclaration(s: Setup, ds: seq<Declaration>, j: nat, k: nat)
    requires Ready(s, ds) && j < |Run(s, ds).entries| && k < |Run(s, ds).entries|
    ensures Run(s, ds).entries[j].cell == Run(s, ds).entries[k].cell <==> From(s, ds, j) == From(s, ds, k)
  {
    EntryCell(s, ds, j);
    EntryCell(s, ds, k);
    if From(s, ds, j) < From(s, ds, k) {
      EarlierIsBelow(s, ds, j, From(s, ds, k));
    } else if From(s, ds, k) < From(s, ds, j) {
      EarlierIsBelow(s, ds, k, From(s, ds, j));
    }
  }

  lemma EarlierIsBelow(s: Setup, ds: seq<Declaration>, j: nat, i: nat)
    requires Ready(s, ds) && j < |Run(s, ds).entries| && From(s, ds, j) < i < |ds|
    ensures Run(s, ds).entries[j].cell + 8 <= Before(s, ds, i).used
  {
    EntryCell(s, ds, j);
    UsedGrows(s, ds, From(s, ds, j) + 1, i);
  }

  lemma UsedGrows(s: Setup, ds: seq<Declaration>, a: nat, b: nat)
    requires Ready(s, ds) && a <= b <= |ds|
    ensures Before(s, ds, a).used <= Before(s, ds, b).used
  {
    RunGrows(s, ds[..b], a);
    assert ds[..b][..a] == ds[..a];
  }

  // --- Directions -----------------------------------------------------------

  // An entry of the pin over this cell, in this direction.
  ghost predicate HasEntry(entries: seq<Entry>, d: Declaration, dir: Direction, cell: nat)
    requires d.Pin?
  {
    exists k :: 0 <= k < |entries| && entries[k] == Entry(d.name, d.kind, dir, cell)
  }

  lemma BothBits(dir: bv32)
    ensures dir & HAL_IO == HAL_IO ==> dir & HAL_IN != 0
  {}

  // A pin declared with success is in the table under its name: from the core
  // if and only if the driver reads it, to the core if and only if it writes it.
  lemma WholePinIsPublished(s: Setup, ds: seq<Declaration>, i: nat)
    requires Ready(s, ds) && i < |ds| && ds[i].Pin? && OutcomeOf(s, ds, i).Done?
    ensures var d, cell, entries := ds[i], OutcomeOf(s, ds, i).cell, Run(s, ds).entries;
            && (HasEntry(entries, d, FromCore, cell) <==> d.dir & HAL_IN != 0)
            && (HasEntry(entries, d, ToCore, cell) <==> d.dir & HAL_IN == 0 || BothWays(d.dir, d.name))
  {
    BothBits(ds[i].dir);
    EntryIffWay(s, ds, i, FromCore);
    EntryIffWay(s, ds, i, ToCore);
  }

  // The entries a whole pin left in the final table.
  lemma OwnEntries(s: Setup, ds: seq<Declaration>, i: nat)
    requires Ready(s, ds) && i < |ds| && ds[i].Pin? && OutcomeOf(s, ds, i).Done?
    ensures var own := EntriesOf(ds[i], OutcomeOf(s, ds, i).cell);
            && Before(s, ds, i + 1).entries == Before(s, ds, i).entries + own
            && Before(s, ds, i + 1).entries <= Run(s, ds).entries
  {
    var cell, t := OutcomeOf(s, ds, i).cell, Before(s, ds, i);
    StepIs(s, ds, i);
    RecordSays(s, Reserve(s, t, ds[i]).0, ds[i], cell);
    RunGrows(s, ds, i + 1);
  }

  lemma EntryIffWay(s: Setup, ds: seq<Declaration>, i: nat, dir: Direction)
    requires Ready(s, ds) && i < |ds| && ds[i].Pin? && OutcomeOf(s, ds, i).Done?
    ensures HasEntry(Run(s, ds).entries, ds[i], dir, OutcomeOf(s, ds, i).cell) <==>
            BothWays(ds[i].dir, ds[i].name) || OneWay(ds[i].dir) == dir
  {
    var d, cell, entries := ds[i], OutcomeOf(s, ds, i).cell, Run(s, ds).entries;
    var first, own := |Before(s, ds, i).entries|, EntriesOf(d, cell);
    OwnEntries(s, ds, i);
    if BothWays(d.dir, d.name) || OneWay(d.dir) == dir {
      var j := if own[0].dir == dir then 0 else 1;
      assert own[j] == Entry(d.name, d.kind, dir, cell);
      assert entries[first + j] == own[j];
    } else if HasEntry(entries, d, dir, cell) {
      var k :| 0 <= k < |entries| && entries[k] == Entry(d.name, d.kind, dir, cell);
      EntryOfCell(s, ds, i, k);
    }
  }

  // Whoever has the cell comes from the declaration that took it.
  lemma EntryOfCell(s: Setup, ds: seq<Declaration>, i: nat, k: nat)
    requires Ready(s, ds) && i < |ds| && ds[i].Pin? && OutcomeOf(s, ds, i).Done?
    requires k < |Run(s, ds).entries| && Run(s, ds).entries[k].cell == OutcomeOf(s, ds, i).cell
    ensures |Before(s, ds, i).entries| <= k < |Before(s, ds, i + 1).entries|
    ensures Before(s, ds, i + 1).entries <= Run(s, ds).entries
  {
    FirstIsOwn(s, ds, i);
    SharingIsOneDeclaration(s, ds, |Before(s, ds, i).entries|, k);
    FromIsPlace(s, ds, k);
  }

  lemma FirstIsOwn(s: Setup, ds: seq<Declaration>, i: nat)
    requires Ready(s, ds) && i < |ds| && ds[i].Pin? && OutcomeOf(s, ds, i).Done?
    ensures var first := |Before(s, ds, i).entries|;
            && first < |Run(s, ds).entries| && From(s, ds, first) == i
            && Run(s, ds).entries[first].cell == OutcomeOf(s, ds, i).cell
  {
    var first := |Before(s, ds, i).entries|;
    OwnEntries(s, ds, i);
    assert Run(s, ds).entries[first] == EntriesOf(ds[i], OutcomeOf(s, ds, i).cell)[0];
    PlaceIsFrom(s, ds, i, first);
  }

  lemma PlaceIsFrom(s: Setup, ds: seq<Declaration>, i: nat, k: nat)
    requires Ready(s, ds) && i < |ds| && k < |Run(s, ds).entries|
    requires |Before(s, ds, i).entries| <= k < |Before(s, ds, i + 1).entries|
    ensures From(s, ds, k) == i
  {
    FromIsPlace(s, ds, k);
    var f := From(s, ds, k);
    if f < i {
      EntriesGrow(s, ds, f + 1, i);
    } else if i < f {
      EntriesGrow(s, ds, i + 1, f);
    }
  }

  lemma EntriesGrow(s: Setup, ds: seq<Declaration>, a: nat, b: nat)
    requires Ready(s, ds) && a <= b <= |ds|
    ensures |Before(s, ds, a).entries| <= |Before(s, ds, b).entries|
  {
    RunGrows(s, ds[..b], a);
    assert ds[..b][..a] == ds[..a];
  }

  // --- The mark -------------------------------------------------------------

  // What the host looks for (`written_by_the_driver`): another entry, the other
  // way, over the same cell.
  ghost predicate Marked(entries: seq<Entry>, k: nat)
    requires k < |entries|
  {
    exists j :: 0 <= j < |entries| && j != k && entries[j].cell == entries[k].cell && entries[j].dir == ToCore
  }

  // An entry from the core is its pin's first.
  lemma FromCoreIsFirst(s: Setup, ds: seq<Declaration>, k: nat)
    requires Ready(s, ds) && k < |Run(s, ds).entries| && Run(s, ds).entries[k].dir == FromCore
    ensures var i := From(s, ds, k); ds[i].Pin? && k == |Before(s, ds, i).entries|
  {
    EntryIsOwn(s, ds, k);
  }

  lemma MarkedWhenWhole(s: Setup, ds: seq<Declaration>, k: nat)
    requires Ready(s, ds) && k < |Run(s, ds).entries| && Run(s, ds).entries[k].dir == FromCore
    ensures var i := From(s, ds, k);
            && ds[i].Pin? && k == |Before(s, ds, i).entries|
            && (BothWays(ds[i].dir, ds[i].name) && OutcomeOf(s, ds, i).Done? ==> Marked(Run(s, ds).entries, k))
  {
    var i, entries := From(s, ds, k), Run(s, ds).entries;
    FromCoreIsFirst(s, ds, k);
    if BothWays(ds[i].dir, ds[i].name) && OutcomeOf(s, ds, i).Done? {
      OwnEntries(s, ds, i);
      var own := EntriesOf(ds[i], OutcomeOf(s, ds, i).cell);
      assert entries[k] == own[0] && entries[k + 1] == own[1];
    }
  }

  // An entry beside this one from the same declaration: only a whole both-ways pin has it.
  lemma OtherEntryMeansWhole(s: Setup, ds: seq<Declaration>, j: nat, k: nat)
    requires Ready(s, ds) && j < |Run(s, ds).entries| && k < |Run(s, ds).entries| && j != k
    requires From(s, ds, j) == From(s, ds, k)
    ensures var i := From(s, ds, k); ds[i].Pin? && BothWays(ds[i].dir, ds[i].name) && OutcomeOf(s, ds, i).Done?
  {
    EntryIsOwn(s, ds, j);
    EntryIsOwn(s, ds, k);
  }

  // A pin the driver reads is marked exactly when it was declared both ways
  // and the declaration succeeded.
  lemma MarkedIffBothWays(s: Setup, ds: seq<Declaration>, k: nat)
    requires Ready(s, ds) && k < |Run(s, ds).entries| && Run(s, ds).entries[k].dir == FromCore
    ensures var i := From(s, ds, k);
            && ds[i].Pin?
            && (Marked(Run(s, ds).entries, k) <==> BothWays(ds[i].dir, ds[i].name) && OutcomeOf(s, ds, i).Done?)
  {
    var entries := Run(s, ds).entries;
    MarkedWhenWhole(s, ds, k);
    if Marked(entries, k) {
      var j :| 0 <= j < |entries| && j != k && entries[j].cell == entries[k].cell && entries[j].dir == ToCore;
      SharingIsOneDeclaration(s, ds, j, k);
      OtherEntryMeansWhole(s, ds, j, k);
    }
  }

  // The one case the mark misses: a both-ways pin that found a single slot
  // left is refused and leaves its first entry behind.
  lemma OrphanIffOneSlot(s: Setup, ds: seq<Declaration>, k: nat)
    requires Ready(s, ds) && k < |Run(s, ds).entries| && Run(s, ds).entries[k].dir == FromCore
    ensures var i := From(s, ds, k);
            && ds[i].Pin?
            && (BothWays(ds[i].dir, ds[i].name) && !Marked(Run(s, ds).entries, k) <==>
                BothWays(ds[i].dir, ds[i].name) && |Before(s, ds, i).entries| + 1 == s.slots)
  {
    EntryIsOwn(s, ds, k);
    MarkedIffBothWays(s, ds, k);
  }

  lemma OrphanExists()
    ensures var s := Setup(64, 1, [], []);
            var ds := [Pin(true, HAL_IO, Bool, Word(0), "a.index-enable")];
            Ready(s, ds) && Run(s, ds).entries == [Entry("a.index-enable", Bool, FromCore, 16)]
            && !Marked(Run(s, ds).entries, 0)
  {
    var s := Setup(64, 1, [], []);
    var d := Pin(true, HAL_IO, Bool, Word(0), "a.index-enable");
    assert [d][..0] == [];
    var t := Run(s, []);
    var (u, place) := Reserve(s, t, d);
    assert place == Some(16);
    RecordSays(s, u, d, 16);
    assert Run(s, [d]).entries == Record(s, u, d, 16).0.entries;
  }

  // --- Starting values and claims -------------------------------------------

  // What a cell starts at is what it still holds after any later declarations.
  lemma StartingValueStays(s: Setup, ds: seq<Declaration>, i: nat)
    requires Ready(s, ds) && i < |ds| && !ds[i].Raw? && OutcomeOf(s, ds, i).Done?
    ensures var cell := OutcomeOf(s, ds, i).cell;
            cell / 8 < |Run(s, ds).memory| && Run(s, ds).memory[cell / 8] == Starting(s, ds[i])
  {
    var t := Before(s, ds, i);
    StepIs(s, ds, i);
    var (u, place) := Reserve(s, t, ds[i]);
    RecordSays(s, u, ds[i], place.value);
    RunGrows(s, ds, i + 1);
  }

  // Whether a parameter of this name was declared, not merely asked for.
  ghost predicate WasDeclared(s: Setup, ds: seq<Declaration>, name: string)
    requires Ready(s, ds)
  {
    exists i :: 0 <= i < |ds| && IsDeclaring(s, ds, name, i)
  }

  ghost predicate IsDeclaring(s: Setup, ds: seq<Declaration>, name: string, i: nat)
    requires Ready(s, ds) && i < |ds|
  {
    OutcomeOf(s, ds, i).Done? && ds[i].Param? && ds[i].name == name
  }

  lemma DeclareNotes(s: Setup, t: Tables, d: Declaration, name: string)
    requires Sized(s, t) && Typed(s, d)
    ensures var (u, o) := Declare(s, t, d);
            IsDeclared(u.params.declared, name) <==>
            IsDeclared(t.params.declared, name) || (o.Done? && d.Param? && d.name == name)
  {
    if d.Param? && d.named {
      var (u, place) := Reserve(s, t, d);
      if place.Some? {
        RecordSays(s, u, d, place.value);
        NotedIsDeclared(t.params.declared, Declared(d.name, d.kind, place.value, d.dir & HAL_WO == HAL_WO), name);
      }
    }
  }

  lemma {:induction false} DeclaredIffWas(s: Setup, ds: seq<Declaration>, name: string)
    requires Ready(s, ds)
    ensures IsDeclared(Run(s, ds).params.declared, name) <==> WasDeclared(s, ds, name)
  {
    if ds == [] {
    } else {
      var n := |ds| - 1;
      var t := Run(s, ds[..n]);
      DeclaredIffWas(s, ds[..n], name);
      WasDeclaredStep(s, ds, name);
      DeclareNotes(s, t, ds[n], name);
    }
  }

  lemma WasDeclaredStep(s: Setup, ds: seq<Declaration>, name: string)
    requires Ready(s, ds) && |ds| > 0
    ensures var n := |ds| - 1;
            WasDeclared(s, ds, name) <==>
            WasDeclared(s, ds[..n], name) || (OutcomeOf(s, ds, n).Done? && ds[n].Param? && ds[n].name == name)
  {
    var n := |ds| - 1;
    forall i | 0 <= i < n ensures IsDeclaring(s, ds, name, i) <==> IsDeclaring(s, ds[..n], name, i) {
      assert ds[..n][..i] == ds[..i];
    }
    if WasDeclared(s, ds[..n], name) {
      var i :| 0 <= i < n && IsDeclaring(s, ds[..n], name, i);
      assert IsDeclaring(s, ds, name, i);
    }
    if WasDeclared(s, ds, name) {
      var i :| 0 <= i < |ds| && IsDeclaring(s, ds, name, i);
      assert i < n ==> IsDeclaring(s, ds[..n], name, i);
    }
    assert IsDeclaring(s, ds, name, n) <==> OutcomeOf(s, ds, n).Done? && ds[n].Param? && ds[n].name == name;
  }

  // Nothing configured is left unclaimed exactly when no name was configured
  // twice and the driver declared every one.
  lemma NothingUnclaimedIff(s: Setup, ds: seq<Declaration>)
    requires Ready(s, ds)
    ensures var t := Run(s, ds).params;
            Unclaimed(t.names, t.claimed) == [] <==>
            Distinct(s.names) && forall n :: 0 <= n < |s.names| ==> WasDeclared(s, ds, s.names[n])
  {
    AllIsLaid(s, ds);
    NoneUnclaimedIff(Run(s, ds).params);
    forall n | 0 <= n < |s.names|
      ensures IsDeclared(Run(s, ds).params.declared, s.names[n]) <==> WasDeclared(s, ds, s.names[n])
    {
      DeclaredIffWas(s, ds, s.names[n]);
    }
  }
}
