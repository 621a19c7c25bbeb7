/**
 What each pin and parameter of the driver got, after any declarations
 (`shim/hal_shim.c`) and then the binding (`host/main.c`), in terms of the
 declarations themselves: what its cell starts at, which ways it crosses the
 channel, and that a parameter's views are over the cell it was given.
 */
module DriverCells {
  import opened Cells
  import opened Options
  import opened Params
  import opened Declarations
  import opened DeclarationRuns
  import opened Binding

  // --- Pins both ways -------------------------------------------------------

  lemma SuffixIff(name: string)
    ensures WrittenBackAnyway(name) <==> exists p: string :: p != "" && name == p + ".probe-enable"
  {
    if WrittenBackAnyway(name) {
      var p := name[..|name| - |PROBE_ENABLE|];
      assert p != "" && name == p + ".probe-enable";
    }
  }

  lemma DirectionBits(dir: bv32)
    ensures dir & HAL_IO == HAL_IO <==> dir & 48 == 48
    ensures dir & 48 == 48 ==> dir & 16 != 0
    ensures dir & HAL_WO == HAL_WO <==> dir & 128 != 0
  {}

  // Of a pin with an entry from the core, which the driver therefore reads.
  lemma BothWaysOfReader(s: Setup, ds: seq<Declaration>, k: nat)
    requires Ready(s, ds) && k < |Run(s, ds).entries| && Run(s, ds).entries[k].dir == FromCore
    ensures var d := ds[From(s, ds, k)];
            && d.Pin?
            && (BothWays(d.dir, d.name) <==>
                d.dir & 48 == 48 || exists p: string :: p != "" && d.name == p + ".probe-enable")
  {
    var d := ds[From(s, ds, k)];
    EntryIsOwn(s, ds, k);
    DirectionBits(d.dir);
    SuffixIff(d.name);
  }

  // A pin that the driver reads, HAL_IN, has an entry from the core; and one to
  // the core too, over the same cell, if it is HAL_IO or its name is another
  // followed by `.probe-enable`, and otherwise not. One that is not read has an
  // entry to the core alone.
  lemma PinWays(s: Setup, ds: seq<Declaration>, i: nat)
    requires Ready(s, ds) && i < |ds| && ds[i].Pin? && OutcomeOf(s, ds, i).Done?
    ensures var d, cell, entries := ds[i], OutcomeOf(s, ds, i).cell, Run(s, ds).entries;
            && (HasEntry(entries, d, FromCore, cell) <==> d.dir & 16 != 0)
            && (HasEntry(entries, d, ToCore, cell) <==>
                d.dir & 16 == 0 || d.dir & 48 == 48 || exists p: string :: p != "" && d.name == p + ".probe-enable")
  {
    DirectionBits(ds[i].dir);
    SuffixIff(ds[i].name);
    WholePinIsPublished(s, ds, i);
  }

  // And what the host looks for to apply an output only on change, another entry
  // to the core over its cell, is there under the same condition.
  lemma OnChangeWays(s: Setup, ds: seq<Declaration>, i: nat, k: nat)
    requires Ready(s, ds) && i < |ds| && ds[i].Pin? && OutcomeOf(s, ds, i).Done?
    requires k < |Run(s, ds).entries| && Run(s, ds).entries[k].dir == FromCore
    requires Run(s, ds).entries[k].cell == OutcomeOf(s, ds, i).cell
    ensures var d, entries := ds[i], Run(s, ds).entries;
            (exists j :: 0 <= j < |entries| && j != k && entries[j].cell == entries[k].cell && entries[j].dir == ToCore) <==>
            d.dir & 48 == 48 || exists p: string :: p != "" && d.name == p + ".probe-enable"
  {
    var entries := Run(s, ds).entries;
    EntryOfCell(s, ds, i, k);
    PlaceIsFrom(s, ds, i, k);
    MarkedIffBothWays(s, ds, k);
    BothWaysOfReader(s, ds, k);
    assert Marked(entries, k) <==>
      exists j :: 0 <= j < |entries| && j != k && entries[j].cell == entries[k].cell && entries[j].dir == ToCore;
  }

  // --- What is refused ------------------------------------------------------

  // A declaration succeeds exactly when the caller gave a place for the handle,
  // the name has at most 55 characters, the arena has room for it, ended, in
  // whole words and for the cell, and the table for a pin's one or two entries.
  lemma DoneIff(s: Setup, t: Tables, d: Declaration)
    requires Sized(s, t) && Typed(s, d)
    ensures Declare(s, t, d).1.Done? <==>
            match d
            case Raw(size) => size >= 0 && t.used + RoundUp(size) <= s.arena
            case Fake(named) => named && t.used + 8 <= s.arena
            case Param(named, _, _, _, name) =>
              named && |name| <= 55 && t.used + RoundUp(|name| + 1) + 8 <= s.arena
            case Pin(named, dir, _, _, name) =>
              && named && |name| <= 55 && t.used + RoundUp(|name| + 1) + 8 <= s.arena
              && |t.entries| < s.slots
              && (dir & 48 == 48 || (dir & 16 != 0 && exists p: string :: p != "" && name == p + ".probe-enable") ==>
                    |t.entries| + 2 <= s.slots)
  {
    if d.Pin? {
      DirectionBits(d.dir);
      SuffixIff(d.name);
    }
  }

  // --- Starting values ------------------------------------------------------

  // A parameter's cell holds the first value configured under its name, made
  // into its type, after any later declarations; and the driver's own default
  // if none was.
  lemma ParamStartsAt(s: Setup, ds: seq<Declaration>, i: nat, n: nat)
    requires Ready(s, ds) && i < |ds| && ds[i].Param? && OutcomeOf(s, ds, i).Done?
    requires n <= |s.names| && forall m :: 0 <= m < n ==> s.names[m] != ds[i].name
    ensures OutcomeOf(s, ds, i).cell / 8 < |Run(s, ds).memory|
    ensures var d, held := ds[i], Run(s, ds).memory[OutcomeOf(s, ds, i).cell / 8];
            && (n < |s.names| && s.names[n] == d.name ==>
                  Settable(d.kind, s.values[n]) && held == Set(d.kind, s.values[n]))
            && (n == |s.names| ==> held == d.initial)
  {
    StartingValueStays(s, ds, i);
    FirstIs(s.names, ds[i].name, n);
  }

  lemma FirstIs(names: seq<string>, name: string, n: nat)
    requires n <= |names| && forall m :: 0 <= m < n ==> names[m] != name
    ensures FirstOf(names, name, 0) >= n && (n < |names| && names[n] == name ==> FirstOf(names, name, 0) == n)
  {}

  lemma OthersStartAt(s: Setup, ds: seq<Declaration>, i: nat)
    requires Ready(s, ds) && i < |ds| && (ds[i].Pin? || ds[i].Fake?) && OutcomeOf(s, ds, i).Done?
    ensures OutcomeOf(s, ds, i).cell / 8 < |Run(s, ds).memory|
    ensures Run(s, ds).memory[OutcomeOf(s, ds, i).cell / 8] == if ds[i].Pin? then ds[i].initial else Word(0)
  {
    StartingValueStays(s, ds, i);
  }

  // --- The parameters as the host finds them --------------------------------

  // The parameters declared, in order, each with its type, its cell, and
  // whether the driver lets it be written, HAL_WO.
  function Noted(s: Setup, ds: seq<Declaration>): seq<Declared>
    requires Ready(s, ds)
  {
    if ds == [] then []
    else
      var n := |ds| - 1;
      var (d, o) := (ds[n], OutcomeOf(s, ds, n));
      Noted(s, ds[..n]) + if d.Param? && o.Done? then [Declared(d.name, d.kind, o.cell, d.dir & 128 != 0)] else []
  }

  lemma DeclareNotesOne(s: Setup, t: Tables, d: Declaration)
    requires Sized(s, t) && Typed(s, d)
    ensures var (u, o) := Declare(s, t, d);
            u.params.declared == t.params.declared +
              if d.Param? && o.Done? then [Declared(d.name, d.kind, o.cell, d.dir & 128 != 0)] else []
  {
    if d.Param? {
      DirectionBits(d.dir);
    }
  }

  lemma {:induction false} NotedAreDeclared(s: Setup, ds: seq<Declaration>)
    requires Ready(s, ds)
    ensures Run(s, ds).params.declared == Noted(s, ds)
  {
    if ds == [] {
    } else {
      var n := |ds| - 1;
      NotedAreDeclared(s, ds[..n]);
      DeclareNotesOne(s, Run(s, ds[..n]), ds[n]);
    }
  }

  // No parameter's cell is another's or a pin's, and all are below what is used.
  ghost predicate ParamsApart(t: Tables) {
    && (forall k :: 0 <= k < |t.params.declared| ==> t.params.declared[k].cell + 8 <= t.used)
    && (forall e :: 0 <= e < |t.entries| ==> t.entries[e].cell + 8 <= t.used)
    && (forall j, k :: 0 <= j < k < |t.params.declared| ==> t.params.declared[j].cell < t.params.declared[k].cell)
    && forall k, e :: 0 <= k < |t.params.declared| && 0 <= e < |t.entries| ==>
         t.params.declared[k].cell != t.entries[e].cell
  }

  // New entries over one new cell, or one new parameter, leave them apart.
  lemma AddedApart(t: Tables, u: Tables, cell: nat)
    requires ParamsApart(t) && t.used <= u.used && (t.used <= cell <= u.used - 8 || u.entries == t.entries)
    requires t.entries <= u.entries && u.params.declared == t.params.declared
    requires forall e :: |t.entries| <= e < |u.entries| ==> u.entries[e].cell == cell
    ensures ParamsApart(u)
  {}

  lemma NotedApart(t: Tables, u: Tables, p: Declared)
    requires ParamsApart(t) && t.used <= p.cell <= u.used - 8
    requires u.entries == t.entries && u.params.declared == t.params.declared + [p]
    ensures ParamsApart(u)
  {}

  lemma DeclareParamsApart(s: Setup, t: Tables, d: Declaration)
    requires Sized(s, t) && Typed(s, d) && ParamsApart(t)
    ensures ParamsApart(Declare(s, t, d).0)
  {
    var (u, o) := Declare(s, t, d);
    DeclareNotesOne(s, t, d);
    DeclarePublishes(s, t, d);
    if d.Param? && o.Done? {
      NotedApart(t, u, Declared(d.name, d.kind, o.cell, d.dir & 128 != 0));
    } else {
      AddedApart(t, u, if u.used >= 8 then u.used - 8 else 0);
    }
  }

  lemma {:induction false} ParamsAreApart(s: Setup, ds: seq<Declaration>)
    requires Ready(s, ds)
    ensures ParamsApart(Run(s, ds))
  {
    if ds == [] {
    } else {
      var n := |ds| - 1;
      ParamsAreApart(s, ds[..n]);
      DeclareParamsApart(s, Run(s, ds[..n]), ds[n]);
    }
  }

  // --- What the bound views are over ----------------------------------------

  // A cell that the `k`-th parameter has and no other parameter and no pin does.
  ghost predicate OnlyParam(s: Setup, ds: seq<Declaration>, k: nat, cell: nat)
    requires Ready(s, ds)
  {
    && k < |Noted(s, ds)| && Noted(s, ds)[k].cell == cell
    && (forall other :: 0 <= other < |Noted(s, ds)| && other != k ==> Noted(s, ds)[other].cell != cell)
    && forall e :: 0 <= e < |Run(s, ds).entries| ==> Run(s, ds).entries[e].cell != cell
  }

  lemma CellIsOwn(s: Setup, ds: seq<Declaration>, k: nat)
    requires Ready(s, ds) && k < |Noted(s, ds)|
    ensures OnlyParam(s, ds, k, Noted(s, ds)[k].cell)
  {
    NotedAreDeclared(s, ds);
    ParamsAreApart(s, ds);
  }

  // The signal a parameter is read back through points, under its name and type,
  // at the cell its declaration returned, and no other signal of another
  // parameter or of a pin does.
  lemma InputIsOwn(s: Setup, ds: seq<Declaration>, fixed: seq<nat>, inputs: seq<Bound>, views: seq<Entry>,
                   pins: seq<nat>, these: seq<nat>, j: nat)
    requires Ready(s, ds) && j < |these|
    requires InputsCarry(Run(s, ds).entries, fixed, Run(s, ds).params.declared, inputs, views, pins, these)
    ensures var b := inputs[|pins| + j];
            && b.signal.AtView? && b.signal.index < |views| && these[j] < |Noted(s, ds)|
            && var p := Noted(s, ds)[these[j]];
               && views[b.signal.index] == Entry(p.name, p.kind, ToCore, p.cell)
               && OnlyParam(s, ds, these[j], views[b.signal.index].cell)
  {
    NotedAreDeclared(s, ds);
    CellIsOwn(s, ds, these[j]);
  }

  // So does the signal it is written through, the other way.
  lemma OutputIsOwn(s: Setup, ds: seq<Declaration>, fixed: seq<nat>, outputs: seq<Bound>, views: seq<Entry>,
                    pins: seq<nat>, those: seq<nat>, j: nat)
    requires Ready(s, ds) && j < |those|
    requires OutputsCarry(Run(s, ds).entries, fixed, Run(s, ds).params.declared, outputs, views, pins, those)
    ensures var b := outputs[|pins| + j];
            && b.signal.AtView? && b.signal.index < |views| && those[j] < |Noted(s, ds)|
            && var p := Noted(s, ds)[those[j]];
               && p.writable && views[b.signal.index] == Entry(p.name, p.kind, FromCore, p.cell)
               && OnlyParam(s, ds, those[j], views[b.signal.index].cell)
  {
    NotedAreDeclared(s, ds);
    CellIsOwn(s, ds, those[j]);
    assert those[j] in those;
  }
}
