/**
 The `pin.` lines of the configuration (`fix_pins` in `host/main.c`): each names
 a pin the driver reads and only reads, and sets it once, before the first cycle.
 */
module FixedPins {
  import opened Cells
  import opened Options
  import opened Params
  import opened Declarations
  import opened DeclarationRuns
  import Binding
  import DriverCells

  // The last entry of this name and direction among the first `n`.
  function LastNamed(entries: seq<Entry>, name: string, dir: Direction, n: nat): (k: Option<nat>)
    requires n <= |entries|
    ensures k.Some? ==> k.value < n && entries[k.value].name == name && entries[k.value].dir == dir
    ensures k.None? ==> forall i :: 0 <= i < n ==> entries[i].name != name || entries[i].dir != dir
  {
    if n == 0 then None
    else if entries[n - 1].name == name && entries[n - 1].dir == dir then Some(n - 1)
    else LastNamed(entries, name, dir, n - 1)
  }

  // The pin a line sets, when it sets one.
  function Target(entries: seq<Entry>, name: string, value: real): (k: Option<nat>)
    ensures k.Some? ==> k.value < |entries| && Fits(entries[k.value].kind, value)
  {
    var read := LastNamed(entries, name, FromCore, |entries|);
    if read.Some? && LastNamed(entries, name, ToCore, |entries|).None? && Fits(entries[read.value].kind, value)
    then read else None
  }

  ghost predicate InMemory(entries: seq<Entry>, memory: seq<Content>) {
    forall k :: 0 <= k < |entries| ==> entries[k].cell / 8 < |memory|
  }

  datatype Line = Line(name: string, value: real)

  function Fixed(entries: seq<Entry>, lines: seq<Line>): (ks: seq<nat>)
    ensures |ks| <= |lines| && forall i :: 0 <= i < |ks| ==> ks[i] < |entries|
  {
    if |lines| == 0 then []
    else
      var line := lines[|lines| - 1];
      var k := Target(entries, line.name, line.value);
      Fixed(entries, lines[..|lines| - 1]) + if k.Some? then [k.value] else []
  }

  function After(entries: seq<Entry>, memory: seq<Content>, lines: seq<Line>): (m: seq<Content>)
    requires InMemory(entries, memory)
    ensures |m| == |memory|
  {
    if |lines| == 0 then memory
    else
      var line := lines[|lines| - 1];
      var m := After(entries, memory, lines[..|lines| - 1]);
      var k := Target(entries, line.name, line.value);
      if k.None? then m
      else
        FitsIffReadBack(entries[k.value].kind, line.value);
        m[entries[k.value].cell / 8 := Set(entries[k.value].kind, line.value)]
  }

  // The search of the whole table for a line's name, each direction's last entry.
  method FindBoth(entries: seq<Entry>, name: string) returns (readByDriver: Option<nat>, written: Option<nat>)
    ensures readByDriver == LastNamed(entries, name, FromCore, |entries|)
    ensures written == LastNamed(entries, name, ToCore, |entries|)
  {
    readByDriver, written := None, None;
    for i := 0 to |entries|
      invariant readByDriver == LastNamed(entries, name, FromCore, i)
      invariant written == LastNamed(entries, name, ToCore, i)
    {
      if entries[i].name != name {
        continue;
      }
      if entries[i].dir == FromCore {
        readByDriver := Some(i);
      } else {
        written := Some(i);
      }
    }
  }

  // Every line is looked at, and the host goes on only if none was refused.
  method FixPins(entries: seq<Entry>, lines: seq<Line>, memory: array<Content>, fixed: array<nat>)
    returns (ok: bool, count: nat)
    requires InMemory(entries, memory[..]) && fixed.Length >= |lines|
    modifies memory, fixed
    ensures ok <==> |Fixed(entries, lines)| == |lines|
    ensures count <= fixed.Length && fixed[..count] == Fixed(entries, lines)
    ensures memory[..] == After(entries, old(memory[..]), lines)
  {
    ghost var before := memory[..];
    var failures := 0;
    count := 0;
    for p := 0 to |lines|
      invariant count == |Fixed(entries, lines[..p])| && fixed[..count] == Fixed(entries, lines[..p])
      invariant memory[..] == After(entries, before, lines[..p])
      invariant failures >= 0 && failures + count == p
    {
      var name, value := lines[p].name, lines[p].value;
      assert lines[..p + 1][..p] == lines[..p];
      var readByDriver, written := FindBoth(entries, name);
      if readByDriver.None? && written.None? {
        failures := failures + 1;
        continue;
      }
      if written.Some? {
        failures := failures + 1;
        continue;
      }
      var e := entries[readByDriver.value];
      if !Fits(e.kind, value) {
        failures := failures + 1;
        continue;
      }
      FitsIffReadBack(e.kind, value);
      memory[e.cell / 8] := Set(e.kind, value);
      fixed[count] := readByDriver.value;
      count := count + 1;
    }
    ok := failures == 0;
    assert lines[..|lines|] == lines;
  }

  // --- What fixing means ----------------------------------------------------

  lemma {:induction false} AllFixedTargets(entries: seq<Entry>, lines: seq<Line>)
    ensures |Fixed(entries, lines)| == |lines| <==>
            forall p :: 0 <= p < |lines| ==> Target(entries, lines[p].name, lines[p].value).Some?
  {
    if lines == [] {
    } else {
      var n := |lines| - 1;
      AllFixedTargets(entries, lines[..n]);
      forall p | 0 <= p < n ensures lines[..n][p] == lines[p] {}
    }
  }

  // What the table must have for a line: pins of the name that the driver reads,
  // the last of them of a type the value fits, and none of the name that it writes.
  ghost predicate CanBeFixed(entries: seq<Entry>, line: Line) {
    && (forall k :: 0 <= k < |entries| && entries[k].name == line.name ==> entries[k].dir == FromCore)
    && exists k: nat :: IsLastNamed(entries, line.name, k) && Fits(entries[k].kind, line.value)
  }

  ghost predicate IsLastNamed(entries: seq<Entry>, name: string, k: nat) {
    k < |entries| && entries[k].name == name && forall j :: k < j < |entries| ==> entries[j].name != name
  }

  lemma TargetIff(entries: seq<Entry>, line: Line)
    ensures Target(entries, line.name, line.value).Some? <==> CanBeFixed(entries, line)
  {
    LastIsLast(entries, line.name, |entries|);
    var read := LastNamed(entries, line.name, FromCore, |entries|);
    if CanBeFixed(entries, line) {
      var k: nat :| IsLastNamed(entries, line.name, k) && Fits(entries[k].kind, line.value);
      assert entries[k].dir == FromCore;
      assert read == Some(k);
    }
    if Target(entries, line.name, line.value).Some? {
      assert IsLastNamed(entries, line.name, read.value);
    }
  }

  lemma {:induction false} LastIsLast(entries: seq<Entry>, name: string, n: nat)
    requires n <= |entries|
    ensures forall dir :: var k := LastNamed(entries, name, dir, n);
              k.Some? ==> forall j :: k.value < j < n ==> entries[j].name != name || entries[j].dir != dir
  {
    if n == 0 {
    } else {
      LastIsLast(entries, name, n - 1);
    }
  }

  // The host goes on exactly when every line can be met.
  lemma AllFixedIff(entries: seq<Entry>, lines: seq<Line>)
    ensures |Fixed(entries, lines)| == |lines| <==>
            forall p :: 0 <= p < |lines| ==> CanBeFixed(entries, lines[p])
  {
    AllFixedTargets(entries, lines);
    forall p | 0 <= p < |lines|
      ensures Target(entries, lines[p].name, lines[p].value).Some? <==> CanBeFixed(entries, lines[p])
    {
      TargetIff(entries, lines[p]);
    }
  }

  // No line sets this pin after line `p`.
  ghost predicate NotSetAfter(entries: seq<Entry>, lines: seq<Line>, p: nat, k: nat) {
    forall q :: p < q < |lines| ==> Target(entries, lines[q].name, lines[q].value) != Some(k)
  }

  ghost predicate ReadPinsApart(entries: seq<Entry>) {
    forall j, k :: 0 <= j < k < |entries| && entries[j].dir == entries[k].dir == FromCore ==>
      entries[j].cell / 8 != entries[k].cell / 8
  }

  // The driver reads the value of the last line that set the pin, exactly.
  lemma {:induction false} LastLineIsRead(entries: seq<Entry>, memory: seq<Content>, lines: seq<Line>, p: nat, k: nat)
    requires InMemory(entries, memory) && ReadPinsApart(entries)
    requires p < |lines| && Target(entries, lines[p].name, lines[p].value) == Some(k)
    requires NotSetAfter(entries, lines, p, k)
    ensures var c := After(entries, memory, lines)[entries[k].cell / 8];
            Holds(entries[k].kind, c) && Get(entries[k].kind, c) == lines[p].value
  {
    var n := |lines| - 1;
    if p < n {
      LastLineIsRead(entries, memory, lines[..n], p, k);
      var t := Target(entries, lines[n].name, lines[n].value);
      assert t != Some(k);
    } else {
      FitsIffReadBack(entries[k].kind, lines[p].value);
    }
  }

  // A pin nobody set is left alone.
  lemma {:induction false} OthersStay(entries: seq<Entry>, memory: seq<Content>, lines: seq<Line>, w: nat)
    requires InMemory(entries, memory) && w < |memory|
    requires forall i :: 0 <= i < |Fixed(entries, lines)| ==> entries[Fixed(entries, lines)[i]].cell / 8 != w
    ensures After(entries, memory, lines)[w] == memory[w]
  {
    if lines == [] {
    } else {
      var n := |lines| - 1;
      var before, all := Fixed(entries, lines[..n]), Fixed(entries, lines);
      forall i | 0 <= i < |before| ensures entries[before[i]].cell / 8 != w {
        assert all[i] == before[i];
      }
      var k := Target(entries, lines[n].name, lines[n].value);
      if k.Some? {
        assert all[|all| - 1] == k.value;
      }
      OthersStay(entries, memory, lines[..n], w);
    }
  }

  // After any declarations the pins the driver reads are apart, as the lemma above needs.
  lemma DeclaredPinsAreApart(s: Setup, ds: seq<Declaration>)
    requires Ready(s, ds)
    ensures ReadPinsApart(Run(s, ds).entries) && InMemory(Run(s, ds).entries, Run(s, ds).memory)
  {
    var entries := Run(s, ds).entries;
    AllIsLaid(s, ds);
    forall j, k | 0 <= j < k < |entries| && entries[j].dir == entries[k].dir == FromCore
      ensures entries[j].cell / 8 != entries[k].cell / 8
    {
      SharingIsOneDeclaration(s, ds, j, k);
      MarkedWhenWhole(s, ds, j);
      MarkedWhenWhole(s, ds, k);
      assert HasCell(Run(s, ds), entries[j].cell, entries[j].kind);
      assert HasCell(Run(s, ds), entries[k].cell, entries[k].kind);
    }
  }

  lemma EntryHasName(s: Setup, ds: seq<Declaration>, k: nat)
    requires Ready(s, ds) && k < |Run(s, ds).entries|
    ensures ds[From(s, ds, k)].Pin? && Run(s, ds).entries[k].name == ds[From(s, ds, k)].name
  {
    EntryIsOwn(s, ds, k);
  }

  lemma SharersHaveOneName(s: Setup, ds: seq<Declaration>, j: nat, k: nat)
    requires Ready(s, ds) && j < |Run(s, ds).entries| && k < |Run(s, ds).entries|
    requires Run(s, ds).entries[j].cell == Run(s, ds).entries[k].cell
    ensures Run(s, ds).entries[j].name == Run(s, ds).entries[k].name
  {
    SharingIsOneDeclaration(s, ds, j, k);
    EntryHasName(s, ds, j);
    EntryHasName(s, ds, k);
  }

  // Nothing else writes a pin that a line sets: no entry of it goes to the core.
  lemma FixedIsOnlyRead(s: Setup, ds: seq<Declaration>, line: Line, k: nat)
    requires Ready(s, ds) && Target(Run(s, ds).entries, line.name, line.value) == Some(k)
    ensures !Marked(Run(s, ds).entries, k)
  {
    var entries := Run(s, ds).entries;
    forall j | 0 <= j < |entries| && entries[j].cell == entries[k].cell ensures entries[j].dir != ToCore {
      SharersHaveOneName(s, ds, j, k);
    }
  }

  // The outputs applied only on change are the both-ways pins, and a fixed pin is no output.
  lemma OnChangeIffBothWays(s: Setup, ds: seq<Declaration>, lines: seq<Line>, j: nat)
    requires Ready(s, ds)
    requires j < |Binding.PinsOut(Run(s, ds).entries, Fixed(Run(s, ds).entries, lines), |Run(s, ds).entries|)|
    ensures var entries := Run(s, ds).entries;
            var k := Binding.PinsOut(entries, Fixed(entries, lines), |entries|)[j];
            && k < |entries| && k !in Fixed(entries, lines)
            && var i := From(s, ds, k);
               && ds[i].Pin?
               && (Binding.OutputFlags(entries, k) == 1 <==>
                   OutcomeOf(s, ds, i).Done? &&
                   (ds[i].dir & 48 == 48 || exists p: string :: p != "" && ds[i].name == p + ".probe-enable"))
  {
    var entries := Run(s, ds).entries;
    var fixed := Fixed(entries, lines);
    Binding.PinsAreOrdered(entries, fixed, |entries|);
    var k := Binding.PinsOut(entries, fixed, |entries|)[j];
    assert !Binding.IsInput(entries, fixed, k);
    MarkedIffBothWays(s, ds, k);
    DriverCells.BothWaysOfReader(s, ds, k);
  }
}
