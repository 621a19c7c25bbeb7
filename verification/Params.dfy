/**
 The parameters the configuration sets and the driver declares
 (`shim/param_table.c`): a configured name is claimed by the declaration that
 asks for it first by position, the declarations are kept in order in an array
 that doubles, and what nobody claimed can be listed.
 */
module Params {
  import opened Cells
  import opened Options

  datatype Declared = Declared(name: string, kind: Kind, cell: nat, writable: bool)

  datatype Table = Table(names: seq<string>, values: seq<real>, claimed: seq<bool>, declared: seq<Declared>)

  ghost predicate Fitting(t: Table) {
    |t.names| == |t.values| == |t.claimed|
  }

  // The first place at or after `from` that holds the name, or the length.
  function FirstOf(names: seq<string>, name: string, from: nat): (i: nat)
    requires from <= |names|
    ensures from <= i <= |names|
    ensures i < |names| ==> names[i] == name
    ensures forall j :: from <= j < i ==> names[j] != name
    decreases |names| - from
  {
    if from == |names| || names[from] == name then from else FirstOf(names, name, from + 1)
  }

  function Configured(names: seq<string>, values: seq<real>, name: string): Option<real>
    requires |names| == |values|
  {
    var i := FirstOf(names, name, 0);
    if i == |names| then None else Some(values[i])
  }

  function Claim(t: Table, name: string): Table
    requires Fitting(t)
  {
    var i := FirstOf(t.names, name, 0);
    if i == |t.names| then t else t.(claimed := t.claimed[i := true])
  }

  function Note(t: Table, d: Declared): Table {
    t.(declared := t.declared + [d])
  }

  // The names not claimed, in the configuration's order.
  function Unclaimed(names: seq<string>, claimed: seq<bool>): seq<string>
    requires |names| == |claimed|
  {
    if |names| == 0 then []
    else
      var n := |names| - 1;
      Unclaimed(names[..n], claimed[..n]) + if claimed[n] then [] else [names[n]]
  }

  // --- What the claims say --------------------------------------------------

  ghost predicate IsDeclared(declared: seq<Declared>, name: string) {
    exists k :: 0 <= k < |declared| && declared[k].name == name
  }

  // A place is claimed exactly when its name was declared and it is the first with it.
  ghost predicate Exact(t: Table) {
    && Fitting(t)
    && forall i :: 0 <= i < |t.names| ==>
         (t.claimed[i] <==> FirstOf(t.names, t.names[i], 0) == i && IsDeclared(t.declared, t.names[i]))
  }

  lemma DeclaringKeepsExact(t: Table, d: Declared)
    requires Exact(t)
    ensures Exact(Note(Claim(t, d.name), d))
  {
    var u := Note(Claim(t, d.name), d);
    var at := FirstOf(t.names, d.name, 0);
    forall i | 0 <= i < |t.names|
      ensures u.claimed[i] <==> FirstOf(t.names, t.names[i], 0) == i && IsDeclared(u.declared, t.names[i])
    {
      NotedIsDeclared(t.declared, d, t.names[i]);
      if t.names[i] == d.name {
        assert FirstOf(t.names, t.names[i], 0) == at;
      }
    }
  }

  lemma NotedIsDeclared(declared: seq<Declared>, d: Declared, name: string)
    ensures IsDeclared(declared + [d], name) <==> IsDeclared(declared, name) || d.name == name
  {
    var after := declared + [d];
    assert after[|declared|] == d;
    if IsDeclared(declared, name) {
      var k :| 0 <= k < |declared| && declared[k].name == name;
      assert after[k].name == name;
    }
  }

  // How many of the first `n` places are not claimed.
  function Open(claimed: seq<bool>, n: nat): nat
    requires n <= |claimed|
  {
    |set i: nat | i < n && !claimed[i]|
  }

  lemma OneMoreOpen(claimed: seq<bool>, n: nat)
    requires n < |claimed|
    ensures Open(claimed, n + 1) == Open(claimed, n) + if claimed[n] then 0 else 1
  {
    assert (set i: nat | i < n + 1 && !claimed[i]) == (set i: nat | i < n && !claimed[i]) + if claimed[n] then {} else {n};
  }

  // As many are listed as places are not claimed, and each place not claimed has
  // its name after those of the places before it.
  lemma {:induction false} UnclaimedAre(names: seq<string>, claimed: seq<bool>, n: nat)
    requires n <= |names| == |claimed|
    ensures |Unclaimed(names[..n], claimed[..n])| == Open(claimed, n)
    ensures forall i: nat :: i < n && !claimed[i] ==>
              Open(claimed, i) < Open(claimed, n) && Unclaimed(names[..n], claimed[..n])[Open(claimed, i)] == names[i]
  {
    if n == 0 {
    } else {
      UnclaimedAre(names, claimed, n - 1);
      OneMoreOpen(claimed, n - 1);
      assert names[..n][..n - 1] == names[..n - 1] && claimed[..n][..n - 1] == claimed[..n - 1];
    }
  }

  lemma {:induction false} UnclaimedIsNone(names: seq<string>, claimed: seq<bool>)
    requires |names| == |claimed|
    ensures Unclaimed(names, claimed) == [] <==> forall i :: 0 <= i < |claimed| ==> claimed[i]
  {
    if names == [] {
    } else {
      var n := |names| - 1;
      UnclaimedIsNone(names[..n], claimed[..n]);
      forall i | 0 <= i < n ensures claimed[..n][i] == claimed[i] {}
    }
  }

  ghost predicate Distinct(names: seq<string>) {
    forall i, j :: 0 <= i < j < |names| ==> names[i] != names[j]
  }

  // Nothing is left over exactly when every configured name was declared and
  // none was configured twice.
  lemma NoneUnclaimedIff(t: Table)
    requires Exact(t)
    ensures Unclaimed(t.names, t.claimed) == [] <==>
            Distinct(t.names) && forall i :: 0 <= i < |t.names| ==> IsDeclared(t.declared, t.names[i])
  {
    UnclaimedIsNone(t.names, t.claimed);
    if Unclaimed(t.names, t.claimed) == [] {
      forall i, j | 0 <= i < j < |t.names| ensures t.names[i] != t.names[j] {
        assert t.claimed[j];
      }
      forall i | 0 <= i < |t.names| ensures IsDeclared(t.declared, t.names[i]) {
        assert t.claimed[i];
      }
    }
  }

  // --- The table itself -----------------------------------------------------

  class ParamTable {
    const names: seq<string>
    const values: seq<real>
    const claimed: array<bool>
    var declared: array<Declared>
    var count: nat

    ghost predicate Valid()
      reads this
    {
      && |names| == |values| == claimed.Length
      && count <= declared.Length
    }

    ghost function View(): (t: Table)
      reads this, claimed, declared
      requires Valid()
      ensures Fitting(t)
    {
      Table(names, values, claimed[..], declared[..count])
    }

    constructor (names: seq<string>, values: seq<real>)
      requires |names| == |values|
      ensures Valid() && View() == Table(names, values, seq(|names|, _ => false), [])
      ensures fresh(claimed) && fresh(declared)
      ensures Exact(View())
    {
      this.names, this.values := names, values;
      claimed := new bool[|names|](_ => false);
      declared := new Declared[0];
      count := 0;
      new;
      assert claimed[..] == seq(|names|, _ => false);
    }

    // The linear search, which claims what it finds.
    method Lookup(name: string) returns (found: Option<real>)
      requires Valid()
      modifies claimed
      ensures View() == Claim(old(View()), name)
      ensures found == Configured(names, values, name)
    {
      ghost var t := View();
      for i := 0 to |names|
        invariant claimed[..] == t.claimed
        invariant FirstOf(names, name, 0) >= i
      {
        if names[i] == name {
          assert FirstOf(names, name, 0) == i;
          claimed[i] := true;
          assert claimed[..] == t.claimed[i := true];
          return Some(values[i]);
        }
      }
      return None;
    }

    // One more declaration: the array doubles when it is full, from 256.
    method Add(d: Declared)
      requires Valid()
      modifies this`declared, this`count, declared
      ensures Valid() && View() == Note(old(View()), d)
      ensures declared == old(declared) || fresh(declared)
    {
      ghost var t := View();
      if count == declared.Length {
        var bigger := new Declared[if declared.Length > 0 then declared.Length * 2 else 256](_ => d);
        for i := 0 to count
          modifies bigger
          invariant forall k :: 0 <= k < i ==> bigger[k] == declared[k]
        {
          bigger[i] := declared[i];
        }
        declared := bigger;
        assert declared[..count] == t.declared;
      }
      declared[count] := d;
      count := count + 1;
      assert declared[..count] == t.declared + [d];
    }

    // As many of the unclaimed names as fit, and how many there are.
    method ListUnclaimed(into: array<string>) returns (found: nat)
      requires Valid()
      modifies into
      ensures found == |Unclaimed(names, claimed[..])|
      ensures forall k :: 0 <= k < into.Length ==>
                into[k] == if k < found then Unclaimed(names, claimed[..])[k] else old(into[k])
    {
      found := 0;
      for i := 0 to |names|
        invariant found == |Unclaimed(names[..i], claimed[..i])|
        invariant forall k :: 0 <= k < into.Length ==>
          into[k] == if k < found then Unclaimed(names[..i], claimed[..i])[k] else old(into[k])
      {
        assert names[..i + 1][..i] == names[..i] && claimed[..i + 1][..i] == claimed[..i];
        if claimed[i] {
          continue;
        }
        if found < into.Length {
          into[found] := names[i];
        }
        found := found + 1;
      }
      assert names[..|names|] == names && claimed[..|names|] == claimed[..];
    }
  }
}
