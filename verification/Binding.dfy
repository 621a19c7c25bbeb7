/**
 Binding at start-up (`host/main.c`): every pin and parameter the driver
 declared becomes an input or an output of the channel with a dense index,
 first the pins `pin.` lines fix, and which outputs are only applied on change.
 */
module Binding {
  import opened Cells
  import opened Params
  import opened Declarations
  import opened DeclarationRuns

  const ON_CHANGE: nat := 1
  const FIXED: nat := 2

  // What a bound signal points at: an entry of the shim's table, or a view of a parameter.
  datatype Source = AtPin(index: nat) | AtView(index: nat)

  datatype Bound = Bound(signal: Source, valueIndex: nat, flags: nat)

  // --- Who goes where -------------------------------------------------------

  // A pin goes to the core when the driver writes it, or when it is fixed.
  predicate IsInput(entries: seq<Entry>, fixed: seq<nat>, i: nat)
    requires i < |entries|
  {
    entries[i].dir == ToCore || i in fixed
  }

  function PinsIn(entries: seq<Entry>, fixed: seq<nat>, n: nat): seq<nat>
    requires n <= |entries|
  {
    if n == 0 then []
    else PinsIn(entries, fixed, n - 1) + if IsInput(entries, fixed, n - 1) then [n - 1] else []
  }

  function PinsOut(entries: seq<Entry>, fixed: seq<nat>, n: nat): seq<nat>
    requires n <= |entries|
  {
    if n == 0 then []
    else PinsOut(entries, fixed, n - 1) + if IsInput(entries, fixed, n - 1) then [] else [n - 1]
  }

  ghost predicate Named(entries: seq<Entry>, name: string, dir: Direction) {
    exists i :: 0 <= i < |entries| && entries[i].dir == dir && entries[i].name == name
  }

  // A parameter is read back unless a pin has its name on the way to the core,
  // and written too when the driver lets it be and no pin has its name the other way.
  ghost function ParamsIn(entries: seq<Entry>, params: seq<Declared>, n: nat): seq<nat>
    requires n <= |params|
  {
    if n == 0 then []
    else ParamsIn(entries, params, n - 1) + if Named(entries, params[n - 1].name, ToCore) then [] else [n - 1]
  }

  ghost predicate IsWritten(entries: seq<Entry>, p: Declared) {
    !Named(entries, p.name, ToCore) && p.writable && !Named(entries, p.name, FromCore)
  }

  ghost function ParamsOut(entries: seq<Entry>, params: seq<Declared>, n: nat): seq<nat>
    requires n <= |params|
  {
    if n == 0 then []
    else ParamsOut(entries, params, n - 1) + if IsWritten(entries, params[n - 1]) then [n - 1] else []
  }

  // In order, without repeats, and all on one side.
  ghost predicate OnSide(entries: seq<Entry>, fixed: seq<nat>, pins: seq<nat>, n: nat, input: bool) {
    && n <= |entries|
    && (forall j :: 0 <= j < |pins| ==> pins[j] < n && IsInput(entries, fixed, pins[j]) == input)
    && forall j, k :: 0 <= j < k < |pins| ==> pins[j] < pins[k]
  }

  lemma NextOnSide(entries: seq<Entry>, fixed: seq<nat>, pins: seq<nat>, n: nat, input: bool, more: seq<nat>)
    requires OnSide(entries, fixed, pins, n, input) && n < |entries|
    requires more == pins + if IsInput(entries, fixed, n) == input then [n] else []
    ensures OnSide(entries, fixed, more, n + 1, input)
  {
    assert |more| > 0 ==> more[|more| - 1] <= n;
  }

  lemma {:induction false} InSide(entries: seq<Entry>, fixed: seq<nat>, n: nat)
    requires n <= |entries|
    ensures OnSide(entries, fixed, PinsIn(entries, fixed, n), n, true)
  {
    if n == 0 {
    } else {
      InSide(entries, fixed, n - 1);
      NextOnSide(entries, fixed, PinsIn(entries, fixed, n - 1), n - 1, true, PinsIn(entries, fixed, n));
    }
  }

  lemma {:induction false} OutSide(entries: seq<Entry>, fixed: seq<nat>, n: nat)
    requires n <= |entries|
    ensures OnSide(entries, fixed, PinsOut(entries, fixed, n), n, false)
  {
    if n == 0 {
    } else {
      OutSide(entries, fixed, n - 1);
      NextOnSide(entries, fixed, PinsOut(entries, fixed, n - 1), n - 1, false, PinsOut(entries, fixed, n));
    }
  }

  lemma {:induction false} SidesAreAll(entries: seq<Entry>, fixed: seq<nat>, n: nat)
    requires n <= |entries|
    ensures |PinsIn(entries, fixed, n)| + |PinsOut(entries, fixed, n)| == n
  {
    if n == 0 {
    } else {
      SidesAreAll(entries, fixed, n - 1);
    }
  }

  // The lists are in the table's order, without repeats, and hold all of it.
  lemma PinsAreOrdered(entries: seq<Entry>, fixed: seq<nat>, n: nat)
    requires n <= |entries|
    ensures var a, b := PinsIn(entries, fixed, n), PinsOut(entries, fixed, n);
            && |a| + |b| == n
            && (forall j :: 0 <= j < |a| ==> a[j] < n && IsInput(entries, fixed, a[j]))
            && (forall j :: 0 <= j < |b| ==> b[j] < n && !IsInput(entries, fixed, b[j]))
            && (forall j, k :: 0 <= j < k < |a| ==> a[j] < a[k])
            && (forall j, k :: 0 <= j < k < |b| ==> b[j] < b[k])
  {
    InSide(entries, fixed, n);
    OutSide(entries, fixed, n);
    SidesAreAll(entries, fixed, n);
  }

  // Its place is how many of its side come before it.
  lemma {:induction false} PinPlace(entries: seq<Entry>, fixed: seq<nat>, n: nat, i: nat)
    requires i < n <= |entries|
    ensures var a, b := PinsIn(entries, fixed, n), PinsOut(entries, fixed, n);
            var j, k := |PinsIn(entries, fixed, i)|, |PinsOut(entries, fixed, i)|;
            if IsInput(entries, fixed, i) then j < |a| && a[j] == i else k < |b| && b[k] == i
  {
    if i == n - 1 {
    } else {
      PinPlace(entries, fixed, n - 1, i);
    }
  }

  // Each pin is in one of the lists, at one place, and at no other of either.
  lemma EveryPinOnce(entries: seq<Entry>, fixed: seq<nat>, i: nat)
    requires i < |entries|
    ensures var a, b := PinsIn(entries, fixed, |entries|), PinsOut(entries, fixed, |entries|);
            && (forall j :: 0 <= j < |a| ==>
                  (a[j] == i <==> IsInput(entries, fixed, i) && j == |PinsIn(entries, fixed, i)|))
            && (forall j :: 0 <= j < |b| ==>
                  (b[j] == i <==> !IsInput(entries, fixed, i) && j == |PinsOut(entries, fixed, i)|))
            && (if IsInput(entries, fixed, i) then |PinsIn(entries, fixed, i)| < |a|
                else |PinsOut(entries, fixed, i)| < |b|)
  {
    PinsAreOrdered(entries, fixed, |entries|);
    PinPlace(entries, fixed, |entries|, i);
  }

  lemma {:induction false} ParamsAreFew(entries: seq<Entry>, params: seq<Declared>, n: nat)
    requires n <= |params|
    ensures |ParamsOut(entries, params, n)| <= |ParamsIn(entries, params, n)| <= n
    ensures forall j :: 0 <= j < |ParamsIn(entries, params, n)| ==> ParamsIn(entries, params, n)[j] < n
    ensures forall j :: 0 <= j < |ParamsOut(entries, params, n)| ==> ParamsOut(entries, params, n)[j] < n
  {
    if n == 0 {
    } else {
      ParamsAreFew(entries, params, n - 1);
    }
  }

  ghost predicate Increasing(these: seq<nat>) {
    forall j, k :: 0 <= j < k < |these| ==> these[j] < these[k]
  }

  lemma NextIncreasing(these: seq<nat>, n: nat, take: bool)
    requires Increasing(these) && forall j :: 0 <= j < |these| ==> these[j] < n
    ensures Increasing(these + if take then [n] else [])
  {}

  lemma {:induction false} ParamsIncrease(entries: seq<Entry>, params: seq<Declared>, n: nat)
    requires n <= |params|
    ensures Increasing(ParamsIn(entries, params, n)) && Increasing(ParamsOut(entries, params, n))
  {
    if n == 0 {
    } else {
      ParamsIncrease(entries, params, n - 1);
      ParamsAreFew(entries, params, n - 1);
      NextIncreasing(ParamsIn(entries, params, n - 1), n - 1, !Named(entries, params[n - 1].name, ToCore));
      NextIncreasing(ParamsOut(entries, params, n - 1), n - 1, IsWritten(entries, params[n - 1]));
    }
  }

  lemma {:induction false} ParamsHold(entries: seq<Entry>, params: seq<Declared>, n: nat, k: nat)
    requires n <= |params|
    ensures k in ParamsIn(entries, params, n) <==> k < n && !Named(entries, params[k].name, ToCore)
    ensures k in ParamsOut(entries, params, n) <==> k < n && IsWritten(entries, params[k])
  {
    if n == 0 {
    } else {
      ParamsHold(entries, params, n - 1, k);
    }
  }

  // A parameter is read back unless a pin has its name on the way to the core,
  // and written too when the driver lets it be and no pin has its name at all.
  lemma ParamIsBoundIff(entries: seq<Entry>, params: seq<Declared>, k: nat)
    ensures k in ParamsIn(entries, params, |params|) <==>
            k < |params| && !exists i :: 0 <= i < |entries| && entries[i].dir == ToCore && entries[i].name == params[k].name
    ensures k in ParamsOut(entries, params, |params|) <==>
            k < |params| && params[k].writable && !exists i :: 0 <= i < |entries| && entries[i].name == params[k].name
  {
    ParamsHold(entries, params, |params|, k);
    if k < |params| && !IsWritten(entries, params[k]) && params[k].writable {
      var dir := if Named(entries, params[k].name, ToCore) then ToCore else FromCore;
      var i :| 0 <= i < |entries| && entries[i].dir == dir && entries[i].name == params[k].name;
    }
  }

  // --- What binding leaves --------------------------------------------------

  function PinFlags(entries: seq<Entry>, i: nat): nat
    requires i < |entries|
  {
    if entries[i].dir == ToCore then 0 else FIXED
  }

  ghost function OutputFlags(entries: seq<Entry>, i: nat): nat
    requires i < |entries|
  {
    if Marked(entries, i) then ON_CHANGE else 0
  }

  // The `j`-th signal of a direction is bound to this pin, or to a view of this parameter.
  ghost predicate IsPin(bound: seq<Bound>, j: nat, pin: nat, flags: nat)
    requires j < |bound|
  {
    bound[j] == Bound(AtPin(pin), j, flags)
  }

  ghost predicate IsParam(bound: seq<Bound>, views: seq<Entry>, j: nat, p: Declared, dir: Direction, flags: nat)
    requires j < |bound|
  {
    && bound[j].signal.AtView? && bound[j].valueIndex == j && bound[j].flags == flags
    && bound[j].signal.index < |views| && views[bound[j].signal.index] == Entry(p.name, p.kind, dir, p.cell)
  }

  ghost predicate PinInputsBound(entries: seq<Entry>, inputs: seq<Bound>, pins: seq<nat>) {
    && |pins| <= |inputs|
    && forall j :: 0 <= j < |pins| ==> pins[j] < |entries| && IsPin(inputs, j, pins[j], PinFlags(entries, pins[j]))
  }

  ghost predicate PinOutputsBound(entries: seq<Entry>, outputs: seq<Bound>, pins: seq<nat>) {
    && |pins| <= |outputs|
    && forall j :: 0 <= j < |pins| ==> pins[j] < |entries| && IsPin(outputs, j, pins[j], OutputFlags(entries, pins[j]))
  }

  ghost predicate ParamsBound(params: seq<Declared>, bound: seq<Bound>, views: seq<Entry>,
                              first: nat, these: seq<nat>, dir: Direction, flags: nat)
  {
    && first + |these| <= |bound|
    && forall j :: 0 <= j < |these| ==>
         these[j] < |params| && IsParam(bound, views, first + j, params[these[j]], dir, flags)
  }

  // More signals and more views leave what is bound as it is.
  lemma ParamsStayBound(params: seq<Declared>, bound: seq<Bound>, views: seq<Entry>, first: nat, these: seq<nat>,
                        dir: Direction, flags: nat, more: seq<Bound>, others: seq<Entry>)
    requires ParamsBound(params, bound, views, first, these, dir, flags)
    requires bound <= more && views <= others
    ensures ParamsBound(params, more, others, first, these, dir, flags)
  {
    forall j | 0 <= j < |these|
      ensures IsParam(more, others, first + j, params[these[j]], dir, flags)
    {
      assert IsParam(bound, views, first + j, params[these[j]], dir, flags);
    }
  }

  lemma ParamIsBound(params: seq<Declared>, bound: seq<Bound>, views: seq<Entry>, first: nat, these: seq<nat>,
                     dir: Direction, flags: nat, k: nat)
    requires ParamsBound(params, bound, views, first, these, dir, flags)
    requires |bound| == first + |these| && k < |params|
    ensures ParamsBound(params, bound + [Bound(AtView(|views|), |bound|, flags)], views + [Entry(params[k].name, params[k].kind, dir, params[k].cell)],
                        first, these + [k], dir, flags)
  {
    var more, others := bound + [Bound(AtView(|views|), |bound|, flags)], views + [Entry(params[k].name, params[k].kind, dir, params[k].cell)];
    var all := these + [k];
    forall j | 0 <= j < |all|
      ensures all[j] < |params| && IsParam(more, others, first + j, params[all[j]], dir, flags)
    {
      if j < |these| {
        assert IsParam(bound, views, first + j, params[these[j]], dir, flags);
      }
    }
  }

  // After the first `first` signals, one for each of these parameters: its place,
  // its flags, and a view with the parameter's name, type and cell.
  ghost predicate PointAt(bound: seq<Bound>, views: seq<Entry>, params: seq<Declared>,
                          first: nat, these: seq<nat>, dir: Direction, flags: nat)
  {
    && first + |these| <= |bound|
    && forall j :: 0 <= j < |these| ==>
         && these[j] < |params|
         && var b, p := bound[first + j], params[these[j]];
            && b.signal.AtView? && b.signal.index < |views| && b.valueIndex == first + j && b.flags == flags
            && views[b.signal.index] == Entry(p.name, p.kind, dir, p.cell)
  }

  lemma BoundPointAt(params: seq<Declared>, bound: seq<Bound>, views: seq<Entry>, first: nat, these: seq<nat>,
                     dir: Direction, flags: nat)
    requires ParamsBound(params, bound, views, first, these, dir, flags)
    ensures PointAt(bound, views, params, first, these, dir, flags)
  {
    forall j | 0 <= j < |these| ensures IsParam(bound, views, first + j, params[these[j]], dir, flags) {}
  }

  // What the host leaves bound on the way to the core, in full: which pins and
  // then which parameters, each with its place, its flags and what it points at.
  ghost predicate InputsCarry(entries: seq<Entry>, fixed: seq<nat>, params: seq<Declared>,
                              inputs: seq<Bound>, views: seq<Entry>, pins: seq<nat>, these: seq<nat>)
  {
    && |inputs| == |pins| + |these| && Increasing(pins) && Increasing(these)
    && (forall i: nat :: i in pins <==> i < |entries| && (entries[i].dir == ToCore || i in fixed))
    && (forall k: nat :: k in these <==>
          k < |params| && !exists i :: 0 <= i < |entries| && entries[i].dir == ToCore && entries[i].name == params[k].name)
    && (forall j :: 0 <= j < |pins| ==>
          pins[j] < |entries| && inputs[j] == Bound(AtPin(pins[j]), j, if entries[pins[j]].dir == ToCore then 0 else 2))
    && PointAt(inputs, views, params, |pins|, these, ToCore, 0)
  }

  // And on the way from it.
  ghost predicate OutputsCarry(entries: seq<Entry>, fixed: seq<nat>, params: seq<Declared>,
                               outputs: seq<Bound>, views: seq<Entry>, pins: seq<nat>, these: seq<nat>)
  {
    && |outputs| == |pins| + |these| && Increasing(pins) && Increasing(these)
    && (forall i: nat :: i in pins <==> i < |entries| && entries[i].dir == FromCore && i !in fixed)
    && (forall k: nat :: k in these <==>
          k < |params| && params[k].writable && !exists i :: 0 <= i < |entries| && entries[i].name == params[k].name)
    && (forall j :: 0 <= j < |pins| ==>
          pins[j] < |entries| && outputs[j] == Bound(AtPin(pins[j]), j,
            if exists i :: 0 <= i < |entries| && i != pins[j] && entries[i].cell == entries[pins[j]].cell && entries[i].dir == ToCore
            then 1 else 0))
    && PointAt(outputs, views, params, |pins|, these, FromCore, 1)
  }

  lemma PinIsOn(entries: seq<Entry>, fixed: seq<nat>, i: nat)
    ensures i in PinsIn(entries, fixed, |entries|) <==>
            i < |entries| && (entries[i].dir == ToCore || i in fixed)
    ensures i in PinsOut(entries, fixed, |entries|) <==>
            i < |entries| && entries[i].dir == FromCore && i !in fixed
  {
    PinsAreOrdered(entries, fixed, |entries|);
    if i < |entries| {
      PinPlace(entries, fixed, |entries|, i);
    }
  }

  lemma InputsAreCarried(entries: seq<Entry>, fixed: seq<nat>, params: seq<Declared>, inputs: seq<Bound>, views: seq<Entry>)
    requires var pins, these := PinsIn(entries, fixed, |entries|), ParamsIn(entries, params, |params|);
             && |inputs| == |pins| + |these| && PinInputsBound(entries, inputs, pins)
             && ParamsBound(params, inputs, views, |pins|, these, ToCore, 0)
    ensures InputsCarry(entries, fixed, params, inputs, views,
                        PinsIn(entries, fixed, |entries|), ParamsIn(entries, params, |params|))
  {
    PinsAreOrdered(entries, fixed, |entries|);
    ParamsIncrease(entries, params, |params|);
    forall i: nat { PinIsOn(entries, fixed, i); }
    forall k: nat { ParamIsBoundIff(entries, params, k); }
    BoundPointAt(params, inputs, views, |PinsIn(entries, fixed, |entries|)|, ParamsIn(entries, params, |params|), ToCore, 0);
    forall j | 0 <= j < |PinsIn(entries, fixed, |entries|)|
      ensures inputs[j] == Bound(AtPin(PinsIn(entries, fixed, |entries|)[j]), j,
                                 PinFlags(entries, PinsIn(entries, fixed, |entries|)[j]))
    {
      assert IsPin(inputs, j, PinsIn(entries, fixed, |entries|)[j], PinFlags(entries, PinsIn(entries, fixed, |entries|)[j]));
    }
  }

  lemma OutputsAreCarried(entries: seq<Entry>, fixed: seq<nat>, params: seq<Declared>, outputs: seq<Bound>, views: seq<Entry>)
    requires var pins, these := PinsOut(entries, fixed, |entries|), ParamsOut(entries, params, |params|);
             && |outputs| == |pins| + |these| && PinOutputsBound(entries, outputs, pins)
             && ParamsBound(params, outputs, views, |pins|, these, FromCore, ON_CHANGE)
    ensures OutputsCarry(entries, fixed, params, outputs, views,
                         PinsOut(entries, fixed, |entries|), ParamsOut(entries, params, |params|))
  {
    PinsAreOrdered(entries, fixed, |entries|);
    ParamsIncrease(entries, params, |params|);
    forall i: nat { PinIsOn(entries, fixed, i); }
    forall k: nat { ParamIsBoundIff(entries, params, k); }
    BoundPointAt(params, outputs, views, |PinsOut(entries, fixed, |entries|)|, ParamsOut(entries, params, |params|), FromCore, 1);
    forall j | 0 <= j < |PinsOut(entries, fixed, |entries|)|
      ensures outputs[j] == Bound(AtPin(PinsOut(entries, fixed, |entries|)[j]), j,
                                  OutputFlags(entries, PinsOut(entries, fixed, |entries|)[j]))
    {
      assert IsPin(outputs, j, PinsOut(entries, fixed, |entries|)[j], OutputFlags(entries, PinsOut(entries, fixed, |entries|)[j]));
    }
  }

  class Binder {
    const entries: seq<Entry>
    const params: seq<Declared>
    const fixed: seq<nat>
    const inputs: array<Bound>
    const outputs: array<Bound>
    const views: array<Entry>
    var inputCount: nat
    var outputCount: nat
    var viewCount: nat
    var published: nat
    var writable: nat

    ghost predicate Valid()
      reads this
    {
      && inputs.Length == outputs.Length == |entries| + |params| + 1
      && views.Length == 2 * |params| + 1
      && inputs != outputs
      && inputCount <= inputs.Length && outputCount <= outputs.Length && viewCount <= views.Length
    }

    // The tables as `bind_signals` allocates them, one more than could be needed.
    constructor (entries: seq<Entry>, params: seq<Declared>, fixed: seq<nat>)
      ensures Valid() && fresh(inputs) && fresh(outputs) && fresh(views)
      ensures this.entries == entries && this.params == params && this.fixed == fixed
      ensures inputCount == outputCount == viewCount == published == writable == 0
    {
      this.entries, this.params, this.fixed := entries, params, fixed;
      inputs := new Bound[|entries| + |params| + 1](_ => Bound(AtPin(0), 0, 0));
      outputs := new Bound[|entries| + |params| + 1](_ => Bound(AtPin(0), 0, 0));
      views := new Entry[2 * |params| + 1](_ => Entry("", Bool, ToCore, 0));
      inputCount, outputCount, viewCount, published, writable := 0, 0, 0, 0, 0;
    }

    method IsFixed(i: nat) returns (found: bool)
      ensures found <==> i in fixed
    {
      for p := 0 to |fixed|
        invariant i !in fixed[..p]
      {
        if fixed[p] == i {
          return true;
        }
      }
      return false;
    }

    // The scan of the whole table for another entry over the same cell.
    method WrittenByTheDriver(k: nat) returns (found: bool)
      requires k < |entries|
      ensures found <==> exists j :: 0 <= j < |entries| && j != k && entries[j].cell == entries[k].cell && entries[j].dir == ToCore
    {
      for i := 0 to |entries|
        invariant forall j :: 0 <= j < i && j != k ==> entries[j].cell != entries[k].cell || entries[j].dir != ToCore
      {
        if i != k && entries[i].cell == entries[k].cell && entries[i].dir == ToCore {
          return true;
        }
      }
      return false;
    }

    method PinNamed(name: string, dir: Direction) returns (found: bool)
      ensures found <==> exists i :: 0 <= i < |entries| && entries[i].dir == dir && entries[i].name == name
    {
      for i := 0 to |entries|
        invariant forall j :: 0 <= j < i ==> entries[j].dir != dir || entries[j].name != name
      {
        if entries[i].dir == dir && entries[i].name == name {
          return true;
        }
      }
      return false;
    }

    ghost predicate PinsDone(n: nat)
      requires Valid() && n <= |entries|
      reads this, inputs, outputs
    {
      && inputCount == |PinsIn(entries, fixed, n)| && outputCount == |PinsOut(entries, fixed, n)|
      && PinInputsBound(entries, inputs[..inputCount], PinsIn(entries, fixed, n))
      && PinOutputsBound(entries, outputs[..outputCount], PinsOut(entries, fixed, n))
    }

    // One pin, from the tables as they are after `i` of them.
    method BindPin(i: nat)
      requires Valid() && i < |entries| && PinsDone(i) && inputCount + outputCount == i
      modifies this`inputCount, this`outputCount, inputs, outputs
      ensures Valid() && PinsDone(i + 1) && inputCount + outputCount == i + 1
    {
      ghost var ins, outs := inputs[..inputCount], outputs[..outputCount];
      var isFixed := IsFixed(i);
      if entries[i].dir == ToCore || isFixed {
        inputs[inputCount] := Bound(AtPin(i), inputCount, if entries[i].dir == ToCore then 0 else FIXED);
        inputCount := inputCount + 1;
        assert inputs[..inputCount] == ins + [Bound(AtPin(i), |ins|, PinFlags(entries, i))];
        assert outputs[..outputCount] == outs;
      } else {
        var both := WrittenByTheDriver(i);
        outputs[outputCount] := Bound(AtPin(i), outputCount, if both then ON_CHANGE else 0);
        outputCount := outputCount + 1;
        assert outputs[..outputCount] == outs + [Bound(AtPin(i), |outs|, OutputFlags(entries, i))];
        assert inputs[..inputCount] == ins;
      }
    }

    method BindPins()
      requires Valid() && inputCount == outputCount == 0
      modifies this`inputCount, this`outputCount, inputs, outputs
      ensures Valid() && PinsDone(|entries|)
    {
      for i := 0 to |entries|
        invariant Valid() && PinsDone(i) && inputCount + outputCount == i
      {
        BindPin(i);
      }
    }

    ghost predicate ParamsDone(n: nat, firstIn: nat, firstOut: nat)
      requires Valid() && n <= |params|
      reads this, inputs, outputs, views
    {
      && published == |ParamsIn(entries, params, n)| && writable == |ParamsOut(entries, params, n)|
      && inputCount == firstIn + published && outputCount == firstOut + writable
      && viewCount == published + writable
      && ParamsBound(params, inputs[..inputCount], views[..viewCount], firstIn, ParamsIn(entries, params, n), ToCore, 0)
      && ParamsBound(params, outputs[..outputCount], views[..viewCount], firstOut, ParamsOut(entries, params, n),
                     FromCore, ON_CHANGE)
    }

    // One more parameter's signals: nothing bound before changes.
    method BindInput(p: Declared)
      requires Valid() && inputCount < inputs.Length && viewCount < views.Length
      modifies this`inputCount, this`viewCount, inputs, views
      ensures Valid() && inputCount == old(inputCount) + 1 && viewCount == old(viewCount) + 1
      ensures views[..viewCount] == old(views[..viewCount]) + [Entry(p.name, p.kind, ToCore, p.cell)]
      ensures inputs[..inputCount] == old(inputs[..inputCount]) + [Bound(AtView(old(viewCount)), old(inputCount), 0)]
    {
      views[viewCount] := Entry(p.name, p.kind, ToCore, p.cell);
      inputs[inputCount] := Bound(AtView(viewCount), inputCount, 0);
      viewCount, inputCount := viewCount + 1, inputCount + 1;
    }

    method BindOutput(p: Declared)
      requires Valid() && outputCount < outputs.Length && viewCount < views.Length
      modifies this`outputCount, this`viewCount, outputs, views
      ensures Valid() && outputCount == old(outputCount) + 1 && viewCount == old(viewCount) + 1
      ensures views[..viewCount] == old(views[..viewCount]) + [Entry(p.name, p.kind, FromCore, p.cell)]
      ensures outputs[..outputCount] ==
              old(outputs[..outputCount]) + [Bound(AtView(old(viewCount)), old(outputCount), ON_CHANGE)]
    {
      views[viewCount] := Entry(p.name, p.kind, FromCore, p.cell);
      outputs[outputCount] := Bound(AtView(viewCount), outputCount, ON_CHANGE);
      viewCount, outputCount := viewCount + 1, outputCount + 1;
    }

    // One parameter, from the tables as they are after `k` of them.
    method BindParam(k: nat, ghost firstIn: nat, ghost firstOut: nat)
      requires Valid() && k < |params| && ParamsDone(k, firstIn, firstOut)
      requires firstIn <= |entries| && firstOut <= |entries|
      modifies this, inputs, outputs, views
      ensures Valid() && ParamsDone(k + 1, firstIn, firstOut)
      ensures old(inputs[..inputCount]) <= inputs[..inputCount]
      ensures old(outputs[..outputCount]) <= outputs[..outputCount]
    {
      ParamsAreFew(entries, params, k);
      ghost var ins, outs, seen := inputs[..inputCount], outputs[..outputCount], views[..viewCount];
      ghost var these, those := ParamsIn(entries, params, k), ParamsOut(entries, params, k);
      var taken := PinNamed(params[k].name, ToCore);
      if taken {
        return;
      }
      BindInput(params[k]);
      published := published + 1;
      ParamIsBound(params, ins, seen, firstIn, these, ToCore, 0, k);
      ParamsStayBound(params, outs, seen, firstOut, those, FromCore, ON_CHANGE, outs, views[..viewCount]);
      ins, seen := inputs[..inputCount], views[..viewCount];
      taken := PinNamed(params[k].name, FromCore);
      if params[k].writable && !taken {
        BindOutput(params[k]);
        writable := writable + 1;
        ParamIsBound(params, outs, seen, firstOut, those, FromCore, ON_CHANGE, k);
        ParamsStayBound(params, ins, seen, firstIn, these + [k], ToCore, 0, ins, views[..viewCount]);
      }
    }

    method BindParams()
      requires Valid() && viewCount == published == writable == 0
      requires inputCount <= |entries| && outputCount <= |entries|
      modifies this, inputs, outputs, views
      ensures Valid() && ParamsDone(|params|, old(inputCount), old(outputCount))
      ensures old(inputs[..inputCount]) <= inputs[..inputCount]
      ensures old(outputs[..outputCount]) <= outputs[..outputCount]
    {
      ghost var ins, outs := inputs[..inputCount], outputs[..outputCount];
      for k := 0 to |params|
        invariant Valid() && ParamsDone(k, |ins|, |outs|)
        invariant ins <= inputs[..inputCount] && outs <= outputs[..outputCount]
      {
        BindParam(k, |ins|, |outs|);
      }
    }

    // Every pin and parameter bound, densely, and counted.
    method BindSignals()
      requires Valid() && inputCount == outputCount == viewCount == published == writable == 0
      modifies this, inputs, outputs, views
      ensures Valid() && viewCount == published + writable
      ensures inputCount + outputCount == |entries| + published + writable
      ensures InputsCarry(entries, fixed, params, inputs[..inputCount], views[..viewCount],
                          PinsIn(entries, fixed, |entries|), ParamsIn(entries, params, |params|))
      ensures OutputsCarry(entries, fixed, params, outputs[..outputCount], views[..viewCount],
                           PinsOut(entries, fixed, |entries|), ParamsOut(entries, params, |params|))
    {
      BindPins();
      PinsAreOrdered(entries, fixed, |entries|);
      BindParams();
      InputsAreCarried(entries, fixed, params, inputs[..inputCount], views[..viewCount]);
      OutputsAreCarried(entries, fixed, params, outputs[..outputCount], views[..viewCount]);
    }
  }
}
