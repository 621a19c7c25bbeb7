/**
 The names the channel carries (`bind_signals`, `bind_params` and `pin_named` in
 `host/main.c`): one name per direction, for every driver whose own names are,
 with one exception that the configuration can make.
 */
module SignalNames {
  import opened Options
  import opened Params
  import opened Declarations
  import opened Binding
  import opened FixedPins
  import Cells

  // The driver uses a name once per direction for pins, and once for parameters.
  ghost predicate UniquePins(entries: seq<Entry>) {
    forall j, k :: 0 <= j < k < |entries| ==> entries[j].name != entries[k].name || entries[j].dir != entries[k].dir
  }

  ghost predicate UniqueParams(params: seq<Declared>) {
    forall j, k :: 0 <= j < k < |params| ==> params[j].name != params[k].name
  }

  function PinNames(entries: seq<Entry>, pins: seq<nat>): (names: seq<string>)
    requires forall j :: 0 <= j < |pins| ==> pins[j] < |entries|
    ensures |names| == |pins| && forall j :: 0 <= j < |names| ==> names[j] == entries[pins[j]].name
  {
    seq(|pins|, j requires 0 <= j < |pins| => entries[pins[j]].name)
  }

  function ParamNames(params: seq<Declared>, these: seq<nat>): (names: seq<string>)
    requires forall j :: 0 <= j < |these| ==> these[j] < |params|
    ensures |names| == |these| && forall j :: 0 <= j < |names| ==> names[j] == params[these[j]].name
  {
    seq(|these|, j requires 0 <= j < |these| => params[these[j]].name)
  }

  // The names of a direction, in the order of their value indices.
  ghost function InputNames(entries: seq<Entry>, fixed: seq<nat>, params: seq<Declared>): seq<string> {
    PinsAreOrdered(entries, fixed, |entries|);
    ParamsAreFew(entries, params, |params|);
    PinNames(entries, PinsIn(entries, fixed, |entries|)) + ParamNames(params, ParamsIn(entries, params, |params|))
  }

  ghost function OutputNames(entries: seq<Entry>, fixed: seq<nat>, params: seq<Declared>): seq<string> {
    PinsAreOrdered(entries, fixed, |entries|);
    ParamsAreFew(entries, params, |params|);
    PinNames(entries, PinsOut(entries, fixed, |entries|)) + ParamNames(params, ParamsOut(entries, params, |params|))
  }

  // --- Joined lists of names ------------------------------------------------

  lemma DistinctJoin(a: seq<string>, b: seq<string>)
    requires Distinct(a) && Distinct(b)
    ensures Distinct(a + b) <==> forall j, k :: 0 <= j < |a| && 0 <= k < |b| ==> a[j] != b[k]
  {
    var all := a + b;
    if Distinct(all) {
      forall j, k | 0 <= j < |a| && 0 <= k < |b| ensures a[j] != b[k] {
        assert all[j] == a[j] && all[|a| + k] == b[k];
      }
    }
  }

  lemma PinNamesDistinct(entries: seq<Entry>, pins: seq<nat>)
    requires forall j :: 0 <= j < |pins| ==> pins[j] < |entries|
    requires forall j, k :: 0 <= j < k < |pins| ==> entries[pins[j]].name != entries[pins[k]].name
    ensures Distinct(PinNames(entries, pins))
  {}

  lemma ParamNamesDistinct(params: seq<Declared>, these: seq<nat>)
    requires UniqueParams(params)
    requires forall j :: 0 <= j < |these| ==> these[j] < |params|
    requires forall j, k :: 0 <= j < k < |these| ==> these[j] < these[k]
    ensures Distinct(ParamNames(params, these))
  {}

  // --- One name per direction -----------------------------------------------

  lemma OutputNamesAreUnique(entries: seq<Entry>, fixed: seq<nat>, params: seq<Declared>)
    requires UniquePins(entries) && UniqueParams(params)
    ensures Distinct(OutputNames(entries, fixed, params))
  {
    var pins, these := PinsOut(entries, fixed, |entries|), ParamsOut(entries, params, |params|);
    PinsAreOrdered(entries, fixed, |entries|);
    ParamsAreFew(entries, params, |params|);
    ParamsIncrease(entries, params, |params|);
    PinNamesDistinct(entries, pins);
    ParamNamesDistinct(params, these);
    var a, b := PinNames(entries, pins), ParamNames(params, these);
    forall j, k | 0 <= j < |a| && 0 <= k < |b| ensures a[j] != b[k] {
      ParamIsBoundIff(entries, params, these[k]);
    }
    DistinctJoin(a, b);
  }

  // A line that sets a pin names no pin on its way to the core.
  lemma TargetIsAlone(entries: seq<Entry>, lines: seq<Line>, k: nat)
    requires k in Fixed(entries, lines)
    ensures k < |entries| && entries[k].dir == FromCore && !Named(entries, entries[k].name, ToCore)
  {
    var p := FixedHasLine(entries, lines, k);
  }

  lemma {:induction false} FixedHasLine(entries: seq<Entry>, lines: seq<Line>, k: nat) returns (p: nat)
    requires k in Fixed(entries, lines)
    ensures p < |lines| && Target(entries, lines[p].name, lines[p].value) == Some(k) && entries[k].name == lines[p].name
  {
    var n := |lines| - 1;
    if Target(entries, lines[n].name, lines[n].value) == Some(k) {
      p := n;
    } else {
      p := FixedHasLine(entries, lines[..n], k);
    }
  }

  lemma {:induction false} LineIsFixed(entries: seq<Entry>, lines: seq<Line>, p: nat, k: nat)
    requires p < |lines| && Target(entries, lines[p].name, lines[p].value) == Some(k)
    ensures k in Fixed(entries, lines)
  {
    var n := |lines| - 1;
    if p == n {
    } else {
      LineIsFixed(entries, lines[..n], p, k);
    }
  }

  lemma PinInputsDistinct(entries: seq<Entry>, lines: seq<Line>)
    requires UniquePins(entries)
    ensures var pins := PinsIn(entries, Fixed(entries, lines), |entries|);
            && (forall j :: 0 <= j < |pins| ==> pins[j] < |entries|)
            && Distinct(PinNames(entries, pins))
  {
    var fixed := Fixed(entries, lines);
    var pins := PinsIn(entries, fixed, |entries|);
    PinsAreOrdered(entries, fixed, |entries|);
    forall j, k | 0 <= j < k < |pins| ensures entries[pins[j]].name != entries[pins[k]].name {
      if entries[pins[j]].dir == FromCore {
        TargetIsAlone(entries, lines, pins[j]);
      }
      if entries[pins[k]].dir == FromCore {
        TargetIsAlone(entries, lines, pins[k]);
      }
    }
    PinNamesDistinct(entries, pins);
  }

  ghost predicate NamesParam(params: seq<Declared>, name: string) {
    exists q :: 0 <= q < |params| && params[q].name == name
  }

  // No input has another's name if and only if no pin that a line sets has a
  // parameter's: `pin_named` looks for pins that the driver writes only.
  lemma InputNamesAreUniqueIff(entries: seq<Entry>, lines: seq<Line>, params: seq<Declared>)
    requires UniquePins(entries) && UniqueParams(params) && |Fixed(entries, lines)| == |lines|
    ensures Distinct(InputNames(entries, Fixed(entries, lines), params)) <==>
            forall p :: 0 <= p < |lines| ==> !NamesParam(params, lines[p].name)
  {
    var fixed := Fixed(entries, lines);
    var pins, these := PinsIn(entries, fixed, |entries|), ParamsIn(entries, params, |params|);
    PinInputsDistinct(entries, lines);
    PinsAreOrdered(entries, fixed, |entries|);
    ParamsAreFew(entries, params, |params|);
    ParamsIncrease(entries, params, |params|);
    ParamNamesDistinct(params, these);
    DistinctJoin(PinNames(entries, pins), ParamNames(params, these));
    if forall p :: 0 <= p < |lines| ==> !NamesParam(params, lines[p].name) {
      forall j, k | 0 <= j < |pins| && 0 <= k < |these| ensures entries[pins[j]].name != params[these[k]].name {
        ParamsHold(entries, params, |params|, these[k]);
        NoClash(entries, lines, params, pins[j], these[k]);
      }
    } else {
      var p :| 0 <= p < |lines| && NamesParam(params, lines[p].name);
      Clash(entries, lines, params, p);
    }
  }

  lemma NoClash(entries: seq<Entry>, lines: seq<Line>, params: seq<Declared>, k: nat, q: nat)
    requires forall p :: 0 <= p < |lines| ==> !NamesParam(params, lines[p].name)
    requires k < |entries| && IsInput(entries, Fixed(entries, lines), k)
    requires q < |params| && !Named(entries, params[q].name, ToCore)
    ensures entries[k].name != params[q].name
  {
    if entries[k].dir == FromCore {
      var p := FixedHasLine(entries, lines, k);
      assert !NamesParam(params, lines[p].name);
    }
  }

  lemma Clash(entries: seq<Entry>, lines: seq<Line>, params: seq<Declared>, p: nat)
    requires |Fixed(entries, lines)| == |lines| && p < |lines| && NamesParam(params, lines[p].name)
    ensures var pins, these := PinsIn(entries, Fixed(entries, lines), |entries|), ParamsIn(entries, params, |params|);
            exists j, k :: 0 <= j < |pins| && 0 <= k < |these| && pins[j] < |entries| && these[k] < |params|
              && entries[pins[j]].name == params[these[k]].name
  {
    AllFixedTargets(entries, lines);
    var fixed := Fixed(entries, lines);
    var t := Target(entries, lines[p].name, lines[p].value).value;
    LineIsFixed(entries, lines, p, t);
    TargetIsAlone(entries, lines, t);
    EveryPinOnce(entries, fixed, t);
    PinsAreOrdered(entries, fixed, |entries|);
    var j := |PinsIn(entries, fixed, t)|;
    assert PinsIn(entries, fixed, |entries|)[j] == t;
    var q :| 0 <= q < |params| && params[q].name == lines[p].name;
    ParamsHold(entries, params, |params|, q);
    assert entries[t].name == params[q].name;
  }

  // An input of which there are two.
  lemma TwoInputsOneName()
    ensures var entries := [Entry("a", Cells.Uint, FromCore, 0)];
            var params, lines := [Declared("a", Cells.Uint, 8, false)], [Line("a", 1.0)];
            && |Fixed(entries, lines)| == |lines|
            && !Distinct(InputNames(entries, Fixed(entries, lines), params))
  {
    var entries := [Entry("a", Cells.Uint, FromCore, 0)];
    var params, lines := [Declared("a", Cells.Uint, 8, false)], [Line("a", 1.0)];
    var before: seq<Line> := lines[..0];
    assert Fixed(entries, before) == [];
    assert LastNamed(entries, "a", FromCore, 1) == Some(0);
    assert LastNamed(entries, "a", ToCore, 0) == None;
    assert Target(entries, "a", 1.0) == Some(0);
    assert params[0].name == lines[0].name;
    assert NamesParam(params, lines[0].name);
    InputNamesAreUniqueIff(entries, lines, params);
  }
}
