/**
 An output the driver writes as well (`CNC_OUTBOARD_SIGNAL_ON_CHANGE`): the host
 applies the core's value only when it differs from the last one it applied,
 and leaves the cell to the driver between. `put` is what the pin's type makes
 of a value in its cell (`Cells.Set`); nothing here depends on what it is.
 */
module OnChange {
  // `last` and the pin's cell, and every value the host has put into the cell.
  datatype Pin<C> = Pin(last: real, cell: C, applied: seq<real>)

  datatype Event<C> =
    | Answer(value: real)
    | Driver(content: C)

  // The body of `take_answer`'s loop, for a pin with the flag.
  function TakeValue<C>(put: real -> C, p: Pin<C>, value: real): Pin<C> {
    if value == p.last then p else Pin(value, put(value), p.applied + [value])
  }

  function Step<C>(put: real -> C, p: Pin<C>, e: Event<C>): Pin<C> {
    match e
    case Answer(v) => TakeValue(put, p, v)
    case Driver(c) => p.(cell := c)
  }

  // From the pin's cell as the driver left it, and its value, the seed.
  function After<C>(put: real -> C, cell: C, seed: real, events: seq<Event<C>>): Pin<C> {
    if events == [] then Pin(seed, cell, [])
    else Step(put, After(put, cell, seed, events[..|events| - 1]), events[|events| - 1])
  }

  // --- Whose value the cell holds -------------------------------------------

  // The core's level before event `k`: the newest answer, or the seed.
  function Level<C>(seed: real, events: seq<Event<C>>): real {
    if events == [] then seed
    else match events[|events| - 1]
      case Answer(v) => v
      case Driver(_) => Level(seed, events[..|events| - 1])
  }

  // Event `k` writes the cell: the driver does, or the core's level changes.
  predicate Writes<C>(seed: real, events: seq<Event<C>>, k: nat)
    requires k < |events|
  {
    events[k].Driver? || events[k].value != Level(seed, events[..k])
  }

  function Written<C>(put: real -> C, e: Event<C>): C {
    match e
    case Answer(v) => put(v)
    case Driver(c) => c
  }

  lemma {:induction false} LastIsLevel<C>(put: real -> C, cell: C, seed: real, events: seq<Event<C>>)
    ensures After(put, cell, seed, events).last == Level(seed, events)
  {
    if events == [] {
    } else {
      LastIsLevel(put, cell, seed, events[..|events| - 1]);
    }
  }

  // Over any interleaving, the cell holds what the last writing event wrote,
  // and a writing event is the driver's or a change of the core's level.
  lemma {:induction false} CellIsLastWriter<C>(put: real -> C, cell: C, seed: real, events: seq<Event<C>>, k: nat)
    requires k < |events| && Writes(seed, events, k)
    requires forall j :: k < j < |events| ==> !Writes(seed, events, j)
    ensures After(put, cell, seed, events).cell == Written(put, events[k])
  {
    var n := |events| - 1;
    var before := events[..n];
    LastIsLevel(put, cell, seed, before);
    if k == n {
    } else {
      forall j | k <= j < n
        ensures Writes(seed, before, j) == Writes(seed, events, j)
      {
        assert before[..j] == events[..j];
      }
      CellIsLastWriter(put, cell, seed, before, k);
      assert !Writes(seed, events, n);
    }
  }

  lemma {:induction false} CellKeepsSeed<C>(put: real -> C, cell: C, seed: real, events: seq<Event<C>>)
    requires forall j :: 0 <= j < |events| ==> !Writes(seed, events, j)
    ensures After(put, cell, seed, events).cell == cell
  {
    if events == [] {
    } else {
      var n := |events| - 1;
      var before := events[..n];
      LastIsLevel(put, cell, seed, before);
      forall j | 0 <= j < n
        ensures !Writes(seed, before, j)
      {
        assert before[..j] == events[..j];
        assert !Writes(seed, events, j);
      }
      CellKeepsSeed(put, cell, seed, before);
      assert !Writes(seed, events, n);
    }
  }

  // What the card did survives: after the driver writes `c`, any number of
  // answers that repeat the core's level leave `c` in the cell.
  lemma {:induction false} CardWriteSurvives<C>(put: real -> C, cell: C, seed: real, events: seq<Event<C>>,
                                           c: C, repeats: seq<Event<C>>)
    requires forall i :: 0 <= i < |repeats| ==> repeats[i] == Answer(Level(seed, events))
    ensures After(put, cell, seed, events + [Driver(c)] + repeats).cell == c
    ensures After(put, cell, seed, events + [Driver(c)] + repeats).applied == After(put, cell, seed, events).applied
    ensures Level(seed, events + [Driver(c)] + repeats) == Level(seed, events)
  {
    var all := events + [Driver(c)] + repeats;
    if repeats == [] {
      assert all[..|all| - 1] == events;
    } else {
      CardWriteSurvives(put, cell, seed, events, c, repeats[..|repeats| - 1]);
      assert all[..|all| - 1] == events + [Driver(c)] + repeats[..|repeats| - 1];
      LastIsLevel(put, cell, seed, all[..|all| - 1]);
    }
  }

  // --- The edges of a level -------------------------------------------------

  // The value at each position that differs from the one before it.
  function Changes(levels: seq<real>): (r: seq<real>) {
    if |levels| <= 1 then []
    else
      var n := |levels| - 1;
      Changes(levels[..n]) + (if levels[n] != levels[n - 1] then [levels[n]] else [])
  }

  // What the host applies is the changes in the seed and the answers it took.
  lemma {:induction false} AppliedAreChanges<C>(put: real -> C, cell: C, seed: real, events: seq<Event<C>>, levels: seq<real>)
    requires levels == [seed] + Answers(events)
    ensures After(put, cell, seed, events).applied == Changes(levels)
    ensures Level(seed, events) == levels[|levels| - 1]
  {
    if events == [] {
    } else {
      var before := events[..|events| - 1];
      AppliedAreChanges(put, cell, seed, before, [seed] + Answers(before));
      LastIsLevel(put, cell, seed, before);
      match events[|events| - 1]
      case Answer(v) =>
        assert levels[..|levels| - 1] == [seed] + Answers(before);
      case Driver(_) =>
        assert levels == [seed] + Answers(before);
    }
  }

  function Answers<C>(events: seq<Event<C>>): seq<real> {
    if events == [] then []
    else
      var before := Answers(events[..|events| - 1]);
      match events[|events| - 1]
      case Answer(v) => before + [v]
      case Driver(_) => before
  }

  // The host does not take every answer. `numbers` are the ones it took, in
  // order, from the starting value's 0 on: none goes back, and at most one
  // answer is passed over at a time.
  ghost predicate Sampling(numbers: seq<nat>) {
    && |numbers| > 0 && numbers[0] == 0
    && forall i {:trigger NextNumber(numbers, i)} :: 0 < i < |numbers| ==> NextNumber(numbers, i)
  }

  ghost predicate NextNumber(numbers: seq<nat>, i: nat)
    requires 0 < i < |numbers|
  {
    numbers[i - 1] <= numbers[i] <= numbers[i - 1] + 2
  }

  lemma SamplingPrefix(numbers: seq<nat>)
    requires Sampling(numbers) && |numbers| > 1
    ensures Sampling(numbers[..|numbers| - 1]) && NextNumber(numbers, |numbers| - 1)
  {
    var before := numbers[..|numbers| - 1];
    forall i | 0 < i < |before|
      ensures NextNumber(before, i)
    {
      assert NextNumber(numbers, i);
    }
  }

  function Sample(levels: seq<real>, numbers: seq<nat>): (r: seq<real>)
    requires forall i :: 0 <= i < |numbers| ==> numbers[i] < |levels|
    ensures |r| == |numbers| && forall i :: 0 <= i < |r| ==> r[i] == levels[numbers[i]]
  {
    seq(|numbers|, i requires 0 <= i < |numbers| => levels[numbers[i]])
  }

  // Answer `i` holds a level it shares with the answer before or after it.
  predicate Held(levels: seq<real>, i: nat)
    requires 0 < i < |levels| - 1
  {
    levels[i] == levels[i - 1] || levels[i] == levels[i + 1]
  }

  ghost predicate SkippedAreHeld(levels: seq<real>, numbers: seq<nat>) {
    forall i {:trigger i in numbers} :: 0 < i < |levels| - 1 && i !in numbers ==> Held(levels, i)
  }

  // The host applies exactly the changes of the whole sequence of levels, up to
  // the last answer it took, if and only if every answer it passed over was
  // held for two answers. Otherwise it applies fewer writes.
  lemma {:induction false} EdgesIffHeld(levels: seq<real>, numbers: seq<nat>)
    requires Sampling(numbers) && numbers[|numbers| - 1] == |levels| - 1
    ensures forall i :: 0 <= i < |numbers| ==> numbers[i] < |levels|
    ensures Changes(Sample(levels, numbers)) == Changes(levels) <==> SkippedAreHeld(levels, numbers)
    ensures !SkippedAreHeld(levels, numbers) ==> |Changes(Sample(levels, numbers))| < |Changes(levels)|
    decreases |numbers|
  {
    var n := |numbers| - 1;
    if n == 0 {
      return;
    }
    SamplingPrefix(numbers);
    var before, m := numbers[..n], numbers[n - 1];
    var shorter := levels[..m + 1];
    EdgesIffHeld(shorter, before);
    forall i | 0 <= i < |numbers|
      ensures numbers[i] < |levels|
    {
      assert i < n ==> before[i] == numbers[i];
    }
    assert Sample(levels, numbers)[..n] == Sample(shorter, before);
    SkippedSplit(levels, numbers);
    TailChanges(levels, m);
  }

  // The last stretch of levels, from the answer taken before to the last.
  lemma TailChanges(levels: seq<real>, m: nat)
    requires m < |levels| <= m + 3
    ensures
      var last := |levels| - 1;
      var taken := if levels[last] != levels[m] then [levels[last]] else [];
      && (last < m + 2 || Held(levels, m + 1) ==> Changes(levels) == Changes(levels[..m + 1]) + taken)
      && (last == m + 2 && !Held(levels, m + 1) ==>
            |Changes(levels)| == |Changes(levels[..m + 1])| + 2)
  {
    if m + 1 == |levels| {
      assert levels[..m + 1] == levels;
    } else if m + 3 == |levels| {
      assert levels[..m + 2][..m + 1] == levels[..m + 1];
    }
  }

  lemma SkippedSplit(levels: seq<real>, numbers: seq<nat>)
    requires Sampling(numbers) && |numbers| > 1 && numbers[|numbers| - 1] == |levels| - 1
    ensures
      var m := numbers[|numbers| - 2];
      && m < |levels|
      && (SkippedAreHeld(levels, numbers) <==>
           SkippedAreHeld(levels[..m + 1], numbers[..|numbers| - 1])
           && (m + 2 == |levels| - 1 ==> Held(levels, m + 1)))
  {
    var n := |numbers| - 1;
    var before, m := numbers[..n], numbers[n - 1];
    SamplingPrefix(numbers);
    SamplingSorted(before);
    assert numbers == before + [numbers[n]];
    if SkippedAreHeld(levels, numbers) {
      forall i | 0 < i < m && i !in before
        ensures Held(levels[..m + 1], i)
      {
        assert i !in numbers;
        assert Held(levels, i);
      }
      if m + 2 == |levels| - 1 {
        assert m + 1 !in numbers;
      }
    }
    if SkippedAreHeld(levels[..m + 1], before) && (m + 2 == |levels| - 1 ==> Held(levels, m + 1)) {
      forall i | 0 < i < |levels| - 1 && i !in numbers
        ensures Held(levels, i)
      {
        assert i !in before;
        if i < m {
          assert Held(levels[..m + 1], i);
        } else {
          assert numbers[n - 1] == m;
        }
      }
    }
  }

  lemma {:induction false} SamplingSorted(numbers: seq<nat>)
    requires Sampling(numbers)
    ensures forall i :: 0 <= i < |numbers| ==> numbers[i] <= numbers[|numbers| - 1]
  {
    if |numbers| <= 1 {
    } else {
      SamplingPrefix(numbers);
      SamplingSorted(numbers[..|numbers| - 1]);
    }
  }
}
