/**
 What every run of the channel keeps: no step of either process races with the
 other, every vector either side sees is one complete vector, the loop makes
 only loads its own rules allow, and no edge the core held is lost.
 */
module ChannelRuns {
  import opened HostLoop
  import opened Channel
  import OnChange

  // Whether a list of steps is a run from the start, and where it leads.
  ghost predicate Possible(z: Sizes, seeds: seq<real>, steps: seq<Step>)
    decreases |steps|, 0
  {
    |seeds| == z.outputs &&
    (steps == [] ||
     (var before := steps[..|steps| - 1];
      Possible(z, seeds, before)
      && Channel.Enabled(z, After(z, seeds, before), steps[|steps| - 1])))
  }

  ghost function After(z: Sizes, seeds: seq<real>, steps: seq<Step>): (s: State)
    requires Possible(z, seeds, steps)
    ensures Data(z, s) && Times(z, s) && Inv(z.loop, s.L())
    ensures s.seeds == seeds
    decreases |steps|, 1
  {
    if steps == [] then
      StartSafe(z, seeds);
      RunInv(z.loop, []);
      Channel.Start(z, seeds)
    else
      var s, step := After(z, seeds, steps[..|steps| - 1]), steps[|steps| - 1];
      DataKept(z, s, step);
      TimesKept(z, s, step);
      LoopKept(z, s, step);
      Do(z, s, step)
  }

  lemma LoopKept(z: Sizes, s: State, step: Step)
    requires Shape(z, s) && Inv(z.loop, s.L()) && Channel.Enabled(z, s, step)
    ensures Inv(z.loop, Do(z, s, step).L()) && Do(z, s, step).seeds == s.seeds
  {
    match step
    case LoopStep(e, load) => LoopEventAllowed(z, s, e, load);
    case Publish => PublishAllowed(z, s);
    case _ =>
  }

  // --- Races ----------------------------------------------------------------

  // The other process's last access to the half this step touches happened
  // before it: this process has acquired a release that came after it.
  ghost predicate Ordered(z: Sizes, s: State, step: Step)
    requires Shape(z, s) && Channel.Enabled(z, s, step)
  {
    var d, c := s.driver, s.core;
    match step
    case SeedCell => s.output.Of(d.at.count).coreAt <= d.clock.core
    case ReadOutput => s.output.Of(ReadHalf(s)).coreAt <= d.clock.core
    case FillInput(_) => s.input.Of(FillHalf(s)).coreAt <= d.clock.core
    case ReadSeed => s.output.Of(|c.at.got|).driverAt <= c.clock.driver
    case ReadInput => s.input.Of(CoreHalf(s)).driverAt <= c.clock.driver
    case WriteOutput => s.output.Of(CoreHalf(s)).driverAt <= c.clock.driver
    case _ => true
  }

  lemma ReadOutputOrdered(z: Sizes, s: State)
    requires Times(z, s) && CanReadOutput(z, s)
    ensures s.output.Of(ReadHalf(s)).coreAt <= s.driver.clock.core
  {
    var a, n := s.L().Last().answered, s.R();
    assert s.response[a].released.core <= s.response[s.L().seen].released.core;
    assert a == n || (a == n - 1 && !Busy(s));
  }

  lemma FillInputOrdered(z: Sizes, s: State)
    requires Times(z, s) && CanFillInput(z, s)
    ensures s.input.Of(FillHalf(s)).coreAt <= s.driver.clock.core
  {}

  lemma CoreOrdered(z: Sizes, s: State, step: Step)
    requires Times(z, s) && Data(z, s) && Channel.Enabled(z, s, step)
    requires step.ReadSeed? || step.ReadInput? || step.WriteOutput? || step.SeedCell?
    ensures Ordered(z, s, step)
  {}

  // In every run, every access either process makes to a buffer half comes
  // after all the other's accesses to it, by happens-before.
  lemma NoDataRace(z: Sizes, seeds: seq<real>, steps: seq<Step>, step: Step)
    requires Possible(z, seeds, steps) && Channel.Enabled(z, After(z, seeds, steps), step)
    ensures Ordered(z, After(z, seeds, steps), step)
  {
    var s := After(z, seeds, steps);
    match step
    case ReadOutput => ReadOutputOrdered(z, s);
    case FillInput(_) => FillInputOrdered(z, s);
    case SeedCell => CoreOrdered(z, s, step);
    case ReadSeed => CoreOrdered(z, s, step);
    case ReadInput => CoreOrdered(z, s, step);
    case WriteOutput => CoreOrdered(z, s, step);
    case _ =>
  }

  // --- Pairing --------------------------------------------------------------

  // The core hears every cycle, in order and whole, and is at most one behind;
  // every vector this process took as answer `a` is, whole, what the core
  // computed from the whole vector published as cycle `a`.
  ghost predicate Paired(s: State) {
    && |s.answers| <= |s.published| <= |s.answers| + 1
    && (forall n :: 0 <= n < |s.answers| ==> s.answers[n].heard == s.published[n])
    && forall i :: 0 <= i < |s.driver.taken| ==>
         var t := s.driver.taken[i];
         && 0 < t.answered <= |s.answers|
         && s.answers[t.answered - 1] == Exchange(s.published[t.answered - 1], t.values)
  }

  lemma DataPairs(z: Sizes, s: State)
    requires Data(z, s)
    ensures Paired(s)
  {
    assert TakenAreAnswers(s);
  }

  lemma AnswersArePaired(z: Sizes, seeds: seq<real>, steps: seq<Step>)
    requires Possible(z, seeds, steps)
    ensures Paired(After(z, seeds, steps))
  {
    DataPairs(z, After(z, seeds, steps));
  }

  // What a core reads of the output halves before its first answer is this
  // process's starting values, whole, in both halves.
  lemma SeedsReachTheCore(z: Sizes, seeds: seq<real>, steps: seq<Step>, j: nat)
    requires Possible(z, seeds, steps)
    requires After(z, seeds, steps).core.at.ReadingSeeds?
    requires j < |After(z, seeds, steps).core.at.got|
    ensures After(z, seeds, steps).core.at.got[j] == seeds[j / 2]
  {}

  // --- The loop -------------------------------------------------------------

  function EventOf(step: Step): seq<Event> {
    match step
    case LoopStep(e, _) => [e]
    case Publish => [PublishCycle]
    case _ => []
  }

  // The loop's events in a run.
  function EventsOf(steps: seq<Step>): seq<Event> {
    if steps == [] then []
    else EventsOf(steps[..|steps| - 1]) + EventOf(steps[|steps| - 1])
  }

  lemma StepIsEvent(z: Sizes, s: State, step: Step)
    requires Shape(z, s) && Inv(z.loop, s.L()) && Channel.Enabled(z, s, step)
    ensures EventOf(step) == [] ==> Do(z, s, step).L() == s.L()
    ensures EventOf(step) != [] ==>
      var e := EventOf(step)[0];
      HostLoop.Enabled(z.loop, s.L(), e) && Do(z, s, step).L() == Apply(z.loop, s.L(), e)
  {
    if step.LoopStep? {
      LoadAllowed(z, s, step.event, step.load);
    }
  }

  // Every run of the channel is a run of the loop's own automaton, so what is
  // proved of that -- the advance of answers, the watchdog -- holds of it.
  lemma {:induction false} RunsAreLoopRuns(z: Sizes, seeds: seq<real>, steps: seq<Step>)
    requires Possible(z, seeds, steps)
    ensures Legal(z.loop, EventsOf(steps))
    ensures Run(z.loop, EventsOf(steps)) == After(z, seeds, steps).L()
  {
    if steps == [] {
    } else {
      var before, step := steps[..|steps| - 1], steps[|steps| - 1];
      RunsAreLoopRuns(z, seeds, before);
      AppendEvent(z, After(z, seeds, before), EventsOf(before), step);
    }
  }

  lemma AppendEvent(z: Sizes, s: State, events: seq<Event>, step: Step)
    requires Shape(z, s) && Inv(z.loop, s.L()) && Channel.Enabled(z, s, step)
    requires Legal(z.loop, events) && Run(z.loop, events) == s.L()
    ensures Legal(z.loop, events + EventOf(step))
    ensures Run(z.loop, events + EventOf(step)) == Do(z, s, step).L()
  {
    StepIsEvent(z, s, step);
    if EventOf(step) == [] {
      assert events + EventOf(step) == events;
    } else {
      var e := EventOf(step)[0];
      Extend(z.loop, events, e);
      assert EventOf(step) == [e];
    }
  }

  // --- Edges ----------------------------------------------------------------

  // The numbers of the answers taken, from the starting value's 0 on.
  function Numbers(taken: seq<Taken>): seq<nat> {
    [0] + seq(|taken|, i requires 0 <= i < |taken| => taken[i].answered)
  }

  // Output `j` in the starting values and every answer up to the last taken.
  ghost function Levels(z: Sizes, s: State, j: nat): (r: seq<real>)
    requires Data(z, s) && j < z.outputs
    ensures |r| == LastTaken(s) + 1
  {
    TakenAreThere(z, s);
    [s.seeds[j]] + seq(LastTaken(s), n requires 0 <= n < LastTaken(s) => s.answers[n].out[j])
  }

  lemma TakenAreThere(z: Sizes, s: State)
    requires Data(z, s)
    ensures LastTaken(s) <= |s.answers|
  {
    assert TakenAreAnswers(s);
  }

  // The values of output `j` this process took.
  ghost function TakenValues(z: Sizes, s: State, j: nat): seq<real>
    requires Data(z, s) && j < z.outputs
  {
    assert TakenAreAnswers(s);
    seq(|s.driver.taken|, i requires 0 <= i < |s.driver.taken| => s.driver.taken[i].values[j])
  }

  lemma NumbersAreSampling(z: Sizes, s: State)
    requires Data(z, s)
    ensures OnChange.Sampling(Numbers(s.driver.taken))
    ensures Numbers(s.driver.taken)[|s.driver.taken|] == LastTaken(s)
  {
    var t, numbers := s.driver.taken, Numbers(s.driver.taken);
    forall i | 0 < i < |numbers|
      ensures OnChange.NextNumber(numbers, i)
    {
      if i > 1 {
        assert NextTaken(t, i - 1);
      }
    }
  }

  lemma SampleOfLevels(z: Sizes, s: State, j: nat)
    requires Data(z, s) && j < z.outputs
    requires forall i :: 0 <= i < |Numbers(s.driver.taken)| ==>
               Numbers(s.driver.taken)[i] < |Levels(z, s, j)|
    ensures OnChange.Sample(Levels(z, s, j), Numbers(s.driver.taken))
         == [s.seeds[j]] + TakenValues(z, s, j)
  {
    var levels, numbers, values := Levels(z, s, j), Numbers(s.driver.taken), TakenValues(z, s, j);
    forall i | 0 <= i < |values| ensures levels[numbers[i + 1]] == values[i] {
      TakenIsLevel(z, s, j, i);
    }
    SampleIs(levels, numbers, s.seeds[j], values);
  }

  // The value taken `i`-th is the level of the answer it came from.
  lemma TakenIsLevel(z: Sizes, s: State, j: nat, i: nat)
    requires Data(z, s) && j < z.outputs && i < |s.driver.taken|
    requires s.driver.taken[i].answered < |Levels(z, s, j)|
    ensures s.driver.taken[i].answered > 0 && j < |s.driver.taken[i].values|
    ensures Levels(z, s, j)[s.driver.taken[i].answered] == s.driver.taken[i].values[j]
  {
    assert TakenAreAnswers(s);
  }

  lemma SampleIs(levels: seq<real>, numbers: seq<nat>, seed: real, values: seq<real>)
    requires |numbers| == |values| + 1 && numbers[0] == 0 && |levels| > 0 && levels[0] == seed
    requires forall i :: 0 <= i < |numbers| ==> numbers[i] < |levels|
    requires forall i :: 0 <= i < |values| ==> levels[numbers[i + 1]] == values[i]
    ensures OnChange.Sample(levels, numbers) == [seed] + values
  {
    var sample := OnChange.Sample(levels, numbers);
    forall i | 0 <= i < |sample| ensures sample[i] == ([seed] + values)[i] {
      if i > 0 {
        assert levels[numbers[i - 1 + 1]] == values[i - 1];
      }
    }
  }

  // Whatever the driver writes into an on-change pin between, the host applies
  // exactly the changes in the core's levels -- the starting value and every
  // answer up to the last one taken -- if and only if each answer it passed
  // over was held for two. So a core that holds every level for two answers
  // loses no edge, in either mode.
  lemma NoLostEdge<C>(z: Sizes, seeds: seq<real>, steps: seq<Step>, j: nat,
                      put: real -> C, cell: C, events: seq<OnChange.Event<C>>)
    requires Possible(z, seeds, steps) && j < z.outputs
    requires OnChange.Answers(events) == TakenValues(z, After(z, seeds, steps), j)
    ensures
      var s := After(z, seeds, steps);
      var levels := Levels(z, s, j);
      && (OnChange.After(put, cell, seeds[j], events).applied == OnChange.Changes(levels) <==>
           OnChange.SkippedAreHeld(levels, Numbers(s.driver.taken)))
      && ((forall i :: 0 < i < |levels| - 1 ==> OnChange.Held(levels, i)) ==>
           OnChange.After(put, cell, seeds[j], events).applied == OnChange.Changes(levels))
  {
    var s := After(z, seeds, steps);
    var levels, numbers := Levels(z, s, j), Numbers(s.driver.taken);
    NumbersAreSampling(z, s);
    OnChange.SamplingSorted(numbers);
    SampleOfLevels(z, s, j);
    OnChange.EdgesIffHeld(levels, numbers);
    OnChange.AppliedAreChanges(put, cell, seeds[j], events, [seeds[j]] + TakenValues(z, s, j));
  }
}
