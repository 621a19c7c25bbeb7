/**
 The channel can do everything its loop can: for every run of the loop's
 automaton there is an interleaving of this process and a core, one cell at a
 time, that makes it. So what the automaton reaches -- a skipped answer, the
 watchdog's worst case -- is reached on the channel.
 */
module ChannelWitness {
  import opened HostLoop
  import opened Channel
  import opened ChannelRuns
  import OnChange

  // Where both processes are, without clocks and without what their cells hold.
  datatype DriverDoes = Seeds(count: nat) | Idle | Reads(count: nat) | Fills(count: nat)

  datatype CoreDoes = Off | CopiesSeeds(count: nat) | Waits | Hears(count: nat) | Answers(out: seq<real>, count: nat)

  // `outs` are the core's answers and `taken` the numbers of those taken.
  datatype View = View(
    loop: Loop, driver: DriverDoes, core: CoreDoes, coreSeen: nat, outs: seq<seq<real>>, taken: seq<nat>)

  function DriverOf(at: DriverAt): DriverDoes {
    match at
    case Seeding(count) => Seeds(count)
    case Cycling => Idle
    case Reading(got) => Reads(|got|)
    case Filling(put) => Fills(|put|)
  }

  function CoreOf(at: CoreAt): CoreDoes {
    match at
    case Detached => Off
    case ReadingSeeds(got) => CopiesSeeds(|got|)
    case Waiting => Waits
    case ReadingInputs(heard) => Hears(|heard|)
    case WritingOutputs(_, out, written) => Answers(out, written)
  }

  function Outs(answers: seq<Exchange>): (r: seq<seq<real>>)
    ensures |r| == |answers| && forall i :: 0 <= i < |r| ==> r[i] == answers[i].out
  {
    seq(|answers|, i requires 0 <= i < |answers| => answers[i].out)
  }

  function TakenNumbers(taken: seq<Taken>): (r: seq<nat>)
    ensures |r| == |taken| && forall i :: 0 <= i < |r| ==> r[i] == taken[i].answered
  {
    seq(|taken|, i requires 0 <= i < |taken| => taken[i].answered)
  }

  function Of(s: State): View {
    View(s.L(), DriverOf(s.driver.at), CoreOf(s.core.at), s.core.seen, Outs(s.answers), TakenNumbers(s.driver.taken))
  }

  // --- What each step does to the view --------------------------------------

  lemma OutsGrow(answers: seq<Exchange>, e: Exchange)
    ensures Outs(answers + [e]) == Outs(answers) + [e.out]
  {}

  lemma TakenGrow(taken: seq<Taken>, t: Taken)
    ensures TakenNumbers(taken + [t]) == TakenNumbers(taken) + [t.answered]
  {}

  lemma SeedSeen(z: Sizes, s: State)
    requires Shape(z, s) && Of(s).driver.Seeds? && Of(s).driver.count < 2 * z.outputs
    ensures CanSeedCell(z, s) && Of(DoSeedCell(z, s)) == Of(s).(driver := Seeds(Of(s).driver.count + 1))
  {}

  lemma RunningSeen(z: Sizes, s: State)
    requires Shape(z, s) && Of(s).driver == Seeds(2 * z.outputs)
    ensures CanSetRunning(z, s) && Of(DoSetRunning(z, s)) == Of(s).(driver := Idle)
  {}

  lemma AttachSeen(z: Sizes, s: State)
    requires Shape(z, s) && Of(s).core.Off? && Of(s).driver.Idle?
    ensures CanAttach(s) && Of(DoAttach(s)) == Of(s).(core := CopiesSeeds(0))
  {}

  lemma ReadSeedSeen(z: Sizes, s: State)
    requires Shape(z, s) && Of(s).core.CopiesSeeds? && Of(s).core.count < 2 * z.outputs
    ensures CanReadSeed(z, s) && Of(DoReadSeed(z, s)) == Of(s).(core := CopiesSeeds(Of(s).core.count + 1))
  {}

  lemma SeedsDoneSeen(z: Sizes, s: State)
    requires Shape(z, s) && Of(s).core == CopiesSeeds(2 * z.outputs)
    ensures CanFinishSeeds(z, s) && Of(DoFinishSeeds(s)) == Of(s).(core := Waits)
  {}

  // The newest cycle is one the core has not answered.
  lemma HearSeen(z: Sizes, s: State)
    requires Shape(z, s) && Of(s).core.Waits? && Of(s).loop.cycle == |Of(s).outs| + 1
    ensures CanLoadCycle(s, s.L().cycle)
    ensures Of(DoLoadCycle(z, s, s.L().cycle)) == Of(s).(core := Hears(0), coreSeen := Of(s).loop.cycle)
  {}

  lemma ReadInputSeen(z: Sizes, s: State)
    requires Shape(z, s) && Of(s).core.Hears? && Of(s).core.count < z.inputs
    ensures CanReadInput(z, s) && Of(DoReadInput(z, s)) == Of(s).(core := Hears(Of(s).core.count + 1))
  {}

  lemma ComputeSeen(z: Sizes, s: State, out: seq<real>)
    requires Shape(z, s) && Of(s).core == Hears(z.inputs) && |out| == z.outputs
    ensures CanCompute(z, s, out) && Of(DoCompute(z, s, out)) == Of(s).(core := Answers(out, 0))
  {}

  lemma WriteOutputSeen(z: Sizes, s: State)
    requires Shape(z, s) && Of(s).core.Answers? && Of(s).core.count < z.outputs
    ensures CanWriteOutput(z, s)
    ensures Of(DoWriteOutput(z, s)) == Of(s).(core := Answers(Of(s).core.out, Of(s).core.count + 1))
  {}

  lemma RespondSeen(z: Sizes, s: State)
    requires Shape(z, s) && Of(s).core.Answers? && Of(s).core.count == z.outputs
    ensures CanRespond(z, s)
    ensures Of(DoRespond(z, s)) == Of(s).(core := Waits, outs := Of(s).outs + [Of(s).core.out])
  {
    OutsGrow(s.answers, Exchange(s.core.at.heard, s.core.at.out));
  }

  // What the loop does after an event: copy an answer out, the pins in, or neither.
  function Then(e: Event, l: Loop): DriverDoes {
    if e.CollectAnswer? && e.response > 0 then Reads(0) else if l.phase == AtPublish then Fills(0) else Idle
  }

  lemma LoopSeen(z: Sizes, s: State, e: Event)
    requires Shape(z, s) && Of(s).driver.Idle? && !e.PublishCycle?
    requires HostLoop.Enabled(z.loop, s.L(), e)
    requires e.CollectAnswer? || e.BeginCycle? || e.PeekAnswer? ==> e.response <= |Of(s).outs|
    ensures var load := if Loads(s.L(), e) then e.response else 0;
            && CanLoopStep(z, s, e, load)
            && var l := Apply(z.loop, s.L(), e);
               Of(DoLoopStep(z, s, e, load)) == Of(s).(loop := l, driver := Then(e, l))
  {}

  lemma ReadOutputSeen(z: Sizes, s: State)
    requires Shape(z, s) && Of(s).driver.Reads? && Of(s).driver.count < z.outputs
    ensures CanReadOutput(z, s) && Of(DoReadOutput(z, s)) == Of(s).(driver := Reads(Of(s).driver.count + 1))
  {}

  lemma TakeSeen(z: Sizes, s: State)
    requires Shape(z, s) && Of(s).driver == Reads(z.outputs)
    ensures CanFinishTake(z, s)
    ensures Of(DoFinishTake(z, s)) == Of(s).(driver := Idle, taken := Of(s).taken + [s.L().Last().answered])
  {
    TakenGrow(s.driver.taken, Taken(s.L().Last().answered, s.driver.at.got));
  }

  lemma FillSeen(z: Sizes, s: State)
    requires Shape(z, s) && Of(s).driver.Fills? && Of(s).driver.count < z.inputs
    ensures CanFillInput(z, s) && Of(DoFillInput(z, s, 0.0)) == Of(s).(driver := Fills(Of(s).driver.count + 1))
  {}

  lemma PublishSeen(z: Sizes, s: State)
    requires Shape(z, s) && Of(s).driver == Fills(z.inputs) && s.L().phase == AtPublish
    ensures CanPublish(z, s)
    ensures Of(DoPublish(z, s)) == Of(s).(driver := Idle, loop := Apply(z.loop, s.L(), PublishCycle))
  {}

  // --- Runs of views --------------------------------------------------------

  // A step whose possibility and effect the view alone decides.
  predicate Can(z: Sizes, v: View, step: Step) {
    match step
    case SeedCell => v.driver.Seeds? && v.driver.count < 2 * z.outputs
    case SetRunning => v.driver == Seeds(2 * z.outputs)
    case LoopStep(e, load) =>
      && v.driver.Idle? && !e.PublishCycle? && HostLoop.Enabled(z.loop, v.loop, e)
      && (e.CollectAnswer? || e.BeginCycle? || e.PeekAnswer? ==> e.response <= |v.outs|)
      && load == if Loads(v.loop, e) then e.response else 0
    case ReadOutput => v.driver.Reads? && v.driver.count < z.outputs
    case FinishTake => v.driver == Reads(z.outputs)
    case FillInput(value) => v.driver.Fills? && v.driver.count < z.inputs && value == 0.0
    case Publish => v.driver == Fills(z.inputs) && v.loop.phase == AtPublish
    case Attach => v.core.Off? && v.driver.Idle?
    case ReadSeed => v.core.CopiesSeeds? && v.core.count < 2 * z.outputs
    case FinishSeeds => v.core == CopiesSeeds(2 * z.outputs)
    case LoadCycle(load) => v.core.Waits? && load == v.loop.cycle == |v.outs| + 1
    case ReadInput => v.core.Hears? && v.core.count < z.inputs
    case Compute(out) => v.core == Hears(z.inputs) && |out| == z.outputs
    case WriteOutput => v.core.Answers? && v.core.count < z.outputs
    case Respond => v.core.Answers? && v.core.count == z.outputs
  }

  function Next(z: Sizes, v: View, step: Step): View
    requires Can(z, v, step)
  {
    match step
    case SeedCell => v.(driver := Seeds(v.driver.count + 1))
    case SetRunning => v.(driver := Idle)
    case LoopStep(e, _) =>
      var l := Apply(z.loop, v.loop, e);
      v.(loop := l, driver := Then(e, l))
    case ReadOutput => v.(driver := Reads(v.driver.count + 1))
    case FinishTake => v.(driver := Idle, taken := v.taken + [v.loop.Last().answered])
    case FillInput(_) => v.(driver := Fills(v.driver.count + 1))
    case Publish => v.(driver := Idle, loop := Apply(z.loop, v.loop, PublishCycle))
    case Attach => v.(core := CopiesSeeds(0))
    case ReadSeed => v.(core := CopiesSeeds(v.core.count + 1))
    case FinishSeeds => v.(core := Waits)
    case LoadCycle(_) => v.(core := Hears(0), coreSeen := v.loop.cycle)
    case ReadInput => v.(core := Hears(v.core.count + 1))
    case Compute(out) => v.(core := Answers(out, 0))
    case WriteOutput => v.(core := Answers(v.core.out, v.core.count + 1))
    case Respond => v.(core := Waits, outs := v.outs + [v.core.out])
  }

  lemma DriverStepSeen(z: Sizes, s: State, step: Step)
    requires Shape(z, s) && Can(z, Of(s), step)
    requires step.SeedCell? || step.SetRunning? || step.ReadOutput? || step.FinishTake? || step.FillInput?
          || step.Publish? || step.LoopStep?
    ensures Channel.Enabled(z, s, step) && Of(Do(z, s, step)) == Next(z, Of(s), step)
  {
    match step
    case SeedCell => SeedSeen(z, s);
    case SetRunning => RunningSeen(z, s);
    case LoopStep(e, _) => LoopSeen(z, s, e);
    case ReadOutput => ReadOutputSeen(z, s);
    case FinishTake => TakeSeen(z, s);
    case FillInput(_) => FillSeen(z, s);
    case Publish => PublishSeen(z, s);
  }

  lemma CoreStepSeen(z: Sizes, s: State, step: Step)
    requires Shape(z, s) && Can(z, Of(s), step)
    requires step.Attach? || step.ReadSeed? || step.FinishSeeds? || step.LoadCycle? || step.ReadInput?
          || step.Compute? || step.WriteOutput? || step.Respond?
    ensures Channel.Enabled(z, s, step) && Of(Do(z, s, step)) == Next(z, Of(s), step)
  {
    match step
    case Attach => AttachSeen(z, s);
    case ReadSeed => ReadSeedSeen(z, s);
    case FinishSeeds => SeedsDoneSeen(z, s);
    case LoadCycle(_) => HearSeen(z, s);
    case ReadInput => ReadInputSeen(z, s);
    case Compute(out) => ComputeSeen(z, s, out);
    case WriteOutput => WriteOutputSeen(z, s);
    case Respond => RespondSeen(z, s);
  }

  function Beginning(z: Sizes): View {
    View(HostLoop.Start(z.loop), Seeds(0), Off, 0, [], [])
  }

  // These steps lead to this view, and are these events to the loop.
  ghost predicate Leads(z: Sizes, steps: seq<Step>, to: View, events: seq<Event>)
    decreases |steps|
  {
    if steps == [] then to == Beginning(z) && events == []
    else
      var before, step := steps[..|steps| - 1], steps[|steps| - 1];
      exists v, es :: Leads(z, before, v, es) && Can(z, v, step) && Next(z, v, step) == to
                      && events == es + EventOf(step)
  }

  lemma StepSeen(z: Sizes, s: State, step: Step)
    requires Shape(z, s) && Can(z, Of(s), step)
    ensures Channel.Enabled(z, s, step) && Of(Do(z, s, step)) == Next(z, Of(s), step)
  {
    if step.Attach? || step.ReadSeed? || step.FinishSeeds? || step.LoadCycle? || step.ReadInput?
       || step.Compute? || step.WriteOutput? || step.Respond? {
      CoreStepSeen(z, s, step);
    } else {
      DriverStepSeen(z, s, step);
    }
  }

  lemma OneStep(z: Sizes, seeds: seq<real>, steps: seq<Step>)
    requires |steps| > 0 && Possible(z, seeds, steps[..|steps| - 1])
    requires Channel.Enabled(z, After(z, seeds, steps[..|steps| - 1]), steps[|steps| - 1])
    ensures Possible(z, seeds, steps)
    ensures After(z, seeds, steps) == Do(z, After(z, seeds, steps[..|steps| - 1]), steps[|steps| - 1])
  {}

  // What views can do the channel can.
  lemma {:induction false} LeadsIsPossible(z: Sizes, seeds: seq<real>, steps: seq<Step>, to: View, events: seq<Event>)
    requires |seeds| == z.outputs && Leads(z, steps, to, events)
    ensures Possible(z, seeds, steps) && Of(After(z, seeds, steps)) == to && EventsOf(steps) == events
  {
    if steps == [] {
    } else {
      var before, step := steps[..|steps| - 1], steps[|steps| - 1];
      var v, es :| Leads(z, before, v, es) && Can(z, v, step) && Next(z, v, step) == to
                   && events == es + EventOf(step);
      LeadsIsPossible(z, seeds, before, v, es);
      StepSeen(z, After(z, seeds, before), step);
      OneStep(z, seeds, steps);
    }
  }

  lemma More(z: Sizes, steps: seq<Step>, v: View, events: seq<Event>, step: Step) returns (more: seq<Step>)
    requires Leads(z, steps, v, events) && Can(z, v, step)
    ensures Leads(z, more, Next(z, v, step), events + EventOf(step))
  {
    more := steps + [step];
    assert more[..|more| - 1] == steps;
  }

  // The same for a step that is no event of the loop.
  lemma Quiet(z: Sizes, steps: seq<Step>, v: View, events: seq<Event>, step: Step) returns (more: seq<Step>)
    requires Leads(z, steps, v, events) && Can(z, v, step) && EventOf(step) == []
    ensures Leads(z, more, Next(z, v, step), events)
  {
    more := More(z, steps, v, events, step);
    assert events + [] == events;
  }

  // --- Repeated steps -------------------------------------------------------

  // Copying one cell after another: view `i` is that with `i` of them copied.
  ghost predicate Copies(z: Sizes, step: Step, views: seq<View>) {
    EventOf(step) == [] && |views| > 0 && forall i :: 0 <= i < |views| - 1 ==> IsNext(z, views, i, step)
  }

  predicate IsNext(z: Sizes, views: seq<View>, i: nat, step: Step)
    requires i + 1 < |views|
  {
    Can(z, views[i], step) && Next(z, views[i], step) == views[i + 1]
  }

  lemma {:induction false} Repeat(z: Sizes, before: seq<Step>, events: seq<Event>, step: Step, views: seq<View>, n: nat)
    returns (steps: seq<Step>)
    requires Copies(z, step, views) && n < |views| && Leads(z, before, views[0], events)
    ensures Leads(z, steps, views[n], events)
  {
    if n == 0 {
      steps := before;
    } else {
      var most := Repeat(z, before, events, step, views, n - 1);
      assert IsNext(z, views, n - 1, step);
      steps := Quiet(z, most, views[n - 1], events, step);
    }
  }

  function Seedings(z: Sizes): seq<View> {
    seq(2 * z.outputs + 1, i requires 0 <= i => Beginning(z).(driver := Seeds(i)))
  }

  function SeedCopies(z: Sizes, v: View): seq<View> {
    seq(2 * z.outputs + 1, i requires 0 <= i => v.(core := CopiesSeeds(i)))
  }

  function Hearings(z: Sizes, v: View): seq<View> {
    seq(z.inputs + 1, i requires 0 <= i => v.(core := Hears(i)))
  }

  function Writings(z: Sizes, v: View, out: seq<real>): seq<View> {
    seq(z.outputs + 1, i requires 0 <= i => v.(core := Answers(out, i)))
  }

  function Readings(z: Sizes, v: View): seq<View> {
    seq(z.outputs + 1, i requires 0 <= i => v.(driver := Reads(i)))
  }

  function Fillings(z: Sizes, v: View): seq<View> {
    seq(z.inputs + 1, i requires 0 <= i => v.(driver := Fills(i)))
  }

  lemma SeedsAreCopies(z: Sizes, v: View)
    ensures Copies(z, SeedCell, Seedings(z)) && Copies(z, ReadSeed, SeedCopies(z, v))
  {}

  lemma AnswersAreCopies(z: Sizes, v: View, out: seq<real>)
    ensures Copies(z, ReadInput, Hearings(z, v)) && Copies(z, WriteOutput, Writings(z, v, out))
  {}

  lemma PinsAreCopies(z: Sizes, v: View)
    ensures Copies(z, ReadOutput, Readings(z, v)) && Copies(z, FillInput(0.0), Fillings(z, v))
  {}

  // --- Whole exchanges ------------------------------------------------------

  // Both processes ready: seeded, running, and the core waiting for cycle 1.
  lemma Attached(z: Sizes) returns (steps: seq<Step>)
    ensures Leads(z, steps, Beginning(z).(driver := Idle, core := Waits), [])
  {
    var v := Beginning(z).(driver := Idle);
    SeedsAreCopies(z, v);
    steps := Repeat(z, [], [], SeedCell, Seedings(z), 2 * z.outputs);
    steps := Quiet(z, steps, v.(driver := Seeds(2 * z.outputs)), [], SetRunning);
    steps := Quiet(z, steps, v, [], Attach);
    steps := Repeat(z, steps, [], ReadSeed, SeedCopies(z, v), 2 * z.outputs);
    steps := Quiet(z, steps, v.(core := CopiesSeeds(2 * z.outputs)), [], FinishSeeds);
  }

  // The core hears the newest cycle and answers it with these outputs.
  lemma Answer(z: Sizes, before: seq<Step>, v: View, events: seq<Event>, out: seq<real>) returns (steps: seq<Step>)
    requires Leads(z, before, v, events) && v.core.Waits? && v.loop.cycle == |v.outs| + 1
    requires |out| == z.outputs
    ensures Leads(z, steps, v.(coreSeen := v.loop.cycle, outs := v.outs + [out]), events)
  {
    var u := v.(coreSeen := v.loop.cycle);
    AnswersAreCopies(z, u, out);
    steps := Quiet(z, before, v, events, LoadCycle(v.loop.cycle));
    steps := Repeat(z, steps, events, ReadInput, Hearings(z, u), z.inputs);
    steps := Quiet(z, steps, u.(core := Hears(z.inputs)), events, Compute(out));
    steps := Repeat(z, steps, events, WriteOutput, Writings(z, u, out), z.outputs);
    steps := Quiet(z, steps, u.(core := Answers(out, z.outputs)), events, Respond);
  }

  // What a copy once begun leads to.
  function Settled(z: Sizes, v: View): View {
    match v.driver
    case Reads(_) => v.(driver := Idle, taken := v.taken + [v.loop.Last().answered])
    case Fills(_) => v.(driver := Fills(z.inputs))
    case _ => v
  }

  lemma Settle(z: Sizes, before: seq<Step>, v: View, events: seq<Event>) returns (steps: seq<Step>)
    requires Leads(z, before, v, events) && (v.driver.Reads? || v.driver.Fills? ==> v.driver.count == 0)
    ensures Leads(z, steps, Settled(z, v), events)
  {
    PinsAreCopies(z, v);
    if v.driver.Reads? {
      steps := Repeat(z, before, events, ReadOutput, Readings(z, v), z.outputs);
      steps := Quiet(z, steps, v.(driver := Reads(z.outputs)), events, FinishTake);
    } else if v.driver.Fills? {
      steps := Repeat(z, before, events, FillInput(0.0), Fillings(z, v), z.inputs);
    } else {
      steps := before;
    }
  }

  // This process between two events: nothing half-copied.
  function Rests(z: Sizes, l: Loop): DriverDoes {
    if l.phase == AtPublish then Fills(z.inputs) else Idle
  }

  predicate LoadsAnswer(e: Event) { e.CollectAnswer? || e.BeginCycle? || e.PeekAnswer? }

  // After event `e` on answers that are there.
  function Stepped(z: Sizes, v: View, e: Event): View
    requires HostLoop.Enabled(z.loop, v.loop, e)
  {
    var l := Apply(z.loop, v.loop, e);
    v.(loop := l, driver := Rests(z, l),
       taken := v.taken + if e.CollectAnswer? && e.response > 0 then [e.response] else [])
  }

  lemma MakeEvent(z: Sizes, before: seq<Step>, v: View, events: seq<Event>, e: Event) returns (steps: seq<Step>)
    requires Leads(z, before, v, events) && v.driver == Rests(z, v.loop)
    requires HostLoop.Enabled(z.loop, v.loop, e) && (LoadsAnswer(e) ==> e.response <= |v.outs|)
    ensures Leads(z, steps, Stepped(z, v, e), events + [e])
  {
    if e.PublishCycle? {
      steps := More(z, before, v, events, Publish);
    } else {
      var step := LoopStep(e, if Loads(v.loop, e) then e.response else 0);
      steps := More(z, before, v, events, step);
      steps := Settle(z, steps, Next(z, v, step), events + [e]);
    }
  }

  // --- Every run of the loop ------------------------------------------------

  // The numbers of the answers among the collects.
  function Answered(collects: seq<Collected>): seq<nat> {
    if collects == [] then []
    else
      var c := collects[|collects| - 1];
      Answered(collects[..|collects| - 1]) + if c.answered > 0 then [c.answered] else []
  }

  // The core has answered as far as this, with the outputs asked for.
  ghost predicate InStep(z: Sizes, v: View, l: Loop, seen: nat, outs: seq<seq<real>>) {
    && v.loop == l && v.driver == Rests(z, l) && v.core.Waits?
    && seen <= |outs| && v.outs == outs[..seen]
    && v.taken == Answered(l.collects)
  }

  lemma OneMoreOut(outs: seq<seq<real>>, n: nat)
    requires n < |outs|
    ensures outs[..n] + [outs[n]] == outs[..n + 1]
  {}

  // The answer an event needs, if it is not there yet.
  lemma Provide(z: Sizes, before: seq<Step>, v: View, events: seq<Event>, l: Loop, seen: nat, outs: seq<seq<real>>)
    returns (steps: seq<Step>, u: View)
    requires Leads(z, before, v, events) && InStep(z, v, l, l.seen, outs)
    requires l.seen <= seen <= l.seen + 1 && seen <= |outs| && (seen > l.seen ==> l.cycle == seen)
    requires seen > l.seen ==> |outs[l.seen]| == z.outputs
    ensures Leads(z, steps, u, events) && InStep(z, u, l, seen, outs)
  {
    if seen == l.seen {
      steps, u := before, v;
    } else {
      OneMoreOut(outs, l.seen);
      steps := Answer(z, before, v, events, outs[l.seen]);
      u := v.(coreSeen := v.loop.cycle, outs := v.outs + [outs[l.seen]]);
    }
  }

  lemma AnsweredOneMore(collects: seq<Collected>, c: Collected)
    ensures Answered(collects + [c]) == Answered(collects) + if c.answered > 0 then [c.answered] else []
  {
    assert (collects + [c])[..|collects|] == collects;
  }

  lemma SteppedInStep(z: Sizes, v: View, e: Event, outs: seq<seq<real>>)
    requires HostLoop.Enabled(z.loop, v.loop, e)
    requires InStep(z, v, v.loop, Apply(z.loop, v.loop, e).seen, outs)
    ensures InStep(z, Stepped(z, v, e), Apply(z.loop, v.loop, e), Apply(z.loop, v.loop, e).seen, outs)
  {
    if e.CollectAnswer? {
      AnsweredOneMore(v.loop.collects, Collected(e.response, v.loop.cycle));
    }
  }

  lemma SeenNext(cfg: Config, l: Loop, e: Event)
    requires Counters(l) && HostLoop.Enabled(cfg, l, e)
    ensures var seen := Apply(cfg, l, e).seen;
            && l.seen <= seen <= l.seen + 1 && (seen > l.seen ==> l.cycle == seen)
            && (LoadsAnswer(e) ==> e.response == seen)
  {}

  lemma StepInStep(z: Sizes, before: seq<Step>, v: View, events: seq<Event>, l: Loop, e: Event, outs: seq<seq<real>>)
    returns (steps: seq<Step>, u: View)
    requires Leads(z, before, v, events) && InStep(z, v, l, l.seen, outs)
    requires HostLoop.Enabled(z.loop, l, e) && Counters(l)
    requires Apply(z.loop, l, e).seen <= |outs| && forall n :: 0 <= n < |outs| ==> |outs[n]| == z.outputs
    ensures Leads(z, steps, u, events + [e])
    ensures InStep(z, u, Apply(z.loop, l, e), Apply(z.loop, l, e).seen, outs)
  {
    SeenNext(z.loop, l, e);
    var w;
    steps, w := Provide(z, before, v, events, l, Apply(z.loop, l, e).seen, outs);
    steps := MakeEvent(z, steps, w, events, e);
    SteppedInStep(z, w, e, outs);
    u := Stepped(z, w, e);
  }

  lemma LoopStart(z: Sizes, outs: seq<seq<real>>) returns (steps: seq<Step>, v: View)
    ensures Leads(z, steps, v, []) && InStep(z, v, HostLoop.Start(z.loop), 0, outs)
  {
    steps := Attached(z);
    v := Beginning(z).(driver := Idle, core := Waits);
  }

  // The loop before its last event.
  lemma LastEvent(cfg: Config, events: seq<Event>) returns (l: Loop)
    requires Legal(cfg, events) && |events| > 0
    ensures var before, e := events[..|events| - 1], events[|events| - 1];
            && Legal(cfg, before) && l == Run(cfg, before)
            && Counters(l) && HostLoop.Enabled(cfg, l, e) && Run(cfg, events) == Apply(cfg, l, e)
            && l.seen <= Run(cfg, events).seen
  {
    var before, e := events[..|events| - 1], events[|events| - 1];
    l := Run(cfg, before);
    RunInv(cfg, before);
    SeenNext(cfg, l, e);
  }

  // Any run of the loop is made by a run of views, with any answers the core
  // may give: the `n`-th is `outs[n - 1]`.
  lemma {:induction false} LoopRunsAreViewRuns(z: Sizes, events: seq<Event>, outs: seq<seq<real>>)
    returns (steps: seq<Step>, v: View)
    requires Legal(z.loop, events) && Run(z.loop, events).seen <= |outs|
    requires forall n :: 0 <= n < |outs| ==> |outs[n]| == z.outputs
    ensures Leads(z, steps, v, events) && v.loop == Run(z.loop, events)
    ensures InStep(z, v, v.loop, v.loop.seen, outs)
  {
    if events == [] {
      steps, v := LoopStart(z, outs);
    } else {
      var before, e := events[..|events| - 1], events[|events| - 1];
      assert before + [e] == events;
      var l := LastEvent(z.loop, events);
      var most, u := LoopRunsAreViewRuns(z, before, outs);
      steps, v := StepInStep(z, most, u, before, l, e, outs);
    }
  }

  lemma ViewSays(z: Sizes, s: State, v: View, outs: seq<seq<real>>)
    requires Of(s) == v && InStep(z, v, v.loop, v.loop.seen, outs)
    ensures s.L() == v.loop && |s.answers| == v.loop.seen && !s.driver.at.Reading?
    ensures forall n :: 0 <= n < |s.answers| ==> n < |outs| && s.answers[n].out == outs[n]
    ensures TakenNumbers(s.driver.taken) == Answered(v.loop.collects)
  {
    forall n | 0 <= n < |s.answers| ensures n < |outs| && s.answers[n].out == outs[n] {
      assert s.answers[n].out == v.outs[n];
    }
  }

  // So it is made by a run of the channel.
  lemma LoopRunsAreChannelRuns(z: Sizes, seeds: seq<real>, events: seq<Event>, outs: seq<seq<real>>)
    returns (steps: seq<Step>)
    requires |seeds| == z.outputs && Legal(z.loop, events) && Run(z.loop, events).seen <= |outs|
    requires forall n :: 0 <= n < |outs| ==> |outs[n]| == z.outputs
    ensures Possible(z, seeds, steps) && EventsOf(steps) == events
    ensures var s := After(z, seeds, steps);
            && s.L() == Run(z.loop, events) && |s.answers| == s.L().seen && !s.driver.at.Reading?
            && (forall n :: 0 <= n < |s.answers| ==> n < |outs| && s.answers[n].out == outs[n])
            && TakenNumbers(s.driver.taken) == Answered(s.L().collects)
  {
    var v;
    steps, v := LoopRunsAreViewRuns(z, events, outs);
    LeadsIsPossible(z, seeds, steps, v, events);
    ViewSays(z, After(z, seeds, steps), v, outs);
  }

  // --- The watchdog's worst case --------------------------------------------

  // For every n there is a run of the channel in which answer n is the last of
  // a core that kept up until then, and with a watchdog of W cycles it is written
  // W + 1 times before the channel is faulted.
  lemma WorstCaseIsReached(z: Sizes, seeds: seq<real>, n: nat) returns (steps: seq<Step>)
    requires |seeds| == z.outputs && n > 0 && z.loop.watchdog > 0
    ensures Possible(z, seeds, steps)
    ensures var l := After(z, seeds, steps).L();
            && l.faulted && |l.writes| > z.loop.watchdog
            && forall i :: |l.writes| - z.loop.watchdog - 1 <= i < |l.writes| ==> l.writes[i] == n
  {
    var W := z.loop.watchdog;
    var start := KeepingUp(z.loop, n - 1) + [BeginCycle(n - 1), PublishCycle, CollectAnswer(n)];
    FreshRuns(z.loop, n);
    SilentCoreFaults(z.loop, start, W);
    var events := start + SilentCore(n, W);
    var l := Run(z.loop, events);
    assert l.writes == Run(z.loop, start).writes + HostLoop.Repeat(n, W + 1);
    steps := LoopRunsAreChannelRuns(z, seeds, events, seq(l.seen, _ => seeds));
  }

  lemma FreshRuns(cfg: Config, n: nat)
    requires n > 0
    ensures var events := KeepingUp(cfg, n - 1) + [BeginCycle(n - 1), PublishCycle, CollectAnswer(n)];
            && Legal(cfg, events) && Run(cfg, events).phase == AtWrite
            && Run(cfg, events).Last() == Collected(n, n)
  {
    KeepingUpRuns(cfg, n - 1);
    FreshFrom(cfg, KeepingUp(cfg, n - 1), n, FirstCollect(cfg) + FreshCollects(1, n - 1));
  }

  lemma FreshFrom(cfg: Config, run: seq<Event>, n: nat, collects: seq<Collected>)
    requires n > 0 && Legal(cfg, run) && AtTurn(Run(cfg, run), n - 1, collects)
    ensures var events := run + [BeginCycle(n - 1), PublishCycle, CollectAnswer(n)];
            && Legal(cfg, events) && Run(cfg, events).phase == AtWrite
            && Run(cfg, events).Last() == Collected(n, n)
  {
    Extend(cfg, run, BeginCycle(n - 1));
    Extend(cfg, run + [BeginCycle(n - 1)], PublishCycle);
    Extend(cfg, run + [BeginCycle(n - 1)] + [PublishCycle], CollectAnswer(n));
    assert run + [BeginCycle(n - 1), PublishCycle, CollectAnswer(n)]
        == run + [BeginCycle(n - 1)] + [PublishCycle] + [CollectAnswer(n)];
  }

  // --- Lost edges -----------------------------------------------------------

  // Output `j` of a run: the host applied every change of its levels, whatever
  // the driver wrote between.
  ghost predicate AppliesAll(z: Sizes, seeds: seq<real>, steps: seq<Step>, j: nat)
    requires Possible(z, seeds, steps) && j < z.outputs
  {
    var s := After(z, seeds, steps);
    forall events: seq<OnChange.Event<real>> :: OnChange.Answers(events) == TakenValues(z, s, j) ==>
      OnChange.After(v => v, seeds[j], seeds[j], events).applied == OnChange.Changes(Levels(z, s, j))
  }

  // So does every run in which the core's levels, from the starting value on, are these.
  ghost predicate NoneLost(z: Sizes, seeds: seq<real>, j: nat, levels: seq<real>)
    requires j < z.outputs
  {
    forall steps :: Possible(z, seeds, steps) && Levels(z, After(z, seeds, steps), j) == levels ==>
      AppliesAll(z, seeds, steps, j)
  }

  ghost predicate AllHeld(levels: seq<real>) {
    forall i :: 0 < i < |levels| - 1 ==> OnChange.Held(levels, i)
  }

  // No run loses an edge of these levels if and only if each, but the first and
  // the last, is held for two answers: what a core can see to.
  lemma NoneLostIffHeld(z: Sizes, seeds: seq<real>, j: nat, levels: seq<real>)
    requires |seeds| == z.outputs && j < z.outputs && |levels| > 0 && levels[0] == seeds[j]
    ensures NoneLost(z, seeds, j, levels) <==> AllHeld(levels)
  {
    if AllHeld(levels) {
      forall steps | Possible(z, seeds, steps) && Levels(z, After(z, seeds, steps), j) == levels
        ensures AppliesAll(z, seeds, steps, j)
      {
        HeldAppliesAll(z, seeds, steps, j);
      }
    } else {
      var i :| 0 < i < |levels| - 1 && !OnChange.Held(levels, i);
      var steps := LosingRun(z, seeds, j, levels, i);
      assert !AppliesAll(z, seeds, steps, j);
    }
  }

  lemma HeldAppliesAll(z: Sizes, seeds: seq<real>, steps: seq<Step>, j: nat)
    requires Possible(z, seeds, steps) && j < z.outputs && AllHeld(Levels(z, After(z, seeds, steps), j))
    ensures AppliesAll(z, seeds, steps, j)
  {
    var s := After(z, seeds, steps);
    forall events: seq<OnChange.Event<real>> | OnChange.Answers(events) == TakenValues(z, s, j)
      ensures OnChange.After(v => v, seeds[j], seeds[j], events).applied == OnChange.Changes(Levels(z, s, j))
    {
      NoLostEdge(z, seeds, steps, j, v => v, seeds[j], events);
    }
  }

  // Answers that carry these levels on output `j`.
  function Carrying(z: Sizes, j: nat, levels: seq<real>): (outs: seq<seq<real>>)
    requires |levels| > 0
    ensures |outs| == |levels| - 1
    ensures forall n :: 0 <= n < |outs| ==> |outs[n]| == z.outputs && (j < z.outputs ==> outs[n][j] == levels[n + 1])
  {
    seq(|levels| - 1, n requires 0 <= n < |levels| - 1 => seq(z.outputs, _ => levels[n + 1]))
  }

  lemma {:induction false} AnsweredIsCollected(collects: seq<Collected>, n: nat)
    requires forall k :: 0 <= k < |collects| ==> collects[k].answered != n
    ensures n !in Answered(collects)
  {
    if collects == [] {
    } else {
      AnsweredIsCollected(collects[..|collects| - 1], n);
    }
  }

  lemma LevelsAre(z: Sizes, s: State, j: nat, levels: seq<real>)
    requires Data(z, s) && j < z.outputs && |levels| > 0 && levels[0] == s.seeds[j]
    requires !s.driver.at.Reading? && s.L().Last().answered == |levels| - 1 == |s.answers|
    requires forall n :: 0 <= n < |s.answers| ==> s.answers[n].out == Carrying(z, j, levels)[n]
    ensures Levels(z, s, j) == levels
  {
    assert LastTaken(s) == |s.answers|;
    forall n | 0 <= n < |levels| ensures Levels(z, s, j)[n] == levels[n] {
      if n > 0 {
        assert s.answers[n - 1].out[j] == levels[n];
      }
    }
  }

  lemma LateIsSeen(cfg: Config, i: nat, last: nat)
    requires 1 <= i < last
    ensures Legal(cfg, LateOnce(cfg, i, last))
    ensures Run(cfg, LateOnce(cfg, i, last)).Last().answered == Run(cfg, LateOnce(cfg, i, last)).seen == last
    ensures i !in Answered(Run(cfg, LateOnce(cfg, i, last)).collects)
  {
    AnyAnswerCanBeSkipped(cfg, i, last);
    LateOnceRuns(cfg, i, last);
    RunInv(cfg, LateOnce(cfg, i, last));
    AnsweredIsCollected(Run(cfg, LateOnce(cfg, i, last)).collects, i);
  }

  // The run that passes over answer `i` alone.
  lemma SkippingRun(z: Sizes, seeds: seq<real>, j: nat, levels: seq<real>, i: nat) returns (steps: seq<Step>)
    requires |seeds| == z.outputs && j < z.outputs && |levels| > 0 && levels[0] == seeds[j]
    requires 0 < i < |levels| - 1
    ensures Possible(z, seeds, steps) && Levels(z, After(z, seeds, steps), j) == levels
    ensures i !in Numbers(After(z, seeds, steps).driver.taken)
  {
    var last := |levels| - 1;
    LateIsSeen(z.loop, i, last);
    steps := LoopRunsAreChannelRuns(z, seeds, LateOnce(z.loop, i, last), Carrying(z, j, levels));
    LevelsAre(z, After(z, seeds, steps), j, levels);
    NumbersAre(After(z, seeds, steps).driver.taken);
  }

  lemma NumbersAre(taken: seq<Taken>)
    ensures Numbers(taken) == [0] + TakenNumbers(taken)
  {}

  function AsEvents(values: seq<real>): seq<OnChange.Event<real>> {
    if values == [] then [] else AsEvents(values[..|values| - 1]) + [OnChange.Answer(values[|values| - 1])]
  }

  lemma {:induction false} AnswersAsEvents(values: seq<real>)
    ensures OnChange.Answers(AsEvents(values)) == values
  {
    if values == [] {
    } else {
      var before := AsEvents(values[..|values| - 1]);
      AnswersAsEvents(values[..|values| - 1]);
      assert (before + [OnChange.Answer(values[|values| - 1])])[..|before|] == before;
    }
  }

  lemma LosingRun(z: Sizes, seeds: seq<real>, j: nat, levels: seq<real>, i: nat) returns (steps: seq<Step>)
    requires |seeds| == z.outputs && j < z.outputs && |levels| > 0 && levels[0] == seeds[j]
    requires 0 < i < |levels| - 1 && !OnChange.Held(levels, i)
    ensures Possible(z, seeds, steps) && Levels(z, After(z, seeds, steps), j) == levels
    ensures !AppliesAll(z, seeds, steps, j)
  {
    steps := SkippingRun(z, seeds, j, levels, i);
    var s := After(z, seeds, steps);
    var events := AsEvents(TakenValues(z, s, j));
    AnswersAsEvents(TakenValues(z, s, j));
    NoLostEdge(z, seeds, steps, j, v => v, seeds[j], events);
    assert !OnChange.SkippedAreHeld(levels, Numbers(s.driver.taken));
  }
}
