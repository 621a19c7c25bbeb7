/**
 The two-counter, double-buffered channel between this process and the core,
 with no lock. Both programs run as small steps, one cell at a time, under
 release/acquire: an acquire load may return any store not older than the last
 one its process saw, and joins the clock that store released. Non-atomic
 accesses carry the time of the process that made them, so that "ordered by
 happens-before" can be stated (section 5.1.2.4 of ISO/IEC 9899:2011).
 */
module Channel {
  import opened HostLoop

  // How much of each process's history one of them has synchronised with.
  datatype Clock = Clock(driver: nat, core: nat)
  {
    function Join(o: Clock): Clock {
      Clock(if driver < o.driver then o.driver else driver, if core < o.core then o.core else core)
    }
  }

  // One store to a counter: the value, and the clock its release carries.
  datatype Store = Store(value: nat, released: Clock)

  // One parity half of a buffer, with the time of each side's last access.
  datatype Half = Half(cells: seq<real>, driverAt: nat, coreAt: nat)

  // The two halves; a cycle's is the one of its number's parity (`value_half`).
  datatype Halves = Halves(even: Half, odd: Half)
  {
    function Of(n: int): Half { if n % 2 == 0 then even else odd }

    function With(n: int, h: Half): Halves {
      if n % 2 == 0 then Halves(h, odd) else Halves(even, h)
    }
  }

  datatype Sizes = Sizes(loop: Config, inputs: nat, outputs: nat)

  // This process outside the loop's own bookkeeping: writing the starting
  // values, copying an answer out, or copying the pins in.
  datatype DriverAt =
    | Seeding(count: nat)
    | Cycling
    | Reading(got: seq<real>)
    | Filling(put: seq<real>)

  datatype Taken = Taken(answered: nat, values: seq<real>)

  datatype Driver = Driver(at: DriverAt, clock: Clock, loop: Loop, taken: seq<Taken>)

  datatype CoreAt =
    | Detached
    | ReadingSeeds(got: seq<real>)
    | Waiting
    | ReadingInputs(heard: seq<real>)
    | WritingOutputs(heard: seq<real>, out: seq<real>, written: nat)

  // `seen` is the newest store to `cycle` the core has loaded.
  datatype Core = Core(at: CoreAt, clock: Clock, seen: nat)

  // What the core computed a cycle's outputs from, and the outputs.
  datatype Exchange = Exchange(heard: seq<real>, out: seq<real>)

  // The shared region, both processes, and the history of complete vectors.
  datatype State = State(
    cycle: seq<Store>,
    response: seq<Store>,
    running: bool,
    runningReleased: Clock,
    input: Halves,
    output: Halves,
    driver: Driver,
    core: Core,
    seeds: seq<real>,
    published: seq<seq<real>>,
    answers: seq<Exchange>)
  {
    function C(): int { |cycle| - 1 }
    function R(): int { |response| - 1 }
    function L(): Loop { driver.loop }
  }

  datatype Step =
    // This process. A loop event loads `response` first, where it loads at all.
    | SeedCell
    | SetRunning
    | LoopStep(event: Event, load: nat)
    | ReadOutput
    | FinishTake
    | FillInput(value: real)
    | Publish
    // The core.
    | Attach
    | ReadSeed
    | FinishSeeds
    | LoadCycle(load: nat)
    | ReadInput
    | Compute(out: seq<real>)
    | WriteOutput
    | Respond

  function Zeros(n: nat): (r: seq<real>)
    ensures |r| == n
  {
    seq(n, _ => 0.0)
  }

  function Start(z: Sizes, seeds: seq<real>): State {
    var none := Clock(0, 0);
    State([Store(0, none)], [Store(0, none)], false, none,
          Halves(Half(Zeros(z.inputs), 0, 0), Half(Zeros(z.inputs), 0, 0)),
          Halves(Half(Zeros(z.outputs), 0, 0), Half(Zeros(z.outputs), 0, 0)),
          Driver(Seeding(0), none, HostLoop.Start(z.loop), []),
          Core(Detached, none, 0), seeds, [], [])
  }

  // --- Which half each access goes to ---------------------------------------

  // The half of `take_answer`: the parity of the answer it took, not the cycle.
  function ReadHalf(s: State): nat { s.L().Last().answered }

  // The half between `begin` and `publish`: that of the cycle being made.
  function FillHalf(s: State): nat { s.L().cycle + 1 }

  function CoreHalf(s: State): nat { s.core.seen }

  // --- The steps of this process --------------------------------------------

  function TickDriver(c: Clock): Clock { c.(driver := c.driver + 1) }

  function TickCore(c: Clock): Clock { c.(core := c.core + 1) }

  // An access to a half, at the time of the process that makes it.
  function DriverTouches(halves: Halves, n: nat, cells: seq<real>, now: Clock): Halves
  {
    halves.With(n, Half(cells, now.driver, halves.Of(n).coreAt))
  }

  function CoreTouches(halves: Halves, n: nat, cells: seq<real>, now: Clock): Halves
  {
    halves.With(n, Half(cells, halves.Of(n).driverAt, now.core))
  }

  // Starting value `count / 2`, into half `count % 2` (`hm2_region_seed_output`).
  predicate CanSeedCell(z: Sizes, s: State) {
    s.driver.at.Seeding? && s.driver.at.count < 2 * z.outputs
  }

  function DoSeedCell(z: Sizes, s: State): State
    requires Shape(z, s) && CanSeedCell(z, s)
  {
    var d := s.driver;
    var now, p, i := TickDriver(d.clock), d.at.count, d.at.count / 2;
    s.(output := DriverTouches(s.output, p, s.output.Of(p).cells[i := s.seeds[i]], now),
       driver := d.(at := Seeding(d.at.count + 1), clock := now))
  }

  predicate CanSetRunning(z: Sizes, s: State) {
    s.driver.at.Seeding? && s.driver.at.count == 2 * z.outputs
  }

  function DoSetRunning(z: Sizes, s: State): State {
    var now := TickDriver(s.driver.clock);
    s.(running := true, runningReleased := now, driver := s.driver.(at := Cycling, clock := now))
  }

  // `begin` skips the load for the first cycle; a write and a stop load nothing.
  predicate Loads(l: Loop, e: Event) {
    e.CollectAnswer? || e.PeekAnswer? || (e.BeginCycle? && l.cycle > 0)
  }

  // A loop event other than the publish, with the store its load returned: one
  // not older than the last, whose value is the event's.
  predicate CanLoopStep(z: Sizes, s: State, e: Event, load: nat) {
    && s.driver.at.Cycling? && !e.PublishCycle?
    && Ready(z.loop, s.L(), e)
    && (if Loads(s.L(), e)
        then s.L().seen <= load < |s.response| && s.response[load].value == e.response
        else e.BeginCycle? ==> e.response == 0)
  }

  // So whatever store the memory lets it load, the loop's rules allow the value.
  lemma LoadAllowed(z: Sizes, s: State, e: Event, load: nat)
    requires Shape(z, s) && CanLoopStep(z, s, e, load)
    ensures HostLoop.Enabled(z.loop, s.L(), e)
    ensures Loads(s.L(), e) ==> load == e.response
  {}

  function DoLoopStep(z: Sizes, s: State, e: Event, load: nat): State
    requires Shape(z, s) && CanLoopStep(z, s, e, load)
  {
    LoadAllowed(z, s, e, load);
    var l := Apply(z.loop, s.L(), e);
    var at :=
      if e.CollectAnswer? && e.response > 0 then Reading([])
      else if l.phase == AtPublish then Filling([])
      else Cycling;
    var clock := s.driver.clock;
    WithLoop(s, l, at, if Loads(s.L(), e) then clock.Join(s.response[load].released) else clock)
  }

  function WithLoop(s: State, l: Loop, at: DriverAt, clock: Clock): State {
    s.(driver := s.driver.(at := at, loop := l, clock := clock))
  }

  predicate CanReadOutput(z: Sizes, s: State) {
    s.driver.at.Reading? && |s.driver.at.got| < z.outputs
  }

  function DoReadOutput(z: Sizes, s: State): State
    requires Shape(z, s) && CanReadOutput(z, s)
  {
    var d := s.driver;
    var now, p := TickDriver(d.clock), ReadHalf(s);
    var cells := s.output.Of(p).cells;
    s.(output := DriverTouches(s.output, p, cells, now),
       driver := d.(at := Reading(d.at.got + [cells[|d.at.got|]]), clock := now))
  }

  predicate CanFinishTake(z: Sizes, s: State) {
    s.driver.at.Reading? && |s.driver.at.got| == z.outputs
  }

  function DoFinishTake(z: Sizes, s: State): State
    requires CanFinishTake(z, s)
  {
    var d := s.driver;
    s.(driver := d.(at := Cycling, taken := d.taken + [Taken(d.loop.Last().answered, d.at.got)]))
  }

  // The pins, the host's own measurements and the two bus words, in turn.
  predicate CanFillInput(z: Sizes, s: State) {
    s.driver.at.Filling? && |s.driver.at.put| < z.inputs
  }

  function DoFillInput(z: Sizes, s: State, value: real): State
    requires Shape(z, s) && CanFillInput(z, s)
  {
    var d := s.driver;
    var now, p := TickDriver(d.clock), FillHalf(s);
    s.(input := DriverTouches(s.input, p, s.input.Of(p).cells[|d.at.put| := value], now),
       driver := d.(at := Filling(d.at.put + [value]), clock := now))
  }

  predicate CanPublish(z: Sizes, s: State) {
    s.driver.at.Filling? && |s.driver.at.put| == z.inputs && s.L().phase == AtPublish
  }

  function DoPublish(z: Sizes, s: State): State
    requires CanPublish(z, s)
  {
    var d := s.driver;
    var now := TickDriver(d.clock);
    s.(cycle := s.cycle + [Store(d.loop.cycle + 1, now)],
       driver := d.(at := Cycling, clock := now, loop := Apply(z.loop, d.loop, PublishCycle)),
       published := s.published + [d.at.put])
  }

  // --- The steps of the core ------------------------------------------------

  predicate CanAttach(s: State) { s.core.at.Detached? && s.running }

  function DoAttach(s: State): State {
    s.(core := s.core.(at := ReadingSeeds([]), clock := s.core.clock.Join(s.runningReleased)))
  }

  predicate CanReadSeed(z: Sizes, s: State) {
    s.core.at.ReadingSeeds? && |s.core.at.got| < 2 * z.outputs
  }

  function DoReadSeed(z: Sizes, s: State): State
    requires Shape(z, s) && CanReadSeed(z, s)
  {
    var c := s.core;
    var now, p, i := TickCore(c.clock), |c.at.got|, |c.at.got| / 2;
    var cells := s.output.Of(p).cells;
    s.(output := CoreTouches(s.output, p, cells, now),
       core := c.(at := ReadingSeeds(c.at.got + [cells[i]]), clock := now))
  }

  predicate CanFinishSeeds(z: Sizes, s: State) {
    s.core.at.ReadingSeeds? && |s.core.at.got| == 2 * z.outputs
  }

  function DoFinishSeeds(s: State): State { s.(core := s.core.(at := Waiting)) }

  predicate CanLoadCycle(s: State, load: nat) {
    s.core.at.Waiting? && s.core.seen <= load < |s.cycle|
  }

  // A cycle beyond its own last answer is the core's to answer.
  function DoLoadCycle(z: Sizes, s: State, load: nat): State
    requires Shape(z, s) && CanLoadCycle(s, load)
  {
    var isNew := s.cycle[load].value > s.response[s.R()].value;
    s.(core := Core(if isNew then ReadingInputs([]) else Waiting,
                    s.core.clock.Join(s.cycle[load].released), load))
  }

  predicate CanReadInput(z: Sizes, s: State) {
    s.core.at.ReadingInputs? && |s.core.at.heard| < z.inputs
  }

  function DoReadInput(z: Sizes, s: State): State
    requires Shape(z, s) && CanReadInput(z, s)
  {
    var c := s.core;
    var now, p := TickCore(c.clock), CoreHalf(s);
    var cells := s.input.Of(p).cells;
    s.(input := CoreTouches(s.input, p, cells, now),
       core := c.(at := ReadingInputs(c.at.heard + [cells[|c.at.heard|]]), clock := now))
  }

  // Whatever the core computes: any outputs at all, from what it has heard.
  predicate CanCompute(z: Sizes, s: State, out: seq<real>) {
    s.core.at.ReadingInputs? && |s.core.at.heard| == z.inputs && |out| == z.outputs
  }

  function DoCompute(z: Sizes, s: State, out: seq<real>): State
    requires CanCompute(z, s, out)
  {
    s.(core := s.core.(at := WritingOutputs(s.core.at.heard, out, 0)))
  }

  predicate CanWriteOutput(z: Sizes, s: State) {
    s.core.at.WritingOutputs? && s.core.at.written < z.outputs
  }

  function DoWriteOutput(z: Sizes, s: State): State
    requires Shape(z, s) && CanWriteOutput(z, s)
  {
    var c := s.core;
    var now, p, i := TickCore(c.clock), CoreHalf(s), c.at.written;
    s.(output := CoreTouches(s.output, p, s.output.Of(p).cells[i := c.at.out[i]], now),
       core := c.(at := c.at.(written := i + 1), clock := now))
  }

  predicate CanRespond(z: Sizes, s: State) {
    s.core.at.WritingOutputs? && s.core.at.written == z.outputs
  }

  function DoRespond(z: Sizes, s: State): State
    requires Shape(z, s) && CanRespond(z, s)
  {
    var c := s.core;
    var now := TickCore(c.clock);
    s.(response := s.response + [Store(s.cycle[c.seen].value, now)],
       core := c.(at := Waiting, clock := now),
       answers := s.answers + [Exchange(c.at.heard, c.at.out)])
  }

  predicate Enabled(z: Sizes, s: State, step: Step) {
    match step
    case SeedCell => CanSeedCell(z, s)
    case SetRunning => CanSetRunning(z, s)
    case LoopStep(e, load) => CanLoopStep(z, s, e, load)
    case ReadOutput => CanReadOutput(z, s)
    case FinishTake => CanFinishTake(z, s)
    case FillInput(_) => CanFillInput(z, s)
    case Publish => CanPublish(z, s)
    case Attach => CanAttach(s)
    case ReadSeed => CanReadSeed(z, s)
    case FinishSeeds => CanFinishSeeds(z, s)
    case LoadCycle(load) => CanLoadCycle(s, load)
    case ReadInput => CanReadInput(z, s)
    case Compute(out) => CanCompute(z, s, out)
    case WriteOutput => CanWriteOutput(z, s)
    case Respond => CanRespond(z, s)
  }

  function Do(z: Sizes, s: State, step: Step): State
    requires Shape(z, s) && Enabled(z, s, step)
  {
    match step
    case SeedCell => DoSeedCell(z, s)
    case SetRunning => DoSetRunning(z, s)
    case LoopStep(e, load) => DoLoopStep(z, s, e, load)
    case ReadOutput => DoReadOutput(z, s)
    case FinishTake => DoFinishTake(z, s)
    case FillInput(v) => DoFillInput(z, s, v)
    case Publish => DoPublish(z, s)
    case Attach => DoAttach(s)
    case ReadSeed => DoReadSeed(z, s)
    case FinishSeeds => DoFinishSeeds(s)
    case LoadCycle(load) => DoLoadCycle(z, s, load)
    case ReadInput => DoReadInput(z, s)
    case Compute(out) => DoCompute(z, s, out)
    case WriteOutput => DoWriteOutput(z, s)
    case Respond => DoRespond(z, s)
  }

  // --- The invariant --------------------------------------------------------

  ghost predicate Busy(s: State) { s.core.at.ReadingInputs? || s.core.at.WritingOutputs? }

  // Sizes, the counters' values, and where each process may be.
  ghost predicate Shape(z: Sizes, s: State) {
    && |s.cycle| > 0 && |s.response| > 0
    && |s.seeds| == z.outputs
    && |s.input.even.cells| == |s.input.odd.cells| == z.inputs
    && |s.output.even.cells| == |s.output.odd.cells| == z.outputs
    && (forall k :: 0 <= k < |s.cycle| ==> s.cycle[k].value == k)
    && (forall k :: 0 <= k < |s.response| ==> s.response[k].value == k)
    && |s.published| == s.C() && |s.answers| == s.R()
    && (forall n :: 0 <= n < |s.published| ==> |s.published[n]| == z.inputs)
    && (forall n :: 0 <= n < |s.answers| ==> |s.answers[n].out| == z.outputs)
    && s.R() <= s.C() <= s.R() + 1
    && DriverShape(z, s) && CoreShape(z, s)
  }

  // What the loop's own invariant says about where it stands in the exchange.
  ghost predicate LoopFacts(l: Loop) {
    && l.Last().answered <= l.seen <= l.cycle <= l.seen + 1
    && (l.phase == AtPublish ==> l.seen == l.cycle)
    && (l.phase == AtWrite ==> l.cycle == l.Last().cycle <= l.Last().answered + 1)
  }

  ghost predicate DriverShape(z: Sizes, s: State) {
    var d, l := s.driver, s.L();
    && LoopFacts(l)
    && l.cycle == s.C() && l.seen <= s.R()
    && (d.at.Seeding? ==> !s.running && l == HostLoop.Start(z.loop) && d.at.count <= 2 * z.outputs)
    && (!d.at.Seeding? ==> s.running)
    && (d.at.Filling? <==> l.phase == AtPublish)
    && (d.at.Filling? ==> |d.at.put| <= z.inputs)
    && (d.at.Reading? ==> l.phase == AtWrite && l.Last().answered > 0 && |d.at.got| <= z.outputs)
  }

  ghost predicate CoreShape(z: Sizes, s: State) {
    var c := s.core;
    && c.seen <= s.C()
    && (if Busy(s) then c.seen == s.C() == s.R() + 1 else c.seen <= s.R())
    && (c.at.Detached? || c.at.ReadingSeeds? ==> s.R() == 0)
    && (!c.at.Detached? ==> s.running)
    && (c.at.ReadingSeeds? ==> |c.at.got| <= 2 * z.outputs)
    && (c.at.ReadingInputs? ==> |c.at.heard| <= z.inputs)
    && (c.at.WritingOutputs? ==> |c.at.out| == z.outputs && c.at.written <= z.outputs)
  }

  // What the input halves hold, and what the core has heard of them.
  ghost predicate Inputs(s: State)
    requires |s.cycle| > 0 && |s.published| == s.C() && |s.answers| <= s.C()
  {
    var n := s.C();
    && (n > 0 ==> s.input.Of(n).cells == s.published[n - 1])
    && (s.driver.at.Filling? ==> s.driver.at.put <= s.input.Of(n + 1).cells)
    && (s.core.at.ReadingInputs? ==> n > 0 && s.core.at.heard <= s.published[n - 1])
    && (s.core.at.WritingOutputs? ==> n > 0 && s.core.at.heard == s.published[n - 1])
    && (forall k :: 0 <= k < |s.answers| ==> s.answers[k].heard == s.published[k])
  }

  // What the output halves hold: the newest answer, the one before it while the
  // core is idle, and what each side has copied so far.
  ghost predicate Outputs(s: State)
    requires |s.response| > 0 && |s.answers| == s.R()
  {
    var n := s.R();
    && (n >= 1 ==> s.output.Of(n).cells == s.answers[n - 1].out)
    && (n >= 2 && !s.core.at.WritingOutputs? ==> s.output.Of(n - 1).cells == s.answers[n - 2].out)
    && (s.core.at.WritingOutputs? ==>
          var w := s.core.at.written;
          w <= |s.core.at.out| && w <= |s.output.Of(n + 1).cells|
          && s.output.Of(n + 1).cells[..w] == s.core.at.out[..w])
    && (s.driver.at.Reading? ==>
          var a := s.L().Last().answered;
          0 < a <= n && s.driver.at.got <= s.answers[a - 1].out)
    && TakenAreAnswers(s)
  }

  ghost predicate TakenAreAnswers(s: State) {
    forall i :: 0 <= i < |s.driver.taken| ==>
      var t := s.driver.taken[i];
      0 < t.answered <= |s.answers| && t.values == s.answers[t.answered - 1].out
  }

  ghost predicate Seeded(cells: seq<real>, seeds: seq<real>, count: nat) {
    count <= |cells| == |seeds| && cells[..count] == seeds[..count]
  }

  // The starting values, until the core's first answer overwrites them.
  ghost predicate Seeds(z: Sizes, s: State)
    requires |s.seeds| == z.outputs
  {
    && (s.driver.at.Seeding? ==> s.core.at.Detached?)
    && (s.driver.at.Seeding? ==>
          Seeded(s.output.even.cells, s.seeds, (s.driver.at.count + 1) / 2)
          && Seeded(s.output.odd.cells, s.seeds, s.driver.at.count / 2))
    && (s.running && (s.core.at.Detached? || s.core.at.ReadingSeeds?) ==>
          s.output.even.cells == s.output.odd.cells == s.seeds)
    && (s.core.at.ReadingSeeds? ==>
          forall j :: 0 <= j < |s.core.at.got| && j / 2 < |s.seeds| ==> s.core.at.got[j] == s.seeds[j / 2])
  }

  predicate NextTaken(t: seq<Taken>, i: nat)
    requires 0 < i < |t|
  {
    t[i - 1].answered <= t[i].answered <= t[i - 1].answered + 2
  }

  // The answers taken are a sampling of them all (`OnChange.Sampling`).
  ghost predicate TakenInOrder(s: State) {
    var t := s.driver.taken;
    && (t != [] ==> t[0].answered <= 2)
    && (forall i {:trigger NextTaken(t, i)} :: 0 < i < |t| ==> NextTaken(t, i))
    && (if s.driver.at.Reading?
        then LastTaken(s) <= s.L().Last().answered <= LastTaken(s) + 2
        else LastTaken(s) == s.L().Last().answered)
  }

  ghost function LastTaken(s: State): nat {
    if s.driver.taken == [] then 0 else s.driver.taken[|s.driver.taken| - 1].answered
  }

  ghost predicate Past(h: Half, d: Clock, c: Clock) { h.driverAt <= d.driver && h.coreAt <= c.core }

  // Who knows of which access: the happens-before half of the argument.
  ghost predicate Clocks(s: State)
    requires |s.cycle| > 0 && |s.response| > 0
  {
    var d, c := s.driver.clock, s.core.clock;
    && Past(s.input.even, d, c) && Past(s.input.odd, d, c)
    && Past(s.output.even, d, c) && Past(s.output.odd, d, c)
    && (forall k :: 0 <= k < |s.response| ==> s.response[k].released.core <= c.core)
    && (forall j, k :: 0 <= j <= k < |s.response| ==>
          s.response[j].released.core <= s.response[k].released.core)
    && (s.L().seen < |s.response| ==> s.response[s.L().seen].released.core <= d.core)
    && (s.core.seen < |s.cycle| ==> s.cycle[s.core.seen].released.driver <= c.driver)
    && (!s.core.at.Detached? ==> s.runningReleased.driver <= c.driver)
    && InputClocks(s) && OutputClocks(s)
  }

  ghost predicate InputClocks(s: State)
    requires |s.cycle| > 0 && |s.response| > 0
  {
    && (!Busy(s) ==> s.input.even.coreAt <= s.response[s.R()].released.core
                     && s.input.odd.coreAt <= s.response[s.R()].released.core)
    && (s.C() > 0 ==> s.input.Of(s.C()).driverAt <= s.cycle[s.C()].released.driver)
  }

  ghost predicate OutputClocks(s: State)
    requires |s.cycle| > 0 && |s.response| > 0
  {
    var n := s.R();
    && (n >= 1 ==> s.output.Of(n).coreAt <= s.response[n].released.core)
    && (n >= 2 && !Busy(s) ==> s.output.Of(n - 1).coreAt <= s.response[n - 1].released.core)
    && (s.C() == n + 1 ==> s.output.Of(s.C()).driverAt <= s.cycle[s.C()].released.driver)
    && (n == 0 && s.running ==> s.output.even.driverAt <= s.runningReleased.driver
                                && s.output.odd.driverAt <= s.runningReleased.driver)
    && (!s.running ==> s.output.even.coreAt == s.output.odd.coreAt == 0)
  }

  ghost predicate Data(z: Sizes, s: State) {
    Shape(z, s) && Inputs(s) && Outputs(s) && Seeds(z, s) && TakenInOrder(s)
  }

  ghost predicate Times(z: Sizes, s: State) {
    Shape(z, s) && Clocks(s)
  }

  lemma StartSafe(z: Sizes, seeds: seq<real>)
    requires |seeds| == z.outputs
    ensures Data(z, Start(z, seeds)) && Times(z, Start(z, seeds))
  {}

  // --- Every step keeps it --------------------------------------------------

  lemma FactsOfInv(cfg: Config, l: Loop)
    requires Inv(cfg, l)
    ensures LoopFacts(l)
  {}

  lemma SeedCellData(z: Sizes, s: State)
    requires Data(z, s) && CanSeedCell(z, s)
    ensures Data(z, DoSeedCell(z, s))
  {}

  lemma SeedCellTimes(z: Sizes, s: State)
    requires Times(z, s) && CanSeedCell(z, s)
    ensures Times(z, DoSeedCell(z, s))
  {}

  lemma SetRunningData(z: Sizes, s: State)
    requires Data(z, s) && CanSetRunning(z, s)
    ensures Data(z, DoSetRunning(z, s))
  {
    assert s.seeds[..z.outputs] == s.seeds;
    assert s.output.even.cells[..z.outputs] == s.output.even.cells;
    assert s.output.odd.cells[..z.outputs] == s.output.odd.cells;
  }

  lemma SetRunningTimes(z: Sizes, s: State)
    requires Times(z, s) && CanSetRunning(z, s)
    ensures Times(z, DoSetRunning(z, s))
  {}

  lemma LoopStepShape(z: Sizes, s: State, e: Event, load: nat)
    requires Shape(z, s) && CanLoopStep(z, s, e, load)
    requires HostLoop.Enabled(z.loop, s.L(), e) && LoopFacts(Apply(z.loop, s.L(), e))
    ensures Shape(z, DoLoopStep(z, s, e, load))
  {}

  // A step of the loop touches no buffer and starts its copies from nothing.
  lemma WithLoopHalves(z: Sizes, s: State, l: Loop, at: DriverAt, clock: Clock)
    requires Shape(z, s) && Inputs(s) && Outputs(s) && Shape(z, WithLoop(s, l, at, clock))
    requires at.Reading? ==> at.got == []
    requires at.Filling? ==> at.put == []
    ensures Inputs(WithLoop(s, l, at, clock)) && Outputs(WithLoop(s, l, at, clock))
  {}

  lemma WithLoopClocks(z: Sizes, s: State, l: Loop, at: DriverAt, clock: Clock)
    requires Shape(z, s) && Clocks(s) && l.seen < |s.response|
    requires clock.driver >= s.driver.clock.driver
    requires s.response[l.seen].released.core <= clock.core
    ensures Clocks(WithLoop(s, l, at, clock))
  {}

  lemma LoopStepStory(z: Sizes, s: State, e: Event, load: nat)
    requires Shape(z, s) && Seeds(z, s) && TakenInOrder(s) && CanLoopStep(z, s, e, load) && Shape(z, DoLoopStep(z, s, e, load))
    requires e.CollectAnswer? ==> Follows(s.L().Last(), Collected(e.response, s.L().cycle))
    ensures Seeds(z, DoLoopStep(z, s, e, load)) && TakenInOrder(DoLoopStep(z, s, e, load))
  {}

  lemma LoopStepData(z: Sizes, s: State, e: Event, load: nat)
    requires Data(z, s) && CanLoopStep(z, s, e, load)
    requires HostLoop.Enabled(z.loop, s.L(), e) && LoopFacts(Apply(z.loop, s.L(), e))
    requires e.CollectAnswer? ==> Follows(s.L().Last(), Collected(e.response, s.L().cycle))
    ensures Data(z, DoLoopStep(z, s, e, load))
  {
    LoopStepShape(z, s, e, load);
    var s' := DoLoopStep(z, s, e, load);
    WithLoopHalves(z, s, s'.L(), s'.driver.at, s'.driver.clock);
    LoopStepStory(z, s, e, load);
  }

  lemma LoopStepTimes(z: Sizes, s: State, e: Event, load: nat)
    requires Times(z, s) && CanLoopStep(z, s, e, load)
    requires HostLoop.Enabled(z.loop, s.L(), e) && LoopFacts(Apply(z.loop, s.L(), e))
    requires e.CollectAnswer? ==> Follows(s.L().Last(), Collected(e.response, s.L().cycle))
    ensures Times(z, DoLoopStep(z, s, e, load))
  {
    LoopStepShape(z, s, e, load);
    var s' := DoLoopStep(z, s, e, load);
    WithLoopClocks(z, s, s'.L(), s'.driver.at, s'.driver.clock);
  }

  lemma ReadOutputShape(z: Sizes, s: State)
    requires Shape(z, s) && CanReadOutput(z, s)
    ensures Shape(z, DoReadOutput(z, s))
    ensures
      var s' := DoReadOutput(z, s);
      && s'.output.even.cells == s.output.even.cells && s'.output.odd.cells == s.output.odd.cells
      && s'.driver.at.got == s.driver.at.got + [s.output.Of(ReadHalf(s)).cells[|s.driver.at.got|]]
  {}

  lemma ReadOutputInputs(z: Sizes, s: State)
    requires Shape(z, s) && Inputs(s) && CanReadOutput(z, s)
    ensures Shape(z, DoReadOutput(z, s)) ==> Inputs(DoReadOutput(z, s))
  {}

  lemma ReadOutputOutputs(z: Sizes, s: State, s': State)
    requires Shape(z, s) && Outputs(s) && CanReadOutput(z, s) && Shape(z, s')
    requires s'.output.even.cells == s.output.even.cells && s'.output.odd.cells == s.output.odd.cells
    requires s'.driver.at.Reading? && s'.L() == s.L() && s'.driver.taken == s.driver.taken
    requires s'.response == s.response && s'.answers == s.answers && s'.core == s.core
    requires
      var n := |s.driver.at.got|;
      s'.driver.at.got == s.driver.at.got + [s.output.Of(ReadHalf(s)).cells[n]]
    ensures Outputs(s')
  {
    var a := s.L().Last().answered;
    assert s.output.Of(a).cells == s.answers[a - 1].out;
  }

  lemma ReadOutputHalves(z: Sizes, s: State)
    requires Shape(z, s) && Inputs(s) && Outputs(s) && CanReadOutput(z, s)
    ensures Shape(z, DoReadOutput(z, s)) && Inputs(DoReadOutput(z, s)) && Outputs(DoReadOutput(z, s))
  {
    ReadOutputShape(z, s);
    ReadOutputInputs(z, s);
    ReadOutputOutputs(z, s, DoReadOutput(z, s));
  }

  lemma ReadOutputStory(z: Sizes, s: State)
    requires Shape(z, s) && Seeds(z, s) && TakenInOrder(s) && CanReadOutput(z, s) && Shape(z, DoReadOutput(z, s))
    ensures Seeds(z, DoReadOutput(z, s)) && TakenInOrder(DoReadOutput(z, s))
  {}

  lemma ReadOutputData(z: Sizes, s: State)
    requires Data(z, s) && CanReadOutput(z, s)
    ensures Data(z, DoReadOutput(z, s))
  {
    ReadOutputHalves(z, s);
    ReadOutputStory(z, s);
  }

  lemma ReadOutputClocks(z: Sizes, s: State)
    requires Shape(z, s) && OutputClocks(s) && CanReadOutput(z, s) && Shape(z, DoReadOutput(z, s))
    ensures OutputClocks(DoReadOutput(z, s))
  {
    assert s.C() == s.R() + 1 ==> ReadHalf(s) == s.C() - 1;
  }

  lemma ReadOutputTimes(z: Sizes, s: State)
    requires Times(z, s) && CanReadOutput(z, s)
    ensures Times(z, DoReadOutput(z, s))
  {
    ReadOutputShape(z, s);
    ReadOutputClocks(z, s);
  }

  lemma FinishTakeShape(z: Sizes, s: State)
    requires Shape(z, s) && CanFinishTake(z, s)
    ensures Shape(z, DoFinishTake(z, s))
  {}

  lemma FinishTakeInputs(z: Sizes, s: State)
    requires Shape(z, s) && Inputs(s) && CanFinishTake(z, s) && Shape(z, DoFinishTake(z, s))
    ensures Inputs(DoFinishTake(z, s))
  {}

  lemma FinishTakeOutputs(z: Sizes, s: State)
    requires Shape(z, s) && Outputs(s) && CanFinishTake(z, s) && Shape(z, DoFinishTake(z, s))
    ensures Outputs(DoFinishTake(z, s))
  {
    assert s.driver.at.got == s.answers[s.L().Last().answered - 1].out;
  }

  lemma FinishTakeHalves(z: Sizes, s: State)
    requires Shape(z, s) && Inputs(s) && Outputs(s) && CanFinishTake(z, s)
    ensures Shape(z, DoFinishTake(z, s)) && Inputs(DoFinishTake(z, s)) && Outputs(DoFinishTake(z, s))
  {
    FinishTakeShape(z, s);
    FinishTakeInputs(z, s);
    FinishTakeOutputs(z, s);
  }

  lemma FinishTakeStory(z: Sizes, s: State)
    requires Shape(z, s) && Seeds(z, s) && TakenInOrder(s) && CanFinishTake(z, s) && Shape(z, DoFinishTake(z, s))
    ensures Seeds(z, DoFinishTake(z, s)) && TakenInOrder(DoFinishTake(z, s))
  {
    var t := s.driver.taken;
    var t' := t + [Taken(s.L().Last().answered, s.driver.at.got)];
    forall i | 0 < i < |t'|
      ensures NextTaken(t', i)
    {
      if i < |t| {
        assert NextTaken(t, i);
      }
    }
  }

  lemma FinishTakeData(z: Sizes, s: State)
    requires Data(z, s) && CanFinishTake(z, s)
    ensures Data(z, DoFinishTake(z, s))
  {
    FinishTakeHalves(z, s);
    FinishTakeStory(z, s);
  }

  lemma FinishTakeTimes(z: Sizes, s: State)
    requires Times(z, s) && CanFinishTake(z, s)
    ensures Times(z, DoFinishTake(z, s))
  {}

  lemma FillInputShape(z: Sizes, s: State, value: real)
    requires Shape(z, s) && CanFillInput(z, s)
    ensures Shape(z, DoFillInput(z, s, value))
  {}

  lemma FillInputInputs(z: Sizes, s: State, value: real)
    requires Shape(z, s) && Inputs(s) && CanFillInput(z, s) && Shape(z, DoFillInput(z, s, value))
    ensures Inputs(DoFillInput(z, s, value))
  {}

  lemma FillInputOutputs(z: Sizes, s: State, value: real)
    requires Shape(z, s) && Outputs(s) && CanFillInput(z, s) && Shape(z, DoFillInput(z, s, value))
    ensures Outputs(DoFillInput(z, s, value))
  {}

  lemma FillInputHalves(z: Sizes, s: State, value: real)
    requires Shape(z, s) && Inputs(s) && Outputs(s) && CanFillInput(z, s)
    ensures Shape(z, DoFillInput(z, s, value)) && Inputs(DoFillInput(z, s, value)) && Outputs(DoFillInput(z, s, value))
  {
    FillInputShape(z, s, value);
    FillInputInputs(z, s, value);
    FillInputOutputs(z, s, value);
  }

  lemma FillInputStory(z: Sizes, s: State, value: real)
    requires Shape(z, s) && Seeds(z, s) && TakenInOrder(s) && CanFillInput(z, s) && Shape(z, DoFillInput(z, s, value))
    ensures Seeds(z, DoFillInput(z, s, value)) && TakenInOrder(DoFillInput(z, s, value))
  {}

  lemma FillInputData(z: Sizes, s: State, value: real)
    requires Data(z, s) && CanFillInput(z, s)
    ensures Data(z, DoFillInput(z, s, value))
  {
    FillInputHalves(z, s, value);
    FillInputStory(z, s, value);
  }

  lemma FillInputTimes(z: Sizes, s: State, value: real)
    requires Times(z, s) && CanFillInput(z, s)
    ensures Times(z, DoFillInput(z, s, value))
  {}

  lemma PublishShape(z: Sizes, s: State)
    requires Shape(z, s) && CanPublish(z, s)
    requires LoopFacts(Apply(z.loop, s.L(), PublishCycle))
    ensures Shape(z, DoPublish(z, s))
  {}

  lemma PublishInputs(z: Sizes, s: State)
    requires Shape(z, s) && Inputs(s) && CanPublish(z, s) && Shape(z, DoPublish(z, s))
    requires LoopFacts(Apply(z.loop, s.L(), PublishCycle))
    ensures Inputs(DoPublish(z, s))
  {}

  lemma PublishOutputs(z: Sizes, s: State)
    requires Shape(z, s) && Outputs(s) && CanPublish(z, s) && Shape(z, DoPublish(z, s))
    requires LoopFacts(Apply(z.loop, s.L(), PublishCycle))
    ensures Outputs(DoPublish(z, s))
  {}

  lemma PublishHalves(z: Sizes, s: State)
    requires Shape(z, s) && Inputs(s) && Outputs(s) && CanPublish(z, s)
    requires LoopFacts(Apply(z.loop, s.L(), PublishCycle))
    ensures Shape(z, DoPublish(z, s)) && Inputs(DoPublish(z, s)) && Outputs(DoPublish(z, s))
  {
    PublishShape(z, s);
    PublishInputs(z, s);
    PublishOutputs(z, s);
  }

  lemma PublishStory(z: Sizes, s: State)
    requires Shape(z, s) && Seeds(z, s) && TakenInOrder(s) && CanPublish(z, s) && Shape(z, DoPublish(z, s))
    ensures Seeds(z, DoPublish(z, s)) && TakenInOrder(DoPublish(z, s))
  {}

  lemma PublishData(z: Sizes, s: State)
    requires Data(z, s) && CanPublish(z, s)
    requires LoopFacts(Apply(z.loop, s.L(), PublishCycle))
    ensures Data(z, DoPublish(z, s))
  {
    PublishHalves(z, s);
    PublishStory(z, s);
  }

  lemma PublishTimes(z: Sizes, s: State)
    requires Times(z, s) && CanPublish(z, s)
    requires LoopFacts(Apply(z.loop, s.L(), PublishCycle))
    ensures Times(z, DoPublish(z, s))
  {}

  lemma AttachData(z: Sizes, s: State)
    requires Data(z, s) && CanAttach(s)
    ensures Data(z, DoAttach(s))
  {}

  lemma AttachTimes(z: Sizes, s: State)
    requires Times(z, s) && CanAttach(s)
    ensures Times(z, DoAttach(s))
  {}

  lemma ReadSeedData(z: Sizes, s: State)
    requires Data(z, s) && CanReadSeed(z, s)
    ensures Data(z, DoReadSeed(z, s))
  {}

  lemma ReadSeedTimes(z: Sizes, s: State)
    requires Times(z, s) && CanReadSeed(z, s)
    ensures Times(z, DoReadSeed(z, s))
  {}

  lemma FinishSeedsData(z: Sizes, s: State)
    requires Data(z, s) && CanFinishSeeds(z, s)
    ensures Data(z, DoFinishSeeds(s))
  {}

  lemma FinishSeedsTimes(z: Sizes, s: State)
    requires Times(z, s) && CanFinishSeeds(z, s)
    ensures Times(z, DoFinishSeeds(s))
  {}

  lemma LoadCycleShape(z: Sizes, s: State, load: nat)
    requires Shape(z, s) && CanLoadCycle(s, load)
    ensures Shape(z, DoLoadCycle(z, s, load))
  {}

  lemma LoadCycleInputs(z: Sizes, s: State, load: nat)
    requires Shape(z, s) && Inputs(s) && CanLoadCycle(s, load) && Shape(z, DoLoadCycle(z, s, load))
    ensures Inputs(DoLoadCycle(z, s, load))
  {}

  lemma LoadCycleOutputs(z: Sizes, s: State, load: nat)
    requires Shape(z, s) && Outputs(s) && CanLoadCycle(s, load) && Shape(z, DoLoadCycle(z, s, load))
    ensures Outputs(DoLoadCycle(z, s, load))
  {}

  lemma LoadCycleHalves(z: Sizes, s: State, load: nat)
    requires Shape(z, s) && Inputs(s) && Outputs(s) && CanLoadCycle(s, load)
    ensures Shape(z, DoLoadCycle(z, s, load)) && Inputs(DoLoadCycle(z, s, load)) && Outputs(DoLoadCycle(z, s, load))
  {
    LoadCycleShape(z, s, load);
    LoadCycleInputs(z, s, load);
    LoadCycleOutputs(z, s, load);
  }

  lemma LoadCycleStory(z: Sizes, s: State, load: nat)
    requires Shape(z, s) && Seeds(z, s) && TakenInOrder(s) && CanLoadCycle(s, load) && Shape(z, DoLoadCycle(z, s, load))
    ensures Seeds(z, DoLoadCycle(z, s, load)) && TakenInOrder(DoLoadCycle(z, s, load))
  {}

  lemma LoadCycleData(z: Sizes, s: State, load: nat)
    requires Data(z, s) && CanLoadCycle(s, load)
    ensures Data(z, DoLoadCycle(z, s, load))
  {
    LoadCycleHalves(z, s, load);
    LoadCycleStory(z, s, load);
  }

  lemma LoadCycleTimes(z: Sizes, s: State, load: nat)
    requires Times(z, s) && CanLoadCycle(s, load)
    ensures Times(z, DoLoadCycle(z, s, load))
  {}

  lemma ReadInputShape(z: Sizes, s: State)
    requires Shape(z, s) && CanReadInput(z, s)
    ensures Shape(z, DoReadInput(z, s))
  {}

  lemma ReadInputInputs(z: Sizes, s: State)
    requires Shape(z, s) && Inputs(s) && CanReadInput(z, s) && Shape(z, DoReadInput(z, s))
    ensures Inputs(DoReadInput(z, s))
  {
    var input := DoReadInput(z, s).input;
    assert input.even.cells == s.input.even.cells && input.odd.cells == s.input.odd.cells;
  }

  lemma ReadInputOutputs(z: Sizes, s: State)
    requires Shape(z, s) && Outputs(s) && CanReadInput(z, s) && Shape(z, DoReadInput(z, s))
    ensures Outputs(DoReadInput(z, s))
  {}

  lemma ReadInputHalves(z: Sizes, s: State)
    requires Shape(z, s) && Inputs(s) && Outputs(s) && CanReadInput(z, s)
    ensures Shape(z, DoReadInput(z, s)) && Inputs(DoReadInput(z, s)) && Outputs(DoReadInput(z, s))
  {
    ReadInputShape(z, s);
    ReadInputInputs(z, s);
    ReadInputOutputs(z, s);
  }

  lemma ReadInputStory(z: Sizes, s: State)
    requires Shape(z, s) && Seeds(z, s) && TakenInOrder(s) && CanReadInput(z, s) && Shape(z, DoReadInput(z, s))
    ensures Seeds(z, DoReadInput(z, s)) && TakenInOrder(DoReadInput(z, s))
  {}

  lemma ReadInputData(z: Sizes, s: State)
    requires Data(z, s) && CanReadInput(z, s)
    ensures Data(z, DoReadInput(z, s))
  {
    ReadInputHalves(z, s);
    ReadInputStory(z, s);
  }

  lemma ReadInputTimes(z: Sizes, s: State)
    requires Times(z, s) && CanReadInput(z, s)
    ensures Times(z, DoReadInput(z, s))
  {}

  lemma ComputeData(z: Sizes, s: State, out: seq<real>)
    requires Data(z, s) && CanCompute(z, s, out)
    ensures Data(z, DoCompute(z, s, out))
  {}

  lemma ComputeTimes(z: Sizes, s: State, out: seq<real>)
    requires Times(z, s) && CanCompute(z, s, out)
    ensures Times(z, DoCompute(z, s, out))
  {}

  lemma WriteOutputShape(z: Sizes, s: State)
    requires Shape(z, s) && CanWriteOutput(z, s)
    ensures Shape(z, DoWriteOutput(z, s))
  {}

  lemma WriteOutputInputs(z: Sizes, s: State)
    requires Shape(z, s) && Inputs(s) && CanWriteOutput(z, s) && Shape(z, DoWriteOutput(z, s))
    ensures Inputs(DoWriteOutput(z, s))
  {}

  lemma WriteOutputOutputs(z: Sizes, s: State)
    requires Shape(z, s) && Outputs(s) && CanWriteOutput(z, s) && Shape(z, DoWriteOutput(z, s))
    ensures Outputs(DoWriteOutput(z, s))
  {}

  lemma WriteOutputHalves(z: Sizes, s: State)
    requires Shape(z, s) && Inputs(s) && Outputs(s) && CanWriteOutput(z, s)
    ensures Shape(z, DoWriteOutput(z, s)) && Inputs(DoWriteOutput(z, s)) && Outputs(DoWriteOutput(z, s))
  {
    WriteOutputShape(z, s);
    WriteOutputInputs(z, s);
    WriteOutputOutputs(z, s);
  }

  lemma WriteOutputStory(z: Sizes, s: State)
    requires Shape(z, s) && Seeds(z, s) && TakenInOrder(s) && CanWriteOutput(z, s) && Shape(z, DoWriteOutput(z, s))
    ensures Seeds(z, DoWriteOutput(z, s)) && TakenInOrder(DoWriteOutput(z, s))
  {}

  lemma WriteOutputData(z: Sizes, s: State)
    requires Data(z, s) && CanWriteOutput(z, s)
    ensures Data(z, DoWriteOutput(z, s))
  {
    WriteOutputHalves(z, s);
    WriteOutputStory(z, s);
  }

  lemma WriteOutputTimes(z: Sizes, s: State)
    requires Times(z, s) && CanWriteOutput(z, s)
    ensures Times(z, DoWriteOutput(z, s))
  {}

  lemma RespondShape(z: Sizes, s: State)
    requires Shape(z, s) && CanRespond(z, s)
    ensures Shape(z, DoRespond(z, s))
  {}

  lemma RespondInputs(z: Sizes, s: State)
    requires Shape(z, s) && Inputs(s) && CanRespond(z, s) && Shape(z, DoRespond(z, s))
    ensures Inputs(DoRespond(z, s))
  {}

  lemma RespondOutputs(z: Sizes, s: State)
    requires Shape(z, s) && Outputs(s) && CanRespond(z, s) && Shape(z, DoRespond(z, s))
    ensures Outputs(DoRespond(z, s))
  {}

  lemma RespondHalves(z: Sizes, s: State)
    requires Shape(z, s) && Inputs(s) && Outputs(s) && CanRespond(z, s)
    ensures Shape(z, DoRespond(z, s)) && Inputs(DoRespond(z, s)) && Outputs(DoRespond(z, s))
  {
    RespondShape(z, s);
    RespondInputs(z, s);
    RespondOutputs(z, s);
  }

  lemma RespondStory(z: Sizes, s: State)
    requires Shape(z, s) && Seeds(z, s) && TakenInOrder(s) && CanRespond(z, s) && Shape(z, DoRespond(z, s))
    ensures Seeds(z, DoRespond(z, s)) && TakenInOrder(DoRespond(z, s))
  {}

  lemma RespondData(z: Sizes, s: State)
    requires Data(z, s) && CanRespond(z, s)
    ensures Data(z, DoRespond(z, s))
  {
    RespondHalves(z, s);
    RespondStory(z, s);
  }

  lemma RespondTimes(z: Sizes, s: State)
    requires Times(z, s) && CanRespond(z, s)
    ensures Times(z, DoRespond(z, s))
  {}

  lemma LoopEventAllowed(z: Sizes, s: State, e: Event, load: nat)
    requires Shape(z, s) && Inv(z.loop, s.L()) && CanLoopStep(z, s, e, load)
    ensures HostLoop.Enabled(z.loop, s.L(), e) && LoopFacts(Apply(z.loop, s.L(), e))
    ensures Inv(z.loop, Apply(z.loop, s.L(), e))
    ensures e.CollectAnswer? ==> Follows(s.L().Last(), Collected(e.response, s.L().cycle))
  {
    LoadAllowed(z, s, e, load);
    InvKept(z.loop, s.L(), e);
    FactsOfInv(z.loop, Apply(z.loop, s.L(), e));
    if e.CollectAnswer? {
      CollectFollows(z.loop, s.L(), e.response);
    }
  }

  lemma PublishAllowed(z: Sizes, s: State)
    requires Inv(z.loop, s.L()) && CanPublish(z, s)
    ensures LoopFacts(Apply(z.loop, s.L(), PublishCycle))
    ensures Inv(z.loop, Apply(z.loop, s.L(), PublishCycle))
  {
    InvKept(z.loop, s.L(), PublishCycle);
    FactsOfInv(z.loop, Apply(z.loop, s.L(), PublishCycle));
  }

  lemma DataKept(z: Sizes, s: State, step: Step)
    requires Data(z, s) && Inv(z.loop, s.L()) && Enabled(z, s, step)
    ensures Data(z, Do(z, s, step))
  {
    match step
    case SeedCell => SeedCellData(z, s);
    case SetRunning => SetRunningData(z, s);
    case LoopStep(e, load) =>
      LoopEventAllowed(z, s, e, load);
      LoopStepData(z, s, e, load);
    case ReadOutput => ReadOutputData(z, s);
    case FinishTake => FinishTakeData(z, s);
    case FillInput(v) => FillInputData(z, s, v);
    case Publish =>
      PublishAllowed(z, s);
      PublishData(z, s);
    case Attach => AttachData(z, s);
    case ReadSeed => ReadSeedData(z, s);
    case FinishSeeds => FinishSeedsData(z, s);
    case LoadCycle(load) => LoadCycleData(z, s, load);
    case ReadInput => ReadInputData(z, s);
    case Compute(out) => ComputeData(z, s, out);
    case WriteOutput => WriteOutputData(z, s);
    case Respond => RespondData(z, s);
  }

  lemma TimesKept(z: Sizes, s: State, step: Step)
    requires Times(z, s) && Inv(z.loop, s.L()) && Enabled(z, s, step)
    ensures Times(z, Do(z, s, step))
  {
    match step
    case SeedCell => SeedCellTimes(z, s);
    case SetRunning => SetRunningTimes(z, s);
    case LoopStep(e, load) =>
      LoopEventAllowed(z, s, e, load);
      LoopStepTimes(z, s, e, load);
    case ReadOutput => ReadOutputTimes(z, s);
    case FinishTake => FinishTakeTimes(z, s);
    case FillInput(v) => FillInputTimes(z, s, v);
    case Publish =>
      PublishAllowed(z, s);
      PublishTimes(z, s);
    case Attach => AttachTimes(z, s);
    case ReadSeed => ReadSeedTimes(z, s);
    case FinishSeeds => FinishSeedsTimes(z, s);
    case LoadCycle(load) => LoadCycleTimes(z, s, load);
    case ReadInput => ReadInputTimes(z, s);
    case Compute(out) => ComputeTimes(z, s, out);
    case WriteOutput => WriteOutputTimes(z, s);
    case Respond => RespondTimes(z, s);
  }
}
