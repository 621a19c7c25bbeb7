/**
 The region from its creation to its end (`host/region.c`, `host/main.c`), one
 effect a step, with a core that may attach to whatever its name shows at any
 moment and, once attached, write answers or end the channel. The region is made
 under a name no core attaches to and renamed when it is finished.
 */
module Startup {
  import opened Options

  datatype Name = Configured | Measuring

  datatype Status = Starting | Running | Shutdown | Faulted

  datatype Header = Header(generation: nat, flags: nat)

  datatype Descriptor = Descriptor(name: string, input: bool, valueIndex: nat, flags: nat)

  // A shared object: new ones are zero, here nothing declared and outputs at 0.
  datatype Object = Object(
    header: Option<Header>, block: bool, worst: nat, table: seq<Option<Descriptor>>,
    even: seq<real>, odd: seq<real>, status: Status)

  // What this run is to publish.
  datatype Plan = Plan(header: Header, signals: seq<Descriptor>, starting: seq<real>)

  datatype Pc =
    | AtUnlink
    | AtOpen
    | AtSize
    | AtMap
    | AtHeader
    | AtBlock
    | AtStarting
    | AtTable(at: nat)
    | AtSeed(output: nat, parity: nat)
    | AtMeasure
    | AtName
    | AtRunning
    | Cycling
    | AtShutdown(under: Name)
    | AtRemove(under: Name)
    // With the configured name taken in its time, or never.
    | Gone(named: bool)

  // `mine` is this run's object, `core` what the core has mapped.
  datatype State = State(
    names: map<Name, nat>, objects: seq<Object>, pc: Pc, mine: Option<nat>, core: Option<nat>)

  datatype Step =
    // This process's next effect: whether it works, or is stopped, and what was measured.
    | Host(ok: bool, worst: nat)
    // A cycle, a fault it finds, or its end.
    | Cycle
    | Fault
    | Finish
    | Attach
    | Answer(parity: nat, output: nat, value: real)
    | CoreEnds(status: Status)

  ghost predicate IsPlan(p: Plan) {
    // This process publishes signals of its own, so there are always some.
    |p.signals| > 0
  }

  // An earlier run may have left objects, under either name, and a core on one.
  ghost predicate Init(p: Plan, s: State) {
    && IsPlan(p)
    && s.pc == AtUnlink && s.mine.None?
    && (forall n :: n in s.names ==> s.names[n] < |s.objects|)
    && (s.core.Some? ==> s.core.value < |s.objects|)
  }

  function NewObject(p: Plan): Object {
    Object(None, false, 0, seq(|p.signals|, _ => None), seq(|p.starting|, _ => 0.0), seq(|p.starting|, _ => 0.0),
           Starting)
  }

  function Unlink(names: map<Name, nat>, n: Name): map<Name, nat> {
    map m | m in names && m != n :: names[m]
  }

  function Put(s: State, o: Object, pc: Pc): State
    requires s.mine.Some? && s.mine.value < |s.objects|
  {
    s.(objects := s.objects[s.mine.value := o], pc := pc)
  }

  function AfterTable(p: Plan, at: nat): Pc {
    if at < |p.signals| then AtTable(at) else AfterSeed(p, 0)
  }

  function AfterSeed(p: Plan, output: nat): Pc {
    if output < |p.starting| then AtSeed(output, 0) else AtMeasure
  }

  ghost predicate CanHost(p: Plan, s: State, worst: nat) {
    && !s.pc.Cycling? && !s.pc.Gone?
    && (s.mine.None? <==> s.pc.AtUnlink? || s.pc.AtOpen?)
    && (s.mine.Some? ==> s.mine.value < |s.objects|)
    && (s.pc.AtTable? ==> s.pc.at < |p.signals| == |s.objects[s.mine.value].table|)
    && (s.pc.AtSeed? ==>
          && s.pc.output < |p.starting| && s.pc.parity < 2
          && |s.objects[s.mine.value].even| == |s.objects[s.mine.value].odd| == |p.starting|)
    && (s.pc.AtName? ==> Measuring in s.names)
    // A declared worst case is never zero: that would say none is declared.
    && (s.pc.AtMeasure? ==> worst > 0)
  }

  ghost function DoHost(p: Plan, s: State, ok: bool, worst: nat): State
    requires CanHost(p, s, worst)
  {
    match s.pc
    case AtUnlink => s.(names := Unlink(s.names, Measuring), pc := AtOpen)
    case AtOpen =>
      // Exclusive: it fails if the name is taken.
      if !ok || Measuring in s.names then s.(pc := Gone(false))
      else s.(objects := s.objects + [NewObject(p)], names := s.names[Measuring := |s.objects|],
              mine := Some(|s.objects|), pc := AtSize)
    case AtSize => s.(pc := if ok then AtMap else AtRemove(Measuring))
    case AtMap => s.(pc := if ok then AtHeader else AtRemove(Measuring))
    case AtHeader => Put(s, s.objects[s.mine.value].(header := Some(p.header)), AtBlock)
    case AtBlock => Put(s, s.objects[s.mine.value].(block := true), AtStarting)
    case AtStarting => Put(s, s.objects[s.mine.value].(status := Starting), AfterTable(p, 0))
    case AtTable(at) =>
      var o := s.objects[s.mine.value];
      Put(s, o.(table := o.table[at := Some(p.signals[at])]), AfterTable(p, at + 1))
    case AtSeed(output, parity) =>
      var o := s.objects[s.mine.value];
      if parity == 0 then Put(s, o.(even := o.even[output := p.starting[output]]), AtSeed(output, 1))
      else Put(s, o.(odd := o.odd[output := p.starting[output]]), AfterSeed(p, output + 1))
    case AtMeasure => Put(s, s.objects[s.mine.value].(worst := worst), AtName)
    case AtName =>
      // `rename` replaces what the name showed in one step.
      if !ok then s.(pc := AtShutdown(Measuring))
      else s.(names := Unlink(s.names, Measuring)[Configured := s.names[Measuring]], pc := AtRunning)
    case AtRunning => Put(s, s.objects[s.mine.value].(status := Running), Cycling)
    case AtShutdown(under) => Put(s, s.objects[s.mine.value].(status := Shutdown), AtRemove(under))
    case AtRemove(under) => s.(names := Unlink(s.names, under), pc := Gone(under == Configured))
  }

  ghost predicate CanStep(p: Plan, s: State, step: Step) {
    match step
    case Host(_, worst) => CanHost(p, s, worst)
    case Cycle => s.pc.Cycling?
    case Fault => s.pc.Cycling? && s.mine.Some? && s.mine.value < |s.objects|
    case Finish => s.pc.Cycling?
    case Attach => Configured in s.names && s.names[Configured] < |s.objects|
    case Answer(parity, output, _) =>
      && s.core.Some? && s.core.value < |s.objects|
      && output < (if parity % 2 == 0 then |s.objects[s.core.value].even| else |s.objects[s.core.value].odd|)
    case CoreEnds(status) => s.core.Some? && s.core.value < |s.objects| && (status.Shutdown? || status.Faulted?)
  }

  ghost function DoStep(p: Plan, s: State, step: Step): State
    requires CanStep(p, s, step)
  {
    match step
    case Host(ok, worst) => DoHost(p, s, ok, worst)
    case Cycle => s
    case Fault => Put(s, s.objects[s.mine.value].(status := Faulted), AtShutdown(Configured))
    case Finish => s.(pc := AtShutdown(Configured))
    case Attach => s.(core := Some(s.names[Configured]))
    case Answer(parity, output, value) =>
      var o := s.objects[s.core.value];
      var u := if parity % 2 == 0 then o.(even := o.even[output := value]) else o.(odd := o.odd[output := value]);
      s.(objects := s.objects[s.core.value := u])
    case CoreEnds(status) =>
      s.(objects := s.objects[s.core.value := s.objects[s.core.value].(status := status)])
  }

  ghost predicate Possible(p: Plan, init: State, steps: seq<Step>)
    decreases |steps|, 0
  {
    |steps| > 0 ==>
      Possible(p, init, steps[..|steps| - 1]) && CanStep(p, After(p, init, steps[..|steps| - 1]), steps[|steps| - 1])
  }

  ghost function After(p: Plan, init: State, steps: seq<Step>): State
    requires Possible(p, init, steps)
    decreases |steps|, 1
  {
    if |steps| == 0 then init else DoStep(p, After(p, init, steps[..|steps| - 1]), steps[|steps| - 1])
  }

  // --- What is finished -----------------------------------------------------

  ghost predicate Declared(p: Plan, o: Object, n: nat) {
    && |o.table| == |p.signals|
    && forall i :: 0 <= i < n && i < |p.signals| ==> o.table[i] == Some(p.signals[i])
  }

  // The first outputs seeded in both halves, and then this many halves of the next.
  ghost predicate Seeded(p: Plan, o: Object, output: nat, parity: nat) {
    && |o.even| == |o.odd| == |p.starting|
    && forall i :: 0 <= i < |p.starting| ==>
         && (i < output || (i == output && parity > 0) ==> o.even[i] == p.starting[i])
         && (i < output ==> o.odd[i] == p.starting[i])
  }

  // What a core reads once: the header with a worst cycle, the block and the whole table.
  ghost predicate Finished(p: Plan, o: Object) {
    && o.header == Some(p.header) && o.block && o.worst > 0
    && Declared(p, o, |p.signals|)
  }

  ghost predicate WholeSeeds(p: Plan, o: Object) {
    Seeded(p, o, |p.starting|, 0)
  }

  // How far the object is, at each place of the program.
  ghost predicate Progress(p: Plan, o: Object, pc: Pc) {
    match pc
    case AtSize | AtMap | AtHeader | AtRemove(Measuring) =>
      Declared(p, o, 0) && Seeded(p, o, 0, 0)
    case AtBlock => o.header == Some(p.header) && Declared(p, o, 0) && Seeded(p, o, 0, 0)
    case AtStarting => o.header == Some(p.header) && o.block && Declared(p, o, 0) && Seeded(p, o, 0, 0)
    case AtTable(at) => o.header == Some(p.header) && o.block && Declared(p, o, at) && Seeded(p, o, 0, 0)
    case AtSeed(output, parity) =>
      o.header == Some(p.header) && o.block && Declared(p, o, |p.signals|) && Seeded(p, o, output, parity)
    case AtMeasure => o.header == Some(p.header) && o.block && Declared(p, o, |p.signals|) && WholeSeeds(p, o)
    case AtName | AtShutdown(Measuring) => Finished(p, o) && WholeSeeds(p, o)
    case AtRunning | Cycling | AtShutdown(Configured) | AtRemove(Configured) => Finished(p, o)
    case AtUnlink | AtOpen | Gone(_) => true
  }

  predicate IsNamed(pc: Pc) {
    pc.AtRunning? || pc.Cycling? || pc == AtShutdown(Configured) || pc == AtRemove(Configured)
  }

  ghost predicate Inv(p: Plan, s: State) {
    && IsPlan(p)
    && (forall n :: n in s.names ==> s.names[n] < |s.objects|)
    && (s.core.Some? ==> s.core.value < |s.objects|)
    && (s.pc.AtUnlink? || s.pc.AtOpen? ==> s.mine.None?)
    && (s.pc.AtUnlink? || s.pc.AtOpen? || s.pc.Gone? || s.mine.Some?)
    && (s.mine.Some? ==>
          && s.mine.value < |s.objects|
          && Progress(p, s.objects[s.mine.value], s.pc)
          && (s.pc.AtTable? ==> s.pc.at < |p.signals|)
          && (s.pc.AtSeed? ==> s.pc.output < |p.starting| && s.pc.parity < 2)
          && (IsNamed(s.pc) ==> Measuring !in s.names && Configured in s.names && s.names[Configured] == s.mine.value)
          && (!IsNamed(s.pc) && !s.pc.Gone? ==>
                && Measuring in s.names && s.names[Measuring] == s.mine.value
                && (Configured in s.names ==> s.names[Configured] != s.mine.value)
                && s.core != s.mine
                && (!s.pc.AtRemove? ==> s.objects[s.mine.value].status.Starting?))
          && (s.pc.Gone? ==> forall n :: n in s.names ==> s.names[n] != s.mine.value)
          && (s.pc.AtRemove? || s.pc.Gone? ==> !s.objects[s.mine.value].status.Running?)
          && (s.pc == AtRemove(Configured) || s.pc == Gone(true) ==> Ended(s.objects[s.mine.value])))
  }

  lemma InitInv(p: Plan, s: State)
    requires Init(p, s)
    ensures Inv(p, s)
  {}

  // --- Every step keeps it --------------------------------------------------

  lemma OpenKeepsInv(p: Plan, s: State, ok: bool, worst: nat)
    requires Inv(p, s) && CanHost(p, s, worst) && (s.pc.AtUnlink? || s.pc.AtOpen?)
    ensures Inv(p, DoHost(p, s, ok, worst))
  {}

  lemma MapKeepsInv(p: Plan, s: State, ok: bool, worst: nat)
    requires Inv(p, s) && CanHost(p, s, worst) && (s.pc.AtSize? || s.pc.AtMap?)
    ensures Inv(p, DoHost(p, s, ok, worst))
  {}

  lemma HeaderKeepsInv(p: Plan, s: State, ok: bool, worst: nat)
    requires Inv(p, s) && CanHost(p, s, worst) && (s.pc.AtHeader? || s.pc.AtBlock? || s.pc.AtStarting?)
    ensures Inv(p, DoHost(p, s, ok, worst))
  {}

  lemma TableKeepsInv(p: Plan, s: State, ok: bool, worst: nat)
    requires Inv(p, s) && CanHost(p, s, worst) && s.pc.AtTable?
    ensures Inv(p, DoHost(p, s, ok, worst))
  {}

  lemma SeedKeepsInv(p: Plan, s: State, ok: bool, worst: nat)
    requires Inv(p, s) && CanHost(p, s, worst) && s.pc.AtSeed?
    ensures Inv(p, DoHost(p, s, ok, worst))
  {}

  lemma MeasureKeepsInv(p: Plan, s: State, ok: bool, worst: nat)
    requires Inv(p, s) && CanHost(p, s, worst) && s.pc.AtMeasure?
    ensures Inv(p, DoHost(p, s, ok, worst))
  {}

  lemma NamingKeepsInv(p: Plan, s: State, ok: bool, worst: nat)
    requires Inv(p, s) && CanHost(p, s, worst) && s.pc.AtName?
    ensures Inv(p, DoHost(p, s, ok, worst))
  {}

  lemma StatusKeepsInv(p: Plan, s: State, ok: bool, worst: nat)
    requires Inv(p, s) && CanHost(p, s, worst) && (s.pc.AtRunning? || s.pc.AtShutdown?)
    ensures Inv(p, DoHost(p, s, ok, worst))
  {}

  lemma RemoveKeepsInv(p: Plan, s: State, ok: bool, worst: nat)
    requires Inv(p, s) && CanHost(p, s, worst) && s.pc.AtRemove?
    ensures Inv(p, DoHost(p, s, ok, worst))
  {}

  lemma HostKeepsInv(p: Plan, s: State, ok: bool, worst: nat)
    requires Inv(p, s) && CanHost(p, s, worst)
    ensures Inv(p, DoHost(p, s, ok, worst))
  {
    if s.pc.AtTable? {
      TableKeepsInv(p, s, ok, worst);
    } else if s.pc.AtSeed? {
      SeedKeepsInv(p, s, ok, worst);
    } else if s.pc.AtMeasure? {
      MeasureKeepsInv(p, s, ok, worst);
    } else if s.pc.AtName? {
      NamingKeepsInv(p, s, ok, worst);
    } else if s.pc.AtRunning? || s.pc.AtShutdown? {
      StatusKeepsInv(p, s, ok, worst);
    } else if s.pc.AtRemove? {
      RemoveKeepsInv(p, s, ok, worst);
    } else if s.pc.AtSize? || s.pc.AtMap? {
      MapKeepsInv(p, s, ok, worst);
    } else if s.pc.AtUnlink? || s.pc.AtOpen? {
      OpenKeepsInv(p, s, ok, worst);
    } else {
      HeaderKeepsInv(p, s, ok, worst);
    }
  }

  lemma FaultKeepsInv(p: Plan, s: State)
    requires Inv(p, s) && CanStep(p, s, Fault)
    ensures Inv(p, DoStep(p, s, Fault))
  {}

  lemma AnswerKeepsInv(p: Plan, s: State, step: Step)
    requires Inv(p, s) && CanStep(p, s, step) && step.Answer?
    ensures Inv(p, DoStep(p, s, step))
  {}

  lemma CoreKeepsInv(p: Plan, s: State, step: Step)
    requires Inv(p, s) && CanStep(p, s, step) && (step.Cycle? || step.Finish? || step.Attach? || step.CoreEnds?)
    ensures Inv(p, DoStep(p, s, step))
  {}

  lemma StepKeepsInv(p: Plan, s: State, step: Step)
    requires Inv(p, s) && CanStep(p, s, step)
    ensures Inv(p, DoStep(p, s, step))
  {
    match step
    case Host(ok, worst) => HostKeepsInv(p, s, ok, worst);
    case Fault => FaultKeepsInv(p, s);
    case Answer(_, _, _) => AnswerKeepsInv(p, s, step);
    case _ => CoreKeepsInv(p, s, step);
  }

  lemma {:induction false} RunKeepsInv(p: Plan, init: State, steps: seq<Step>)
    requires Init(p, init) && Possible(p, init, steps)
    ensures Inv(p, After(p, init, steps))
  {
    if |steps| == 0 {
      InitInv(p, init);
    } else {
      RunKeepsInv(p, init, steps[..|steps| - 1]);
      StepKeepsInv(p, After(p, init, steps[..|steps| - 1]), steps[|steps| - 1]);
    }
  }

  // --- What a core can find -------------------------------------------------

  // The configured name shows what it showed at first, until this run's object
  // takes it; and when that is gone, nothing.
  ghost predicate NameShows(init: State, s: State) {
    && (s.mine.Some? ==> s.mine.value == |init.objects|)
    && |s.objects| == |init.objects| + (if s.mine.Some? then 1 else 0)
    && if IsNamed(s.pc) then Configured in s.names && s.names[Configured] == |init.objects|
       else if s.pc == Gone(true) then Configured !in s.names
       else ShowsSame(init.names, s.names)
  }

  ghost predicate ShowsSame(before: map<Name, nat>, now: map<Name, nat>) {
    && (Configured in now <==> Configured in before)
    && (Configured in now ==> now[Configured] == before[Configured])
  }

  lemma HostKeepsName(p: Plan, init: State, s: State, ok: bool, worst: nat)
    requires NameShows(init, s) && Inv(p, s) && CanHost(p, s, worst)
    ensures NameShows(init, DoHost(p, s, ok, worst))
  {}

  lemma StepKeepsName(p: Plan, init: State, s: State, step: Step)
    requires NameShows(init, s) && Inv(p, s) && CanStep(p, s, step)
    ensures NameShows(init, DoStep(p, s, step))
  {
    if step.Host? {
      HostKeepsName(p, init, s, step.ok, step.worst);
    }
  }

  lemma {:induction false} NameIsEarlierOrMine(p: Plan, init: State, steps: seq<Step>)
    requires Init(p, init) && Possible(p, init, steps)
    ensures NameShows(init, After(p, init, steps))
  {
    if steps == [] {
    } else {
      var before := steps[..|steps| - 1];
      NameIsEarlierOrMine(p, init, before);
      RunKeepsInv(p, init, before);
      StepKeepsName(p, init, After(p, init, before), steps[|steps| - 1]);
    }
  }

  // At any moment the name a core attaches by shows nothing, the object of an
  // earlier run that it showed before, or this run's object, finished.
  lemma NameShowsFinished(p: Plan, init: State, steps: seq<Step>)
    requires Init(p, init) && Possible(p, init, steps)
    ensures var s := After(p, init, steps);
            Configured in s.names ==>
              || (Configured in init.names && s.names[Configured] == init.names[Configured] < |init.objects|)
              || (s.mine == Some(s.names[Configured]) && s.names[Configured] < |s.objects|
                  && Finished(p, s.objects[s.names[Configured]]))
  {
    NameIsEarlierOrMine(p, init, steps);
    RunKeepsInv(p, init, steps);
  }

  // An object that says it is cycling is the one the name shows.
  lemma RunningIsNamed(p: Plan, init: State, steps: seq<Step>)
    requires Init(p, init) && Possible(p, init, steps)
    ensures var s := After(p, init, steps);
            s.mine.Some? && s.mine.value < |s.objects| && s.objects[s.mine.value].status.Running? ==>
              Configured in s.names && s.names[Configured] == s.mine.value
  {
    RunKeepsInv(p, init, steps);
  }

  // When it takes the name, both halves hold every starting value, in order.
  lemma NamedIsSeeded(p: Plan, init: State, steps: seq<Step>, worst: nat)
    requires Init(p, init) && Possible(p, init, steps) && After(p, init, steps).pc == AtName
    requires CanHost(p, After(p, init, steps), worst)
    ensures var s := DoHost(p, After(p, init, steps), true, worst);
            && Configured in s.names && s.mine == Some(s.names[Configured]) && s.names[Configured] < |s.objects|
            && var o := s.objects[s.names[Configured]];
               Finished(p, o) && o.even == p.starting && o.odd == p.starting && s.core != s.mine
  {
    RunKeepsInv(p, init, steps);
  }

  // --- What is never written again ------------------------------------------

  // What a core has read of an object, and its outputs.
  ghost predicate SameParts(o: Object, u: Object) {
    u.header == o.header && u.block == o.block && u.worst == o.worst && u.table == o.table
  }

  ghost predicate SameOutputs(o: Object, u: Object) {
    u.even == o.even && u.odd == o.odd
  }

  // Once it is named no step writes the header, the block or the table, and
  // only the core writes an output.
  ghost predicate WasNamed(s: State) {
    s.mine.Some? && s.mine.value < |s.objects| && (IsNamed(s.pc) || s.pc == Gone(true))
  }

  lemma NamedIsNotRewritten(p: Plan, s: State, step: Step)
    requires Inv(p, s) && CanStep(p, s, step) && WasNamed(s)
    ensures var t := DoStep(p, s, step);
            && WasNamed(t) && t.mine == s.mine
            && SameParts(s.objects[s.mine.value], t.objects[s.mine.value])
            && (!step.Answer? ==> SameOutputs(s.objects[s.mine.value], t.objects[s.mine.value]))
  {}

  lemma {:induction false} NamedStaysWhole(p: Plan, init: State, steps: seq<Step>, i: nat)
    requires Init(p, init) && Possible(p, init, steps) && i <= |steps|
    requires Possible(p, init, steps[..i]) && WasNamed(After(p, init, steps[..i]))
    ensures var s, t := After(p, init, steps[..i]), After(p, init, steps);
            && WasNamed(t) && t.mine == s.mine
            && SameParts(s.objects[s.mine.value], t.objects[s.mine.value])
            && ((forall k :: i <= k < |steps| ==> !steps[k].Answer?) ==>
                  SameOutputs(s.objects[s.mine.value], t.objects[s.mine.value]))
  {
    if i == |steps| {
      assert steps[..i] == steps;
    } else {
      var before := steps[..|steps| - 1];
      assert before[..i] == steps[..i];
      NamedStaysWhole(p, init, before, i);
      RunKeepsInv(p, init, before);
      NamedIsNotRewritten(p, After(p, init, before), steps[|steps| - 1]);
    }
  }

  // --- What the state says --------------------------------------------------

  // One side gave up or went away: the state is not to be moved back from there.
  predicate Ended(o: Object) {
    o.status.Shutdown? || o.status.Faulted?
  }

  // It is moved back by exactly one step: RUNNING is stored after the rename
  // whatever a core that attached between has said.
  lemma EndedStaysIff(p: Plan, s: State, step: Step)
    requires Inv(p, s) && CanStep(p, s, step)
    requires s.mine.Some? && Ended(s.objects[s.mine.value])
    ensures Ended(DoStep(p, s, step).objects[s.mine.value]) <==> !(s.pc.AtRunning? && step.Host?)
  {}

  // Once RUNNING has been stored it stays ended, over any rest of any run.
  lemma {:induction false} EndedStays(p: Plan, init: State, steps: seq<Step>, i: nat)
    requires Init(p, init) && Possible(p, init, steps) && i <= |steps| && Possible(p, init, steps[..i])
    requires var s := After(p, init, steps[..i]);
             WasNamed(s) && !s.pc.AtRunning? && Ended(s.objects[s.mine.value])
    ensures var s, t := After(p, init, steps[..i]), After(p, init, steps);
            WasNamed(t) && !t.pc.AtRunning? && t.mine == s.mine && Ended(t.objects[t.mine.value])
  {
    if i == |steps| {
      assert steps[..i] == steps;
    } else {
      var before := steps[..|steps| - 1];
      assert before[..i] == steps[..i];
      EndedStays(p, init, before, i);
      RunKeepsInv(p, init, before);
      EndedStaysOn(p, After(p, init, before), steps[|steps| - 1]);
    }
  }

  lemma EndedStaysOn(p: Plan, s: State, step: Step)
    requires Inv(p, s) && CanStep(p, s, step) && WasNamed(s) && !s.pc.AtRunning? && Ended(s.objects[s.mine.value])
    ensures var t := DoStep(p, s, step);
            WasNamed(t) && !t.pc.AtRunning? && t.mine == s.mine && Ended(t.objects[t.mine.value])
  {
    NamedIsNotRewritten(p, s, step);
    EndedStaysIff(p, s, step);
  }

  // Which status each place of the program leaves, as long as the core stores none.
  predicate Tells(pc: Pc, status: Status, faulted: bool) {
    match pc
    case Cycling => status == Running && !faulted
    case AtShutdown(Configured) => status == if faulted then Faulted else Running
    case AtRemove(Configured) | Gone(true) => status == Shutdown
    case AtRemove(Measuring) | Gone(false) => (status == Starting || status == Shutdown) && !faulted
    case _ => status == Starting && !faulted
  }

  // Until the core stores one itself, the state a core reads is STARTING before
  // RUNNING is stored, RUNNING while it cycles, FAULTED from a fault until the
  // region is closed, and SHUTDOWN from then on.
  lemma {:induction false} StatusTells(p: Plan, init: State, steps: seq<Step>)
    requires Init(p, init) && Possible(p, init, steps) && forall k :: 0 <= k < |steps| ==> !steps[k].CoreEnds?
    ensures var s := After(p, init, steps);
            if s.mine.Some? then s.mine.value < |s.objects| && Tells(s.pc, s.objects[s.mine.value].status, Fault in steps)
            else Fault !in steps
  {
    if steps == [] {
    } else {
      var before := steps[..|steps| - 1];
      StatusTells(p, init, before);
      RunKeepsInv(p, init, before);
      assert steps == before + [steps[|steps| - 1]];
      StepTells(p, After(p, init, before), steps[|steps| - 1], Fault in before);
    }
  }

  // The status this run's object has, if there is one, is what its place tells.
  ghost predicate IsTold(s: State, faulted: bool) {
    if s.mine.Some? then s.mine.value < |s.objects| && Tells(s.pc, s.objects[s.mine.value].status, faulted)
    else !faulted
  }

  lemma MakingTells(p: Plan, s: State, ok: bool, worst: nat, faulted: bool)
    requires Inv(p, s) && CanHost(p, s, worst) && IsTold(s, faulted)
    requires s.pc.AtSize? || s.pc.AtMap? || s.pc.AtHeader? || s.pc.AtBlock? || s.pc.AtStarting? || s.pc.AtTable?
    ensures IsTold(DoHost(p, s, ok, worst), faulted)
  {}

  lemma HostTells(p: Plan, s: State, ok: bool, worst: nat, faulted: bool)
    requires Inv(p, s) && CanHost(p, s, worst) && IsTold(s, faulted)
    ensures IsTold(DoHost(p, s, ok, worst), faulted)
  {
    if s.pc.AtSize? || s.pc.AtMap? || s.pc.AtHeader? || s.pc.AtBlock? || s.pc.AtStarting? || s.pc.AtTable? {
      MakingTells(p, s, ok, worst, faulted);
    }
  }

  lemma StepTells(p: Plan, s: State, step: Step, faulted: bool)
    requires Inv(p, s) && CanStep(p, s, step) && !step.CoreEnds? && IsTold(s, faulted)
    ensures IsTold(DoStep(p, s, step), faulted || step.Fault?)
  {
    if step.Host? {
      HostTells(p, s, step.ok, step.worst, faulted);
    }
  }

  lemma Extend(p: Plan, init: State, steps: seq<Step>, step: Step) returns (more: seq<Step>)
    requires Possible(p, init, steps) && CanStep(p, After(p, init, steps), step)
    ensures Possible(p, init, more) && After(p, init, more) == DoStep(p, After(p, init, steps), step)
  {
    more := steps + [step];
    assert more[..|steps|] == steps;
  }

  // From any run that has just taken the name: a core attaches, ends the
  // channel, and is told that it is running.
  lemma EndIsOverwritten(p: Plan, init: State, steps: seq<Step>, status: Status)
    returns (ended: seq<Step>, more: seq<Step>)
    requires Init(p, init) && Possible(p, init, steps) && After(p, init, steps).pc == AtRunning
    requires status.Shutdown? || status.Faulted?
    ensures Possible(p, init, ended) && Possible(p, init, more)
    ensures var s, t := After(p, init, ended), After(p, init, more);
            && s.mine.Some? && t.mine == s.mine && s.core == s.mine
            && s.mine.value < |s.objects| && s.mine.value < |t.objects|
            && s.objects[s.mine.value].status == status && t.objects[t.mine.value].status == Running
  {
    RunKeepsInv(p, init, steps);
    ended := Extend(p, init, steps, Attach);
    ended := Extend(p, init, ended, CoreEnds(status));
    more := Extend(p, init, ended, Host(true, 1));
  }

  // The smallest plan, and the program's places when everything works.
  function OneSignal(d: Descriptor): Plan {
    Plan(Header(1, 0), [d], [])
  }

  const PLACES: seq<Pc> :=
    [AtUnlink, AtOpen, AtSize, AtMap, AtHeader, AtBlock, AtStarting, AtTable(0), AtMeasure, AtName, AtRunning]

  lemma HostMoves(d: Descriptor, s: State, made: nat)
    requires Inv(OneSignal(d), s) && made < 10 && s.pc == PLACES[made] && (s.pc.AtOpen? ==> Measuring !in s.names)
    ensures CanHost(OneSignal(d), s, 1)
    ensures var t := DoHost(OneSignal(d), s, true, 1);
            t.pc == PLACES[made + 1] && (t.pc.AtOpen? ==> Measuring !in t.names) && Inv(OneSignal(d), t)
  {
    HostKeepsInv(OneSignal(d), s, true, 1);
  }

  // Such a run there is.
  lemma NameIsTaken(d: Descriptor, made: nat) returns (steps: seq<Step>)
    requires made <= 10
    ensures var p, init := OneSignal(d), State(map[], [], AtUnlink, None, None);
            && Init(p, init) && Possible(p, init, steps) && Inv(p, After(p, init, steps))
            && After(p, init, steps).pc == PLACES[made]
            && (made == 1 ==> Measuring !in After(p, init, steps).names)
  {
    var p, init := OneSignal(d), State(map[], [], AtUnlink, None, None);
    if made == 0 {
      steps := [];
    } else {
      var before := NameIsTaken(d, made - 1);
      var s := After(p, init, before);
      HostMoves(d, s, made - 1);
      steps := Extend(p, init, before, Host(true, 1));
    }
  }
}
