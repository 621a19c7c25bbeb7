/**
 The cycle loop's own code (`host/main.c`): `take_answer` over the bound outputs
 and one period of `while (!stopping)`, in both modes, against the automaton in
 HostLoop. What each load of `response` returned comes in as an argument,
 because the core stores to it at any moment.
 */
module HostCycle {
  import opened Cells
  import opened HostLoop
  import opened Options
  import OnChange

  // One bound output: whether the driver writes it too, its type and its pin.
  datatype Output = Output(onChange: bool, kind: Kind, pin: OnChange.Pin<Content>)

  // `hm2_shim_cell_set` as a function of the value alone. Outside what C
  // defines it could be anything; no value there is ever taken below.
  function Put(kind: Kind): real -> Content {
    v => if Settable(kind, v) then Set(kind, v) else Word(0)
  }

  predicate CanTake(outputs: seq<Output>, values: seq<real>)
    requires |outputs| == |values|
  {
    forall i :: 0 <= i < |values| ==> Settable(outputs[i].kind, values[i])
  }

  // What an answer does to an output: one the driver does not write is set, and
  // one it writes as well only by a value that is not the last one.
  ghost predicate Taken(was: Output, value: real, now: Output)
    requires Settable(was.kind, value)
  {
    && now.onChange == was.onChange && now.kind == was.kind
    && (!was.onChange ==> now.pin == was.pin.(cell := Set(was.kind, value)))
    && (was.onChange && value == was.pin.last ==> now.pin == was.pin)
    && (was.onChange && value != was.pin.last ==>
          now.pin == OnChange.Pin(value, Set(was.kind, value), was.pin.applied + [value]))
  }

  // One output after any number of answers and of the driver's own writes, from
  // how it was bound: an ordinary one's cell holds the value of the last answer
  // taken, and one the driver writes too follows the theory of OnChange.
  ghost predicate FollowsAnswers(bound: Output, now: Output, events: seq<OnChange.Event<Content>>) {
    var taken := OnChange.Answers(events);
    && now.kind == bound.kind && now.onChange == bound.onChange
    && (now.onChange ==> now.pin == OnChange.After(Put(now.kind), bound.pin.cell, bound.pin.last, events))
    && (!now.onChange ==>
          if taken == [] then now.pin.cell == bound.pin.cell
          else Settable(now.kind, taken[|taken| - 1]) && now.pin.cell == Set(now.kind, taken[|taken| - 1]))
  }

  lemma AnswerFollows(bound: Output, was: Output, events: seq<OnChange.Event<Content>>, value: real, now: Output)
    requires FollowsAnswers(bound, was, events) && Settable(was.kind, value)
    requires Taken(was, value, now)
    ensures FollowsAnswers(bound, now, events + [OnChange.Answer(value)])
  {
    assert (events + [OnChange.Answer(value)])[..|events|] == events;
  }

  lemma DriverFollows(bound: Output, was: Output, events: seq<OnChange.Event<Content>>, content: Content)
    requires FollowsAnswers(bound, was, events) && was.onChange
    ensures FollowsAnswers(bound, was.(pin := was.pin.(cell := content)), events + [OnChange.Driver(content)])
  {
    assert (events + [OnChange.Driver(content)])[..|events|] == events;
  }

  // Over any such history the values applied to an output the driver writes too
  // are the changes of the answers taken, and `last` is the last of them.
  lemma FollowsChanges(bound: Output, now: Output, events: seq<OnChange.Event<Content>>)
    requires FollowsAnswers(bound, now, events) && now.onChange
    ensures
      var levels := [bound.pin.last] + OnChange.Answers(events);
      now.pin.applied == OnChange.Changes(levels) && now.pin.last == levels[|levels| - 1]
  {
    var put, levels := Put(now.kind), [bound.pin.last] + OnChange.Answers(events);
    OnChange.AppliedAreChanges(put, bound.pin.cell, bound.pin.last, events, levels);
    OnChange.LastIsLevel(put, bound.pin.cell, bound.pin.last, events);
  }

  // What the loads of one period return: the collect's, the begin's, and those
  // of the wait for an answer; and the output half the answer is read from.
  datatype Loads = Loads(collect: nat, begin: nat, peeks: seq<nat>, values: seq<real>)

  predicate Refused(l: Loop, begin: nat) { Behind(l.cycle, begin) }

  function Peeks(peeks: seq<nat>): (r: seq<Event>)
    ensures |r| == |peeks|
  {
    seq(|peeks|, i requires 0 <= i < |peeks| => PeekAnswer(peeks[i]))
  }

  function Take(loads: Loads): seq<Event> { [CollectAnswer(loads.collect), WriteCard] }

  function TryPublish(l: Loop, begin: nat): seq<Event> {
    [BeginCycle(begin)] + if Refused(l, begin) then [] else [PublishCycle]
  }

  // The events of one period, from its start.
  function PeriodEvents(cfg: Config, l: Loop, loads: Loads): seq<Event> {
    if !cfg.sameCycle then Take(loads) + TryPublish(l, loads.begin)
    else TryPublish(l, loads.begin) + AfterPublish(cfg, l, loads)
  }

  // With `same_cycle`, what follows the publish: the wait, unless there is
  // nothing to wait for, and the take; or nothing, if the watchdog ended it.
  function AfterPublish(cfg: Config, l: Loop, loads: Loads): seq<Event> {
    if !Refused(l, loads.begin) then Peeks(loads.peeks) + Take(loads)
    else if TryBegin(cfg, l, loads.begin).faulted then []
    else Take(loads)
  }

  // A list of events the loop can make from `l`, and where they lead.
  ghost predicate CanPlay(cfg: Config, l: Loop, events: seq<Event>)
    decreases |events|
  {
    events == [] || (Enabled(cfg, l, events[0]) && CanPlay(cfg, Apply(cfg, l, events[0]), events[1..]))
  }

  ghost function Play(cfg: Config, l: Loop, events: seq<Event>): Loop
    requires CanPlay(cfg, l, events)
    decreases |events|
  {
    if events == [] then l else Play(cfg, Apply(cfg, l, events[0]), events[1..])
  }

  lemma PlayTwo(cfg: Config, l: Loop, events: seq<Event>)
    requires CanPlay(cfg, l, events) && |events| >= 2
    ensures Enabled(cfg, l, events[0]) && Enabled(cfg, Apply(cfg, l, events[0]), events[1])
    ensures
      var l' := Apply(cfg, Apply(cfg, l, events[0]), events[1]);
      CanPlay(cfg, l', events[2..]) && Play(cfg, l, events) == Play(cfg, l', events[2..])
  {
    assert events[1..][0] == events[1] && events[1..][1..] == events[2..];
  }

  lemma {:induction false} PlayAppend(cfg: Config, l: Loop, a: seq<Event>, b: seq<Event>)
    requires CanPlay(cfg, l, a + b)
    ensures CanPlay(cfg, l, a) && CanPlay(cfg, Play(cfg, l, a), b)
    ensures Play(cfg, l, a + b) == Play(cfg, Play(cfg, l, a), b)
    decreases |a|
  {
    if a == [] {
      assert a + b == b;
    } else {
      assert (a + b)[1..] == a[1..] + b;
      PlayAppend(cfg, Apply(cfg, l, a[0]), a[1..], b);
    }
  }

  lemma {:induction false} PeeksOnlySee(cfg: Config, l: Loop, peeks: seq<nat>)
    requires CanPlay(cfg, l, Peeks(peeks))
    ensures Play(cfg, l, Peeks(peeks)) == l.(seen := Play(cfg, l, Peeks(peeks)).seen)
    decreases |peeks|
  {
    if peeks == [] {
    } else {
      assert Peeks(peeks)[1..] == Peeks(peeks[1..]);
      PeeksOnlySee(cfg, Apply(cfg, l, PeekAnswer(peeks[0])), peeks[1..]);
    }
  }

  class Host {
    const cfg: Config
    const outputs: array<Output>
    // Loop-local variables of `main`, and the region's own counters.
    var published: nat
    var attached: bool
    var unanswered: nat
    var stale: nat
    var overruns: nat
    var faulted: bool
    // The same, with the history the theorems speak of; the outputs as they were
    // bound, and what has happened to each since.
    ghost var loop: Loop
    ghost const bound: seq<Output>
    ghost var events: seq<seq<OnChange.Event<Content>>>

    ghost predicate PinsFollow()
      reads this`events, outputs
    {
      && |bound| == |events| == outputs.Length
      && forall i :: 0 <= i < outputs.Length ==> FollowsAnswers(bound[i], outputs[i], events[i])
    }

    ghost predicate Valid()
      reads this
    {
      && loop.cycle == published && loop.attached == attached && loop.unanswered == unanswered
      && loop.stale == stale && loop.overruns == overruns && loop.faulted == faulted
    }

    constructor (cfg: Config, outputs: array<Output>)
      requires forall i :: 0 <= i < outputs.Length ==> outputs[i].pin.applied == []
      ensures Valid() && loop == Start(cfg) && this.cfg == cfg && this.outputs == outputs
      ensures PinsFollow() && bound == outputs[..] && forall i :: 0 <= i < |events| ==> events[i] == []
    {
      this.cfg, this.outputs := cfg, outputs;
      published, attached, unanswered, stale, overruns, faulted := 0, false, 0, 0, 0, false;
      loop, bound := Start(cfg), outputs[..];
      events := seq(outputs.Length, i => []);
    }

    // What the driver does between two answers to a pin it writes as well.
    method DriverWrites(i: nat, content: Content)
      requires PinsFollow() && i < outputs.Length && outputs[i].onChange
      modifies this`events, outputs
      ensures PinsFollow()
      ensures outputs[..] == old(outputs[..])[i := old(outputs[i]).(pin := old(outputs[i]).pin.(cell := content))]
      ensures events == old(events)[i := old(events)[i] + [OnChange.Driver(content)]]
    {
      DriverFollows(bound[i], outputs[i], events[i], content);
      outputs[i] := outputs[i].(pin := outputs[i].pin.(cell := content));
      events := events[i := events[i] + [OnChange.Driver(content)]];
    }

    // All it does so in one turn, to any of them; those it does not write stay.
    method DriverTurn(card: seq<Option<Content>>)
      requires PinsFollow() && |card| == outputs.Length
      modifies this`events, outputs
      ensures PinsFollow() && Ordinary(outputs[..]) == Ordinary(old(outputs[..]))
      ensures forall i :: 0 <= i < outputs.Length ==>
        outputs[i] == if old(outputs[i].onChange) && card[i].Some?
                      then old(outputs[i]).(pin := old(outputs[i]).pin.(cell := card[i].value)) else old(outputs[i])
    {
      for i := 0 to outputs.Length
        invariant PinsFollow()
        invariant forall k :: 0 <= k < i ==>
          outputs[k] == if old(outputs[k].onChange) && card[k].Some?
                        then old(outputs[k]).(pin := old(outputs[k]).pin.(cell := card[k].value)) else old(outputs[k])
        invariant forall k :: i <= k < outputs.Length ==> outputs[k] == old(outputs[k])
      {
        if outputs[i].onChange && card[i].Some? {
          DriverWrites(i, card[i].value);
        }
      }
    }

    // The history after the answer that made `was` what the outputs are now.
    ghost method NoteAnswer(was: seq<Output>, values: seq<real>)
      requires |was| == |values| == outputs.Length == |bound| == |events|
      requires forall i :: 0 <= i < outputs.Length ==>
        Settable(was[i].kind, values[i]) && Taken(was[i], values[i], outputs[i])
        && FollowsAnswers(bound[i], was[i], events[i])
      modifies this`events
      ensures PinsFollow()
      ensures forall i :: 0 <= i < outputs.Length ==> events[i] == old(events[i]) + [OnChange.Answer(values[i])]
    {
      ghost var before := events;
      forall i | 0 <= i < outputs.Length
        ensures FollowsAnswers(bound[i], outputs[i], before[i] + [OnChange.Answer(values[i])])
      {
        AnswerFollows(bound[i], was[i], before[i], values[i], outputs[i]);
      }
      events := seq(|before|, i requires 0 <= i < |before| == |values| => before[i] + [OnChange.Answer(values[i])]);
    }

    // `take_answer`: the answer's values into the pins, each by its own rule.
    method TakeAnswer(response: nat, values: seq<real>)
      requires Valid() && PinsFollow() && |values| == outputs.Length
      requires response > 0 ==> CanTake(outputs[..], values)
      requires Enabled(cfg, loop, CollectAnswer(response))
      modifies this`attached, this`stale, this`loop, this`events, outputs
      ensures Valid() && loop == Apply(cfg, old(loop), CollectAnswer(response))
      ensures PinsFollow()
      ensures response > 0 ==> forall i :: 0 <= i < outputs.Length ==>
        Taken(old(outputs[i]), values[i], outputs[i]) && events[i] == old(events[i]) + [OnChange.Answer(values[i])]
      ensures response == 0 ==> outputs[..] == old(outputs[..]) && events == old(events)
    {
      loop := Apply(cfg, loop, CollectAnswer(response));
      if response == 0 {
        return;
      }
      for i := 0 to outputs.Length
        modifies outputs
        invariant forall k :: 0 <= k < i ==> Taken(old(outputs[k]), values[k], outputs[k])
        invariant forall k :: i <= k < outputs.Length ==> outputs[k] == old(outputs[k])
      {
        var o := outputs[i];
        if o.onChange {
          if values[i] != o.pin.last {
            outputs[i] := Output(true, o.kind, OnChange.Pin(values[i], Set(o.kind, values[i]), o.pin.applied + [values[i]]));
          }
        } else {
          outputs[i] := Output(false, o.kind, o.pin.(cell := Set(o.kind, values[i])));
        }
      }
      NoteAnswer(old(outputs[..]), values);
      if response != published {
        stale := stale + 1;
      }
      if !attached {
        attached := true;
      }
    }

    // The wait's loads: the loop sees them and does nothing else.
    ghost method WaitLoads(peeks: seq<nat>, rest: seq<Event>)
      requires Valid() && CanPlay(cfg, loop, Peeks(peeks) + rest)
      modifies this`loop
      ensures Valid() && CanPlay(cfg, old(loop), Peeks(peeks)) && CanPlay(cfg, loop, rest)
      ensures loop == Play(cfg, old(loop), Peeks(peeks))
      ensures Play(cfg, loop, rest) == Play(cfg, old(loop), Peeks(peeks) + rest)
      ensures loop.phase == old(loop).phase && loop.cycle == old(loop).cycle
      ensures loop.faulted == old(loop).faulted
    {
      PlayAppend(cfg, loop, Peeks(peeks), rest);
      PeeksOnlySee(cfg, loop, peeks);
      loop := Play(cfg, loop, Peeks(peeks));
    }

    method TakeAndWrite(loads: Loads)
      requires Valid() && PinsFollow() && |loads.values| == outputs.Length
      requires loads.collect > 0 ==> CanTake(outputs[..], loads.values)
      requires CanPlay(cfg, loop, Take(loads))
      modifies this`attached, this`stale, this`loop, this`events, outputs
      ensures Valid() && CanPlay(cfg, old(loop), Take(loads))
      ensures loop == Play(cfg, old(loop), Take(loads))
      ensures loop.phase == AtBegin && loop.cycle == old(loop).cycle && faulted == old(faulted)
      ensures PinsFollow()
      ensures loads.collect > 0 ==> forall i :: 0 <= i < outputs.Length ==>
        Taken(old(outputs[i]), loads.values[i], outputs[i])
        && events[i] == old(events[i]) + [OnChange.Answer(loads.values[i])]
      ensures loads.collect == 0 ==> outputs[..] == old(outputs[..]) && events == old(events)
    {
      PlayTwo(cfg, loop, Take(loads));
      TakeAnswer(loads.collect, loads.values);
      loop := Apply(cfg, loop, WriteCard);
    }

    // `hm2_region_begin`, and the publish or the watchdog after it. Cycle 0 is
    // a refusal.
    method BeginAndPublish(begin: nat) returns (cycle: nat)
      requires Valid() && CanPlay(cfg, loop, TryPublish(loop, begin)) && !faulted
      modifies this`loop, this`overruns, this`unanswered, this`faulted, this`published
      ensures Valid() && CanPlay(cfg, old(loop), TryPublish(old(loop), begin))
      ensures loop == Play(cfg, old(loop), TryPublish(old(loop), begin))
      ensures cycle == 0 <==> Refused(old(loop), begin)
      ensures cycle != 0 ==> cycle == published == loop.cycle && unanswered == 0
      ensures faulted == TryBegin(cfg, old(loop), begin).faulted
      ensures !faulted ==> loop.phase == AtCollect
    {
      ghost var start := loop;
      loop := Apply(cfg, loop, BeginCycle(begin));
      cycle := published + 1;
      if cycle >= 2 && begin + 1 < cycle {
        overruns := overruns + 1;
        if attached {
          unanswered := unanswered + 1;
        }
        if cfg.watchdog > 0 && unanswered >= cfg.watchdog {
          faulted := true;
        }
        return 0;
      }
      PlayTwo(cfg, start, TryPublish(start, begin));
      unanswered := 0;
      loop := Apply(cfg, loop, PublishCycle);
      published := cycle;
    }

    // One turn of the loop. False when the watchdog ended it.
    method Period(loads: Loads) returns (running: bool)
      requires Valid() && PinsFollow() && loop.phase == PeriodStart(cfg) && !faulted
      requires |loads.values| == outputs.Length && (loads.collect > 0 ==> CanTake(outputs[..], loads.values))
      requires CanPlay(cfg, loop, PeriodEvents(cfg, loop, loads))
      modifies this, outputs
      ensures Valid() && CanPlay(cfg, old(loop), PeriodEvents(cfg, old(loop), loads))
      ensures loop == Play(cfg, old(loop), PeriodEvents(cfg, old(loop), loads))
      ensures running == !faulted && (running ==> loop.phase == PeriodStart(cfg))
      ensures PinsFollow()
      ensures loads.collect > 0 && (running || !cfg.sameCycle) ==> forall i :: 0 <= i < outputs.Length ==>
        Taken(old(outputs[i]), loads.values[i], outputs[i])
        && events[i] == old(events[i]) + [OnChange.Answer(loads.values[i])]
      ensures !(loads.collect > 0 && (running || !cfg.sameCycle)) ==>
        outputs[..] == old(outputs[..]) && events == old(events)
    {
      ghost var start := loop;
      if !cfg.sameCycle {
        PlayAppend(cfg, start, Take(loads), TryPublish(start, loads.begin));
        TakeAndWrite(loads);
      } else {
        PlayAppend(cfg, start, TryPublish(start, loads.begin), AfterPublish(cfg, start, loads));
      }
      var cycle := BeginAndPublish(loads.begin);
      if faulted {
        return false;
      }
      if cfg.sameCycle {
        if cycle != 0 {
          WaitLoads(loads.peeks, Take(loads));
        }
        TakeAndWrite(loads);
      }
      return true;
    }

    // One turn, in the run it belongs to, and what the driver does to its own pins.
    method Turn(loads: Loads, card: seq<Option<Content>>, ghost turns: seq<Loads>, ghost before: seq<Event>)
      returns (took: bool, ghost run: seq<Event>)
      requires Valid() && PinsFollow() && loop.phase == PeriodStart(cfg) && !faulted
      requires Legal(cfg, before) && loop == Run(cfg, before)
      requires turns != [] && loads == turns[0] && CanTurn(cfg, loop, turns) && Fitting(bound, loads)
      requires |card| == outputs.Length
      modifies this, outputs
      ensures Valid() && PinsFollow() && (!faulted ==> loop.phase == PeriodStart(cfg) && CanTurn(cfg, loop, turns[1..]))
      ensures before <= run && Legal(cfg, run) && loop == Run(cfg, run)
      ensures took <==> loads.collect > 0 && (!faulted || !cfg.sameCycle)
      ensures if took then Holding(Ordinary(outputs[..]), loads.values)
              else Ordinary(outputs[..]) == Ordinary(old(outputs[..]))
    {
      ghost var more := PeriodEvents(cfg, loop, loads);
      PeriodsAreRuns(cfg, before, more);
      FittingStays(bound, outputs[..], events, loads);
      var running := Period(loads);
      run, took := before + more, loads.collect > 0 && (running || !cfg.sameCycle);
      if took {
        AnswerIsHeld(bound, outputs[..], events, loads.values);
      }
      DriverTurn(card);
    }

    // Turn after turn until the watchdog ends it, whatever the driver writes to
    // the pins it writes too: what the code does is a run of the automaton, and
    // each other output holds the value of the last answer taken, that of turn
    // `taken`, or what it held at first.
    method Turns(turns: seq<Loads>, card: seq<seq<Option<Content>>>, ghost before: seq<Event>)
      returns (done: nat, taken: Option<nat>, ghost run: seq<Event>)
      requires Valid() && PinsFollow() && loop.phase == PeriodStart(cfg) && !faulted
      requires Legal(cfg, before) && loop == Run(cfg, before)
      requires CanTurn(cfg, loop, turns) && forall k :: 0 <= k < |turns| ==> Fitting(bound, turns[k])
      requires |card| == |turns| && forall k :: 0 <= k < |card| ==> |card[k]| == outputs.Length
      modifies this, outputs
      ensures Valid() && PinsFollow() && done <= |turns| && (done < |turns| ==> faulted)
      ensures before <= run && Legal(cfg, run) && loop == Run(cfg, run)
      ensures taken.Some? ==> taken.value < done && turns[taken.value].collect > 0
      ensures forall k :: 0 <= k < done && turns[k].collect > 0 && (taken.Some? ==> k > taken.value) ==>
        cfg.sameCycle && faulted && k == done - 1
      ensures if taken.Some? then Holding(Ordinary(outputs[..]), turns[taken.value].values)
              else Ordinary(outputs[..]) == Ordinary(old(outputs[..]))
    {
      done, taken, run := 0, None, before;
      ghost var was := Ordinary(outputs[..]);
      while done < |turns| && !faulted
        invariant Valid() && PinsFollow() && done <= |turns|
        invariant !faulted ==> loop.phase == PeriodStart(cfg) && CanTurn(cfg, loop, turns[done..])
        invariant before <= run && Legal(cfg, run) && loop == Run(cfg, run)
        invariant taken.Some? ==> taken.value < done && turns[taken.value].collect > 0
        invariant forall k :: 0 <= k < done && turns[k].collect > 0 && (taken.Some? ==> k > taken.value) ==>
          cfg.sameCycle && faulted && k == done - 1
        invariant if taken.Some? then Holding(Ordinary(outputs[..]), turns[taken.value].values)
                  else Ordinary(outputs[..]) == was
      {
        assert turns[done..][1..] == turns[done + 1..];
        var took;
        took, run := Turn(turns[done], card[done], turns[done..], run);
        if took {
          taken := Some(done);
        }
        done := done + 1;
      }
    }
  }

  // The outputs the driver does not write, each at its place.
  function Ordinary(outputs: seq<Output>): (r: seq<Option<Output>>)
    ensures |r| == |outputs|
    ensures forall i :: 0 <= i < |r| ==> r[i] == if outputs[i].onChange then None else Some(outputs[i])
  {
    seq(|outputs|, i requires 0 <= i < |outputs| => if outputs[i].onChange then None else Some(outputs[i]))
  }

  // Each of them holds its value of `values`.
  ghost predicate Holding(ordinary: seq<Option<Output>>, values: seq<real>) {
    |ordinary| == |values| && forall i :: 0 <= i < |ordinary| && ordinary[i].Some? ==>
      Settable(ordinary[i].value.kind, values[i]) && ordinary[i].value.pin.cell == Set(ordinary[i].value.kind, values[i])
  }

  lemma AnswerIsHeld(bound: seq<Output>, now: seq<Output>, events: seq<seq<OnChange.Event<Content>>>, values: seq<real>)
    requires |bound| == |now| == |events| == |values|
    requires forall i :: 0 <= i < |now| ==> FollowsAnswers(bound[i], now[i], events[i])
    requires forall i :: 0 <= i < |now| ==> events[i] != [] && events[i][|events[i]| - 1] == OnChange.Answer(values[i])
    ensures Holding(Ordinary(now), values)
  {}

  lemma FittingStays(bound: seq<Output>, now: seq<Output>, events: seq<seq<OnChange.Event<Content>>>, loads: Loads)
    requires |bound| == |now| == |events| && Fitting(bound, loads)
    requires forall i :: 0 <= i < |now| ==> FollowsAnswers(bound[i], now[i], events[i])
    ensures Fitting(now, loads)
  {}

  // Values the outputs' types can hold, one for each.
  predicate Fitting(outputs: seq<Output>, loads: Loads) {
    |loads.values| == |outputs| && (loads.collect > 0 ==> CanTake(outputs, loads.values))
  }

  // Loads the turns of the loop can make, up to the one that ends it.
  ghost predicate CanTurn(cfg: Config, l: Loop, turns: seq<Loads>)
    decreases |turns|
  {
    turns == [] ||
    (var events := PeriodEvents(cfg, l, turns[0]);
     CanPlay(cfg, l, events) &&
     (Play(cfg, l, events).faulted || CanTurn(cfg, Play(cfg, l, events), turns[1..])))
  }

  // From wherever a run leads at the start of a period, the loop has a turn to
  // make: no load is asked to return what the channel could not.
  lemma ATurnIsPossible(cfg: Config, l: Loop, values: seq<real>)
    requires Inv(cfg, l) && l.phase == PeriodStart(cfg)
    ensures CanTurn(cfg, l, [Loads(l.seen, l.seen, [], values)])
  {
    var loads := Loads(l.seen, l.seen, [], values);
    if cfg.sameCycle {
      var l' := Tried(cfg, l, l.seen);
      if !l'.faulted {
        TakeIsPossible(cfg, l', loads, []);
        assert AfterPublish(cfg, l, loads) == Take(loads) + [];
      }
      TryIsPossible(cfg, l, l.seen, AfterPublish(cfg, l, loads));
    } else {
      TryIsPossible(cfg, Wrote(l, l.seen), l.seen, []);
      assert TryPublish(l, l.seen) == TryPublish(Wrote(l, l.seen), l.seen) + [];
      TakeIsPossible(cfg, l, loads, TryPublish(l, l.seen));
    }
  }

  // The loop after a collect that returned `response`, and the write after it.
  function Wrote(l: Loop, response: nat): Loop {
    TakeAnswer(l, response).(phase := AtBegin, writes := l.writes + [response])
  }

  // The loop after the begin, and the publish if it was not refused.
  function Tried(cfg: Config, l: Loop, begin: nat): Loop {
    var l' := TryBegin(cfg, l, begin);
    if Refused(l, begin) then l' else l'.(phase := AtCollect, cycle := l.cycle + 1)
  }

  lemma TryIsPossible(cfg: Config, l: Loop, begin: nat, rest: seq<Event>)
    requires l.phase == AtBegin && CanLoad(l, begin) && CanPlay(cfg, Tried(cfg, l, begin), rest)
    ensures CanPlay(cfg, l, TryPublish(l, begin) + rest)
  {
    if Refused(l, begin) {
      CanStep(cfg, l, BeginCycle(begin), rest);
      assert TryPublish(l, begin) + rest == [BeginCycle(begin)] + rest;
    } else {
      CanStep(cfg, TryBegin(cfg, l, begin), PublishCycle, rest);
      CanStep(cfg, l, BeginCycle(begin), [PublishCycle] + rest);
      assert TryPublish(l, begin) + rest == [BeginCycle(begin)] + ([PublishCycle] + rest);
    }
  }

  lemma CanStep(cfg: Config, l: Loop, e: Event, rest: seq<Event>)
    requires Enabled(cfg, l, e) && CanPlay(cfg, Apply(cfg, l, e), rest)
    ensures CanPlay(cfg, l, [e] + rest)
  {
    assert ([e] + rest)[1..] == rest;
  }

  lemma TakeIsPossible(cfg: Config, l: Loop, loads: Loads, rest: seq<Event>)
    requires l.phase == AtCollect && CanLoad(l, loads.collect)
    requires CanPlay(cfg, Wrote(l, loads.collect), rest)
    ensures CanPlay(cfg, l, Take(loads) + rest)
  {
    CanStep(cfg, TakeAnswer(l, loads.collect), WriteCard, rest);
    CanStep(cfg, l, CollectAnswer(loads.collect), [WriteCard] + rest);
    assert Take(loads) + rest == [CollectAnswer(loads.collect)] + ([WriteCard] + rest);
  }

  // Whatever a run led to, one more period is more of the same run.
  lemma {:induction false} PeriodsAreRuns(cfg: Config, events: seq<Event>, more: seq<Event>)
    requires Legal(cfg, events) && CanPlay(cfg, Run(cfg, events), more)
    ensures Legal(cfg, events + more)
    ensures Run(cfg, events + more) == Play(cfg, Run(cfg, events), more)
    decreases |more|
  {
    if more == [] {
      assert events + more == events;
    } else {
      Extend(cfg, events, more[0]);
      PeriodsAreRuns(cfg, events + [more[0]], more[1..]);
      assert events + [more[0]] + more[1..] == events + more;
    }
  }
}
