/**
 Waiting for the core's answer (`hm2_region_wait_answer`): the arithmetic on
 `timespec`, the wait loop over any clock that advances, and the futex protocol
 with the core, step by step, under release/acquire.
 */
module AnswerWait {
  import opened Words

  const SECOND: int := 1_000_000_000

  // --- Times ----------------------------------------------------------------

  datatype Time = Time(sec: int, nsec: int)
  {
    function Ns(): int { sec * SECOND + nsec }

    predicate Normal() { 0 <= nsec < SECOND }
  }

  // C's division and remainder: the quotient is cut toward zero.
  function Quotient(a: int): int { if a >= 0 then a / SECOND else -((-a) / SECOND) }

  function Remainder(a: int): int { a - Quotient(a) * SECOND }

  class Timespec {
    var time: Time

    constructor (time: Time)
      ensures this.time == time
    {
      this.time := time;
    }

    // `add_ns`. The time moves by exactly `ns`; the result is normal if and
    // only if the remainder does not take the nanoseconds below zero, which it
    // cannot for the durations the loop adds.
    method AddNs(ns: int)
      requires time.Normal()
      modifies this
      ensures time.Ns() == old(time).Ns() + ns
      ensures time.Normal() <==> old(time).nsec + Remainder(ns) >= 0
      ensures ns >= 0 ==> time.Normal()
    {
      time := time.(nsec := time.nsec + Remainder(ns));
      time := time.(sec := time.sec + Quotient(ns));
      if time.nsec >= SECOND {
        time := Time(time.sec + 1, time.nsec - SECOND);
      }
    }
  }

  // --- The loop -------------------------------------------------------------

  // Round `i` of the loop goes on: not answered yet, and time left.
  predicate GoesOn(response: nat -> nat, now: nat -> Time, cycle: nat, deadline: Time, i: nat) {
    response(i) < cycle && now(i).Ns() < deadline.Ns()
  }

  // `response(i)` and `now(i)` are what round `i` loads. Whatever wakes the
  // sleep and however often, the loop ends if some round would find the answer
  // or no time left, as one must when the clock goes on: with 1 at the first
  // that finds the answer, with 0 at the first that finds none and no time left.
  method WaitAnswer(response: nat -> nat, now: nat -> Time, cycle: nat, deadline: Time, ghost enough: nat)
    returns (answered: bool, rounds: nat)
    requires !GoesOn(response, now, cycle, deadline, enough)
    ensures forall i: nat :: i < rounds ==> GoesOn(response, now, cycle, deadline, i)
    ensures answered <==> response(rounds) >= cycle
    ensures !answered ==> now(rounds).Ns() >= deadline.Ns()
    ensures rounds <= enough
  {
    rounds := 0;
    while true
      invariant forall i: nat :: i < rounds ==> GoesOn(response, now, cycle, deadline, i)
      invariant rounds <= enough
      decreases enough - rounds
    {
      if response(rounds) >= cycle {
        return true, rounds;
      }
      var t := now(rounds);
      var left := (deadline.sec - t.sec) * SECOND + (deadline.nsec - t.nsec);
      if left <= 0 {
        return false, rounds;
      }
      var timeout := Time(Quotient(left), Remainder(left));
      assert timeout.Normal() && timeout.Ns() == left;
      // FUTEX_WAIT for at most `timeout`; then round `rounds + 1`.
      assert GoesOn(response, now, cycle, deadline, rounds);
      rounds := rounds + 1;
    }
  }

  // A clock that never goes back and moves at least every so many rounds is
  // enough, though it may read the same time for all the rounds between.
  lemma {:induction false} ClockPasses(now: nat -> Time, deadline: Time, stride: nat, moved: nat)
    requires stride > 0
    requires forall i: nat :: now(i).Ns() < now(i + stride).Ns()
    ensures now(stride * moved).Ns() >= now(0).Ns() + moved
  {
    if moved == 0 {
    } else {
      ClockPasses(now, deadline, stride, moved - 1);
      assert stride * moved == stride * (moved - 1) + stride;
    }
  }

  // So there is a last round, whatever the core does.
  lemma ClockEndsWait(response: nat -> nat, now: nat -> Time, cycle: nat, deadline: Time, stride: nat)
    returns (enough: nat)
    requires stride > 0
    requires forall i: nat :: now(i).Ns() < now(i + stride).Ns()
    ensures !GoesOn(response, now, cycle, deadline, enough)
  {
    var left := deadline.Ns() - now(0).Ns();
    var moved: nat := if left > 0 then left else 0;
    ClockPasses(now, deadline, stride, moved);
    enough := stride * moved;
  }

  // --- The protocol ---------------------------------------------------------

  // This process, from the publish of a cycle to the end of its wait. `seen`
  // is how many bumps of the word the load of `expected` had seen.
  datatype HostAt =
    | Filling
    | Published
    | AtWord
    | AtResponse(expected: nat)
    | AtClock(expected: nat)
    | AtWait(expected: nat)
    | Asleep
    | Returned(answered: bool)

  // The core after an answer: it bumps the word, then wakes it.
  datatype CoreAt = Idle | Answered | Bumped

  // `bumps` has, for each bump of the futex word, the newest answer its release
  // carries: a bump passes on what the one before it carried. The host knows of
  // `wordSeen` bumps and of answer `answerSeen`; its own last bump made it
  // `ownBump` of them.
  datatype State = State(
    cycle: nat, response: nat, bumps: seq<nat>, time: int, deadline: int,
    host: HostAt, core: CoreAt, ownBump: nat, wordSeen: nat, answerSeen: nat)
  {
    function Word(): nat { |bumps| % UINT32 }

    function Carried(k: nat): nat
      requires k <= |bumps|
    {
      if k == 0 then 0 else bumps[k - 1]
    }
  }

  datatype Step =
    | Publish
    | HostBump(deadline: int)
    | LoadWord(bump: nat)
    | LoadResponse(value: nat)
    | LoadClock
    | Wait
    | WakeUp
    | NextCycle
    | Respond
    | CoreBump
    | CoreWake
    | Tick(time: int)

  const START := State(0, 0, [], 0, 0, Filling, Idle, 0, 0, 0)

  predicate Enabled(s: State, step: Step) {
    match step
    case Publish => s.host.Filling? && s.response >= s.cycle
    case HostBump(_) => s.host.Published?
    case LoadWord(k) => s.host.AtWord? && s.wordSeen <= k <= |s.bumps|
    case LoadResponse(r) => s.host.AtResponse? && s.answerSeen <= r <= s.response
    case LoadClock => s.host.AtClock?
    case Wait => s.host.AtWait?
    // A timeout, a signal, or no reason at all.
    case WakeUp => s.host.Asleep?
    case NextCycle => s.host.Returned?
    case Respond => s.core.Idle? && s.response < s.cycle
    case CoreBump => s.core.Answered?
    case CoreWake => s.core.Bumped?
    case Tick(t) => s.time < t
  }

  function Max(a: nat, b: nat): nat { if a < b then b else a }

  function Do(s: State, step: Step): State
    requires Enabled(s, step)
  {
    match step
    case Publish => s.(cycle := s.cycle + 1, host := Published)
    case HostBump(d) =>
      s.(bumps := s.bumps + [s.Carried(|s.bumps|)], host := AtWord, deadline := d,
         ownBump := |s.bumps| + 1, wordSeen := |s.bumps| + 1)
    case LoadWord(k) =>
      s.(host := AtResponse(k % UINT32), wordSeen := k, answerSeen := Max(s.answerSeen, s.Carried(k)))
    case LoadResponse(r) =>
      s.(host := if r >= s.cycle then Returned(true) else AtClock(s.host.expected), answerSeen := r)
    case LoadClock =>
      s.(host := if s.time >= s.deadline then Returned(false) else AtWait(s.host.expected))
    case Wait => s.(host := if s.Word() == s.host.expected then Asleep else AtWord)
    case WakeUp => s.(host := AtWord)
    case NextCycle => s.(host := Filling)
    case Respond => s.(response := s.response + 1, core := Answered)
    case CoreBump => s.(bumps := s.bumps + [s.response], core := Bumped)
    case CoreWake => s.(core := Idle, host := if s.host.Asleep? then AtWord else s.host)
    case Tick(t) => s.(time := t)
  }

  // How many bumps the host's own may still be followed by in its wait.
  function Ahead(s: State): int {
    |s.bumps| - s.ownBump + (if s.core.Answered? then 1 else 0) + s.cycle - s.response
  }

  ghost predicate Inv(s: State) {
    && s.response <= s.cycle <= s.response + 1
    && s.answerSeen <= s.response
    && (forall k :: 0 <= k < |s.bumps| ==> s.bumps[k] <= s.response)
    && s.ownBump <= s.wordSeen <= |s.bumps|
    && s.Carried(|s.bumps|) == s.response - (if s.core.Answered? then 1 else 0)
    && (s.core.Answered? ==> s.response > 0)
    && (!s.host.Filling? && !s.host.Published? ==> Ahead(s) <= 2)
    && (s.host.AtResponse? || s.host.AtClock? || s.host.AtWait? ==>
          s.host.expected == s.wordSeen % UINT32 && s.Carried(s.wordSeen) <= s.answerSeen)
    && (s.host.AtClock? || s.host.AtWait? || s.host.Asleep? ==> s.answerSeen < s.cycle)
    && (s.host.Asleep? && s.response >= s.cycle ==> !s.core.Idle?)
    && (s.host.Returned? && s.host.answered ==> s.answerSeen == s.response == s.cycle)
    && (s.host.Returned? && !s.host.answered ==> s.time >= s.deadline)
  }

  // A word seen at most two bumps ago and equal now has not moved at all: its
  // 32 bits do not come round within one wait.
  lemma NoWrap(a: nat, b: nat)
    requires a <= b <= a + 2 && a % UINT32 == b % UINT32
    ensures a == b
  {}

  lemma WaitKept(s: State)
    requires Inv(s) && Enabled(s, Wait)
    ensures Inv(Do(s, Wait))
  {
    if s.Word() == s.host.expected {
      NoWrap(s.wordSeen, |s.bumps|);
    }
  }

  lemma HostKept(s: State, step: Step)
    requires Inv(s) && Enabled(s, step)
    requires step.Publish? || step.HostBump? || step.LoadWord? || step.LoadResponse? || step.LoadClock?
          || step.WakeUp? || step.NextCycle?
    ensures Inv(Do(s, step))
  {}

  lemma CoreKept(s: State, step: Step)
    requires Inv(s) && Enabled(s, step)
    requires step.Respond? || step.CoreBump? || step.CoreWake? || step.Tick?
    ensures Inv(Do(s, step))
  {}

  lemma InvKept(s: State, step: Step)
    requires Inv(s) && Enabled(s, step)
    ensures Inv(Do(s, step))
  {
    if step.Wait? {
      WaitKept(s);
    } else if step.Respond? || step.CoreBump? || step.CoreWake? || step.Tick? {
      CoreKept(s, step);
    } else {
      HostKept(s, step);
    }
  }

  ghost predicate Possible(steps: seq<Step>)
    decreases |steps|, 0
  {
    steps == [] ||
    (Possible(steps[..|steps| - 1]) && Enabled(After(steps[..|steps| - 1]), steps[|steps| - 1]))
  }

  ghost function After(steps: seq<Step>): (s: State)
    requires Possible(steps)
    ensures Inv(s)
    decreases |steps|, 1
  {
    if steps == [] then START
    else
      InvKept(After(steps[..|steps| - 1]), steps[|steps| - 1]);
      Do(After(steps[..|steps| - 1]), steps[|steps| - 1])
  }

  // In every run: a host asleep on an answer that is there has a wake still to
  // come; 1 is returned only with the awaited cycle answered, and 0 only with
  // the deadline passed.
  lemma NoLostWake(steps: seq<Step>)
    requires Possible(steps)
    ensures
      var s := After(steps);
      && (s.host.Asleep? && s.response >= s.cycle ==> s.core.Answered? || s.core.Bumped?)
      && (s.host == Returned(true) ==> s.response == s.cycle)
      && (s.host == Returned(false) ==> s.time >= s.deadline)
  {}

  // And that wake reaches it: the core's own next steps end the sleep, and once
  // the core is done the host cannot go to sleep again on this cycle.
  lemma WakeReaches(s: State)
    requires Inv(s) && s.response >= s.cycle
    ensures s.host.Asleep? && s.core.Answered? ==>
      Enabled(s, CoreBump) && Enabled(Do(s, CoreBump), CoreWake)
      && Do(Do(s, CoreBump), CoreWake).host == AtWord
    ensures s.host.Asleep? && s.core.Bumped? ==> Enabled(s, CoreWake) && Do(s, CoreWake).host == AtWord
    ensures s.core.Idle? && Enabled(s, Wait) ==> Do(s, Wait).host == AtWord
  {
    if s.core.Idle? && Enabled(s, Wait) {
      InvKept(s, Wait);
    }
  }
}
