/**
 The cycle loop of `main` as an automaton over the loads and stores it makes on
 the channel. Both modes run the same ring of steps -- collect, write the card,
 begin, publish, collect again -- and differ in where a period starts: before
 the collect without `same_cycle`, before the begin with it.
 */
module HostLoop {
  datatype Config = Config(sameCycle: bool, watchdog: nat)

  // What the loop does next. `AtPublish` is only reached through a begin that
  // was not refused; `Done` is the loop left, by a stop or by the watchdog.
  datatype Phase = AtCollect | AtWrite | AtBegin | AtPublish | Done

  // One collect: the answer's number, and the cycle then published.
  datatype Collected = Collected(answered: nat, cycle: nat)
  {
    // HM2_COLLECT_FRESH. A stale answer is one behind; NEVER is number 0.
    predicate Fresh() { 1 <= answered == cycle }
  }

  // `seen` is the largest value of `response` this process has loaded. `collects`
  // and `writes` record every collect, and for each call of the driver's write
  // function the number of the answer it carried (0 before the first answer).
  datatype Loop = Loop(
    phase: Phase,
    cycle: nat,
    seen: nat,
    attached: bool,
    unanswered: nat,
    stale: nat,
    overruns: nat,
    faulted: bool,
    collects: seq<Collected>,
    writes: seq<nat>)
  {
    // The last collect; before any, the starting values count as answer 0.
    function Last(): Collected {
      if collects == [] then Collected(0, 0) else collects[|collects| - 1]
    }
  }

  // Each event carries the value of `response` its load returned.
  datatype Event =
    | CollectAnswer(response: nat)
    | WriteCard
    | BeginCycle(response: nat)
    | PublishCycle
    | PeekAnswer(response: nat)
    | Stop

  // Where a period starts, and the only place the loop looks whether to stop.
  function PeriodStart(cfg: Config): Phase { if cfg.sameCycle then AtBegin else AtCollect }

  function Start(cfg: Config): Loop {
    Loop(PeriodStart(cfg), 0, 0, false, 0, 0, 0, false, [], [])
  }

  // What a load of `response` may return: not less than an earlier load did,
  // and not more than was published. The channel proves this of every run.
  predicate CanLoad(l: Loop, response: nat) { l.seen <= response <= l.cycle }

  // Whether the loop is where it makes this event.
  predicate Ready(cfg: Config, l: Loop, e: Event) {
    match e
    case CollectAnswer(_) => l.phase == AtCollect
    case WriteCard => l.phase == AtWrite
    case BeginCycle(_) => l.phase == AtBegin
    case PublishCycle => l.phase == AtPublish
    case PeekAnswer(_) => l.phase == AtCollect && cfg.sameCycle
    case Stop => l.phase == PeriodStart(cfg)
  }

  predicate Enabled(cfg: Config, l: Loop, e: Event) {
    Ready(cfg, l, e) &&
    (e.CollectAnswer? || e.BeginCycle? || e.PeekAnswer? ==> CanLoad(l, e.response))
  }

  // `take_answer`'s bookkeeping around `hm2_region_collect`.
  function TakeAnswer(l: Loop, response: nat): Loop {
    l.(phase := AtWrite,
       seen := response,
       attached := l.attached || response > 0,
       stale := if 0 < response != l.cycle then l.stale + 1 else l.stale,
       collects := l.collects + [Collected(response, l.cycle)])
  }

  // The guard of `hm2_region_begin`: the cycle before the next is not answered.
  predicate Behind(cycle: nat, response: nat) {
    var next := cycle + 1;
    next >= 2 && response + 1 < next
  }

  // `hm2_region_begin` and what the loop does with its answer: the guard, the
  // count of refusals since the core attached, and the response watchdog.
  function TryBegin(cfg: Config, l: Loop, response: nat): Loop {
    if Behind(l.cycle, response) then
      var unanswered := if l.attached then l.unanswered + 1 else l.unanswered;
      var drop := cfg.watchdog > 0 && unanswered >= cfg.watchdog;
      l.(phase := if drop then Done else AtCollect, seen := response, overruns := l.overruns + 1,
         unanswered := unanswered, faulted := drop)
    else
      l.(phase := AtPublish, seen := response, unanswered := 0)
  }

  function Apply(cfg: Config, l: Loop, e: Event): Loop
    requires Enabled(cfg, l, e)
  {
    match e
    case CollectAnswer(r) => TakeAnswer(l, r)
    case WriteCard => l.(phase := AtBegin, writes := l.writes + [l.Last().answered])
    case BeginCycle(r) => TryBegin(cfg, l, r)
    case PublishCycle => l.(phase := AtCollect, cycle := l.cycle + 1)
    case PeekAnswer(r) => l.(seen := r)
    case Stop => l.(phase := Done)
  }

  // Whether a list of events is a run from the start, and where it leads.
  ghost predicate Legal(cfg: Config, events: seq<Event>)
    decreases |events|, 0
  {
    events == [] ||
    (var before := events[..|events| - 1];
     Legal(cfg, before) && Enabled(cfg, Run(cfg, before), events[|events| - 1]))
  }

  ghost function Run(cfg: Config, events: seq<Event>): Loop
    requires Legal(cfg, events)
    decreases |events|, 1
  {
    if events == [] then Start(cfg)
    else Apply(cfg, Run(cfg, events[..|events| - 1]), events[|events| - 1])
  }

  // --- The invariant --------------------------------------------------------

  // Collect `b` may follow collect `a`: never back, at most two on, and two
  // only when `a` was behind what was published.
  ghost predicate Follows(a: Collected, b: Collected) {
    && a.answered <= b.answered <= a.answered + 2
    && (b.answered == a.answered + 2 ==> a.answered + 1 == a.cycle)
    && b.answered <= b.cycle <= b.answered + 1
  }

  ghost predicate FollowsAt(collects: seq<Collected>, i: nat)
    requires 0 < i < |collects|
  {
    Follows(collects[i - 1], collects[i])
  }

  ghost predicate CollectsFollow(collects: seq<Collected>) {
    && (collects != [] ==> Follows(Collected(0, 0), collects[0]))
    && forall i {:trigger FollowsAt(collects, i)} :: 0 < i < |collects| ==> FollowsAt(collects, i)
  }

  ghost predicate Counters(l: Loop) {
    && l.Last().answered <= l.seen <= l.cycle <= l.seen + 1
    && CollectsFollow(l.collects)
    && l.Last().answered <= l.Last().cycle <= l.Last().answered + 1
    && match l.phase
       case AtCollect =>
         if l.cycle == l.Last().cycle then l.cycle == 0 || l.Last().answered < l.cycle
         else l.cycle == l.Last().cycle + 1 && l.seen >= l.Last().cycle
       case AtPublish => l.cycle == l.Last().cycle && l.seen == l.cycle
       case Done => true
       case _ => l.cycle == l.Last().cycle
  }

  ghost predicate Watchdog(cfg: Config, l: Loop) {
    && l.attached == (l.Last().answered > 0)
    && (!l.attached ==> l.unanswered == 0)
    && (cfg.watchdog > 0 && !l.faulted ==> l.unanswered < cfg.watchdog)
    && (l.phase == AtPublish ==> l.unanswered == 0)
    && (l.phase == AtCollect && l.cycle > l.Last().cycle ==> l.unanswered == 0)
    && (l.faulted ==> l.phase == Done)
  }

  // How many of the last writes may carry the last answer at this point.
  ghost function RepeatBound(l: Loop): nat {
    var current := l.Last().answered == l.cycle;
    match l.phase
    case AtWrite => if current then 0 else l.unanswered + 1
    case AtBegin => if current then 1 else l.unanswered + 2
    case AtPublish => if current then 1 else |l.writes|
    case AtCollect => if l.seen == l.Last().answered then l.unanswered + 1 else |l.writes|
    case Done => |l.writes|
  }

  ghost predicate Repeats(l: Loop) {
    && (forall i :: 0 <= i < |l.writes| ==> l.writes[i] <= l.Last().answered)
    && (forall i :: 0 <= i < |l.writes| && l.writes[i] == l.Last().answered > 0
          ==> |l.writes| - i <= RepeatBound(l))
  }

  ghost predicate RepeatsBounded(cfg: Config, writes: seq<nat>) {
    forall i, j :: 0 <= i <= j < |writes| && writes[i] == writes[j] > 0 ==> j - i <= cfg.watchdog
  }

  ghost predicate Inv(cfg: Config, l: Loop) {
    && Counters(l)
    && Watchdog(cfg, l)
    && Repeats(l)
    && (cfg.watchdog > 0 ==> RepeatsBounded(cfg, l.writes))
  }

  lemma CollectFollows(cfg: Config, l: Loop, response: nat)
    requires Counters(l) && Enabled(cfg, l, CollectAnswer(response))
    ensures Follows(l.Last(), Collected(response, l.cycle))
  {}

  lemma CountersKept(cfg: Config, l: Loop, e: Event)
    requires Counters(l) && Enabled(cfg, l, e)
    ensures Counters(Apply(cfg, l, e))
  {
    if e.CollectAnswer? {
      CollectFollows(cfg, l, e.response);
      var collects' := l.collects + [Collected(e.response, l.cycle)];
      forall i | 0 < i < |collects'|
        ensures FollowsAt(collects', i)
      {
        if i < |l.collects| {
          assert FollowsAt(l.collects, i);
        }
      }
    }
  }

  lemma WatchdogKept(cfg: Config, l: Loop, e: Event)
    requires Counters(l) && Watchdog(cfg, l) && Enabled(cfg, l, e)
    ensures Watchdog(cfg, Apply(cfg, l, e))
  {}

  lemma RepeatsKept(cfg: Config, l: Loop, e: Event)
    requires Inv(cfg, l) && Enabled(cfg, l, e)
    ensures Repeats(Apply(cfg, l, e))
  {}

  lemma InvKept(cfg: Config, l: Loop, e: Event)
    requires Inv(cfg, l) && Enabled(cfg, l, e)
    ensures Inv(cfg, Apply(cfg, l, e))
  {
    CountersKept(cfg, l, e);
    WatchdogKept(cfg, l, e);
    RepeatsKept(cfg, l, e);
  }

  lemma {:induction false} RunInv(cfg: Config, events: seq<Event>)
    requires Legal(cfg, events)
    ensures Inv(cfg, Run(cfg, events))
  {
    if events == [] {
    } else {
      var before := events[..|events| - 1];
      RunInv(cfg, before);
      InvKept(cfg, Run(cfg, before), events[|events| - 1]);
    }
  }

  // --- Theorems over whole runs ---------------------------------------------

  // Collected numbers never go back and advance by at most two, by two only
  // right after a collect that was behind.
  lemma AnswersAdvance(cfg: Config, events: seq<Event>)
    requires Legal(cfg, events)
    ensures CollectsFollow(Run(cfg, events).collects)
  {
    RunInv(cfg, events);
  }

  // With a response watchdog of W cycles, at most W + 1 consecutive writes to
  // the card carry the same answer, in either mode.
  lemma WatchdogBound(cfg: Config, events: seq<Event>, i: nat, j: nat)
    requires Legal(cfg, events) && cfg.watchdog > 0
    requires i <= j < |Run(cfg, events).writes|
    requires Run(cfg, events).writes[i] == Run(cfg, events).writes[j] > 0
    ensures j - i + 1 <= cfg.watchdog + 1
  {
    RunInv(cfg, events);
  }

  // Once the watchdog has dropped the drives the loop takes no further step.
  lemma FaultEndsRun(cfg: Config, events: seq<Event>, k: nat)
    requires k <= |events| && Legal(cfg, events) && Legal(cfg, events[..k])
    requires Run(cfg, events[..k]).faulted
    ensures k == |events|
  {
    if k < |events| {
      LegalPrefix(cfg, events, k + 1);
      assert events[..k + 1][..k] == events[..k];
      RunInv(cfg, events[..k]);
      assert false;
    }
  }

  lemma {:induction false} LegalPrefix(cfg: Config, events: seq<Event>, k: nat)
    requires k <= |events| && Legal(cfg, events)
    ensures Legal(cfg, events[..k])
  {
    if k < |events| {
      var before := events[..|events| - 1];
      LegalPrefix(cfg, before, k);
      assert before[..k] == events[..k];
    } else {
      assert events[..k] == events;
    }
  }

  function Count(events: seq<Event>, begins: bool): nat {
    if events == [] then 0
    else
      var e := events[|events| - 1];
      Count(events[..|events| - 1], begins) + (if (if begins then e.BeginCycle? else e.WriteCard?) then 1 else 0)
  }

  function CountStale(collects: seq<Collected>): nat {
    if collects == [] then 0
    else
      var c := collects[|collects| - 1];
      CountStale(collects[..|collects| - 1]) + (if 0 < c.answered < c.cycle then 1 else 0)
  }

  // Nothing the loop counts is lost: each begin published a cycle or was an
  // overrun, each write is recorded, and `stale` is the stale collects.
  lemma {:induction false} Accounting(cfg: Config, events: seq<Event>)
    requires Legal(cfg, events)
    ensures
      var l := Run(cfg, events);
      && Count(events, true) == l.cycle + l.overruns + (if l.phase == AtPublish then 1 else 0)
      && Count(events, false) == |l.writes|
      && CountStale(l.collects) == l.stale
  {
    if events == [] {
    } else {
      var before, e := events[..|events| - 1], events[|events| - 1];
      Accounting(cfg, before);
      RunInv(cfg, before);
      if e.CollectAnswer? {
        var l := Run(cfg, before);
        assert (l.collects + [Collected(e.response, l.cycle)])[..|l.collects|] == l.collects;
      }
    }
  }

  // Without an answer there is no watchdog: however long the run, a core that
  // never answered is never counted and never faults the channel.
  lemma NeverAnsweredNeverFaults(cfg: Config, events: seq<Event>)
    requires Legal(cfg, events)
    requires forall i :: 0 <= i < |events| && events[i].CollectAnswer? ==> events[i].response == 0
    ensures !Run(cfg, events).faulted && Run(cfg, events).unanswered == 0
  {
    if events != [] {
      var before := events[..|events| - 1];
      NeverAnsweredNeverFaults(cfg, before);
      NeverAttached(cfg, before);
    }
  }

  lemma {:induction false} NeverAttached(cfg: Config, events: seq<Event>)
    requires Legal(cfg, events)
    requires forall i :: 0 <= i < |events| && events[i].CollectAnswer? ==> events[i].response == 0
    ensures !Run(cfg, events).attached
  {
    if events == [] {
    } else {
      NeverAttached(cfg, events[..|events| - 1]);
    }
  }

  // --- The bounds are reached -----------------------------------------------

  lemma Extend(cfg: Config, events: seq<Event>, e: Event)
    requires Legal(cfg, events) && Enabled(cfg, Run(cfg, events), e)
    ensures Legal(cfg, events + [e])
    ensures Run(cfg, events + [e]) == Apply(cfg, Run(cfg, events), e)
  {
    assert (events + [e])[..|events|] == events;
  }

  function Repeat(a: nat, count: nat): (r: seq<nat>)
    ensures |r| == count && forall i :: 0 <= i < count ==> r[i] == a
  {
    if count == 0 then [] else Repeat(a, count - 1) + [a]
  }

  // A core that falls silent after answer `a` was collected fresh: one more
  // publish, and then `refusals` begins that are refused.
  function SilentCore(a: nat, refusals: nat): seq<Event> {
    if refusals == 0 then [WriteCard, BeginCycle(a), PublishCycle]
    else SilentCore(a, refusals - 1) + [CollectAnswer(a), WriteCard, BeginCycle(a)]
  }

  // Where that leads from `l`, the loop right after the fresh collect.
  ghost predicate AfterSilence(cfg: Config, l: Loop, refusals: nat, l': Loop) {
    var a := l.Last().answered;
    && l'.writes == l.writes + Repeat(a, refusals + 1)
    && l'.unanswered == refusals
    && l'.faulted == (0 < refusals == cfg.watchdog)
    && (!l'.faulted ==> l'.phase == AtCollect)
    && l'.cycle == a + 1 && l'.seen == a && l'.attached
    && l'.Last().answered == a
  }

  // It is the watchdog's worst case: answer `a` is written W + 1 times, and the
  // W-th refusal faults the channel. With W zero it never does.
  lemma {:induction false} SilentCoreFaults(cfg: Config, events: seq<Event>, refusals: nat)
    requires Legal(cfg, events)
    requires Run(cfg, events).phase == AtWrite && Run(cfg, events).Last().Fresh()
    requires cfg.watchdog == 0 || refusals <= cfg.watchdog
    ensures Legal(cfg, events + SilentCore(Run(cfg, events).Last().answered, refusals))
    ensures AfterSilence(cfg, Run(cfg, events), refusals,
                         Run(cfg, events + SilentCore(Run(cfg, events).Last().answered, refusals)))
  {
    RunInv(cfg, events);
    var a := Run(cfg, events).Last().answered;
    if refusals == 0 {
      assert events + SilentCore(a, 0) == events + [WriteCard] + [BeginCycle(a)] + [PublishCycle];
      LastPublish(cfg, events);
    } else {
      SilentCoreFaults(cfg, events, refusals - 1);
      var before := events + SilentCore(a, refusals - 1);
      assert events + SilentCore(a, refusals)
          == before + [CollectAnswer(a)] + [WriteCard] + [BeginCycle(a)];
      RefusedOnce(cfg, before, Run(cfg, events), refusals);
    }
  }

  lemma LastPublish(cfg: Config, events: seq<Event>)
    requires Legal(cfg, events) && Counters(Run(cfg, events)) && Watchdog(cfg, Run(cfg, events))
    requires Run(cfg, events).phase == AtWrite && Run(cfg, events).Last().Fresh()
    ensures
      var a := Run(cfg, events).Last().answered;
      var run := events + [WriteCard] + [BeginCycle(a)] + [PublishCycle];
      Legal(cfg, run) && AfterSilence(cfg, Run(cfg, events), 0, Run(cfg, run))
  {
    var a := Run(cfg, events).Last().answered;
    Extend(cfg, events, WriteCard);
    Extend(cfg, events + [WriteCard], BeginCycle(a));
    Extend(cfg, events + [WriteCard] + [BeginCycle(a)], PublishCycle);
    assert Repeat(a, 1) == [a];
  }

  lemma RefusedOnce(cfg: Config, before: seq<Event>, l: Loop, refusals: nat)
    requires Legal(cfg, before) && 0 < refusals && (cfg.watchdog == 0 || refusals <= cfg.watchdog)
    requires l.Last().Fresh() && AfterSilence(cfg, l, refusals - 1, Run(cfg, before))
    ensures
      var run := before + [CollectAnswer(l.Last().answered)] + [WriteCard]
               + [BeginCycle(l.Last().answered)];
      Legal(cfg, run) && AfterSilence(cfg, l, refusals, Run(cfg, run))
  {
    var a := l.Last().answered;
    Extend(cfg, before, CollectAnswer(a));
    Extend(cfg, before + [CollectAnswer(a)], WriteCard);
    Extend(cfg, before + [CollectAnswer(a)] + [WriteCard], BeginCycle(a));
    assert l.writes + Repeat(a, refusals) + [a] == l.writes + Repeat(a, refusals + 1);
  }

  // A core that keeps up for `n` cycles, each answer collected fresh.
  function KeepingUp(cfg: Config, n: nat): seq<Event> {
    if n == 0 then (if cfg.sameCycle then [] else [CollectAnswer(0), WriteCard])
    else KeepingUp(cfg, n - 1) + Cycle(n, n)
  }

  // One turn of the ring from a begin to the next: cycle `n`, and answer `a` collected.
  function Cycle(n: nat, a: nat): seq<Event>
    requires n >= 1
  {
    [BeginCycle(n - 1), PublishCycle, CollectAnswer(a), WriteCard]
  }

  // Answers `from` to `to`, each collected while it is the newest cycle.
  function FreshCollects(from: nat, to: nat): (r: seq<Collected>)
    requires from <= to + 1
    ensures |r| == to + 1 - from
    ensures forall k :: 0 <= k < |r| ==> r[k] == Collected(from + k, from + k)
  {
    seq(to + 1 - from, k requires 0 <= k => Collected(from + k, from + k))
  }

  lemma FreshOneMore(collects: seq<Collected>, from: nat, to: nat)
    requires 0 < from <= to
    ensures collects + FreshCollects(from, to - 1) + [Collected(to, to)] == collects + FreshCollects(from, to)
  {}

  // Without `same_cycle` the loop collects once before it publishes.
  function FirstCollect(cfg: Config): seq<Collected> {
    if cfg.sameCycle then [] else [Collected(0, 0)]
  }

  ghost predicate AtTurn(l: Loop, n: nat, collects: seq<Collected>) {
    l.phase == AtBegin && l.cycle == n && l.seen <= n && l.collects == collects
  }

  lemma OneCycle(cfg: Config, run: seq<Event>, n: nat, a: nat, collects: seq<Collected>)
    requires n >= 1 && n - 1 <= a <= n && Legal(cfg, run) && AtTurn(Run(cfg, run), n - 1, collects)
    ensures Legal(cfg, run + Cycle(n, a))
    ensures AtTurn(Run(cfg, run + Cycle(n, a)), n, collects + [Collected(a, n)])
    ensures
      var l, l' := Run(cfg, run), Run(cfg, run + Cycle(n, a));
      l'.overruns == l.overruns && l'.stale == l.stale + if 0 < a < n then 1 else 0
  {
    var run1 := run + [BeginCycle(n - 1)];
    Extend(cfg, run, BeginCycle(n - 1));
    Extend(cfg, run1, PublishCycle);
    Extend(cfg, run1 + [PublishCycle], CollectAnswer(a));
    Extend(cfg, run1 + [PublishCycle] + [CollectAnswer(a)], WriteCard);
    assert run + Cycle(n, a) == run1 + [PublishCycle] + [CollectAnswer(a)] + [WriteCard];
  }

  lemma FirstRuns(cfg: Config)
    ensures Legal(cfg, KeepingUp(cfg, 0))
    ensures AtTurn(Run(cfg, KeepingUp(cfg, 0)), 0, FirstCollect(cfg) + FreshCollects(1, 0))
    ensures Run(cfg, KeepingUp(cfg, 0)).stale == Run(cfg, KeepingUp(cfg, 0)).overruns == 0
  {
    assert Legal(cfg, []) && FirstCollect(cfg) + FreshCollects(1, 0) == FirstCollect(cfg);
    if !cfg.sameCycle {
      Extend(cfg, [], CollectAnswer(0));
      Extend(cfg, [] + [CollectAnswer(0)], WriteCard);
      assert KeepingUp(cfg, 0) == [] + [CollectAnswer(0)] + [WriteCard];
    }
  }

  // It is collected fresh every cycle, and nothing is stale or refused.
  lemma {:induction false} KeepingUpRuns(cfg: Config, n: nat)
    ensures Legal(cfg, KeepingUp(cfg, n))
    ensures AtTurn(Run(cfg, KeepingUp(cfg, n)), n, FirstCollect(cfg) + FreshCollects(1, n))
    ensures Run(cfg, KeepingUp(cfg, n)).stale == Run(cfg, KeepingUp(cfg, n)).overruns == 0
  {
    if n == 0 {
      FirstRuns(cfg);
    } else {
      var collects := FirstCollect(cfg) + FreshCollects(1, n - 1);
      KeepingUpRuns(cfg, n - 1);
      OneCycle(cfg, KeepingUp(cfg, n - 1), n, n, collects);
      FreshOneMore(FirstCollect(cfg), 1, n);
    }
  }

  // Answer `i` comes late once: the collect after publishing it finds the one
  // before, and the next finds the one after. From then on the core keeps up.
  function LateOnce(cfg: Config, i: nat, last: nat): seq<Event>
    requires 1 <= i < last
  {
    if last == i + 1 then KeepingUp(cfg, i - 1) + Cycle(i, i - 1) + Cycle(i + 1, i + 1)
    else LateOnce(cfg, i, last - 1) + Cycle(last, last)
  }

  function LateCollects(cfg: Config, i: nat, last: nat): seq<Collected>
    requires 1 <= i < last
  {
    FirstCollect(cfg) + FreshCollects(1, i - 1) + [Collected(i - 1, i)] + FreshCollects(i + 1, last)
  }

  lemma FirstLate(cfg: Config, i: nat)
    requires 1 <= i
    ensures Legal(cfg, LateOnce(cfg, i, i + 1))
    ensures AtTurn(Run(cfg, LateOnce(cfg, i, i + 1)), i + 1, LateCollects(cfg, i, i + 1))
  {
    var run, collects := KeepingUp(cfg, i - 1), FirstCollect(cfg) + FreshCollects(1, i - 1);
    KeepingUpRuns(cfg, i - 1);
    OneCycle(cfg, run, i, i - 1, collects);
    OneCycle(cfg, run + Cycle(i, i - 1), i + 1, i + 1, collects + [Collected(i - 1, i)]);
    assert FreshCollects(i + 1, i + 1) == [Collected(i + 1, i + 1)];
  }

  lemma {:induction false} LateOnceRuns(cfg: Config, i: nat, last: nat)
    requires 1 <= i < last
    ensures Legal(cfg, LateOnce(cfg, i, last))
    ensures AtTurn(Run(cfg, LateOnce(cfg, i, last)), last, LateCollects(cfg, i, last))
  {
    if last == i + 1 {
      FirstLate(cfg, i);
    } else {
      LateOnceRuns(cfg, i, last - 1);
      OneCycle(cfg, LateOnce(cfg, i, last - 1), last, last, LateCollects(cfg, i, last - 1));
      FreshOneMore(FirstCollect(cfg) + FreshCollects(1, i - 1) + [Collected(i - 1, i)], i + 1, last);
    }
  }

  // So a step of two does happen, in both modes: any answer can be skipped, and
  // be the only one, in a run up to any later answer.
  lemma AnyAnswerCanBeSkipped(cfg: Config, i: nat, last: nat)
    requires 1 <= i < last
    ensures Legal(cfg, LateOnce(cfg, i, last))
    ensures
      var l := Run(cfg, LateOnce(cfg, i, last));
      && l.Last().answered == last
      && (forall k :: 0 <= k < |l.collects| ==> l.collects[k].answered != i)
      && forall n :: 1 <= n <= last && n != i ==> Collected(n, n) in l.collects
  {
    LateOnceRuns(cfg, i, last);
    LateSkipsOne(cfg, i, last);
  }

  lemma LateSkipsOne(cfg: Config, i: nat, last: nat)
    requires 1 <= i < last
    ensures
      var c := LateCollects(cfg, i, last);
      && c[|c| - 1].answered == last
      && (forall k :: 0 <= k < |c| ==> c[k].answered != i)
      && forall n :: 1 <= n <= last && n != i ==> Collected(n, n) in c
  {
    var c := LateCollects(cfg, i, last);
    assert c[|c| - 1] == FreshCollects(i + 1, last)[last - i - 1];
    forall n | 1 <= n <= last && n != i
      ensures Collected(n, n) in c
    {
      if n < i {
        assert FreshCollects(1, i - 1)[n - 1] in c;
      } else {
        assert FreshCollects(i + 1, last)[n - i - 1] in c;
      }
    }
  }
}
