/**
 How far the last report of the log can fall short (`host/main.c`). Not at all
 by tail loads that return the newest store; by as many lines as you like when
 they return an old one, which an acquire load may.
 */
module LogRingStale {
  import opened LogRing

  const SHORT: string := "\n"

  lemma Extend(steps: seq<Step>, step: Step)
    requires Possible(steps) && Enabled(After(steps), step)
    ensures Possible(steps + [step]) && After(steps + [step]) == Do(After(steps), step)
  {
    assert (steps + [step])[..|steps|] == steps;
  }

  // --- Current loads --------------------------------------------------------

  ghost predicate LoadsAreCurrent(steps: seq<Step>)
    requires Possible(steps)
    decreases |steps|
  {
    steps == [] ||
    (var before, step := steps[..|steps| - 1], steps[|steps| - 1];
     LoadsAreCurrent(before) && (step.LoadTail? ==> step.k == After(before).T()))
  }

  lemma CurrentLoadHidesNothing(s: State, step: Step)
    requires Shape(s) && Enabled(s, step) && s.hidden == 0 && (step.LoadTail? ==> step.k == s.T())
    ensures Do(s, step).hidden == 0
  {}

  lemma {:induction false} CurrentLoadsHideNothing(steps: seq<Step>)
    requires Possible(steps) && LoadsAreCurrent(steps)
    ensures After(steps).hidden == 0
  {
    if steps == [] {
    } else {
      var before := steps[..|steps| - 1];
      CurrentLoadsHideNothing(before);
      CurrentLoadHidesNothing(After(before), steps[|steps| - 1]);
    }
  }

  // So with one interleaving of loads and stores at most one drop goes
  // unreported, and exactly when a line was being dropped at the last look.
  lemma CurrentLoadsMissAtMostOne(steps: seq<Step>)
    requires Possible(steps) && LoadsAreCurrent(steps) && After(steps).writer.Gone?
    ensures After(steps).dropped - Reported(After(steps).stderr) == if After(steps).inFlight then 1 else 0
  {
    CurrentLoadsHideNothing(steps);
    ShutdownIsComplete(steps);
  }

  // --- An old tail ----------------------------------------------------------

  // A state without its texts.
  datatype View = View(
    producer: Producer, writer: Writer, ringed: bool, stop: bool, head: int, tail: int,
    seenTail: nat, seenHead: nat, dropped: nat, reported: nat, hidden: nat, inFlight: bool)

  function Of(s: State): View {
    View(s.producer, s.writer, s.ringed, s.stop, s.H(), s.T(),
         s.seenTail, s.seenHead, s.dropped, s.reported, s.hidden, s.inFlight)
  }

  // The state has this view, and every line the ring took was the short one.
  ghost predicate Seen(s: State, v: View) {
    Of(s) == v && forall j :: 0 <= j < |s.accepted| ==> s.accepted[j] == SHORT
  }

  ghost predicate Leads(steps: seq<Step>, v: View) {
    Possible(steps) && Seen(After(steps), v)
  }

  // A step that leads a state to this view leads the run there.
  lemma Took(before: seq<Step>, step: Step, v: View)
    requires Possible(before) && Enabled(After(before), step) && Seen(Do(After(before), step), v)
    ensures Leads(before + [step], v)
  {
    Extend(before, step);
  }

  lemma SubmitSeen(s: State, v: View)
    requires Shape(s) && Seen(s, v) && v.producer.Ready? && v.ringed
    ensures Enabled(s, Submit(SHORT)) && Seen(Do(s, Submit(SHORT)), v.(producer := GotHead(SHORT, v.head % WORD)))
  {}

  // What a load of the very first tail, the only one seen so far, leads to.
  function TailLoaded(v: View): View
    requires v.producer.GotHead?
  {
    if v.head < SLOTS then v.(producer := Copying(v.producer.line, v.producer.head, 0))
    else v.(producer := Dropping(v.producer.line), hidden := v.hidden + if v.tail > 0 then 1 else 0)
  }

  lemma LoadTailSeen(s: State, v: View)
    requires Shape(s) && Seen(s, v) && v.producer.GotHead? && v.seenTail == 0 && v.head <= SLOTS
    ensures Enabled(s, LoadTail(0)) && Seen(Do(s, LoadTail(0)), TailLoaded(v))
  {
    UsedIs(v.head, 0);
    assert s.tails[0] == 0 % WORD;
  }

  lemma CopySeen(s: State, v: View)
    requires Shape(s) && Seen(s, v) && v.producer.Copying? && v.producer.line == SHORT && v.producer.copied < 2
    ensures Enabled(s, CopyByte)
    ensures Seen(Do(s, CopyByte), v.(producer := v.producer.(copied := v.producer.copied + 1)))
  {}

  lemma StoreHeadSeen(s: State, v: View)
    requires Shape(s) && Seen(s, v) && v.producer.Copying? && v.producer.line == SHORT && v.producer.copied == 2
    ensures Enabled(s, StoreHead) && Seen(Do(s, StoreHead), v.(producer := Ready, head := v.head + 1))
  {}

  lemma CountDropSeen(s: State, v: View)
    requires Shape(s) && Seen(s, v) && v.producer.Dropping?
    ensures Enabled(s, CountDrop) && Seen(Do(s, CountDrop), v.(producer := Ready, dropped := v.dropped + 1))
  {}

  // The newline, and then the NUL after it.
  function BytePrinted(v: View): View
    requires v.writer.Printing?
  {
    v.(writer := if v.writer.at == 0 then v.writer.(at := 1) else Printed(v.writer.tail, v.writer.head))
  }

  lemma PrintByteSeen(s: State, v: View)
    requires Shape(s) && Lines(s) && Seen(s, v)
    requires v.writer.Printing? && v.writer.tail != v.writer.head && v.writer.at < 2
    ensures Enabled(s, PrintByte) && Seen(Do(s, PrintByte), BytePrinted(v))
  {
    ByteIsNext(s);
  }

  function TailStored(v: View): View
    requires v.writer.Printed?
  {
    v.(writer := Writer.Printing((v.writer.tail + 1) % WORD, v.writer.head, 0), tail := v.tail + 1)
  }

  lemma StoreTailSeen(s: State, v: View)
    requires Shape(s) && Seen(s, v) && v.writer.Printed?
    ensures Enabled(s, StoreTail) && Seen(Do(s, StoreTail), TailStored(v))
  {}

  lemma LoadHeadSeen(s: State, v: View)
    requires Shape(s) && Seen(s, v) && v.writer.Top? && v.tail == 0 && v.head == SLOTS
    ensures Enabled(s, LoadHead(SLOTS))
    ensures Seen(Do(s, LoadHead(SLOTS)), v.(seenHead := SLOTS, writer := Writer.Printing(0, SLOTS, 0)))
  {
    assert s.heads[SLOTS] == SLOTS % WORD;
  }

  lemma DrainedSeen(s: State, v: View)
    requires Shape(s) && Seen(s, v) && v.writer.Printing? && v.writer.tail == v.writer.head
    ensures Enabled(s, Drained) && Seen(Do(s, Drained), v.(writer := AtDropped(v.writer.tail)))
  {}

  lemma LookSeen(s: State, v: View)
    requires Shape(s) && Seen(s, v) && v.writer.AtDropped? && v.producer.Ready?
    ensures Enabled(s, LoadDropped)
    ensures Seen(Do(s, LoadDropped),
                 v.(writer := AtStop(v.writer.tail), reported := v.dropped, hidden := 0, inFlight := false))
  {}

  // --- The run --------------------------------------------------------------

  // The ring on, with these many short lines in it and nobody at work.
  function Filled(lines: nat): View {
    View(Ready, Top, true, false, lines, 0, 0, 0, 0, 0, 0, false)
  }

  // With so many and this much of one more in its slot.
  function Copied(lines: nat, copied: nat): View {
    Filled(lines).(producer := Copying(SHORT, lines % WORD, copied))
  }

  lemma Accept(before: seq<Step>, lines: nat) returns (steps: seq<Step>)
    requires lines < SLOTS && Leads(before, Filled(lines))
    ensures Leads(steps, Copied(lines, 0))
  {
    var v := Filled(lines).(producer := GotHead(SHORT, lines % WORD));
    SubmitSeen(After(before), Filled(lines));
    Took(before, Submit(SHORT), v);
    steps := before + [Submit(SHORT)];
    LoadTailSeen(After(steps), v);
    Took(steps, LoadTail(0), Copied(lines, 0));
    steps := steps + [LoadTail(0)];
  }

  lemma CopyText(before: seq<Step>, lines: nat) returns (steps: seq<Step>)
    requires lines < SLOTS && Leads(before, Copied(lines, 0))
    ensures Leads(steps, Copied(lines, 2))
  {
    CopySeen(After(before), Copied(lines, 0));
    Took(before, CopyByte, Copied(lines, 1));
    steps := before + [CopyByte];
    CopySeen(After(steps), Copied(lines, 1));
    Took(steps, CopyByte, Copied(lines, 2));
    steps := steps + [CopyByte];
  }

  // One short line into a ring with room.
  lemma Add(before: seq<Step>, lines: nat) returns (steps: seq<Step>)
    requires lines < SLOTS && Leads(before, Filled(lines))
    ensures Leads(steps, Filled(lines + 1))
  {
    var accepted := Accept(before, lines);
    var copied := CopyText(accepted, lines);
    StoreHeadSeen(After(copied), Copied(lines, 2));
    Took(copied, StoreHead, Filled(lines + 1));
    steps := copied + [StoreHead];
  }

  lemma TurnOn() returns (steps: seq<Step>)
    ensures Leads(steps, Filled(0))
  {
    Extend([], CreateWriter(true));
    Extend([] + [CreateWriter(true)], SetRinged);
    steps := [] + [CreateWriter(true)] + [SetRinged];
  }

  lemma Fill(lines: nat) returns (steps: seq<Step>)
    requires lines <= SLOTS
    ensures Leads(steps, Filled(lines))
  {
    if lines == 0 {
      steps := TurnOn();
    } else {
      var most := Fill(lines - 1);
      steps := Add(most, lines - 1);
    }
  }

  // The writer with so many of a full ring printed, the producer having seen none of it.
  function Emptied(printed: nat): View {
    View(Ready, Writer.Printing(printed, SLOTS, 0), true, false, SLOTS, printed, 0, SLOTS, 0, 0, 0, false)
  }

  // The same with that many and the text of one more printed.
  function AllButTail(printed: nat): View {
    Emptied(printed).(writer := Printed(printed, SLOTS))
  }

  lemma PrintText(before: seq<Step>, printed: nat) returns (steps: seq<Step>)
    requires printed < SLOTS && Leads(before, Emptied(printed))
    ensures Leads(steps, AllButTail(printed))
  {
    var v := Emptied(printed);
    PrintByteSeen(After(before), v);
    Took(before, PrintByte, BytePrinted(v));
    steps := before + [PrintByte];
    PrintByteSeen(After(steps), BytePrinted(v));
    Took(steps, PrintByte, AllButTail(printed));
    steps := steps + [PrintByte];
  }

  lemma NextTail(printed: nat)
    requires printed < SLOTS
    ensures TailStored(AllButTail(printed)) == Emptied(printed + 1)
  {}

  lemma PrintLine(before: seq<Step>, printed: nat) returns (steps: seq<Step>)
    requires printed < SLOTS && Leads(before, AllButTail(printed))
    ensures Leads(steps, Emptied(printed + 1))
  {
    StoreTailSeen(After(before), AllButTail(printed));
    NextTail(printed);
    Took(before, StoreTail, Emptied(printed + 1));
    steps := before + [StoreTail];
  }

  lemma Print(printed: nat) returns (steps: seq<Step>)
    requires printed <= SLOTS
    ensures Leads(steps, Emptied(printed))
  {
    if printed == 0 {
      steps := Fill(SLOTS);
      LoadHeadSeen(After(steps), Filled(SLOTS));
      Took(steps, LoadHead(SLOTS), Emptied(0));
      steps := steps + [LoadHead(SLOTS)];
    } else {
      steps := Print(printed - 1);
      steps := PrintText(steps, printed - 1);
      steps := PrintLine(steps, printed - 1);
    }
  }

  // All printed, the count looked at, and then this many lines dropped on the first tail.
  function Missed(lines: nat): View {
    View(Ready, AtStop(SLOTS), true, false, SLOTS, SLOTS, 0, SLOTS, lines, 0, lines, false)
  }

  lemma Look(before: seq<Step>) returns (steps: seq<Step>)
    requires Leads(before, Emptied(SLOTS))
    ensures Leads(steps, Missed(0))
  {
    var v := Emptied(SLOTS);
    DrainedSeen(After(before), v);
    v := v.(writer := AtDropped(SLOTS));
    Took(before, Drained, v);
    steps := before + [Drained];
    LookSeen(After(steps), v);
    Took(steps, LoadDropped, Missed(0));
    steps := steps + [LoadDropped];
  }

  lemma MissLine(before: seq<Step>, lines: nat) returns (steps: seq<Step>)
    requires Leads(before, Missed(lines))
    ensures Leads(steps, Missed(lines + 1))
  {
    steps := before;
    var v := Missed(lines);
    SubmitSeen(After(steps), v);
    v := v.(producer := GotHead(SHORT, SLOTS % WORD));
    Took(steps, Submit(SHORT), v);
    steps := steps + [Submit(SHORT)];
    LoadTailSeen(After(steps), v);
    v := TailLoaded(v);
    Took(steps, LoadTail(0), v);
    steps := steps + [LoadTail(0)];
    CountDropSeen(After(steps), v);
    Took(steps, CountDrop, Missed(lines + 1));
    steps := steps + [CountDrop];
  }

  lemma MissNone() returns (steps: seq<Step>)
    ensures Leads(steps, Missed(0))
  {
    var printed := Print(SLOTS);
    steps := Look(printed);
  }

  lemma Miss(lines: nat) returns (steps: seq<Step>)
    ensures Leads(steps, Missed(lines))
  {
    if lines == 0 {
      steps := MissNone();
    } else {
      var most := Miss(lines - 1);
      steps := MissLine(most, lines - 1);
    }
  }

  // For every number of lines there is a run that ends with so many drops unreported.
  lemma AnyNumberCanBeHidden(lines: nat) returns (steps: seq<Step>)
    ensures Possible(steps) && After(steps).writer.Gone?
    ensures After(steps).dropped - Reported(After(steps).stderr) == lines
  {
    steps := Miss(lines);
    Extend(steps, SetStop);
    steps := steps + [SetStop];
    Extend(steps, LoadStop);
    steps := steps + [LoadStop];
    Extend(steps, LoadHeadAgain(SLOTS));
    steps := steps + [LoadHeadAgain(SLOTS)];
    ShutdownIsComplete(steps);
  }
}
