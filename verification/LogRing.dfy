/**
 The log (`host/main.c`): lines go straight to stderr until a writer thread
 starts, through a ring of 256 slots of 512 bytes while it runs, and straight
 again once it has been joined. One thread submits, one drains; two free-running
 64-bit counters and no lock. Slots are copied and printed a byte at a time, and
 a load of the other side's counter may return any value not older than the
 last one loaded.
 */
module LogRing {
  const SLOTS: nat := 256
  const LINE: nat := 512
  const WORD: nat := 0x1_0000_0000_0000_0000
  const NUL: char := '\0'

  // A line as the ring holds it: C text that fits its slot, ended by a newline.
  predicate IsLine(l: string) {
    && 0 < |l| < LINE && l[|l| - 1] == '\n'
    && forall i :: 0 <= i < |l| ==> l[i] != NUL
  }

  // What `hm2_log` makes of its prefix and message: cut, the newline kept.
  function Compose(prefix: string, message: string): string {
    var text := (if |prefix| >= LINE - 1 then "" else prefix) + message;
    (if |text| > LINE - 2 then text[..LINE - 2] else text) + "\n"
  }

  lemma ComposedIsLine(prefix: string, message: string)
    requires NUL !in prefix && NUL !in message
    ensures IsLine(Compose(prefix, message))
    ensures |prefix| + |message| <= 510 ==> Compose(prefix, message) == prefix + message + "\n"
    // Cut after 510 characters, and a prefix that leaves no room is left out.
    ensures |prefix| <= 510 < |prefix| + |message| ==>
              Compose(prefix, message) == prefix + message[..510 - |prefix|] + "\n"
    ensures |prefix| > 510 ==> Compose(prefix, message) == message[..if |message| < 510 then |message| else 510] + "\n"
  {
    var text := (if |prefix| >= LINE - 1 then "" else prefix) + message;
    assert NUL !in text;
    if |prefix| <= 510 < |prefix| + |message| {
      assert text[..510] == prefix + message[..510 - |prefix|];
    }
  }

  // What reaches stderr: a character of a line, or the writer's own report.
  datatype Out = Text(c: char) | Drops(count: nat)

  // A line submitted, and whether it was kept or dropped.
  datatype Entry = Entry(line: string, kept: bool)

  // `hm2_log` and the calls that start and stop the ring, at each of their steps.
  datatype Producer =
    | Ready
    | Starting
    | GotHead(line: string, head: nat)
    | Copying(line: string, head: nat, copied: nat)
    | Dropping(line: string)
    | Joining

  // `log_writer`.
  datatype Writer =
    | Unborn
    | Top
    | Printing(tail: nat, head: nat, at: nat)
    | Printed(tail: nat, head: nat)
    | AtDropped(tail: nat)
    | AtStop(tail: nat)
    | AtHead(tail: nat)
    | Gone

  // `log` is every line submitted and `accepted` those the ring took.
  // `heads` and `tails` are every word stored to the counters. Since the writer last
  // looked at the count of drops: `inFlight` is whether a line was being dropped
  // just then, and `hidden` how many were dropped later on a tail not the newest.
  datatype State = State(
    ring: seq<seq<char>>,
    heads: seq<nat>,
    tails: seq<nat>,
    dropped: nat,
    ringed: bool,
    stop: bool,
    producer: Producer,
    writer: Writer,
    seenTail: nat,
    seenHead: nat,
    reported: nat,
    stderr: seq<Out>,
    log: seq<Entry>,
    accepted: seq<string>,
    hidden: nat,
    inFlight: bool)
  {
    function H(): int { |heads| - 1 }
    function T(): int { |tails| - 1 }
  }

  datatype Step =
    | Submit(line: string)
    | CreateWriter(ok: bool)
    | SetRinged
    | LoadTail(k: nat)
    | CopyByte
    | StoreHead
    | CountDrop
    | SetStop
    | Join
    | LoadHead(k: nat)
    | PrintByte
    | StoreTail
    | Drained
    | LoadDropped
    | LoadStop
    | LoadHeadAgain(k: nat)

  function Blank(): seq<seq<char>> { seq(SLOTS, _ => seq(LINE, _ => NUL)) }

  function Start(): State {
    State(Blank(), [0], [0], 0, false, false, Ready, Unborn, 0, 0, 0, [], [], [], 0, false)
  }

  // `head - tail` in `size_t`.
  function Used(head: nat, tail: nat): nat { (head - tail) % WORD }

  predicate Enabled(s: State, step: Step) {
    var p, w := s.producer, s.writer;
    match step
    case Submit(line) => p.Ready? && IsLine(line)
    case CreateWriter(_) => p.Ready? && w.Unborn? && !s.ringed && !s.stop
    case SetRinged => p.Starting?
    case LoadTail(k) => p.GotHead? && s.seenTail <= k < |s.tails|
    case CopyByte => p.Copying? && p.copied <= |p.line|
    case StoreHead => p.Copying? && p.copied == |p.line| + 1
    case CountDrop => p.Dropping?
    case SetStop => p.Ready? && s.ringed
    case Join => p.Joining? && w.Gone?
    case LoadHead(k) => w.Top? && s.seenHead <= k < |s.heads|
    case PrintByte => w.Printing? && w.tail != w.head && w.at < LINE
    case StoreTail => w.Printed?
    case Drained => w.Printing? && w.tail == w.head
    case LoadDropped => w.AtDropped?
    case LoadStop => w.AtStop?
    case LoadHeadAgain(k) => w.AtHead? && s.seenHead <= k < |s.heads|
  }

  function Texts(line: string): seq<Out> { seq(|line|, i requires 0 <= i < |line| => Text(line[i])) }

  function Do(s: State, step: Step): State
    requires Enabled(s, step) && Shape(s)
  {
    var p, w := s.producer, s.writer;
    match step
    case Submit(line) =>
      if s.ringed then s.(producer := GotHead(line, s.heads[s.H()]))
      else s.(stderr := s.stderr + Texts(line), log := s.log + [Entry(line, true)])
    case CreateWriter(ok) => if ok then s.(producer := Starting, writer := Top) else s
    case SetRinged => s.(producer := Ready, ringed := true)
    case LoadTail(k) =>
      var full := Used(p.head, s.tails[k]) >= SLOTS;
      s.(seenTail := k, hidden := s.hidden + if full && k < s.T() then 1 else 0,
         producer := if full then Dropping(p.line) else Copying(p.line, p.head, 0))
    case CopyByte =>
      var slot := s.ring[p.head % SLOTS];
      var byte := if p.copied < |p.line| then p.line[p.copied] else NUL;
      s.(ring := s.ring[p.head % SLOTS := slot[p.copied := byte]],
         producer := p.(copied := p.copied + 1))
    case StoreHead =>
      s.(heads := s.heads + [(p.head + 1) % WORD], producer := Ready,
         log := s.log + [Entry(p.line, true)], accepted := s.accepted + [p.line])
    case CountDrop =>
      s.(dropped := s.dropped + 1, producer := Ready, log := s.log + [Entry(p.line, false)])
    case SetStop => s.(stop := true, producer := Joining)
    case Join => s.(ringed := false, producer := Ready)
    case LoadHead(k) => s.(seenHead := k, writer := Printing(s.tails[s.T()], s.heads[k], 0))
    case PrintByte =>
      var c := s.ring[w.tail % SLOTS][w.at];
      if c == NUL then s.(writer := Printed(w.tail, w.head))
      else s.(stderr := s.stderr + [Text(c)], writer := w.(at := w.at + 1))
    case StoreTail =>
      var next := (w.tail + 1) % WORD;
      s.(tails := s.tails + [next], writer := Printing(next, w.head, 0))
    case Drained => s.(writer := AtDropped(w.tail))
    case LoadDropped =>
      s.(stderr := if s.dropped != s.reported then s.stderr + [Drops(s.dropped - s.reported)] else s.stderr,
         reported := s.dropped, hidden := 0, inFlight := p.Dropping?, writer := AtStop(w.tail))
    case LoadStop =>
      // Seeing the stop is seeing every store before it.
      if s.stop then s.(seenHead := s.H(), writer := AtHead(w.tail)) else s.(writer := Top)
    case LoadHeadAgain(k) =>
      s.(seenHead := k, writer := if s.heads[k] == w.tail then Gone else Top)
  }

  // --- The history, read back -----------------------------------------------

  // The lines kept, in the order they were submitted.
  function Kept(log: seq<Entry>): (r: seq<string>)
    ensures |r| <= |log|
  {
    if log == [] then []
    else
      var e := log[|log| - 1];
      Kept(log[..|log| - 1]) + (if e.kept then [e.line] else [])
  }

  function Flat(lines: seq<string>): string {
    if lines == [] then "" else Flat(lines[..|lines| - 1]) + lines[|lines| - 1]
  }

  // The characters on stderr, and the drops reported there.
  function Characters(out: seq<Out>): string {
    if out == [] then ""
    else
      var o := out[|out| - 1];
      Characters(out[..|out| - 1]) + (if o.Text? then [o.c] else "")
  }

  function Reported(out: seq<Out>): nat {
    if out == [] then 0
    else
      var o := out[|out| - 1];
      Reported(out[..|out| - 1]) + (if o.Drops? then o.count else 0)
  }

  // --- The invariant --------------------------------------------------------

  ghost predicate Shape(s: State) {
    && |s.ring| == SLOTS && (forall j :: 0 <= j < SLOTS ==> |s.ring[j]| == LINE)
    && |s.heads| > 0 && |s.tails| > 0
    && (forall k :: 0 <= k < |s.heads| ==> s.heads[k] == k % WORD)
    && (forall k :: 0 <= k < |s.tails| ==> s.tails[k] == k % WORD)
    && s.seenTail <= s.T() <= s.seenHead <= s.H() <= s.seenTail + SLOTS
    && |s.accepted| == s.H() && s.reported <= s.dropped
    && Places(s) && Phases(s)
  }

  // Where each thread's local copies of the counters stand.
  ghost predicate Places(s: State) {
    var p, w := s.producer, s.writer;
    && (p.GotHead? ==> p.head == s.H() % WORD && IsLine(p.line))
    && (p.Copying? ==> p.head == s.H() % WORD && IsLine(p.line) && p.copied <= |p.line| + 1
                       && s.H() < s.seenTail + SLOTS)
    && (w.Printing? ==> w.tail == s.T() % WORD && w.head == s.seenHead % WORD && w.at < LINE
                        && (w.at > 0 ==> s.T() < s.seenHead))
    && (w.Printed? ==> w.tail == s.T() % WORD && w.head == s.seenHead % WORD && s.T() < s.seenHead)
    && (w.AtDropped? ==> w.tail == s.T() % WORD)
    && (w.AtStop? ==> w.tail == s.T() % WORD)
    && (w.AtHead? ==> w.tail == s.T() % WORD && s.seenHead == s.H())
  }

  ghost predicate Phases(s: State) {
    var p, w := s.producer, s.writer;
    && (p.GotHead? || p.Copying? || p.Dropping? ==> s.ringed)
    && (s.stop ==> p.Joining? || w.Gone?)
    && (p.Joining? ==> s.stop)
    && (s.ringed || p.Starting? <==> !w.Unborn? && !(w.Gone? && !p.Joining?))
    && (w.AtHead? || w.Gone? ==> s.stop)
    && (w.Unborn? || w.Gone? ==> s.T() == s.H())
  }

  ghost predicate Holds(slot: seq<char>, line: string) {
    IsLine(line) && |slot| == LINE && slot[..|line|] == line && slot[|line|] == NUL
  }

  // Every line between the counters is whole in its own slot.
  ghost predicate Slots(ring: seq<seq<char>>, accepted: seq<string>, from: int) {
    && |ring| == SLOTS && 0 <= from <= |accepted| <= from + SLOTS
    && forall j :: from <= j < |accepted| ==> Holds(ring[j % SLOTS], accepted[j])
  }

  // How much of a line is in its slot, while it is copied there.
  ghost predicate Copied(slot: seq<char>, line: string, copied: nat) {
    && |slot| == LINE && IsLine(line) && copied <= |line| + 1
    && (if copied <= |line| then slot[..copied] == line[..copied] else Holds(slot, line))
  }

  // What of the oldest waiting line is on stderr already.
  ghost function Begun(s: State): string
    requires Shape(s)
  {
    if s.writer.Printing? && s.writer.at > 0 && s.writer.at <= |s.accepted[s.T()]| then
      s.accepted[s.T()][..s.writer.at]
    else if s.writer.Printed? then s.accepted[s.T()]
    else ""
  }

  // Everything kept before the waiting lines is on stderr, in order.
  ghost predicate Stream(out: seq<Out>, kept: seq<string>, accepted: seq<string>, from: int, begun: string) {
    && 0 <= from <= |accepted|
    && |accepted| - from <= |kept|
    && accepted[from..] == kept[|kept| - (|accepted| - from)..]
    && Characters(out) == Flat(kept[..|kept| - (|accepted| - from)]) + begun
  }

  ghost predicate Lines(s: State)
    requires Shape(s)
  {
    && Slots(s.ring, s.accepted, s.T())
    && (s.producer.Copying? ==>
          Copied(s.ring[s.producer.head % SLOTS], s.producer.line, s.producer.copied))
    && (s.writer.Printing? && s.writer.at > 0 ==> s.writer.at <= |s.accepted[s.T()]|)
    && Stream(s.stderr, Kept(s.log), s.accepted, s.T(), Begun(s))
  }

  ghost predicate Counts(s: State) {
    && |s.log| == |Kept(s.log)| + s.dropped
    && Reported(s.stderr) == s.reported
  }

  // After the writer has looked at the count, with nothing left in the ring: a
  // drop it has not reported was in flight when it looked, or came of an old tail.
  ghost predicate DropsSeen(s: State) {
    s.T() == s.H() && (s.writer.AtStop? || s.writer.AtHead? || s.writer.Gone?) ==>
      s.dropped - s.reported + (if s.producer.Dropping? then 1 else 0) == s.hidden + if s.inFlight then 1 else 0
  }

  ghost predicate Inv(s: State) {
    Shape(s) && Lines(s) && Counts(s) && DropsSeen(s)
  }

  lemma BlankShape()
    ensures |Blank()| == SLOTS && forall j :: 0 <= j < SLOTS ==> |Blank()[j]| == LINE
  {}

  lemma StartShape()
    ensures Shape(Start())
  {
    BlankShape();
  }

  lemma StartInv()
    ensures Inv(Start())
  {
    StartShape();
  }

  // --- Words and slots ------------------------------------------------------

  // 256 divides 2^64: a counter that wraps goes on to the next slot.
  lemma SlotOf(x: nat)
    ensures (x % WORD) % SLOTS == x % SLOTS
    ensures (x % WORD + 1) % WORD == (x + 1) % WORD
  {}

  lemma UsedIs(h: nat, t: nat)
    requires t <= h <= t + SLOTS
    ensures Used(h % WORD, t % WORD) == h - t
    ensures h % WORD == t % WORD <==> h == t
  {}

  lemma SlotsDiffer(a: nat, b: nat)
    requires a < b < a + SLOTS
    ensures a % SLOTS != b % SLOTS
  {}

  // --- Pieces of history ----------------------------------------------------

  lemma KeptAppend(log: seq<Entry>, e: Entry)
    ensures Kept(log + [e]) == Kept(log) + (if e.kept then [e.line] else [])
  {
    assert (log + [e])[..|log|] == log;
  }

  lemma FlatAppend(lines: seq<string>, line: string)
    ensures Flat(lines + [line]) == Flat(lines) + line
  {
    assert (lines + [line])[..|lines|] == lines;
  }

  lemma OutAppend(out: seq<Out>, o: Out)
    ensures Characters(out + [o]) == Characters(out) + (if o.Text? then [o.c] else "")
    ensures Reported(out + [o]) == Reported(out) + (if o.Drops? then o.count else 0)
  {
    assert (out + [o])[..|out|] == out;
  }

  lemma {:induction false} TextsAppend(out: seq<Out>, line: string)
    ensures Characters(out + Texts(line)) == Characters(out) + line
    ensures Reported(out + Texts(line)) == Reported(out)
  {
    if line == "" {
      assert out + Texts(line) == out;
    } else {
      var n := |line| - 1;
      TextsAppend(out, line[..n]);
      OutAppend(out + Texts(line[..n]), Text(line[n]));
      assert out + Texts(line) == out + Texts(line[..n]) + [Text(line[n])];
    }
  }

  // --- What each step does to the stream and the slots ----------------------

  lemma StreamDirect(out: seq<Out>, kept: seq<string>, accepted: seq<string>, line: string)
    requires Stream(out, kept, accepted, |accepted|, "")
    ensures Stream(out + Texts(line), kept + [line], accepted, |accepted|, "")
  {
    TextsAppend(out, line);
    FlatAppend(kept, line);
    assert (kept + [line])[..|kept| + 1] == kept + [line] && kept[..|kept|] == kept;
  }

  lemma StreamAccept(out: seq<Out>, kept: seq<string>, accepted: seq<string>, from: int,
                     begun: string, line: string)
    requires Stream(out, kept, accepted, from, begun)
    ensures Stream(out, kept + [line], accepted + [line], from, begun)
  {
    var n := |accepted| - from;
    assert (kept + [line])[..|kept| - n] == kept[..|kept| - n];
  }

  lemma StreamPrint(out: seq<Out>, kept: seq<string>, accepted: seq<string>, from: int,
                    begun: string, c: char)
    requires Stream(out, kept, accepted, from, begun)
    ensures Stream(out + [Text(c)], kept, accepted, from, begun + [c])
  {
    OutAppend(out, Text(c));
  }

  lemma StreamReport(out: seq<Out>, kept: seq<string>, accepted: seq<string>, from: int,
                     begun: string, count: nat)
    requires Stream(out, kept, accepted, from, begun)
    ensures Stream(out + [Drops(count)], kept, accepted, from, begun)
  {
    OutAppend(out, Drops(count));
  }

  lemma StreamAdvance(out: seq<Out>, kept: seq<string>, accepted: seq<string>, from: int)
    requires 0 <= from < |accepted| && Stream(out, kept, accepted, from, accepted[from])
    ensures Stream(out, kept, accepted, from + 1, "")
  {
    var before := |kept| - (|accepted| - from);
    assert accepted[from] == accepted[from..][0] == kept[before];
    assert kept[..before + 1] == kept[..before] + [accepted[from]];
    FlatAppend(kept[..before], accepted[from]);
    assert accepted[from + 1..] == accepted[from..][1..] == kept[before..][1..];
  }

  // The slot being filled is none of those waiting.
  lemma SlotsFill(ring: seq<seq<char>>, accepted: seq<string>, from: int, slot: seq<char>)
    requires Slots(ring, accepted, from) && |accepted| < from + SLOTS
    ensures Slots(ring[|accepted| % SLOTS := slot], accepted, from)
  {
    forall j | from <= j < |accepted|
      ensures Holds(ring[|accepted| % SLOTS := slot][j % SLOTS], accepted[j])
    {
      SlotsDiffer(j, |accepted|);
    }
  }

  lemma SlotsAccept(ring: seq<seq<char>>, accepted: seq<string>, from: int, line: string)
    requires Slots(ring, accepted, from) && |accepted| < from + SLOTS
    requires Holds(ring[|accepted| % SLOTS], line)
    ensures Slots(ring, accepted + [line], from)
  {}

  lemma CopiedMore(slot: seq<char>, line: string, copied: nat)
    requires Copied(slot, line, copied) && copied <= |line|
    ensures Copied(slot[copied := if copied < |line| then line[copied] else NUL], line, copied + 1)
  {
    var slot' := slot[copied := if copied < |line| then line[copied] else NUL];
    if copied < |line| {
      assert slot'[..copied + 1] == slot[..copied] + [line[copied]];
      assert line[..copied + 1] == line[..copied] + [line[copied]];
    } else {
      assert slot'[..copied] == slot[..copied];
    }
  }

  // --- Every step keeps the invariant ---------------------------------------

  lemma ProducerShape(s: State, step: Step)
    requires Inv(s) && Enabled(s, step)
    requires step.Submit? || step.CreateWriter? || step.SetRinged? || step.CountDrop?
          || step.SetStop? || step.Join?
    ensures Shape(Do(s, step))
  {}

  lemma LoadTailShape(s: State, k: nat)
    requires Shape(s) && Enabled(s, LoadTail(k))
    ensures Shape(Do(s, LoadTail(k)))
  {
    UsedIs(s.H(), k);
  }

  lemma CopyByteShape(s: State)
    requires Shape(s) && Enabled(s, CopyByte)
    ensures Shape(Do(s, CopyByte))
  {}

  lemma StoreHeadShape(s: State)
    requires Shape(s) && Enabled(s, StoreHead)
    ensures Shape(Do(s, StoreHead))
  {
    SlotOf(s.H());
  }

  lemma WriterShape(s: State, step: Step)
    requires Shape(s) && Enabled(s, step)
    requires step.LoadHead? || step.Drained? || step.LoadDropped? || step.LoadStop?
    ensures Shape(Do(s, step))
  {
    UsedIs(s.seenHead, s.T());
  }

  lemma StoreTailShape(s: State)
    requires Shape(s) && Enabled(s, StoreTail)
    ensures Shape(Do(s, StoreTail))
  {
    SlotOf(s.T());
  }

  lemma LoadHeadAgainShape(s: State, k: nat)
    requires Shape(s) && Enabled(s, LoadHeadAgain(k))
    ensures Shape(Do(s, LoadHeadAgain(k)))
  {
    UsedIs(k, s.T());
  }

  // The byte the writer prints is the next of the oldest line, or ends it.
  lemma ByteIsNext(s: State)
    requires Shape(s) && Lines(s) && Enabled(s, PrintByte)
    ensures s.T() < s.seenHead && s.writer.tail % SLOTS == s.T() % SLOTS
    ensures s.writer.at <= |s.accepted[s.T()]|
    ensures
      var line, c := s.accepted[s.T()], s.ring[s.T() % SLOTS][s.writer.at];
      && IsLine(line)
      && (c == NUL <==> s.writer.at == |line|)
      && (c != NUL ==> c == line[s.writer.at])
  {
    UsedIs(s.seenHead, s.T());
    SlotOf(s.T());
    var line, at := s.accepted[s.T()], s.writer.at;
    assert Holds(s.ring[s.T() % SLOTS], line);
    if at < |line| {
      assert s.ring[s.T() % SLOTS][..|line|][at] == line[at];
    }
  }

  lemma PrintByteShape(s: State)
    requires Shape(s) && Lines(s) && Enabled(s, PrintByte)
    ensures Shape(Do(s, PrintByte))
  {
    ByteIsNext(s);
  }

  lemma ShapeKept(s: State, step: Step)
    requires Inv(s) && Enabled(s, step)
    ensures Shape(Do(s, step))
  {
    match step
    case LoadTail(k) => LoadTailShape(s, k);
    case CopyByte => CopyByteShape(s);
    case StoreHead => StoreHeadShape(s);
    case LoadHead(_) => WriterShape(s, step);
    case PrintByte => PrintByteShape(s);
    case StoreTail => StoreTailShape(s);
    case Drained => WriterShape(s, step);
    case LoadDropped => WriterShape(s, step);
    case LoadStop => WriterShape(s, step);
    case LoadHeadAgain(k) => LoadHeadAgainShape(s, k);
    case _ => ProducerShape(s, step);
  }

  // Steps that touch neither slot, nor history, nor a line half printed.
  lemma QuietLines(s: State, s': State)
    requires Shape(s) && Lines(s) && Shape(s')
    requires s'.ring == s.ring && s'.accepted == s.accepted && s'.T() == s.T()
    requires s'.stderr == s.stderr && s'.log == s.log
    requires s'.producer.Copying? && s'.producer != s.producer ==>
               s'.producer.copied == 0 && IsLine(s'.producer.line)
    requires s'.writer != s.writer ==>
               Begun(s) == "" && !s'.writer.Printed? && (s'.writer.Printing? ==> s'.writer.at == 0)
    ensures Lines(s')
  {}

  // Steps that only print.
  lemma PrintedLines(s: State, s': State)
    requires Shape(s) && Lines(s) && Shape(s')
    requires s'.ring == s.ring && s'.accepted == s.accepted && s'.T() == s.T()
    requires s'.producer == s.producer && s'.log == s.log
    requires s'.writer.Printing? && s'.writer.at > 0 ==> s'.writer.at <= |s.accepted[s.T()]|
    requires Stream(s'.stderr, Kept(s.log), s.accepted, s.T(), Begun(s'))
    ensures Lines(s')
  {}

  lemma QuietSubmit(s: State, line: string)
    requires Shape(s) && Lines(s) && Enabled(s, Submit(line)) && Shape(Do(s, Submit(line))) && s.ringed
    ensures Lines(Do(s, Submit(line)))
  {
    QuietLines(s, Do(s, Submit(line)));
  }

  lemma QuietLoadTail(s: State, k: nat)
    requires Shape(s) && Lines(s) && Enabled(s, LoadTail(k)) && Shape(Do(s, LoadTail(k)))
    ensures Lines(Do(s, LoadTail(k)))
  {
    QuietLines(s, Do(s, LoadTail(k)));
  }

  // Nothing of the texts is touched, and no copying or printing begins.
  lemma QuietPhase(s: State, s': State)
    requires Shape(s) && Lines(s) && Shape(s')
    requires s'.ring == s.ring && s'.accepted == s.accepted && s'.tails == s.tails
    requires s'.stderr == s.stderr && s'.log == s.log && !s'.producer.Copying?
    requires s'.writer == s.writer || (s.writer.Unborn? && s'.writer.Top?)
    ensures Lines(s')
  {
    QuietLines(s, s');
  }

  lemma QuietProducer(s: State, step: Step)
    requires Shape(s) && Lines(s) && Enabled(s, step) && Shape(Do(s, step))
    requires step.CreateWriter? || step.SetRinged? || step.SetStop? || step.Join?
    ensures Lines(Do(s, step))
  {
    QuietPhase(s, Do(s, step));
  }

  lemma QuietDrained(s: State)
    requires Shape(s) && Lines(s) && Enabled(s, Drained) && Shape(Do(s, Drained))
    ensures Lines(Do(s, Drained))
  {
    UsedIs(s.seenHead, s.T());
    QuietLines(s, Do(s, Drained));
  }

  lemma QuietWriter(s: State, step: Step)
    requires Shape(s) && Lines(s) && Enabled(s, step) && Shape(Do(s, step))
    requires step.LoadHead? || step.LoadStop? || step.LoadHeadAgain?
    ensures Lines(Do(s, step))
  {
    QuietLines(s, Do(s, step));
  }

  lemma DirectLines(s: State, line: string)
    requires Shape(s) && Lines(s) && Enabled(s, Submit(line)) && !s.ringed
    requires Shape(Do(s, Submit(line)))
    ensures Lines(Do(s, Submit(line)))
  {
    StreamDirect(s.stderr, Kept(s.log), s.accepted, line);
    KeptAppend(s.log, Entry(line, true));
  }

  lemma CopyByteLines(s: State)
    requires Shape(s) && Lines(s) && Enabled(s, CopyByte) && Shape(Do(s, CopyByte))
    ensures Lines(Do(s, CopyByte))
  {
    var p, s' := s.producer, Do(s, CopyByte);
    SlotOf(s.H());
    SlotsFill(s.ring, s.accepted, s.T(), s'.ring[s.H() % SLOTS]);
    CopiedMore(s.ring[s.H() % SLOTS], p.line, p.copied);
  }

  lemma BegunStays(s: State, s': State)
    requires Shape(s) && Shape(s') && s'.writer == s.writer && s'.T() == s.T() && s.accepted <= s'.accepted
    requires s.writer.Printing? && s.writer.at > 0 ==> s.writer.at <= |s.accepted[s.T()]|
    ensures Begun(s') == Begun(s)
  {}

  // A line whole in its slot, and accepted.
  lemma AcceptedLines(s': State)
    requires Shape(s') && !s'.producer.Copying? && Slots(s'.ring, s'.accepted, s'.T())
    requires s'.writer.Printing? && s'.writer.at > 0 ==> s'.writer.at <= |s'.accepted[s'.T()]|
    requires Stream(s'.stderr, Kept(s'.log), s'.accepted, s'.T(), Begun(s'))
    ensures Lines(s')
  {}

  lemma StoreHeadLines(s: State)
    requires Shape(s) && Lines(s) && Enabled(s, StoreHead) && Shape(Do(s, StoreHead))
    ensures Lines(Do(s, StoreHead))
  {
    var line := s.producer.line;
    SlotOf(s.H());
    SlotsAccept(s.ring, s.accepted, s.T(), line);
    KeptAppend(s.log, Entry(line, true));
    BegunStays(s, Do(s, StoreHead));
    StreamAccept(s.stderr, Kept(s.log), s.accepted, s.T(), Begun(s), line);
    AcceptedLines(Do(s, StoreHead));
  }

  // A line left out of the history changes nothing of what is kept.
  lemma DroppedLines(s: State, s': State)
    requires Shape(s) && Lines(s) && Shape(s')
    requires s'.ring == s.ring && s'.accepted == s.accepted && s'.T() == s.T()
    requires s'.stderr == s.stderr && s'.writer == s.writer && !s'.producer.Copying?
    requires Kept(s'.log) == Kept(s.log)
    ensures Lines(s')
  {}

  lemma CountDropLines(s: State)
    requires Shape(s) && Lines(s) && Enabled(s, CountDrop) && Shape(Do(s, CountDrop))
    ensures Lines(Do(s, CountDrop))
  {
    KeptAppend(s.log, Entry(s.producer.line, false));
    DroppedLines(s, Do(s, CountDrop));
  }

  lemma PrintByteLines(s: State)
    requires Shape(s) && Lines(s) && Enabled(s, PrintByte) && Shape(Do(s, PrintByte))
    ensures Lines(Do(s, PrintByte))
  {
    ByteIsNext(s);
    var line, at, s' := s.accepted[s.T()], s.writer.at, Do(s, PrintByte);
    assert Begun(s) == line[..at];
    if at == |line| {
      assert Begun(s') == line == line[..at];
    } else {
      assert Begun(s') == line[..at + 1] == line[..at] + [line[at]];
      StreamPrint(s.stderr, Kept(s.log), s.accepted, s.T(), Begun(s), line[at]);
    }
    PrintedLines(s, s');
  }

  // The oldest line printed whole and its slot given back.
  lemma AdvancedLines(s: State, s': State)
    requires Shape(s) && Lines(s) && Shape(s')
    requires s'.ring == s.ring && s'.accepted == s.accepted && s'.T() == s.T() + 1
    requires s'.producer == s.producer && s'.stderr == s.stderr && s'.log == s.log
    requires s'.writer.Printing? && s'.writer.at == 0
    requires Stream(s.stderr, Kept(s.log), s.accepted, s.T() + 1, "")
    ensures Lines(s')
  {}

  lemma StoreTailLines(s: State)
    requires Shape(s) && Lines(s) && Enabled(s, StoreTail) && Shape(Do(s, StoreTail))
    ensures Lines(Do(s, StoreTail))
  {
    StreamAdvance(s.stderr, Kept(s.log), s.accepted, s.T());
    AdvancedLines(s, Do(s, StoreTail));
  }

  lemma ReportPrinted(out: seq<Out>, kept: seq<string>, accepted: seq<string>, from: int,
                      dropped: nat, reported: nat, out': seq<Out>)
    requires Stream(out, kept, accepted, from, "") && reported <= dropped
    requires out' == if dropped != reported then out + [Drops(dropped - reported)] else out
    ensures Stream(out', kept, accepted, from, "")
  {
    StreamReport(out, kept, accepted, from, "", dropped - reported);
  }

  lemma ReportedLines(s: State, s': State)
    requires Shape(s) && Lines(s) && Shape(s') && s.writer.AtDropped? && s'.writer.AtStop?
    requires s'.ring == s.ring && s'.accepted == s.accepted && s'.T() == s.T()
    requires s'.producer == s.producer && s'.log == s.log
    requires s'.stderr == if s.dropped != s.reported then s.stderr + [Drops(s.dropped - s.reported)] else s.stderr
    ensures Lines(s')
  {
    ReportPrinted(s.stderr, Kept(s.log), s.accepted, s.T(), s.dropped, s.reported, s'.stderr);
    PrintedLines(s, s');
  }

  lemma LoadDroppedLines(s: State)
    requires Shape(s) && Lines(s) && Enabled(s, LoadDropped) && Shape(Do(s, LoadDropped))
    ensures Lines(Do(s, LoadDropped))
  {
    ReportedLines(s, Do(s, LoadDropped));
  }

  lemma LinesKept(s: State, step: Step)
    requires Shape(s) && Lines(s) && Enabled(s, step) && Shape(Do(s, step))
    ensures Lines(Do(s, step))
  {
    match step
    case Submit(line) =>
      if s.ringed {
        QuietSubmit(s, line);
      } else {
        DirectLines(s, line);
      }
    case LoadTail(k) => QuietLoadTail(s, k);
    case CopyByte => CopyByteLines(s);
    case StoreHead => StoreHeadLines(s);
    case CountDrop => CountDropLines(s);
    case PrintByte => PrintByteLines(s);
    case StoreTail => StoreTailLines(s);
    case LoadDropped => LoadDroppedLines(s);
    case LoadHead(_) => QuietWriter(s, step);
    case Drained => QuietDrained(s);
    case LoadStop => QuietWriter(s, step);
    case LoadHeadAgain(_) => QuietWriter(s, step);
    case _ => QuietProducer(s, step);
  }

  lemma ProducerCounts(s: State, step: Step)
    requires Shape(s) && Counts(s) && Enabled(s, step)
    requires step.Submit? || step.StoreHead? || step.CountDrop?
    ensures Counts(Do(s, step))
  {
    match step
    case Submit(line) =>
      TextsAppend(s.stderr, line);
      KeptAppend(s.log, Entry(line, true));
    case StoreHead => KeptAppend(s.log, Entry(s.producer.line, true));
    case CountDrop => KeptAppend(s.log, Entry(s.producer.line, false));
  }

  // A byte on stderr, or none.
  lemma PrintByteChanges(s: State) returns (c: char)
    requires Shape(s) && Enabled(s, PrintByte)
    ensures
      var s' := Do(s, PrintByte);
      && s'.log == s.log && s'.dropped == s.dropped && s'.reported == s.reported
      && (s'.stderr == s.stderr || s'.stderr == s.stderr + [Text(c)])
  {
    c := s.ring[s.writer.tail % SLOTS][s.writer.at];
  }

  lemma PrintedCounts(s: State, s': State, c: char)
    requires Counts(s) && s'.log == s.log && s'.dropped == s.dropped && s'.reported == s.reported
    requires s'.stderr == s.stderr || s'.stderr == s.stderr + [Text(c)]
    ensures Counts(s')
  {
    OutAppend(s.stderr, Text(c));
  }

  lemma PrintByteCounts(s: State)
    requires Shape(s) && Counts(s) && Enabled(s, PrintByte)
    ensures Counts(Do(s, PrintByte))
  {
    var c := PrintByteChanges(s);
    PrintedCounts(s, Do(s, PrintByte), c);
  }

  lemma LoadDroppedCounts(s: State)
    requires Shape(s) && Counts(s) && Enabled(s, LoadDropped)
    ensures Counts(Do(s, LoadDropped))
  {
    OutAppend(s.stderr, Drops(s.dropped - s.reported));
  }

  lemma CountsKept(s: State, step: Step)
    requires Shape(s) && Counts(s) && Enabled(s, step)
    ensures Counts(Do(s, step))
  {
    match step
    case Submit(_) => ProducerCounts(s, step);
    case StoreHead => ProducerCounts(s, step);
    case CountDrop => ProducerCounts(s, step);
    case PrintByte => PrintByteCounts(s);
    case LoadDropped => LoadDroppedCounts(s);
    case _ =>
  }

  lemma DropsSeenKept(s: State, step: Step)
    requires Shape(s) && DropsSeen(s) && Enabled(s, step)
    ensures DropsSeen(Do(s, step))
  {
    if step.LoadTail? {
      UsedIs(s.H(), step.k);
    }
  }

  // --- Whole runs -----------------------------------------------------------

  ghost predicate Possible(steps: seq<Step>)
    decreases |steps|, 0
  {
    steps == [] ||
    (Possible(steps[..|steps| - 1]) && Enabled(After(steps[..|steps| - 1]), steps[|steps| - 1]))
  }

  ghost function After(steps: seq<Step>): (s: State)
    requires Possible(steps)
    ensures Inv(s)
    decreases |steps|, 1
  {
    if steps == [] then
      StartInv();
      Start()
    else
      var s, step := After(steps[..|steps| - 1]), steps[|steps| - 1];
      ShapeKept(s, step);
      LinesKept(s, step);
      CountsKept(s, step);
      DropsSeenKept(s, step);
      Do(s, step)
  }

  lemma {:induction false} FlatConcat(a: seq<string>, b: seq<string>)
    ensures Flat(a + b) == Flat(a) + Flat(b)
  {
    if b == [] {
      assert a + b == a;
    } else {
      var n := |b| - 1;
      FlatConcat(a, b[..n]);
      assert (a + b)[..|a + b| - 1] == a + b[..n];
    }
  }

  lemma BegunStarts(s: State)
    requires Inv(s)
    ensures Begun(s) <= Flat(s.accepted[s.T()..])
  {
    if Begun(s) != "" {
      FirstStarts(s.accepted[s.T()..]);
      assert Begun(s) <= s.accepted[s.T()];
    }
  }

  lemma FirstStarts(lines: seq<string>)
    requires |lines| > 0
    ensures lines[0] <= Flat(lines)
  {
    FlatConcat([lines[0]], lines[1..]);
    assert [lines[0]] + lines[1..] == lines;
    assert Flat([lines[0]]) == Flat([]) + lines[0];
  }

  // The text of the lines in the ring that is not on stderr yet.
  ghost function Unprinted(s: State): string
    requires Inv(s)
  {
    BegunStarts(s);
    Flat(s.accepted[s.T()..])[|Begun(s)|..]
  }

  lemma StreamIsWhole(s: State)
    requires Inv(s)
    ensures Characters(s.stderr) + Unprinted(s) == Flat(Kept(s.log))
  {
    BegunStarts(s);
    WholeStream(s.stderr, Kept(s.log), s.accepted, s.T(), Begun(s));
  }

  lemma WholeStream(out: seq<Out>, kept: seq<string>, accepted: seq<string>, from: int, begun: string)
    requires Stream(out, kept, accepted, from, begun) && begun <= Flat(accepted[from..])
    ensures Characters(out) + Flat(accepted[from..])[|begun|..] == Flat(kept)
  {
    var n := |accepted| - from;
    var before, after := kept[..|kept| - n], kept[|kept| - n..];
    FlatConcat(before, after);
    assert kept == before + after;
    Regroup(Flat(before), begun, Flat(after));
  }

  lemma Regroup(a: string, b: string, c: string)
    requires b <= c
    ensures a + b + c[|b|..] == a + c
  {
    assert c == b + c[|b|..];
  }

  // At every moment of every run: what is on stderr, followed by the rest of
  // the lines in the ring, is every line kept, in the order submitted; every
  // line submitted was kept or is counted as dropped.
  lemma LogIsRefined(steps: seq<Step>)
    requires Possible(steps)
    ensures Characters(After(steps).stderr) + Unprinted(After(steps)) == Flat(Kept(After(steps).log))
    ensures |Kept(After(steps).log)| + After(steps).dropped == |After(steps).log|
  {
    StreamIsWhole(After(steps));
  }

  // Over any run a line is dropped only when all 256 slots are taken on the tail
  // just loaded, and then it is.
  lemma DroppedIffFull(steps: seq<Step>, k: nat)
    requires Possible(steps) && Enabled(After(steps), LoadTail(k))
    ensures
      var s, s' := After(steps), Do(After(steps), LoadTail(k));
      && k <= |s.accepted| <= k + 256
      && (s'.producer.Dropping? <==> |s.accepted| - k == 256)
      && (s'.producer.Copying? <==> |s.accepted| - k < 256)
  {
    LoadTailTells(After(steps), k);
  }

  lemma LoadTailTells(s: State, k: nat)
    requires Shape(s) && Enabled(s, LoadTail(k))
    ensures
      var s' := Do(s, LoadTail(k));
      && k <= |s.accepted| <= k + SLOTS
      && (s'.producer.Dropping? <==> |s.accepted| - k == SLOTS)
      && (s'.producer.Copying? <==> |s.accepted| - k < SLOTS)
  {
    UsedIs(s.H(), k);
  }

  // The producer is only ever in a slot the writer is done with: the line that
  // was there last is one whose tail store the producer has seen, and the line
  // the writer is in, if any, is in another.
  lemma SlotsApart(steps: seq<Step>)
    requires Possible(steps) && After(steps).producer.Copying?
    ensures
      var s := After(steps);
      && s.H() - SLOTS < s.seenTail
      && s.producer.head % SLOTS == s.H() % SLOTS
      && forall j: nat :: s.T() <= j < s.seenHead ==> j % SLOTS != s.producer.head % SLOTS
  {
    var s := After(steps);
    SlotOf(s.H());
    forall j: nat | s.T() <= j < s.seenHead
      ensures j % SLOTS != s.H() % SLOTS
    {
      SlotsDiffer(j, s.H());
    }
  }

  // When the writer has returned, every line the ring took is printed, and
  // stderr has every line kept in the order submitted. What it has not reported
  // is exactly the drops decided on a tail not the newest since it last looked,
  // and the one already decided on just then, if any.
  lemma ShutdownIsComplete(steps: seq<Step>)
    requires Possible(steps) && After(steps).writer.Gone?
    ensures
      var s := After(steps);
      && s.T() == |s.accepted|
      && Characters(s.stderr) == Flat(Kept(s.log))
      && Reported(s.stderr) == s.reported <= s.dropped
      && s.dropped - Reported(s.stderr) == s.hidden + if s.inFlight then 1 else 0
  {
    GoneIsComplete(After(steps));
  }

  lemma GoneIsComplete(s: State)
    requires Inv(s) && s.writer.Gone?
    ensures s.T() == |s.accepted| && Characters(s.stderr) == Flat(Kept(s.log))
    ensures !s.producer.Dropping?
  {
    assert s.accepted[s.T()..] == [];
    StreamIsWhole(s);
  }
}
