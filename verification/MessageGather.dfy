/**
 The driver's messages gathered into lines (`gather` and `hm2_shim_flush_log` in
 `shim/rtapi_shim.c`). The driver prints in fragments; each character is kept
 here with the level of the call that printed it and the limit in force then,
 and the lines are stated over that stream whatever calls it came in.
 */
module MessageGather {
  const BUFFER: nat := 1024

  datatype Item = Item(c: char, level: int, limit: int)

  datatype Line = Line(level: int, text: string)

  // What `vsnprintf` leaves of a message.
  function Chunk(text: string): string {
    if |text| < BUFFER then text else text[..BUFFER - 1]
  }

  function Items(text: string, level: int, limit: int): (s: seq<Item>)
    ensures |s| == |text|
    ensures forall i :: 0 <= i < |s| ==> s[i] == Item(text[i], level, limit)
  {
    seq(|text|, i requires 0 <= i < |text| => Item(text[i], level, limit))
  }

  lemma ItemsOneMore(before: seq<Item>, text: string, i: nat, level: int, limit: int)
    requires i < |text|
    ensures before + Items(text[..i + 1], level, limit) ==
            before + Items(text[..i], level, limit) + [Item(text[i], level, limit)]
  {}

  // --- The lines of a stream ------------------------------------------------

  // The text of a run as it fits the buffer.
  function Kept(run: seq<Item>): (text: string)
    ensures |text| < BUFFER
  {
    var n := if |run| < BUFFER then |run| else BUFFER - 1;
    seq(n, i requires 0 <= i < n => run[i].c)
  }

  lemma KeptOneMore(run: seq<Item>, x: Item)
    ensures Kept(run + [x]) == if |run| + 1 < BUFFER then Kept(run) + [x.c] else Kept(run)
    ensures |Kept(run)| == if |run| < BUFFER then |run| else BUFFER - 1
  {}

  // A run ended by a newline: a line, at the level of its first character,
  // unless it is empty or the level is over the limit.
  function Ended(run: seq<Item>, limit: int): seq<Line> {
    if |run| > 0 && run[0].level <= limit then [Line(run[0].level, Kept(run))] else []
  }

  // What has been printed since the last newline.
  function Rest(s: seq<Item>): seq<Item> {
    if |s| == 0 || s[|s| - 1].c == '\n' then [] else Rest(s[..|s| - 1]) + [s[|s| - 1]]
  }

  // The line a character ends, if it is a newline.
  function EndedBy(s: seq<Item>, x: Item): seq<Line> {
    if x.c == '\n' then Ended(Rest(s), x.limit) else []
  }

  function Lines(s: seq<Item>): seq<Line> {
    if |s| == 0 then [] else Lines(s[..|s| - 1]) + EndedBy(s[..|s| - 1], s[|s| - 1])
  }

  lemma OneMore(s: seq<Item>, x: Item)
    ensures Lines(s + [x]) == Lines(s) + EndedBy(s, x)
    ensures Rest(s + [x]) == if x.c == '\n' then [] else Rest(s) + [x]
  {
    assert (s + [x])[..|s|] == s;
  }

  lemma EndOfLine(s: seq<Item>, x: Item)
    requires x.c == '\n'
    ensures Lines(s + [x]) == Lines(s) + Ended(Rest(s), x.limit) && Rest(s + [x]) == []
  {
    OneMore(s, x);
  }

  lemma MiddleOfLine(s: seq<Item>, x: Item)
    requires x.c != '\n'
    ensures Lines(s + [x]) == Lines(s) && Rest(s + [x]) == Rest(s) + [x]
  {
    OneMore(s, x);
  }

  lemma Associate<T>(a: seq<T>, b: seq<T>, c: seq<T>)
    ensures a + b + c == a + (b + c)
  {}

  // --- The buffer -----------------------------------------------------------

  class Gatherer {
    const pending: array<char>
    var length: nat
    var level: int
    var limit: int
    var out: seq<Line>
    // Everything printed since the last flush, and what had been emitted by then.
    ghost var stream: seq<Item>
    ghost var flushed: seq<Line>

    // `run` is what has been printed of the unfinished line.
    ghost predicate Pending(run: seq<Item>)
      reads this, pending
    {
      && length < BUFFER == pending.Length
      && pending[..length] == Kept(run)
      && (length > 0 ==> |run| > 0 && level == run[0].level)
    }

    ghost predicate Valid()
      reads this, pending
    {
      Pending(Rest(stream)) && out == flushed + Lines(stream)
    }

    constructor (limit: int)
      ensures Valid() && stream == [] && flushed == [] && this.limit == limit && fresh(pending)
    {
      pending := new char[BUFFER];
      length, level, out := 0, 1, [];
      this.limit := limit;
      stream, flushed := [], [];
    }

    method SetMsgLevel(limit: int)
      requires Valid()
      modifies this`limit
      ensures Valid() && this.limit == limit
    {
      this.limit := limit;
    }

    // A newline: the line out, if it is one to print.
    method EndLine(callLevel: int, ghost run: seq<Item>)
      requires Pending(run)
      modifies this`length, this`level, this`out
      ensures Pending([]) && length == 0 && level == callLevel && out == old(out) + Ended(run, limit)
    {
      if length > 0 && level <= limit {
        out := out + [Line(level, pending[..length])];
      }
      length := 0;
      level := callLevel;
    }

    // Any other character: into the buffer, unless that is full.
    method Append(ghost run: seq<Item>, ghost x: Item, c: char)
      requires Pending(run) && x.c == c && (length == 0 ==> level == x.level)
      modifies this`length, pending
      ensures Pending(run + [x]) && length > 0
    {
      KeptOneMore(run, x);
      if length + 1 < pending.Length {
        ghost var text := pending[..length];
        pending[length] := c;
        length := length + 1;
        assert pending[..length] == text + [c];
      }
    }

    // One character of a call's chunk.
    method Put(callLevel: int, c: char)
      requires Valid() && (length == 0 ==> level == callLevel)
      modifies this`length, this`level, this`out, this`stream, pending
      ensures Valid() && (length == 0 ==> level == callLevel)
      ensures stream == old(stream) + [Item(c, callLevel, limit)]
    {
      ghost var x, run, lines := Item(c, callLevel, limit), Rest(stream), Lines(stream);
      if c == '\n' {
        EndOfLine(stream, x);
        EndLine(callLevel, run);
        Associate(flushed, lines, Ended(run, limit));
      } else {
        MiddleOfLine(stream, x);
        Append(run, x, c);
      }
      stream := stream + [x];
    }

    // One call of the driver's print functions.
    method Gather(callLevel: int, message: string)
      requires Valid()
      modifies this`length, this`level, this`out, this`stream, pending
      ensures Valid() && stream == old(stream) + Items(Chunk(message), callLevel, limit)
    {
      var chunk := Chunk(message);
      ghost var before := stream;
      if length == 0 {
        level := callLevel;
      }
      for i := 0 to |chunk|
        invariant Valid() && (length == 0 ==> level == callLevel)
        invariant stream == before + Items(chunk[..i], callLevel, limit)
      {
        ItemsOneMore(before, chunk, i, callLevel, limit);
        Put(callLevel, chunk[i]);
      }
      assert chunk[..|chunk|] == chunk;
    }

    // A call under a limit set before it.
    method Print(callLevel: int, limit: int, message: string)
      requires Valid()
      modifies this`limit, this`length, this`level, this`out, this`stream, pending
      ensures Valid() && stream == old(stream) + Items(Chunk(message), callLevel, limit)
    {
      SetMsgLevel(limit);
      Gather(callLevel, message);
    }

    // With nothing flushed yet, what was emitted is the lines of the stream.
    lemma Emitted()
      requires Valid() && flushed == []
      ensures out == Lines(stream) && pending[..length] == Kept(Rest(stream))
    {}

    // At shutdown: what is left without a newline, whatever its level.
    method FlushLog()
      requires Valid()
      modifies this`length, this`out, this`stream, this`flushed
      ensures Valid() && stream == [] && length == 0
      ensures out == old(out) + if Rest(old(stream)) == [] then []
                                else [Line(Rest(old(stream))[0].level, Kept(Rest(old(stream))))]
    {
      if length > 0 {
        out := out + [Line(level, pending[..length])];
        length := 0;
      }
      stream, flushed := [], out;
    }
  }

  // --- Any fragments --------------------------------------------------------

  datatype Call = Call(level: int, limit: int, message: string)

  // The stream a sequence of calls prints.
  function Printed(calls: seq<Call>): seq<Item> {
    if |calls| == 0 then []
    else
      var last := calls[|calls| - 1];
      Printed(calls[..|calls| - 1]) + Items(Chunk(last.message), last.level, last.limit)
  }

  lemma PrintedOneMore(calls: seq<Call>, i: nat)
    requires i < |calls|
    ensures Printed(calls[..i + 1]) ==
            Printed(calls[..i]) + Items(Chunk(calls[i].message), calls[i].level, calls[i].limit)
  {
    assert calls[..i + 1][..i] == calls[..i];
  }

  // A message under the buffer's size in two calls or in one: the same stream.
  lemma SplitIsSame(calls: seq<Call>, a: string, b: string, level: int, limit: int)
    requires |a| + |b| < BUFFER
    ensures Printed(calls + [Call(level, limit, a), Call(level, limit, b)]) == Printed(calls + [Call(level, limit, a + b)])
  {
    var one := calls + [Call(level, limit, a)];
    var two := one + [Call(level, limit, b)];
    assert two[..|two| - 1] == one && one[..|one| - 1] == calls;
    assert calls + [Call(level, limit, a), Call(level, limit, b)] == two;
    var whole := calls + [Call(level, limit, a + b)];
    assert whole[..|whole| - 1] == calls;
  }

  // A longer one is as if only its first 1023 characters had been printed.
  lemma LongIsCut(calls: seq<Call>, text: string, level: int, limit: int)
    requires |text| > 1023
    ensures Printed(calls + [Call(level, limit, text)]) == Printed(calls + [Call(level, limit, text[..1023])])
  {
    var long, short := calls + [Call(level, limit, text)], calls + [Call(level, limit, text[..1023])];
    assert long[..|calls|] == calls && short[..|calls|] == calls;
  }

  // The characters of the messages as the driver gave them, each with its call's level.
  function Levelled(calls: seq<Call>): seq<Item> {
    if |calls| == 0 then []
    else
      var last := calls[|calls| - 1];
      Levelled(calls[..|calls| - 1]) + Items(last.message, last.level, last.limit)
  }

  predicate Short(calls: seq<Call>) {
    forall i :: 0 <= i < |calls| ==> |calls[i].message| < BUFFER
  }

  lemma {:induction false} ShortIsPrinted(calls: seq<Call>)
    requires Short(calls)
    ensures Printed(calls) == Levelled(calls)
  {
    if |calls| == 0 {
    } else {
      ShortIsPrinted(calls[..|calls| - 1]);
    }
  }

  // Any two ways to print the same levelled characters, in calls under the
  // buffer's size, emit the same lines and leave the same rest.
  lemma FragmentsDoNotMatter(a: seq<Call>, b: seq<Call>)
    requires Short(a) && Short(b) && Levelled(a) == Levelled(b)
    ensures Lines(Printed(a)) == Lines(Printed(b)) && Rest(Printed(a)) == Rest(Printed(b))
  {
    ShortIsPrinted(a);
    ShortIsPrinted(b);
  }

  // The whole driver's output through the buffer, whatever the calls.
  method Replay(calls: seq<Call>) returns (g: Gatherer)
    ensures fresh(g) && fresh(g.pending) && g.Valid() && g.flushed == [] && g.stream == Printed(calls)
    ensures g.out == Lines(Printed(calls)) && g.pending[..g.length] == Kept(Rest(Printed(calls)))
  {
    g := new Gatherer(0);
    ghost var printed: seq<Item> := [];
    for i := 0 to |calls|
      invariant fresh(g) && fresh(g.pending) && g.Valid() && g.flushed == [] && g.stream == printed
      invariant printed == Printed(calls[..i])
    {
      PrintedOneMore(calls, i);
      printed := printed + Items(Chunk(calls[i].message), calls[i].level, calls[i].limit);
      g.Print(calls[i].level, calls[i].limit, calls[i].message);
    }
    assert calls[..|calls|] == calls;
    g.Emitted();
  }

  lemma {:induction false} RunIsRest(run: seq<Item>)
    requires forall i :: 0 <= i < |run| ==> run[i].c != '\n'
    ensures Rest(run) == run && Lines(run) == []
  {
    if run == [] {
    } else {
      RunIsRest(run[..|run| - 1]);
    }
  }

  // A stream cut after a newline is two streams.
  lemma {:induction false} CutIsTwo(before: seq<Item>, after: seq<Item>)
    requires before == [] || before[|before| - 1].c == '\n'
    ensures Lines(before + after) == Lines(before) + Lines(after)
    ensures Rest(before + after) == Rest(after)
  {
    if |after| == 0 {
      assert before + after == before;
    } else {
      var init, x := after[..|after| - 1], after[|after| - 1];
      CutIsTwo(before, init);
      assert before + after == (before + init) + [x];
      OneMore(before + init, x);
      assert EndedBy(before + init, x) == EndedBy(init, x);
      Associate(Lines(before), Lines(init), EndedBy(init, x));
    }
  }

  // Each newline ends the run since the one before it, and nothing else is a line.
  lemma RunIsLine(before: seq<Item>, run: seq<Item>, end: Item, after: seq<Item>)
    requires before == [] || before[|before| - 1].c == '\n'
    requires forall i :: 0 <= i < |run| ==> run[i].c != '\n'
    requires end.c == '\n'
    ensures Lines(before + (run + [end] + after)) == Lines(before) + (Ended(run, end.limit) + Lines(after))
  {
    assert Lines(run + [end]) == Ended(run, end.limit) by {
      RunIsRest(run);
      OneMore(run, end);
    }
    CutIsTwo(run + [end], after);
    CutIsTwo(before, run + [end] + after);
  }

  // What that line is: none for an empty run or one over the limit, and otherwise
  // the run's first 1023 characters, at the level of the first of them.
  lemma EndedIs(run: seq<Item>, limit: int)
    ensures |Ended(run, limit)| == if run == [] || run[0].level > limit then 0 else 1
    ensures forall line :: line in Ended(run, limit) ==>
              && line.level == run[0].level
              && |line.text| == (if |run| < 1023 then |run| else 1023)
              && forall i :: 0 <= i < |line.text| ==> line.text[i] == run[i].c
  {}

  // A flush is a newline exactly when nothing waits or its level is within the limit.
  lemma FlushIsNewlineIff(s: seq<Item>, level: int, limit: int)
    ensures var flushed := Lines(s) + if Rest(s) == [] then [] else [Line(Rest(s)[0].level, Kept(Rest(s)))];
            Lines(s + [Item('\n', level, limit)]) == flushed <==> Rest(s) == [] || Rest(s)[0].level <= limit
  {
    OneMore(s, Item('\n', level, limit));
  }

  // A line over the limit, which a newline would not print and a flush does.
  lemma FlushPrintsOverLimit()
    ensures var s := Items("x", 4, 3);
            && Lines(s + [Item('\n', 4, 3)]) == []
            && |Rest(s)| > 0 && Line(Rest(s)[0].level, Kept(Rest(s))) == Line(4, "x")
  {
    var s := Items("x", 4, 3);
    RunIsRest(s);
    OneMore(s, Item('\n', 4, 3));
    assert Kept(s) == "x";
  }
}
