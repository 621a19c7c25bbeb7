/**
 The log's code without its interleavings (`host/main.c`): the calls of `hm2_log`
 and one pass of the writer, each whole, as a queue in an array with counters
 that wrap. `LogRing` is about what happens between them.
 */
module LogQueue {
  import opened LogRing

  datatype Printed = Line(text: string) | Lost(count: nat)

  function AsPrinted(lines: seq<string>): (p: seq<Printed>)
    ensures |p| == |lines|
  {
    seq(|lines|, i requires 0 <= i < |lines| => Line(lines[i]))
  }

  // `n` lines from place `t` on.
  function In(slots: seq<string>, t: nat, n: nat): (lines: seq<string>)
    requires |slots| == SLOTS
    ensures |lines| == n
  {
    seq(n, i requires 0 <= i < n => slots[(t + i) % SLOTS])
  }

  lemma InOneMore(slots: seq<string>, t: nat, n: nat, line: string)
    requires |slots| == SLOTS && n < SLOTS
    ensures In(slots[(t + n) % SLOTS := line], t, n + 1) == In(slots, t, n) + [line]
  {
    var more := slots[(t + n) % SLOTS := line];
    forall i: nat | i < n ensures In(more, t, n + 1)[i] == In(slots, t, n)[i] {
      SlotsDiffer(t + i, t + n);
    }
  }

  lemma InFirst(slots: seq<string>, t: nat, n: nat)
    requires |slots| == SLOTS && n > 0
    ensures In(slots, t, n) == [slots[t % SLOTS]] + In(slots, t + 1, n - 1)
  {}

  lemma PrintFirst(line: string, lines: seq<string>)
    ensures AsPrinted([line] + lines) == [Line(line)] + AsPrinted(lines)
  {}

  class Log {
    const slots: array<string>
    var head: nat
    var tail: nat
    var dropped: nat
    var reported: nat
    var ringed: bool
    var stderr: seq<Printed>
    // The counters before they wrap.
    ghost var h: nat
    ghost var t: nat

    ghost predicate Valid()
      reads this
    {
      && slots.Length == SLOTS
      && t <= h <= t + SLOTS && head == h % WORD && tail == t % WORD
      && reported <= dropped
    }

    // What is in the ring, oldest first.
    ghost function Waiting(): (lines: seq<string>)
      reads this, slots
      requires Valid()
      ensures |lines| == h - t
    {
      In(slots[..], t, h - t)
    }

    constructor ()
      ensures Valid() && Waiting() == [] && stderr == [] && !ringed && dropped == 0 && fresh(slots)
    {
      slots := new string[SLOTS](_ => "");
      head, tail, dropped, reported, ringed, stderr := 0, 0, 0, 0, false, [];
      h, t := 0, 0;
    }

    // A line goes out at once, or into the ring, or is dropped and counted.
    method Submit(line: string)
      requires Valid() && IsLine(line)
      modifies this`head, this`dropped, this`stderr, this`h, slots
      ensures Valid()
      ensures if !ringed then stderr == old(stderr) + [Line(line)] && Waiting() == old(Waiting())
              else if |old(Waiting())| == SLOTS then stderr == old(stderr) && Waiting() == old(Waiting())
              else stderr == old(stderr) && Waiting() == old(Waiting()) + [line]
      ensures dropped == old(dropped) + if ringed && |old(Waiting())| == SLOTS then 1 else 0
    {
      if !ringed {
        stderr := stderr + [Line(line)];
        return;
      }
      UsedIs(h, t);
      if Used(head, tail) >= SLOTS {
        dropped := dropped + 1;
        return;
      }
      SlotOf(h);
      InOneMore(slots[..], t, h - t, line);
      ghost var filled := slots[..][h % SLOTS := line];
      slots[head % SLOTS] := line;
      assert slots[..] == filled;
      head := (head + 1) % WORD;
      h := h + 1;
    }

    // The oldest line out and its place given back.
    method PrintOne()
      requires Valid() && t < h
      modifies this`tail, this`t, this`stderr
      ensures Valid() && t == old(t) + 1
      ensures stderr + AsPrinted(Waiting()) == old(stderr + AsPrinted(Waiting()))
      ensures tail != head <==> t < h
    {
      SlotOf(t);
      InFirst(slots[..], t, h - t);
      PrintFirst(slots[t % SLOTS], In(slots[..], t + 1, h - t - 1));
      stderr := stderr + [Line(slots[tail % SLOTS])];
      tail := (tail + 1) % WORD;
      t := t + 1;
      UsedIs(h, t);
    }

    // One pass of the writer: the ring, and then what was lost since it last said.
    method Pass()
      requires Valid()
      modifies this`tail, this`t, this`stderr, this`reported
      ensures Valid() && Waiting() == [] && tail == head && reported == dropped
      ensures stderr == old(stderr) + AsPrinted(old(Waiting())) +
                        if dropped == old(reported) then [] else [Lost(dropped - old(reported))]
    {
      ghost var all := stderr + AsPrinted(Waiting());
      var seen := head;
      UsedIs(h, t);
      while tail != seen
        invariant Valid() && seen == head && reported == old(reported)
        invariant stderr + AsPrinted(Waiting()) == all
        invariant tail != seen <==> t < h
        decreases h - t
      {
        PrintOne();
      }
      assert stderr + AsPrinted([]) == stderr;
      if dropped != reported {
        stderr := stderr + [Lost(dropped - reported)];
        reported := dropped;
      }
    }

    // The writer's last pass, when nothing is logged meanwhile, and its end.
    method FromRing()
      requires Valid()
      modifies this`tail, this`t, this`stderr, this`reported, this`ringed
      ensures Valid() && !ringed && (old(ringed) ==> Waiting() == [] && reported == dropped)
      ensures stderr == old(stderr) + (if old(ringed) then AsPrinted(old(Waiting())) +
                (if dropped == old(reported) then [] else [Lost(dropped - old(reported))]) else [])
    {
      if !ringed {
        return;
      }
      Pass();
      ringed := false;
    }

    method ToRing(created: bool)
      requires Valid()
      modifies this`ringed
      ensures Valid() && ringed == (old(ringed) || created)
    {
      if created {
        ringed := true;
      }
    }
  }
}
