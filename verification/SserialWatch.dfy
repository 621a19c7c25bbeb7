/**
 The Smart Serial ports' fault counts (`host/sserial_watch.c`): the driver raises
 a count for a fault and lets it decay, so each rise between two looks is one
 fault; the first hundred are logged and then every hundredth.
 */
module SserialWatch {
  const MAX_PORTS: nat := 8
  const LOGGED: nat := 100

  // The ports whose count is above the one before it.
  function Rose(before: seq<real>, now: seq<real>): set<nat>
    requires |before| == |now|
  {
    set i: nat | i < |now| && now[i] > before[i]
  }

  predicate IsLogged(number: nat) {
    number <= LOGGED || number % LOGGED == 0
  }

  // The faults numbered after `from` up to `upTo` that are logged, in order.
  function LogOf(from: nat, upTo: nat): seq<nat>
    requires from <= upTo
  {
    if from == upTo then [] else LogOf(from, upTo - 1) + if IsLogged(upTo) then [upTo] else []
  }

  class Watch {
    const last: array<real>
    const ports: array<nat>
    var watched: nat

    ghost predicate Valid()
      reads this
    {
      last.Length == ports.Length == MAX_PORTS && watched <= MAX_PORTS
    }

    constructor ()
      ensures Valid() && watched == 0 && fresh(last) && fresh(ports)
    {
      last := new real[MAX_PORTS](_ => 0.0);
      ports := new nat[MAX_PORTS](_ => 0);
      watched := 0;
    }

    // A port's pin, by the number in its name, until the table is full.
    method Add(port: int, count: real) returns (added: bool)
      requires Valid()
      modifies this`watched, last, ports
      ensures Valid() && (added <==> port >= 0 && old(watched) < MAX_PORTS)
      ensures last[..watched] == old(last[..watched]) + if added then [count] else []
      ensures ports[..watched] == old(ports[..watched]) + if added then [port] else []
    {
      if port < 0 || watched >= MAX_PORTS {
        return false;
      }
      ports[watched] := port;
      last[watched] := count;
      watched := watched + 1;
      added := true;
      assert last[..watched] == old(last[..watched]) + [count];
      assert ports[..watched] == old(ports[..watched]) + [port];
    }

    // One look at every count: how many rose, and the numbers logged of them.
    method FaultsSeen(counts: seq<real>, soFar: nat) returns (seen: nat, logged: seq<nat>)
      requires Valid() && |counts| == watched
      modifies last
      ensures Valid() && last[..watched] == counts
      ensures seen == |set i: nat | i < watched && counts[i] > old(last[i])|
      ensures logged == LogOf(soFar, soFar + seen)
    {
      ghost var before := last[..watched];
      seen, logged := 0, [];
      for i := 0 to watched
        invariant seen == |Rose(before[..i], counts[..i])| && logged == LogOf(soFar, soFar + seen)
        invariant last[..i] == counts[..i] && last[i..watched] == before[i..]
      {
        var count := counts[i];
        assert last[i] == last[i..watched][0] == before[i];
        RoseGrows(before, counts, i);
        if count > last[i] {
          seen := seen + 1;
          var number := soFar + seen;
          if number <= LOGGED || number % LOGGED == 0 {
            logged := logged + [number];
          }
        }
        last[i] := count;
      }
      assert before[..watched] == before && counts[..watched] == counts;
      assert Rose(before, counts) == set i: nat | i < watched && counts[i] > old(last[i]);
    }

    // Every look of a run, as the cycle loop makes them.
    method WatchRun(looks: seq<seq<real>>) returns (total: nat, log: seq<nat>)
      requires Valid() && forall k :: 0 <= k < |looks| ==> |looks[k]| == watched
      modifies last
      ensures Valid() && total == |Risen(old(last[..watched]), looks)|
      ensures log == LogOf(0, total)
    {
      ghost var first := last[..watched];
      total, log := 0, [];
      assert Risen(first, []) == {};
      for k := 0 to |looks|
        invariant Valid() && last[..watched] == Before(first, looks, k)
        invariant total == |Risen(first, looks[..k])| && log == LogOf(0, total)
      {
        ghost var before := last[..watched];
        label Look:
        var seen, logged := FaultsSeen(looks[k], total);
        assert Rose(before, looks[k]) == set i: nat | i < watched && looks[k][i] > old@Look(last[i]);
        RisenGrows(first, looks, k);
        LogJoins(0, total, total + seen);
        total, log := total + seen, log + logged;
      }
      assert looks[..|looks|] == looks;
    }
  }

  // What a look is compared with: the one before it, or the counts at first.
  function Before(first: seq<real>, looks: seq<seq<real>>, k: nat): seq<real>
    requires k <= |looks|
  {
    if k == 0 then first else looks[k - 1]
  }

  // The faults of a run: each look and port whose count is above the look before.
  function Risen(first: seq<real>, looks: seq<seq<real>>): set<(nat, nat)>
    requires forall k :: 0 <= k < |looks| ==> |looks[k]| == |first|
  {
    set k: nat, i: nat | k < |looks| && i < |first| && looks[k][i] > Before(first, looks, k)[i] :: (k, i)
  }

  lemma RoseGrows(before: seq<real>, now: seq<real>, i: nat)
    requires i < |before| == |now|
    ensures |Rose(before[..i + 1], now[..i + 1])| ==
            |Rose(before[..i], now[..i])| + if now[i] > before[i] then 1 else 0
  {
    assert Rose(before[..i + 1], now[..i + 1]) == Rose(before[..i], now[..i]) + if now[i] > before[i] then {i} else {};
  }

  // The faults of look `k`, among those of the run.
  function Of(k: nat, ports: set<nat>): set<(nat, nat)> {
    set i | i in ports :: (k, i)
  }

  lemma {:induction false} AsManyPairs(k: nat, ports: set<nat>)
    ensures |Of(k, ports)| == |ports|
  {
    if ports == {} {
    } else {
      var i :| i in ports;
      AsManyPairs(k, ports - {i});
      assert Of(k, ports) == Of(k, ports - {i}) + {(k, i)};
    }
  }

  lemma RisenSplits(first: seq<real>, looks: seq<seq<real>>, k: nat)
    requires k < |looks| && forall j :: 0 <= j < |looks| ==> |looks[j]| == |first|
    ensures Risen(first, looks[..k + 1]) == Risen(first, looks[..k]) + Of(k, Rose(Before(first, looks, k), looks[k]))
  {
    assert forall j :: 0 <= j <= k ==> Before(first, looks[..k + 1], j) == Before(first, looks, j);
    assert forall j :: 0 <= j < k ==> Before(first, looks[..k], j) == Before(first, looks, j);
  }

  lemma RisenGrows(first: seq<real>, looks: seq<seq<real>>, k: nat)
    requires k < |looks| && forall j :: 0 <= j < |looks| ==> |looks[j]| == |first|
    ensures |Risen(first, looks[..k + 1])| == |Risen(first, looks[..k])| + |Rose(Before(first, looks, k), looks[k])|
  {
    var rose := Rose(Before(first, looks, k), looks[k]);
    RisenSplits(first, looks, k);
    AsManyPairs(k, rose);
    assert Risen(first, looks[..k]) !! Of(k, rose);
  }

  // A fault is a rise and nothing else: counts that only fall or stay are none.
  lemma NoneRisenIff(first: seq<real>, looks: seq<seq<real>>)
    requires forall k :: 0 <= k < |looks| ==> |looks[k]| == |first|
    ensures (|Risen(first, looks)| == 0 && LogOf(0, |Risen(first, looks)|) == []) <==>
            forall k: nat, i: nat :: k < |looks| && i < |first| ==>
              looks[k][i] <= (if k == 0 then first else looks[k - 1])[i]
  {
    forall k: nat, i: nat | k < |looks| && i < |first| && looks[k][i] > Before(first, looks, k)[i]
      ensures (k, i) in Risen(first, looks)
    {
    }
  }

  lemma {:induction false} LogJoins(a: nat, b: nat, c: nat)
    requires a <= b <= c
    ensures LogOf(a, b) + LogOf(b, c) == LogOf(a, c)
  {
    if b == c {
    } else {
      LogJoins(a, b, c - 1);
    }
  }

  // The log of a whole run is the faults by number: none twice, and none left
  // out but those past the hundredth that are not a hundredth.
  lemma {:induction false} LogIsByNumber(total: nat, number: nat)
    ensures number in LogOf(0, total) <==> 1 <= number <= total && (number <= 100 || number % 100 == 0)
    ensures forall k :: 0 <= k < |LogOf(0, total)| ==> LogOf(0, total)[k] <= total
    ensures forall j, k :: 0 <= j < k < |LogOf(0, total)| ==> LogOf(0, total)[j] < LogOf(0, total)[k]
    ensures |LogOf(0, total)| == if total <= 100 then total else 99 + total / 100
  {
    if total == 0 {
    } else {
      LogIsByNumber(total - 1, number);
    }
  }

  // --- Waiting for a transfer -----------------------------------------------

  function TransferWait(sinceWrite: real, transfer: real): (wait: real)
    // The transfer has had its time after it, and no longer than that is waited.
    ensures wait >= 0.0 && sinceWrite + wait >= transfer
    ensures wait == 0.0 || sinceWrite + wait == transfer
  {
    if sinceWrite < transfer then transfer - sinceWrite else 0.0
  }
}
