/**
 `rtapi_argv_split` (`shim/rtapi_shim.c`): `strtok` over a copy of the string,
 which it cuts by writing NULs, into a table of pointers, here offsets into the
 copy. The tokens are the maximal runs without a separator.
 */
module ArgvSplit {
  import opened Options

  const NUL: char := '\0'

  predicate IsSeparator(c: char) {
    c == ' ' || c == '\t' || c == '\n' || c == '\r'
  }

  // A C string has no NUL before its end.
  ghost predicate IsText(s: string) {
    forall i :: 0 <= i < |s| ==> s[i] != NUL
  }

  // --- What a token is ------------------------------------------------------

  ghost predicate IsToken(s: string, b: nat, e: nat) {
    && b < e <= |s|
    && (forall i :: b <= i < e ==> !IsSeparator(s[i]))
    && (b > 0 ==> IsSeparator(s[b - 1]))
    && (e < |s| ==> IsSeparator(s[e]))
  }

  // Where a token starting at or after `from` starts, or the end.
  function Skip(s: string, from: nat): (b: nat)
    requires from <= |s|
    ensures from <= b <= |s| && (b < |s| ==> !IsSeparator(s[b]))
    ensures forall i :: from <= i < b ==> IsSeparator(s[i])
    decreases |s| - from
  {
    if from < |s| && IsSeparator(s[from]) then Skip(s, from + 1) else from
  }

  function EndOf(s: string, b: nat): (e: nat)
    requires b <= |s|
    ensures b <= e <= |s| && (e < |s| ==> IsSeparator(s[e]))
    ensures forall i :: b <= i < e ==> !IsSeparator(s[i])
    decreases |s| - b
  {
    if b < |s| && !IsSeparator(s[b]) then EndOf(s, b + 1) else b
  }

  // What a pointer into the copy reads: up to the NUL.
  function ReadFrom(copy: seq<char>, p: nat): string
    decreases |copy| - p
  {
    if p >= |copy| || copy[p] == NUL then "" else [copy[p]] + ReadFrom(copy, p + 1)
  }

  lemma {:induction false} ReadsRun(copy: seq<char>, p: nat, e: nat)
    requires p <= e < |copy| && copy[e] == NUL
    requires forall i :: p <= i < e ==> copy[i] != NUL
    ensures ReadFrom(copy, p) == copy[p..e]
    decreases e - p
  {
    if p == e {
    } else {
      ReadsRun(copy, p + 1, e);
      assert copy[p..e] == [copy[p]] + copy[p + 1..e];
    }
  }

  // --- The tokens -----------------------------------------------------------

  datatype Token = Token(b: nat, e: nat)

  // Where `strtok` looks next after a token: past the separator it cut, if any.
  function Past(s: string, e: nat): (next: nat)
    requires e <= |s|
    ensures e <= next <= |s| && (e < |s| ==> next == e + 1)
  {
    if e < |s| then e + 1 else e
  }

  function Tokens(s: string, from: nat): seq<Token>
    requires from <= |s|
    decreases |s| - from
  {
    var b := Skip(s, from);
    if b == |s| then []
    else
      var e := EndOf(s, b);
      [Token(b, e)] + Tokens(s, Past(s, e))
  }

  // They are in order, apart, and at most one for every two characters.
  lemma {:induction false} TokensInOrder(s: string, from: nat)
    requires from <= |s|
    ensures var ts := Tokens(s, from);
            && (forall k :: 0 <= k < |ts| ==> from <= ts[k].b < ts[k].e <= |s|)
            && (forall j, k :: 0 <= j < k < |ts| ==> ts[j].e < ts[k].b)
            && 2 * |ts| <= |s| - from + 1
    decreases |s| - from
  {
    var b := Skip(s, from);
    if b == |s| {
    } else {
      TokensInOrder(s, Past(s, EndOf(s, b)));
    }
  }

  // A run at or after `from` is the first one there or lies past it.
  lemma RunIsFirstOrPast(s: string, from: nat, t: Token)
    requires from <= t.b && IsToken(s, t.b, t.e)
    ensures var b := Skip(s, from);
            b < |s| && (t == Token(b, EndOf(s, b)) || Past(s, EndOf(s, b)) <= t.b)
  {
    var b := Skip(s, from);
    var e := EndOf(s, b);
    assert !IsSeparator(s[t.b]);
    assert t.b == b ==> t.e == e;
  }

  // Exactly the maximal runs are tokens.
  lemma {:induction false} TokensAreRuns(s: string, from: nat, t: Token)
    requires from <= |s| && (from > 0 ==> IsSeparator(s[from - 1]) || from == |s|)
    ensures t in Tokens(s, from) <==> from <= t.b && IsToken(s, t.b, t.e)
    decreases |s| - from
  {
    var b := Skip(s, from);
    if b < |s| {
      var e := EndOf(s, b);
      var later := Tokens(s, Past(s, e));
      TokensAreRuns(s, Past(s, e), t);
      assert t in Tokens(s, from) <==> t == Token(b, e) || t in later;
      assert IsToken(s, b, e);
    }
    if from <= t.b && IsToken(s, t.b, t.e) {
      RunIsFirstOrPast(s, from, t);
    }
  }

  // --- Cutting the copy -----------------------------------------------------

  // From `at` the copy is still the string; before it, each of these tokens can be read.
  ghost predicate Cut(s: string, copy: seq<char>, ts: seq<Token>, at: nat) {
    && at <= |s| && |copy| == |s| + 1 && copy[|s|] == NUL
    && (forall i :: at <= i < |s| ==> copy[i] == s[i])
    && forall k :: 0 <= k < |ts| ==> IsCut(s, copy, ts[k]) && Past(s, ts[k].e) <= at
  }

  // The tokens found so far are the first ones.
  ghost predicate Scanned(s: string, ts: seq<Token>, at: nat) {
    at <= |s| && Tokens(s, 0) == ts + Tokens(s, at)
  }

  lemma ScanOneMore(s: string, ts: seq<Token>, at: nat)
    requires Scanned(s, ts, at) && Skip(s, at) < |s|
    ensures var b := Skip(s, at); var e := EndOf(s, b); Scanned(s, ts + [Token(b, e)], Past(s, e))
  {
    var b := Skip(s, at);
    var e := EndOf(s, b);
    Associate(ts, [Token(b, e)], Tokens(s, Past(s, e)));
  }

  ghost predicate IsCut(s: string, copy: seq<char>, t: Token) {
    && t.b < t.e <= |s| < |copy| && copy[t.e] == NUL
    && forall i :: t.b <= i < t.e ==> copy[i] == s[i]
  }

  ghost predicate Reads(s: string, copy: seq<char>, t: Token) {
    t.b < t.e <= |s| && ReadFrom(copy, t.b) == s[t.b..t.e]
  }

  lemma CutReads(s: string, copy: seq<char>, t: Token)
    requires IsText(s) && IsCut(s, copy, t)
    ensures Reads(s, copy, t)
  {
    ReadsRun(copy, t.b, t.e);
  }

  // Writing the NUL after the next token leaves the earlier ones as they are.
  lemma CutOneMore(s: string, copy: seq<char>, ts: seq<Token>, at: nat)
    requires Cut(s, copy, ts, at) && Skip(s, at) < |s|
    ensures var b := Skip(s, at); var e := EndOf(s, b);
            Cut(s, copy[e := NUL], ts + [Token(b, e)], Past(s, e))
  {
    var b := Skip(s, at);
    var e := EndOf(s, b);
    var cut, all := copy[e := NUL], ts + [Token(b, e)];
    forall k | 0 <= k < |all| ensures IsCut(s, cut, all[k]) && Past(s, all[k].e) <= Past(s, e) {
      if k < |ts| {
        assert IsCut(s, copy, ts[k]);
      }
    }
  }

  function Found(s: string, token: Option<nat>): seq<Token>
    requires token.Some? ==> token.value <= |s|
  {
    if token.None? then [] else [Token(token.value, EndOf(s, token.value))]
  }

  // `strspn` and `strcspn` over the separators.
  method SkipSeparators(copy: array<char>, at: nat, ghost s: string, ghost ts: seq<Token>) returns (p: nat)
    requires IsText(s) && Cut(s, copy[..], ts, at)
    ensures p == Skip(s, at) && (copy[p] == NUL <==> p == |s|)
  {
    p := at;
    while copy[p] != NUL && IsSeparator(copy[p])
      invariant at <= p <= |s| && Skip(s, p) == Skip(s, at)
      decreases |s| - p
    {
      p := p + 1;
    }
  }

  method SkipToken(copy: array<char>, at: nat, ghost s: string, ghost ts: seq<Token>) returns (p: nat)
    requires IsText(s) && Cut(s, copy[..], ts, at)
    ensures p == EndOf(s, at) && (copy[p] == NUL <==> p == |s|)
  {
    p := at;
    while copy[p] != NUL && !IsSeparator(copy[p])
      invariant at <= p <= |s| && EndOf(s, p) == EndOf(s, at)
      decreases |s| - p
    {
      p := p + 1;
    }
  }

  // The library's `strtok` from its saved place, on what is still uncut.
  method Strtok(copy: array<char>, at: nat, ghost s: string, ghost ts: seq<Token>)
    returns (token: Option<nat>, next: nat)
    requires IsText(s) && Cut(s, copy[..], ts, at) && Scanned(s, ts, at)
    modifies copy
    ensures at <= next <= |s| && (token.Some? ==> at < next && token.value < |s|) && (token.None? ==> next == |s|)
    ensures Scanned(s, ts + Found(s, token), next)
    ensures Cut(s, copy[..], ts + Found(s, token), next)
  {
    var b := SkipSeparators(copy, at, s, ts);
    if copy[b] == NUL {
      assert ts + Found(s, None) == ts;
      return None, b;
    }
    CutOneMore(s, copy[..], ts, at);
    ScanOneMore(s, ts, at);
    var e := SkipToken(copy, b, s, ts);
    ghost var cut := copy[..][e := NUL];
    token := Some(b);
    if copy[e] == NUL {
      next := e;
    } else {
      copy[e] := NUL;
      next := e + 1;
    }
    assert copy[..] == cut;
  }

  lemma Associate<T>(a: seq<T>, b: seq<T>, c: seq<T>)
    ensures a + b + c == a + (b + c)
  {}

  lemma AllRead(s: string, copy: seq<char>, ts: seq<Token>, at: nat)
    requires IsText(s) && Cut(s, copy, ts, at)
    ensures forall k :: 0 <= k < |ts| ==> Reads(s, copy, ts[k])
  {
    forall k | 0 <= k < |ts| ensures Reads(s, copy, ts[k]) {
      CutReads(s, copy, ts[k]);
    }
  }

  lemma ScanFits(s: string, ts: seq<Token>, at: nat)
    requires Scanned(s, ts, at)
    ensures |ts| <= |Tokens(s, 0)| <= |s| / 2 + 1
    ensures at == |s| ==> ts == Tokens(s, 0)
  {
    TokensInOrder(s, 0);
  }

  // The table's first `n` places hold where the first `n` tokens start.
  ghost predicate Stored(argv: seq<Option<nat>>, ts: seq<Token>, n: nat) {
    n <= |ts| && n <= |argv| && forall k :: 0 <= k < n ==> argv[k] == Some(ts[k].b)
  }

  lemma StoredStays(argv: seq<Option<nat>>, ts: seq<Token>, n: nat, more: seq<Token>)
    requires Stored(argv, ts, n)
    ensures Stored(argv, ts + more, n)
  {}

  method Store(argv: array<Option<nat>>, argc: nat, token: Option<nat>, ghost ts: seq<Token>)
    requires argc < argv.Length && argc < |ts| && token == Some(ts[argc].b)
    requires Stored(argv[..], ts, argc)
    modifies argv
    ensures Stored(argv[..], ts, argc + 1)
  {
    argv[argc] := token;
  }

  // `strdup`.
  method Duplicate(s: string) returns (copy: array<char>)
    ensures fresh(copy) && Cut(s, copy[..], [], 0)
  {
    copy := new char[|s| + 1](i requires 0 <= i <= |s| => if i < |s| then s[i] else NUL);
  }

  // The loop's state: `token` is the last one found and the only one not stored.
  ghost predicate Progress(s: string, copy: seq<char>, argv: seq<Option<nat>>, found: seq<Token>,
                           argc: nat, token: Option<nat>, at: nat)
  {
    && Scanned(s, found, at) && Cut(s, copy, found, at)
    && Stored(argv, found, argc)
    && if token.None? then at == |s| && |found| == argc else |found| == argc + 1 && token == Some(found[argc].b)
  }

  lemma Begun(s: string, copy: seq<char>, argv: seq<Option<nat>>, token: Option<nat>, at: nat)
    requires if token.Some? then token.value < |s| else at == |s|
    requires Scanned(s, [] + Found(s, token), at) && Cut(s, copy, [] + Found(s, token), at)
    ensures Progress(s, copy, argv, [] + Found(s, token), 0, token, at)
  {}

  method Step(argv: array<Option<nat>>, argc: nat, copy: array<char>, token: Option<nat>, at: nat,
              ghost s: string, ghost found: seq<Token>)
    returns (another: Option<nat>, next: nat, ghost more: seq<Token>)
    requires IsText(s) && token.Some? && argv.Length == |s| / 2 + 2
    requires Progress(s, copy[..], argv[..], found, argc, token, at)
    modifies argv, copy
    ensures at <= next <= |s| && (another.Some? ==> at < next)
    ensures Progress(s, copy[..], argv[..], more, argc + 1, another, next)
  {
    ScanFits(s, found, at);
    Store(argv, argc, token, found);
    ghost var table := argv[..];
    another, next := Strtok(copy, at, s, found);
    assert argv[..] == table;
    StoredStays(table, found, argc + 1, Found(s, another));
    more := found + Found(s, another);
  }

  // The tokens in order, each readable up to the NUL after it, and a null in the place after the last.
  ghost predicate IsSplit(s: string, copy: seq<char>, argv: seq<Option<nat>>, argc: nat) {
    var ts := Tokens(s, 0);
    && argc == |ts| <= |s| / 2 + 1 && argc < |argv| && argv[argc] == None
    && forall k :: 0 <= k < argc ==> argv[k] == Some(ts[k].b) && Reads(s, copy, ts[k])
  }

  lemma Finished(s: string, copy: seq<char>, argv: seq<Option<nat>>, found: seq<Token>, argc: nat, at: nat)
    requires IsText(s) && |argv| == |s| / 2 + 2 && Progress(s, copy, argv, found, argc, None, at)
    ensures argc < |argv| && IsSplit(s, copy, argv[argc := None], argc)
  {
    ScanFits(s, found, at);
    AllRead(s, copy, found, at);
  }

  // The table, never too small, and the copy it points into.
  method Split(s: string) returns (argv: array<Option<nat>>, argc: nat, copy: array<char>)
    requires IsText(s)
    ensures fresh(argv) && fresh(copy) && argv.Length == |s| / 2 + 2
    ensures IsSplit(s, copy[..], argv[..], argc)
  {
    argv := new Option<nat>[|s| / 2 + 2](_ => None);
    copy := Duplicate(s);
    argc := 0;
    var token, at := Strtok(copy, 0, s, []);
    ghost var found := [] + Found(s, token);
    Begun(s, copy[..], argv[..], token, at);
    while token.Some?
      invariant Progress(s, copy[..], argv[..], found, argc, token, at)
      decreases |s| - at, token.Some?
    {
      token, at, found := Step(argv, argc, copy, token, at, s, found);
      argc := argc + 1;
    }
    Finished(s, copy[..], argv[..], found, argc, at);
    ghost var table := argv[..][argc := None];
    argv[argc] := None;
    assert argv[..] == table;
  }

  // The first token is the start of the copy exactly when no separator leads:
  // when it is not, what `rtapi_argv_free` frees is not what was allocated.
  lemma FirstIsStartIff(s: string)
    requires |Tokens(s, 0)| > 0
    ensures Tokens(s, 0)[0].b == 0 <==> s[0] != ' ' && s[0] != '\t' && s[0] != '\n' && s[0] != '\r'
  {}

  lemma LeadingSpaceMissesStart()
    ensures |Tokens(" a", 0)| > 0 && Tokens(" a", 0)[0].b == 1
  {
    var s := " a";
    assert Skip(s, 0) == 1;
  }
}
