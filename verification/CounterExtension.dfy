/**
 `hal_extend_counter`: an n-bit hardware counter extended to 64 bits by
 shifting it against the top of the word. Words are the integers of their
 range, and every truncation the C code relies on is written out.
 */
module CounterExtension {
  import opened Words

  type U64 = x: int | 0 <= x < TWO64
  type S64 = x: int | -TWO63 <= x < TWO63

  function Pow2(k: nat): (r: nat)
    ensures r > 0
  {
    if k == 0 then 1 else 2 * Pow2(k - 1)
  }

  // The conversions to `rtapi_u64` and `rtapi_s64`: reduce modulo 2^64.
  function ToU64(x: int): U64 { x % TWO64 }

  function ToS64(x: int): S64 {
    var u := x % TWO64;
    if u < TWO63 then u else u - TWO64
  }

  function ShiftLeft(x: U64, k: nat): U64 { (x * Pow2(k)) % TWO64 }

  // The arithmetic right shift the static assertion insists on: it floors.
  function ShiftRight(x: S64, k: nat): int { x / Pow2(k) }

  function ExtendCounter(counter: S64, newlow: S64, nbits: nat): S64
    requires 1 <= nbits <= 64
  {
    var nshift := 64 - nbits;
    var oldlowShifted := ShiftLeft(ToU64(counter), nshift);
    var newlowShifted := ShiftLeft(ToU64(newlow), nshift);
    var diffShifted := ToS64(newlowShifted - oldlowShifted);
    ToS64(ToU64(counter) + ShiftRight(diffShifted, nshift))
  }

  // The steps an n-bit counter can tell apart: [-2^(n-1), 2^(n-1) - 1].
  ghost predicate IsStep(d: int, nbits: nat)
    requires nbits >= 1
  {
    -(Pow2(nbits - 1) as int) <= d < Pow2(nbits - 1)
  }

  ghost predicate Congruent(a: int, b: int, m: nat)
    requires m > 0
  {
    (a - b) % m == 0
  }

  // The one step congruent to `x` modulo 2^nbits.
  function SignedResidue(x: int, nbits: nat): (d: int)
    requires nbits >= 1
    ensures IsStep(d, nbits)
  {
    var m := x % Pow2(nbits);
    if m < Pow2(nbits - 1) then m else m - Pow2(nbits)
  }

  // --- Arithmetic -----------------------------------------------------------

  lemma MulAtLeast(m: int, k: int)
    requires m > 0
    ensures k >= 1 ==> m * k >= m
    ensures k <= -1 ==> m * k <= -m
  {
    if k >= 1 {
      assert m * (k - 1) >= 0;
    } else if k <= -1 {
      assert m * (-1 - k) >= 0;
    }
  }

  lemma MulLess(a: int, b: int, s: int)
    requires s > 0
    ensures a < b <==> a * s < b * s
  {
    MulAtLeast(s, b - a);
  }

  lemma ModIs(a: int, m: int, q: int, r: int)
    requires 0 <= r < m && a == m * q + r
    ensures a % m == r
  {
    var q', r' := a / m, a % m;
    assert m * (q' - q) == r - r';
    MulAtLeast(m, q' - q);
  }

  lemma CongruentBy(a: int, b: int, m: nat, k: int)
    requires m > 0 && a - b == m * k
    ensures Congruent(a, b, m)
  {
    ModIs(a - b, m, k, 0);
  }

  lemma CongruentFactor(a: int, b: int, m: nat) returns (k: int)
    requires m > 0 && Congruent(a, b, m)
    ensures a - b == m * k
  {
    k := (a - b) / m;
  }

  lemma CongruentDifference(a: int, b: int, c: int, d: int, m: nat)
    requires m > 0 && Congruent(a, b, m) && Congruent(c, d, m)
    ensures Congruent(a - c, b - d, m)
  {
    var i := CongruentFactor(a, b, m);
    var j := CongruentFactor(c, d, m);
    assert (a - c) - (b - d) == m * (i - j);
    CongruentBy(a - c, b - d, m, i - j);
  }

  lemma CongruentFlip(a: int, b: int, m: nat)
    requires m > 0 && Congruent(a, b, m)
    ensures Congruent(b, a, m)
  {
    var k := CongruentFactor(a, b, m);
    assert b - a == m * (-k);
    CongruentBy(b, a, m, -k);
  }

  lemma CongruentChain(a: int, b: int, c: int, m: nat)
    requires m > 0 && Congruent(a, b, m) && Congruent(b, c, m)
    ensures Congruent(a, c, m)
  {
    var i := CongruentFactor(a, b, m);
    var j := CongruentFactor(b, c, m);
    assert a - c == m * (i + j);
    CongruentBy(a, c, m, i + j);
  }

  // A residue is congruent to what it was taken of, also of a multiple modulus.
  lemma ModCongruent(x: int, p: nat, s: nat)
    requires p > 0 && s > 0
    ensures p * s > 0 && Congruent(x % (p * s), x, p)
  {
    MulAtLeast(p, s);
    var q := x / (p * s);
    assert x % (p * s) - x == p * (s * (-q)) by {
      assert x == (p * s) * q + x % (p * s);
      assert (p * s) * q == p * (s * q);
      assert p * (s * (-q)) == -(p * (s * q));
    }
    CongruentBy(x % (p * s), x, p, s * (-q));
  }

  lemma CongruentMod(a: int, b: int, m: nat)
    requires m > 0
    ensures Congruent(a, b, m) <==> a % m == b % m
  {
    if Congruent(a, b, m) {
      var k := CongruentFactor(a, b, m);
      assert a == m * (b / m + k) + b % m;
      ModIs(a, m, b / m + k, b % m);
    }
    if a % m == b % m {
      assert a - b == m * (a / m - b / m);
      CongruentBy(a, b, m, a / m - b / m);
    }
  }

  lemma ScaledMod(x: int, p: nat, s: nat)
    requires p > 0 && s > 0
    ensures p * s > 0 && (x * s) % (p * s) == (x % p) * s
  {
    MulAtLeast(p, s);
    var q, r := x / p, x % p;
    assert x * s == (p * s) * q + r * s by {
      assert x == p * q + r;
      assert (p * q + r) * s == (p * q) * s + r * s;
      assert (p * q) * s == (p * s) * q;
    }
    MulLess(r, p, s);
    assert r * s >= 0;
    ModIs(x * s, p * s, q, r * s);
  }

  lemma {:induction false} Pow2Sum(a: nat, b: nat)
    ensures Pow2(a + b) == Pow2(a) * Pow2(b)
  {
    if a == 0 {
    } else {
      Pow2Sum(a - 1, b);
      assert a + b - 1 == (a - 1) + b;
      assert Pow2(a + b) == 2 * (Pow2(a - 1) * Pow2(b));
    }
  }

  lemma Pow2Half()
    ensures Pow2(32) == 0x1_0000_0000
  {
    assert Pow2(8) == 0x100;
    Pow2Sum(8, 8);
    Pow2Sum(16, 16);
  }

  lemma Pow2Word()
    ensures Pow2(63) == TWO63 && Pow2(64) == TWO64
  {
    Pow2Half();
    Pow2Sum(32, 32);
    assert Pow2(64) == 2 * Pow2(63);
  }

  // The three powers one width involves: 2^(n-1), 2^n and the shift's 2^(64-n).
  lemma Widths(nbits: nat) returns (h: nat, p: nat, s: nat)
    requires 1 <= nbits <= 64
    ensures h == Pow2(nbits - 1) && p == Pow2(nbits) && s == Pow2(64 - nbits)
    ensures h > 0 && p == 2 * h && s > 0 && p * s == TWO64 && h * s == TWO63
  {
    h, p, s := Pow2(nbits - 1), Pow2(nbits), Pow2(64 - nbits);
    Pow2Word();
    Pow2Sum(nbits, 64 - nbits);
    Pow2Sum(nbits - 1, 64 - nbits);
  }

  // --- The difference, shifted up and back ----------------------------------

  // Shifting two words up and subtracting them leaves only their difference.
  lemma ShiftedDifference(a: int, b: int, p: nat, s: nat)
    requires p > 0 && s > 0 && p * s == TWO64
    ensures ((a * s) % TWO64 - (b * s) % TWO64) % TWO64 == ((a - b) % p) * s
  {
    ScaledMod(a, p, s);
    ScaledMod(b, p, s);
    var m := a % p - b % p;
    assert (a % p) * s - (b % p) * s == m * s;
    ScaledMod(m, p, s);
    ModCongruent(a, p, 1);
    ModCongruent(b, p, 1);
    CongruentDifference(a % p, a, b % p, b, p);
    CongruentMod(m, a - b, p);
  }

  // Read as a signed word and shifted back, it is the signed residue.
  lemma ShiftedBack(shifted: int, m: int, h: nat, p: nat, s: nat)
    requires h > 0 && p == 2 * h && s > 0 && p * s == TWO64 && h * s == TWO63
    requires 0 <= m < p && shifted % TWO64 == m * s
    ensures ToS64(shifted) / s == if m < h then m else m - p
  {
    var d := if m < h then m else m - p;
    MulLess(m, h, s);
    assert (m - p) * s == m * s - p * s;
    assert ToS64(shifted) == d * s;
    var q, r := (d * s) / s, (d * s) % s;
    assert s * (d - q) == r;
    MulAtLeast(s, d - q);
  }

  lemma WordDifference(a: int, b: int, p: nat, s: nat)
    requires p > 0 && s > 0 && p * s == TWO64
    ensures (ToU64(a) - ToU64(b)) % p == (a - b) % p
  {
    ModCongruent(a, p, s);
    ModCongruent(b, p, s);
    CongruentDifference(ToU64(a), a, ToU64(b), b, p);
    CongruentMod(ToU64(a) - ToU64(b), a - b, p);
  }

  lemma WordSum(a: int, d: int)
    ensures ToS64(ToU64(a) + d) == ToS64(a + d)
  {
    ModCongruent(a, TWO64, 1);
    CongruentDifference(ToU64(a), a, -d, -d, TWO64);
    ToS64Equal(ToU64(a) + d, a + d);
  }

  // The difference of the two shifted words, shifted back.
  lemma ShiftsGiveResidue(counter: S64, newlow: S64, nbits: nat)
    requires 1 <= nbits <= 64
    ensures var shifted := ShiftLeft(ToU64(newlow), 64 - nbits) - ShiftLeft(ToU64(counter), 64 - nbits);
            ShiftRight(ToS64(shifted), 64 - nbits) == SignedResidue(newlow - counter, nbits)
  {
    var h, p, s := Widths(nbits);
    var a, b := ToU64(newlow), ToU64(counter);
    var m := (newlow - counter) % p;
    ShiftedDifference(a, b, p, s);
    WordDifference(newlow, counter, p, s);
    ShiftedBack((a * s) % TWO64 - (b * s) % TWO64, m, h, p, s);
  }

  // The shift form adds the signed residue of the difference, for every width.
  lemma ExtendAddsResidue(counter: S64, newlow: S64, nbits: nat)
    requires 1 <= nbits <= 64
    ensures ExtendCounter(counter, newlow, nbits)
         == ToS64(counter + SignedResidue(newlow - counter, nbits))
  {
    ShiftsGiveResidue(counter, newlow, nbits);
    WordSum(counter, SignedResidue(newlow - counter, nbits));
  }

  lemma LowerResidue(x: int, p: nat)
    requires p > 0
    ensures Congruent(x, x % p, p) && Congruent(x, x % p - p, p)
  {
    var q := x / p;
    assert p * (q + 1) == p * q + p;
    CongruentBy(x, x % p, p, q);
    CongruentBy(x, x % p - p, p, q + 1);
  }

  lemma SignedResidueCongruent(x: int, nbits: nat)
    requires nbits >= 1
    ensures Congruent(x, SignedResidue(x, nbits), Pow2(nbits))
  {
    LowerResidue(x, Pow2(nbits));
  }

  // That residue is the only difference of the range congruent to the reading.
  lemma ResidueIsUnique(x: int, d: int, nbits: nat)
    requires nbits >= 1
    ensures IsStep(d, nbits) && Congruent(x, d, Pow2(nbits)) <==> d == SignedResidue(x, nbits)
  {
    var p, e := Pow2(nbits), SignedResidue(x, nbits);
    SignedResidueCongruent(x, nbits);
    if IsStep(d, nbits) && Congruent(x, d, p) {
      CongruentDifference(x, d, x, e, p);
      var k := CongruentFactor(0, d - e, p);
      MulAtLeast(p, k);
    }
  }

  lemma ExtendAdds(counter: S64, newlow: S64, nbits: nat, d: int)
    requires 1 <= nbits <= 64 && d == SignedResidue(newlow - counter, nbits)
    ensures ExtendCounter(counter, newlow, nbits) == ToS64(counter + d)
  {
    ExtendAddsResidue(counter, newlow, nbits);
  }

  lemma StepIsResidue(x: int, d: int, nbits: nat)
    requires nbits >= 1 && IsStep(d, nbits) && Congruent(x, d, Pow2(nbits))
    ensures d == SignedResidue(x, nbits)
  {
    ResidueIsUnique(x, d, nbits);
  }

  // One call in the caller's terms: whatever step the counter took, if it is in
  // range and the reading agrees with it, that step is what is added.
  lemma ExtendFollowsStep(counter: S64, newlow: S64, nbits: nat, d: int)
    requires 1 <= nbits <= 64
    requires IsStep(d, nbits) && Congruent(newlow - counter, d, Pow2(nbits))
    ensures ExtendCounter(counter, newlow, nbits) == ToS64(counter + d)
  {
    var x := newlow - counter;
    StepIsResidue(x, d, nbits);
    ExtendAdds(counter, newlow, nbits, d);
  }

  // --- Runs -----------------------------------------------------------------

  lemma ToS64IsResidue(x: int)
    ensures ToS64(x) == SignedResidue(x, 64)
  {
    Pow2Word();
  }

  lemma ToS64Equal(a: int, b: int)
    ensures ToS64(a) == ToS64(b) <==> Congruent(a, b, TWO64)
  {
    CongruentMod(a, b, TWO64);
  }

  lemma CongruentOfMultiple(a: int, b: int, p: nat, s: nat)
    requires p > 0 && s > 0 && p * s > 0 && Congruent(a, b, p * s)
    ensures Congruent(a, b, p)
  {
    var k := CongruentFactor(a, b, p * s);
    assert (p * s) * k == p * (s * k);
    CongruentBy(a, b, p, s * k);
  }

  // Congruent words are congruent in any width.
  lemma CongruentInWidth(a: int, b: int, nbits: nat)
    requires 1 <= nbits <= 64 && Congruent(a, b, TWO64)
    ensures Congruent(a, b, Pow2(nbits))
  {
    var h, p, s := Widths(nbits);
    CongruentOfMultiple(a, b, p, s);
  }

  lemma ToS64Congruent(x: int, nbits: nat)
    requires 1 <= nbits <= 64
    ensures Congruent(ToS64(x), x, Pow2(nbits)) && Congruent(ToS64(x), x, TWO64)
  {
    LowerResidue(x, TWO64);
    CongruentFlip(x, ToS64(x), TWO64);
    CongruentInWidth(ToS64(x), x, nbits);
  }

  // The residue of the true movement, however the two words represent it.
  lemma ResidueOfMovement(from: int, to: int, low: S64, nbits: nat)
    requires 1 <= nbits <= 64
    requires Congruent(low, to, Pow2(nbits))
    ensures SignedResidue(low - ToS64(from), nbits) == SignedResidue(to - from, nbits)
  {
    var m := Pow2(nbits);
    var e := SignedResidue(low - ToS64(from), nbits);
    ToS64Congruent(from, nbits);
    CongruentDifference(low, to, ToS64(from), from, m);
    SignedResidueCongruent(low - ToS64(from), nbits);
    CongruentFlip(low - ToS64(from), to - from, m);
    CongruentChain(to - from, low - ToS64(from), e, m);
    ResidueIsUnique(to - from, e, nbits);
  }

  lemma SameWord(word: int, from: int, to: int, d: int)
    requires Congruent(word, from, TWO64)
    ensures Congruent(word + d, to, TWO64) <==> Congruent(to - from, d, TWO64)
  {
    var k := CongruentFactor(word, from, TWO64);
    if Congruent(word + d, to, TWO64) {
      var j := CongruentFactor(word + d, to, TWO64);
      CongruentBy(to - from, d, TWO64, k - j);
    }
    if Congruent(to - from, d, TWO64) {
      var j := CongruentFactor(to - from, d, TWO64);
      CongruentBy(word + d, to, TWO64, k - j);
    }
  }

  lemma StepIsWord(d: int, nbits: nat)
    requires 1 <= nbits <= 64 && IsStep(d, nbits)
    ensures IsStep(d, 64)
  {
    var h, p, s := Widths(nbits);
    Pow2Word();
    assert h * s >= h by {
      MulAtLeast(h, s);
    }
  }

  // The n-bit residue is the whole word's difference when that is a step.
  lemma ResidueIsWordDifference(x: int, nbits: nat)
    requires 1 <= nbits <= 64
    ensures Congruent(x, SignedResidue(x, nbits), TWO64) <==> IsStep(ToS64(x), nbits)
  {
    var d := SignedResidue(x, nbits);
    Pow2Word();
    ToS64IsResidue(x);
    ResidueIsUnique(x, d, 64);
    StepIsWord(d, nbits);
    if IsStep(ToS64(x), nbits) {
      ToS64Congruent(x, nbits);
      CongruentFlip(ToS64(x), x, Pow2(nbits));
      ResidueIsUnique(x, ToS64(x), nbits);
    }
  }

  // One reading keeps the extended counter on the true position exactly when
  // the movement, taken modulo 2^64, is a step of the range.
  lemma TracksIffStep(from: int, to: int, low: S64, nbits: nat)
    requires 1 <= nbits <= 64
    requires Congruent(low, to, Pow2(nbits))
    ensures ExtendCounter(ToS64(from), low, nbits) == ToS64(to) <==> IsStep(ToS64(to - from), nbits)
  {
    var word, d := ToS64(from), SignedResidue(to - from, nbits);
    assert ExtendCounter(word, low, nbits) == ToS64(word + d) by {
      ResidueOfMovement(from, to, low, nbits);
      ExtendAddsResidue(word, low, nbits);
    }
    ToS64Equal(word + d, to);
    assert Congruent(word, from, TWO64) by {
      ToS64Congruent(from, nbits);
    }
    SameWord(word, from, to, d);
    ResidueIsWordDifference(to - from, nbits);
  }

  // The extended counter after a series of readings, each fed the last result.
  function Follow(start: S64, lows: seq<S64>, nbits: nat): S64
    requires 1 <= nbits <= 64
  {
    if lows == [] then start
    else ExtendCounter(Follow(start, lows[..|lows| - 1], nbits), lows[|lows| - 1], nbits)
  }

  ghost predicate Reads(positions: seq<int>, lows: seq<S64>, nbits: nat) {
    && 1 <= nbits
    && |positions| == |lows| + 1
    && forall i :: 0 <= i < |lows| ==> Congruent(lows[i], positions[i + 1], Pow2(nbits))
  }

  // Over any run whose steps stay in range, the result is the true position
  // modulo 2^64, wherever the position went.
  lemma {:induction false} FollowIsTruePosition(positions: seq<int>, lows: seq<S64>, nbits: nat)
    requires 1 <= nbits <= 64 && Reads(positions, lows, nbits)
    requires forall i :: 0 <= i < |lows| ==> IsStep(ToS64(positions[i + 1] - positions[i]), nbits)
    ensures Follow(ToS64(positions[0]), lows, nbits) == ToS64(positions[|lows|])
  {
    if lows == [] {
    } else {
      var n := |lows| - 1;
      FollowIsTruePosition(positions[..n + 1], lows[..n], nbits);
      TracksIffStep(positions[n], positions[n + 1], lows[n], nbits);
    }
  }
}
