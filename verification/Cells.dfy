/**
 A HAL cell: eight bytes that a pin's type says how to read, and the
 conversions between them and the doubles of the channel (`shim/hal_shim.c`).
 Doubles are reals here. A conversion C leaves undefined, a value outside the
 64-bit range, is outside the functions' domain.
 */
module Cells {
  import opened Words

  datatype Kind = Bool | Sint | Uint | Real

  // The union's members: `u` and `s` are one word, `r` is the double.
  datatype Content = Word(word: int) | Double(r: real)

  predicate Holds(kind: Kind, c: Content) {
    match kind
    case Bool | Uint => c.Word? && 0 <= c.word < TWO64
    case Sint => c.Word? && -TWO63 <= c.word < TWO63
    case Real => c.Double?
  }

  // A cast to an integer type: toward zero.
  function Truncate(v: real): int {
    if v >= 0.0 then v.Floor else -(-v).Floor
  }

  function Get(kind: Kind, c: Content): real
    requires Holds(kind, c)
  {
    match kind
    case Bool => if c.word != 0 then 1.0 else 0.0
    case Sint | Uint => c.word as real
    case Real => c.r
  }

  // Whether `hm2_shim_cell_set` stays within what C defines.
  predicate Settable(kind: Kind, v: real) {
    match kind
    case Bool | Real => true
    case Sint => -TWO63 <= Truncate(v) < TWO63
    case Uint => v < 0.0 || Truncate(v) < TWO64
  }

  function Set(kind: Kind, v: real): (c: Content)
    requires Settable(kind, v)
    ensures Holds(kind, c)
  {
    match kind
    case Bool => Word(if v != 0.0 then 1 else 0)
    case Sint => Word(Truncate(v))
    case Uint => Word(if v < 0.0 then 0 else Truncate(v))
    case Real => Double(v)
  }

  // What a `pin.` line's value must be for a pin of this type.
  predicate Fits(kind: Kind, v: real) {
    match kind
    case Bool => v == 0.0 || v == 1.0
    case Sint => v == Truncate(v) as real && -2147483648.0 <= v <= 2147483647.0
    case Uint => v == Truncate(v) as real && 0.0 <= v <= 4294967295.0
    case Real => true
  }

  // Of the 32-bit values, exactly those that fit are read back as they were set.
  lemma FitsIffReadBack(kind: Kind, v: real)
    requires kind.Sint? ==> -2147483648.0 <= v <= 2147483647.0
    requires kind.Uint? ==> v <= 4294967295.0
    ensures Settable(kind, v)
    ensures Fits(kind, v) <==> Get(kind, Set(kind, v)) == v
  {
    if kind.Sint? {
      TruncateIsMonotone(-2147483648.0, v);
      TruncateIsMonotone(v, 2147483647.0);
    } else if kind.Uint? {
      TruncateIsMonotone(v, 4294967295.0);
    }
  }

  // What a cell holds of a value: a bit whether it is not zero, a double the value
  // itself, and an integer the nearest one toward zero, with nothing below zero
  // in an unsigned one.
  lemma SetIsTowardZero(kind: Kind, v: real)
    requires Settable(kind, v)
    ensures kind.Bool? ==> Set(kind, v) == Word(if v == 0.0 then 0 else 1)
    ensures kind.Real? ==> Set(kind, v) == Double(v)
    ensures (kind.Sint? || kind.Uint?) && v >= 0.0 ==> Set(kind, v).word as real <= v < Set(kind, v).word as real + 1.0
    ensures kind.Sint? && v <= 0.0 ==> v <= Set(kind, v).word as real < v + 1.0
    ensures kind.Uint? && v <= 0.0 ==> Set(kind, v) == Word(0)
  {}

  // Which values those are.
  lemma SettableIff(kind: Kind, v: real)
    ensures Settable(kind, v) <==>
            && (kind.Sint? ==> -9223372036854775809.0 < v < 9223372036854775808.0)
            && (kind.Uint? ==> v < 18446744073709551616.0)
  {
    if kind.Sint? && v < 0.0 {
      assert -v - 1.0 < (-v).Floor as real <= -v;
    }
  }

  lemma TruncateIsMonotone(a: real, b: real)
    requires a <= b
    ensures Truncate(a) <= Truncate(b)
  {}

  // Writing what was read changes nothing, except that a bit becomes 0 or 1.
  lemma GetThenSet(kind: Kind, c: Content)
    requires Holds(kind, c)
    ensures Settable(kind, Get(kind, c))
    ensures Get(kind, Set(kind, Get(kind, c))) == Get(kind, c)
    ensures Set(kind, Get(kind, c)) == c <==> (kind.Bool? ==> c.word <= 1)
  {
    if kind.Sint? || kind.Uint? {
      WholeIsItself(c.word);
    }
  }

  lemma WholeIsItself(n: int)
    ensures Truncate(n as real) == n
  {
    if n < 0 {
      assert -(n as real) == (-n) as real;
    }
  }
}
