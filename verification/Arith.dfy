// Integer and rounding facts shared by the recorder modules.

/** Python's `round(x)`: nearest integer, ties to the even one. */
module Rounding {

  /** No integer is nearer to x than r, and on a tie r is even. */
  predicate NearestEven(x: real, r: int)
  {
    && -0.5 <= x - r as real <= 0.5
    && (x - r as real == 0.5 || x - r as real == -0.5 ==> r % 2 == 0)
  }

  lemma NearestEvenIsUnique(x: real, r: int, r': int)
    requires NearestEven(x, r) && NearestEven(x, r')
    ensures r == r'
  {
    assert -1.0 <= r as real - r' as real <= 1.0;
  }

  function RoundHalfEven(x: real): (r: int)
    ensures NearestEven(x, r)
  {
    var f := x.Floor;
    var frac := x - f as real;
    if frac < 0.5 then f
    else if frac > 0.5 then f + 1
    else if f % 2 == 0 then f
    else f + 1
  }

  /** Shifting by an even integer commutes with rounding. */
  lemma RoundShift(x: real, m: int)
    requires m % 2 == 0
    ensures RoundHalfEven(x + m as real) == RoundHalfEven(x) + m
  {
    FloorShift(x, m);
  }

  lemma FloorShift(x: real, m: int)
    ensures (x + m as real).Floor == x.Floor + m
  {
    var y := x + m as real;
    assert (x.Floor + m) as real == x.Floor as real + m as real;
    assert (x.Floor + m) as real <= y < (x.Floor + m) as real + 1.0;
  }

  lemma RoundMonotone(x: real, y: real)
    requires x <= y
    ensures RoundHalfEven(x) <= RoundHalfEven(y)
  {
    if x.Floor == y.Floor {
    } else {
      assert x.Floor < y.Floor;
      assert x.Floor + 1 <= y.Floor;
    }
  }

  lemma RoundOfInteger(m: int)
    ensures RoundHalfEven(m as real) == m
  {
    assert (m as real).Floor == m;
  }

  /** `round(seconds * sample_rate)`: an interval of time as a whole number of samples. */
  function ToSamples(seconds: real, rate: nat): (n: int)
    ensures NearestEven(seconds * rate as real, n)
  {
    RoundHalfEven(seconds * rate as real)
  }

  lemma ScaleMonotone(x: real, y: real, r: real)
    requires x <= y && 0.0 <= r
    ensures x * r <= y * r
  {
    if x < y && 0.0 < r {
      assert x * r < y * r;
    }
  }

  lemma ToSamplesMonotone(x: real, y: real, rate: nat)
    requires x <= y
    ensures ToSamples(x, rate) <= ToSamples(y, rate)
  {
    var a, b := x * rate as real, y * rate as real;
    assert a <= b by { ScaleMonotone(x, y, rate as real); }
    RoundMonotone(a, b);
  }

  lemma ToSamplesOfZero(rate: nat)
    ensures ToSamples(0.0, rate) == 0
  {
    RoundOfInteger(0);
  }

  lemma ToSamplesBounds(seconds: real, top: int, rate: nat)
    requires 0.0 <= seconds <= top as real
    ensures 0 <= ToSamples(seconds, rate) <= top * rate
  {
    var y := seconds * rate as real;
    assert 0.0 <= y <= top as real * rate as real;
    assert top as real * rate as real == (top * rate) as real;
    RoundMonotone(0.0, y);
    RoundOfInteger(0);
    RoundMonotone(y, (top * rate) as real);
    RoundOfInteger(top * rate);
  }

  /** Python's `math.ceil`. */
  function Ceil(x: real): (c: int)
    ensures c as real - 1.0 < x <= c as real
  {
    if x == x.Floor as real then x.Floor else x.Floor + 1
  }
}

/**
 * Circular-buffer arithmetic without multiplication: `Cell` is `%` and `Minutes` is
 * `*`, each defined by repeated steps so that proofs about them stay linear.
 */
module Modular {

  /** `i % cap`, lap by lap. */
  function Cell(i: nat, cap: nat): (c: nat)
    requires 0 < cap
    ensures c < cap
  {
    if i < cap then i else Cell(i - cap, cap)
  }

  lemma {:induction false} CellIsMod(i: nat, cap: nat)
    requires 0 < cap
    ensures Cell(i, cap) == i % cap
  {
    if i >= cap {
      CellIsMod(i - cap, cap);
      ModLap(i, cap);
    }
  }

  lemma ModLap(i: nat, cap: nat)
    requires 0 < cap <= i
    ensures (i - cap) % cap == i % cap
  {
    var q, r := (i - cap) / cap, (i - cap) % cap;
    var q', r' := i / cap, i % cap;
    assert i - cap == q * cap + r;
    assert i == q' * cap + r';
    calc {
      r - r';
      q' * cap - q * cap - cap;
      (q' - q - 1) * cap;
    }
    SmallMultiple(q' - q - 1, cap);
  }

  /** A multiple of m that is smaller than m in size is zero. */
  lemma SmallMultiple(k: int, m: int)
    requires m > 0 && -m < k * m < m
    ensures k == 0
  {
  }

  /** Stepping d cells forward from a position, at most one lap. */
  lemma {:induction false} CellStep(a: nat, d: nat, cap: nat)
    requires 0 < cap && Cell(a, cap) + d < 2 * cap
    ensures Cell(a + d, cap) == if Cell(a, cap) + d < cap then Cell(a, cap) + d else Cell(a, cap) + d - cap
  {
    if a >= cap {
      CellStep(a - cap, d, cap);
      assert (a + d) - cap == (a - cap) + d;
    }
  }

  lemma {:induction false} CellShift(a: nat, d: nat, cap: nat)
    requires 0 < cap
    ensures Cell(Cell(a, cap) + d, cap) == Cell(a + d, cap)
  {
    if a >= cap {
      CellShift(a - cap, d, cap);
      assert (a + d) - cap == (a - cap) + d;
    }
  }

  /** Two positions less than one lap apart share a cell only when they are equal. */
  lemma {:induction false} CellInjective(a: nat, b: nat, cap: nat)
    requires 0 < cap && a < b + cap && b < a + cap && Cell(a, cap) == Cell(b, cap)
    ensures a == b
    decreases a
  {
    if a >= cap && b >= cap {
      CellInjective(a - cap, b - cap, cap);
    }
  }

  /** The samples in k minutes of `spm` samples: `k * spm`. */
  function Minutes(k: nat, spm: nat): nat
  {
    if k == 0 then 0 else Minutes(k - 1, spm) + spm
  }

  lemma {:induction false} MinutesIsProduct(k: nat, spm: nat)
    ensures Minutes(k, spm) == k * spm
  {
    if k > 0 {
      MinutesIsProduct(k - 1, spm);
      assert k * spm == (k - 1) * spm + spm;
    }
  }

  lemma {:induction false} MinutesAdd(a: nat, b: nat, spm: nat)
    ensures Minutes(a + b, spm) == Minutes(a, spm) + Minutes(b, spm)
  {
    if b > 0 {
      MinutesAdd(a, b - 1, spm);
      assert a + b - 1 == a + (b - 1);
    }
  }
}

/** 32-bit RTP timestamps (section 5.1 of RFC 3550). */
module Rtp {

  const WRAP: int := 0x1_0000_0000
  const HALF: int := 0x8000_0000

  type Timestamp = t: int | 0 <= t < WRAP

  /** `x & 0xFFFFFFFF`. */
  function Wrap(x: int): Timestamp { x % WRAP }

  lemma WrapAdd(x: int, d: int)
    ensures Wrap(Wrap(x) + d) == Wrap(x + d)
  {
  }
}
