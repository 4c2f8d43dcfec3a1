/** Decode modes, their periods, and the grouping of modes that share one (wspr_recorder/decode_mode.py). */
module Modes {

  datatype DecodeMode = W2 | F2 | F5 | F15 | F30 {
    function Period(): int {
      match this
      case W2 => 120
      case F2 => 120
      case F5 => 300
      case F15 => 900
      case F30 => 1800
    }
  }

  predicate IsPeriod(p: int) { p in {120, 300, 900, 1800} }

  /** The distinct periods, in order of first appearance: the keys of `group_modes_by_period`. */
  function PeriodsOf(modes: seq<DecodeMode>): (ps: seq<int>)
    ensures forall p <- ps :: IsPeriod(p)
    ensures forall i, j :: 0 <= i < j < |ps| ==> ps[i] != ps[j]
    ensures forall m <- modes :: m.Period() in ps
    ensures forall p <- ps :: exists m :: m in modes && m.Period() == p
  {
    if modes == [] then []
    else
      var front := PeriodsOf(modes[..|modes| - 1]);
      var p := modes[|modes| - 1].Period();
      assert modes == modes[..|modes| - 1] + [modes[|modes| - 1]];
      if p in front then front else front + [p]
  }

  /** The modes decoded from one window. */
  function ModesWithPeriod(modes: seq<DecodeMode>, p: int): seq<DecodeMode>
  {
    if modes == [] then []
    else
      var last := modes[|modes| - 1];
      ModesWithPeriod(modes[..|modes| - 1], p) + if last.Period() == p then [last] else []
  }

  /** They are the configured modes of that period, each as often as it is configured. */
  lemma {:induction false} ModesWithPeriodCount(modes: seq<DecodeMode>, p: int, m: DecodeMode)
    ensures multiset(ModesWithPeriod(modes, p))[m] == if m.Period() == p then multiset(modes)[m] else 0
    decreases |modes|
  {
    if modes != [] {
      var front, last := modes[..|modes| - 1], modes[|modes| - 1];
      assert modes == front + [last];
      ModesWithPeriodCount(front, p, m);
    }
  }

  /** They keep their order: more modes add theirs at the end. */
  lemma {:induction false} ModesWithPeriodAppend(a: seq<DecodeMode>, b: seq<DecodeMode>, p: int)
    ensures ModesWithPeriod(a + b, p) == ModesWithPeriod(a, p) + ModesWithPeriod(b, p)
    decreases |b|
  {
    if b == [] {
      assert a + b == a;
    } else {
      assert (a + b)[..|a + b| - 1] == a + b[..|b| - 1];
      ModesWithPeriodAppend(a, b[..|b| - 1], p);
    }
  }

  /** More modes add their periods at the end. */
  lemma {:induction false} PeriodsOfAppend(a: seq<DecodeMode>, b: seq<DecodeMode>)
    ensures PeriodsOf(a) <= PeriodsOf(a + b)
    decreases |b|
  {
    if b == [] {
      assert a + b == a;
    } else {
      assert (a + b)[..|a + b| - 1] == a + b[..|b| - 1];
      PeriodsOfAppend(a, b[..|b| - 1]);
    }
  }

  function MaxPeriod(modes: seq<DecodeMode>): (p: int)
    ensures forall m <- modes :: m.Period() <= p
    ensures 120 <= p <= 1800
    ensures if modes == [] then p == 120 else exists m <- modes :: m.Period() == p
  {
    if modes == [] then 120
    else
      var front, last := MaxPeriod(modes[..|modes| - 1]), modes[|modes| - 1].Period();
      assert modes == modes[..|modes| - 1] + [modes[|modes| - 1]];
      if front < last then last else front
  }
}

/**
 * The harvest cursor of one period: which clean-UTC slots a harvest decides, and
 * how.  A window of `n` samples belongs to the slot that starts at UTC second
 * `start`; its offset in the ring is recomputed from the anchor in force.
 */
module Slots {
  import opened Audio
  import opened History
  import opened Rounding
  import Modular

  datatype Outcome = Emitted(offset: nat) | Dropped | Skipped

  datatype Decision = Decision(start: int, outcome: Outcome)

  /** `period_sec * sr`. */
  function WindowSamples(p: int, rate: nat): (n: int)
    ensures 0 <= p ==> 0 <= n
  {
    p * rate
  }

  lemma WindowSamplesFacts(p: int, rate: nat)
    requires 0 < p && p % 2 == 0 && 0 < rate
    ensures 0 < WindowSamples(p, rate) && WindowSamples(p, rate) % 2 == 0
  {
    assert p * rate == 2 * ((p / 2) * rate);
    assert (p / 2) * rate > 0;
  }

  lemma WindowSamplesAdd(p: int, q: int, rate: nat)
    ensures WindowSamples(p + q, rate) == WindowSamples(p, rate) + WindowSamples(q, rate)
  {
  }

  lemma WindowSamplesMonotone(p: int, q: int, rate: nat)
    requires p <= q
    ensures WindowSamples(p, rate) <= WindowSamples(q, rate)
  {
  }

  /**
   * The slot starts at the off-th sample after the anchor sample: as many sample periods
   * as it is later than the anchor, to the nearest and on a tie to the even number.
   */
  predicate PlacedAt(start: int, anchor: real, rate: nat, off: int)
  {
    NearestEven((start as real - anchor) * rate as real, off)
  }

  /** The slot starts more than half a sample period before the anchor sample. */
  predicate BeganBefore(start: int, anchor: real, rate: nat) { (start as real - anchor) * rate as real < -0.5 }

  /** `round((start - anchor) * sr)`. */
  function Offset(start: int, anchor: real, rate: nat): (off: int)
    ensures PlacedAt(start, anchor, rate, off)
  {
    ToSamples(start as real - anchor, rate)
  }

  lemma OffsetIsNegative(start: int, anchor: real, rate: nat)
    ensures Offset(start, anchor, rate) < 0 <==> BeganBefore(start, anchor, rate)
  {
  }

  /** Later slots lie no earlier in the ring. */
  lemma OffsetMonotone(start: int, later: int, anchor: real, rate: nat)
    requires start <= later
    ensures Offset(start, anchor, rate) <= Offset(later, anchor, rate)
  {
    hide ToSamples;
    ToSamplesMonotone(start as real - anchor, later as real - anchor, rate);
  }

  /** One period later is exactly one window later, because the window length is even. */
  lemma OffsetStep(start: int, p: int, anchor: real, rate: nat)
    requires 0 < p && p % 2 == 0 && 0 < rate
    ensures Offset(start + p, anchor, rate) == Offset(start, anchor, rate) + WindowSamples(p, rate)
  {
    var x := start as real - anchor;
    assert (start + p) as real - anchor == x + p as real;
    WindowSamplesFacts(p, rate);
    ToSamplesShift(x, p, rate);
    hide ToSamples;
  }

  lemma ToSamplesShift(x: real, p: int, rate: nat)
    requires WindowSamples(p, rate) % 2 == 0
    ensures ToSamples(x + p as real, rate) == ToSamples(x, rate) + WindowSamples(p, rate)
  {
    ScaledShift(x, p, rate);
    var scaled := (x + p as real) * rate as real;
    assert scaled == x * rate as real + WindowSamples(p, rate) as real;
    RoundShift(x * rate as real, WindowSamples(p, rate));
    hide WindowSamples, RoundHalfEven;
  }

  lemma ScaledShift(x: real, p: int, rate: nat)
    ensures (x + p as real) * rate as real == x * rate as real + WindowSamples(p, rate) as real
  {
    ProductAsReal(p, rate);
  }

  /** An anchor that rises by at most `s` seconds moves an offset down by at most s seconds of audio and one sample. */
  lemma OffsetUnderAnchor(start: int, a: real, a': real, s: int, rate: nat)
    requires a' - a <= s as real
    ensures Offset(start, a', rate) >= Offset(start, a, rate) - WindowSamples(s, rate) - 1
    ensures a' == a ==> Offset(start, a', rate) == Offset(start, a, rate)
  {
    var x, x' := (start as real - a) * rate as real, (start as real - a') * rate as real;
    assert x' >= x - WindowSamples(s, rate) as real by {
      assert x - x' == (a' - a) * rate as real;
      assert (a' - a) * rate as real <= s as real * rate as real;
      assert WindowSamples(s, rate) as real == s as real * rate as real;
    }
  }

  /** The first multiple of the period at or after the anchor lies at a non-negative offset. */
  lemma FirstSlotAhead(anchor: real, start: int, rate: nat)
    requires anchor <= start as real
    ensures Offset(start, anchor, rate) >= 0
  {
    ToSamplesOfZero(rate);
    hide ToSamples;
    ToSamplesMonotone(0.0, start as real - anchor, rate);
  }

  /** `math.ceil(anchor / period) * period`. */
  function FirstSlot(anchor: real, p: int): (s: int)
    requires 0 < p
    ensures s % p == 0 && anchor <= s as real < anchor + p as real
  {
    var x := anchor / p as real;
    var c := Ceil(x);
    Quotient(anchor, p as real);
    ProductAsReal(c, p);
    CeilScaled(x, c as real, p as real, anchor, (c * p) as real);
    MultipleIsWhole(c, p);
    c * p
  }

  lemma ScaleLess(x: real, y: real, p: real)
    requires 0.0 < p
    ensures x < y ==> x * p < y * p
    ensures x <= y ==> x * p <= y * p
  {
  }

  lemma MultipleIsWhole(c: int, p: int)
    requires 0 < p
    ensures (c * p) % p == 0
  {
    var q, r := (c * p) / p, (c * p) % p;
    assert r == (c - q) * p;
    Modular.SmallMultiple(c - q, p);
  }

  /** Scaling the ceiling y of x by q overshoots x * q by less than q. */
  lemma CeilScaled(x: real, y: real, q: real, scaled: real, rounded: real)
    requires 0.0 < q && y - 1.0 < x <= y && scaled == x * q && rounded == y * q
    ensures scaled <= rounded < scaled + q
  {
    var z := y - 1.0;
    var zq := z * q;
    assert zq == rounded - q;
    assert scaled <= rounded by { ScaleLess(x, y, q); }
    assert zq < scaled by { ScaleLess(z, x, q); }
  }

  lemma Quotient(a: real, q: real)
    requires 0.0 < q
    ensures (a / q) * q == a
  {
  }

  lemma ProductAsReal(c: int, p: int)
    ensures (c * p) as real == c as real * p as real
  {
  }

  /** F15 and F30 windows are copied later, by the worker; shorter ones at once. */
  predicate IsDeferred(p: int) { p >= 900 }

  function Decide(start: int, p: int, off: nat, n: int, leading: nat, cap: nat): Decision
  {
    Decision(start, if IsDeferred(p) || Resident(leading, cap, off, n) then Emitted(off) else Dropped)
  }

  /** The decisions of one harvest, from the cursor to the first slot still incomplete. */
  function Harvest(start: int, p: int, anchor: real, rate: nat, leading: nat, cap: nat): seq<Decision>
    requires 0 < p && p % 2 == 0 && 0 < rate
    decreases if leading < Offset(start, anchor, rate) then 0 else leading - Offset(start, anchor, rate) + 1
  {
    var off, n := Offset(start, anchor, rate), WindowSamples(p, rate);
    OffsetStep(start, p, anchor, rate);
    WindowSamplesFacts(p, rate);
    if off < 0 then [Decision(start, Skipped)] + Harvest(start + p, p, anchor, rate, leading, cap)
    else if leading < off + n then []
    else [Decide(start, p, off, n, leading, cap)] + Harvest(start + p, p, anchor, rate, leading, cap)
  }

  /** `ds` decides the slots start, start + p, start + 2p, ... once each and stops before `next`. */
  ghost predicate Walks(ds: seq<Decision>, start: int, p: int, next: int)
  {
    if ds == [] then next == start else ds[0].start == start && Walks(ds[1..], start + p, p, next)
  }

  lemma {:induction false} WalksAppend(a: seq<Decision>, b: seq<Decision>, start: int, mid: int, next: int, p: int)
    requires Walks(a, start, p, mid) && Walks(b, mid, p, next)
    ensures Walks(a + b, start, p, next)
    decreases |a|
  {
    if a == [] {
      assert a + b == b;
    } else {
      assert (a + b)[1..] == a[1..] + b;
      WalksAppend(a[1..], b, start + p, mid, next, p);
    }
  }

  /** The decided slots are multiples of the period from the seed up to the cursor, in increasing order. */
  lemma {:induction false} WalksOverMultiples(ds: seq<Decision>, seed: int, p: int, next: int)
    requires 0 < p && seed % p == 0 && Walks(ds, seed, p, next)
    ensures seed <= next && next % p == 0
    ensures forall d <- ds :: d.start % p == 0 && seed <= d.start < next
    ensures forall i, j :: 0 <= i < j < |ds| ==> ds[i].start < ds[j].start
    decreases |ds|
  {
    if ds != [] {
      NextMultiple(seed, p);
      WalksOverMultiples(ds[1..], seed + p, p, next);
      assert ds == [ds[0]] + ds[1..];
    }
  }

  /** Every multiple of the period from the seed up to the cursor has been decided, and exactly once. */
  lemma {:induction false} DecidedExactlyOnce(ds: seq<Decision>, seed: int, p: int, next: int, slot: int)
    returns (k: nat)
    requires 0 < p && seed % p == 0 && Walks(ds, seed, p, next)
    requires slot % p == 0 && seed <= slot < next
    ensures k < |ds| && ds[k].start == slot
    ensures forall j :: 0 <= j < |ds| && ds[j].start == slot ==> j == k
    decreases |ds|
  {
    WalksOverMultiples(ds, seed, p, next);
    if slot == seed {
      k := 0;
    } else {
      NextMultiple(seed, p);
      MultiplesApart(seed, slot, p);
      k := DecidedExactlyOnce(ds[1..], seed + p, p, next, slot);
      k := k + 1;
    }
  }

  lemma NextMultiple(x: int, p: int)
    requires 0 < p && x % p == 0
    ensures (x + p) % p == 0
  {
    var q, q', r := x / p, (x + p) / p, (x + p) % p;
    assert x == q * p;
    assert x + p == q' * p + r;
    assert r == (q + 1 - q') * p;
    Modular.SmallMultiple(q + 1 - q', p);
  }

  lemma MultiplesApart(x: int, y: int, p: int)
    requires 0 < p && x % p == 0 && y % p == 0 && x < y
    ensures x + p <= y
  {
    var i, j := x / p, y / p;
    assert y - x == (j - i) * p;
    if y < x + p {
      Modular.SmallMultiple(j - i, p);
    }
  }

  /** What one harvest leaves behind: it walks the cursor, and stops at a slot that has not fully arrived. */
  lemma {:induction false} HarvestWalks(start: int, p: int, anchor: real, rate: nat, leading: nat, cap: nat)
    returns (next: int)
    requires 0 < p && p % 2 == 0 && 0 < rate
    ensures Walks(Harvest(start, p, anchor, rate, leading, cap), start, p, next)
    ensures 0 <= Offset(next, anchor, rate)
    ensures leading < Offset(next, anchor, rate) + WindowSamples(p, rate)
    decreases if leading < Offset(start, anchor, rate) then 0 else leading - Offset(start, anchor, rate) + 1
  {
    OffsetStep(start, p, anchor, rate);
    WindowSamplesFacts(p, rate);
    var off := Offset(start, anchor, rate);
    var ds := Harvest(start, p, anchor, rate, leading, cap);
    if 0 <= off && leading < off + WindowSamples(p, rate) {
      next := start;
    } else {
      assert ds[1..] == Harvest(start + p, p, anchor, rate, leading, cap);
      next := HarvestWalks(start + p, p, anchor, rate, leading, cap);
    }
  }

  /** All decisions emit. */
  ghost predicate AllEmitted(ds: seq<Decision>)
  {
    forall d <- ds :: d.outcome.Emitted?
  }

  ghost predicate NoneDropped(ds: seq<Decision>)
  {
    forall d <- ds :: !d.outcome.Dropped?
  }

  /** Emitted windows have fully arrived, lie where the anchor puts them, and end after offset `after`. */
  ghost predicate EmittedWithin(ds: seq<Decision>, n: int, anchor: real, rate: nat, leading: nat, after: int)
  {
    forall d <- ds :: d.outcome.Emitted? ==>
      && d.outcome.offset == Offset(d.start, anchor, rate)
      && after < d.outcome.offset + n <= leading
  }

  lemma {:induction false} HarvestEmits(start: int, p: int, anchor: real, rate: nat, leading: nat, cap: nat, after: int)
    requires 0 < p && p % 2 == 0 && 0 < rate
    requires after < Offset(start, anchor, rate) + WindowSamples(p, rate)
    ensures
      EmittedWithin(Harvest(start, p, anchor, rate, leading, cap), WindowSamples(p, rate), anchor, rate, leading, after)
    decreases if leading < Offset(start, anchor, rate) then 0 else leading - Offset(start, anchor, rate) + 1
  {
    OffsetStep(start, p, anchor, rate);
    WindowSamplesFacts(p, rate);
    var off, n := Offset(start, anchor, rate), WindowSamples(p, rate);
    if off < 0 || off + n <= leading {
      HarvestEmits(start + p, p, anchor, rate, leading, cap, after);
    }
  }

  /** If the cursor's slot starts no earlier than the oldest sample held, nothing is dropped. */
  lemma {:induction false} HarvestDropsNothing(start: int, p: int, anchor: real, rate: nat, leading: nat, cap: nat)
    requires 0 < p && p % 2 == 0 && 0 < rate
    requires Oldest(leading, cap) <= Offset(start, anchor, rate)
    ensures AllEmitted(Harvest(start, p, anchor, rate, leading, cap))
    decreases if leading < Offset(start, anchor, rate) then 0 else leading - Offset(start, anchor, rate) + 1
  {
    OffsetStep(start, p, anchor, rate);
    WindowSamplesFacts(p, rate);
    var off, n := Offset(start, anchor, rate), WindowSamples(p, rate);
    if off + n <= leading {
      HarvestDropsNothing(start + p, p, anchor, rate, leading, cap);
    }
  }

  /** The same when the cursor may have fallen behind the anchor: the slots before it are skipped, not dropped. */
  lemma {:induction false} HarvestDropsNoneBehind(start: int, p: int, anchor: real, rate: nat, leading: nat, cap: nat)
    requires 0 < p && p % 2 == 0 && 0 < rate
    requires leading - cap <= Offset(start, anchor, rate)
    ensures NoneDropped(Harvest(start, p, anchor, rate, leading, cap))
    decreases if leading < Offset(start, anchor, rate) then 0 else leading - Offset(start, anchor, rate) + 1
  {
    OffsetStep(start, p, anchor, rate);
    WindowSamplesFacts(p, rate);
    if Offset(start, anchor, rate) < 0 {
      HarvestDropsNoneBehind(start + p, p, anchor, rate, leading, cap);
    } else {
      HarvestDropsNothing(start, p, anchor, rate, leading, cap);
    }
  }

  /**
   * The most the anchor may rise between two harvests for no slot to be lost: the 600 s
   * headroom less one minute and one second.
   */
  const MAX_RISE: int := 539

  /**
   * Between two harvests at most one minute of audio arrives.  With a ring at least
   * 600 s longer than the window, a harvest drops nothing unless the anchor rose by
   * more than MAX_RISE seconds; if it did not rise at all, every slot it decides is
   * emitted, at most one minute after its end.
   */
  lemma HarvestAfterHarvest(start: int, p: int, before: real, anchor: real, rate: nat, earlier: nat, leading: nat,
                            cap: nat)
    requires 0 < p && p % 2 == 0 && 0 < rate
    requires 0 <= Offset(start, before, rate)
    requires earlier < Offset(start, before, rate) + WindowSamples(p, rate)
    requires earlier <= leading <= earlier + WindowSamples(60, rate)
    requires WindowSamples(p, rate) + WindowSamples(600, rate) <= cap
    ensures anchor - before <= MAX_RISE as real ==> NoneDropped(Harvest(start, p, anchor, rate, leading, cap))
    ensures anchor == before ==>
      && AllEmitted(Harvest(start, p, anchor, rate, leading, cap))
      && EmittedWithin(Harvest(start, p, anchor, rate, leading, cap), WindowSamples(p, rate), anchor, rate, leading,
                       earlier)
  {
    hide Offset, Harvest;
    if anchor - before <= MAX_RISE as real {
      OffsetUnderAnchor(start, before, anchor, MAX_RISE, rate);
      assert WindowSamples(600, rate) == WindowSamples(MAX_RISE, rate) + WindowSamples(60, rate) + rate;
      HarvestDropsNoneBehind(start, p, anchor, rate, leading, cap);
    }
    if anchor == before {
      HarvestDropsNothing(start, p, anchor, rate, leading, cap);
      HarvestEmits(start, p, anchor, rate, leading, cap, earlier);
    }
  }

  // ------------------------------------------- what the decisions amount to

  function EmittedStarts(ds: seq<Decision>): seq<int>
  {
    if ds == [] then []
    else
      var last := ds[|ds| - 1];
      EmittedStarts(ds[..|ds| - 1]) + if last.outcome.Emitted? then [last.start] else []
  }

  function DroppedStarts(ds: seq<Decision>): seq<int>
  {
    if ds == [] then []
    else
      var last := ds[|ds| - 1];
      DroppedStarts(ds[..|ds| - 1]) + if last.outcome.Dropped? then [last.start] else []
  }

  lemma {:induction false} StartsAppend(a: seq<Decision>, b: seq<Decision>)
    ensures EmittedStarts(a + b) == EmittedStarts(a) + EmittedStarts(b)
    ensures DroppedStarts(a + b) == DroppedStarts(a) + DroppedStarts(b)
    decreases |b|
  {
    if b == [] {
      assert a + b == a;
    } else {
      assert (a + b)[..|a + b| - 1] == a + b[..|b| - 1];
      StartsAppend(a, b[..|b| - 1]);
    }
  }

  predicate Increasing(s: seq<int>)
  {
    forall i, j :: 0 <= i < j < |s| ==> s[i] < s[j]
  }

  /** Emitted starts strictly increase, because decided starts do. */
  lemma {:induction false} EmittedIncrease(ds: seq<Decision>, top: int)
    requires forall i, j :: 0 <= i < j < |ds| ==> ds[i].start < ds[j].start
    requires forall d <- ds :: d.start < top
    ensures forall e <- EmittedStarts(ds) :: e < top
    ensures Increasing(EmittedStarts(ds))
    decreases |ds|
  {
    if ds != [] {
      var k := |ds| - 1;
      EmittedIncrease(ds[..k], ds[k].start);
      IncreasingSnoc(EmittedStarts(ds[..k]), ds[k].start);
      assert EmittedStarts(ds[..k]) + [] == EmittedStarts(ds[..k]);
    }
  }

  lemma IncreasingSnoc(s: seq<int>, x: int)
    requires Increasing(s) && forall e <- s :: e < x
    ensures Increasing(s + [x])
  {
    assert forall i :: 0 <= i < |s| ==> s[i] in s;
  }

  // ---------------------------------------------------------------- tiling

  /** The m consecutive windows of period q from `start`, laid end to end. */
  function Tiles(h: seq<Sample>, start: int, q: int, m: nat, anchor: real, rate: nat): seq<Sample>
    requires 0 < q && q % 2 == 0 && 0 < rate
    requires 0 <= Offset(start, anchor, rate)
    requires Offset(start, anchor, rate) + Modular.Minutes(m, WindowSamples(q, rate)) <= |h|
    decreases m
  {
    if m == 0 then []
    else
      var off, n := Offset(start, anchor, rate), WindowSamples(q, rate);
      OffsetStep(start, q, anchor, rate);
      h[off..off + n] + Tiles(h, start + q, q, m - 1, anchor, rate)
  }

  /** Under one anchor the windows of a period tile the stream, so m of them are one long window. */
  lemma {:induction false} TilesAreOneWindow(h: seq<Sample>, start: int, q: int, m: nat, anchor: real, rate: nat)
    requires 0 < q && q % 2 == 0 && 0 < rate
    requires 0 <= Offset(start, anchor, rate)
    requires Offset(start, anchor, rate) + Modular.Minutes(m, WindowSamples(q, rate)) <= |h|
    ensures var off := Offset(start, anchor, rate);
      Tiles(h, start, q, m, anchor, rate) == h[off..off + Modular.Minutes(m, WindowSamples(q, rate))]
    decreases m
  {
    if m > 0 {
      hide WindowSamples, Offset;
      OffsetStep(start, q, anchor, rate);
      WindowSamplesFacts(q, rate);
      TilesAreOneWindow(h, start + q, q, m - 1, anchor, rate);
    }
  }

  /** An F30 window is its 15 W2 windows end to end; an F15 window is its 3 F5 windows. */
  lemma LongWindowsAreShortWindows(h: seq<Sample>, start: int, anchor: real, rate: nat)
    requires 0 < rate && 0 <= Offset(start, anchor, rate)
    ensures var off := Offset(start, anchor, rate);
      && Modular.Minutes(15, WindowSamples(120, rate)) == WindowSamples(1800, rate)
      && Modular.Minutes(3, WindowSamples(300, rate)) == WindowSamples(900, rate)
      && (off + WindowSamples(1800, rate) <= |h| ==>
           Tiles(h, start, 120, 15, anchor, rate) == h[off..off + WindowSamples(1800, rate)])
      && (off + WindowSamples(900, rate) <= |h| ==>
           Tiles(h, start, 300, 3, anchor, rate) == h[off..off + WindowSamples(900, rate)])
  {
    hide Offset, Tiles;
    Modular.MinutesIsProduct(15, WindowSamples(120, rate));
    Modular.MinutesIsProduct(3, WindowSamples(300, rate));
    var off := Offset(start, anchor, rate);
    if off + WindowSamples(1800, rate) <= |h| {
      TilesAreOneWindow(h, start, 120, 15, anchor, rate);
    }
    if off + WindowSamples(900, rate) <= |h| {
      TilesAreOneWindow(h, start, 300, 3, anchor, rate);
    }
  }
}
