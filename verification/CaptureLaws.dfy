/** What holds of an epoch at every moment, and that everything that can happen keeps it. */
module CaptureLaws {
  import opened Audio
  import opened History
  import opened Modes
  import opened Slots
  import opened Requests
  import opened CaptureModel
  import opened CaptureGrid
  import Ring
  import Rtp
  import Sync

  // ------------------------------------------------------------- the grid

  /** Every reading is radiod's value at that index of the tape, or the frozen label. */
  ghost predicate ReadFromTape(c: Config, l: Label, g: Grid)
  {
    forall i :: 0 <= i < |g.readings| ==> g.readings[i] == c.anchorTape(g.firstRead + i).GetOr(l.wallclock as real)
  }

  /** What was sent and decided, explained by the readings. */
  ghost predicate GridLaw(c: Config, t: Tank, l: Label, g: Grid)
  {
    && ReadFromTape(c, l, g)
    && LedgerOk(c.Periods(), g)
    && AllRight(c, t, l.rtp, g) && Punctual(t, g)
    && AllJustified(c, t, g)
    && (g.drops != [] ==> Rose(g.readings, MAX_RISE))
    && (!Moved(g.readings) ==> Steady(c, t, g))
  }

  /** Every cursor waits on a slot that had not fully arrived at the last harvest. */
  ghost predicate Awaits(c: Config, g: Grid)
  {
    g.cursors != map[] ==>
      && g.anchor in g.readings
      && forall p {:trigger AwaitsIn(c, g, p)} :: p in c.Periods() ==> AwaitsIn(c, g, p)
  }

  ghost predicate AwaitsIn(c: Config, g: Grid, p: int)
  {
    p in g.cursors && Waiting(g.cursors[p].next, p, g.anchor, c.rate, g.leading)
  }

  /** Nothing read, nothing decided, nothing sent. */
  predicate Untouched(g: Grid)
  {
    g.readings == [] && g.cursors == map[] && g.out == [] && g.moments == [] && g.drops == [] && g.leading == 0
  }

  lemma UntouchedLaw(c: Config, t: Tank, l: Label, g: Grid)
    requires Untouched(g)
    ensures GridLaw(c, t, l, g) && Awaits(c, g)
  {
  }

  /** Another reading explains no less. */
  lemma ReadKeepsGrid(c: Config, t: Tank, l: Label, g: Grid)
    requires GridLaw(c, t, l, g)
    ensures GridLaw(c, t, l, g.(readings := g.readings + [NextReading(c, l, g)]))
    ensures Awaits(c, g) ==> Awaits(c, g.(readings := g.readings + [NextReading(c, l, g)]))
  {
    hide Rose, Moved, RightWindow, JustifiedBy, FirstSlot, Steady, CursorOk, Waiting, ModesWithPeriod, Offset,
         WindowSamples;
    var a := NextReading(c, l, g);
    var g' := g.(readings := g.readings + [a]);
    ReadingsGrow(g.readings, a);
    assert forall x <- g.readings :: x in g'.readings;
    if Awaits(c, g) {
      forall p | p in c.Periods() && g.cursors != map[] ensures AwaitsIn(c, g', p) { assert AwaitsIn(c, g, p); }
    }
    assert Steady(c, t, g) == Steady(c, t, g') by { SteadyOf(c, t, g, g'); }
    assert LedgerOk(c.Periods(), g') by {
      forall p | p in c.Periods() ensures LedgerFor(g', p) { assert LedgerFor(g, p); }
    }
    forall k | 0 <= k < |g.out| ensures RightRequest(c, t, l.rtp, g'.readings, g.out[k], g.moments[k]) {
      assert RightRequest(c, t, l.rtp, g.readings, g.out[k], g.moments[k]);
    }
    JustifiedGrows(c, t, t, g, g');
  }

  lemma SteadyOf(c: Config, t: Tank, g: Grid, g': Grid)
    requires g'.cursors == g.cursors && g'.out == g.out && g'.moments == g.moments
    ensures Steady(c, t, g) == Steady(c, t, g')
  {
  }

  /** More audio and more readings justify no less. */
  lemma JustifiedGrows(c: Config, t: Tank, t': Tank, g: Grid, g': Grid)
    requires AllJustified(c, t, g) && g'.cursors == g.cursors && t'.cap == t.cap && |t.h| <= |t'.h|
    requires g.readings <= g'.readings
    ensures AllJustified(c, t', g')
  {
    hide JustifiedBy, FirstSlot;
    assert forall x <- g.readings :: x in g'.readings;
    forall p | p in g.cursors ensures JustifiedCursor(c, t', p, g.cursors[p], g'.readings) {
      var q := g.cursors[p];
      assert JustifiedCursor(c, t, p, q, g.readings);
      forall i | 0 <= i < |q.decided| ensures JustifiedDecision(c, t', p, q.decided[i], q.moments[i], g'.readings) {
        assert JustifiedDecision(c, t, p, q.decided[i], q.moments[i], g.readings);
      }
    }
  }

  /** More audio leaves every request right. */
  lemma PourKeepsGrid(c: Config, t: Tank, t': Tank, l: Label, g: Grid)
    requires GridLaw(c, t, l, g)
    requires t'.ring == t.ring && t'.cap == t.cap && Extends(t.h, t.log, t'.h, t'.log)
    ensures GridLaw(c, t', l, g)
  {
    hide Rose, Moved, RightWindow, JustifiedBy, FirstSlot, LedgerOk, Extends, ModesWithPeriod, AllEmitted, Offset,
         WindowSamples;
    assert t.h <= t'.h by { GrowsBy(t.h, t.log, t'.h, t'.log); }
    JustifiedGrows(c, t, t', g, g);
    forall k | 0 <= k < |g.out| ensures RightRequest(c, t', l.rtp, g.readings, g.out[k], g.moments[k]) {
      assert RightRequest(c, t, l.rtp, g.readings, g.out[k], g.moments[k]);
      var a := InForce(g.moments[k], g.readings);
      RightWindowPersists(g.out[k], t.h, t.log, t'.h, t'.log, t.ring, l.rtp, c.rate, a);
    }
    if Steady(c, t, g) {
      forall k | 0 <= k < |g.out| ensures Margin(c, t', g.out[k], g.moments[k].leading) {
        assert Margin(c, t, g.out[k], g.moments[k].leading);
      }
    }
  }

  lemma GrowsBy(h: seq<Sample>, log: seq<LoggedGap>, h': seq<Sample>, log': seq<LoggedGap>)
    requires Extends(h, log, h', log')
    ensures h <= h'
  {
  }

  // --------------------------------------------------------- one harvest

  /**
   * After i periods of a harvest under `a`: those wait on new audio, the others as the
   * last harvest, under `before`, left them.
   */
  ghost predicate Midround(c: Config, t: Tank, l: Label, g0: Grid, g: Grid, i: nat, a: real, before: real, earlier: nat)
    requires c.Valid() && i <= |c.Periods()|
  {
    && g.readings == g0.readings && g.firstRead == g0.firstRead && g.anchor == g0.anchor && g.leading == g0.leading
    && LedgerOk(c.Periods(), g) && AllRight(c, t, l.rtp, g) && Punctual(t, g) && AllJustified(c, t, g)
    && Arrived(c, t, g, i, a)
    && Pending(c, g, i, a, before, earlier)
    && (!RoseBetween(before, a, MAX_RISE) ==> g.drops == g0.drops)
    && (a == before && Steady(c, t, g0) ==> Steady(c, t, g))
  }

  ghost predicate Arrived(c: Config, t: Tank, g: Grid, i: nat, a: real)
    requires i <= |c.Periods()|
  {
    forall j :: 0 <= j < i ==> ArrivedAt(c, t, g, c.Periods()[j], a)
  }

  ghost predicate ArrivedAt(c: Config, t: Tank, g: Grid, p: int, a: real)
  {
    p in g.cursors && Waiting(g.cursors[p].next, p, a, c.rate, |t.h|)
  }

  ghost predicate Pending(c: Config, g: Grid, i: nat, a: real, before: real, earlier: nat)
    requires c.Valid() && i <= |c.Periods()|
  {
    forall j :: i <= j < |c.Periods()| ==> PendingAt(c, g, c.Periods()[j], a, before, earlier)
  }

  ghost predicate PendingAt(c: Config, g: Grid, p: int, a: real, before: real, earlier: nat)
  {
    0 < p && Waiting(SlotAfter(g.cursors, p, a), p, before, c.rate, earlier)
  }

  lemma PeriodsAre(c: Config, i: nat)
    requires i < |c.Periods()|
    ensures var p := c.Periods()[i];
      && p in c.Periods() && IsPeriod(p)
      && forall j :: 0 <= j < |c.Periods()| && j != i ==> c.Periods()[j] != p
  {
  }

  /** A harvest of one period leaves every other cursor where it was. */
  lemma HarvestTouchesOne(c: Config, t: Tank, rtp: Rtp.Timestamp, g: Grid, p: int, a: real)
    requires c.Valid() && IsPeriod(p)
    ensures var g' := HarvestPeriod(c, t, rtp, g, p, a);
      && g'.cursors == g.cursors[p := g'.cursors[p]] && p in g'.cursors
      && g'.readings == g.readings && g'.firstRead == g.firstRead && g'.anchor == g.anchor && g'.leading == g.leading
      && Waiting(g'.cursors[p].next, p, a, c.rate, |t.h|)
  {
    hide Waiting, Walks, FirstSlot, RequestsFor, DropsFor, Harvest, CursorAfter;
    DecisionsWalk(c, t, g, p, a);
  }

  /** The reading taken last. */
  predicate LastReading(g: Grid, a: real) { g.readings != [] && g.readings[|g.readings| - 1] == a }

  lemma RoundStep(c: Config, t: Tank, l: Label, g0: Grid, g: Grid, i: nat, a: real, before: real, earlier: nat)
    requires c.Valid() && i < |c.Periods()| && Midround(c, t, l, g0, g, i, a, before, earlier)
    requires LastReading(g, a) && g.leading == |t.h| && Roomy(c.Periods(), c.rate, t.cap)
    requires earlier <= |t.h| <= earlier + WindowSamples(60, c.rate)
    ensures c.Periods()[i] in c.Periods() && IsPeriod(c.Periods()[i])
    ensures Midround(c, t, l, g0, HarvestPeriod(c, t, l.rtp, g, c.Periods()[i], a), i + 1, a, before, earlier)
  {
    hide HarvestPeriod, LedgerOk, AllRight, AllJustified, Punctual, Steady, Waiting, RoseBetween, Roomy, WindowSamples,
         PeriodsOf, FirstSlot;
    var p := c.Periods()[i];
    PeriodsAre(c, i);
    assert PendingAt(c, g, p, a, before, earlier);
    PeriodKeepsLedger(c, t, l.rtp, g, p, a);
    PeriodKeepsRight(c, t, l.rtp, g, p, a);
    PeriodKeepsPunctual(c, t, l.rtp, g, p, a);
    PeriodKeepsJustified(c, t, l.rtp, g, p, a);
    PeriodOutcome(c, t, l.rtp, g, p, a, before, earlier);
    HarvestTouchesOne(c, t, l.rtp, g, p, a);
    var g' := HarvestPeriod(c, t, l.rtp, g, p, a);
    forall j | 0 <= j < i + 1 ensures ArrivedAt(c, t, g', c.Periods()[j], a) {
      assert j < i ==> ArrivedAt(c, t, g, c.Periods()[j], a);
    }
    forall j | i + 1 <= j < |c.Periods()| ensures PendingAt(c, g', c.Periods()[j], a, before, earlier) {
      assert PendingAt(c, g, c.Periods()[j], a, before, earlier);
    }
  }

  lemma {:induction false} RoundKeeps(c: Config, t: Tank, l: Label, g: Grid, i: nat, a: real, before: real,
                                      earlier: nat)
    requires c.Valid() && i <= |c.Periods()| && Midround(c, t, l, g, g, 0, a, before, earlier)
    requires LastReading(g, a) && g.leading == |t.h| && Roomy(c.Periods(), c.rate, t.cap)
    requires earlier <= |t.h| <= earlier + WindowSamples(60, c.rate)
    ensures Midround(c, t, l, g, HarvestUpTo(c, t, l.rtp, g, i, a), i, a, before, earlier)
    decreases i
  {
    hide Midround, HarvestPeriod, Roomy, WindowSamples, PeriodsOf;
    if i > 0 {
      RoundKeeps(c, t, l, g, i - 1, a, before, earlier);
      MidroundReads(c, t, l, g, HarvestUpTo(c, t, l.rtp, g, i - 1, a), i - 1, a, before, earlier);
      RoundStep(c, t, l, g, HarvestUpTo(c, t, l.rtp, g, i - 1, a), i - 1, a, before, earlier);
    }
  }

  lemma MidroundReads(c: Config, t: Tank, l: Label, g0: Grid, g: Grid, i: nat, a: real, before: real, earlier: nat)
    requires c.Valid() && i <= |c.Periods()| && Midround(c, t, l, g0, g, i, a, before, earlier)
    ensures g.readings == g0.readings && g.leading == g0.leading
  {
  }

  /** The anchor and leading edge a harvest is measured against. */
  function Before(g: Grid, a: real): real { if g.cursors == map[] then a else g.anchor }

  function Earlier(g: Grid): nat { if g.cursors == map[] then 0 else g.leading }

  /** No slot a harvest starts from was complete at the previous harvest. */
  lemma AllPending(c: Config, g: Grid, a: real)
    requires c.Valid() && Awaits(c, g)
    ensures Pending(c, g, 0, a, Before(g, a), Earlier(g))
  {
    hide Offset, WindowSamples, PeriodsOf;
    forall j | 0 <= j < |c.Periods()| ensures PendingAt(c, g, c.Periods()[j], a, Before(g, a), Earlier(g)) {
      var p := c.Periods()[j];
      PeriodsAre(c, j);
      if g.cursors == map[] {
        FirstSlotAhead(a, FirstSlot(a, p), c.rate);
        WindowSamplesFacts(p, c.rate);
      } else {
        assert AwaitsIn(c, g, p);
      }
    }
  }

  /** A harvest at most a minute of audio after the last keeps the law, and leaves every period waiting on new audio. */
  lemma HarvestKeepsGrid(c: Config, t: Tank, l: Label, g: Grid)
    requires c.Valid() && GridLaw(c, t, l, g) && Awaits(c, g) && Roomy(c.Periods(), c.rate, t.cap)
    requires Earlier(g) <= |t.h| <= Earlier(g) + WindowSamples(60, c.rate)
    ensures var g' := HarvestGrid(c, t, l.rtp, g, NextReading(c, l, g));
      && GridLaw(c, t, l, g') && Awaits(c, g') && g'.cursors != map[]
      && g'.leading == |t.h| && g'.anchor == NextReading(c, l, g) && g'.firstRead == g.firstRead
      && g'.readings == g.readings + [g'.anchor]
  {
    hide LedgerOk, AllRight, AllJustified, Punctual, Steady, Waiting, Roomy, WindowSamples, PeriodsOf, Rose, Moved,
         HarvestUpTo, FirstSlot;
    LeadingIsBehind(c, t, l, g);
    var a, before, earlier := NextReading(c, l, g), Before(g, NextReading(c, l, g)), Earlier(g);
    AllPending(c, g, a);
    ReadKeepsGrid(c, t, l, g);
    var g0 := g.(readings := g.readings + [a], anchor := a, leading := |t.h|);
    RenamedGrid(c, t, l, g.(readings := g.readings + [a]), a, |t.h|);
    assert Pending(c, g0, 0, a, before, earlier);
    RoundKeeps(c, t, l, g0, |c.Periods()|, a, before, earlier);
    ReadingsGrow(g.readings, a);
    RoundEnds(c, t, l, g, g0, HarvestGrid(c, t, l.rtp, g, a), a, before, earlier);
  }

  /** The law does not speak of the last anchor and leading edge. */
  lemma RenamedGrid(c: Config, t: Tank, l: Label, g: Grid, a: real, leading: nat)
    requires GridLaw(c, t, l, g) && g.leading <= leading <= |t.h|
    ensures GridLaw(c, t, l, g.(anchor := a, leading := leading))
  {
    hide CursorOk, RightRequest, JustifiedCursor, Rose, Moved, AllEmitted, AllMargins, PeriodsOf;
    assert forall p <- c.Periods() :: LedgerFor(g, p) ==> LedgerFor(g.(anchor := a, leading := leading), p);
  }

  lemma LeadingIsBehind(c: Config, t: Tank, l: Label, g: Grid)
    requires GridLaw(c, t, l, g)
    ensures g.leading <= |t.h|
  {
  }

  lemma RoundEnds(c: Config, t: Tank, l: Label, g: Grid, g0: Grid, g': Grid, a: real, before: real, earlier: nat)
    requires c.Valid() && a == NextReading(c, l, g) && before == Before(g, a)
    requires g0 == g.(readings := g.readings + [a], anchor := a, leading := |t.h|)
    requires GridLaw(c, t, l, g0) && Awaits(c, g)
    requires Midround(c, t, l, g0, g', |c.Periods()|, a, before, earlier)
    requires forall x <- g.readings :: RoseBetween(x, a, MAX_RISE) ==> Rose(g0.readings, MAX_RISE)
    requires forall x <- g.readings :: x != a ==> Moved(g0.readings)
    ensures GridLaw(c, t, l, g') && Awaits(c, g') && g'.cursors != map[]
    ensures g'.leading == |t.h| && g'.anchor == a && g'.firstRead == g.firstRead && g'.readings == g0.readings
  {
    hide LedgerOk, AllRight, AllJustified, Punctual, Steady, Waiting, Rose, Moved, Pending, ReadFromTape;
    assert ArrivedAt(c, t, g', c.Periods()[0], a);
    assert before == a || before in g.readings;
    forall p | p in c.Periods() ensures AwaitsIn(c, g', p) {
      var j :| 0 <= j < |c.Periods()| && c.Periods()[j] == p;
      assert ArrivedAt(c, t, g', c.Periods()[j], a);
    }
    assert !RoseBetween(a, a, MAX_RISE);
    assert ReadFromTape(c, l, g') by { TapeOf(c, l, g0, g'); }
    assert a in g'.readings by { assert g0.readings[|g.readings|] == a; }
  }

  lemma TapeOf(c: Config, l: Label, g0: Grid, g': Grid)
    requires ReadFromTape(c, l, g0) && g'.readings == g0.readings && g'.firstRead == g0.firstRead
    ensures ReadFromTape(c, l, g')
  {
  }

}
