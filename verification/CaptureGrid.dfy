/**
 * The harvest grid of an epoch: what every request, drop and cursor means, and that
 * every harvest keeps it so.
 */
module CaptureGrid {
  import opened Audio
  import opened History
  import opened Modes
  import opened Slots
  import opened Requests
  import opened CaptureModel
  import Rtp

  // -------------------------------------------------------------- readings

  /** Somewhere the anchor rose by more than `rise` seconds from one reading to a later one. */
  ghost predicate Rose(readings: seq<real>, rise: int)
  {
    exists i, j :: 0 <= i < j < |readings| && RoseBetween(readings[i], readings[j], rise)
  }

  predicate RoseBetween(x: real, y: real, rise: int) { y - x > rise as real }

  /** Two readings differ. */
  ghost predicate Moved(readings: seq<real>)
  {
    exists x, y :: x in readings && y in readings && x != y
  }

  lemma ReadingsGrow(readings: seq<real>, a: real)
    ensures Rose(readings, MAX_RISE) ==> Rose(readings + [a], MAX_RISE)
    ensures Moved(readings) ==> Moved(readings + [a])
    ensures forall x <- readings :: RoseBetween(x, a, MAX_RISE) ==> Rose(readings + [a], MAX_RISE)
    ensures forall x <- readings :: x != a ==> Moved(readings + [a])
  {
    var rs := readings + [a];
    assert rs[|readings|] == a;
    assert forall i :: 0 <= i < |readings| ==> rs[i] == readings[i];
    assert a in rs && forall x <- readings :: x in rs;
    if Rose(readings, MAX_RISE) {
      var i, j :| 0 <= i < j < |readings| && RoseBetween(readings[i], readings[j], MAX_RISE);
      assert RoseBetween(rs[i], rs[j], MAX_RISE);
    }
    forall x | x in readings && RoseBetween(x, a, MAX_RISE) ensures Rose(rs, MAX_RISE) {
      var i :| 0 <= i < |readings| && readings[i] == x;
      assert RoseBetween(rs[i], rs[|readings|], MAX_RISE);
    }
  }

  // ---------------------------------------------------------------- ledger

  /** The cursor has walked the multiples of p from its seed, and these starts and drops are its decisions. */
  ghost predicate CursorOk(q: Cursor, p: int, starts: seq<int>, drops: seq<int>)
  {
    && p != 0 && q.seed % p == 0
    && Walks(q.decided, q.seed, p, q.next)
    && starts == EmittedStarts(q.decided)
    && drops == DroppedStarts(q.decided)
  }

  ghost predicate LedgerFor(g: Grid, p: int)
  {
    if p in g.cursors then CursorOk(g.cursors[p], p, StartsOf(g.out, p), DropStartsOf(g.drops, p))
    else StartsOf(g.out, p) == [] && DropStartsOf(g.drops, p) == []
  }

  /** Requests and drops of each period are exactly what its cursor decided; no other period has a cursor. */
  ghost predicate LedgerOk(ps: seq<int>, g: Grid)
  {
    && (forall p {:trigger LedgerFor(g, p)} :: p in ps ==> LedgerFor(g, p))
    && (forall p :: p in g.cursors ==> p in ps)
  }

  lemma {:induction false} RequestsOfPeriod(c: Config, t: Tank, rtp: Rtp.Timestamp, p: nat, ds: seq<Decision>)
    ensures StartsOf(RequestsFor(c, t, rtp, p, ds), p) == EmittedStarts(ds)
    ensures forall r <- RequestsFor(c, t, rtp, p, ds) :: r.periodSeconds == p
    decreases |ds|
  {
    hide AudioFor, ModesWithPeriod, Rtp.Wrap, WindowSamples;
    if ds != [] {
      var d, init := ds[|ds| - 1], ds[..|ds| - 1];
      RequestsOfPeriod(c, t, rtp, p, init);
      assert RequestsFor(c, t, rtp, p, init) + [] == RequestsFor(c, t, rtp, p, init);
      assert EmittedStarts(init) + [] == EmittedStarts(init);
      if d.outcome.Emitted? {
        var r := RequestFor(c, t, rtp, p, d.start, d.outcome.offset);
        StartsOfAppend(RequestsFor(c, t, rtp, p, init), [r], p);
        assert [r][..0] == [];
      }
    }
  }

  lemma {:induction false} DropsOfPeriod(p: int, ds: seq<Decision>)
    ensures DropStartsOf(DropsFor(p, ds), p) == DroppedStarts(ds)
    ensures forall x <- DropsFor(p, ds) :: x.periodSeconds == p
    decreases |ds|
  {
    if ds != [] {
      var d, init := ds[|ds| - 1], ds[..|ds| - 1];
      DropsOfPeriod(p, init);
      assert DropsFor(p, init) + [] == DropsFor(p, init) && DroppedStarts(init) + [] == DroppedStarts(init);
      if d.outcome.Dropped? {
        DropStartsOfAppend(DropsFor(p, init), [Drop(p, d.start)], p);
        assert [Drop(p, d.start)][..0] == [];
      }
    }
  }

  lemma {:induction false} WalksEnd(ds: seq<Decision>, first: int, p: int, next: int)
    requires Walks(ds, first, p, next)
    ensures next == CursorAfter(first, p, ds)
    decreases |ds|
  {
    if |ds| > 1 {
      WalksEnd(ds[1..], first + p, p, next);
    } else if |ds| == 1 {
      assert ds[1..] == [];
    }
  }

  /** The decisions of one harvest walk the cursor on from where it stood. */
  lemma DecisionsWalk(c: Config, t: Tank, g: Grid, p: int, anchor: real)
    requires c.Valid() && IsPeriod(p)
    ensures var first, ds := SlotAfter(g.cursors, p, anchor), Decisions(c, t, g, p, anchor);
      && Walks(ds, first, p, CursorAfter(first, p, ds))
      && Waiting(CursorAfter(first, p, ds), p, anchor, c.rate, |t.h|)
  {
    hide Walks, Offset, WindowSamples;
    var first := SlotAfter(g.cursors, p, anchor);
    var next := HarvestWalks(first, p, anchor, c.rate, |t.h|, t.cap);
    WalksEnd(Decisions(c, t, g, p, anchor), first, p, next);
  }

  /** Under `anchor`, the next slot starts in the ring's offset range and has not fully arrived by `leading`. */
  ghost predicate Waiting(next: int, p: int, anchor: real, rate: nat, leading: int)
  {
    && 0 <= Offset(next, anchor, rate)
    && leading < Offset(next, anchor, rate) + WindowSamples(p, rate)
  }

  lemma FreshCursor(first: int, p: int)
    requires p != 0 && first % p == 0
    ensures CursorOk(Cursor(first, first, [], []), p, [], [])
  {
  }

  /** One more harvest keeps the cursor in order. */
  lemma CursorAdvances(q: Cursor, p: int, starts: seq<int>, drops: seq<int>, ds: seq<Decision>, next: int)
    requires p != 0 && CursorOk(q, p, starts, drops)
    requires Walks(ds, q.next, p, next)
    ensures forall moments: seq<Moment> ::
      CursorOk(Cursor(q.seed, next, q.decided + ds, moments), p, starts + EmittedStarts(ds), drops + DroppedStarts(ds))
  {
    WalksAppend(q.decided, ds, q.seed, q.next, next, p);
    StartsAppend(q.decided, ds);
  }

  lemma PeriodKeepsLedger(c: Config, t: Tank, rtp: Rtp.Timestamp, g: Grid, p: int, anchor: real)
    requires c.Valid() && IsPeriod(p) && p in c.Periods() && LedgerOk(c.Periods(), g)
    ensures LedgerOk(c.Periods(), HarvestPeriod(c, t, rtp, g, p, anchor))
  {
    hide CursorOk, Walks, FirstSlot, RequestsFor, DropsFor, StartsOf, DropStartsOf, Decisions, CursorAfter;
    var g' := HarvestPeriod(c, t, rtp, g, p, anchor);
    var first, ds := SlotAfter(g.cursors, p, anchor), Decisions(c, t, g, p, anchor);
    var rs, xs := RequestsFor(c, t, rtp, p, ds), DropsFor(p, ds);
    assert LedgerFor(g, p);
    DecisionsWalk(c, t, g, p, anchor);
    RequestsOfPeriod(c, t, rtp, p, ds);
    DropsOfPeriod(p, ds);
    if p !in g.cursors {
      FreshCursor(first, p);
    }
    CursorAdvances(CursorOf(g, p, first), p, StartsOf(g.out, p), DropStartsOf(g.drops, p), ds,
                   CursorAfter(first, p, ds));
    StartsOfAppend(g.out, rs, p);
    DropStartsOfAppend(g.drops, xs, p);
    forall q | q in c.Periods() && q != p ensures LedgerFor(g', q) {
      assert LedgerFor(g, q);
      StartsOfOther(rs, xs, q);
      StartsOfAppend(g.out, rs, q);
      DropStartsOfAppend(g.drops, xs, q);
      assert StartsOf(g.out, q) + [] == StartsOf(g.out, q) && DropStartsOf(g.drops, q) + [] == DropStartsOf(g.drops, q);
    }
  }

  // ------------------------------------------------------- right requests

  /** The moment lies in the past: some reading was in force, and so much audio had arrived. */
  predicate Happened(m: Moment, readings: seq<real>, leading: nat)
  {
    0 < m.readings <= |readings| && m.leading <= leading
  }

  /** The anchor in force at a moment: the reading taken last. */
  function InForce(m: Moment, readings: seq<real>): real
    requires 0 < m.readings <= |readings|
  {
    readings[m.readings - 1]
  }

  /**
   * The request is of a configured period and carries the window its label calls for
   * under the reading in force when it was sent, and the window had arrived by then.
   */
  ghost predicate RightRequest(c: Config, t: Tank, rtp: Rtp.Timestamp, readings: seq<real>, r: DecodeRequest, m: Moment)
  {
    && r.periodSeconds in c.Periods() && r.modes == ModesWithPeriod(c.modes, r.periodSeconds)
    && Happened(m, readings, |t.h|)
    && RightWindow(r, t.h, t.log, t.ring, rtp, c.rate, InForce(m, readings))
    && Offset(r.startWallclock, InForce(m, readings), c.rate) + WindowSamples(r.periodSeconds, c.rate) <= m.leading
  }

  ghost predicate AllRight(c: Config, t: Tank, rtp: Rtp.Timestamp, g: Grid)
  {
    && |g.moments| == |g.out|
    && forall k {:trigger RightRequest(c, t, rtp, g.readings, g.out[k], g.moments[k])} ::
         0 <= k < |g.out| ==> RightRequest(c, t, rtp, g.readings, g.out[k], g.moments[k])
  }

  /** No request was sent after the last harvest. */
  ghost predicate Punctual(t: Tank, g: Grid)
  {
    g.leading <= |t.h| && forall k :: 0 <= k < |g.moments| ==> g.moments[k].leading <= g.leading
  }

  lemma PeriodKeepsPunctual(c: Config, t: Tank, rtp: Rtp.Timestamp, g: Grid, p: int, anchor: real)
    requires c.Valid() && IsPeriod(p) && Punctual(t, g) && g.leading == |t.h|
    ensures Punctual(t, HarvestPeriod(c, t, rtp, g, p, anchor))
  {
    hide RequestsFor, DropsFor, Decisions, CursorAfter, FirstSlot;
  }

  lemma RequestIsRight(c: Config, t: Tank, rtp: Rtp.Timestamp, p: nat, start: int, off: nat, anchor: real)
    requires 0 < WindowSamples(p, c.rate) && off == Offset(start, anchor, c.rate)
    requires off + WindowSamples(p, c.rate) <= |t.h|
    ensures RightWindow(RequestFor(c, t, rtp, p, start, off), t.h, t.log, t.ring, rtp, c.rate, anchor)
  {
    hide Offset, WindowSamples, GapsWithin, Rtp.Wrap, ModesWithPeriod;
  }

  lemma {:induction false} RequestsAreRight(c: Config, t: Tank, rtp: Rtp.Timestamp, p: nat, ds: seq<Decision>,
                                            anchor: real, after: int)
    requires 0 < WindowSamples(p, c.rate)
    requires EmittedWithin(ds, WindowSamples(p, c.rate), anchor, c.rate, |t.h|, after)
    ensures forall r <- RequestsFor(c, t, rtp, p, ds) ::
      && RightWindow(r, t.h, t.log, t.ring, rtp, c.rate, anchor)
      && Offset(r.startWallclock, anchor, c.rate) + WindowSamples(p, c.rate) <= |t.h|
      && r.periodSeconds == p && r.modes == ModesWithPeriod(c.modes, p)
    decreases |ds|
  {
    hide Offset, WindowSamples, RightWindow, ModesWithPeriod;
    if ds != [] {
      var d, init := ds[|ds| - 1], ds[..|ds| - 1];
      assert d in ds && forall x <- init :: x in ds;
      RequestsAreRight(c, t, rtp, p, init, anchor, after);
      if d.outcome.Emitted? {
        RequestIsRight(c, t, rtp, p, d.start, d.outcome.offset, anchor);
      }
    }
  }

  lemma PeriodKeepsRight(c: Config, t: Tank, rtp: Rtp.Timestamp, g: Grid, p: int, anchor: real)
    requires c.Valid() && IsPeriod(p) && p in c.Periods()
    requires g.readings != [] && anchor == g.readings[|g.readings| - 1] && AllRight(c, t, rtp, g)
    ensures AllRight(c, t, rtp, HarvestPeriod(c, t, rtp, g, p, anchor))
  {
    hide Offset, WindowSamples, RightWindow, RequestsFor, DropsFor, ModesWithPeriod, Harvest, EmittedWithin,
         CursorAfter, FirstSlot;
    var first, ds := SlotAfter(g.cursors, p, anchor), Decisions(c, t, g, p, anchor);
    WindowSamplesFacts(p, c.rate);
    var after := Offset(first, anchor, c.rate) + WindowSamples(p, c.rate) - 1;
    HarvestEmits(first, p, anchor, c.rate, |t.h|, t.cap, after);
    RequestsAreRight(c, t, rtp, p, ds, anchor, after);
    var rs, g' := RequestsFor(c, t, rtp, p, ds), HarvestPeriod(c, t, rtp, g, p, anchor);
    forall k | 0 <= k < |g'.out| ensures RightRequest(c, t, rtp, g.readings, g'.out[k], g'.moments[k]) {
      if k < |g.out| {
        assert g'.out[k] == g.out[k] && g'.moments[k] == g.moments[k];
      } else {
        assert g'.out[k] in rs && g'.moments[k] == Moment(|g.readings|, |t.h|);
      }
    }
  }

  // --------------------------------------------------- justified decisions

  /**
   * A slot is skipped when it began before the anchor sample, dropped when a short
   * window that had arrived was no longer in the ring, and emitted otherwise, by the
   * anchor `a` and the leading edge of that moment.
   */
  ghost predicate JustifiedBy(c: Config, cap: nat, p: int, d: Decision, a: real, leading: nat)
  {
    var off, n := Offset(d.start, a, c.rate), WindowSamples(p, c.rate);
    match d.outcome
    case Skipped => off < 0 && BeganBefore(d.start, a, c.rate)
    case Emitted(offset) => 0 <= off == offset && off + n <= leading && (IsDeferred(p) || leading <= off + cap)
    case Dropped => !IsDeferred(p) && 0 <= off && off + n <= leading && off + cap < leading
  }

  ghost predicate JustifiedDecision(c: Config, t: Tank, p: int, d: Decision, m: Moment, readings: seq<real>)
  {
    Happened(m, readings, |t.h|) && JustifiedBy(c, t.cap, p, d, InForce(m, readings), m.leading)
  }

  ghost predicate SeededBy(q: Cursor, p: int, readings: seq<real>)
    requires 0 < p
  {
    exists a <- readings :: q.seed == FirstSlot(a, p)
  }

  ghost predicate JustifiedCursor(c: Config, t: Tank, p: int, q: Cursor, readings: seq<real>)
  {
    && 0 < p && SeededBy(q, p, readings) && |q.moments| == |q.decided|
    && forall i {:trigger JustifiedDecision(c, t, p, q.decided[i], q.moments[i], readings)} ::
         0 <= i < |q.decided| ==> JustifiedDecision(c, t, p, q.decided[i], q.moments[i], readings)
  }

  /** Every cursor was seeded from a reading, and every decision follows from the moment it was made. */
  ghost predicate AllJustified(c: Config, t: Tank, g: Grid)
  {
    forall p {:trigger JustifiedCursor(c, t, p, g.cursors[p], g.readings)} ::
      p in g.cursors ==> JustifiedCursor(c, t, p, g.cursors[p], g.readings)
  }

  lemma {:induction false} HarvestIsJustified(c: Config, t: Tank, p: int, anchor: real, start: int)
    requires c.Valid() && IsPeriod(p)
    ensures forall d <- Harvest(start, p, anchor, c.rate, |t.h|, t.cap) :: JustifiedBy(c, t.cap, p, d, anchor, |t.h|)
    decreases if |t.h| < Offset(start, anchor, c.rate) then 0 else |t.h| - Offset(start, anchor, c.rate) + 1
  {
    OffsetStep(start, p, anchor, c.rate);
    OffsetIsNegative(start, anchor, c.rate);
    WindowSamplesFacts(p, c.rate);
    hide Offset, BeganBefore;
    var off, n := Offset(start, anchor, c.rate), WindowSamples(p, c.rate);
    if off < 0 || off + n <= |t.h| {
      HarvestIsJustified(c, t, p, anchor, start + p);
    }
  }

  lemma PeriodKeepsJustified(c: Config, t: Tank, rtp: Rtp.Timestamp, g: Grid, p: int, anchor: real)
    requires c.Valid() && IsPeriod(p)
    requires g.readings != [] && anchor == g.readings[|g.readings| - 1] && AllJustified(c, t, g)
    ensures AllJustified(c, t, HarvestPeriod(c, t, rtp, g, p, anchor))
  {
    hide JustifiedBy, RequestsFor, DropsFor, FirstSlot, Harvest, CursorAfter;
    var first := SlotAfter(g.cursors, p, anchor);
    HarvestIsJustified(c, t, p, anchor, first);
    var q := CursorOf(g, p, first);
    assert p in g.cursors ==> JustifiedCursor(c, t, p, q, g.readings);
    assert SeededBy(q, p, g.readings);
    var ds := Decisions(c, t, g, p, anchor);
    var q' := HarvestPeriod(c, t, rtp, g, p, anchor).cursors[p];
    forall i | 0 <= i < |q'.decided| ensures JustifiedDecision(c, t, p, q'.decided[i], q'.moments[i], g.readings) {
      if i < |q.decided| {
        assert q'.decided[i] == q.decided[i] && q'.moments[i] == q.moments[i];
      } else {
        assert q'.decided[i] in ds && q'.moments[i] == Moment(|g.readings|, |t.h|);
      }
    }
  }

  // ------------------------------------------------------- drops and margins

  /** At least nine minutes of audio could still arrive when a deferred request was sent. */
  predicate Margin(c: Config, t: Tank, r: DecodeRequest, edge: nat)
  {
    r.audio.Deferred? ==> edge + WindowSamples(540, c.rate) <= r.audio.offset + t.cap
  }

  ghost predicate AllMargins(c: Config, t: Tank, out: seq<DecodeRequest>, moments: seq<Moment>)
  {
    |moments| == |out| && forall k :: 0 <= k < |out| ==> Margin(c, t, out[k], moments[k].leading)
  }

  /** Every slot decided was emitted, in good time. */
  ghost predicate Steady(c: Config, t: Tank, g: Grid)
  {
    (forall p :: p in g.cursors ==> AllEmitted(g.cursors[p].decided)) && AllMargins(c, t, g.out, g.moments)
  }

  lemma {:induction false} NothingDropped(p: int, ds: seq<Decision>)
    requires NoneDropped(ds)
    ensures DropsFor(p, ds) == []
    decreases |ds|
  {
    if ds != [] {
      assert ds[|ds| - 1] in ds && forall x <- ds[..|ds| - 1] :: x in ds;
      NothingDropped(p, ds[..|ds| - 1]);
    }
  }

  /** One period's harvest, judged against the previous one, at most a minute of audio before. */
  lemma PeriodOutcome(c: Config, t: Tank, rtp: Rtp.Timestamp, g: Grid, p: int, anchor: real, before: real, earlier: nat)
    requires c.Valid() && IsPeriod(p) && p in c.Periods() && Roomy(c.Periods(), c.rate, t.cap)
    requires Waiting(SlotAfter(g.cursors, p, anchor), p, before, c.rate, earlier)
    requires earlier <= |t.h| <= earlier + WindowSamples(60, c.rate)
    ensures var g' := HarvestPeriod(c, t, rtp, g, p, anchor);
      && (!RoseBetween(before, anchor, MAX_RISE) ==> g'.drops == g.drops)
      && (anchor == before && Steady(c, t, g) ==> Steady(c, t, g'))
  {
    hide Offset, WindowSamples, Harvest, RequestsFor, CursorAfter, EmittedWithin, AllEmitted, NoneDropped, AllMargins;
    var first, ds := SlotAfter(g.cursors, p, anchor), Decisions(c, t, g, p, anchor);
    HarvestAfterHarvest(first, p, before, anchor, c.rate, earlier, |t.h|, t.cap);
    if !RoseBetween(before, anchor, MAX_RISE) {
      NothingDropped(p, ds);
      assert g.drops + [] == g.drops;
    }
    if anchor == before && Steady(c, t, g) {
      MarginsHold(c, t, rtp, p, ds, anchor, earlier);
      var rs := RequestsFor(c, t, rtp, p, ds);
      JoinMargins(c, t, g.out, g.moments, rs, |g.readings|);
      AllEmittedJoin(CursorOf(g, p, first).decided, ds);
    }
  }

  lemma AllEmittedJoin(a: seq<Decision>, b: seq<Decision>)
    ensures AllEmitted(b) && (a == [] || AllEmitted(a)) ==> AllEmitted(a + b)
  {
  }

  /** A window sent at most a minute after its end leaves nine minutes of a ten-minute headroom. */
  lemma {:induction false} MarginsHold(c: Config, t: Tank, rtp: Rtp.Timestamp, p: nat, ds: seq<Decision>, anchor: real,
                                       earlier: nat)
    requires 0 <= WindowSamples(p, c.rate)
    requires EmittedWithin(ds, WindowSamples(p, c.rate), anchor, c.rate, |t.h|, earlier)
    requires |t.h| <= earlier + WindowSamples(60, c.rate)
    requires WindowSamples(p, c.rate) + WindowSamples(RING_HEADROOM_SECONDS, c.rate) <= t.cap
    ensures forall r <- RequestsFor(c, t, rtp, p, ds) :: Margin(c, t, r, |t.h|)
    decreases |ds|
  {
    hide Offset;
    if ds != [] {
      var d, init := ds[|ds| - 1], ds[..|ds| - 1];
      assert d in ds && forall x <- init :: x in ds;
      MarginsHold(c, t, rtp, p, init, anchor, earlier);
      WindowSamplesAdd(60, 540, c.rate);
    }
  }

  lemma JoinMargins(c: Config, t: Tank, out: seq<DecodeRequest>, moments: seq<Moment>, rs: seq<DecodeRequest>, n: nat)
    requires AllMargins(c, t, out, moments) && forall r <- rs :: Margin(c, t, r, |t.h|)
    ensures AllMargins(c, t, out + rs, moments + seq(|rs|, _ => Moment(n, |t.h|)))
  {
    hide Margin;
    var out', moments' := out + rs, moments + seq(|rs|, _ => Moment(n, |t.h|));
    forall k | 0 <= k < |out'| ensures Margin(c, t, out'[k], moments'[k].leading) {
      if k >= |out| {
        assert out'[k] in rs && moments'[k].leading == |t.h|;
      } else {
        assert out'[k] == out[k] && moments'[k] == moments[k];
      }
    }
  }
}
