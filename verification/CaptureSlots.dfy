/** What every run does with the slots: which are decided when, sent, dropped, and how their audio fits together. */
module CaptureSlots {
  import opened Audio
  import opened History
  import opened Modes
  import opened Slots
  import opened Requests
  import opened CaptureModel
  import opened CaptureGrid
  import opened CaptureLaws
  import opened CaptureEpochs
  import opened CaptureRuns
  import Modular
  import Rtp

  // ------------------------------------------------------ where the audio lies

  /** The samples a request stands for: carried along, or still in its epoch's history. */
  ghost function SamplesOf(e: Epoch, r: DecodeRequest): seq<Sample>
  {
    match r.audio
    case Eager(w) => w.samples
    case Deferred(_, off, n) => if off + n <= |e.tank.h| then e.tank.h[off..off + n] else []
  }

  lemma SamplesAre(c: Config, e: Epoch, r: DecodeRequest, a: real)
    requires e.tag.Some? && FaithfulUnder(c, e, r, a)
    ensures var off, n := Offset(r.startWallclock, a, c.rate), WindowSamples(r.periodSeconds, c.rate);
      0 <= off && 0 < n && off + n <= |e.tank.h| && SamplesOf(e, r) == e.tank.h[off..off + n]
  {
    hide Offset, WindowSamples, GapsWithin, Rtp.Wrap, PlacedAt;
  }

  lemma RtpTimesAre(c: Config, e: Epoch, r: DecodeRequest, a: real)
    requires e.tag.Some? && FaithfulUnder(c, e, r, a)
    ensures var at, rtp := Offset(r.startWallclock, a, c.rate), e.tag.value.rtp;
      r.startRtp == Rtp.Wrap(rtp + at) && r.endRtp == Rtp.Wrap(rtp + at + r.periodSeconds * c.rate)
  {
    hide Offset, WindowSamples, GapsWithin, StandsFor, PlacedAt;
    var at := Offset(r.startWallclock, a, c.rate);
    var n := WindowSamples(r.periodSeconds, c.rate);
    Rtp.WrapAdd(e.tag.value.rtp + at, n);
  }

  /**
   * In any run, for every request ever sent: its audio is one period of the epoch's
   * stream, and begins as many samples after the anchor sample as its UTC label is
   * away from the anchor then in force, to the nearest sample and on a tie to the even
   * one.  Its RTP times, its gaps and whether it is copied at once follow.
   */
  lemma AudioIsWhereTheLabelSays(c: Config, m: Machine, e: Epoch, k: nat) returns (at: int)
    requires MachineLaw(c, m) && e in Epochs(m) && k < |e.grid.out|
    ensures e.tag.Some? && |e.grid.moments| == |e.grid.out| && Happened(e.grid.moments[k], e.grid.readings, |e.tank.h|)
    ensures var r, l, now := e.grid.out[k], e.tag.value, e.grid.moments[k];
      var n, base := r.periodSeconds * c.rate, l.origin + at;
      && PlacedAt(r.startWallclock, e.grid.readings[now.readings - 1], c.rate, at)
      && 0 <= at && 0 < n && at + n <= now.leading && base + n <= |e.src.stream|
      && SamplesOf(e, r) == e.src.stream[base..base + n]
      && (r.audio.Eager? ==> r.audio.window.gaps == GapsWithin(e.tank.log, at, at + n))
      && (r.audio.Deferred? ==> r.audio.offset == at && r.audio.count == n)
      && (r.audio.Deferred? <==> r.periodSeconds >= 900)
      && r.startRtp == Rtp.Wrap(l.rtp + at) && r.endRtp == Rtp.Wrap(l.rtp + at + n)
  {
    hide MachineLaw, Offset, PlacedAt, WindowSamples, GapsWithin, Rtp.Wrap, SamplesOf;
    EveryRequestIsFaithful(c, m, e, k);
    var r, a := e.grid.out[k], InForce(e.grid.moments[k], e.grid.readings);
    at := Offset(r.startWallclock, a, c.rate);
    SamplesAre(c, e, r, a);
    RtpTimesAre(c, e, r, a);
  }

  // ----------------------------------------------------------------- drops

  /** A slot is dropped only in an epoch in whose stretch of the tape the anchor rose by more than 539 seconds. */
  lemma DropsOnlyOnARise(c: Config, m: Machine, e: Epoch)
    requires MachineLaw(c, m) && e in Epochs(m) && e.grid.drops != []
    ensures e.tag.Some? && Rose(Anchors(c, e), MAX_RISE)
  {
    hide Open, LedgerOk, AllRight, AllJustified, Steady, Moved, Rose, Tagged, StampsOk, Listening, ReadFromTape,
         Anchors;
    EpochsAreLawful(c, m, e);
    ReadingsAreTheTape(c, m, e);
  }

  /** All within MAX_RISE seconds of each other. */
  predicate Held(readings: seq<real>, lo: real)
  {
    forall i :: 0 <= i < |readings| ==> lo <= readings[i] <= lo + MAX_RISE as real
  }

  /** An epoch whose stretch of the tape stays within 539 s drops nothing. */
  lemma HeldAnchorDropsNothing(c: Config, m: Machine, e: Epoch, lo: real)
    requires MachineLaw(c, m) && e in Epochs(m) && e.tag.Some? && Held(Anchors(c, e), lo)
    ensures e.grid.drops == []
  {
    hide MachineLaw, Anchors, Rose, Held;
    HeldIsLevel(Anchors(c, e), lo);
    if e.grid.drops != [] {
      DropsOnlyOnARise(c, m, e);
      assert false;
    }
  }

  lemma HeldIsLevel(readings: seq<real>, lo: real)
    ensures Held(readings, lo) ==> !Rose(readings, MAX_RISE)
  {
    if Rose(readings, MAX_RISE) {
      var i, j :| 0 <= i < j < |readings| && RoseBetween(readings[i], readings[j], MAX_RISE);
      assert !(lo <= readings[i]) || !(readings[j] <= lo + MAX_RISE as real);
    }
  }

  /** An epoch whose stretch of the tape does not move emits every slot it decides, and in good time. */
  lemma FixedAnchorEmitsAll(c: Config, m: Machine, e: Epoch)
    requires MachineLaw(c, m) && e in Epochs(m) && e.tag.Some? && !Moved(Anchors(c, e))
    ensures e.grid.drops == [] && Steady(c, e.tank, e.grid)
  {
    hide Open, LedgerOk, AllRight, AllJustified, Tagged, StampsOk, Listening, AllEmitted, ReadFromTape, Moved, Rose,
         Anchors;
    EpochsAreLawful(c, m, e);
    ReadingsAreTheTape(c, m, e);
    UnmovedIsLevel(e.grid.readings);
  }

  lemma UnmovedIsLevel(readings: seq<real>)
    ensures !Moved(readings) ==> !Rose(readings, MAX_RISE)
  {
    if Rose(readings, MAX_RISE) {
      var i, j :| 0 <= i < j < |readings| && RoseBetween(readings[i], readings[j], MAX_RISE);
      assert readings[i] in readings && readings[j] in readings;
    }
  }

  // --------------------------------------------------------------- decisions

  /**
   * Between batches no complete slot is left undecided whose end lies a second of
   * audio or more behind the leading edge, by the anchor value last read; and
   * that value is radiod's, or the frozen label.
   */
  lemma NoSlotOverdue(c: Config, e: Epoch, p: int)
    requires c.Valid() && Open(c, e) && e.tag.Some? && p in c.Periods()
    ensures p !in e.grid.cursors ==> |e.tank.h| < c.rate
    ensures p in e.grid.cursors ==>
      var next, k := e.grid.cursors[p].next, |e.grid.readings| - 1;
      && 0 <= k
      && e.grid.anchor == e.grid.readings[k]
         == c.anchorTape(e.grid.firstRead + k).GetOr(e.tag.value.wallclock as real)
      && 0 <= Offset(next, e.grid.anchor, c.rate)
      && |e.tank.h| - c.rate < Offset(next, e.grid.anchor, c.rate) + WindowSamples(p, c.rate)
  {
    hide Offset, WindowSamples, Roomy, LedgerOk, AllRight, AllJustified, Steady, Moved, Rose, Tagged, StampsOk,
         PeriodsOf;
    assert e.grid.cursors != map[] ==> AwaitsIn(c, e.grid, p);
  }

  /**
   * Exactly once, under any anchor movement: every multiple of the period from the
   * seed up to the cursor has been decided once, the seed is the first slot after a
   * reading, each decision follows from the reading in force and the leading edge at
   * its moment, the requests of the period are the emitted slots in strictly
   * increasing order, and the drops the dropped.
   */
  lemma SlotsDecidedExactlyOnce(c: Config, e: Epoch, p: int, slot: int) returns (k: nat)
    requires EpochLaw(c, e) && p in e.grid.cursors
    requires slot % p == 0 && e.grid.cursors[p].seed <= slot < e.grid.cursors[p].next
    ensures 0 < p && p in c.Periods() && SeededBy(e.grid.cursors[p], p, e.grid.readings)
    ensures e.grid.cursors[p].seed % p == 0 && e.grid.cursors[p].next % p == 0
    ensures var q := e.grid.cursors[p];
      && k < |q.decided| == |q.moments| && q.decided[k].start == slot
      && (forall j :: 0 <= j < |q.decided| && q.decided[j].start == slot ==> j == k)
      && JustifiedDecision(c, e.tank, p, q.decided[k], q.moments[k], e.grid.readings)
      && StartsOf(e.grid.out, p) == EmittedStarts(q.decided)
      && DropStartsOf(e.grid.drops, p) == DroppedStarts(q.decided)
      && Increasing(EmittedStarts(q.decided))
  {
    hide AllRight, Steady, Moved, Rose, ReadFromTape, Tagged, StampsOk, Listening, JustifiedDecision, SeededBy,
         PeriodsOf;
    var q := e.grid.cursors[p];
    assert LedgerFor(e.grid, p) && JustifiedCursor(c, e.tank, p, q, e.grid.readings);
    WalksOverMultiples(q.decided, q.seed, p, q.next);
    EmittedIncrease(q.decided, q.next);
    k := DecidedExactlyOnce(q.decided, q.seed, p, q.next, slot);
  }

  lemma {:induction false} EmittedIsListed(ds: seq<Decision>, k: nat)
    requires k < |ds|
    ensures ds[k].outcome.Emitted? ==> ds[k].start in EmittedStarts(ds)
    ensures ds[k].outcome.Dropped? ==> ds[k].start in DroppedStarts(ds)
    decreases |ds|
  {
    if k < |ds| - 1 {
      EmittedIsListed(ds[..|ds| - 1], k);
    }
  }

  /**
   * Under any anchor movement, every slot from the seed on whose audio ended a second or
   * more ago, by the anchor value last read, has been decided: it was sent, or filed
   * as dropped, or skipped because it began before the anchor sample by the value
   * then in force.
   */
  lemma CompleteSlotsAreDecided(c: Config, e: Epoch, p: int, slot: int) returns (k: nat)
    requires c.Valid() && Open(c, e) && e.tag.Some? && p in c.Periods() && p in e.grid.cursors
    requires e.grid.readings != [] && 0 < p && slot % p == 0 && e.grid.cursors[p].seed <= slot
    requires var a := e.grid.readings[|e.grid.readings| - 1];
      Offset(slot, a, c.rate) + WindowSamples(p, c.rate) + c.rate <= |e.tank.h|
    ensures var q := e.grid.cursors[p];
      && k < |q.decided| == |q.moments| && q.decided[k].start == slot
      && Happened(q.moments[k], e.grid.readings, |e.tank.h|)
      && match q.decided[k].outcome
         case Emitted(_) => slot in StartsOf(e.grid.out, p)
         case Dropped => slot in DropStartsOf(e.grid.drops, p)
         case Skipped => Offset(slot, InForce(q.moments[k], e.grid.readings), c.rate) < 0
  {
    hide EpochLaw, Open, Offset, WindowSamples, FirstSlot, StartsOf, EmittedStarts, PeriodsOf;
    var a, q := e.grid.readings[|e.grid.readings| - 1], e.grid.cursors[p];
    OpenIsLawful(c, e);
    NoSlotOverdue(c, e, p);
    if q.next <= slot {
      OffsetMonotone(q.next, slot, a, c.rate);
    }
    k := SlotsDecidedExactlyOnce(c, e, p, slot);
    EmittedIsListed(q.decided, k);
  }

  /**
   * In an epoch whose readings have not moved, every slot whose audio ended a second or
   * more ago has been sent: every multiple of a configured period from the anchor on,
   * with no gap.
   */
  lemma CompleteSlotsAreSent(c: Config, e: Epoch, p: int, slot: int, a: real)
    requires c.Valid() && Open(c, e) && e.tag.Some? && p in c.Periods() && forall x <- e.grid.readings :: x == a
    requires slot % p == 0 && a <= slot as real
    requires Offset(slot, a, c.rate) + WindowSamples(p, c.rate) + c.rate <= |e.tank.h|
    ensures slot in StartsOf(e.grid.out, p)
  {
    hide EpochLaw, Open, Offset, WindowSamples, FirstSlot, StartsOf, EmittedStarts, PeriodsOf, Moved, Steady;
    OpenIsLawful(c, e);
    NoSlotOverdue(c, e, p);
    WindowSamplesFacts(p, c.rate);
    FirstSlotAhead(a, slot, c.rate);
    assert e.grid.readings[|e.grid.readings| - 1] in e.grid.readings;
    SeedIs(c, e, p, a);
    var q := e.grid.cursors[p];
    if slot < q.seed {
      MultiplesApart(slot, q.seed, p);
    }
    var k := CompleteSlotsAreDecided(c, e, p, slot);
    SameIsUnmoved(e.grid.readings, a);
    DecidedIsEmitted(c, e, p, k);
  }

  lemma SameIsUnmoved(readings: seq<real>, a: real)
    requires forall x <- readings :: x == a
    ensures !Moved(readings)
  {
  }

  lemma SeedIs(c: Config, e: Epoch, p: int, a: real)
    requires EpochLaw(c, e) && p in e.grid.cursors && forall x <- e.grid.readings :: x == a
    ensures 0 < p && e.grid.cursors[p].seed == FirstSlot(a, p)
  {
    hide LedgerOk, AllRight, Steady, Moved, Rose, Tagged, StampsOk, ReadFromTape, JustifiedDecision, FirstSlot,
         Listening;
    assert JustifiedCursor(c, e.tank, p, e.grid.cursors[p], e.grid.readings);
  }

  lemma DecidedIsEmitted(c: Config, e: Epoch, p: int, k: nat)
    requires EpochLaw(c, e) && !Moved(e.grid.readings) && e.tag.Some?
    requires p in e.grid.cursors && k < |e.grid.cursors[p].decided|
    ensures e.grid.cursors[p].decided[k].outcome.Emitted?
  {
    hide LedgerOk, AllRight, AllJustified, Moved, Rose, Tagged, StampsOk, ReadFromTape;
    assert e.grid.cursors[p].decided[k] in e.grid.cursors[p].decided;
  }

  // ---------------------------------------------------------- deferred requests

  /** A deferred request points into its epoch's ring, with nine minutes to spare if the anchor had not moved. */
  lemma DeferredFacts(c: Config, e: Epoch, k: nat)
    requires EpochLaw(c, e) && e.tag.Some? && k < |e.grid.out| == |e.grid.moments| && e.grid.out[k].audio.Deferred?
    ensures var a := e.grid.out[k].audio;
      && a.ring == e.tank.ring && 0 < a.count && a.offset + a.count <= |e.tank.h|
      && (!Moved(e.grid.readings) ==>
           e.grid.moments[k].leading + WindowSamples(540, c.rate) <= a.offset + e.tank.cap)
  {
    hide LedgerOk, AllJustified, Moved, Rose, Tagged, StampsOk, ReadFromTape, Offset, AllEmitted, ModesWithPeriod,
         Rtp.Wrap, GapsWithin, WindowSamples;
    var r, m := e.grid.out[k], e.grid.moments[k];
    assert Steady(c, e.tank, e.grid) ==> Margin(c, e.tank, r, m.leading);
    assert RightRequest(c, e.tank, e.tag.value.rtp, e.grid.readings, r, m);
  }

  /**
   * A deferred request sent under an unmoved anchor can be copied as long as no more
   * than 540 seconds of audio have come in since it was sent, and the copy is what it
   * stood for then.
   */
  lemma CopyableForNineMinutes(c: Config, e: Epoch, k: nat, h: seq<Sample>, log: seq<LoggedGap>)
    requires EpochLaw(c, e) && e.tag.Some? && !Moved(e.grid.readings) && k < |e.grid.out| == |e.grid.moments|
    requires e.grid.out[k].audio.Deferred? && Extends(e.tank.h, e.tank.log, h, log)
    requires |h| <= e.grid.moments[k].leading + WindowSamples(540, c.rate)
    ensures var off, n := e.grid.out[k].audio.offset, e.grid.out[k].audio.count;
      && 0 < n && off + n <= |e.tank.h|
      && Extracted(h, log, e.tank.cap, off, n) ==
         Some(Window(e.tank.h[off..off + n], GapsWithin(e.tank.log, off, off + n)))
  {
    hide EpochLaw, Moved, Extracted, Extends, GapsWithin, WindowSamples;
    DeferredFacts(c, e, k);
    WindowIsStable(e.tank.h, e.tank.log, h, log, e.tank.cap, e.grid.out[k].audio.offset, e.grid.out[k].audio.count);
  }

  // ------------------------------------------------- long and short requests

  predicate TileAt(out: seq<DecodeRequest>, j: nat, start: int, q: int)
  {
    j < |out| && out[j].periodSeconds == q && out[j].startWallclock == start
  }

  /** These requests are the consecutive slots of period q from `start` on. */
  ghost predicate Tiling(out: seq<DecodeRequest>, js: seq<nat>, start: int, q: int)
  {
    js == [] || (TileAt(out, js[0], start, q) && Tiling(out, js[1..], start + q, q))
  }

  /** Their audio, end to end. */
  ghost function Joined(e: Epoch, js: seq<nat>, start: int, q: int): seq<Sample>
    requires Tiling(e.grid.out, js, start, q)
  {
    if js == [] then [] else SamplesOf(e, e.grid.out[js[0]]) + Joined(e, js[1..], start + q, q)
  }

  lemma {:induction false} JoinedIsTiles(c: Config, e: Epoch, js: seq<nat>, start: int, q: int, a: real)
    requires c.Valid() && e.tag.Some? && IsPeriod(q) && Tiling(e.grid.out, js, start, q)
    requires forall r <- e.grid.out :: FaithfulUnder(c, e, r, a)
    requires 0 <= Offset(start, a, c.rate)
    requires Offset(start, a, c.rate) + Modular.Minutes(|js|, WindowSamples(q, c.rate)) <= |e.tank.h|
    ensures Joined(e, js, start, q) == Tiles(e.tank.h, start, q, |js|, a, c.rate)
    decreases |js|
  {
    hide Offset, WindowSamples, FaithfulUnder, SamplesOf;
    if js != [] {
      OffsetStep(start, q, a, c.rate);
      WindowSamplesFacts(q, c.rate);
      SamplesAre(c, e, e.grid.out[js[0]], a);
      JoinedIsTiles(c, e, js[1..], start + q, q, a);
    }
  }

  lemma {:induction false} WhichRequest(out: seq<DecodeRequest>, p: int, slot: int) returns (j: nat)
    requires slot in StartsOf(out, p)
    ensures TileAt(out, j, slot, p)
    decreases |out|
  {
    var last := out[|out| - 1];
    if last.periodSeconds == p && last.startWallclock == slot {
      j := |out| - 1;
    } else {
      j := WhichRequest(out[..|out| - 1], p, slot);
    }
  }

  lemma {:induction false} StartIsListed(out: seq<DecodeRequest>, k: nat)
    requires k < |out|
    ensures out[k].startWallclock in StartsOf(out, out[k].periodSeconds)
    decreases |out|
  {
    if k < |out| - 1 {
      StartIsListed(out[..|out| - 1], k);
    }
  }

  lemma {:induction false} EmittedWasDecided(ds: seq<Decision>, slot: int) returns (i: nat)
    requires slot in EmittedStarts(ds)
    ensures i < |ds| && ds[i].start == slot
    decreases |ds|
  {
    var last := ds[|ds| - 1];
    if last.start == slot {
      i := |ds| - 1;
    } else {
      i := EmittedWasDecided(ds[..|ds| - 1], slot);
    }
  }

  /** A request's slot is a multiple of its period, no earlier than its cursor's seed. */
  lemma StartIsSeeded(c: Config, e: Epoch, k: nat)
    requires EpochLaw(c, e) && e.tag.Some? && k < |e.grid.out| == |e.grid.moments|
    ensures var p, start := e.grid.out[k].periodSeconds, e.grid.out[k].startWallclock;
      && p in c.Periods() && p in e.grid.cursors && 0 < p
      && start % p == 0 && e.grid.cursors[p].seed <= start
  {
    hide AllJustified, Steady, Moved, Rose, ReadFromTape, Tagged, StampsOk, RightWindow, PeriodsOf, Offset,
         WindowSamples, ModesWithPeriod;
    var r := e.grid.out[k];
    assert RightRequest(c, e.tank, e.tag.value.rtp, e.grid.readings, r, e.grid.moments[k]);
    assert LedgerFor(e.grid, r.periodSeconds);
    StartIsListed(e.grid.out, k);
    var q := e.grid.cursors[r.periodSeconds];
    var i := EmittedWasDecided(q.decided, r.startWallclock);
    WalksOverMultiples(q.decided, q.seed, r.periodSeconds, q.next);
  }

  /** A slot that had arrived when the last harvest was made, under an anchor that has not moved, was sent. */
  lemma ShortWasSent(c: Config, e: Epoch, q: int, slot: int, a: real) returns (j: nat)
    requires c.Valid() && Open(c, e) && e.tag.Some? && q in c.Periods() && e.grid.cursors != map[]
    requires forall x <- e.grid.readings :: x == a
    requires slot % q == 0 && a <= slot as real
    requires Offset(slot, a, c.rate) + WindowSamples(q, c.rate) <= e.grid.leading
    ensures TileAt(e.grid.out, j, slot, q)
  {
    hide Offset, WindowSamples, FirstSlot, StartsOf, EmittedStarts, PeriodsOf, Moved, GridLaw, Tagged, StampsOk, Roomy;
    assert AwaitsIn(c, e.grid, q);
    SeedIs(c, e, q, a);
    SameIsUnmoved(e.grid.readings, a);
    var cur := e.grid.cursors[q];
    if slot < cur.seed {
      MultiplesApart(slot, cur.seed, q);
    }
    if cur.next <= slot {
      OffsetMonotone(cur.next, slot, a, c.rate);
    }
    var k := SlotsDecidedExactlyOnce(c, e, q, slot);
    DecidedIsEmitted(c, e, q, k);
    EmittedIsListed(cur.decided, k);
    j := WhichRequest(e.grid.out, q, slot);
  }

  lemma {:induction false} ShortsWereSent(c: Config, e: Epoch, q: int, start: int, m: nat, a: real)
    returns (js: seq<nat>)
    requires c.Valid() && Open(c, e) && e.tag.Some? && q in c.Periods() && e.grid.cursors != map[]
    requires forall x <- e.grid.readings :: x == a
    requires IsPeriod(q) && start % q == 0 && a <= start as real
    requires Offset(start, a, c.rate) + Modular.Minutes(m, WindowSamples(q, c.rate)) <= e.grid.leading
    ensures |js| == m && Tiling(e.grid.out, js, start, q)
    decreases m
  {
    hide Offset, WindowSamples, PeriodsOf, Open;
    js := [];
    if m > 0 {
      OffsetStep(start, q, a, c.rate);
      WindowSamplesFacts(q, c.rate);
      var j := ShortWasSent(c, e, q, start, a);
      NextMultiple(start, q);
      var rest := ShortsWereSent(c, e, q, start + q, m - 1, a);
      js := [j] + rest;
      assert js[1..] == rest;
    }
  }

  /**
   * In an epoch whose readings have not moved, the audio of every long request sent is
   * that of the requests of any shorter configured period that divides its own, all of
   * them sent too, end to end: an F30 request is its 15 W2 requests, an F15 request its
   * three F5 requests.
   */
  lemma LongRequestIsShortRequests(c: Config, e: Epoch, k: nat, q: int, m: nat, a: real) returns (js: seq<nat>)
    requires c.Valid() && Open(c, e) && e.tag.Some? && q in c.Periods() && forall x <- e.grid.readings :: x == a
    requires k < |e.grid.out| && e.grid.out[k].periodSeconds == m * q
    ensures |js| == m && Tiling(e.grid.out, js, e.grid.out[k].startWallclock, q)
    ensures SamplesOf(e, e.grid.out[k]) == Joined(e, js, e.grid.out[k].startWallclock, q)
  {
    hide Offset, WindowSamples, PeriodsOf, Open, EpochLaw, FaithfulUnder, SamplesOf, Tiling, FirstSlot;
    OpenIsLawful(c, e);
    var r := e.grid.out[k];
    forall s | s in e.grid.out ensures FaithfulUnder(c, e, s, a) {
      var i :| 0 <= i < |e.grid.out| && e.grid.out[i] == s;
      FaithfulUnderTheOne(c, e, i, a);
    }
    FaithfulUnderTheOne(c, e, k, a);
    StartIsSeeded(c, e, k);
    SeedIs(c, e, r.periodSeconds, a);
    SamplesAre(c, e, r, a);
    LongWindow(m, q, c.rate);
    MultipleOfMultiple(r.startWallclock, m, q);
    SentByTheLastHarvest(c, e, k);
    js := ShortsWereSent(c, e, q, r.startWallclock, m, a);
    JoinedIsTiles(c, e, js, r.startWallclock, q, a);
    TilesAreOneWindow(e.tank.h, r.startWallclock, q, m, a, c.rate);
  }

  lemma FaithfulUnderTheOne(c: Config, e: Epoch, k: nat, a: real)
    requires EpochLaw(c, e) && k < |e.grid.out| && forall x <- e.grid.readings :: x == a
    ensures e.tag.Some? && k < |e.grid.out| == |e.grid.moments| && FaithfulUnder(c, e, e.grid.out[k], a)
    ensures var r := e.grid.out[k];
      Offset(r.startWallclock, a, c.rate) + WindowSamples(r.periodSeconds, c.rate) <= e.grid.moments[k].leading
  {
    hide FaithfulUnder, RightRequest, LedgerOk, AllJustified, Steady, Moved, Rose, ReadFromTape, Tagged, StampsOk,
         Offset, WindowSamples;
    RequestIsFaithful(c, e, k);
    assert InForce(e.grid.moments[k], e.grid.readings) in e.grid.readings;
  }

  lemma SentByTheLastHarvest(c: Config, e: Epoch, k: nat)
    requires EpochLaw(c, e) && e.tag.Some? && k < |e.grid.moments|
    ensures e.grid.moments[k].leading <= e.grid.leading
  {
    hide LedgerOk, AllRight, AllJustified, Steady, Moved, Rose, ReadFromTape, Tagged, StampsOk;
  }

  lemma LongWindow(m: nat, q: int, rate: nat)
    requires 0 < q
    ensures 0 <= WindowSamples(q, rate) && Modular.Minutes(m, WindowSamples(q, rate)) == WindowSamples(m * q, rate)
  {
    Modular.MinutesIsProduct(m, WindowSamples(q, rate));
    assert m * (q * rate) == m * q * rate;
  }

  lemma MultipleOfMultiple(x: int, m: nat, q: int)
    requires 0 < q && 0 < m * q && x % (m * q) == 0
    ensures x % q == 0
  {
    var i := x / (m * q);
    assert x == i * (m * q) == (i * m) * q;
    MultipleIsWhole(i * m, q);
  }
}
