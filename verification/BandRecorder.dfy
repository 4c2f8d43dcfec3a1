/**
 * The recorder object (wspr_recorder/band_recorder.py).  Its fields are the source's;
 * `Now` reads them as an epoch of CaptureModel, and every method is proved to do to
 * that epoch what the model says.
 */
module Recorder {
  import opened Audio
  import opened History
  import opened Modes
  import opened Slots
  import opened Requests
  import opened RingModel
  import opened CaptureModel
  import opened CaptureGrid
  import opened CaptureLaws
  import opened CaptureEpochs
  import opened CaptureRuns
  import opened CaptureSlots
  import opened CaptureClock
  import Modular
  import Ring
  import Rtp
  import Sync

  /** What the real map of next slots holds. */
  function NextSlots(cursors: map<int, Cursor>): map<int, int> { map p | p in cursors :: cursors[p].next }

  /** Everything sent in the epochs before this one. */
  function SentBefore(past: seq<Epoch>): seq<DecodeRequest>
  {
    if past == [] then [] else SentBefore(past[..|past| - 1]) + past[|past| - 1].grid.out
  }

  function DroppedBefore(past: seq<Epoch>): seq<Drop>
  {
    if past == [] then [] else DroppedBefore(past[..|past| - 1]) + past[|past| - 1].grid.drops
  }

  /** The real cursor map, reading count and output lists are the model's. */
  ghost predicate Couples(next: map<int, int>, count: nat, outbox: seq<DecodeRequest>, drops: seq<Drop>, g: Grid,
                          past: seq<Epoch>)
  {
    && next == NextSlots(g.cursors)
    && count == g.firstRead + |g.readings|
    && outbox == SentBefore(past) + g.out
    && drops == DroppedBefore(past) + g.drops
  }

  /** Closing an epoch leaves everything sent where it was. */
  lemma ClosingCouples(next: map<int, int>, count: nat, outbox: seq<DecodeRequest>, drops: seq<Drop>, e: Epoch,
                       past: seq<Epoch>)
    requires Couples(next, count, outbox, drops, e.grid, past)
    ensures count == e.grid.firstRead + |e.grid.readings|
    ensures Couples(map[], count, outbox, drops, Grid(count, [], 0.0, 0, map[], [], [], []), past + [e])
  {
    assert (past + [e])[..|past|] == past;
    assert outbox + [] == outbox && drops + [] == drops;
  }

  // --------------------------------------------------------------- harvest

  lemma RequestsSnoc(c: Config, t: Tank, rtp: Rtp.Timestamp, p: nat, ds: seq<Decision>, d: Decision)
    ensures RequestsFor(c, t, rtp, p, ds + [d]) ==
      RequestsFor(c, t, rtp, p, ds) +
      if d.outcome.Emitted? then [RequestFor(c, t, rtp, p, d.start, d.outcome.offset)] else []
    ensures DropsFor(p, ds + [d]) == DropsFor(p, ds) + if d.outcome.Dropped? then [Drop(p, d.start)] else []
    ensures CursorAfter(d.start, p, [d]) == CursorAfter(d.start, p, ds + [d]) == d.start + p
  {
    assert (ds + [d])[..|ds|] == ds;
  }

  /**
   * Midway through a harvest that began at `first`: these slots are decided, the rest of
   * the harvest begins at `nxt`.
   */
  ghost predicate Midway(c: Config, t: Tank, p: int, anchor: real, first: int, nxt: int, done: seq<Decision>)
    requires c.Valid() && IsPeriod(p)
  {
    && done + Harvest(nxt, p, anchor, c.rate, |t.h|, t.cap) == Harvest(first, p, anchor, c.rate, |t.h|, t.cap)
    && nxt == CursorAfter(first, p, done)
  }

  /** What the next slot calls for. */
  lemma HarvestTurn(c: Config, t: Tank, p: int, anchor: real, nxt: int)
    requires c.Valid() && IsPeriod(p)
    ensures var off, n := Offset(nxt, anchor, c.rate), WindowSamples(p, c.rate);
      var later := Harvest(nxt + p, p, anchor, c.rate, |t.h|, t.cap);
      && 0 < n
      && Offset(nxt + p, anchor, c.rate) == off + n
      && (off < 0 ==> Harvest(nxt, p, anchor, c.rate, |t.h|, t.cap) == [Decision(nxt, Skipped)] + later)
      && (0 <= off && |t.h| < off + n ==> Harvest(nxt, p, anchor, c.rate, |t.h|, t.cap) == [])
      && (0 <= off && off + n <= |t.h| ==>
           Harvest(nxt, p, anchor, c.rate, |t.h|, t.cap) == [Decide(nxt, p, off, n, |t.h|, t.cap)] + later)
  {
    OffsetStep(nxt, p, anchor, c.rate);
    WindowSamplesFacts(p, c.rate);
    hide Offset, WindowSamples;
  }

  lemma MidwayStep(c: Config, t: Tank, p: int, anchor: real, first: int, nxt: int, done: seq<Decision>, d: Decision)
    requires c.Valid() && IsPeriod(p) && Midway(c, t, p, anchor, first, nxt, done) && d.start == nxt
    requires Harvest(nxt, p, anchor, c.rate, |t.h|, t.cap) == [d] + Harvest(nxt + p, p, anchor, c.rate, |t.h|, t.cap)
    ensures Midway(c, t, p, anchor, first, nxt + p, done + [d])
  {
    hide Harvest;
    var later := Harvest(nxt + p, p, anchor, c.rate, |t.h|, t.cap);
    assert done + ([d] + later) == done + [d] + later;
  }

  class BandRecorder {
    const sampleRate: nat
    const modes: seq<DecodeMode>
    const anchorTape: nat -> Option<real>
    const faultTape: nat -> bool

    var ring: Ring.RingBuffer
    var sync: Sync.RtpSyncStrategy
    var synced: bool
    var lastHarvestOff: nat
    var minuteCount: nat
    var firstWallclock: Option<int>
    var firstRtp: Option<Rtp.Timestamp>
    var slotNextUtc: map<int, int>
    var resyncRequested: bool
    var anchorReads: nat
    var boundaries: nat
    /** Requests dispatched, and slots filed as dropped, oldest first. */
    var outbox: seq<DecodeRequest>
    var drops: seq<Drop>

    /** The stream of this epoch, where it was cut, its harvests, and the epochs before it. */
    ghost var src: Source
    ghost var origin: nat
    ghost var grid: Grid
    ghost var past: seq<Epoch>

    ghost function Cfg(): Config { Config(sampleRate, modes, anchorTape, faultTape) }

    ghost function TankNow(): Tank
      reads this`ring, ring
    {
      TankOf(ring)
    }

    ghost function TagNow(): Option<Label>
      reads this`firstWallclock, this`firstRtp, this`origin
    {
      if firstWallclock.Some? && firstRtp.Some? then Some(Label(firstWallclock.value, firstRtp.value, origin)) else None
    }

    ghost function ClockNow(): Clock
      reads this`minuteCount, this`boundaries, this`lastHarvestOff, this`resyncRequested
    {
      Clock(minuteCount, boundaries, lastHarvestOff, resyncRequested)
    }

    /** The epoch in progress, read off the fields. */
    ghost function Now(): Epoch
      reads this, ring, sync
    {
      Epoch(src, sync.State(), TankNow(), TagNow(), ClockNow(), grid)
    }

    ghost function Machine(): Machine
      reads this, ring, sync
    {
      CaptureModel.Machine(Now(), past)
    }

    /** The real cursor map and output lists are the model's. */
    ghost predicate GridCoupled()
      reads this`slotNextUtc, this`anchorReads, this`outbox, this`drops, this`grid, this`past
    {
      Couples(slotNextUtc, anchorReads, outbox, drops, grid, past)
    }

    ghost predicate Coupled()
      reads this, ring, ring.cells, sync
    {
      && Cfg().Valid()
      && ring.Valid() && ring.samplesPerMinute == sampleRate * 60
      && sync.sampleRate == sampleRate && sync.State().Ok()
      && synced == firstWallclock.Some? == firstRtp.Some?
      && GridCoupled()
    }

    ghost predicate Valid()
      reads this, ring, ring.cells, sync
    {
      Coupled() && !resyncRequested && ring.minuteCount < ring.samplesPerMinute
    }

    /** The slots of one period that are due, from `first` on, each turned into a request, a drop, or nothing. */
    method HarvestSlots(first: int, p: int, ms: seq<DecodeMode>, anchor: real)
      returns (nxt: int, ghost ds: seq<Decision>)
      requires Cfg().Valid() && ring.Valid() && firstRtp.Some? && IsPeriod(p) && ms == ModesWithPeriod(modes, p)
      modifies this`outbox, this`drops
      ensures ds == Harvest(first, p, anchor, sampleRate, |ring.history|, ring.capacity)
      ensures nxt == CursorAfter(first, p, ds)
      ensures outbox == old(outbox) + RequestsFor(Cfg(), TankNow(), firstRtp.value, p, ds)
      ensures drops == old(drops) + DropsFor(p, ds)
    {
      hide Offset, WindowSamples, Harvest, Midway, Inv, ModesWithPeriod, GapsWithin, Rtp.Wrap, RequestsFor, DropsFor;
      RingFacts();
      ghost var c, t := Cfg(), TankNow();
      var n := WindowSamples(p, sampleRate);
      var leading := ring.absoluteCount;
      nxt, ds := first, [];
      NothingYet(c, t, p, anchor, first, outbox, drops);
      while true
        invariant Midway(c, t, p, anchor, first, nxt, ds)
        invariant outbox == old(outbox) + RequestsFor(c, t, firstRtp.value, p, ds)
        invariant drops == old(drops) + DropsFor(p, ds)
        decreases if leading < Offset(nxt, anchor, sampleRate) then 0 else leading - Offset(nxt, anchor, sampleRate) + 1
      {
        HarvestTurn(c, t, p, anchor, nxt);
        var startOff := Offset(nxt, anchor, sampleRate);
        ghost var d := Decision(nxt, Skipped);
        if 0 <= startOff {
          if leading < startOff + n {
            break;
          }
          d := Decide(nxt, p, startOff, n, |t.h|, t.cap);
          var audio := AudioAt(p, startOff, n);
          if audio.Some? {
            var startRtp := Rtp.Wrap(firstRtp.value + startOff);
            var endRtp := Rtp.Wrap(startRtp + n);
            outbox := outbox + [DecodeRequest(ms, p, nxt, startRtp, endRtp, audio.value)];
          } else {
            drops := drops + [Drop(p, nxt)];
          }
        }
        MidwayStep(c, t, p, anchor, first, nxt, ds, d);
        RequestsSnoc(c, t, firstRtp.value, p, ds, d);
        ds := ds + [d];
        nxt := nxt + p;
      }
      MidwayEnd(c, t, p, anchor, first, nxt, ds);
    }

    /** The audio of a slot: long ones are left in the ring, short ones copied if they are still there. */
    method AudioAt(p: int, startOff: nat, n: nat) returns (audio: Option<AudioSource>)
      requires ring.Valid() && 0 < n && startOff + n <= |ring.history|
      ensures audio == if IsDeferred(p) || Resident(|ring.history|, ring.capacity, startOff, n)
                       then Some(AudioFor(TankNow(), p, startOff, n)) else None
    {
      if IsDeferred(p) {
        return Some(Deferred(ring, startOff, n));
      }
      var res := ring.ExtractByOffset(startOff, n);
      if res.None? {
        return None;
      }
      return Some(Eager(res.value));
    }

    lemma RingFacts()
      requires ring.Valid()
      ensures ring.absoluteCount == |ring.history|
      ensures ring.writePos < ring.capacity && 2 * ring.samplesPerMinute <= ring.capacity
    {
    }

    /** Harvest one period and move its cursor. */
    method HarvestPeriod(p: int, anchor: real)
      requires Cfg().Valid() && ring.Valid() && firstRtp.Some? && IsPeriod(p) && GridCoupled()
      modifies this`slotNextUtc, this`outbox, this`drops, this`grid
      ensures GridCoupled()
      ensures grid == CaptureModel.HarvestPeriod(Cfg(), TankNow(), firstRtp.value, old(grid), p, anchor)
    {
      hide Harvest, FirstSlot, ModesWithPeriod, RequestsFor, DropsFor, Inv, SentBefore, DroppedBefore, CursorAfter;
      ghost var c, t, g := Cfg(), TankNow(), grid;
      var first := if p in slotNextUtc then slotNextUtc[p] else FirstSlot(anchor, p);
      assert first == SlotAfter(g.cursors, p, anchor);
      var nxt;
      ghost var ds;
      nxt, ds := HarvestSlots(first, p, ModesWithPeriod(modes, p), anchor);
      slotNextUtc := slotNextUtc[p := nxt];
      grid := CaptureModel.HarvestPeriod(c, t, firstRtp.value, g, p, anchor);
      assert NextSlots(grid.cursors) == NextSlots(g.cursors)[p := nxt];
    }

    /** Radiod's live mapping of the anchor sample, or the frozen anchor when there is none. */
    method AnchorUtcNow() returns (anchor: real)
      requires firstWallclock.Some? && firstRtp.Some? && GridCoupled()
      modifies this`anchorReads, this`grid
      ensures anchor == NextReading(Cfg(), TagNow().value, old(grid))
      ensures grid == old(grid).(readings := old(grid.readings) + [anchor]) && GridCoupled()
    {
      anchor := anchorTape(anchorReads).GetOr(firstWallclock.value as real);
      anchorReads := anchorReads + 1;
      grid := grid.(readings := grid.readings + [anchor]);
    }

    method BeginHarvest() returns (anchor: real)
      requires firstWallclock.Some? && firstRtp.Some? && GridCoupled()
      modifies this`anchorReads, this`grid
      ensures GridCoupled() && anchor == NextReading(Cfg(), TagNow().value, old(grid))
      ensures grid ==
        old(grid).(readings := old(grid.readings) + [anchor], anchor := anchor, leading := old(|ring.history|))
    {
      anchor := AnchorUtcNow();
      grid := grid.(anchor := anchor, leading := |ring.history|);
    }

    /** Every configured period in turn. */
    method HarvestPeriods(anchor: real)
      requires Cfg().Valid() && ring.Valid() && firstRtp.Some? && GridCoupled()
      modifies this`slotNextUtc, this`outbox, this`drops, this`grid
      ensures GridCoupled()
      ensures grid == HarvestUpTo(Cfg(), TankNow(), firstRtp.value, old(grid), |Cfg().Periods()|, anchor)
    {
      hide Inv, CaptureModel.HarvestPeriod, Couples, PeriodsOf;
      var periods := PeriodsOf(modes);
      var i := 0;
      while i < |periods|
        invariant 0 <= i <= |periods| && GridCoupled()
        invariant grid == HarvestUpTo(Cfg(), TankNow(), firstRtp.value, old(grid), i, anchor)
      {
        assert periods[i] in periods;
        HarvestPeriod(periods[i], anchor);
        i := i + 1;
      }
    }

    /** Emit every slot whose audio has fully arrived, under a fresh reading of the anchor. */
    method HarvestReadySlots()
      requires Coupled() && synced
      modifies this
      ensures Coupled() && Now() == HarvestNow(Cfg(), old(Now()))
      ensures ring == old(ring) && sync == old(sync) && past == old(past)
    {
      hide Inv, HarvestUpTo, NextReading, Couples, PeriodsOf;
      var anchor := BeginHarvest();
      HarvestPeriods(anchor);
    }

    /** Count the minute, read the anchor for its label, and ask the watchdogs. */
    method CountMinute() returns (anchor: real)
      requires firstWallclock.Some? && firstRtp.Some? && GridCoupled()
      modifies this`minuteCount, this`boundaries, this`resyncRequested, this`anchorReads, this`grid
      ensures GridCoupled() && anchor == NextReading(Cfg(), TagNow().value, old(grid))
      ensures grid == old(grid).(readings := old(grid.readings) + [anchor])
      ensures minuteCount == old(minuteCount) + 1 && boundaries == old(boundaries) + 1
      ensures resyncRequested == faultTape(old(boundaries))
    {
      hide Couples, NextReading;
      minuteCount := minuteCount + 1;
      anchor := AnchorUtcNow();
      boundaries := boundaries + 1;
      resyncRequested := faultTape(boundaries - 1);
    }

    /** A full minute has been written.  Unless a watchdog asks for a re-sync, close it and harvest. */
    method OnMinuteBoundary()
      requires Coupled() && synced && !resyncRequested && ring.minuteCount == ring.samplesPerMinute
      modifies this, ring
      ensures Coupled() && Now() == EndMinute(Cfg(), old(Now()))
      ensures ring == old(ring) && sync == old(sync) && past == old(past)
      ensures !resyncRequested ==> ring.marks != []
      ensures !resyncRequested ==>
        MarkedAs(ring.marks[|ring.marks| - 1], NextReading(Cfg(), TagNow().value, old(grid)), old(minuteCount))
    {
      hide Inv, HarvestGrid, NextReading, Couples, Rtp.Wrap;
      var anchor := CountMinute();
      if resyncRequested {
        return;
      }
      var minuteWallclock := anchor + (60 * minuteCount) as real;
      var minuteRtp := Rtp.Wrap(firstRtp.value + minuteCount * (sampleRate * 60));
      MinuteStart(firstRtp.value, minuteCount - 1, sampleRate * 60);
      ring.CloseMinute(minuteWallclock, minuteRtp);
      HarvestReadySlots();
    }

    /** The mark of the minute that began `minutes` after the anchor sample: UTC under this reading, and RTP time. */
    ghost predicate MarkedAs(m: MinuteMark, anchor: real, minutes: nat)
      reads this`firstRtp
    {
      && m.wallclock == anchor + (60 * minutes) as real
      && firstRtp.Some? && m.rtpTimestamp == Rtp.Wrap(firstRtp.value + minutes * (sampleRate * 60))
    }

    /** Write a batch minute by minute; stops early when a watchdog asks for a re-sync. */
    method WriteMinutes(samples: seq<Sample>)
      requires Valid() && synced
      modifies this, ring, ring.cells
      ensures Coupled() && Now() == WriteAll(Cfg(), old(Now()), samples)
      ensures resyncRequested || ring.minuteCount < ring.samplesPerMinute
      ensures ring == old(ring) && sync == old(sync) && past == old(past)
    {
      hide Inv, HarvestGrid, NextReading, Couples, EndMinute;
      ghost var c, e := Cfg(), Now();
      var remaining := samples;
      while remaining != []
        invariant Valid() && synced && ring == old(ring) && sync == old(sync) && past == old(past)
        invariant WriteAll(c, e, samples) == WriteAll(c, Now(), remaining)
        decreases |remaining|
      {
        remaining := WriteOne(remaining);
        if resyncRequested {
          return;
        }
      }
    }

    /** One chunk, up to the end of the minute. */
    method WriteOne(remaining: seq<Sample>) returns (rest: seq<Sample>)
      requires Valid() && synced && remaining != []
      modifies this, ring, ring.cells
      ensures Coupled() && Now() == WriteChunk(Cfg(), old(Now()), remaining)
      ensures rest == remaining[ChunkSize(Cfg(), old(Now()), remaining)..]
      ensures synced && (resyncRequested || ring.minuteCount < ring.samplesPerMinute)
      ensures ring == old(ring) && sync == old(sync) && past == old(past)
    {
      hide Inv, HarvestGrid, NextReading, Couples;
      RingFacts();
      WriteChunkKeepsLabel(Cfg(), Now(), remaining);
      var space := ring.samplesPerMinute - ring.minuteCount;
      var chunkSize := if |remaining| < space then |remaining| else space;
      ring.WriteSamples(remaining[..chunkSize]);
      rest := remaining[chunkSize..];
      if ring.minuteCount >= ring.samplesPerMinute {
        OnMinuteBoundary();
      }
    }

    /** Write what is left of a batch after the sync cut, and harvest, at most once per second of audio. */
    method Deliver(rest: seq<Sample>)
      requires Valid() && synced
      modifies this, ring, ring.cells
      ensures Coupled() && Now() == CaptureModel.Deliver(Cfg(), old(Now()), rest)
      ensures resyncRequested || ring.minuteCount < ring.samplesPerMinute
      ensures ring == old(ring) && sync == old(sync) && past == old(past)
    {
      hide Inv, HarvestGrid, NextReading, Couples, WriteAll;
      WriteAllKeepsLabel(Cfg(), Now(), rest);
      WriteMinutes(rest);
      if !resyncRequested {
        RingFacts();
        if ring.absoluteCount - lastHarvestOff >= sampleRate {
          lastHarvestOff := ring.absoluteCount;
          HarvestReadySlots();
        }
      }
    }

    method AcceptSync(decision: Sync.SyncDecision, ghost before: nat)
      modifies this`synced, this`firstWallclock, this`firstRtp, this`origin, sync
      ensures sync.State() == Sync.Advance(old(sync.State()), sync.sampleRate)
      ensures synced && firstWallclock == Some(decision.startWallclock) && firstRtp == Some(decision.startRtp)
      ensures origin == before + decision.sampleOffset
    {
      synced := true;
      firstWallclock := Some(decision.startWallclock);
      firstRtp := Some(decision.startRtp);
      origin := before + decision.sampleOffset;
      sync.OnMinuteStarted();
    }

    /** Look for the minute boundary in a batch, and cut the batch there. */
    method TrySync(samples: seq<Sample>, rtp: Rtp.Timestamp, referenceMicros: int) returns (rest: seq<Sample>)
      requires Valid() && !synced
      modifies this, sync
      ensures Valid() && (Now(), rest) == Listen(Cfg(), old(Now()), samples, rtp, referenceMicros)
      ensures synced ==>
        && sync.nextMinute == Some(firstWallclock.value + 60)
        && sync.nextBoundary == Some(sync.unwrapped + (|samples| - |rest|) + 60 * sampleRate)
      ensures ring == old(ring) && sync == old(sync) && past == old(past)
    {
      hide Inv, Couples, Stamps, Sync.HearPacket, Sync.DecisionFor, Arrive;
      src := Arrive(src, samples, rtp, referenceMicros);
      var decision := sync.ShouldStartMinute(rtp, |samples|, referenceMicros);
      OffsetInside(sync.State(), rtp, |samples|);
      if decision.None? {
        return [];
      }
      Sync.AdvancedPast(sync.State(), rtp, |samples|, sampleRate);
      AcceptSync(decision.value, old(|src.stream|));
      rest := samples[decision.value.sampleOffset..];
    }

    /** One batch of the stream, of any length. */
    method AddSamples(samples: seq<Sample>, rtp: Rtp.Timestamp, referenceMicros: int)
      requires Valid()
      modifies this, ring, ring.cells, sync
      ensures Coupled() && Now() == CaptureModel.AddSamples(Cfg(), old(Now()), samples, rtp, referenceMicros)
      ensures resyncRequested || ring.minuteCount < ring.samplesPerMinute
      ensures ring == old(ring) && sync == old(sync) && past == old(past)
    {
      hide Inv, Couples, Stamps, CaptureModel.Deliver, Listen;
      if !synced {
        var rest := TrySync(samples, rtp, referenceMicros);
        if synced {
          Deliver(rest);
        }
      } else {
        src := Arrive(src, samples, rtp, referenceMicros);
        Deliver(samples);
      }
    }

    /** File the batch's gaps, each at the current end of the open minute and clipped to two seconds. */
    method RecordGaps(durations: seq<int>)
      requires Valid()
      modifies ring
      ensures Valid() && Now() == FileGaps(Cfg(), old(Now()), durations)
      ensures |ring.gapLog| == old(|ring.gapLog|) + |durations| && old(ring.gapLog) <= ring.gapLog
      ensures forall i :: 0 <= i < |durations| ==>
        var filed := ring.gapLog[old(|ring.gapLog|) + i];
        && filed.at == |ring.history| && filed.gap.position == ring.minuteCount
        && filed.gap.duration == if durations[i] <= 2 * sampleRate then durations[i] else 2 * sampleRate
    {
      hide Inv, NextSlots, SentBefore, DroppedBefore, GridCoupled;
      var k := 0;
      assert old(ring.gapLog) + [] == old(ring.gapLog);
      while k < |durations|
        invariant 0 <= k <= |durations|
        invariant ring.Valid() && ring.history == old(ring.history) && ring.minuteCount == old(ring.minuteCount)
        invariant ring.gapLog ==
          old(ring.gapLog) + FiledGaps(durations[..k], |ring.history|, ring.minuteCount, 2 * sampleRate)
      {
        assert durations[..k + 1][..k] == durations[..k];
        var gapSamples := if durations[k] > sampleRate * 2 then sampleRate * 2 else durations[k];
        ring.RecordGap(GapEvent(ring.minuteCount, gapSamples, 0, 0, ""));
        k := k + 1;
      }
      assert durations[..k] == durations;
    }

    /** A new ring for the configured modes. */
    static method NewRing(modes: seq<DecodeMode>, sampleRate: nat) returns (ring: Ring.RingBuffer)
      requires 0 < sampleRate
      ensures fresh(ring) && fresh(ring.cells) && ring.Valid()
      ensures ring.history == [] && ring.gapLog == [] && ring.minuteCount == 0
      ensures ring.samplesPerMinute == sampleRate * 60
      ensures Roomy(PeriodsOf(modes), sampleRate, ring.capacity)
      ensures ring.capacity == (MaxPeriod(modes) + 600) * sampleRate
    {
      hide Inv, PeriodsOf, MaxPeriod, WindowSamples, Roomy;
      var capacity := MaxPeriod(modes) + RING_HEADROOM_SECONDS;
      ring := new Ring.RingBuffer(capacity, sampleRate);
      InvFacts(ring.State(), ring.cells[..], ring.capacityMinutes, ring.samplesPerMinute);
      ExactlyFits(modes, capacity, ring.capacityMinutes, sampleRate);
      RoomFor(modes, capacity, ring.capacityMinutes, sampleRate);
    }

    /** Start over: fresh ring, fresh cursors, no correlation; what was sent stays sent. */
    method Reset()
      requires Coupled()
      modifies this, sync
      ensures Valid() && !synced && sync == old(sync) && fresh(ring) && fresh(ring.cells)
      ensures Machine() == StartOver(old(Machine()), ring, ring.capacity)
      ensures Roomy(PeriodsOf(modes), sampleRate, ring.capacity)
    {
      hide Inv, Roomy, PeriodsOf, Couples, Valid;
      ghost var readings := grid.firstRead + |grid.readings|;
      ClearGrid(Now());
      ClearFields();
      sync.Reset();
      BlankRing(readings);
    }

    /** A fresh ring completes a blank epoch. */
    method BlankRing(ghost readings: nat)
      requires src == NO_STREAM && sync.State() == Sync.UNSYNCED
      requires TagNow() == None && ClockNow() == Clock(0, boundaries, 0, false)
      requires grid == Grid(readings, [], 0.0, 0, map[], [], [], [])
      requires Cfg().Valid() && sync.sampleRate == sampleRate && !synced && firstWallclock == None && firstRtp == None
      requires GridCoupled()
      modifies this`ring
      ensures fresh(ring) && fresh(ring.cells) && Valid()
      ensures Now() == BlankEpoch(ring, ring.capacity, readings, boundaries)
      ensures Roomy(PeriodsOf(modes), sampleRate, ring.capacity)
    {
      hide Inv, Roomy, PeriodsOf, Couples;
      ring := NewRing(modes, sampleRate);
    }

    /** The plain fields of a reset. */
    method ClearFields()
      modifies this`synced, this`lastHarvestOff, this`resyncRequested, this`minuteCount, this`firstWallclock,
               this`firstRtp
      ensures !synced && TagNow() == None && firstWallclock == firstRtp == None
      ensures ClockNow() == Clock(0, boundaries, 0, false)
    {
      synced, lastHarvestOff, resyncRequested, minuteCount := false, 0, false, 0;
      firstWallclock, firstRtp := None, None;
    }

    /** Empty the cursor map; the epoch that ends is kept whole. */
    method ClearGrid(ghost e: Epoch)
      requires GridCoupled() && e.grid == grid
      modifies this`slotNextUtc, this`past, this`src, this`grid
      ensures past == old(past) + [e] && GridCoupled()
      ensures src == NO_STREAM
      ensures grid == Grid(old(grid.firstRead + |grid.readings|), [], 0.0, 0, map[], [], [], [])
    {
      hide Couples;
      ClosingCouples(slotNextUtc, anchorReads, outbox, drops, e, past);
      slotNextUtc := map[];
      past := past + [e];
      src := NO_STREAM;
      grid := Grid(anchorReads, [], 0.0, 0, map[], [], [], []);
    }

    constructor (sampleRate: nat, modes: seq<DecodeMode>, anchorTape: nat -> Option<real>, faultTape: nat -> bool)
      requires 0 < sampleRate
      ensures Valid() && !synced
      ensures Cfg() == Config(sampleRate, if modes == [] then [W2] else modes, anchorTape, faultTape)
      ensures fresh(ring) && fresh(ring.cells) && fresh(sync)
      ensures Machine() == CaptureModel.Machine(BlankEpoch(ring, ring.capacity, 0, 0), [])
      ensures Roomy(PeriodsOf(this.modes), sampleRate, ring.capacity)
      ensures ring.capacity == RingSamples(this.modes, sampleRate)
    {
      hide Inv, Roomy, PeriodsOf, MaxPeriod;
      var ms := if modes == [] then [W2] else modes;
      var r := NewRing(ms, sampleRate);
      var y := new Sync.RtpSyncStrategy(sampleRate);
      this.sampleRate, this.modes, this.anchorTape, this.faultTape := sampleRate, ms, anchorTape, faultTape;
      ring, sync := r, y;
      synced, lastHarvestOff, resyncRequested, minuteCount := false, 0, false, 0;
      firstWallclock, firstRtp := None, None;
      slotNextUtc, outbox, drops := map[], [], [];
      anchorReads, boundaries := 0, 0;
      src, origin, past := NO_STREAM, 0, [];
      grid := Grid(0, [], 0.0, 0, map[], [], [], []);
    }

    /**
     * A batch with its metadata, as the receiver delivers it; a ring that a reset leaves
     * behind keeps what it holds.
     */
    method OnSamples(samples: seq<Sample>, q: Quality, referenceMicros: int)
      requires Valid()
      modifies this, ring, ring.cells, sync
      ensures Valid() && sync == old(sync)
      ensures (ring == old(ring) && ring.cells == old(ring.cells)) || (fresh(ring) && fresh(ring.cells))
      ensures ring != old(ring) ==> Roomy(Cfg().Periods(), sampleRate, ring.capacity)
      ensures if ring == old(ring) then past == old(past) else LeavesBehind(old(past), past, old(ring))
      ensures Machine() ==
        CaptureModel.OnSamples(Cfg(), old(Machine()), Batch(samples, q, referenceMicros, ring, ring.capacity))
      ensures old(ring).Valid() && Grown(old(TankNow()), TankOf(old(ring)), |samples|)
    {
      hide Inv, Couples, CaptureModel.AddSamples, FileGaps, Roomy, PeriodsOf, Grown;
      if samples == [] {
        GrownStays(TankNow(), TankNow());
        return;
      }
      ghost var c, e := Cfg(), Now();
      GapsGrow(c, e, q.gapDurations);
      RecordGaps(q.gapDurations);
      var rtp := BatchRtp(q, |samples|);
      BatchGrows(c, Now(), samples, rtp, referenceMicros);
      GrownTwice(e.tank, Now().tank, CaptureModel.AddSamples(c, Now(), samples, rtp, referenceMicros).tank,
                 0, |samples|);
      AddSamples(samples, rtp, referenceMicros);
      if resyncRequested {
        Reset();
      }
    }
  }

  /** One more epoch has ended, and the ring it leaves behind holds what it ended with. */
  ghost predicate LeavesBehind(before: seq<Epoch>, past: seq<Epoch>, ring: Ring.RingBuffer)
    reads ring
  {
    |past| == |before| + 1 && past[..|before|] == before && past[|before|].tank == TankOf(ring)
  }

  /** Every ring left behind still holds what its epoch ended with. */
  ghost predicate PastHolds(past: seq<Epoch>)
    reads set e <- past :: e.tank.ring, set e <- past :: e.tank.ring.cells
  {
    forall e <- past :: e.tank.ring.Valid() && TankOf(e.tank.ring) == e.tank
  }

  /** None of them is the ring in use. */
  ghost predicate Apart(past: seq<Epoch>, ring: Ring.RingBuffer)
  {
    forall e <- past :: e.tank.ring != ring && e.tank.ring.cells != ring.cells
  }

  ghost function TankOf(ring: Ring.RingBuffer): Tank
    reads ring
  {
    Tank(ring, ring.capacity, ring.history, ring.gapLog, ring.minuteCount)
  }

  /** A minute ends one minute of samples after it began. */
  lemma MinuteStart(rtp: Rtp.Timestamp, minutes: nat, spm: int)
    ensures Rtp.Wrap(Rtp.Wrap(rtp + (minutes + 1) * spm) - spm) == Rtp.Wrap(rtp + minutes * spm)
  {
    Rtp.WrapAdd(rtp + (minutes + 1) * spm, -spm);
    assert (minutes + 1) * spm == minutes * spm + spm;
  }

  lemma RoomFor(modes: seq<DecodeMode>, seconds: int, capMinutes: nat, rate: nat)
    requires seconds == MaxPeriod(modes) + RING_HEADROOM_SECONDS && seconds <= 60 * capMinutes
    ensures Roomy(PeriodsOf(modes), rate, Modular.Minutes(capMinutes, rate * 60))
  {
    hide WindowSamples, PeriodsOf, MaxPeriod;
    CapacityCovers(seconds, capMinutes, rate);
    forall p | p in PeriodsOf(modes)
      ensures WindowSamples(p, rate) + WindowSamples(RING_HEADROOM_SECONDS, rate) <=
        Modular.Minutes(capMinutes, rate * 60)
    {
      WindowSamplesAdd(p, RING_HEADROOM_SECONDS, rate);
      WindowSamplesMonotone(p + RING_HEADROOM_SECONDS, seconds, rate);
    }
  }

  /** Every period is whole minutes, so the ring is no larger than it was asked to be. */
  lemma ExactlyFits(modes: seq<DecodeMode>, seconds: int, capMinutes: nat, rate: nat)
    requires seconds == MaxPeriod(modes) + RING_HEADROOM_SECONDS && seconds <= 60 * capMinutes
    requires capMinutes == 2 || 60 * (capMinutes - 1) < seconds
    ensures Modular.Minutes(capMinutes, rate * 60) == (MaxPeriod(modes) + 600) * rate
  {
    assert MaxPeriod(modes) % 60 == 0;
    assert 60 * capMinutes == seconds;
    Modular.MinutesIsProduct(capMinutes, rate * 60);
    assert capMinutes * (rate * 60) == (60 * capMinutes) * rate;
  }

  /** A ring of whole minutes covers the seconds it was asked for. */
  lemma CapacityCovers(seconds: int, capMinutes: nat, rate: nat)
    requires seconds <= 60 * capMinutes
    ensures WindowSamples(seconds, rate) <= Modular.Minutes(capMinutes, rate * 60)
  {
    Modular.MinutesIsProduct(capMinutes, rate * 60);
    assert capMinutes * (rate * 60) == (60 * capMinutes) * rate;
    WindowSamplesMonotone(seconds, 60 * capMinutes, rate);
  }

  lemma NothingYet(c: Config, t: Tank, p: int, anchor: real, first: int, out: seq<DecodeRequest>, drops: seq<Drop>)
    requires c.Valid() && IsPeriod(p)
    ensures Midway(c, t, p, anchor, first, first, [])
    ensures forall rtp :: out + RequestsFor(c, t, rtp, p, []) == out
    ensures drops + DropsFor(p, []) == drops
  {
    assert [] + Harvest(first, p, anchor, c.rate, |t.h|, t.cap) == Harvest(first, p, anchor, c.rate, |t.h|, t.cap);
  }

  lemma MidwayEnd(c: Config, t: Tank, p: int, anchor: real, first: int, nxt: int, ds: seq<Decision>)
    requires c.Valid() && IsPeriod(p) && Midway(c, t, p, anchor, first, nxt, ds)
    requires Harvest(nxt, p, anchor, c.rate, |t.h|, t.cap) == []
    ensures ds == Harvest(first, p, anchor, c.rate, |t.h|, t.cap) && nxt == CursorAfter(first, p, ds)
  {
    assert ds + [] == ds;
  }

  // ------------------------------------------------------------ whole runs

  /**
   * What a recorder is told: samples with their metadata and the UTC of the first in
   * microseconds, or that the stream was restored and it has to start over.
   */
  datatype Call = Delivery(samples: seq<Sample>, quality: Quality, reference: int) | Restored

  /** A call as an input of the model, given the ring the recorder has afterwards. */
  function InputFor(d: Call, ring: Ring.RingBuffer, cap: nat): Input
  {
    match d
    case Delivery(samples, quality, reference) => Batch(samples, quality, reference, ring, cap)
    case Restored => ResetCall(ring, cap)
  }

  /** The inputs are these calls. */
  ghost predicate Feeds(inputs: seq<Input>, calls: seq<Call>)
  {
    |inputs| == |calls| && forall k :: 0 <= k < |calls| ==> FeedsOne(inputs[k], calls[k])
  }

  ghost predicate FeedsOne(i: Input, d: Call) { i == InputFor(d, i.spare, i.spareCap) }

  function Length(d: Call): nat { if d.Delivery? then |d.samples| else 0 }

  /** One call; a ring that is replaced keeps what it holds. */
  method Handle(rec: BandRecorder, d: Call)
    requires rec.Valid() && PastHolds(rec.past) && Apart(rec.past, rec.ring)
    modifies rec, rec.ring, rec.ring.cells, rec.sync
    ensures rec.Valid() && rec.sync == old(rec.sync)
    ensures
      (rec.ring == old(rec.ring) && rec.ring.cells == old(rec.ring.cells)) || (fresh(rec.ring) && fresh(rec.ring.cells))
    ensures rec.ring != old(rec.ring) ==> Roomy(rec.Cfg().Periods(), rec.sampleRate, rec.ring.capacity)
    ensures CanStep(rec.Cfg(), old(rec.Machine()))
    ensures rec.Machine() == Next(rec.Cfg(), old(rec.Machine()), InputFor(d, rec.ring, rec.ring.capacity))
    ensures old(rec.ring).Valid() && Grown(old(rec.TankNow()), TankOf(old(rec.ring)), Length(d))
    ensures PastHolds(rec.past) && Apart(rec.past, rec.ring) && old(rec.past) <= rec.past
    ensures if rec.ring == old(rec.ring) then rec.past == old(rec.past)
            else LeavesBehind(old(rec.past), rec.past, old(rec.ring))
  {
    hide Inv, Roomy, CaptureModel.OnSamples, PeriodsOf, Grown, Couples, BandRecorder.Coupled;
    ghost var before, ring := rec.past, rec.ring;
    Deal(rec, d);
    assert PastHolds(before);
    if rec.ring != ring {
    }
  }

  /** The call itself. */
  method Deal(rec: BandRecorder, d: Call)
    requires rec.Valid()
    modifies rec, rec.ring, rec.ring.cells, rec.sync
    ensures rec.Valid() && rec.sync == old(rec.sync)
    ensures
      (rec.ring == old(rec.ring) && rec.ring.cells == old(rec.ring.cells)) || (fresh(rec.ring) && fresh(rec.ring.cells))
    ensures rec.ring != old(rec.ring) ==> Roomy(rec.Cfg().Periods(), rec.sampleRate, rec.ring.capacity)
    ensures CanStep(rec.Cfg(), old(rec.Machine()))
    ensures rec.Machine() == Next(rec.Cfg(), old(rec.Machine()), InputFor(d, rec.ring, rec.ring.capacity))
    ensures old(rec.ring).Valid() && Grown(old(rec.TankNow()), TankOf(old(rec.ring)), Length(d))
    ensures if rec.ring == old(rec.ring) then rec.past == old(rec.past)
            else LeavesBehind(old(rec.past), rec.past, old(rec.ring))
  {
    hide Inv, Roomy, CaptureModel.OnSamples, PeriodsOf, Grown, Couples;
    match d
    case Delivery(samples, quality, reference) => rec.OnSamples(samples, quality, reference);
    case Restored =>
      GrownStays(rec.TankNow(), rec.TankNow());
      rec.Reset();
  }

  /** A new recorder's state. */
  ghost function Beginning(ring: Ring.RingBuffer, cap: nat): Machine
  {
    CaptureModel.Machine(BlankEpoch(ring, cap, 0, 0), [])
  }

  lemma BeginningIsLawful(c: Config, ring: Ring.RingBuffer, cap: nat)
    requires c.Valid() && Roomy(c.Periods(), c.rate, cap)
    ensures MachineLaw(c, Beginning(ring, cap))
  {
    hide Roomy, Open;
    BlankIsOpen(c, ring, cap, 0, 0);
  }

  lemma BeginningIsTimely(c: Config, ring: Ring.RingBuffer, cap: nat)
    ensures AllTimely(c, Beginning(ring, cap))
  {
    BlankIsTimely(c, ring, cap, 0, 0);
    hide Timely;
  }

  lemma RunSnoc(c: Config, m: Machine, inputs: seq<Input>, i: Input)
    requires MachineLaw(c, m) && InputsOk(c, inputs) && InputOk(c, i)
    ensures InputsOk(c, inputs + [i]) && CanStep(c, RunAll(c, m, inputs))
    ensures RunAll(c, m, inputs + [i]) == Next(c, RunAll(c, m, inputs), i)
  {
    hide MachineLaw, Next, CanStep, InputOk;
    assert (inputs + [i])[..|inputs|] == inputs;
    CanAlwaysStep(c, RunAll(c, m, inputs));
  }

  /**
   * A new recorder given any calls: its state is the model's run over exactly those
   * inputs, and its output lists are what the model's epochs sent and dropped.
   */
  method Capture(sampleRate: nat, modes: seq<DecodeMode>, anchorTape: nat -> Option<real>, faultTape: nat -> bool,
                 calls: seq<Call>)
    returns (rec: BandRecorder, ghost first: Machine, ghost inputs: seq<Input>)
    requires 0 < sampleRate
    ensures fresh(rec) && rec.Valid()
    ensures rec.Cfg() == Config(sampleRate, if modes == [] then [W2] else modes, anchorTape, faultTape)
    ensures MachineLaw(rec.Cfg(), first) && first == Beginning(first.now.tank.ring, first.now.tank.cap)
    ensures InputsOk(rec.Cfg(), inputs) && Feeds(inputs, calls)
    ensures rec.Machine() == RunAll(rec.Cfg(), first, inputs)
    ensures rec.outbox == SentBefore(Epochs(rec.Machine())) && rec.drops == DroppedBefore(Epochs(rec.Machine()))
    ensures AllFaithful(rec.Cfg(), rec.Machine())
    ensures AllTimely(rec.Cfg(), rec.Machine()) && BoundariesChained(Epochs(rec.Machine()))
    ensures LoggedGaps(Epochs(rec.Machine())) == DeliveredGaps(rec.Cfg(), inputs)
    ensures Streams(Epochs(rec.Machine())) == Delivered(inputs)
    ensures StreamStamps(Epochs(rec.Machine())) == DeliveredStamps(inputs)
    ensures WholeByStamps(rec.Machine()) && (Short(inputs) ==> NoneLong(rec.Machine()))
    ensures Continuous(inputs) ==> AllWhole(rec.Machine())
    ensures AllRead(rec.Cfg(), rec.Machine()) && AllDropsFollow(rec.Cfg(), rec.Machine())
    ensures AllCalm(rec.Cfg(), rec.Machine()) ==> rec.drops == []
    ensures PastHolds(rec.past) && Apart(rec.past, rec.ring)
  {
    hide Inv, MachineLaw, Roomy, RunAll, BandRecorder.Coupled, CaptureModel.OnSamples, PeriodsOf, AllFaithful, AllWhole,
         Continuous, AllRead, AllDropsFollow, AllCalm, Delivered, DeliveredStamps, Streams, StreamStamps, Short,
         WholeByStamps, NoneLong, PastHolds, Apart, RingSamples, AllTimely, BoundariesChained, LoggedGaps,
         DeliveredGaps;
    rec := new BandRecorder(sampleRate, modes, anchorTape, faultTape);
    ghost var c := rec.Cfg();
    first, inputs := rec.Machine(), [];
    BeginningIsLawful(c, rec.ring, rec.ring.capacity);
    assert AllTimely(c, first) by { BeginningIsTimely(c, rec.ring, rec.ring.capacity); }
    assert PastHolds([]) && Apart([], rec.ring) by { NothingBehind(rec.ring); }
    assert RunAll(c, first, []) == first by { RunNothing(c, first); }
    var i := 0;
    while i < |calls|
      invariant 0 <= i <= |calls|
      invariant fresh(rec) && fresh(rec.ring) && fresh(rec.ring.cells) && fresh(rec.sync)
      invariant rec.Cfg() == c && rec.Valid() && PastHolds(rec.past) && Apart(rec.past, rec.ring)
      invariant InputsOk(c, inputs) && Feeds(inputs, calls[..i])
      invariant rec.Machine() == RunAll(c, first, inputs)
    {
      ghost var next := FeedNext(rec, first, inputs, calls[i]);
      assert calls[..i + 1] == calls[..i] + [calls[i]];
      inputs := inputs + [next];
      i := i + 1;
    }
    assert calls[..i] == calls;
    ListsAre(rec);
    RunResults(c, first, inputs);
  }

  method FeedNext(rec: BandRecorder, ghost first: Machine, ghost inputs: seq<Input>, d: Call)
    returns (ghost next: Input)
    requires rec.Valid() && MachineLaw(rec.Cfg(), first) && InputsOk(rec.Cfg(), inputs)
    requires rec.Machine() == RunAll(rec.Cfg(), first, inputs)
    requires PastHolds(rec.past) && Apart(rec.past, rec.ring)
    modifies rec, rec.ring, rec.ring.cells, rec.sync
    ensures rec.Valid() && rec.sync == old(rec.sync) && PastHolds(rec.past) && Apart(rec.past, rec.ring)
    ensures
      (rec.ring == old(rec.ring) && rec.ring.cells == old(rec.ring.cells)) || (fresh(rec.ring) && fresh(rec.ring.cells))
    ensures FeedsOne(next, d) && InputsOk(rec.Cfg(), inputs + [next])
    ensures rec.Machine() == RunAll(rec.Cfg(), first, inputs + [next])
  {
    hide Inv, MachineLaw, Roomy, RunAll, BandRecorder.Coupled, CaptureModel.OnSamples, PeriodsOf, Grown, PastHolds,
         Apart;
    ghost var c, m := rec.Cfg(), rec.Machine();
    Handle(rec, d);
    next := InputFor(d, rec.ring, rec.ring.capacity);
    OpenIsRoomy(c, m);
    RunSnoc(c, first, inputs, next);
  }

  lemma NothingBehind(ring: Ring.RingBuffer)
    ensures PastHolds([]) && Apart([], ring)
  {
  }

  lemma OpenIsRoomy(c: Config, m: Machine)
    requires MachineLaw(c, m)
    ensures Roomy(c.Periods(), c.rate, m.now.tank.cap)
  {
    hide Roomy, EpochLaw, Awaits;
  }

  lemma RunNothing(c: Config, m: Machine)
    requires MachineLaw(c, m)
    ensures RunAll(c, m, []) == m
  {
  }

  lemma ListsAre(rec: BandRecorder)
    requires rec.Valid()
    ensures rec.outbox == SentBefore(Epochs(rec.Machine())) && rec.drops == DroppedBefore(Epochs(rec.Machine()))
  {
    hide Inv;
    assert (rec.past + [rec.Now()])[..|rec.past|] == rec.past;
  }

  // ------------------------------------------------------ what a run amounts to

  ghost predicate AllFaithful(c: Config, m: Machine)
  {
    forall e <- Epochs(m) :: forall k :: 0 <= k < |e.grid.out| ==> Faithful(c, e, k)
  }

  ghost predicate AllWhole(m: Machine) { forall e <- Epochs(m) :: Whole(e) }

  /** Each epoch is unbroken exactly when the RTP times it arrived under count up, no batch of it being over-long. */
  ghost predicate WholeByStamps(m: Machine)
  {
    forall e <- Epochs(m) :: Whole(e) <==> Consecutive(e.src.stamps) && e.src.longest <= Rtp.HALF
  }

  ghost predicate NoneLong(m: Machine) { forall e <- Epochs(m) :: e.src.longest <= Rtp.HALF }

  /** The epochs read the anchor tape from its start, each going on where the one before it stopped. */
  ghost predicate AllRead(c: Config, m: Machine)
  {
    && Chained(Epochs(m)) && Epochs(m)[0].grid.firstRead == 0
    && forall e <- Epochs(m) :: e.tag.Some? ==> e.grid.readings == Anchors(c, e)
  }

  /** Nothing is dropped unless the anchor rose by more than 539 s in the epoch's stretch of the tape. */
  ghost predicate Calm(c: Config, e: Epoch) { e.tag.Some? ==> !Rose(Anchors(c, e), MAX_RISE) }

  ghost predicate DropsFollow(c: Config, e: Epoch)
  {
    && (Calm(c, e) ==> e.grid.drops == [])
    && (e.tag.Some? && !Moved(Anchors(c, e)) ==> Steady(c, e.tank, e.grid))
  }

  ghost predicate AllDropsFollow(c: Config, m: Machine) { forall e <- Epochs(m) :: DropsFollow(c, e) }

  lemma {:induction false} NothingDroppedBefore(es: seq<Epoch>)
    requires forall e <- es :: e.grid.drops == []
    ensures DroppedBefore(es) == []
    decreases |es|
  {
    if es != [] {
      assert es[|es| - 1] in es && forall e <- es[..|es| - 1] :: e in es;
      NothingDroppedBefore(es[..|es| - 1]);
    }
  }

  ghost predicate AllCalm(c: Config, m: Machine) { forall e <- Epochs(m) :: Calm(c, e) }

  /**
   * Any run of any inputs.  The epochs' streams are what was delivered, under the RTP
   * times it was delivered under, and their gap logs the gaps; every request ever sent
   * is faithful to its epoch's stream; an epoch is unbroken exactly when its RTP times
   * count up, and all are if each batch starts where the one before ended or after a
   * reset; the anchor tape is read once, in order; minutes, watchdogs and harvests keep
   * time; and an epoch in whose stretch of the tape the anchor rises by no more than
   * 539 s drops nothing.
   */
  lemma RunResults(c: Config, first: Machine, inputs: seq<Input>)
    requires MachineLaw(c, first) && InputsOk(c, inputs)
    requires first.past == [] && first.now.src == NO_STREAM && first.now.grid.firstRead == 0
    requires AllTimely(c, first) && first.now.tank.log == []
    ensures var m := RunAll(c, first, inputs);
      && AllFaithful(c, m)
      && AllTimely(c, m) && BoundariesChained(Epochs(m)) && LoggedGaps(Epochs(m)) == DeliveredGaps(c, inputs)
      && Streams(Epochs(m)) == Delivered(inputs) && StreamStamps(Epochs(m)) == DeliveredStamps(inputs)
      && WholeByStamps(m) && (Short(inputs) ==> NoneLong(m))
      && (Continuous(inputs) ==> AllWhole(m))
      && AllRead(c, m) && AllDropsFollow(c, m)
      && (AllCalm(c, m) ==> DroppedBefore(Epochs(m)) == [])
  {
    hide MachineLaw, RunAll, Faithful, Continuous, Delivered, DeliveredStamps, Steady, Anchors, Rose, Moved, Chained,
         Consecutive, Whole, DropsFollow, Calm, AllTimely, BoundariesChained, LoggedGaps, DeliveredGaps;
    var m := RunAll(c, first, inputs);
    forall e | e in Epochs(m) ensures forall k :: 0 <= k < |e.grid.out| ==> Faithful(c, e, k) {
      forall k | 0 <= k < |e.grid.out| ensures Faithful(c, e, k) {
        EveryRequestIsFaithful(c, m, e, k);
      }
    }
    GapsOfTheRun(c, first, inputs);
    StreamIsDelivered(c, first, inputs);
    assert Streams(Epochs(first)) + Delivered(inputs) == Delivered(inputs) by { StreamsSnoc([], first.now); }
    assert StreamStamps(Epochs(first)) + DeliveredStamps(inputs) == DeliveredStamps(inputs) by {
      StreamsSnoc([], first.now);
    }
    forall e | e in Epochs(m) ensures Whole(e) <==> Consecutive(e.src.stamps) && e.src.longest <= Rtp.HALF {
      WholeExactly(c, m, e);
    }
    if Short(inputs) {
      ShortBatches(c, first, inputs);
    }
    if Continuous(inputs) {
      ContinuousIsWhole(c, first, inputs);
    }
    assert Chained(Epochs(first)) by { OneIsChained(first); }
    TapeIsReadOnce(c, first, inputs);
    forall e | e in Epochs(m) ensures DropsFollow(c, e) && (e.tag.Some? ==> e.grid.readings == Anchors(c, e)) {
      EpochDrops(c, m, e);
    }
    if AllCalm(c, m) {
      assert forall e <- Epochs(m) :: e.grid.drops == [] by { CalmDropsNothing(c, m); }
      NothingDroppedBefore(Epochs(m));
    }
  }

  lemma GapsOfTheRun(c: Config, first: Machine, inputs: seq<Input>)
    requires MachineLaw(c, first) && InputsOk(c, inputs) && AllTimely(c, first)
    requires first.past == [] && first.now.tank.log == []
    ensures var m := RunAll(c, first, inputs);
      AllTimely(c, m) && BoundariesChained(Epochs(m)) && LoggedGaps(Epochs(m)) == DeliveredGaps(c, inputs)
  {
    hide MachineLaw, AllTimely, RunAll, DeliveredGaps;
    RunIsTimely(c, first, inputs);
    GapsAreDelivered(c, first, inputs);
    LoggedSnoc([], first.now);
    NothingLogged();
    assert LoggedGaps(Epochs(first)) == [] && [] + DeliveredGaps(c, inputs) == DeliveredGaps(c, inputs);
  }

  lemma OneIsChained(m: Machine)
    requires m.past == []
    ensures Chained(Epochs(m))
  {
  }

  lemma CalmDropsNothing(c: Config, m: Machine)
    requires AllDropsFollow(c, m) && AllCalm(c, m)
    ensures forall e <- Epochs(m) :: e.grid.drops == []
  {
    hide Calm;
  }

  lemma EpochDrops(c: Config, m: Machine, e: Epoch)
    requires MachineLaw(c, m) && e in Epochs(m)
    ensures DropsFollow(c, e) && (e.tag.Some? ==> e.grid.readings == Anchors(c, e))
  {
    hide MachineLaw, Anchors, Rose, Moved, Steady;
    ReadingsAreTheTape(c, m, e);
    if e.grid.drops != [] {
      DropsOnlyOnARise(c, m, e);
    }
    if e.tag.Some? && !Moved(Anchors(c, e)) {
      FixedAnchorEmitsAll(c, m, e);
    }
  }

  // ---------------------------------------------------- the decode worker

  /** The worker's copy of a request's window, made when it gets to run. */
  method Materialize(r: DecodeRequest) returns (w: Option<Window>)
    requires r.audio.Deferred? ==> r.audio.ring.Valid()
    ensures r.audio.Eager? ==> w == Some(r.audio.window)
    ensures r.audio.Deferred? ==> w == Extracted(r.audio.ring.history, r.audio.ring.gapLog, r.audio.ring.capacity,
                                                 r.audio.offset, r.audio.count)
  {
    match r.audio
    case Eager(window) => w := Some(window);
    case Deferred(ring, offset, count) => w := ring.ExtractByOffset(offset, count);
  }

  function Lengths(calls: seq<Call>): nat
  {
    if calls == [] then 0 else Lengths(calls[..|calls| - 1]) + Length(calls[|calls| - 1])
  }

  lemma RingIsValid(rec: BandRecorder)
    requires rec.Valid()
    ensures rec.ring.Valid()
  {
  }

  /** Any further calls, whether or not a reset replaces the ring meanwhile. */
  method DeliverMore(rec: BandRecorder, calls: seq<Call>)
    requires rec.Valid() && PastHolds(rec.past) && Apart(rec.past, rec.ring)
    modifies rec, rec.ring, rec.ring.cells, rec.sync
    ensures rec.Valid() && old(rec.ring).Valid()
    ensures PastHolds(rec.past) && Apart(rec.past, rec.ring) && old(rec.past) <= rec.past
    ensures Grown(old(rec.TankNow()), TankOf(old(rec.ring)), Lengths(calls))
  {
    hide Inv, BandRecorder.Coupled, CaptureModel.OnSamples, Grown, Roomy, PeriodsOf, PastHolds, Apart;
    var ring := rec.ring;
    ghost var t := rec.TankNow();
    RingIsValid(rec);
    GrownStays(t, t);
    var i := 0;
    while i < |calls|
      invariant 0 <= i <= |calls|
      invariant rec.Valid() && ring.Valid() && rec.sync == old(rec.sync)
      invariant PastHolds(rec.past) && Apart(rec.past, rec.ring) && old(rec.past) <= rec.past
      invariant
        (rec.ring == ring && rec.ring.cells == old(rec.ring.cells)) || (fresh(rec.ring) && fresh(rec.ring.cells))
      invariant Grown(t, TankOf(ring), Lengths(calls[..i]))
    {
      ghost var before, was := TankOf(ring), rec.ring;
      Handle(rec, calls[i]);
      if was != ring {
        GrownStays(before, TankOf(ring));
        GrownMore(before, TankOf(ring), 0, Length(calls[i]));
      }
      GrownTwice(t, before, TankOf(ring), Lengths(calls[..i]), Length(calls[i]));
      assert calls[..i + 1][..i] == calls[..i];
      i := i + 1;
    }
    assert calls[..i] == calls;
  }

  /**
   * A deferred request of any epoch, copied after any further calls, gives the samples
   * and gaps it stood for when it was sent, until more than one capacity has followed
   * the start of its window.  If the anchor had not moved in that epoch, that takes
   * more than 540 seconds of audio after it was sent; and to the ring of an epoch that
   * has ended no audio comes any more.
   */
  method MaterializeLater(rec: BandRecorder, ghost e: Epoch, ghost k: nat, r: DecodeRequest, calls: seq<Call>)
    returns (w: Option<Window>)
    requires rec.Valid() && MachineLaw(rec.Cfg(), rec.Machine()) && PastHolds(rec.past) && Apart(rec.past, rec.ring)
    requires e in Epochs(rec.Machine()) && e.tag.Some?
    requires k < |e.grid.out| == |e.grid.moments| && e.grid.out[k] == r && r.audio.Deferred?
    modifies rec, rec.ring, rec.ring.cells, rec.sync
    ensures r.audio.ring == e.tank.ring
    ensures |r.audio.ring.history| <= |e.tank.h| + old(MoreFor(rec, e, calls))
    ensures var ring, t, off, n := r.audio.ring, e.tank, r.audio.offset, r.audio.count;
      && 0 < n && off + n <= |t.h|
      && (w.Some? <==> |ring.history| <= off + ring.capacity)
      && (w.Some? ==> w.value == Window(t.h[off..off + n], GapsWithin(t.log, off, off + n)))
    ensures !Moved(e.grid.readings) ==>
      |e.tank.h| + old(MoreFor(rec, e, calls)) <= e.grid.moments[k].leading + WindowSamples(540, rec.sampleRate) ==>
      w.Some?
  {
    hide Inv, BandRecorder.Coupled, Extracted, GapsWithin, WindowSamples, Moved, MachineLaw, EpochLaw, Apart;
    ghost var c := rec.Cfg();
    EpochsAreLawful(c, rec.Machine(), e);
    DeferredFacts(c, e, k);
    RingIsValid(rec);
    DeliverMore(rec, calls);
    var ring := r.audio.ring;
    assert ring.Valid() && Grown(e.tank, TankOf(ring), old(MoreFor(rec, e, calls)));
    WindowIsStable(e.tank.h, e.tank.log, ring.history, ring.gapLog, ring.capacity, r.audio.offset, r.audio.count);
    w := Materialize(r);
  }

  /** The audio these calls can add to the ring of an epoch: none once it has ended. */
  ghost function MoreFor(rec: BandRecorder, e: Epoch, calls: seq<Call>): nat
    reads rec
  {
    if e in rec.past then 0 else Lengths(calls)
  }
}
