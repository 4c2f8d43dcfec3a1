/** An epoch from its first sample to its reset: the stream, the sync cut, and the grid together. */
module CaptureEpochs {
  import opened Audio
  import opened History
  import opened Modes
  import opened Slots
  import opened Requests
  import opened CaptureModel
  import opened CaptureGrid
  import opened CaptureLaws
  import Ring
  import Rtp
  import Sync

  // ------------------------------------------------------------ the stream

  /**
   * Every sample has its stamp.  The unbroken part counts up from the first one, and
   * ends where they stop doing so, or with a batch of more than half the RTP circle.
   */
  ghost predicate StampsOk(s: Source)
  {
    && |s.stamps| == |s.stream| && s.unbroken <= |s.stream|
    && (forall x :: 0 <= x < s.unbroken ==> s.stamps[x] == Rtp.Wrap(s.stamps[0] + x))
    && if s.unbroken == |s.stream| then s.longest <= Rtp.HALF
       else s.longest > Rtp.HALF || s.stamps[s.unbroken] != Rtp.Wrap(s.stamps[0] + s.unbroken)
  }

  /** Samples from the first of the epoch to the minute boundary. */
  function Until(c: Config, s: Source): int { Sync.SamplesUntil(s.reference, c.rate) }

  /** Not synced yet: the strategy has heard the stream, and the boundary still lies ahead. */
  ghost predicate Listening(c: Config, s: Source, y: Sync.SyncState)
  {
    && (y.correlated <==> s.stream != []) && (y.lastRaw.Some? <==> s.stream != [])
    && y.Ok()
    && (y.correlated ==> y.nextMinute == Some(Sync.NextMinute(s.reference)))
    && (y.correlated && s.unbroken == |s.stream| ==> Tracks(c, s, y))
  }

  ghost predicate Tracks(c: Config, s: Source, y: Sync.SyncState)
    requires y.correlated && y.Ok()
  {
    && |s.stamps| == |s.stream| && s.stream != []
    && s.lastLen <= |s.stream| <= Until(c, s) && s.lastLen <= Rtp.HALF
    && y.lastRaw.value == Rtp.Wrap(s.stamps[0] + (|s.stream| - s.lastLen))
    && y.nextBoundary.value == y.unwrapped + s.lastLen + (Until(c, s) - |s.stream|)
  }

  /** Synced: the anchor sample carries its minute, and, if the stream was unbroken that far, is the boundary sample. */
  ghost predicate Tagged(c: Config, s: Source, l: Label)
  {
    && l.wallclock == Sync.NextMinute(s.reference) && l.origin < |s.stream| == |s.stamps|
    && (l.origin < s.unbroken ==> l.origin == Until(c, s) && l.rtp == Rtp.Wrap(s.stamps[0] + l.origin))
  }

  lemma ArriveKeepsStamps(s: Source, samples: seq<Sample>, rtp: Rtp.Timestamp, referenceMicros: int)
    requires StampsOk(s) && samples != []
    ensures StampsOk(Arrive(s, samples, rtp, referenceMicros))
  {
    hide Rtp.Wrap;
    var s' := Arrive(s, samples, rtp, referenceMicros);
    if GoesOn(s, |samples|, rtp) {
      forall x | 0 <= x < s'.unbroken ensures s'.stamps[x] == Rtp.Wrap(s'.stamps[0] + x) {
        if x >= |s.stream| {
          if s.stream == [] {
            Rtp.WrapAdd(rtp, 0);
            WrapOf(rtp);
          } else {
            Rtp.WrapAdd(s.stamps[0] + |s.stream|, x - |s.stream|);
          }
        } else {
          assert s'.stamps[x] == s.stamps[x] && s'.stamps[0] == s.stamps[0];
        }
      }
    } else if s.unbroken == |s.stream| && |samples| <= Rtp.HALF {
      WrapOf(rtp);
      assert s'.stamps[|s.stream|] == Rtp.Wrap(rtp + 0) && s'.stamps[0] == s.stamps[0];
    } else if s.unbroken < |s.stream| {
      assert s'.stamps[s.unbroken] == s.stamps[s.unbroken] && s'.stamps[0] == s.stamps[0];
    }
  }

  lemma WrapOf(t: Rtp.Timestamp)
    ensures Rtp.Wrap(t) == t && Rtp.Wrap(t + 0) == t
  {
  }

  lemma ArriveKeepsTag(c: Config, s: Source, l: Label, samples: seq<Sample>, rtp: Rtp.Timestamp, referenceMicros: int)
    requires StampsOk(s) && Tagged(c, s, l)
    ensures Tagged(c, Arrive(s, samples, rtp, referenceMicros), l)
  {
    hide Sync.SamplesUntil, Sync.NextMinute, Rtp.Wrap;
    var s' := Arrive(s, samples, rtp, referenceMicros);
    assert s'.stamps[0] == s.stamps[0];
  }

  /** The step between the two latest raw timestamps is the length of the earlier batch. */
  lemma StepIsLength(rtp0: Rtp.Timestamp, before: nat, len: nat, last: Rtp.Timestamp, rtp: Rtp.Timestamp)
    requires len <= Rtp.HALF && len <= before
    requires last == Rtp.Wrap(rtp0 + (before - len)) && rtp == Rtp.Wrap(rtp0 + before)
    ensures Sync.Delta(last, rtp) == len
  {
    Rtp.WrapAdd(rtp0 + (before - len), len);
    assert rtp0 + (before - len) + len == rtp0 + before;
    Sync.DeltaUnique(last, len);
    hide Rtp.Wrap, Sync.Delta;
  }

  /** What the strategy knows once it has heard a batch. */
  ghost predicate Heard(c: Config, s: Source, y: Sync.SyncState, before: nat)
  {
    && y.Ok() && y.correlated
    && y.nextMinute == Some(Sync.NextMinute(s.reference))
    && (s.unbroken == |s.stream| ==>
         && before <= Until(c, s) && s.stamps != [] && before <= |s.stream|
         && y.nextBoundary.value == y.unwrapped + (Until(c, s) - before)
         && y.lastRaw.value == Rtp.Wrap(s.stamps[0] + before))
  }

  lemma HearingABatch(c: Config, s: Source, y: Sync.SyncState, samples: seq<Sample>, rtp: Rtp.Timestamp,
                      referenceMicros: int)
    requires StampsOk(s) && Listening(c, s, y) && samples != []
    ensures
      Heard(c, Arrive(s, samples, rtp, referenceMicros), Sync.HearPacket(y, rtp, referenceMicros, c.rate), |s.stream|)
  {
    hide Rtp.Wrap, Sync.SamplesUntil, Sync.NextMinute, Sync.Delta;
    var s' := Arrive(s, samples, rtp, referenceMicros);
    Sync.BoundaryIsOnTheMinute(referenceMicros, c.rate);
    WrapOf(rtp);
    if s.stream == [] {
      assert s'.stamps[0] == Rtp.Wrap(rtp + 0);
    } else {
      assert s'.stamps[0] == s.stamps[0];
      if s'.unbroken == |s'.stream| {
        StepIsLength(s.stamps[0], |s.stream|, s.lastLen, y.lastRaw.value, rtp);
      }
    }
  }

  lemma BoundaryFound(c: Config, s: Source, y: Sync.SyncState, samples: seq<Sample>, rtp: Rtp.Timestamp, before: nat)
    requires Heard(c, s, y, before) && |s.stream| == before + |samples| == |s.stamps|
    requires y.lastRaw == Some(rtp) && Sync.DecisionFor(y, rtp, |samples|).Some?
    requires before < s.unbroken ==> s.unbroken == |s.stream|
    ensures var d := Sync.DecisionFor(y, rtp, |samples|).value;
      Tagged(c, s, Label(d.startWallclock, d.startRtp, before + d.sampleOffset))
  {
    var d := Sync.DecisionFor(y, rtp, |samples|).value;
    if s.unbroken == |s.stream| {
      Rtp.WrapAdd(s.stamps[0] + before, d.sampleOffset);
      assert s.stamps[0] + before + d.sampleOffset == s.stamps[0] + (before + d.sampleOffset);
    }
    hide Rtp.Wrap, Sync.SamplesUntil, Sync.NextMinute;
  }

  // ------------------------------------------------------------- the epoch

  /** What holds of an epoch for ever, from its start and after its end. */
  ghost predicate EpochLaw(c: Config, e: Epoch)
  {
    && StampsOk(e.src) && e.sync.Ok()
    && match e.tag
       case None => Listening(c, e.src, e.sync) && e.tank.h == [] && Untouched(e.grid)
       case Some(l) =>
         && Tagged(c, e.src, l)
         && e.tank.h <= e.src.stream[l.origin..]
         && GridLaw(c, e.tank, l, e.grid)
  }

  /** Synced and capturing, with `rest` of the latest batch still to be written. */
  ghost predicate Flowing(c: Config, e: Epoch, rest: seq<Sample>)
  {
    && EpochLaw(c, e) && e.tag.Some? && Roomy(c.Periods(), c.rate, e.tank.cap)
    && !e.clock.fault && e.tank.fill < c.Minute()
    && e.tank.h + rest == e.src.stream[e.tag.value.origin..]
    && Awaits(c, e.grid) && Recent(e)
  }

  /** The last harvest came after the open minute began, under the last reading taken. */
  ghost predicate Recent(e: Epoch)
  {
    && |e.tank.h| - e.tank.fill <= Earlier(e.grid) <= |e.tank.h|
    && e.clock.harvestedAt <= Earlier(e.grid)
    && (e.grid.cursors != map[] ==> e.grid.readings != [] && e.grid.anchor == e.grid.readings[|e.grid.readings| - 1])
  }

  /** Between batches. */
  ghost predicate Open(c: Config, e: Epoch)
  {
    if e.tag.Some? then Flowing(c, e, []) && |e.tank.h| - e.clock.harvestedAt < c.rate
    else EpochLaw(c, e) && Roomy(c.Periods(), c.rate, e.tank.cap) && !e.clock.fault && e.tank.fill == 0 &&
         e.clock.harvestedAt == 0
  }

  lemma BlankIsOpen(c: Config, ring: Ring.RingBuffer, cap: nat, firstRead: nat, boundaries: nat)
    requires Roomy(c.Periods(), c.rate, cap)
    ensures Open(c, BlankEpoch(ring, cap, firstRead, boundaries))
  {
    hide Roomy;
  }

  lemma SixtySeconds(c: Config)
    ensures c.Minute() == WindowSamples(60, c.rate)
  {
  }

  /** A harvest of a flowing epoch, no more than a minute of audio after the last. */
  lemma HarvestKeepsEpoch(c: Config, e: Epoch)
    requires c.Valid() && EpochLaw(c, e) && e.tag.Some? && Roomy(c.Periods(), c.rate, e.tank.cap) && Awaits(c, e.grid)
    requires Earlier(e.grid) <= |e.tank.h| <= Earlier(e.grid) + c.Minute()
    ensures var e' := HarvestNow(c, e);
      && EpochLaw(c, e') && Awaits(c, e'.grid) && e' == e.(grid := e'.grid)
      && Earlier(e'.grid) == |e.tank.h| && e'.grid.firstRead == e.grid.firstRead
      && e'.grid.readings != [] && e'.grid.anchor == e'.grid.readings[|e'.grid.readings| - 1]
  {
    SixtySeconds(c);
    hide GridLaw, Awaits, Roomy, WindowSamples, HarvestGrid, NextReading, Tagged, StampsOk;
    HarvestKeepsGrid(c, e.tank, e.tag.value, e.grid);
  }

  lemma PourKeepsEpoch(c: Config, e: Epoch, chunk: seq<Sample>, rest: seq<Sample>)
    requires EpochLaw(c, e) && e.tag.Some?
    requires e.tank.h + (chunk + rest) == e.src.stream[e.tag.value.origin..]
    ensures EpochLaw(c, Pour(e, chunk)) && Pour(e, chunk).tank.h + rest == e.src.stream[e.tag.value.origin..]
  {
    hide GridLaw, Tagged, StampsOk;
    var t := e.tank;
    var t' := t.(h := t.h + chunk, fill := t.fill + |chunk|);
    PourKeepsGrid(c, t, t', e.tag.value, e.grid);
    assert t.h + (chunk + rest) == t'.h + rest;
    assert t'.h <= t'.h + rest;
  }

  lemma CountKeepsEpoch(c: Config, e: Epoch)
    requires EpochLaw(c, e) && e.tag.Some?
    ensures EpochLaw(c, CountMinute(c, e))
    ensures Awaits(c, e.grid) ==> Awaits(c, CountMinute(c, e).grid)
    ensures Earlier(CountMinute(c, e).grid) == Earlier(e.grid)
  {
    hide GridLaw, Tagged, StampsOk, Awaits, NextReading;
    ReadKeepsGrid(c, e.tank, e.tag.value, e.grid);
  }

  /** The ring's open minute has no say in the law. */
  lemma FillKeepsEpoch(c: Config, e: Epoch, fill: nat)
    requires EpochLaw(c, e) && e.tag.Some?
    ensures EpochLaw(c, e.(tank := e.tank.(fill := fill)))
  {
    hide GridLaw, Tagged, StampsOk;
    PourKeepsGrid(c, e.tank, e.tank.(fill := fill), e.tag.value, e.grid);
  }

  lemma EndMinuteKeeps(c: Config, e: Epoch)
    requires c.Valid() && EpochLaw(c, e) && e.tag.Some? && Roomy(c.Periods(), c.rate, e.tank.cap) && Awaits(c, e.grid)
    requires Earlier(e.grid) <= |e.tank.h| <= Earlier(e.grid) + c.Minute() && e.clock.harvestedAt <= Earlier(e.grid)
    ensures var e' := EndMinute(c, e);
      && EpochLaw(c, e') && e'.tank == e.tank.(fill := e'.tank.fill) && e'.src == e.src && e'.tag == e.tag
      && e'.clock.harvestedAt == e.clock.harvestedAt && e'.grid.firstRead == e.grid.firstRead
      && (!e'.clock.fault ==> e'.tank.fill == 0 && Awaits(c, e'.grid) && Recent(e'))
  {
    hide EpochLaw, Awaits, Roomy, HarvestNow, NextReading;
    CountKeepsEpoch(c, e);
    var e1 := CountMinute(c, e);
    if !e1.clock.fault {
      FillKeepsEpoch(c, e1, 0);
      HarvestKeepsEpoch(c, e1.(tank := e1.tank.(fill := 0)));
    }
  }

  /** A chunk keeps the epoch flowing, or ends it with the law intact. */
  lemma ChunkKeeps(c: Config, e: Epoch, rest: seq<Sample>)
    requires c.Valid() && Flowing(c, e, rest) && rest != []
    ensures var e' := WriteChunk(c, e, rest);
      && EpochLaw(c, e') && e'.src == e.src && e'.grid.firstRead == e.grid.firstRead
      && (!e'.clock.fault ==> Flowing(c, e', rest[ChunkSize(c, e, rest)..]))
  {
    hide EpochLaw, Awaits, Roomy, EndMinute;
    var k := ChunkSize(c, e, rest);
    assert rest[..k] + rest[k..] == rest;
    PourKeepsEpoch(c, e, rest[..k], rest[k..]);
    var e1 := Pour(e, rest[..k]);
    if e1.tank.fill >= c.Minute() {
      EndMinuteKeeps(c, e1);
    }
  }

  lemma {:induction false} WritingKeeps(c: Config, e: Epoch, rest: seq<Sample>)
    requires c.Valid() && Flowing(c, e, rest)
    ensures var e' := WriteAll(c, e, rest);
      && EpochLaw(c, e') && e'.src == e.src && e'.grid.firstRead == e.grid.firstRead
      && (!e'.clock.fault ==> Flowing(c, e', []))
    decreases |rest|
  {
    FlowingFacts(c, e, rest);
    hide Flowing, WriteChunk, EpochLaw;
    if rest != [] {
      ChunkKeeps(c, e, rest);
      WriteChunkKeepsLabel(c, e, rest);
      var e' := WriteChunk(c, e, rest);
      if !e'.clock.fault {
        WritingKeeps(c, e', rest[ChunkSize(c, e, rest)..]);
      }
    }
  }

  lemma FlowingFacts(c: Config, e: Epoch, rest: seq<Sample>)
    requires Flowing(c, e, rest)
    ensures EpochLaw(c, e) && e.tag.Some? && e.tank.fill < c.Minute() && !e.clock.fault
  {
  }

  lemma ThrottleKeeps(c: Config, e: Epoch)
    requires c.Valid() && Flowing(c, e, [])
    ensures Open(c, ThrottledHarvest(c, e)) && ThrottledHarvest(c, e).src == e.src
    ensures ThrottledHarvest(c, e).grid.firstRead == e.grid.firstRead
  {
    hide Awaits, Roomy, HarvestNow, GridLaw, Tagged, StampsOk;
    if |e.tank.h| - e.clock.harvestedAt >= c.rate {
      HarvestKeepsEpoch(c, e.(clock := e.clock.(harvestedAt := |e.tank.h|)));
    }
  }

  lemma DeliveryKeeps(c: Config, e: Epoch, rest: seq<Sample>)
    requires c.Valid() && Flowing(c, e, rest) && e.tank.fill < c.Minute() && e.tag.Some?
    ensures var e' := Deliver(c, e, rest);
      && EpochLaw(c, e') && e'.src == e.src && e'.grid.firstRead == e.grid.firstRead
      && (!e'.clock.fault ==> Open(c, e'))
  {
    hide Flowing, WriteAll, EpochLaw, Open, ThrottledHarvest;
    WritingKeeps(c, e, rest);
    WriteAllKeepsLabel(c, e, rest);
    if !WriteAll(c, e, rest).clock.fault {
      ThrottleKeeps(c, WriteAll(c, e, rest));
      OpenFacts(c, ThrottledHarvest(c, WriteAll(c, e, rest)));
    }
  }

  lemma OpenFacts(c: Config, e: Epoch)
    requires Open(c, e)
    ensures EpochLaw(c, e) && e.sync.Ok() && !e.clock.fault
    ensures e.tag.None? ==> e.tank.fill == 0 && Listening(c, e.src, e.sync)
    ensures 0 < c.rate ==> e.tank.fill < c.Minute()
  {
    hide GridLaw, Awaits, Roomy, Tagged, StampsOk, Listening;
  }

  /** A batch of an epoch already synced. */
  lemma SyncedBatchKeeps(c: Config, e: Epoch, samples: seq<Sample>, rtp: Rtp.Timestamp, referenceMicros: int)
    requires c.Valid() && Open(c, e) && e.tag.Some? && samples != []
    ensures Flowing(c, e.(src := Arrive(e.src, samples, rtp, referenceMicros)), samples)
  {
    hide Awaits, Roomy, GridLaw, Tagged, StampsOk;
    var l := e.tag.value;
    ArriveKeepsStamps(e.src, samples, rtp, referenceMicros);
    ArriveKeepsTag(c, e.src, l, samples, rtp, referenceMicros);
    TagFacts(c, e.src, l);
    var src := Arrive(e.src, samples, rtp, referenceMicros);
    assert e.tank.h + [] == e.tank.h;
    assert src.stream[l.origin..] == e.src.stream[l.origin..] + samples;
  }

  lemma TagFacts(c: Config, s: Source, l: Label)
    requires Tagged(c, s, l)
    ensures l.origin < |s.stream|
  {
  }

  /** A batch of an epoch not yet synced: the boundary is found in it, or still lies ahead. */
  lemma ListeningKeeps(c: Config, e: Epoch, samples: seq<Sample>, rtp: Rtp.Timestamp, referenceMicros: int)
    requires c.Valid() && Open(c, e) && e.tag.None? && e.sync.Ok() && samples != []
    ensures var (e', rest) := Listen(c, e, samples, rtp, referenceMicros);
      && e'.src == Arrive(e.src, samples, rtp, referenceMicros)
      && e'.tank.fill == 0 && e'.grid == e.grid
      && if e'.tag.Some? then Flowing(c, e', rest) else Open(c, e')
  {
    hide Roomy, Sync.HearPacket, Sync.DecisionFor, GridLaw, Sync.SamplesUntil, Sync.NextMinute;
    var src := Arrive(e.src, samples, rtp, referenceMicros);
    var y := Sync.HearPacket(e.sync, rtp, referenceMicros, c.rate);
    ArriveKeepsStamps(e.src, samples, rtp, referenceMicros);
    HearingABatch(c, e.src, e.sync, samples, rtp, referenceMicros);
    HeardTimestamp(e.sync, rtp, referenceMicros, c.rate);
    var d := Sync.DecisionFor(y, rtp, |samples|);
    if d.None? {
    } else {
      BoundaryFound(c, src, y, samples, rtp, |e.src.stream|);
      OffsetInside(y, rtp, |samples|);
      var l := Label(d.value.startWallclock, d.value.startRtp, |e.src.stream| + d.value.sampleOffset);
      UntouchedLaw(c, e.tank, l, e.grid);
      assert src.stream[l.origin..] == samples[d.value.sampleOffset..];
    }
  }

  lemma HeardTimestamp(y: Sync.SyncState, rtp: Rtp.Timestamp, referenceMicros: int, rate: nat)
    ensures Sync.HearPacket(y, rtp, referenceMicros, rate).lastRaw == Some(rtp)
    ensures y.Ok() ==> var y' := Sync.HearPacket(y, rtp, referenceMicros, rate); y'.Ok() && y'.correlated
  {
  }

  lemma OffsetInside(y: Sync.SyncState, rtp: Rtp.Timestamp, n: nat)
    requires y.nextBoundary.Some? && y.nextMinute.Some?
    ensures Sync.DecisionFor(y, rtp, n).Some? ==> Sync.DecisionFor(y, rtp, n).value.sampleOffset < n
  {
  }

  /** One batch. */
  lemma BatchKeeps(c: Config, e: Epoch, samples: seq<Sample>, rtp: Rtp.Timestamp, referenceMicros: int)
    requires c.Valid() && Open(c, e) && e.sync.Ok() && e.tank.fill < c.Minute() && samples != []
    ensures var e' := AddSamples(c, e, samples, rtp, referenceMicros);
      && EpochLaw(c, e') && (!e'.clock.fault ==> Open(c, e'))
      && e'.src == Arrive(e.src, samples, rtp, referenceMicros) && e'.grid.firstRead == e.grid.firstRead
  {
    hide Open, Flowing, EpochLaw, Deliver, Listen, Arrive;
    if e.tag.Some? {
      SyncedBatchKeeps(c, e, samples, rtp, referenceMicros);
      DeliveryKeeps(c, e.(src := Arrive(e.src, samples, rtp, referenceMicros)), samples);
    } else {
      ListeningKeeps(c, e, samples, rtp, referenceMicros);
      var (e', rest) := Listen(c, e, samples, rtp, referenceMicros);
      if e'.tag.Some? {
        DeliveryKeeps(c, e', rest);
      } else {
        OpenFacts(c, e');
      }
    }
  }

  /** Filing gaps at the leading edge changes no window that has arrived. */
  lemma GapsKeep(c: Config, e: Epoch, durations: seq<int>)
    requires c.Valid() && Open(c, e)
    ensures Open(c, FileGaps(c, e, durations)) && FileGaps(c, e, durations).src == e.src
  {
    hide GridLaw, Awaits, Roomy, Tagged, StampsOk, Listening, FiledGaps;
    var filed := FiledGaps(durations, |e.tank.h|, e.tank.fill, 2 * c.rate);
    var t' := e.tank.(log := e.tank.log + filed);
    assert Extends(e.tank.h, e.tank.log, t'.h, t'.log);
    if e.tag.Some? {
      PourKeepsGrid(c, e.tank, t', e.tag.value, e.grid);
    }
  }

  // ---------------------------------------------------------- how a ring grows

  /** The same ring, with at most n more samples and whatever gaps were filed at its end. */
  ghost predicate Grown(t: Tank, t': Tank, n: nat)
  {
    && t'.ring == t.ring && t'.cap == t.cap
    && Extends(t.h, t.log, t'.h, t'.log)
    && |t'.h| <= |t.h| + n
  }

  lemma GrownStays(t: Tank, t': Tank)
    requires t'.ring == t.ring && t'.cap == t.cap && t'.h == t.h && t'.log == t.log
    ensures Grown(t, t', 0)
  {
  }

  lemma GrownTwice(t: Tank, t1: Tank, t2: Tank, n: nat, k: nat)
    requires Grown(t, t1, n) && Grown(t1, t2, k)
    ensures Grown(t, t2, n + k)
  {
    ExtendsTransitive(t.h, t.log, t1.h, t1.log, t2.h, t2.log);
  }

  lemma ChunkGrows(c: Config, e: Epoch, rest: seq<Sample>)
    requires c.Valid() && e.tag.Some? && e.tank.fill < c.Minute()
    ensures Grown(e.tank, WriteChunk(c, e, rest).tank, ChunkSize(c, e, rest))
  {
    hide HarvestGrid, NextReading;
  }

  lemma {:induction false} WritingGrows(c: Config, e: Epoch, rest: seq<Sample>)
    requires c.Valid() && e.tag.Some? && e.tank.fill < c.Minute()
    ensures Grown(e.tank, WriteAll(c, e, rest).tank, |rest|)
    decreases |rest|
  {
    hide WriteChunk, Grown;
    if rest == [] {
      GrownStays(e.tank, e.tank);
    } else {
      var e', k := WriteChunk(c, e, rest), ChunkSize(c, e, rest);
      WriteChunkKeepsLabel(c, e, rest);
      ChunkGrows(c, e, rest);
      if e'.clock.fault {
        GrownMore(e.tank, e'.tank, k, |rest|);
      } else {
        WritingGrows(c, e', rest[k..]);
        GrownTwice(e.tank, e'.tank, WriteAll(c, e, rest).tank, k, |rest| - k);
      }
    }
  }

  lemma GrownMore(t: Tank, t': Tank, n: nat, k: nat)
    requires Grown(t, t', n) && n <= k
    ensures Grown(t, t', k)
  {
  }

  /** A batch adds no more than its own samples to the ring. */
  lemma BatchGrows(c: Config, e: Epoch, samples: seq<Sample>, rtp: Rtp.Timestamp, referenceMicros: int)
    requires c.Valid() && e.sync.Ok() && e.tank.fill < c.Minute()
    ensures Grown(e.tank, AddSamples(c, e, samples, rtp, referenceMicros).tank, |samples|)
  {
    hide WriteAll, HarvestNow, Arrive, Grown, Sync.HearPacket, Sync.DecisionFor;
    var e' := AddSamples(c, e, samples, rtp, referenceMicros);
    if e.tag.Some? {
      DeliveryGrows(c, e.(src := Arrive(e.src, samples, rtp, referenceMicros)), samples);
    } else {
      var (e1, rest) := Listen(c, e, samples, rtp, referenceMicros);
      if e1.tag.Some? {
        DeliveryGrows(c, e1, rest);
        GrownMore(e.tank, e'.tank, |rest|, |samples|);
      } else {
        GrownStays(e.tank, e'.tank);
        GrownMore(e.tank, e'.tank, 0, |samples|);
      }
    }
  }

  lemma DeliveryGrows(c: Config, e: Epoch, rest: seq<Sample>)
    requires c.Valid() && e.tag.Some? && e.tank.fill < c.Minute()
    ensures Grown(e.tank, Deliver(c, e, rest).tank, |rest|)
  {
    hide WriteAll, HarvestGrid, NextReading, Grown;
    WriteAllKeepsLabel(c, e, rest);
    WritingGrows(c, e, rest);
  }

  lemma GapsGrow(c: Config, e: Epoch, durations: seq<int>)
    ensures Grown(e.tank, FileGaps(c, e, durations).tank, 0)
  {
    hide FiledGaps;
  }
}
