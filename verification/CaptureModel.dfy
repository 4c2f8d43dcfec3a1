/**
 * One band's recorder (wspr_recorder/band_recorder.py) as a function of what it is
 * given.  An epoch is the time from one reset to the next: the stream that arrived,
 * the ring, the anchor readings, the harvest cursors and everything sent.
 *
 * Outside inputs: `anchorTape(k)` is radiod's live UTC for the anchor sample at the
 * k-th reading (None when there is none, and the frozen anchor is used), and
 * `faultTape(k)` says whether the timing watchdogs ask for a re-sync at the k-th
 * minute boundary.
 */
module CaptureModel {
  import opened Audio
  import opened History
  import opened Modes
  import opened Slots
  import opened Requests
  import Ring
  import Rtp
  import Sync

  const RING_HEADROOM_SECONDS: int := 600

  datatype Config = Config(rate: nat, modes: seq<DecodeMode>, anchorTape: nat -> Option<real>, faultTape: nat -> bool)
  {
    predicate Valid() { 0 < rate && modes != [] }

    function Periods(): seq<int> { PeriodsOf(modes) }

    /** The samples of one minute. */
    function Minute(): nat { rate * 60 }
  }

  /** The samples of a ring for these modes: the longest window and ten minutes. */
  function RingSamples(modes: seq<DecodeMode>, rate: nat): int { (MaxPeriod(modes) + RING_HEADROOM_SECONDS) * rate }

  /** A ring of `cap` samples holds the longest window and the headroom on top. */
  predicate Roomy(ps: seq<int>, rate: nat, cap: int)
  {
    forall p <- ps :: WindowSamples(p, rate) + WindowSamples(RING_HEADROOM_SECONDS, rate) <= cap
  }

  /** A gap reported by the resequencer, and the batch metadata the recorder uses. */
  datatype Quality = Quality(firstRtp: Rtp.Timestamp, totalDelivered: int, gapDurations: seq<int>)

  /**
   * The stream of one epoch: every sample delivered, the RTP time each arrived
   * under, how many of them came in unbroken RTP order, the reference instant of the
   * first, and the lengths of the latest and the longest batch.
   */
  datatype Source = Source(stream: seq<Sample>, stamps: seq<Rtp.Timestamp>, unbroken: nat, reference: int, lastLen: nat,
                           longest: nat)

  const NO_STREAM: Source := Source([], [], 0, 0, 0, 0)

  /** The ring: its history, its gap log, and how full the open minute is. */
  datatype Tank = Tank(ring: Ring.RingBuffer, cap: nat, h: seq<Sample>, log: seq<LoggedGap>, fill: nat)

  /** The anchor sample: the minute it is labelled with, its RTP time, and where in the stream it lies. */
  datatype Label = Label(wallclock: int, rtp: Rtp.Timestamp, origin: nat)

  /** The moment of a harvest: how many readings the epoch had taken, and the leading edge. */
  datatype Moment = Moment(readings: nat, leading: nat)

  /** What the harvest cursor of one period remembers: its decisions, and when each was made. */
  datatype Cursor = Cursor(seed: int, next: int, decided: seq<Decision>, moments: seq<Moment>)

  /**
   * The anchor values read, the anchor and leading edge of the last harvest, the
   * cursors, and what was sent: requests with the moment of each, and drops.
   */
  datatype Grid = Grid(firstRead: nat, readings: seq<real>, anchor: real, leading: nat, cursors: map<int, Cursor>,
                       out: seq<DecodeRequest>, moments: seq<Moment>, drops: seq<Drop>)

  datatype Clock = Clock(minutes: nat, boundaries: nat, harvestedAt: nat, fault: bool)

  datatype Epoch = Epoch(src: Source, sync: Sync.SyncState, tank: Tank, tag: Option<Label>, clock: Clock, grid: Grid)

  /** The epoch in progress and those before it. */
  datatype Machine = Machine(now: Epoch, past: seq<Epoch>)

  function BlankEpoch(ring: Ring.RingBuffer, cap: nat, firstRead: nat, boundaries: nat): Epoch
  {
    Epoch(NO_STREAM, Sync.UNSYNCED, Tank(ring, cap, [], [], 0), None, Clock(0, boundaries, 0, false),
          Grid(firstRead, [], 0.0, 0, map[], [], [], []))
  }

  // -------------------------------------------------------------- harvest

  /** The slot a harvest of period p looks at first. */
  function SlotAfter(cursors: map<int, Cursor>, p: int, anchor: real): int
    requires 0 < p
  {
    if p in cursors then cursors[p].next else FirstSlot(anchor, p)
  }

  /** Where a cursor stands after deciding these slots. */
  function CursorAfter(first: int, p: int, ds: seq<Decision>): int
  {
    if ds == [] then first else ds[|ds| - 1].start + p
  }

  /** The audio of a window: copied at once, or left to be copied by the worker. */
  function AudioFor(t: Tank, p: int, off: nat, n: nat): AudioSource
  {
    if IsDeferred(p) then Deferred(t.ring, off, n)
    else if off + n <= |t.h| then Eager(Window(t.h[off..off + n], GapsWithin(t.log, off, off + n)))
    else Eager(Window([], []))
  }

  function RequestFor(c: Config, t: Tank, rtp: Rtp.Timestamp, p: nat, start: int, off: nat): DecodeRequest
  {
    var n, startRtp := WindowSamples(p, c.rate), Rtp.Wrap(rtp + off);
    DecodeRequest(ModesWithPeriod(c.modes, p), p, start, startRtp, Rtp.Wrap(startRtp + n), AudioFor(t, p, off, n))
  }

  /** One request per emitted slot, in order. */
  function RequestsFor(c: Config, t: Tank, rtp: Rtp.Timestamp, p: nat, ds: seq<Decision>): seq<DecodeRequest>
  {
    if ds == [] then []
    else
      var d := ds[|ds| - 1];
      RequestsFor(c, t, rtp, p, ds[..|ds| - 1]) +
      if d.outcome.Emitted? then [RequestFor(c, t, rtp, p, d.start, d.outcome.offset)] else []
  }

  /** One drop per slot that was no longer resident, in order. */
  function DropsFor(p: int, ds: seq<Decision>): seq<Drop>
  {
    if ds == [] then []
    else
      var d := ds[|ds| - 1];
      DropsFor(p, ds[..|ds| - 1]) + if d.outcome.Dropped? then [Drop(p, d.start)] else []
  }

  /** The decisions a harvest makes for one period. */
  function Decisions(c: Config, t: Tank, g: Grid, p: int, anchor: real): seq<Decision>
    requires c.Valid() && IsPeriod(p)
  {
    Harvest(SlotAfter(g.cursors, p, anchor), p, anchor, c.rate, |t.h|, t.cap)
  }

  function CursorOf(g: Grid, p: int, first: int): Cursor
  {
    if p in g.cursors then g.cursors[p] else Cursor(first, first, [], [])
  }

  function HarvestPeriod(c: Config, t: Tank, rtp: Rtp.Timestamp, g: Grid, p: int, anchor: real): Grid
    requires c.Valid() && IsPeriod(p)
  {
    var first, ds := SlotAfter(g.cursors, p, anchor), Decisions(c, t, g, p, anchor);
    var q := CursorOf(g, p, first);
    var rs, now := RequestsFor(c, t, rtp, p, ds), Moment(|g.readings|, |t.h|);
    var q' := Cursor(q.seed, CursorAfter(first, p, ds), q.decided + ds, q.moments + seq(|ds|, _ => now));
    g.(cursors := g.cursors[p := q'],
       out := g.out + rs, moments := g.moments + seq(|rs|, _ => now), drops := g.drops + DropsFor(p, ds))
  }

  /** The first i periods harvested. */
  function HarvestUpTo(c: Config, t: Tank, rtp: Rtp.Timestamp, g: Grid, i: nat, anchor: real): Grid
    requires c.Valid() && i <= |c.Periods()|
  {
    if i == 0 then g
    else
      assert c.Periods()[i - 1] in c.Periods();
      HarvestPeriod(c, t, rtp, HarvestUpTo(c, t, rtp, g, i - 1, anchor), c.Periods()[i - 1], anchor)
  }

  /** A harvest under a fresh reading of the anchor. */
  function HarvestGrid(c: Config, t: Tank, rtp: Rtp.Timestamp, g: Grid, anchor: real): Grid
    requires c.Valid()
  {
    var begun := g.(readings := g.readings + [anchor], anchor := anchor, leading := |t.h|);
    HarvestUpTo(c, t, rtp, begun, |c.Periods()|, anchor)
  }

  // -------------------------------------------------------------- capture

  /** The next anchor value: radiod's, or the frozen label. */
  function NextReading(c: Config, l: Label, g: Grid): real
  {
    c.anchorTape(g.firstRead + |g.readings|).GetOr(l.wallclock as real)
  }

  function HarvestNow(c: Config, e: Epoch): Epoch
    requires c.Valid() && e.tag.Some?
  {
    e.(grid := HarvestGrid(c, e.tank, e.tag.value.rtp, e.grid, NextReading(c, e.tag.value, e.grid)))
  }

  /** The minute's label takes a reading of its own. */
  function CountMinute(c: Config, e: Epoch): Epoch
    requires e.tag.Some?
  {
    e.(grid := e.grid.(readings := e.grid.readings + [NextReading(c, e.tag.value, e.grid)]),
       clock := e.clock.(minutes := e.clock.minutes + 1, boundaries := e.clock.boundaries + 1,
                         fault := c.faultTape(e.clock.boundaries)))
  }

  /** A minute is full: close it and harvest, unless a watchdog asks for a re-sync. */
  function EndMinute(c: Config, e: Epoch): Epoch
    requires c.Valid() && e.tag.Some?
  {
    var e' := CountMinute(c, e);
    if e'.clock.fault then e' else HarvestNow(c, e'.(tank := e'.tank.(fill := 0)))
  }

  function Pour(e: Epoch, chunk: seq<Sample>): Epoch
  {
    e.(tank := e.tank.(h := e.tank.h + chunk, fill := e.tank.fill + |chunk|))
  }

  /** The part of a batch that still fits in the open minute. */
  function ChunkSize(c: Config, e: Epoch, rest: seq<Sample>): (n: nat)
    requires e.tank.fill < c.Minute()
    ensures n <= |rest| && (rest != [] ==> 0 < n)
  {
    if |rest| < c.Minute() - e.tank.fill then |rest| else c.Minute() - e.tank.fill
  }

  function WriteChunk(c: Config, e: Epoch, rest: seq<Sample>): Epoch
    requires c.Valid() && e.tag.Some? && e.tank.fill < c.Minute()
  {
    var e' := Pour(e, rest[..ChunkSize(c, e, rest)]);
    if e'.tank.fill >= c.Minute() then EndMinute(c, e') else e'
  }

  /** Write a batch minute by minute; a re-sync request leaves the rest unwritten. */
  function WriteAll(c: Config, e: Epoch, rest: seq<Sample>): Epoch
    requires c.Valid() && e.tag.Some? && e.tank.fill < c.Minute()
    decreases |rest|
  {
    if rest == [] then e
    else
      var e' := WriteChunk(c, e, rest);
      WriteChunkKeepsLabel(c, e, rest);
      if e'.clock.fault then e' else WriteAll(c, e', rest[ChunkSize(c, e, rest)..])
  }

  lemma WriteChunkKeepsLabel(c: Config, e: Epoch, rest: seq<Sample>)
    requires c.Valid() && e.tag.Some? && e.tank.fill < c.Minute()
    ensures var e' := WriteChunk(c, e, rest);
      e'.tag == e.tag && (e'.clock.fault || e'.tank.fill < c.Minute())
  {
    hide HarvestGrid;
  }

  /** The write-path harvest, at most once per second of audio. */
  function ThrottledHarvest(c: Config, e: Epoch): Epoch
    requires c.Valid() && e.tag.Some?
  {
    if |e.tank.h| - e.clock.harvestedAt >= c.rate
    then HarvestNow(c, e.(clock := e.clock.(harvestedAt := |e.tank.h|)))
    else e
  }

  function Deliver(c: Config, e: Epoch, rest: seq<Sample>): Epoch
    requires c.Valid() && e.tag.Some? && e.tank.fill < c.Minute()
  {
    var e' := WriteAll(c, e, rest);
    WriteAllKeepsLabel(c, e, rest);
    if e'.clock.fault then e' else ThrottledHarvest(c, e')
  }

  lemma {:induction false} WriteAllKeepsLabel(c: Config, e: Epoch, rest: seq<Sample>)
    requires c.Valid() && e.tag.Some? && e.tank.fill < c.Minute()
    ensures WriteAll(c, e, rest).tag == e.tag
    ensures WriteAll(c, e, rest).clock.fault || WriteAll(c, e, rest).tank.fill < c.Minute()
    decreases |rest|
  {
    hide WriteChunk;
    if rest != [] {
      var e' := WriteChunk(c, e, rest);
      WriteChunkKeepsLabel(c, e, rest);
      if !e'.clock.fault {
        WriteAllKeepsLabel(c, e', rest[ChunkSize(c, e, rest)..]);
      }
    }
  }

  // ------------------------------------------------------------- a batch

  /** RTP times of n samples, the first at `rtp`. */
  function Stamps(rtp: Rtp.Timestamp, n: nat): (s: seq<Rtp.Timestamp>)
    ensures |s| == n && forall i :: 0 <= i < n ==> s[i] == Rtp.Wrap(rtp + i)
  {
    seq<Rtp.Timestamp>(n, (i: nat) => Rtp.Wrap(rtp + i))
  }

  /** The batch goes on where the stream left off, and is no longer than half the RTP circle. */
  predicate GoesOn(s: Source, n: nat, rtp: Rtp.Timestamp)
  {
    && s.unbroken == |s.stream| && n <= Rtp.HALF
    && (s.stamps != [] ==> rtp == Rtp.Wrap(s.stamps[0] + |s.stream|))
  }

  function Arrive(s: Source, samples: seq<Sample>, rtp: Rtp.Timestamp, referenceMicros: int): Source
  {
    s.(stream := s.stream + samples, stamps := s.stamps + Stamps(rtp, |samples|),
       unbroken := if GoesOn(s, |samples|, rtp) then s.unbroken + |samples| else s.unbroken,
       reference := if s.stream == [] then referenceMicros else s.reference,
       lastLen := |samples|, longest := if |samples| > s.longest then |samples| else s.longest)
  }

  /** What arrives while not yet synced: the strategy hears it, and may find the boundary in it. */
  function Listen(c: Config, e: Epoch, samples: seq<Sample>, rtp: Rtp.Timestamp, referenceMicros: int)
    : (Epoch, seq<Sample>)
    requires e.sync.Ok()
  {
    var src := Arrive(e.src, samples, rtp, referenceMicros);
    var sync := Sync.HearPacket(e.sync, rtp, referenceMicros, c.rate);
    match Sync.DecisionFor(sync, rtp, |samples|)
    case None => (e.(src := src, sync := sync), [])
    case Some(d) =>
      (e.(src := src, sync := Sync.Advance(sync, c.rate),
          tag := Some(Label(d.startWallclock, d.startRtp, |e.src.stream| + d.sampleOffset))),
       samples[d.sampleOffset..])
  }

  function AddSamples(c: Config, e: Epoch, samples: seq<Sample>, rtp: Rtp.Timestamp, referenceMicros: int): Epoch
    requires c.Valid() && e.sync.Ok() && e.tank.fill < c.Minute()
  {
    if e.tag.Some? then Deliver(c, e.(src := Arrive(e.src, samples, rtp, referenceMicros)), samples)
    else
      var (e', rest) := Listen(c, e, samples, rtp, referenceMicros);
      if e'.tag.None? then e' else Deliver(c, e', rest)
  }

  /** The log entries of one batch's gaps: one for each, at one place, none longer than `most` samples. */
  function FiledGaps(durations: seq<int>, at: int, position: int, most: int): (log: seq<LoggedGap>)
    ensures |log| == |durations|
    ensures forall i :: 0 <= i < |log| ==>
      log[i].at == at && log[i].gap == GapEvent(position, Least(durations[i], most), 0, 0, "")
  {
    if durations == [] then []
    else
      var k := |durations| - 1;
      FiledGaps(durations[..k], at, position, most) +
      [LoggedGap(at, GapEvent(position, Least(durations[k], most), 0, 0, ""))]
  }

  /** The smaller of two. */
  function Least(a: int, b: int): (m: int)
    ensures m <= a && m <= b && (m == a || m == b)
  {
    if a > b then b else a
  }

  /** File the batch's gaps, each at the current end of the open minute. */
  function FileGaps(c: Config, e: Epoch, durations: seq<int>): Epoch
  {
    e.(tank := e.tank.(log := e.tank.log + FiledGaps(durations, |e.tank.h|, e.tank.fill, 2 * c.rate)))
  }

  /** `batch_rtp_ts`: the RTP time of the first sample of a batch, which ends with the last sample delivered. */
  function BatchRtp(q: Quality, n: nat): (rtp: Rtp.Timestamp)
    ensures Rtp.Wrap(rtp + n) == Rtp.Wrap(q.firstRtp + q.totalDelivered)
  {
    Rtp.WrapAdd(q.firstRtp + q.totalDelivered - n, n);
    Rtp.Wrap(q.firstRtp + q.totalDelivered - n)
  }

  /** What can happen to a recorder, with the ring that replaces its own if it comes to a reset. */
  datatype Input =
    | Batch(samples: seq<Sample>, quality: Quality, reference: int, spare: Ring.RingBuffer, spareCap: nat)
    | ResetCall(spare: Ring.RingBuffer, spareCap: nat)

  /** Start over: fresh ring, fresh cursors, no correlation. */
  function StartOver(m: Machine, spare: Ring.RingBuffer, spareCap: nat): Machine
  {
    var g := m.now.grid;
    Machine(BlankEpoch(spare, spareCap, g.firstRead + |g.readings|, m.now.clock.boundaries), m.past + [m.now])
  }

  predicate CanStep(c: Config, m: Machine)
  {
    c.Valid() && m.now.sync.Ok() && m.now.tank.fill < c.Minute()
  }

  /** One batch with its metadata: an empty one changes nothing, a re-sync request starts over. */
  function OnSamples(c: Config, m: Machine, i: Input): Machine
    requires CanStep(c, m) && i.Batch?
  {
    if i.samples == [] then m
    else
      var e := AddSamples(c, FileGaps(c, m.now, i.quality.gapDurations), i.samples,
                          BatchRtp(i.quality, |i.samples|), i.reference);
      if e.clock.fault then StartOver(m.(now := e), i.spare, i.spareCap) else m.(now := e)
  }

  function Next(c: Config, m: Machine, i: Input): Machine
    requires CanStep(c, m)
  {
    match i
    case Batch(_, _, _, _, _) => OnSamples(c, m, i)
    case ResetCall(spare, spareCap) => StartOver(m, spare, spareCap)
  }
}
