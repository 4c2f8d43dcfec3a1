/** The recorder's books: minutes and watchdogs, how often it harvests, and the gaps it is told of. */
module CaptureClock {
  import opened Audio
  import opened History
  import opened Modular
  import opened CaptureModel
  import opened CaptureEpochs
  import opened CaptureRuns
  import Modes
  import Ring
  import Rtp

  /** Minutes counted in this epoch before the one that asked for a re-sync, if one did. */
  function Closed(e: Epoch): int { if e.clock.fault then e.clock.minutes - 1 else e.clock.minutes }

  /**
   * Every full minute of audio is one boundary and asks the watchdogs once.  None of
   * them has asked for a re-sync, except at the last boundary when the epoch ends there.
   */
  ghost predicate MinutesCounted(c: Config, e: Epoch)
  {
    && 0 <= Closed(e) && e.clock.minutes <= e.clock.boundaries
    && |e.tank.h| == Minutes(Closed(e), c.Minute()) + e.tank.fill && e.tank.fill <= c.Minute()
    && (e.clock.fault ==> e.tank.fill == c.Minute())
    && forall b :: e.clock.boundaries - e.clock.minutes <= b < e.clock.boundaries ==>
         c.faultTape(b) == (e.clock.fault && b == e.clock.boundaries - 1)
  }

  /**
   * Readings are for minute labels, for the harvest of each minute, and for harvests at
   * least a second of audio apart.
   */
  ghost predicate Throttled(c: Config, e: Epoch)
  {
    var others := |e.grid.readings| - e.clock.minutes - Closed(e);
    0 <= others && Minutes(others, c.rate) <= e.clock.harvestedAt <= |e.tank.h|
  }

  ghost predicate Timely(c: Config, e: Epoch) { 0 <= Closed(e) && MinutesCounted(c, e) && Throttled(c, e) }

  /** What the ring's audio and the grid's work leave alone. */
  ghost predicate SameBooks(e: Epoch, e': Epoch)
  {
    && e'.tank.log == e.tank.log
    && e'.clock.boundaries - e'.clock.minutes == e.clock.boundaries - e.clock.minutes
  }

  // ----------------------------------------------------------------- one batch

  lemma {:induction false} HarvestUpToReads(c: Config, t: Tank, rtp: Rtp.Timestamp, g: Grid, i: nat, a: real)
    requires c.Valid() && i <= |c.Periods()|
    ensures HarvestUpTo(c, t, rtp, g, i, a).readings == g.readings
    decreases i
  {
    hide HarvestPeriod;
    if i > 0 {
      HarvestUpToReads(c, t, rtp, g, i - 1, a);
      assert c.Periods()[i - 1] in c.Periods();
      PeriodReads(c, t, rtp, HarvestUpTo(c, t, rtp, g, i - 1, a), c.Periods()[i - 1], a);
    }
  }

  lemma PeriodReads(c: Config, t: Tank, rtp: Rtp.Timestamp, g: Grid, p: int, a: real)
    requires c.Valid() && Modes.IsPeriod(p)
    ensures HarvestPeriod(c, t, rtp, g, p, a).readings == g.readings
  {
  }

  /** A harvest takes one reading and touches nothing but the grid. */
  lemma HarvestReads(c: Config, e: Epoch)
    requires c.Valid() && e.tag.Some?
    ensures var e' := HarvestNow(c, e);
      e' == e.(grid := e'.grid) && |e'.grid.readings| == |e.grid.readings| + 1
  {
    hide HarvestUpTo, NextReading;
    var a := NextReading(c, e.tag.value, e.grid);
    var begun := e.grid.(readings := e.grid.readings + [a], anchor := a, leading := |e.tank.h|);
    HarvestUpToReads(c, e.tank, e.tag.value.rtp, begun, |c.Periods()|, a);
  }

  lemma EndMinuteTimely(c: Config, e: Epoch)
    requires c.Valid() && e.tag.Some? && Timely(c, e) && !e.clock.fault && e.tank.fill == c.Minute()
    ensures var e' := EndMinute(c, e);
      Timely(c, e') && SameBooks(e, e') && (!e'.clock.fault ==> e'.tank.fill == 0)
  {
    hide HarvestNow, NextReading;
    var e1 := CountMinute(c, e);
    assert Minutes(e.clock.minutes + 1, c.Minute()) == Minutes(e.clock.minutes, c.Minute()) + c.Minute();
    if !e1.clock.fault {
      HarvestReads(c, e1.(tank := e1.tank.(fill := 0)));
    }
  }

  lemma ChunkTimely(c: Config, e: Epoch, rest: seq<Sample>)
    requires c.Valid() && e.tag.Some? && Timely(c, e) && !e.clock.fault && e.tank.fill < c.Minute()
    ensures var e' := WriteChunk(c, e, rest);
      Timely(c, e') && SameBooks(e, e') && (!e'.clock.fault ==> e'.tank.fill < c.Minute())
  {
    hide EndMinute, Minutes;
    var e1 := Pour(e, rest[..ChunkSize(c, e, rest)]);
    if e1.tank.fill >= c.Minute() {
      EndMinuteTimely(c, e1);
    }
  }

  lemma {:induction false} WritingTimely(c: Config, e: Epoch, rest: seq<Sample>)
    requires c.Valid() && e.tag.Some? && Timely(c, e) && !e.clock.fault && e.tank.fill < c.Minute()
    ensures var e' := WriteAll(c, e, rest);
      Timely(c, e') && SameBooks(e, e')
    decreases |rest|
  {
    hide WriteChunk, Timely;
    if rest != [] {
      ChunkTimely(c, e, rest);
      WriteChunkKeepsLabel(c, e, rest);
      var e' := WriteChunk(c, e, rest);
      if !e'.clock.fault {
        WritingTimely(c, e', rest[ChunkSize(c, e, rest)..]);
      }
    }
  }

  lemma ThrottleTimely(c: Config, e: Epoch)
    requires c.Valid() && e.tag.Some? && Timely(c, e)
    ensures Timely(c, ThrottledHarvest(c, e)) && SameBooks(e, ThrottledHarvest(c, e))
  {
    hide HarvestNow;
    if |e.tank.h| - e.clock.harvestedAt >= c.rate {
      HarvestReads(c, e.(clock := e.clock.(harvestedAt := |e.tank.h|)));
      var others := |e.grid.readings| - e.clock.minutes - Closed(e);
      assert Minutes(others + 1, c.rate) == Minutes(others, c.rate) + c.rate;
    }
  }

  lemma DeliveryTimely(c: Config, e: Epoch, rest: seq<Sample>)
    requires c.Valid() && e.tag.Some? && Timely(c, e) && !e.clock.fault && e.tank.fill < c.Minute()
    ensures Timely(c, Deliver(c, e, rest)) && SameBooks(e, Deliver(c, e, rest))
  {
    hide WriteAll, ThrottledHarvest, Timely;
    WritingTimely(c, e, rest);
    WriteAllKeepsLabel(c, e, rest);
    var e' := WriteAll(c, e, rest);
    if !e'.clock.fault {
      ThrottleTimely(c, e');
    }
  }

  lemma RelabelledTimely(c: Config, e: Epoch, e': Epoch)
    requires Timely(c, e) && e'.tank == e.tank && e'.clock == e.clock && e'.grid == e.grid
    ensures Timely(c, e') && SameBooks(e, e')
  {
  }

  lemma BatchTimely(c: Config, e: Epoch, samples: seq<Sample>, rtp: Rtp.Timestamp, referenceMicros: int)
    requires c.Valid() && e.sync.Ok() && Timely(c, e) && !e.clock.fault && e.tank.fill < c.Minute()
    ensures var e' := AddSamples(c, e, samples, rtp, referenceMicros);
      Timely(c, e') && SameBooks(e, e')
  {
    hide Timely, Deliver, Listen, Arrive;
    if e.tag.Some? {
      var e1 := e.(src := Arrive(e.src, samples, rtp, referenceMicros));
      RelabelledTimely(c, e, e1);
      DeliveryTimely(c, e1, samples);
    } else {
      ListeningTouches(c, e, samples, rtp, referenceMicros);
      var (e1, rest) := Listen(c, e, samples, rtp, referenceMicros);
      RelabelledTimely(c, e, e1);
      if e1.tag.Some? {
        DeliveryTimely(c, e1, rest);
      }
    }
  }

  lemma ListeningTouches(c: Config, e: Epoch, samples: seq<Sample>, rtp: Rtp.Timestamp, referenceMicros: int)
    requires e.sync.Ok()
    ensures var (e', _) := Listen(c, e, samples, rtp, referenceMicros);
      e'.tank == e.tank && e'.clock == e.clock && e'.grid == e.grid
  {
  }

  // ------------------------------------------------------------------- one step

  /** The epoch a batch went to: the one in progress, or the one it ended. */
  function Receiver(m: Machine, m': Machine): Epoch
  {
    if |m'.past| > |m.past| then m'.past[|m.past|] else m'.now
  }

  /** A batch with samples, taken apart. */
  lemma BatchSteps(c: Config, m: Machine, i: Input)
    requires MachineLaw(c, m) && CanStep(c, m) && i.Batch? && i.samples != []
    ensures var m', e := Next(c, m, i), Receiver(m, Next(c, m, i));
      var filed := FileGaps(c, m.now, i.quality.gapDurations);
      && filed.sync.Ok() && filed.tank.fill < c.Minute()
      && e == AddSamples(c, filed, i.samples, BatchRtp(i.quality, |i.samples|), i.reference)
      && if e.clock.fault then m' == StartOver(Machine(e, m.past), i.spare, i.spareCap) else m' == Machine(e, m.past)
  {
    hide Open, EpochLaw, AddSamples, FileGaps, BatchRtp;
    GapsKeep(c, m.now, i.quality.gapDurations);
    var filed := FileGaps(c, m.now, i.quality.gapDurations);
    OpenFacts(c, filed);
  }

  ghost predicate AllTimely(c: Config, m: Machine) { forall e <- Epochs(m) :: Timely(c, e) }

  /** The epochs consult the fault tape in order, each boundary once. */
  ghost predicate BoundariesChained(es: seq<Epoch>)
  {
    forall k :: 0 <= k < |es| - 1 ==> es[k + 1].clock.boundaries - es[k + 1].clock.minutes == es[k].clock.boundaries
  }

  lemma FilingIsTimely(c: Config, e: Epoch, durations: seq<int>)
    requires Timely(c, e)
    ensures Timely(c, FileGaps(c, e, durations)) && FileGaps(c, e, durations).clock == e.clock
  {
    hide FiledGaps, Minutes;
  }

  lemma BlankIsTimely(c: Config, ring: Ring.RingBuffer, cap: nat, firstRead: nat, boundaries: nat)
    ensures Timely(c, BlankEpoch(ring, cap, firstRead, boundaries))
  {
  }

  lemma NowIsFlowing(c: Config, m: Machine)
    requires MachineLaw(c, m)
    ensures !m.now.clock.fault && c.Valid()
  {
    OpenFacts(c, m.now);
    hide Open;
  }

  /** The epoch a batch goes to is timely, and goes on from the boundary the last batch left it at. */
  lemma ReceiverIsTimely(c: Config, m: Machine, i: Input)
    requires MachineLaw(c, m) && CanStep(c, m) && Timely(c, m.now) && i.Batch? && i.samples != []
    ensures var e := Receiver(m, Next(c, m, i));
      && Timely(c, e)
      && e.clock.boundaries - e.clock.minutes == m.now.clock.boundaries - m.now.clock.minutes
      && e.tank.log == m.now.tank.log + FiledGaps(i.quality.gapDurations, |m.now.tank.h|, m.now.tank.fill, 2 * c.rate)
      && (|Next(c, m, i).past| > |m.past| <==> e.clock.fault)
  {
    hide MachineLaw, CanStep, Timely, AddSamples, Next, BatchRtp;
    NowIsFlowing(c, m);
    BatchSteps(c, m, i);
    FilingIsTimely(c, m.now, i.quality.gapDurations);
    var filed := FileGaps(c, m.now, i.quality.gapDurations);
    BatchTimely(c, filed, i.samples, BatchRtp(i.quality, |i.samples|), i.reference);
  }

  lemma StepTimely(c: Config, m: Machine, i: Input)
    requires MachineLaw(c, m) && CanStep(c, m) && AllTimely(c, m) && BoundariesChained(Epochs(m))
    ensures AllTimely(c, Next(c, m, i)) && BoundariesChained(Epochs(Next(c, m, i)))
  {
    hide MachineLaw, CanStep, Timely, AddSamples, FileGaps, BatchRtp;
    assert m.now in Epochs(m) && forall e <- m.past :: e in Epochs(m);
    var m' := Next(c, m, i);
    if i.Batch? && i.samples != [] {
      BatchSteps(c, m, i);
      ReceiverIsTimely(c, m, i);
      var e := Receiver(m, m');
      BlankIsTimely(c, i.spare, i.spareCap, e.grid.firstRead + |e.grid.readings|, e.clock.boundaries);
      hide Next;
      ChainGoesOn(m.past, m.now, e);
      if e.clock.fault {
      }
    } else if i.ResetCall? {
      BlankIsTimely(c, i.spare, i.spareCap, m'.now.grid.firstRead, m'.now.clock.boundaries);
    }
  }

  lemma ChainGoesOn(past: seq<Epoch>, e: Epoch, e': Epoch)
    requires BoundariesChained(past + [e])
    requires e'.clock.boundaries - e'.clock.minutes == e.clock.boundaries - e.clock.minutes
    ensures BoundariesChained(past + [e'])
  {
    var es, es' := past + [e], past + [e'];
    forall k | 0 <= k < |past|
      ensures es'[k + 1].clock.boundaries - es'[k + 1].clock.minutes == es'[k].clock.boundaries
    {
      assert es'[k] == es[k];
      assert es[k + 1].clock.boundaries - es[k + 1].clock.minutes == es[k].clock.boundaries;
      assert if k + 1 < |past| then es'[k + 1] == es[k + 1] else es'[k + 1] == e' && es[k + 1] == e;
    }
  }

  /**
   * A batch ends its epoch exactly when at one of the minute boundaries it crosses a
   * watchdog asks for a re-sync.
   */
  lemma ResyncExactlyOnAFault(c: Config, m: Machine, i: Input)
    requires MachineLaw(c, m) && CanStep(c, m) && Timely(c, m.now) && i.Batch? && i.samples != []
    ensures var m', e := Next(c, m, i), Receiver(m, Next(c, m, i));
      |m'.past| > |m.past| <==> exists b :: m.now.clock.boundaries <= b < e.clock.boundaries && c.faultTape(b)
  {
    hide MachineLaw, CanStep, Next, Throttled, Minutes, FiledGaps;
    NowIsFlowing(c, m);
    ReceiverIsTimely(c, m, i);
    var e := Receiver(m, Next(c, m, i));
    if e.clock.fault {
      var last := e.clock.boundaries - 1;
      assert c.faultTape(last);
      assert m.now.clock.boundaries <= last;
    }
  }

  /** Over any run: minutes, watchdogs and harvests are as they should be in every epoch. */
  lemma {:induction false} RunIsTimely(c: Config, m: Machine, inputs: seq<Input>)
    requires MachineLaw(c, m) && InputsOk(c, inputs) && AllTimely(c, m) && BoundariesChained(Epochs(m))
    ensures AllTimely(c, RunAll(c, m, inputs)) && BoundariesChained(Epochs(RunAll(c, m, inputs)))
    decreases |inputs|
  {
    hide MachineLaw, Next, CanStep, AllTimely, BoundariesChained;
    if inputs != [] {
      var k := |inputs| - 1;
      assert forall i <- inputs[..k] :: i in inputs;
      RunIsTimely(c, m, inputs[..k]);
      CanAlwaysStep(c, RunAll(c, m, inputs[..k]));
      StepTimely(c, RunAll(c, m, inputs[..k]), inputs[k]);
    }
  }

  // ------------------------------------------------------------------- the gaps

  /** From log to log', one entry per gap, all at one place, none longer than `most`. */
  ghost predicate Filed(log: seq<LoggedGap>, log': seq<LoggedGap>, durations: seq<int>, at: int, position: int,
                        most: int)
  {
    && |log'| == |log| + |durations| && log <= log'
    && forall j :: 0 <= j < |durations| ==>
         var filed := log'[|log| + j];
         && filed.at == at && filed.gap.position == position
         && filed.gap.duration == if durations[j] <= most then durations[j] else most
  }

  lemma FiledGapsAreFiled(log: seq<LoggedGap>, durations: seq<int>, at: int, position: int, most: int)
    ensures Filed(log, log + FiledGaps(durations, at, position, most), durations, at, position, most)
  {
    var filed := FiledGaps(durations, at, position, most);
    assert forall j :: 0 <= j < |filed| ==> (log + filed)[|log| + j] == filed[j];
  }

  /** The gaps reported with a batch enter the log where the ring ends, none longer than two seconds. */
  lemma GapsAreFiled(c: Config, m: Machine, i: Input)
    requires MachineLaw(c, m) && CanStep(c, m) && Timely(c, m.now) && i.Batch? && i.samples != []
    ensures Filed(m.now.tank.log, Receiver(m, Next(c, m, i)).tank.log, i.quality.gapDurations,
                  |m.now.tank.h|, m.now.tank.fill, 2 * c.rate)
  {
    hide MachineLaw, CanStep, Timely, Next, FiledGaps, Filed;
    ReceiverIsTimely(c, m, i);
    FiledGapsAreFiled(m.now.tank.log, i.quality.gapDurations, |m.now.tank.h|, m.now.tank.fill, 2 * c.rate);
  }

  function Durations(log: seq<LoggedGap>): seq<int>
  {
    seq(|log|, i requires 0 <= i < |log| => log[i].gap.duration)
  }

  function Clipped(durations: seq<int>, most: int): seq<int>
  {
    seq(|durations|, i requires 0 <= i < |durations| => if durations[i] <= most then durations[i] else most)
  }

  /** The gaps of all batches that brought samples, none longer than two seconds. */
  function DeliveredGaps(c: Config, inputs: seq<Input>): seq<int>
  {
    if inputs == [] then []
    else
      var i := inputs[|inputs| - 1];
      DeliveredGaps(c, inputs[..|inputs| - 1]) +
      if i.Batch? && i.samples != [] then Clipped(i.quality.gapDurations, 2 * c.rate) else []
  }

  function LoggedGaps(es: seq<Epoch>): seq<int>
  {
    if es == [] then [] else LoggedGaps(es[..|es| - 1]) + Durations(es[|es| - 1].tank.log)
  }

  lemma LoggedSnoc(es: seq<Epoch>, e: Epoch)
    ensures LoggedGaps(es + [e]) == LoggedGaps(es) + Durations(e.tank.log)
  {
    assert (es + [e])[..|es|] == es;
  }

  lemma FiledDurations(log: seq<LoggedGap>, durations: seq<int>, at: int, position: int, most: int)
    ensures Durations(log + FiledGaps(durations, at, position, most)) == Durations(log) + Clipped(durations, most)
  {
    hide FiledGaps;
    var filed := FiledGaps(durations, at, position, most);
    assert forall j :: 0 <= j < |filed| ==> (log + filed)[|log| + j] == filed[j];
    assert forall j :: 0 <= j < |log| ==> (log + filed)[j] == log[j];
  }

  lemma StepLogs(c: Config, m: Machine, i: Input)
    requires MachineLaw(c, m) && CanStep(c, m) && Timely(c, m.now)
    ensures LoggedGaps(Epochs(Next(c, m, i))) == LoggedGaps(Epochs(m)) +
      if i.Batch? && i.samples != [] then Clipped(i.quality.gapDurations, 2 * c.rate) else []
  {
    hide MachineLaw, CanStep, Timely, AddSamples, FileGaps, BatchRtp, Durations, Clipped, LoggedGaps, FiledGaps;
    var m', sofar := Next(c, m, i), LoggedGaps(m.past);
    LoggedSnoc(m.past, m.now);
    LoggedSnoc(m'.past, m'.now);
    NothingLogged();
    if i.Batch? && i.samples != [] {
      BatchSteps(c, m, i);
      ReceiverIsTimely(c, m, i);
      var e, q := Receiver(m, m'), i.quality;
      hide Next;
      LoggedSnoc(m.past, e);
      FiledDurations(m.now.tank.log, q.gapDurations, |m.now.tank.h|, m.now.tank.fill, 2 * c.rate);
      var clipped := Clipped(q.gapDurations, 2 * c.rate);
      assert sofar + (Durations(m.now.tank.log) + clipped) == sofar + Durations(m.now.tank.log) + clipped;
      assert LoggedGaps(m.past + [e]) + [] == LoggedGaps(m.past + [e]);
    } else {
      assert LoggedGaps(Epochs(m)) + [] == LoggedGaps(Epochs(m));
    }
  }

  lemma NothingLogged()
    ensures Durations([]) == []
  {
  }

  /** The epochs' gap logs, end to end, are the gaps delivered. */
  lemma {:induction false} GapsAreDelivered(c: Config, m: Machine, inputs: seq<Input>)
    requires MachineLaw(c, m) && InputsOk(c, inputs) && AllTimely(c, m) && BoundariesChained(Epochs(m))
    ensures LoggedGaps(Epochs(RunAll(c, m, inputs))) == LoggedGaps(Epochs(m)) + DeliveredGaps(c, inputs)
    decreases |inputs|
  {
    hide MachineLaw, Next, CanStep, Timely, BoundariesChained, LoggedGaps, Clipped;
    var sofar := LoggedGaps(Epochs(m));
    if inputs == [] {
      assert sofar + [] == sofar;
    } else {
      var k := |inputs| - 1;
      assert forall i <- inputs[..k] :: i in inputs;
      var before, i := RunAll(c, m, inputs[..k]), inputs[k];
      GapsAreDelivered(c, m, inputs[..k]);
      RunIsTimely(c, m, inputs[..k]);
      CanAlwaysStep(c, before);
      assert before.now in Epochs(before);
      StepLogs(c, before, i);
      var more := if i.Batch? && i.samples != [] then Clipped(i.quality.gapDurations, 2 * c.rate) else [];
      assert sofar + DeliveredGaps(c, inputs[..k]) + more == sofar + (DeliveredGaps(c, inputs[..k]) + more);
    }
  }
}
