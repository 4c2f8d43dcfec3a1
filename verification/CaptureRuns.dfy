/** Whole runs of the recorder, and what follows for everything it sent. */
module CaptureRuns {
  import opened Audio
  import opened History
  import opened Modes
  import opened Slots
  import opened Requests
  import opened CaptureModel
  import opened CaptureGrid
  import opened CaptureLaws
  import opened CaptureEpochs
  import Ring
  import Rtp
  import Sync

  /** The law for every epoch so far, the one in progress between batches. */
  ghost predicate MachineLaw(c: Config, m: Machine)
  {
    c.Valid() && Open(c, m.now) && forall e <- m.past :: EpochLaw(c, e)
  }

  /** A spare ring holds the longest window and ten minutes on top. */
  predicate InputOk(c: Config, i: Input) { Roomy(c.Periods(), c.rate, i.spareCap) }

  predicate InputsOk(c: Config, inputs: seq<Input>) { forall i <- inputs :: InputOk(c, i) }

  lemma CanAlwaysStep(c: Config, m: Machine)
    requires MachineLaw(c, m)
    ensures CanStep(c, m)
  {
    hide Open;
    OpenFacts(c, m.now);
  }

  lemma OpenIsLawful(c: Config, e: Epoch)
    requires Open(c, e)
    ensures EpochLaw(c, e)
  {
    hide EpochLaw;
  }

  lemma StepKeeps(c: Config, m: Machine, i: Input)
    requires MachineLaw(c, m) && InputOk(c, i) && CanStep(c, m)
    ensures MachineLaw(c, Next(c, m, i))
  {
    hide Open, EpochLaw, Roomy, AddSamples, FileGaps;
    OpenIsLawful(c, m.now);
    if i.ResetCall? {
      BlankIsOpen(c, i.spare, i.spareCap, Next(c, m, i).now.grid.firstRead, m.now.clock.boundaries);
    } else if i.samples != [] {
      GapsKeep(c, m.now, i.quality.gapDurations);
      var e := FileGaps(c, m.now, i.quality.gapDurations);
      OpenFacts(c, e);
      BatchKeeps(c, e, i.samples, BatchRtp(i.quality, |i.samples|), i.reference);
      var e' := AddSamples(c, e, i.samples, BatchRtp(i.quality, |i.samples|), i.reference);
      BlankIsOpen(c, i.spare, i.spareCap, e'.grid.firstRead + |e'.grid.readings|, e'.clock.boundaries);
    }
  }

  /** A run of any inputs. */
  ghost function RunAll(c: Config, m: Machine, inputs: seq<Input>): (m': Machine)
    requires MachineLaw(c, m) && InputsOk(c, inputs)
    ensures MachineLaw(c, m')
  {
    if inputs == [] then m
    else
      var k := |inputs| - 1;
      assert inputs[k] in inputs && forall i <- inputs[..k] :: i in inputs;
      var before := RunAll(c, m, inputs[..k]);
      CanAlwaysStep(c, before);
      StepKeeps(c, before, inputs[k]);
      Next(c, before, inputs[k])
  }

  function Epochs(m: Machine): seq<Epoch> { m.past + [m.now] }

  lemma EpochsAreLawful(c: Config, m: Machine, e: Epoch)
    requires MachineLaw(c, m) && e in Epochs(m)
    ensures EpochLaw(c, e)
  {
    hide Open, EpochLaw;
    OpenIsLawful(c, m.now);
  }

  // --------------------------------------------------------- faithful requests

  /** The audio a request stands for: carried along, or the part of its ring's history it will copy. */
  ghost predicate StandsFor(e: Epoch, r: DecodeRequest, off: nat, n: nat)
    requires off + n <= |e.tank.h|
  {
    match r.audio
    case Eager(w) => w == Window(e.tank.h[off..off + n], GapsWithin(e.tank.log, off, off + n))
    case Deferred(ring, offset, count) => ring == e.tank.ring && offset == off && count == n
  }

  /**
   * Under the reading `a`, the request stands for the stretch of the epoch's stream
   * that begins where its UTC label falls, counted from the anchor sample; and where
   * the stream was unbroken, the i-th of those samples arrived under the RTP time
   * that is the request's start timestamp plus i.
   */
  ghost predicate FaithfulUnder(c: Config, e: Epoch, r: DecodeRequest, a: real)
    requires e.tag.Some?
  {
    var off, n := Offset(r.startWallclock, a, c.rate), WindowSamples(r.periodSeconds, c.rate);
    var base := e.tag.value.origin + off;
    && 0 <= off && 0 < n && off + n <= |e.tank.h| && base + n <= |e.src.stream| == |e.src.stamps|
    && PlacedAt(r.startWallclock, a, c.rate, off) && n == r.periodSeconds * c.rate
    && StandsFor(e, r, off, n) && (r.audio.Deferred? <==> r.periodSeconds >= 900)
    && r.startRtp == Rtp.Wrap(e.tag.value.rtp + off)
    && e.tank.h[off..off + n] == e.src.stream[base..base + n]
    && r.endRtp == Rtp.Wrap(r.startRtp + n)
    && (base + n <= e.src.unbroken ==> e.src.stamps[base..base + n] == Stamps(r.startRtp, n))
  }

  /**
   * The k-th request is faithful under the reading in force when it was sent, and its
   * window had arrived by then.
   */
  ghost predicate Faithful(c: Config, e: Epoch, k: nat)
    requires k < |e.grid.out|
  {
    var r := e.grid.out[k];
    && e.tag.Some? && |e.grid.moments| == |e.grid.out|
    && r.periodSeconds in c.Periods() && r.modes == ModesWithPeriod(c.modes, r.periodSeconds)
    && var m := e.grid.moments[k];
    && Happened(m, e.grid.readings, |e.tank.h|)
    && var a := InForce(m, e.grid.readings);
    && FaithfulUnder(c, e, r, a)
    && Offset(r.startWallclock, a, c.rate) + WindowSamples(r.periodSeconds, c.rate) <= m.leading
  }

  lemma WindowIsFaithful(c: Config, e: Epoch, r: DecodeRequest, a: real)
    requires EpochLaw(c, e) && e.tag.Some?
    requires RightWindow(r, e.tank.h, e.tank.log, e.tank.ring, e.tag.value.rtp, c.rate, a)
    ensures FaithfulUnder(c, e, r, a)
  {
    hide GridLaw, Offset, PlacedAt, WindowSamples, GapsWithin, Sync.SamplesUntil, Sync.NextMinute, Rtp.Wrap;
    var l := e.tag.value;
    var off, n := Offset(r.startWallclock, a, c.rate), WindowSamples(r.periodSeconds, c.rate);
    assert n == r.periodSeconds * c.rate by { WindowIsPeriod(r.periodSeconds, c.rate); }
    var base := l.origin + off;
    assert e.src.stream[base..base + n] == e.src.stream[l.origin..][off..off + n];
    assert e.tank.h[off..off + n] == e.src.stream[l.origin..][off..off + n];
    if base + n <= e.src.unbroken {
      var arrived := e.src.stamps[base..base + n];
      forall i | 0 <= i < n ensures arrived[i] == Stamps(r.startRtp, n)[i] {
        StampAt(e.src.stamps[0], l.origin, l.rtp, off, r.startRtp, i);
        assert arrived[i] == e.src.stamps[l.origin + off + i];
      }
    }
  }

  lemma WindowIsPeriod(p: int, rate: nat)
    ensures WindowSamples(p, rate) == p * rate
  {
  }

  lemma StampAt(rtp0: Rtp.Timestamp, origin: nat, anchorRtp: Rtp.Timestamp, off: int, startRtp: Rtp.Timestamp, i: int)
    requires anchorRtp == Rtp.Wrap(rtp0 + origin) && startRtp == Rtp.Wrap(anchorRtp + off)
    ensures Rtp.Wrap(rtp0 + (origin + off + i)) == Rtp.Wrap(startRtp + i)
  {
    Rtp.WrapAdd(rtp0 + origin, off);
    Rtp.WrapAdd(rtp0 + origin + off, i);
    assert rtp0 + (origin + off + i) == rtp0 + origin + off + i;
  }

  /** Every request of every epoch of every run is faithful. */
  lemma EveryRequestIsFaithful(c: Config, m: Machine, e: Epoch, k: nat)
    requires MachineLaw(c, m) && e in Epochs(m) && k < |e.grid.out|
    ensures Faithful(c, e, k)
  {
    EpochsAreLawful(c, m, e);
    RequestIsFaithful(c, e, k);
  }

  lemma RequestIsFaithful(c: Config, e: Epoch, k: nat)
    requires EpochLaw(c, e) && k < |e.grid.out|
    ensures Faithful(c, e, k)
  {
    hide RightWindow, FaithfulUnder, Rose, Moved, Steady, LedgerOk, AllJustified, ReadFromTape, Tagged, StampsOk,
         ModesWithPeriod, Offset, WindowSamples;
    var r, m := e.grid.out[k], e.grid.moments[k];
    assert RightRequest(c, e.tank, e.tag.value.rtp, e.grid.readings, r, m);
    WindowIsFaithful(c, e, r, InForce(m, e.grid.readings));
  }

  // ------------------------------------------------------------- the stream

  /** The samples of all batches, in order. */
  function Delivered(inputs: seq<Input>): seq<Sample>
  {
    if inputs == [] then []
    else Delivered(inputs[..|inputs| - 1]) + if inputs[|inputs| - 1].Batch? then inputs[|inputs| - 1].samples else []
  }

  /** The RTP time each of them arrived under. */
  function DeliveredStamps(inputs: seq<Input>): seq<Rtp.Timestamp>
  {
    if inputs == [] then []
    else
      var i := inputs[|inputs| - 1];
      DeliveredStamps(inputs[..|inputs| - 1]) +
      if i.Batch? then Stamps(BatchRtp(i.quality, |i.samples|), |i.samples|) else []
  }

  function StreamStamps(es: seq<Epoch>): seq<Rtp.Timestamp>
  {
    if es == [] then [] else StreamStamps(es[..|es| - 1]) + es[|es| - 1].src.stamps
  }

  function Streams(es: seq<Epoch>): seq<Sample>
  {
    if es == [] then [] else Streams(es[..|es| - 1]) + es[|es| - 1].src.stream
  }

  /** The epoch that receives a batch takes it in whole, with the RTP times it came under. */
  lemma BatchArrives(c: Config, m: Machine, i: Input)
    requires MachineLaw(c, m) && CanStep(c, m) && i.Batch? && i.samples != []
    ensures var m' := Next(c, m, i);
      var src := Arrive(m.now.src, i.samples, BatchRtp(i.quality, |i.samples|), i.reference);
      if |m'.past| == |m.past| then
        m'.past == m.past && m'.now.src == src && m'.now.grid.firstRead == m.now.grid.firstRead
      else
        && |m'.past| == |m.past| + 1 && m'.past[..|m.past|] == m.past
        && m'.past[|m.past|].src == src && m'.now.src == NO_STREAM
        && m'.past[|m.past|].grid.firstRead == m.now.grid.firstRead
        && m'.now.grid.firstRead == m.now.grid.firstRead + |m'.past[|m.past|].grid.readings|
  {
    hide Open, EpochLaw, AddSamples, Arrive;
    GapsKeep(c, m.now, i.quality.gapDurations);
    var e := FileGaps(c, m.now, i.quality.gapDurations);
    OpenFacts(c, e);
    BatchKeeps(c, e, i.samples, BatchRtp(i.quality, |i.samples|), i.reference);
    hide FileGaps;
  }

  lemma StreamsSnoc(es: seq<Epoch>, e: Epoch)
    ensures Streams(es + [e]) == Streams(es) + e.src.stream
    ensures StreamStamps(es + [e]) == StreamStamps(es) + e.src.stamps
  {
    assert (es + [e])[..|es|] == es;
  }

  /** The epochs' streams, end to end, are what was delivered, each sample under the RTP time of its batch. */
  lemma {:induction false} StreamIsDelivered(c: Config, m: Machine, inputs: seq<Input>)
    requires MachineLaw(c, m) && InputsOk(c, inputs)
    ensures Streams(Epochs(RunAll(c, m, inputs))) == Streams(Epochs(m)) + Delivered(inputs)
    ensures StreamStamps(Epochs(RunAll(c, m, inputs))) == StreamStamps(Epochs(m)) + DeliveredStamps(inputs)
    decreases |inputs|
  {
    hide MachineLaw, Next, Streams, StreamStamps, CanStep, Stamps, BatchRtp;
    var sofar, stamped := Streams(Epochs(m)), StreamStamps(Epochs(m));
    if inputs == [] {
      assert sofar + [] == sofar && stamped + [] == stamped;
    } else {
      var k := |inputs| - 1;
      assert forall i <- inputs[..k] :: i in inputs;
      var before, i := RunAll(c, m, inputs[..k]), inputs[k];
      StreamIsDelivered(c, m, inputs[..k]);
      CanAlwaysStep(c, before);
      StepDelivers(c, before, i);
      var s := if i.Batch? then i.samples else [];
      assert sofar + Delivered(inputs[..k]) + s == sofar + (Delivered(inputs[..k]) + s);
      var ts := if i.Batch? then Stamps(BatchRtp(i.quality, |i.samples|), |i.samples|) else [];
      assert stamped + DeliveredStamps(inputs[..k]) + ts == stamped + (DeliveredStamps(inputs[..k]) + ts);
    }
  }

  lemma StepDelivers(c: Config, m: Machine, i: Input)
    requires MachineLaw(c, m) && CanStep(c, m)
    ensures Streams(Epochs(Next(c, m, i))) == Streams(Epochs(m)) + if i.Batch? then i.samples else []
    ensures StreamStamps(Epochs(Next(c, m, i))) ==
      StreamStamps(Epochs(m)) + if i.Batch? then Stamps(BatchRtp(i.quality, |i.samples|), |i.samples|) else []
  {
    hide Open, EpochLaw, AddSamples, FileGaps, MachineLaw, CanStep, Next, BatchRtp, Streams, StreamStamps;
    var m' := Next(c, m, i);
    StreamsSnoc(m.past, m.now);
    StreamsSnoc(m'.past, m'.now);
    if i.Batch? && i.samples != [] {
      BatchArrives(c, m, i);
      if |m'.past| > |m.past| {
        var e := m'.past[|m.past|];
        assert m'.past == m.past + [e];
        StreamsSnoc(m.past, e);
        assert Streams(m'.past) + [] == Streams(m'.past) && StreamStamps(m'.past) + [] == StreamStamps(m'.past);
      }
      assert Streams(m.past) + (m.now.src.stream + i.samples) == Streams(m.past) + m.now.src.stream + i.samples;
      var ts := Stamps(BatchRtp(i.quality, |i.samples|), |i.samples|);
      assert StreamStamps(m.past) + (m.now.src.stamps + ts) == StreamStamps(m.past) + m.now.src.stamps + ts;
    } else {
      QuietStep(c, m, i);
      if i.ResetCall? {
        StreamsSnoc(m.past, m.now);
        assert Streams(m'.past) + [] == Streams(m'.past) && StreamStamps(m'.past) + [] == StreamStamps(m'.past);
      }
      assert Streams(Epochs(m)) + [] == Streams(Epochs(m)) && StreamStamps(Epochs(m)) + [] == StreamStamps(Epochs(m));
    }
  }

  lemma QuietStep(c: Config, m: Machine, i: Input)
    requires CanStep(c, m) && (i.Batch? ==> i.samples == [])
    ensures i.Batch? ==> Next(c, m, i) == m
    ensures i.ResetCall? ==> Next(c, m, i).past == m.past + [m.now] && Next(c, m, i).now.src == NO_STREAM
    ensures i.ResetCall? ==> Next(c, m, i).now.grid.firstRead == m.now.grid.firstRead + |m.now.grid.readings|
  {
  }

  /** The RTP time the next batch has if the stream goes on without a break; any time will do after a reset. */
  function NextStamp(inputs: seq<Input>): Option<Rtp.Timestamp>
  {
    if inputs == [] then None
    else
      var i := inputs[|inputs| - 1];
      if i.ResetCall? then None
      else if i.samples != [] then Some(Rtp.Wrap(BatchRtp(i.quality, |i.samples|) + |i.samples|))
      else NextStamp(inputs[..|inputs| - 1])
  }

  /** Batches of any size, each starting at the RTP time the one before it ended at, unless a reset lies between. */
  predicate Continuous(inputs: seq<Input>)
  {
    inputs == [] ||
    (Continuous(inputs[..|inputs| - 1]) &&
     var i, at := inputs[|inputs| - 1], NextStamp(inputs[..|inputs| - 1]);
     (i.Batch? && i.samples != [] ==>
       |i.samples| <= Rtp.HALF && (at.Some? ==> BatchRtp(i.quality, |i.samples|) == at.value)))
  }

  /** The stream of the epoch came in unbroken RTP order. */
  predicate Whole(e: Epoch) { e.src.unbroken == |e.src.stream| }

  /** All epochs are whole, and the one in progress ends at the stamp the next batch will have. */
  ghost predicate WholeSoFar(m: Machine, at: Option<Rtp.Timestamp>)
  {
    && (forall e <- m.past :: Whole(e)) && Whole(m.now)
    && (m.now.src.stamps != [] ==> at == Some(Rtp.Wrap(m.now.src.stamps[0] + |m.now.src.stream|)))
  }

  lemma {:induction false} ContinuousIsWhole(c: Config, m: Machine, inputs: seq<Input>)
    requires MachineLaw(c, m) && InputsOk(c, inputs) && m.now.src == NO_STREAM && m.past == []
    requires Continuous(inputs)
    ensures WholeSoFar(RunAll(c, m, inputs), NextStamp(inputs))
    decreases |inputs|
  {
    hide MachineLaw, Next;
    if inputs != [] {
      var k := |inputs| - 1;
      assert forall i <- inputs[..k] :: i in inputs;
      ContinuousIsWhole(c, m, inputs[..k]);
      CanAlwaysStep(c, RunAll(c, m, inputs[..k]));
      StepIsWhole(c, RunAll(c, m, inputs[..k]), inputs[k], NextStamp(inputs[..k]));
    }
  }

  lemma StepIsWhole(c: Config, m: Machine, i: Input, at: Option<Rtp.Timestamp>)
    requires MachineLaw(c, m) && CanStep(c, m) && WholeSoFar(m, at)
    requires i.Batch? && i.samples != [] ==>
      |i.samples| <= Rtp.HALF && (at.Some? ==> BatchRtp(i.quality, |i.samples|) == at.value)
    ensures WholeSoFar(Next(c, m, i), if i.ResetCall? then None
                                      else if i.samples != []
                                      then Some(Rtp.Wrap(BatchRtp(i.quality, |i.samples|) + |i.samples|)) else at)
  {
    hide Open, EpochLaw, CanStep, Next, Rtp.Wrap, BatchRtp;
    var m' := Next(c, m, i);
    if i.Batch? && i.samples != [] {
      BatchArrives(c, m, i);
      var rtp := BatchRtp(i.quality, |i.samples|);
      assert |m.now.src.stamps| == |m.now.src.stream| by { StampsMatch(c, m); }
      EndStamp(m.now.src, i.samples, rtp, i.reference);
      if |m'.past| > |m.past| {
        assert m'.past == m.past + [m'.past[|m.past|]];
      }
    } else {
      QuietStep(c, m, i);
    }
  }

  lemma StampsMatch(c: Config, m: Machine)
    requires MachineLaw(c, m)
    ensures StampsOk(m.now.src) && |m.now.src.stamps| == |m.now.src.stream|
  {
    OpenIsLawful(c, m.now);
    hide Open, GridLaw, Listening, Tagged;
  }

  lemma EndStamp(s: Source, samples: seq<Sample>, rtp: Rtp.Timestamp, referenceMicros: int)
    requires samples != [] && |s.stamps| == |s.stream| == s.unbroken && |samples| <= Rtp.HALF
    requires s.stamps != [] ==> rtp == Rtp.Wrap(s.stamps[0] + |s.stream|)
    ensures var s' := Arrive(s, samples, rtp, referenceMicros);
      && s'.unbroken == |s'.stream| && s'.stamps != []
      && Rtp.Wrap(s'.stamps[0] + |s'.stream|) == Rtp.Wrap(rtp + |samples|)
  {
    var s' := Arrive(s, samples, rtp, referenceMicros);
    if s.stamps == [] {
      assert s'.stamps[0] == Rtp.Wrap(rtp + 0);
      WrapOf(rtp);
    } else {
      assert s'.stamps[0] == s.stamps[0];
      Rtp.WrapAdd(s.stamps[0] + |s.stream|, |samples|);
      assert s.stamps[0] + |s.stream| + |samples| == s.stamps[0] + |s'.stream|;
    }
  }

  /**
   * One source counts what it delivers: every batch tells the RTP time of the source's
   * first sample, and how many samples have come since, its own included.
   */
  ghost predicate Counted(inputs: seq<Input>, rtp0: Rtp.Timestamp)
  {
    forall k :: 0 <= k < |inputs| && inputs[k].Batch? ==> CountedAt(inputs, k, rtp0)
  }

  predicate CountedAt(inputs: seq<Input>, k: nat, rtp0: Rtp.Timestamp)
    requires k < |inputs| && inputs[k].Batch?
  {
    var q := inputs[k].quality;
    q.firstRtp == rtp0 && q.totalDelivered == |Delivered(inputs[..k + 1])|
  }

  lemma CountedFront(inputs: seq<Input>, rtp0: Rtp.Timestamp)
    requires inputs != [] && Counted(inputs, rtp0)
    ensures Counted(inputs[..|inputs| - 1], rtp0)
    ensures inputs[|inputs| - 1].Batch? ==>
      var i := inputs[|inputs| - 1];
      BatchRtp(i.quality, |i.samples|) == Rtp.Wrap(rtp0 + |Delivered(inputs[..|inputs| - 1])|)
  {
    var front := inputs[..|inputs| - 1];
    forall k | 0 <= k < |front| && front[k].Batch? ensures CountedAt(front, k, rtp0) {
      assert CountedAt(inputs, k, rtp0) && inputs[..k + 1] == front[..k + 1];
    }
    if inputs[|inputs| - 1].Batch? {
      assert CountedAt(inputs, |inputs| - 1, rtp0) && inputs[..|inputs|] == inputs;
    }
  }

  /** The i-th sample such a source delivers arrives under its first RTP time plus i. */
  lemma {:induction false} StampsCountUp(inputs: seq<Input>, rtp0: Rtp.Timestamp)
    requires Counted(inputs, rtp0)
    ensures |DeliveredStamps(inputs)| == |Delivered(inputs)|
    ensures forall i :: 0 <= i < |Delivered(inputs)| ==> DeliveredStamps(inputs)[i] == Rtp.Wrap(rtp0 + i)
    decreases |inputs|
  {
    hide BatchRtp, Rtp.Wrap;
    if inputs != [] {
      var front, last := inputs[..|inputs| - 1], inputs[|inputs| - 1];
      CountedFront(inputs, rtp0);
      StampsCountUp(front, rtp0);
      var before := |Delivered(front)|;
      forall i | before <= i < |Delivered(inputs)| ensures DeliveredStamps(inputs)[i] == Rtp.Wrap(rtp0 + i) {
        Rtp.WrapAdd(rtp0 + before, i - before);
        assert rtp0 + before + (i - before) == rtp0 + i;
      }
    }
  }

  /** Its batches follow on from each other. */
  lemma {:induction false} CountedIsContinuous(inputs: seq<Input>, rtp0: Rtp.Timestamp)
    requires Counted(inputs, rtp0) && Short(inputs)
    ensures Continuous(inputs)
    ensures NextStamp(inputs).Some? ==> NextStamp(inputs).value == Rtp.Wrap(rtp0 + |Delivered(inputs)|)
    decreases |inputs|
  {
    hide BatchRtp, Rtp.Wrap;
    if inputs != [] {
      var front, last := inputs[..|inputs| - 1], inputs[|inputs| - 1];
      assert last in inputs && forall i <- front :: i in inputs;
      CountedFront(inputs, rtp0);
      CountedIsContinuous(front, rtp0);
      if last.Batch? {
        Rtp.WrapAdd(rtp0 + |Delivered(front)|, |last.samples|);
      }
    }
  }

  lemma OneMoreInput(inputs: seq<Input>, i: Input)
    ensures DeliveredStamps(inputs + [i]) ==
      DeliveredStamps(inputs) + if i.Batch? then Stamps(BatchRtp(i.quality, |i.samples|), |i.samples|) else []
    ensures NextStamp(inputs + [i]) ==
      if i.ResetCall? then None
      else if i.samples != [] then Some(Rtp.Wrap(BatchRtp(i.quality, |i.samples|) + |i.samples|)) else NextStamp(inputs)
    ensures var at := NextStamp(inputs);
      Continuous(inputs + [i]) <==> Continuous(inputs) && (i.Batch? && i.samples != [] ==>
        |i.samples| <= Rtp.HALF && (at.Some? ==> BatchRtp(i.quality, |i.samples|) == at.value))
  {
    hide BatchRtp, Stamps, Rtp.Wrap;
    assert (inputs + [i])[..|inputs|] == inputs;
  }

  /** `all` goes on from `before` as `after` does from nothing. */
  ghost predicate GoesOnAs(before: seq<Input>, all: seq<Input>, after: seq<Input>)
  {
    && Continuous(all) && NextStamp(all) == NextStamp(after)
    && DeliveredStamps(all) == DeliveredStamps(before) + DeliveredStamps(after)
  }

  lemma OneMoreGoesOn(before: seq<Input>, all: seq<Input>, after: seq<Input>, i: Input)
    requires GoesOnAs(before, all, after) && Continuous(after + [i])
    ensures GoesOnAs(before, all + [i], after + [i])
  {
    hide BatchRtp, Stamps, Continuous, NextStamp, DeliveredStamps, Rtp.Wrap;
    OneMoreInput(all, i);
    OneMoreInput(after, i);
    var more := if i.Batch? then Stamps(BatchRtp(i.quality, |i.samples|), |i.samples|) else [];
    assert DeliveredStamps(before) + DeliveredStamps(after) + more ==
      DeliveredStamps(before) + (DeliveredStamps(after) + more);
  }

  lemma ResetGoesOn(before: seq<Input>, reset: Input)
    requires Continuous(before) && reset.ResetCall?
    ensures GoesOnAs(before, before + [reset], [])
  {
    OneMoreInput(before, reset);
    assert DeliveredStamps(before) + [] == DeliveredStamps(before);
  }

  /** So do those of a source that starts counting anew after a stream restore. */
  lemma {:induction false} RestoredIsContinuous(before: seq<Input>, reset: Input, after: seq<Input>)
    requires Continuous(before) && reset.ResetCall? && Continuous(after)
    ensures GoesOnAs(before, before + [reset] + after, after)
    decreases |after|
  {
    hide GoesOnAs;
    ResetGoesOn(before, reset);
    if after == [] {
      assert before + [reset] + after == before + [reset];
    } else {
      var front, last := after[..|after| - 1], after[|after| - 1];
      hide Continuous;
      assert after == front + [last] && before + [reset] + after == before + [reset] + front + [last];
      assert Continuous(front) by { OneMoreInput(front, last); }
      RestoredIsContinuous(before, reset, front);
      OneMoreGoesOn(before, before + [reset] + front, front, last);
    }
  }

  /** The RTP times count up by one. */
  ghost predicate Consecutive(stamps: seq<Rtp.Timestamp>)
  {
    forall x :: 0 <= x < |stamps| ==> stamps[x] == Rtp.Wrap(stamps[0] + x)
  }

  /** Of any epoch of any run: it is whole exactly when its RTP times count up, if no batch is over-long. */
  lemma WholeExactly(c: Config, m: Machine, e: Epoch)
    requires MachineLaw(c, m) && e in Epochs(m)
    ensures Whole(e) <==> Consecutive(e.src.stamps) && e.src.longest <= Rtp.HALF
  {
    hide Open, GridLaw, Listening, Tagged, Rtp.Wrap;
    EpochsAreLawful(c, m, e);
  }

  /** No batch is longer than half the RTP circle. */
  predicate Short(inputs: seq<Input>) { forall i <- inputs :: i.Batch? ==> |i.samples| <= Rtp.HALF }

  lemma {:induction false} ShortBatches(c: Config, m: Machine, inputs: seq<Input>)
    requires MachineLaw(c, m) && InputsOk(c, inputs) && Short(inputs)
    requires forall e <- Epochs(m) :: e.src.longest <= Rtp.HALF
    ensures forall e <- Epochs(RunAll(c, m, inputs)) :: e.src.longest <= Rtp.HALF
    decreases |inputs|
  {
    hide MachineLaw, Next, CanStep;
    if inputs != [] {
      var k := |inputs| - 1;
      assert forall i <- inputs[..k] :: i in inputs;
      var before, i := RunAll(c, m, inputs[..k]), inputs[k];
      ShortBatches(c, m, inputs[..k]);
      CanAlwaysStep(c, before);
      assert i in inputs;
      StepIsShort(c, before, i);
    }
  }

  lemma StepIsShort(c: Config, m: Machine, i: Input)
    requires MachineLaw(c, m) && CanStep(c, m) && (i.Batch? ==> |i.samples| <= Rtp.HALF)
    requires forall e <- Epochs(m) :: e.src.longest <= Rtp.HALF
    ensures forall e <- Epochs(Next(c, m, i)) :: e.src.longest <= Rtp.HALF
  {
    hide MachineLaw, Next, CanStep;
    assert m.now in Epochs(m) && forall e <- m.past :: e in Epochs(m);
    var m' := Next(c, m, i);
    if i.Batch? && i.samples != [] {
      BatchArrives(c, m, i);
      assert m'.past == m.past || m'.past == m.past + [m'.past[|m.past|]];
    } else {
      QuietStep(c, m, i);
    }
  }

  // ------------------------------------------------------------- the readings

  /** Each epoch's readings begin on the tape where those of the one before ended. */
  ghost predicate Chained(es: seq<Epoch>)
  {
    forall k :: 0 <= k < |es| - 1 ==> es[k + 1].grid.firstRead == es[k].grid.firstRead + |es[k].grid.readings|
  }

  /** Over any run every entry of the anchor tape is read once, in order. */
  lemma {:induction false} TapeIsReadOnce(c: Config, m: Machine, inputs: seq<Input>)
    requires MachineLaw(c, m) && InputsOk(c, inputs) && Chained(Epochs(m))
    ensures Chained(Epochs(RunAll(c, m, inputs)))
    ensures Epochs(RunAll(c, m, inputs))[0].grid.firstRead == Epochs(m)[0].grid.firstRead
    decreases |inputs|
  {
    hide MachineLaw, Next, CanStep;
    if inputs != [] {
      var k := |inputs| - 1;
      assert forall i <- inputs[..k] :: i in inputs;
      TapeIsReadOnce(c, m, inputs[..k]);
      CanAlwaysStep(c, RunAll(c, m, inputs[..k]));
      StepChains(c, RunAll(c, m, inputs[..k]), inputs[k]);
    }
  }

  lemma StepChains(c: Config, m: Machine, i: Input)
    requires MachineLaw(c, m) && CanStep(c, m) && Chained(Epochs(m))
    ensures Chained(Epochs(Next(c, m, i))) && Epochs(Next(c, m, i))[0].grid.firstRead == Epochs(m)[0].grid.firstRead
  {
    hide MachineLaw, CanStep, Next;
    var m' := Next(c, m, i);
    if i.Batch? && i.samples != [] {
      BatchArrives(c, m, i);
    } else {
      QuietStep(c, m, i);
    }
    var es, es', n := Epochs(m), Epochs(m'), |m.past|;
    assert forall k :: 0 <= k < n ==> es'[k] == es[k] by { assert m'.past[..n] == m.past; }
    assert es'[n].grid.firstRead == es[n].grid.firstRead;
  }

  /** The stretch of the anchor tape an epoch reads, the frozen label standing in where radiod gives nothing. */
  ghost function Anchors(c: Config, e: Epoch): seq<real>
    requires e.tag.Some?
  {
    seq(|e.grid.readings|, (i: nat) => c.anchorTape(e.grid.firstRead + i).GetOr(e.tag.value.wallclock as real))
  }

  lemma ReadingsAreTheTape(c: Config, m: Machine, e: Epoch)
    requires MachineLaw(c, m) && e in Epochs(m)
    ensures if e.tag.Some? then e.grid.readings == Anchors(c, e) else e.grid.readings == [] && e.grid.drops == []
  {
    hide Open, LedgerOk, AllRight, AllJustified, Steady, Moved, Rose, Tagged, StampsOk, Listening;
    EpochsAreLawful(c, m, e);
  }

  /** The reference instant of an epoch is the one given with its first samples. */
  lemma ReferenceIsOfTheFirstBatch(c: Config, m: Machine, i: Input)
    requires MachineLaw(c, m) && CanStep(c, m) && i.Batch? && i.samples != []
    ensures var m' := Next(c, m, i);
      var e := if |m'.past| == |m.past| then m'.now else m'.past[|m.past|];
      e.src.reference == if m.now.src.stream == [] then i.reference else m.now.src.reference
  {
    hide MachineLaw, CanStep, Next;
    BatchArrives(c, m, i);
  }

  // ---------------------------------------------------------------- the cut

  /**
   * On an unbroken stream the recorder is synced exactly when the stream has run past
   * the boundary fixed by the reference instant of its first sample; the anchor
   * sample is then that boundary, carries the RTP time it arrived under, and lies
   * within half a sample period of the minute it is labelled with.
   */
  lemma SyncedExactlyAtTheBoundary(c: Config, e: Epoch)
    requires EpochLaw(c, e) && Whole(e) && e.src.stream != []
    ensures e.tag.Some? <==> Until(c, e.src) < |e.src.stream|
    ensures e.tag.Some? ==>
      var l := e.tag.value;
      && l.origin == Until(c, e.src) < |e.src.stamps| && l.rtp == e.src.stamps[l.origin]
      && l.wallclock == Sync.NextMinute(e.src.reference) && l.wallclock % 60 == 0
      && -0.5 <= Sync.PeriodsTo(l.wallclock, e.src.reference, c.rate) - l.origin as real <= 0.5
      && e.tank.h <= e.src.stream[l.origin..]
  {
    hide GridLaw, Rtp.Wrap, Sync.SamplesUntil, Sync.NextMinute, Sync.PeriodsTo;
    Sync.BoundaryIsOnTheMinute(e.src.reference, c.rate);
  }
}
