/**
 * The cycle batcher (wspr_recorder/spot_sink.py, CycleBatcher) as a state machine:
 * producers and the writer thread act in any order, one step per region held under
 * the lock.  A cycle key is the UTC minute it names, in epoch seconds.
 */
module BatcherModel {

  datatype Key = Key(cycle: int, rx: string)

  /** One decoded spot; its fields are not looked at here. */
  datatype RawSpot = RawSpot(text: string)

  /** One entry of a batch's `bands` dictionary, which keeps insertion order. */
  datatype BandSpots = BandSpots(band: string, spots: seq<RawSpot>)

  datatype Batch = Batch(
    key: Key,
    deadline: real,
    radiod: string,
    bands: seq<BandSpots>,
    noise: map<string, real>,
    expected: set<string>,
    completed: set<string>)
  {
    predicate Complete() { expected != {} && expected <= completed }

    /** The writer takes the batch out at `now`: every expected band reported, or the deadline passed. */
    predicate Due(now: real) { Complete() || now >= deadline }
  }

  /** What decides when the uploader is woken: the receivers to wait for, who has committed which cycle, since when. */
  datatype Tracking = Tracking(
    expectedRx: set<string>,
    committed: map<int, set<string>>,
    firstCommitAt: map<int, real>,
    fired: set<int>,
    callback: bool)

  /** Which bands each receiver records with which periods, and which it cannot produce. */
  datatype Bands = Bands(bySource: map<string, map<string, seq<int>>>, unproducible: map<string, set<string>>)

  /** `batches` is the dictionary in insertion order; `ready` and `fires` are what the writer took in its last pass. */
  datatype State = State(
    deadlineSec: real,
    backstopSec: real,
    batches: seq<Batch>,
    config: Bands,
    track: Tracking,
    stopped: bool,
    ready: seq<Batch>,
    fires: set<int>,
    delivered: seq<Batch>,
    wakes: multiset<int>)

  function Start(deadlineSec: real, backstopSec: real): State
  {
    var track := Tracking({}, map[], map[], {}, false);
    State(deadlineSec, backstopSec, [], Bands(map[], map[]), track, false, [], {}, [], multiset{})
  }

  // -------------------------------------------------------------- batches

  /** Position of the batch with this key, or the length when there is none. */
  function Index(bs: seq<Batch>, k: Key): (i: nat)
    ensures i <= |bs|
    ensures i < |bs| ==> bs[i].key == k
    ensures forall j :: 0 <= j < i ==> bs[j].key != k
  {
    if bs == [] || bs[0].key == k then 0 else Index(bs[1..], k) + 1
  }

  predicate IsOpen(s: State, k: Key) { Index(s.batches, k) < |s.batches| }

  function Found(s: State, k: Key): Batch
    requires IsOpen(s, k)
  {
    s.batches[Index(s.batches, k)]
  }

  /** Dictionary assignment: replace in place or append. */
  function Store(bs: seq<Batch>, b: Batch): seq<Batch>
  {
    var i := Index(bs, b.key);
    if i < |bs| then bs[i := b] else bs + [b]
  }

  /** `bands.setdefault(band, []).extend(spots)`. */
  function Extend(bands: seq<BandSpots>, band: string, spots: seq<RawSpot>): seq<BandSpots>
  {
    if bands == [] then [BandSpots(band, spots)]
    else if bands[0].band == band then [BandSpots(band, bands[0].spots + spots)] + bands[1..]
    else [bands[0]] + Extend(bands[1..], band, spots)
  }

  /** `bands.get(band, [])`. */
  function SpotsAt(bands: seq<BandSpots>, band: string): seq<RawSpot>
  {
    if bands == [] then []
    else if bands[0].band == band then bands[0].spots
    else SpotsAt(bands[1..], band)
  }

  /** A band's spots are kept together, in the order they came; other bands are left alone. */
  lemma {:induction false} ExtendAt(bands: seq<BandSpots>, band: string, spots: seq<RawSpot>, other: string)
    ensures SpotsAt(Extend(bands, band, spots), other) ==
      SpotsAt(bands, other) + if other == band then spots else []
    decreases |bands|
  {
    if bands == [] {
      assert [BandSpots(band, spots)][1..] == [] && [] + spots == spots;
    } else if bands[0].band != band {
      ExtendAt(bands[1..], band, spots, other);
    }
  }

  function Ready(bs: seq<Batch>, now: real): seq<Batch>
  {
    if bs == [] then [] else if bs[0].Due(now) then [bs[0]] + Ready(bs[1..], now) else Ready(bs[1..], now)
  }

  function Kept(bs: seq<Batch>, now: real): seq<Batch>
  {
    if bs == [] then [] else if bs[0].Due(now) then Kept(bs[1..], now) else [bs[0]] + Kept(bs[1..], now)
  }

  // ------------------------------------------------------------ producers

  predicate Divides(periods: seq<int>, cycle: int) { exists p <- periods :: p > 0 && cycle % p == 0 }

  /** Bands whose recording can finish for this cycle, and that the receiver can produce. */
  function ExpectedBands(s: State, k: Key): set<string>
  {
    if k.rx !in s.config.bySource then {}
    else
      var bands := s.config.bySource[k.rx];
      var skipped := if k.rx in s.config.unproducible then s.config.unproducible[k.rx] else {};
      set band | band in bands && band !in skipped && Divides(bands[band], k.cycle)
  }

  function Opened(k: Key, deadline: real, radiod: string, expected: set<string>): Batch
  {
    Batch(k, deadline, radiod, [], map[], expected, {})
  }

  /** The batch an operation works on: the open one, else a fresh one. */
  function Current(s: State, otherwise: Batch): Batch
  {
    if IsOpen(s, otherwise.key) then Found(s, otherwise.key) else otherwise
  }

  function ExpectBand(s: State, k: Key, band: string, radiod: string, now: real): State
  {
    var b := Current(s, Opened(k, now + s.backstopSec, radiod, ExpectedBands(s, k)));
    s.(batches := Store(s.batches, b.(expected := b.expected + {band})))
  }

  function MarkDone(s: State, k: Key, band: string): State
  {
    if IsOpen(s, k) then
      var b := Found(s, k);
      s.(batches := Store(s.batches, b.(completed := b.completed + {band})))
    else s
  }

  function Add(s: State, k: Key, band: string, spots: seq<RawSpot>, radiod: string, now: real): State
  {
    if spots == [] then s
    else
      var b := Current(s, Opened(k, now + s.deadlineSec, radiod, {}));
      s.(batches := Store(s.batches, b.(bands := Extend(b.bands, band, spots))))
  }

  function AddNoise(s: State, k: Key, band: string, level: real, radiod: string, now: real): State
  {
    var b := Current(s, Opened(k, now + s.deadlineSec, radiod, {}));
    s.(batches := Store(s.batches, b.(noise := b.noise[band := level])))
  }

  // --------------------------------------------------------------- writer

  /** Cycles whose first commit is a backstop old and whose wake has not fired. */
  function Overdue(t: Tracking, backstopSec: real, now: real): set<int>
  {
    if t.expectedRx == {} then {}
    else set c | c in t.firstCommitAt && c !in t.fired && now >= t.firstCommitAt[c] + backstopSec
  }

  /** These cycles count as woken; nothing more is tracked for them. */
  function Expire(t: Tracking, late: set<int>): Tracking
  {
    t.(fired := t.fired + late, firstCommitAt := t.firstCommitAt - late, committed := t.committed - late)
  }

  /** One look at the shared maps: take the due batches and the overdue cycles. */
  function Pass(s: State, now: real): State
  {
    var late := Overdue(s.track, s.backstopSec, now);
    s.(batches := Kept(s.batches, now), ready := Ready(s.batches, now), fires := late, track := Expire(s.track, late))
  }

  /** Receivers known to have committed this cycle, counting one more. */
  function WithCommit(t: Tracking, k: Key): set<string>
  {
    (if k.cycle in t.committed then t.committed[k.cycle] else {}) + {k.rx}
  }

  /** A flush that wrote rows wakes now: always without expected receivers, else as the last of them. */
  predicate Wakes(t: Tracking, k: Key)
  {
    t.callback && (t.expectedRx == {} || (k.cycle !in t.fired && t.expectedRx <= WithCommit(t, k)))
  }

  /** What such a flush leaves tracked. */
  function Commit(t: Tracking, k: Key, at: real): Tracking
  {
    var c := k.cycle;
    if !t.callback || t.expectedRx == {} || c in t.fired then t
    else if t.expectedRx <= WithCommit(t, k) then Expire(t, {c})
    else
      t.(committed := t.committed[c := WithCommit(t, k)],
         firstCommitAt := if c in t.firstCommitAt then t.firstCommitAt else t.firstCommitAt[c := at])
  }

  /** Hand the next taken batch to the sink, which reports `rows` written. */
  function Flush(s: State, rows: nat, at: real): State
    requires s.ready != []
  {
    var b := s.ready[0];
    var s' := s.(ready := s.ready[1..], delivered := s.delivered + [b]);
    if rows == 0 then s'
    else s'.(track := Commit(s.track, b.key, at),
             wakes := if Wakes(s.track, b.key) then s.wakes + multiset{b.key.cycle} else s.wakes)
  }

  datatype Event =
    | ExpectE(k: Key, band: string, radiod: string, now: real)
    | DoneE(k: Key, band: string)
    | AddE(k: Key, band: string, spots: seq<RawSpot>, radiod: string, now: real)
    | NoiseE(k: Key, band: string, level: real, radiod: string, now: real)
    | PassE(now: real)
    | FlushE(batch: Batch, rows: nat, at: real)
    | WakeE(cycle: int)                        // a backstop wake, after the pass's flushes
    | StopE                                    // the writer has been joined
    | ReceiversE(rxs: set<string>)
    | BandsE(config: map<string, map<string, seq<int>>>)
    | ProducibleE(rx: string, band: string, producible: bool)
    | CallbackE(present: bool)

  predicate Enabled(s: State, e: Event)
  {
    match e
    case PassE(_) => !s.stopped && s.ready == [] && s.fires == {}
    case FlushE(b, rows, _) => s.ready != [] && b == s.ready[0] && rows <= SpotCount(b.bands)
    case WakeE(c) => s.ready == [] && c in s.fires
    case StopE => s.ready == [] && s.fires == {}
    case _ => true
  }

  function SpotCount(bands: seq<BandSpots>): nat
  {
    if bands == [] then 0 else |bands[0].spots| + SpotCount(bands[1..])
  }

  function SetProducible(config: Bands, rx: string, band: string, producible: bool): Bands
  {
    var skipped := if rx in config.unproducible then config.unproducible[rx] else {};
    config.(unproducible := config.unproducible[rx := if producible then skipped - {band} else skipped + {band}])
  }

  /** A mark decides whether that band of that receiver is waited for, where it can finish at all, and nothing else. */
  lemma ProducibleDecides(s: State, rx: string, band: string, producible: bool, k: Key, other: string)
    ensures var s' := s.(config := SetProducible(s.config, rx, band, producible));
      other in ExpectedBands(s', k) <==>
        if k.rx == rx && other == band then
          && producible && k.rx in s.config.bySource && band in s.config.bySource[k.rx]
          && Divides(s.config.bySource[k.rx][band], k.cycle)
        else other in ExpectedBands(s, k)
  {
    hide Divides;
  }

  /** A new set of receivers starts from nothing committed and nothing woken. */
  function Expecting(t: Tracking, rxs: set<string>): Tracking { Tracking(rxs, map[], map[], {}, t.callback) }

  function Step(s: State, e: Event): State
    requires Enabled(s, e)
  {
    match e
    case ExpectE(k, band, radiod, now) => ExpectBand(s, k, band, radiod, now)
    case DoneE(k, band) => MarkDone(s, k, band)
    case AddE(k, band, spots, radiod, now) => Add(s, k, band, spots, radiod, now)
    case NoiseE(k, band, level, radiod, now) => AddNoise(s, k, band, level, radiod, now)
    case PassE(now) => Pass(s, now)
    case FlushE(_, rows, at) => Flush(s, rows, at)
    case WakeE(c) => s.(fires := s.fires - {c}, wakes := if s.track.callback then s.wakes + multiset{c} else s.wakes)
    case StopE => s.(stopped := true, ready := s.batches, batches := [])
    case ReceiversE(rxs) => s.(track := Expecting(s.track, rxs))
    case BandsE(config) => s.(config := s.config.(bySource := config))
    case ProducibleE(rx, band, producible) => s.(config := SetProducible(s.config, rx, band, producible))
    case CallbackE(present) => s.(track := s.track.(callback := present))
  }

  ghost predicate Runs(s: State, es: seq<Event>)
    decreases |es|
  {
    es == [] || (Enabled(s, es[0]) && Runs(Step(s, es[0]), es[1..]))
  }

  ghost function Run(s: State, es: seq<Event>): State
    requires Runs(s, es)
    decreases |es|
  {
    if es == [] then s else Run(Step(s, es[0]), es[1..])
  }

  // ------------------------------------------------------- one batch per key

  ghost predicate Distinct(bs: seq<Batch>)
  {
    forall i, j :: 0 <= i < j < |bs| ==> bs[i].key != bs[j].key
  }

  /** The two commit maps name the same cycles, none of which has fired. */
  ghost predicate Tracked(t: Tracking)
  {
    t.committed.Keys == t.firstCommitAt.Keys && t.committed.Keys !! t.fired
  }

  ghost predicate Inv(s: State) { Distinct(s.batches) && Tracked(s.track) }

  lemma {:induction false} KeptFacts(bs: seq<Batch>, now: real)
    ensures forall b :: b in Kept(bs, now) <==> b in bs && !b.Due(now)
    ensures forall b :: b in Ready(bs, now) <==> b in bs && b.Due(now)
    ensures Distinct(bs) ==> Distinct(Kept(bs, now))
    decreases |bs|
  {
    if bs != [] {
      assert bs == [bs[0]] + bs[1..];
      KeptFacts(bs[1..], now);
      assert Distinct(bs) ==> Distinct(bs[1..]) && forall b <- bs[1..] :: b.key != bs[0].key;
    }
  }

  lemma StoreFacts(bs: seq<Batch>, b: Batch)
    requires Distinct(bs)
    ensures Distinct(Store(bs, b)) && b in Store(bs, b)
    ensures forall x :: x in Store(bs, b) ==> x == b || (x in bs && x.key != b.key)
    ensures forall x :: x in bs && x.key != b.key ==> x in Store(bs, b)
  {
    var i := Index(bs, b.key);
    if i < |bs| {
      assert Store(bs, b)[i] == b;
      forall x | x in bs && x.key != b.key ensures x in Store(bs, b) {
        var j :| 0 <= j < |bs| && bs[j] == x;
        assert Store(bs, b)[j] == x;
      }
    }
  }

  lemma ExpireKeepsTracked(t: Tracking, late: set<int>)
    requires Tracked(t)
    ensures Tracked(Expire(t, late))
  {
  }

  lemma CommitKeepsTracked(t: Tracking, k: Key, at: real)
    requires Tracked(t)
    ensures Tracked(Commit(t, k, at))
  {
    hide WithCommit;
  }

  lemma StepKeepsInv(s: State, e: Event)
    requires Inv(s) && Enabled(s, e)
    ensures Inv(Step(s, e))
  {
    hide Store, Index, Commit, Expire, Overdue, Tracked, Distinct, ExpectedBands, Extend, SpotCount;
    match e
    case ExpectE(_, _, _, _) => BatchStepDistinct(s, e);
    case DoneE(_, _) => BatchStepDistinct(s, e);
    case AddE(_, _, _, _, _) => BatchStepDistinct(s, e);
    case NoiseE(_, _, _, _, _) => BatchStepDistinct(s, e);
    case PassE(now) =>
      KeptFacts(s.batches, now);
      ExpireKeepsTracked(s.track, Overdue(s.track, s.backstopSec, now));
    case FlushE(b, _, at) => CommitKeepsTracked(s.track, b.key, at);
    case StopE => NothingDistinct();
    case ReceiversE(rxs) => assert Tracked(Expecting(s.track, rxs)) by { AfreshTracked(s.track, rxs); }
    case CallbackE(present) => CallbackTracked(s.track, present);
    case _ =>
  }

  lemma NothingDistinct()
    ensures Distinct([])
  {
  }

  lemma AfreshTracked(t: Tracking, rxs: set<string>)
    ensures Tracked(Expecting(t, rxs))
  {
  }

  lemma CallbackTracked(t: Tracking, present: bool)
    requires Tracked(t)
    ensures Tracked(t.(callback := present))
  {
  }

  /** A producer touches nothing but the open batches. */
  lemma ProducerTouchesBatches(s: State, e: Event)
    requires e.ExpectE? || e.DoneE? || e.AddE? || e.NoiseE?
    ensures Step(s, e) == s.(batches := Step(s, e).batches)
  {
    hide Store, Index, ExpectedBands, Extend, Current, Found, IsOpen;
  }

  lemma BatchStepDistinct(s: State, e: Event)
    requires Distinct(s.batches) && (e.ExpectE? || e.DoneE? || e.AddE? || e.NoiseE?)
    ensures Distinct(Step(s, e).batches) && Step(s, e) == s.(batches := Step(s, e).batches)
  {
    hide Store, Index, ExpectedBands, Extend;
    var s' := Step(s, e);
    if s'.batches != s.batches {
      var b: Batch :| s'.batches == Store(s.batches, b);
      StoreFacts(s.batches, b);
    }
  }

  lemma {:induction false} RunKeepsInv(s: State, es: seq<Event>)
    requires Inv(s) && Runs(s, es)
    ensures Inv(Run(s, es))
    decreases |es|
  {
    if es != [] {
      StepKeepsInv(s, es[0]);
      RunKeepsInv(Step(s, es[0]), es[1..]);
    }
  }
}
