/** Nothing handed to the batcher is lost, doubled or moved. */
module BatcherConservation {
  import opened BatcherModel

  /** A spot together with where it belongs. */
  datatype Item = Item(key: Key, band: string, spot: RawSpot)

  ghost function Tagged(k: Key, band: string, spots: seq<RawSpot>): multiset<Item>
  {
    if spots == [] then multiset{} else multiset{Item(k, band, spots[0])} + Tagged(k, band, spots[1..])
  }

  ghost function BandItems(k: Key, bands: seq<BandSpots>): multiset<Item>
  {
    if bands == [] then multiset{} else Tagged(k, bands[0].band, bands[0].spots) + BandItems(k, bands[1..])
  }

  ghost function Items(b: Batch): multiset<Item> { BandItems(b.key, b.bands) }

  ghost function AllItems(bs: seq<Batch>): multiset<Item>
  {
    if bs == [] then multiset{} else Items(bs[0]) + AllItems(bs[1..])
  }

  /** What the producers handed over during these events. */
  ghost function Added(es: seq<Event>): multiset<Item>
  {
    if es == [] then multiset{} else Gives(es[0]) + Added(es[1..])
  }

  ghost function Gives(e: Event): multiset<Item>
  {
    if e.AddE? then Tagged(e.k, e.band, e.spots) else multiset{}
  }

  lemma {:induction false} TaggedAppend(k: Key, band: string, a: seq<RawSpot>, b: seq<RawSpot>)
    ensures Tagged(k, band, a + b) == Tagged(k, band, a) + Tagged(k, band, b)
    decreases |a|
  {
    if a == [] {
      assert a + b == b;
    } else {
      assert (a + b)[1..] == a[1..] + b;
      TaggedAppend(k, band, a[1..], b);
    }
  }

  lemma {:induction false} ExtendItems(k: Key, bands: seq<BandSpots>, band: string, spots: seq<RawSpot>)
    ensures BandItems(k, Extend(bands, band, spots)) == BandItems(k, bands) + Tagged(k, band, spots)
    decreases |bands|
  {
    if bands != [] {
      if bands[0].band == band {
        TaggedAppend(k, band, bands[0].spots, spots);
      } else {
        ExtendItems(k, bands[1..], band, spots);
      }
    }
  }

  lemma {:induction false} AllItemsAppend(a: seq<Batch>, b: seq<Batch>)
    ensures AllItems(a + b) == AllItems(a) + AllItems(b)
    decreases |a|
  {
    if a == [] {
      assert a + b == b;
    } else {
      assert (a + b)[1..] == a[1..] + b;
      AllItemsAppend(a[1..], b);
    }
  }

  /** Storing a batch adds exactly what it holds beyond the batch it replaces. */
  lemma StoreItems(s: State, b: Batch, extra: multiset<Item>)
    requires Items(b) == extra + if IsOpen(s, b.key) then Items(Found(s, b.key)) else multiset{}
    ensures AllItems(Store(s.batches, b)) == AllItems(s.batches) + extra
  {
    hide Index, Items;
    var bs, i := s.batches, Index(s.batches, b.key);
    if i < |bs| {
      assert bs == bs[..i] + ([bs[i]] + bs[i + 1..]);
      assert bs[i := b] == bs[..i] + ([b] + bs[i + 1..]);
      AllItemsAppend(bs[..i], [bs[i]] + bs[i + 1..]);
      AllItemsAppend([bs[i]], bs[i + 1..]);
      AllItemsAppend(bs[..i], [b] + bs[i + 1..]);
      AllItemsAppend([b], bs[i + 1..]);
    } else {
      AllItemsAppend(bs, [b]);
    }
  }

  lemma {:induction false} SplitItems(bs: seq<Batch>, now: real)
    ensures AllItems(Ready(bs, now)) + AllItems(Kept(bs, now)) == AllItems(bs)
    decreases |bs|
  {
    if bs != [] {
      SplitItems(bs[1..], now);
    }
  }

  /** Everything the batcher has ever been given, wherever it is now. */
  ghost function Books(s: State): multiset<Item>
  {
    AllItems(s.batches) + AllItems(s.ready) + AllItems(s.delivered)
  }

  lemma ProducerBooks(s: State, e: Event)
    requires e.ExpectE? || e.DoneE? || e.AddE? || e.NoiseE?
    ensures AllItems(Step(s, e).batches) == AllItems(s.batches) + Gives(e)
    ensures Step(s, e).ready == s.ready && Step(s, e).delivered == s.delivered
  {
    hide Store, Index, IsOpen, Found, ExpectedBands, Extend, AllItems, Tagged;
    match e
    case ExpectE(k, band, radiod, now) =>
      var b := Current(s, Opened(k, now + s.backstopSec, radiod, ExpectedBands(s, k)));
      CurrentKey(s, Opened(k, now + s.backstopSec, radiod, ExpectedBands(s, k)));
      StoreItems(s, b.(expected := b.expected + {band}), multiset{});
    case DoneE(k, band) =>
      if IsOpen(s, k) {
        var b := Found(s, k);
        FoundKey(s, k);
        StoreItems(s, b.(completed := b.completed + {band}), multiset{});
      }
    case AddE(k, band, spots, radiod, now) =>
      if spots == [] {
        assert Gives(e) == multiset{} by { TaggedNothing(k, band); }
      } else {
        var b := Current(s, Opened(k, now + s.deadlineSec, radiod, {}));
        CurrentKey(s, Opened(k, now + s.deadlineSec, radiod, {}));
        ExtendItems(k, b.bands, band, spots);
        StoreItems(s, b.(bands := Extend(b.bands, band, spots)), Tagged(k, band, spots));
      }
    case NoiseE(k, band, level, radiod, now) =>
      var b := Current(s, Opened(k, now + s.deadlineSec, radiod, {}));
      CurrentKey(s, Opened(k, now + s.deadlineSec, radiod, {}));
      StoreItems(s, b.(noise := b.noise[band := level]), multiset{});
  }

  lemma TaggedNothing(k: Key, band: string)
    ensures Tagged(k, band, []) == multiset{}
  {
  }

  lemma FoundKey(s: State, k: Key)
    requires IsOpen(s, k)
    ensures Found(s, k).key == k
  {
  }

  lemma CurrentKey(s: State, otherwise: Batch)
    ensures Current(s, otherwise).key == otherwise.key
  {
  }

  lemma PassBooks(s: State, now: real)
    requires s.ready == []
    ensures Books(Pass(s, now)) == Books(s)
  {
    hide AllItems, Kept, Ready, Overdue;
    SplitItems(s.batches, now);
    AllItemsNone();
  }

  lemma FlushBooks(s: State, rows: nat, at: real)
    requires s.ready != []
    ensures Books(Flush(s, rows, at)) == Books(s)
  {
    hide AllItems, Commit, Wakes;
    var b := s.ready[0];
    assert s.ready == [b] + s.ready[1..];
    AllItemsAppend([b], s.ready[1..]);
    AllItemsAppend(s.delivered, [b]);
  }

  /** Each step adds to the books exactly what it was given. */
  lemma StepBooks(s: State, e: Event)
    requires Enabled(s, e)
    ensures Books(Step(s, e)) == Books(s) + Gives(e)
  {
    hide AllItems, Tagged, ExpectBand, MarkDone, Add, AddNoise, Pass, Flush;
    match e
    case ExpectE(_, _, _, _) => ProducerBooks(s, e);
    case DoneE(_, _) => ProducerBooks(s, e);
    case AddE(_, _, _, _, _) => ProducerBooks(s, e);
    case NoiseE(_, _, _, _, _) => ProducerBooks(s, e);
    case PassE(now) => PassBooks(s, now);
    case FlushE(_, rows, at) => FlushBooks(s, rows, at);
    case StopE => AllItemsNone();
    case _ =>
  }

  lemma AllItemsNone()
    ensures AllItems([]) == multiset{}
  {
  }

  lemma {:induction false} RunBooks(s: State, es: seq<Event>)
    requires Runs(s, es)
    ensures Books(Run(s, es)) == Books(s) + Added(es)
    decreases |es|
  {
    if es != [] {
      StepBooks(s, es[0]);
      RunBooks(Step(s, es[0]), es[1..]);
    }
  }

  lemma {:induction false} RunSplits(s: State, a: seq<Event>, b: seq<Event>)
    requires Runs(s, a + b)
    ensures Runs(s, a) && Runs(Run(s, a), b) && Run(s, a + b) == Run(Run(s, a), b)
    decreases |a|
  {
    if a == [] {
      assert a + b == b;
    } else {
      assert (a + b)[1..] == a[1..] + b;
      RunSplits(Step(s, a[0]), a[1..], b);
    }
  }

  /** Once stopped, what producers still add stays behind: no pass takes it. */
  lemma {:induction false} AfterStop(s: State, es: seq<Event>)
    requires Runs(s, es) && s.stopped && forall e <- es :: !e.StopE?
    ensures AllItems(Run(s, es).batches) == AllItems(s.batches) + Added(es)
    decreases |es|
  {
    if es != [] {
      var e := es[0];
      assert es == [e] + es[1..];
      StepAfterStop(s, e);
      AfterStop(Step(s, e), es[1..]);
    }
  }

  lemma StepAfterStop(s: State, e: Event)
    requires Enabled(s, e) && s.stopped && !e.StopE?
    ensures Step(s, e).stopped && AllItems(Step(s, e).batches) == AllItems(s.batches) + Gives(e)
  {
    hide AllItems, Tagged, ExpectBand, MarkDone, Add, AddNoise, Commit, Wakes;
    if e.ExpectE? || e.DoneE? || e.AddE? || e.NoiseE? {
      ProducerBooks(s, e);
      ProducerTouchesBatches(s, e);
    }
  }

  /** At any moment of any run: what is queued, taken or delivered is exactly what was added. */
  lemma NothingLostOrDoubled(deadlineSec: real, backstopSec: real, es: seq<Event>)
    requires Runs(Start(deadlineSec, backstopSec), es)
    ensures var s := Run(Start(deadlineSec, backstopSec), es);
      AllItems(s.batches) + AllItems(s.ready) + AllItems(s.delivered) == Added(es)
  {
    RunBooks(Start(deadlineSec, backstopSec), es);
  }

  lemma CancelRight(a: multiset<Item>, b: multiset<Item>, c: multiset<Item>)
    requires a + c == b + c
    ensures a == b
  {
    assert a == (a + c) - c;
  }

  lemma {:induction false} AddedAppend(a: seq<Event>, b: seq<Event>)
    ensures Added(a + b) == Added(a) + Added(b)
    decreases |a|
  {
    if a == [] {
      assert a + b == b;
    } else {
      assert (a + b)[1..] == a[1..] + b;
      AddedAppend(a[1..], b);
    }
  }

  /** What a stopped batcher has delivered, once the leftovers are flushed. */
  lemma StoppedBooks(s: State, after: seq<Event>)
    requires Enabled(s, StopE) && Runs(Step(s, StopE), after) && forall e <- after :: !e.StopE?
    requires Run(Step(s, StopE), after).ready == []
    ensures AllItems(Run(Step(s, StopE), after).delivered) == Books(s)
    ensures AllItems(Run(Step(s, StopE), after).batches) == Added(after)
  {
    hide AllItems, Added, Run, Runs;
    AllItemsNone();
    AfterStop(Step(s, StopE), after);
    RunBooks(Step(s, StopE), after);
    StepBooks(s, StopE);
    var end := Run(Step(s, StopE), after);
    assert AllItems(end.batches) == Added(after) by { assert multiset{} + Added(after) == Added(after); }
    assert Books(end) == Books(s) + Added(after) by { assert Books(s) + multiset{} == Books(s); }
    assert Books(end) == AllItems(end.delivered) + Added(after);
    CancelRight(AllItems(end.delivered), Books(s), Added(after));
  }

  /**
   * A run that stops and flushes what stop() took has delivered exactly what was added
   * before the stop, under the same cycle, receiver and band.  So every spot ever
   * added is delivered if and only if the producers were quiet after the stop.
   */
  lemma StopDeliversEverything(deadlineSec: real, backstopSec: real, before: seq<Event>, after: seq<Event>)
    requires Runs(Start(deadlineSec, backstopSec), before + ([StopE] + after))
    requires forall e <- after :: !e.StopE?
    requires Run(Start(deadlineSec, backstopSec), before + ([StopE] + after)).ready == []
    ensures var s := Run(Start(deadlineSec, backstopSec), before + ([StopE] + after));
      && AllItems(s.delivered) == Added(before)
      && AllItems(s.batches) == Added(after)
      && (AllItems(s.delivered) == Added(before + ([StopE] + after)) <==> Added(after) == multiset{})
  {
    hide AllItems, Step, Books;
    var s0 := Start(deadlineSec, backstopSec);
    RunSplits(s0, before, [StopE] + after);
    var s1 := Run(s0, before);
    assert ([StopE] + after)[1..] == after;
    RunFromStart(deadlineSec, backstopSec, before);
    StoppedBooks(s1, after);
    AddedAppend(before, [StopE] + after);
    if Added(before) == Added(before) + Added(after) {
      assert |Added(before)| == |Added(before)| + |Added(after)|;
    }
  }

  lemma RunFromStart(deadlineSec: real, backstopSec: real, es: seq<Event>)
    requires Runs(Start(deadlineSec, backstopSec), es)
    ensures Books(Run(Start(deadlineSec, backstopSec), es)) == Added(es)
  {
    RunBooks(Start(deadlineSec, backstopSec), es);
  }
}
