/**
 * The batcher object (wspr_recorder/spot_sink.py): each method is one region under the
 * lock, proved to be one step of the machine in BatcherModel.
 */
module Batcher {
  import opened BatcherModel
  import opened Audio

  const SHORTEST_WAIT: real := 0.05
  const IDLE_WAIT: real := 5.0

  ghost function Deadlines(bs: seq<Batch>): set<real> { set b | b in bs :: b.deadline }

  ghost function Backstops(first: map<int, real>, cycles: set<int>, backstop: real): set<real>
  {
    set c | c in cycles && c in first :: first[c] + backstop
  }

  /** The instants the writer has to be awake for: the open deadlines and the commit backstops. */
  ghost function Pending(bs: seq<Batch>, t: Tracking, backstop: real): set<real>
  {
    Deadlines(bs) + if t.expectedRx == {} then {} else Backstops(t.firstCommitAt, t.firstCommitAt.Keys, backstop)
  }

  /** `t` is the earliest of these instants; None says there is none. */
  ghost predicate Earliest(t: Option<real>, times: set<real>)
  {
    match t
    case None => times == {}
    case Some(v) => v in times && forall u <- times :: v <= u
  }

  function Min(t: Option<real>, u: real): Option<real>
  {
    match t
    case None => Some(u)
    case Some(v) => Some(if u < v then u else v)
  }

  /** How long the writer sleeps: to the earliest instant, but never less than the shortest wait. */
  function WaitFor(t: Option<real>, now: real): (sleep: real)
    ensures sleep >= 0.05
    ensures t.None? ==> sleep == 5.0
    ensures t.Some? ==> now + sleep >= t.value && (now + sleep == t.value || (sleep == 0.05 && t.value < now + 0.05))
  {
    match t
    case None => IDLE_WAIT
    case Some(v) => if v - now < SHORTEST_WAIT then SHORTEST_WAIT else v - now
  }

  /**
   * The sleep ends at the earliest of these instants, or 0.05 s from now if that is
   * later; with none of them it lasts five seconds.
   */
  ghost predicate SleepsUntilDue(sleep: real, now: real, times: set<real>)
  {
    if times == {} then sleep == 5.0
    else exists first <- times ::
      && (forall u <- times :: first <= u)
      && now + sleep == if first < now + 0.05 then now + 0.05 else first
  }

  lemma WaitEndsWhenDue(t: Option<real>, now: real, times: set<real>)
    requires Earliest(t, times)
    ensures SleepsUntilDue(WaitFor(t, now), now, times)
  {
    if times != {} {
      assert t.value in times;
    }
  }

  lemma DeadlinesSnoc(bs: seq<Batch>, b: Batch)
    ensures Deadlines(bs + [b]) == Deadlines(bs) + {b.deadline}
  {
    assert forall x :: x in bs + [b] <==> x in bs || x == b;
  }

  lemma BackstopsAdd(first: map<int, real>, cycles: set<int>, c: int, backstop: real)
    requires c in first
    ensures Backstops(first, cycles + {c}, backstop) == Backstops(first, cycles, backstop) + {first[c] + backstop}
  {
  }

  function Expired(s: State, late: set<int>): State { s.(fires := late, track := Expire(s.track, late)) }

  class CycleBatcher {
    const deadlineSec: real
    const backstopSec: real
    var batches: seq<Batch>
    var bandsBySource: map<string, map<string, seq<int>>>
    var unproducible: map<string, set<string>>
    var expectedRxSources: set<string>
    var cycleCommittedRx: map<int, set<string>>
    var cycleFirstCommitAt: map<int, real>
    var cycleWakeFired: set<int>
    var wakeCallback: bool
    var stopped: bool
    /** Locals of the writer thread, kept here because producers run between its flushes. */
    var ready: seq<Batch>
    var crossRxFires: set<int>
    /** What the sink was handed, and the wakes scheduled. */
    ghost var delivered: seq<Batch>
    ghost var wakes: multiset<int>

    ghost function State(): State
      reads this
    {
      BatcherModel.State(deadlineSec, backstopSec, batches, Bands(bandsBySource, unproducible), Track(), stopped,
        ready, crossRxFires, delivered, wakes)
    }

    ghost function Track(): Tracking
      reads this
    {
      Tracking(expectedRxSources, cycleCommittedRx, cycleFirstCommitAt, cycleWakeFired, wakeCallback)
    }

    ghost predicate Valid()
      reads this
    {
      Inv(State())
    }

    constructor (deadlineSec: real, backstopSec: real)
      ensures Valid() && State() == Start(deadlineSec, backstopSec)
      ensures batches == [] && expectedRxSources == {} && !wakeCallback && !stopped && wakes == multiset{}
    {
      this.deadlineSec, this.backstopSec := deadlineSec, backstopSec;
      batches, bandsBySource, unproducible, expectedRxSources := [], map[], map[], {};
      cycleCommittedRx, cycleFirstCommitAt, cycleWakeFired := map[], map[], {};
      wakeCallback, stopped, ready, crossRxFires, delivered, wakes := false, false, [], {}, [], multiset{};
    }

    method SetWakeCallback(present: bool)
      requires Valid()
      modifies this
      ensures Valid() && State() == Step(old(State()), CallbackE(present))
    {
      wakeCallback := present;
    }

    method SetBandsBySource(config: map<string, map<string, seq<int>>>)
      requires Valid()
      modifies this
      ensures Valid() && State() == Step(old(State()), BandsE(config))
    {
      bandsBySource := config;
    }

    method SetBandProducible(rx: string, band: string, producible: bool)
      requires Valid()
      modifies this
      ensures Valid() && State() == Step(old(State()), ProducibleE(rx, band, producible))
    {
      var skipped := if rx in unproducible then unproducible[rx] else {};
      if producible {
        skipped := skipped - {band};
      } else {
        skipped := skipped + {band};
      }
      unproducible := unproducible[rx := skipped];
    }

    method SetExpectedRxSources(sources: set<string>)
      requires Valid()
      modifies this
      ensures Valid() && State() == Step(old(State()), ReceiversE(sources))
    {
      expectedRxSources := sources;
      cycleCommittedRx, cycleFirstCommitAt, cycleWakeFired := map[], map[], {};
    }

    /** The bands that should report for this cycle. */
    method ExpectedBandsForCycle(k: Key) returns (expected: set<string>)
      ensures expected == ExpectedBands(State(), k)
    {
      expected := {};
      if k.rx in bandsBySource {
        var bands := bandsBySource[k.rx];
        var skipped := if k.rx in unproducible then unproducible[k.rx] else {};
        var left := bands.Keys;
        while left != {}
          invariant left <= bands.Keys
          invariant expected == set b | b in bands && b !in left && b !in skipped && Divides(bands[b], k.cycle)
        {
          var band :| band in left;
          left := left - {band};
          var finishes := AnyPeriodDivides(bands[band], k.cycle);
          if band !in skipped && finishes {
            expected := expected + {band};
          }
        }
      }
    }

    static method AnyPeriodDivides(periods: seq<int>, cycle: int) returns (found: bool)
      ensures found == Divides(periods, cycle)
    {
      var i := 0;
      while i < |periods|
        invariant i <= |periods|
        invariant forall j :: 0 <= j < i ==> !(periods[j] > 0 && cycle % periods[j] == 0)
      {
        if periods[i] > 0 && cycle % periods[i] == 0 {
          assert periods[i] in periods;
          return true;
        }
        i := i + 1;
      }
      return false;
    }

    method ExpectBand(k: Key, band: string, radiod: string, now: real)
      requires Valid()
      modifies this
      ensures Valid() && State() == Step(old(State()), ExpectE(k, band, radiod, now))
    {
      hide Inv, Index, ExpectedBands;
      StepKeepsInv(State(), ExpectE(k, band, radiod, now));
      var i := Index(batches, k);
      if i == |batches| {
        var pre := ExpectedBandsForCycle(k);
        batches := batches + [Opened(k, now + backstopSec, radiod, pre + {band})];
      } else {
        batches := batches[i := batches[i].(expected := batches[i].expected + {band})];
      }
    }

    method MarkDone(k: Key, band: string) returns (known: bool)
      requires Valid()
      modifies this
      ensures Valid() && State() == Step(old(State()), DoneE(k, band))
      ensures known == IsOpen(old(State()), k)
    {
      hide Inv, Index;
      StepKeepsInv(State(), DoneE(k, band));
      var i := Index(batches, k);
      if i == |batches| {
        return false;
      }
      batches := batches[i := batches[i].(completed := batches[i].completed + {band})];
      return true;
    }

    method Add(k: Key, band: string, spots: seq<RawSpot>, radiod: string, now: real)
      requires Valid()
      modifies this
      ensures Valid() && State() == Step(old(State()), AddE(k, band, spots, radiod, now))
    {
      hide Inv, Index, Extend;
      StepKeepsInv(State(), AddE(k, band, spots, radiod, now));
      if spots == [] {
        return;
      }
      var i := Index(batches, k);
      if i == |batches| {
        batches := batches + [Opened(k, now + deadlineSec, radiod, {}).(bands := Extend([], band, spots))];
      } else {
        batches := batches[i := batches[i].(bands := Extend(batches[i].bands, band, spots))];
      }
    }

    method AddNoise(k: Key, band: string, level: real, radiod: string, now: real)
      requires Valid()
      modifies this
      ensures Valid() && State() == Step(old(State()), NoiseE(k, band, level, radiod, now))
    {
      hide Inv, Index;
      StepKeepsInv(State(), NoiseE(k, band, level, radiod, now));
      var i := Index(batches, k);
      if i == |batches| {
        batches := batches + [Opened(k, now + deadlineSec, radiod, {}).(noise := map[band := level])];
      } else {
        batches := batches[i := batches[i].(noise := batches[i].noise[band := level])];
      }
    }

    /**
     * One look at the shared maps under the lock.  When something is taken the writer
     * goes on to flush it; otherwise it sleeps, and never past the earliest pending
     * instant by more than the shortest wait.
     */
    method WriterPass(now: real) returns (sleep: Option<real>)
      requires Valid() && Enabled(State(), PassE(now))
      modifies this
      ensures Valid() && State() == Step(old(State()), PassE(now))
      ensures sleep.None? <==> ready != [] || crossRxFires != {}
      ensures sleep.Some? ==>
        exists t :: Earliest(t, Pending(batches, Track(), backstopSec)) && sleep.value == WaitFor(t, now)
      ensures sleep.Some? ==> SleepsUntilDue(sleep.value, now, Pending(batches, Track(), backstopSec))
    {
      hide Tracked, Distinct, Kept, Ready, Overdue, Expire, Earliest, Pending, SleepsUntilDue;
      StepKeepsInv(State(), PassE(now));
      var waitUntil := TakeDue(now);
      waitUntil := TakeOverdue(now, waitUntil);
      if ready == [] && crossRxFires == {} {
        sleep := Some(WaitFor(waitUntil, now));
        WaitEndsWhenDue(waitUntil, now, Pending(batches, Track(), backstopSec));
      } else {
        sleep := None;
      }
    }

    /** Move the complete and the expired batches out of the map. */
    method TakeDue(now: real) returns (waitUntil: Option<real>)
      requires ready == []
      modifies this
      ensures State() == old(State()).(batches := Kept(old(batches), now), ready := Ready(old(batches), now))
      ensures Earliest(waitUntil, Deadlines(batches))
    {
      hide Deadlines;
      var all, kept, taken, i := batches, [], [], 0;
      waitUntil := None;
      assert Deadlines([]) == {} by { NoDeadlines(); }
      while i < |all|
        invariant i <= |all|
        invariant kept + Kept(all[i..], now) == Kept(all, now)
        invariant taken + Ready(all[i..], now) == Ready(all, now)
        invariant Earliest(waitUntil, Deadlines(kept))
        invariant State() == old(State()) && all == batches
      {
        assert all[i..][1..] == all[i + 1..];
        var b := all[i];
        if b.Complete() || now >= b.deadline {
          assert taken + ([b] + Ready(all[i + 1..], now)) == taken + [b] + Ready(all[i + 1..], now);
          taken := taken + [b];
        } else {
          assert kept + ([b] + Kept(all[i + 1..], now)) == kept + [b] + Kept(all[i + 1..], now);
          DeadlinesSnoc(kept, b);
          kept := kept + [b];
          waitUntil := Min(waitUntil, b.deadline);
        }
        i := i + 1;
      }
      assert kept + [] == kept && taken + [] == taken;
      batches, ready := kept, taken;
    }

    /** The cycles whose first commit is a backstop old; the others bound the sleep. */
    method FindOverdue(now: real, before: Option<real>) returns (fires: set<int>, waitUntil: Option<real>)
      requires Tracked(Track()) && Earliest(before, Deadlines(batches))
      ensures fires == Overdue(Track(), backstopSec, now)
      ensures Earliest(waitUntil, Pending(batches, Expire(Track(), fires), backstopSec))
    {
      hide Deadlines, Backstops;
      waitUntil := before;
      fires := {};
      if expectedRxSources != {} {
        var left: set<int> := cycleFirstCommitAt.Keys;
        ghost var waiting: set<int> := {};
        NoBackstops(cycleFirstCommitAt, backstopSec);
        while left != {}
          invariant left <= cycleFirstCommitAt.Keys
          invariant fires == set c | c in Overdue(Track(), backstopSec, now) && c !in left
          invariant waiting == cycleFirstCommitAt.Keys - left - fires
          invariant Earliest(waitUntil, Deadlines(batches) + Backstops(cycleFirstCommitAt, waiting, backstopSec))
        {
          Inhabited(left);
          var c: int :| c in left;
          left := left - {c};
          if c !in cycleWakeFired {
            var firstAt := cycleFirstCommitAt[c];
            if now >= firstAt + backstopSec {
              fires := fires + {c};
            } else {
              BackstopsAdd(cycleFirstCommitAt, waiting, c, backstopSec);
              waiting := waiting + {c};
              waitUntil := Min(waitUntil, firstAt + backstopSec);
            }
          }
        }
        BackstopsWithin(cycleFirstCommitAt, fires, backstopSec);
        assert waiting == cycleFirstCommitAt.Keys - fires;
      } else {
        assert Deadlines(batches) + {} == Deadlines(batches);
      }
    }

    /** Mark those cycles as woken and stop tracking them. */
    method TakeOverdue(now: real, before: Option<real>) returns (waitUntil: Option<real>)
      requires Tracked(Track()) && Earliest(before, Deadlines(batches))
      modifies this
      ensures State() == Expired(old(State()), Overdue(old(Track()), backstopSec, now))
      ensures Earliest(waitUntil, Pending(batches, Track(), backstopSec))
    {
      hide Overdue, Pending;
      var fires;
      fires, waitUntil := FindOverdue(now, before);
      cycleWakeFired := cycleWakeFired + fires;
      cycleFirstCommitAt := cycleFirstCommitAt - fires;
      cycleCommittedRx := cycleCommittedRx - fires;
      crossRxFires := fires;
      assert State() == Expired(old(State()), fires);
    }

    /** Hand one taken batch to the sink, which reports how many rows it wrote. */
    method FlushNext(rows: nat, at: real)
      requires Valid() && ready != [] && rows <= SpotCount(ready[0].bands)
      modifies this
      ensures Valid() && State() == Step(old(State()), FlushE(old(ready[0]), rows, at))
    {
      hide Inv, Commit, Wakes;
      StepKeepsInv(State(), FlushE(ready[0], rows, at));
      var batch := ready[0];
      ready := ready[1..];
      delivered := delivered + [batch];
      if rows > 0 {
        var shouldFire := OnPerRxCommitted(batch.key, at);
        if shouldFire {
          wakes := wakes + multiset{batch.key.cycle};
        }
      }
    }

    /** Decide whether this flush wakes the uploader. */
    method OnPerRxCommitted(k: Key, at: real) returns (shouldFire: bool)
      modifies this`cycleCommittedRx, this`cycleFirstCommitAt, this`cycleWakeFired
      ensures Track() == Commit(old(Track()), k, at)
      ensures shouldFire == Wakes(old(Track()), k)
      ensures !wakeCallback ==> !shouldFire
      ensures wakeCallback && expectedRxSources == {} ==> shouldFire
      ensures wakeCallback && expectedRxSources != {} ==>
        (shouldFire <==> k.cycle !in old(cycleWakeFired) && forall rx <- expectedRxSources ::
           rx == k.rx || (k.cycle in old(cycleCommittedRx) && rx in old(cycleCommittedRx)[k.cycle]))
    {
      var c := k.cycle;
      if !wakeCallback {
        return false;
      }
      if expectedRxSources == {} {
        return true;
      }
      if c in cycleWakeFired {
        return false;
      }
      var committed := (if c in cycleCommittedRx then cycleCommittedRx[c] else {}) + {k.rx};
      ghost var committedRx, first := cycleCommittedRx - {c}, cycleFirstCommitAt - {c};
      cycleCommittedRx := cycleCommittedRx[c := committed];
      if c !in cycleFirstCommitAt {
        cycleFirstCommitAt := cycleFirstCommitAt[c := at];
      }
      shouldFire := expectedRxSources <= committed;
      if shouldFire {
        cycleWakeFired := cycleWakeFired + {c};
        cycleCommittedRx := cycleCommittedRx - {c};
        cycleFirstCommitAt := cycleFirstCommitAt - {c};
        assert cycleCommittedRx == committedRx && cycleFirstCommitAt == first;
      }
    }

    /** A backstop wake, after the flushes of the same pass. */
    method FireBackstop(c: int)
      requires Valid() && ready == [] && c in crossRxFires
      modifies this
      ensures Valid() && State() == Step(old(State()), WakeE(c))
    {
      crossRxFires := crossRxFires - {c};
      if wakeCallback {
        wakes := wakes + multiset{c};
      }
    }

    /** stop(), once the writer has been joined: what is left is taken out to be flushed. */
    method Stop()
      requires Valid() && ready == [] && crossRxFires == {}
      modifies this
      ensures Valid() && State() == Step(old(State()), StopE)
    {
      stopped := true;
      ready := batches;
      batches := [];
    }
  }

  lemma Inhabited(cycles: set<int>)
    ensures cycles == {} || exists c: int :: c in cycles
  {
    if forall c: int :: c !in cycles {
      assert cycles == {};
    }
  }

  lemma NoDeadlines()
    ensures Deadlines([]) == {}
  {
  }

  lemma NoBackstops(first: map<int, real>, backstop: real)
    ensures Backstops(first, {}, backstop) == {}
  {
  }

  lemma BackstopsWithin(first: map<int, real>, gone: set<int>, backstop: real)
    ensures Backstops(first - gone, (first - gone).Keys, backstop) == Backstops(first, first.Keys - gone, backstop)
  {
  }
}
