/** When a batch leaves, and what had been reported by then. */
module BatcherCompletion {
  import opened BatcherModel
  import opened Slots

  /** The batch with this key stays open throughout. */
  ghost predicate StaysOpen(s: State, es: seq<Event>, k: Key)
    decreases |es|
  {
    IsOpen(s, k) && (es == [] || (Enabled(s, es[0]) && StaysOpen(Step(s, es[0]), es[1..], k)))
  }

  /** Bands announced, and bands reported done, for this key during these events. */
  ghost function AnnouncedIn(es: seq<Event>, k: Key): set<string>
  {
    if es == [] then {} else (if es[0].ExpectE? && es[0].k == k then {es[0].band} else {}) + AnnouncedIn(es[1..], k)
  }

  ghost function DoneIn(es: seq<Event>, k: Key): set<string>
  {
    if es == [] then {} else (if es[0].DoneE? && es[0].k == k then {es[0].band} else {}) + DoneIn(es[1..], k)
  }

  /** The last noise reading of each band for this key during these events. */
  ghost function NoiseIn(es: seq<Event>, k: Key): map<string, real>
  {
    if es == [] then map[]
    else (if es[0].NoiseE? && es[0].k == k then map[es[0].band := es[0].level] else map[]) + NoiseIn(es[1..], k)
  }

  /** The spots of one band handed over for this key during these events, in order. */
  ghost function SpotsIn(es: seq<Event>, k: Key, band: string): seq<RawSpot>
  {
    if es == [] then []
    else (if es[0].AddE? && es[0].k == k && es[0].band == band then es[0].spots else []) + SpotsIn(es[1..], k, band)
  }

  /** Each band's spots are followed by those handed over meanwhile. */
  ghost predicate SpotsGrow(before: seq<BandSpots>, after: seq<BandSpots>, es: seq<Event>, k: Key)
  {
    forall band: string :: SpotsAt(after, band) == SpotsAt(before, band) + SpotsIn(es, k, band)
  }

  lemma SpotsGrowNext(a: seq<BandSpots>, b: seq<BandSpots>, c: seq<BandSpots>, e: Event, rest: seq<Event>, k: Key)
    requires SpotsGrow(a, b, [e], k) && SpotsGrow(b, c, rest, k)
    ensures SpotsGrow(a, c, [e] + rest, k)
  {
    var es := [e] + rest;
    assert es[0] == e && es[1..] == rest && [e][1..] == [];
    forall band: string ensures SpotsAt(c, band) == SpotsAt(a, band) + SpotsIn(es, k, band) {
      assert SpotsIn([e], k, band) + SpotsIn(rest, k, band) == SpotsIn(es, k, band);
      assert SpotsAt(b, band) == SpotsAt(a, band) + SpotsIn([e], k, band);
    }
  }

  lemma SpotsStay(bands: seq<BandSpots>, e: Event, k: Key)
    requires e.AddE? ==> e.k != k || e.spots == []
    ensures SpotsGrow(bands, bands, [e], k)
  {
    assert [e][1..] == [];
    forall band: string ensures SpotsAt(bands, band) == SpotsAt(bands, band) + SpotsIn([e], k, band) {
      assert SpotsIn([e], k, band) == [];
    }
  }

  lemma SpotsExtend(bands: seq<BandSpots>, e: Event, k: Key)
    requires e.AddE? && e.k == k
    ensures SpotsGrow(bands, Extend(bands, e.band, e.spots), [e], k)
  {
    assert [e][1..] == [];
    forall band: string
      ensures SpotsAt(Extend(bands, e.band, e.spots), band) == SpotsAt(bands, band) + SpotsIn([e], k, band)
    {
      ExtendAt(bands, e.band, e.spots, band);
      assert SpotsIn([e], k, band) == if band == e.band then e.spots else [];
    }
  }

  lemma NoSpotsMore(bands: seq<BandSpots>, k: Key)
    ensures SpotsGrow(bands, bands, [], k)
  {
  }

  lemma FoundIs(s: State, b: Batch)
    requires Inv(s) && b in s.batches
    ensures IsOpen(s, b.key) && Found(s, b.key) == b
  {
  }

  /** Storing one batch leaves every other as it was. */
  lemma StoreFound(s: State, s': State, b: Batch, k: Key)
    requires Inv(s) && Inv(s') && s'.batches == Store(s.batches, b) && IsOpen(s', k)
    ensures k == b.key ==> Found(s', k) == b
    ensures k != b.key ==> IsOpen(s, k) && Found(s', k) == Found(s, k)
  {
    hide Inv, Store, Index;
    assert Distinct(s.batches) && Distinct(s'.batches) by { assert Inv(s) && Inv(s'); DistinctOf(s); DistinctOf(s'); }
    StoreFacts(s.batches, b);
    FoundIn(s', k);
    if k == b.key { FoundIs(s', b); } else { FoundIs(s, Found(s', k)); }
  }

  lemma DistinctOf(s: State)
    requires Inv(s)
    ensures Distinct(s.batches)
  {
  }

  lemma FoundIn(s: State, k: Key)
    requires IsOpen(s, k)
    ensures Found(s, k) in s.batches && Found(s, k).key == k
  {
  }

  /** From b to b' the batch kept its deadline and took in what these events said about it. */
  ghost predicate Grown(b: Batch, b': Batch, es: seq<Event>, k: Key)
  {
    && b'.deadline == b.deadline && b'.radiod == b.radiod
    && SpotsGrow(b.bands, b'.bands, es, k)
    && b'.expected == b.expected + AnnouncedIn(es, k)
    && b'.completed == b.completed + DoneIn(es, k)
    && b'.noise == b.noise + NoiseIn(es, k)
  }

  lemma GrownNext(b: Batch, b1: Batch, b2: Batch, e: Event, rest: seq<Event>, es: seq<Event>, k: Key)
    requires Grown(b, b1, [e], k) && Grown(b1, b2, rest, k) && es == [e] + rest
    ensures Grown(b, b2, es, k)
  {
    hide SpotsGrow;
    MoreEvents(e, rest, k);
    SpotsGrowNext(b.bands, b1.bands, b2.bands, e, rest, k);
    hide AnnouncedIn, DoneIn, NoiseIn;
    Joined(b.expected, AnnouncedIn([e], k), AnnouncedIn(rest, k));
    Joined(b.completed, DoneIn([e], k), DoneIn(rest, k));
  }

  lemma Joined(a: set<string>, b: set<string>, c: set<string>)
    ensures a + b + c == a + (b + c)
  {
  }

  lemma MoreEvents(e: Event, rest: seq<Event>, k: Key)
    ensures AnnouncedIn([e] + rest, k) == AnnouncedIn([e], k) + AnnouncedIn(rest, k)
    ensures DoneIn([e] + rest, k) == DoneIn([e], k) + DoneIn(rest, k)
    ensures NoiseIn([e] + rest, k) == NoiseIn([e], k) + NoiseIn(rest, k)
  {
    OneEvent(e, k);
    var es := [e] + rest;
    assert es[0] == e && es[1..] == rest;
  }

  lemma OneEvent(e: Event, k: Key)
    ensures AnnouncedIn([e], k) == if e.ExpectE? && e.k == k then {e.band} else {}
    ensures DoneIn([e], k) == if e.DoneE? && e.k == k then {e.band} else {}
    ensures NoiseIn([e], k) == if e.NoiseE? && e.k == k then map[e.band := e.level] else map[]
  {
    assert [e][1..] == [];
  }

  lemma GrownByNothing(b: Batch, k: Key)
    ensures Grown(b, b, [], k)
  {
    NoSpotsMore(b.bands, k);
    hide SpotsGrow;
  }

  /** A batch that stays open keeps its deadline and grows only by what is said about it. */
  lemma StepWhileOpen(s: State, e: Event, k: Key)
    requires Inv(s) && Enabled(s, e) && IsOpen(s, k) && IsOpen(Step(s, e), k)
    ensures Grown(Found(s, k), Found(Step(s, e), k), [e], k)
  {
    hide Inv, Store, Index, IsOpen, Found, ExpectedBands, Extend, Kept, Ready, Flush, Overdue, Expire, SpotsGrow;
    StepKeepsInv(s, e);
    OneEvent(e, k);
    if e.AddE? && e.k == k && e.spots != [] {
      SpotsExtend(Found(s, k).bands, e, k);
    } else {
      SpotsStay(Found(s, k).bands, e, k);
    }
    match e
    case ExpectE(k', band, radiod, now) =>
      var b := Current(s, Opened(k', now + s.backstopSec, radiod, ExpectedBands(s, k')));
      CurrentFacts(s, Opened(k', now + s.backstopSec, radiod, ExpectedBands(s, k')));
      StoreFound(s, Step(s, e), b.(expected := b.expected + {band}), k);
    case DoneE(k', band) =>
      if IsOpen(s, k') {
        var b := Found(s, k');
        FoundIn(s, k');
        StoreFound(s, Step(s, e), b.(completed := b.completed + {band}), k);
      } else {
        assert k' != k;
      }
    case AddE(k', band, spots, radiod, now) =>
      if spots != [] {
        var b := Current(s, Opened(k', now + s.deadlineSec, radiod, {}));
        CurrentFacts(s, Opened(k', now + s.deadlineSec, radiod, {}));
        StoreFound(s, Step(s, e), b.(bands := Extend(b.bands, band, spots)), k);
      }
    case NoiseE(k', band, level, radiod, now) =>
      var b := Current(s, Opened(k', now + s.deadlineSec, radiod, {}));
      CurrentFacts(s, Opened(k', now + s.deadlineSec, radiod, {}));
      StoreFound(s, Step(s, e), b.(noise := b.noise[band := level]), k);
    case PassE(now) =>
      KeptFacts(s.batches, now);
      FoundIn(Step(s, e), k);
      FoundIs(s, Found(Step(s, e), k));
    case FlushE(_, rows, at) =>
      FlushFound(s, rows, at, k);
    case StopE => NothingOpen(Step(s, e), k);
    case _ => SameBatches(s, Step(s, e), k);
  }

  lemma CurrentFacts(s: State, otherwise: Batch)
    ensures var b := Current(s, otherwise);
      && b.key == otherwise.key
      && (if IsOpen(s, otherwise.key) then b == Found(s, otherwise.key) else b == otherwise)
  {
  }

  lemma SameBatches(s: State, s': State, k: Key)
    requires s.batches == s'.batches
    ensures IsOpen(s, k) == IsOpen(s', k)
    ensures IsOpen(s, k) ==> Found(s, k) == Found(s', k)
  {
  }

  lemma FlushFound(s: State, rows: nat, at: real, k: Key)
    requires s.ready != []
    ensures IsOpen(s, k) == IsOpen(Flush(s, rows, at), k)
    ensures IsOpen(s, k) ==> Found(s, k) == Found(Flush(s, rows, at), k)
  {
    assert Flush(s, rows, at).batches == s.batches;
  }

  lemma NothingOpen(s: State, k: Key)
    requires s.batches == []
    ensures !IsOpen(s, k)
  {
  }

  lemma {:induction false} RunWhileOpen(s: State, es: seq<Event>, k: Key)
    requires Inv(s) && StaysOpen(s, es, k)
    ensures Runs(s, es) && Inv(Run(s, es)) && IsOpen(Run(s, es), k)
    ensures Grown(Found(s, k), Found(Run(s, es), k), es, k)
    decreases |es|
  {
    hide Inv, Found, IsOpen, Step, Grown, SpotsGrow;
    if es == [] {
      GrownByNothing(Found(s, k), k);
    } else {
      StepKeepsInv(s, es[0]);
      var s1 := Step(s, es[0]);
      StepWhileOpen(s, es[0], k);
      RunWhileOpen(s1, es[1..], k);
      GrownNext(Found(s, k), Found(s1, k), Found(Run(s, es), k), es[0], es[1..], es, k);
    }
  }

  /** Opening a batch: only expect_band pre-registers bands, and the deadline is set by who opened it. */
  lemma OpeningBatch(s: State, e: Event, k: Key)
    requires Inv(s) && Enabled(s, e) && !IsOpen(s, k) && IsOpen(Step(s, e), k)
    ensures var b := Found(Step(s, e), k);
      && b.deadline == OpeningDeadline(s, e) && b.radiod == OpeningRadiod(e)
      && SpotsGrow([], b.bands, [e], k)
      && b.expected == Preregistered(s, e) + AnnouncedIn([e], k)
      && b.completed == {}
      && b.noise == NoiseIn([e], k)
  {
    hide Inv, Store, Index, IsOpen, Found, ExpectedBands, Extend, Kept, Ready, Flush, Overdue, Expire, SpotsGrow;
    StepKeepsInv(s, e);
    OneEvent(e, k);
    if e.AddE? && e.k == k && e.spots != [] {
      SpotsExtend([], e, k);
    } else {
      SpotsStay([], e, k);
    }
    match e
    case ExpectE(k', band, radiod, now) =>
      var b := Current(s, Opened(k', now + s.backstopSec, radiod, ExpectedBands(s, k')));
      CurrentFacts(s, Opened(k', now + s.backstopSec, radiod, ExpectedBands(s, k')));
      StoreFound(s, Step(s, e), b.(expected := b.expected + {band}), k);
    case DoneE(k', band) =>
      if IsOpen(s, k') {
        var b := Found(s, k');
        FoundIn(s, k');
        StoreFound(s, Step(s, e), b.(completed := b.completed + {band}), k);
      }
    case AddE(k', band, spots, radiod, now) =>
      if spots != [] {
        var b := Current(s, Opened(k', now + s.deadlineSec, radiod, {}));
        CurrentFacts(s, Opened(k', now + s.deadlineSec, radiod, {}));
        StoreFound(s, Step(s, e), b.(bands := Extend(b.bands, band, spots)), k);
      }
    case NoiseE(k', band, level, radiod, now) =>
      var b := Current(s, Opened(k', now + s.deadlineSec, radiod, {}));
      CurrentFacts(s, Opened(k', now + s.deadlineSec, radiod, {}));
      StoreFound(s, Step(s, e), b.(noise := b.noise[band := level]), k);
    case PassE(now) =>
      KeptFacts(s.batches, now);
      FoundIn(Step(s, e), k);
      FoundIs(s, Found(Step(s, e), k));
    case FlushE(_, rows, at) => FlushFound(s, rows, at, k);
    case StopE => NothingOpen(Step(s, e), k);
    case _ => SameBatches(s, Step(s, e), k);
  }

  ghost function Preregistered(s: State, e: Event): set<string>
  {
    if e.ExpectE? then ExpectedBands(s, e.k) else {}
  }

  ghost function OpeningDeadline(s: State, e: Event): real
  {
    match e
    case ExpectE(_, _, _, now) => now + s.backstopSec
    case AddE(_, _, _, _, now) => now + s.deadlineSec
    case NoiseE(_, _, _, _, now) => now + s.deadlineSec
    case _ => 0.0
  }

  ghost function OpeningRadiod(e: Event): string
  {
    match e
    case ExpectE(_, _, radiod, _) => radiod
    case AddE(_, _, _, radiod, _) => radiod
    case NoiseE(_, _, _, radiod, _) => radiod
    case _ => ""
  }

  /** Bands this batch waits for: the pre-registered ones and every one announced since it was opened. */
  ghost function Awaited(s0: State, opener: Event, es: seq<Event>, k: Key): set<string>
  {
    Preregistered(s0, opener) + AnnouncedIn([opener], k) + AnnouncedIn(es, k)
  }

  /**
   * What the batch holds when it leaves: all it awaited, all reported, the last noise
   * reading of each band, and every band's spots in the order they came.
   */
  ghost predicate Gathered(b: Batch, s0: State, opener: Event, es: seq<Event>, k: Key)
  {
    && b.key == k && b.radiod == OpeningRadiod(opener)
    && (forall band: string :: SpotsAt(b.bands, band) == SpotsIn([opener] + es, k, band))
    && b.expected == Awaited(s0, opener, es, k)
    && b.completed == DoneIn(es, k)
    && b.noise == NoiseIn([opener], k) + NoiseIn(es, k)
  }

  /**
   * From the moment a batch is opened, whatever the interleaving: a writer pass takes it
   * if and only if every awaited band has reported done since it was opened (and there
   * is at least one), or its deadline has passed.  A batch taken before its deadline
   * is therefore complete.
   */
  lemma TakenExactlyWhenDue(s0: State, opener: Event, es: seq<Event>, now: real, k: Key)
    requires Inv(s0) && !IsOpen(s0, k) && Enabled(s0, opener)
    requires Runs(Step(s0, opener), es) && StaysOpen(Step(s0, opener), es, k)
    requires Enabled(Run(Step(s0, opener), es), PassE(now))
    ensures var s := Step(Run(Step(s0, opener), es), PassE(now));
      var awaited := Awaited(s0, opener, es, k);
      && (!IsOpen(s, k) <==> (awaited != {} && awaited <= DoneIn(es, k)) || now >= OpeningDeadline(s0, opener))
      && (!IsOpen(s, k) ==> exists b <- s.ready :: Gathered(b, s0, opener, es, k))
  {
    hide Inv, Found, Kept, Ready, Index, Step, IsOpen, OpeningDeadline, Pass, SpotsGrow;
    var s1 := Step(s0, opener);
    StepKeepsInv(s0, opener);
    OpeningBatch(s0, opener, k);
    RunWhileOpen(s1, es, k);
    var s2 := Run(s1, es);
    PassTakes(s2, now, k);
    FoundIn(s2, k);
    PassStep(s2, now);
    var b := Found(s2, k);
    assert b.expected == Awaited(s0, opener, es, k) && b.completed == DoneIn(es, k);
    assert b.deadline == OpeningDeadline(s0, opener);
    AllSpots(Found(s1, k).bands, b.bands, opener, es, k);
  }

  lemma AllSpots(first: seq<BandSpots>, bands: seq<BandSpots>, opener: Event, es: seq<Event>, k: Key)
    requires SpotsGrow([], first, [opener], k) && SpotsGrow(first, bands, es, k)
    ensures forall band: string :: SpotsAt(bands, band) == SpotsIn([opener] + es, k, band)
  {
    SpotsGrowNext([], first, bands, opener, es, k);
    forall band: string ensures SpotsAt(bands, band) == SpotsIn([opener] + es, k, band) {
      assert SpotsAt([], band) + SpotsIn([opener] + es, k, band) == SpotsIn([opener] + es, k, band);
    }
  }

  lemma PassStep(s: State, now: real)
    requires Enabled(s, PassE(now))
    ensures Step(s, PassE(now)) == Pass(s, now)
  {
  }

  lemma PassTakes(s: State, now: real, k: Key)
    requires Inv(s) && IsOpen(s, k)
    ensures !IsOpen(Pass(s, now), k) <==> Found(s, k).Due(now)
    ensures Found(s, k).Due(now) ==> Found(s, k) in Pass(s, now).ready
  {
    hide Kept, Ready;
    var b, s' := Found(s, k), Pass(s, now);
    KeptFacts(s.batches, now);
    FoundIn(s, k);
    if b.Due(now) {
      if IsOpen(s', k) {
        FoundIn(s', k);
        FoundIs(s, Found(s', k));
      }
    } else {
      ExpireKeepsTracked(s.track, Overdue(s.track, s.backstopSec, now));
      FoundIs(s', b);
    }
  }

  /** A walk of one period's harvest cursor over the slots from `seed` up to `next`. */
  datatype Walk = Walk(decisions: seq<Decision>, seed: int, next: int)

  ghost predicate IsWalk(w: Walk, p: int)
  {
    0 < p && w.seed % p == 0 && Walks(w.decisions, w.seed, p, w.next)
  }

  ghost predicate Visits(w: Walk, cycle: int)
  {
    exists d <- w.decisions :: d.start == cycle
  }

  /**
   * The pre-registered bands are exactly the producible ones for which the harvest cursor
   * of some configured period decides a slot starting at this cycle.
   */
  lemma PreregisteredAreVisited(s: State, k: Key, band: string, walks: map<int, Walk>)
    requires k.rx in s.config.bySource && band in s.config.bySource[k.rx]
    requires forall p <- s.config.bySource[k.rx][band] ::
      p in walks && IsWalk(walks[p], p) && walks[p].seed <= k.cycle < walks[p].next
    ensures band in ExpectedBands(s, k) <==>
      && !(k.rx in s.config.unproducible && band in s.config.unproducible[k.rx])
      && exists p <- s.config.bySource[k.rx][band] :: Visits(walks[p], k.cycle)
  {
    forall p | p in s.config.bySource[k.rx][band] ensures Visits(walks[p], k.cycle) <==> k.cycle % p == 0 {
      var w := walks[p];
      WalksOverMultiples(w.decisions, w.seed, p, w.next);
      if k.cycle % p == 0 {
        var i := DecidedExactlyOnce(w.decisions, w.seed, p, w.next, k.cycle);
        assert w.decisions[i] in w.decisions;
      }
    }
  }
}

/**
 * The cross-receiver wake: once per cycle, when the last expected receiver has committed
 * or the backstop has passed.
 */
module BatcherWakes {
  import opened BatcherModel

  /** A flush of this cycle that wrote rows. */
  predicate Commits(e: Event, c: int) { e.FlushE? && e.rows > 0 && e.batch.key.cycle == c }

  /** Receivers that have committed this cycle during these events. */
  ghost function Committed(h: seq<Event>, c: int): set<string>
  {
    set i | 0 <= i < |h| && Commits(h[i], c) :: h[i].batch.key.rx
  }

  ghost predicate FirstCommit(h: seq<Event>, i: int, c: int)
  {
    0 <= i < |h| && Commits(h[i], c) && forall j :: 0 <= j < i ==> !Commits(h[j], c)
  }

  /** Some pass came a backstop or more after the cycle's first commit. */
  ghost predicate Expired(h: seq<Event>, c: int, backstop: real)
  {
    exists i, j :: FirstCommit(h, i, c) && PassedAfter(h, i, j, backstop)
  }

  ghost predicate PassedAfter(h: seq<Event>, i: int, j: int, backstop: real)
  {
    0 <= i < j < |h| && h[i].FlushE? && h[j].PassE? && h[j].now >= h[i].at + backstop
  }

  /** The configuration stays as it is. */
  predicate Settled(e: Event) { !e.ReceiversE? && !e.CallbackE? }

  /** The wakes scheduled or about to be for a cycle. */
  ghost function WakesDue(s: State, c: int): nat { s.wakes[c] + if c in s.fires then 1 else 0 }

  ghost predicate FirstAt(h: seq<Event>, c: int, at: real)
  {
    exists i :: FirstCommit(h, i, c) && CommitsAt(h, i, at)
  }

  ghost predicate CommitsAt(h: seq<Event>, i: int, at: real) { 0 <= i < |h| && h[i].FlushE? && h[i].at == at }

  /** What the commit-tracking fields mean after the events `h`, `base` wakes having been due before them. */
  ghost predicate Follows(h: seq<Event>, s: State, c: int, base: nat)
  {
    && (c in s.track.fired <==> s.track.expectedRx <= Committed(h, c) || Expired(h, c, s.backstopSec))
    && (c !in s.track.fired && c !in s.track.committed ==> Committed(h, c) == {})
    && (c !in s.track.fired && c in s.track.committed ==>
         && s.track.committed[c] == Committed(h, c)
         && c in s.track.firstCommitAt && FirstAt(h, c, s.track.firstCommitAt[c]))
    && WakesDue(s, c) == base + if c in s.track.fired then 1 else 0
  }

  lemma CommittedSnoc(h: seq<Event>, e: Event, c: int)
    ensures Committed(h + [e], c) == Committed(h, c) + if Commits(e, c) then {e.batch.key.rx} else {}
  {
    var h' := h + [e];
    assert h'[|h|] == e;
    assert forall i :: 0 <= i < |h| ==> h'[i] == h[i];
    forall r | r in Committed(h, c) ensures r in Committed(h', c) {
      var i :| 0 <= i < |h| && Commits(h[i], c) && h[i].batch.key.rx == r;
      assert Commits(h'[i], c);
    }
  }

  lemma FirstCommitSnoc(h: seq<Event>, e: Event, i: int, c: int)
    ensures i < |h| ==> (FirstCommit(h + [e], i, c) <==> FirstCommit(h, i, c))
    ensures FirstCommit(h + [e], |h|, c) <==> Commits(e, c) && Committed(h, c) == {}
  {
    var h' := h + [e];
    assert h'[|h|] == e;
    assert forall j :: 0 <= j < |h| ==> h'[j] == h[j];
    if Committed(h, c) == {} {
      assert forall j :: 0 <= j < |h| && Commits(h[j], c) ==> h[j].batch.key.rx in Committed(h, c);
    } else {
      var r :| r in Committed(h, c);
    }
  }

  lemma ExpiredSnoc(h: seq<Event>, e: Event, c: int, backstop: real)
    ensures Expired(h + [e], c, backstop) <==>
      Expired(h, c, backstop) || (e.PassE? && exists i :: Overran(h, e, i, c, backstop))
  {
    hide FirstCommit;
    var h' := h + [e];
    if Expired(h', c, backstop) {
      var i, j :| FirstCommit(h', i, c) && PassedAfter(h', i, j, backstop);
      FirstCommitSnoc(h, e, i, c);
      if j < |h| { assert PassedAfter(h, i, j, backstop); } else { assert Overran(h, e, i, c, backstop); }
    }
    if Expired(h, c, backstop) {
      var i, j :| FirstCommit(h, i, c) && PassedAfter(h, i, j, backstop);
      FirstCommitSnoc(h, e, i, c);
      assert PassedAfter(h', i, j, backstop);
    }
    if e.PassE? && exists i :: Overran(h, e, i, c, backstop) {
      var i :| Overran(h, e, i, c, backstop);
      FirstCommitSnoc(h, e, i, c);
      assert FirstCommit(h', i, c) by { hide *; }
      assert PassedAfter(h', i, |h|, backstop);
    }
  }

  ghost predicate Overran(h: seq<Event>, e: Event, i: int, c: int, backstop: real)
  {
    0 <= i < |h| && FirstCommit(h, i, c) && h[i].FlushE? && e.PassE? && e.now >= h[i].at + backstop
  }

  /** The first commit keeps its time, and the first event that commits the cycle sets it. */
  lemma FirstAtSnoc(h: seq<Event>, e: Event, c: int, at: real)
    ensures FirstAt(h, c, at) ==> FirstAt(h + [e], c, at)
    ensures Commits(e, c) && Committed(h, c) == {} && e.at == at ==> FirstAt(h + [e], c, at)
  {
    hide FirstCommit, Committed;
    if FirstAt(h, c, at) {
      var i :| FirstCommit(h, i, c) && CommitsAt(h, i, at);
      FirstCommitSnoc(h, e, i, c);
      assert CommitsAt(h + [e], i, at);
    }
    if Commits(e, c) && Committed(h, c) == {} && e.at == at {
      FirstCommitSnoc(h, e, |h|, c);
      assert CommitsAt(h + [e], |h|, at);
    }
  }

  lemma FirstUnique(h: seq<Event>, i: int, j: int, c: int)
    requires FirstCommit(h, i, c) && FirstCommit(h, j, c)
    ensures i == j
  {
  }

  /** With the first commit at `at`, a pass overruns exactly when it comes a backstop later. */
  lemma OverrunsWhen(h: seq<Event>, e: Event, c: int, at: real, backstop: real)
    requires e.PassE? && FirstAt(h, c, at)
    ensures (exists i :: Overran(h, e, i, c, backstop)) <==> e.now >= at + backstop
  {
    hide FirstCommit;
    var i :| FirstCommit(h, i, c) && CommitsAt(h, i, at);
    if e.now >= at + backstop {
      assert Overran(h, e, i, c, backstop);
    }
    if j :| Overran(h, e, j, c, backstop) {
      FirstUnique(h, i, j, c);
    }
  }

  lemma NeverOverruns(h: seq<Event>, e: Event, c: int, backstop: real)
    requires Committed(h, c) == {}
    ensures !exists i :: Overran(h, e, i, c, backstop)
  {
    assert forall j :: 0 <= j < |h| && Commits(h[j], c) ==> h[j].batch.key.rx in Committed(h, c);
  }

  lemma PassFollows(h: seq<Event>, s: State, now: real, c: int, base: nat)
    requires Inv(s) && Follows(h, s, c, base) && s.track.expectedRx != {} && s.track.callback && Enabled(s, PassE(now))
    ensures Follows(h + [PassE(now)], Pass(s, now), c, base)
  {
    hide Committed, Expired, FirstAt, Overran, Kept, Ready;
    var e := PassE(now);
    CommittedSnoc(h, e, c);
    ExpiredSnoc(h, e, c, s.backstopSec);
    if c !in s.track.fired {
      if c in s.track.committed {
        OverrunsWhen(h, e, c, s.track.firstCommitAt[c], s.backstopSec);
        FirstAtSnoc(h, e, c, s.track.firstCommitAt[c]);
      } else {
        NeverOverruns(h, e, c, s.backstopSec);
      }
    }
  }

  lemma FlushFollows(h: seq<Event>, s: State, e: Event, c: int, base: nat)
    requires Inv(s) && Follows(h, s, c, base) && s.track.expectedRx != {} && s.track.callback
    requires Enabled(s, e) && e.FlushE?
    ensures Follows(h + [e], Flush(s, e.rows, e.at), c, base)
  {
    hide Committed, Expired, FirstAt, Overran, FirstCommit;
    CommittedSnoc(h, e, c);
    ExpiredSnoc(h, e, c, s.backstopSec);
    if c in s.track.committed {
      FirstAtSnoc(h, e, c, s.track.firstCommitAt[c]);
    } else {
      FirstAtSnoc(h, e, c, e.at);
    }
  }

  lemma OtherFollows(h: seq<Event>, s: State, e: Event, c: int, base: nat)
    requires Inv(s) && Follows(h, s, c, base) && s.track.callback
    requires Enabled(s, e) && Settled(e) && !e.PassE? && !e.FlushE?
    ensures Follows(h + [e], Step(s, e), c, base)
  {
    hide Committed, Expired, FirstAt, Overran, ExpectBand, MarkDone, Add, AddNoise, Distinct;
    if e.ExpectE? || e.DoneE? || e.AddE? || e.NoiseE? {
      ProducerTouchesBatches(s, e);
    }
    CommittedSnoc(h, e, c);
    ExpiredSnoc(h, e, c, s.backstopSec);
    if c in s.track.firstCommitAt {
      FirstAtSnoc(h, e, c, s.track.firstCommitAt[c]);
    }
  }

  predicate SameSettings(s: State, s': State)
  {
    && s'.track.expectedRx == s.track.expectedRx
    && s'.track.callback == s.track.callback
    && s'.backstopSec == s.backstopSec
  }

  lemma StepSettled(s: State, e: Event)
    requires Enabled(s, e) && Settled(e)
    ensures SameSettings(s, Step(s, e))
  {
    hide Store, Extend, ExpectedBands, Kept, Ready, Overdue, WithCommit, Current, Found, IsOpen, SpotCount;
  }

  lemma {:induction false} RunFollows(h: seq<Event>, s: State, es: seq<Event>, c: int, base: nat)
    requires Inv(s) && Follows(h, s, c, base) && s.track.expectedRx != {} && s.track.callback
    requires Runs(s, es) && forall e <- es :: Settled(e)
    ensures Follows(h + es, Run(s, es), c, base)
    ensures var s' := Run(s, es); s'.track.expectedRx == s.track.expectedRx && s'.backstopSec == s.backstopSec
    decreases |es|
  {
    hide Follows, Inv, Settled;
    if es == [] {
      assert h + es == h;
    } else {
      var e := es[0];
      assert es == [e] + es[1..];
      StepKeepsInv(s, e);
      StepSettled(s, e);
      StepFollows(h, s, e, c, base);
      assert (h + [e]) + es[1..] == h + es;
      RunFollows(h + [e], Step(s, e), es[1..], c, base);
    }
  }

  lemma StepFollows(h: seq<Event>, s: State, e: Event, c: int, base: nat)
    requires Inv(s) && Follows(h, s, c, base) && s.track.expectedRx != {} && s.track.callback
    requires Enabled(s, e) && Settled(e)
    ensures Follows(h + [e], Step(s, e), c, base)
  {
    hide Follows, Inv, Flush, Pass;
    match e
    case PassE(now) => PassFollows(h, s, now, c, base);
    case FlushE(_, _, _) => FlushFollows(h, s, e, c, base);
    case _ => OtherFollows(h, s, e, c, base);
  }

  /** The batcher just after it was told which receivers to wait for. */
  function Reconfigured(s: State, rxs: set<string>): State { Step(s, ReceiversE(rxs)) }

  /**
   * From any state, once told a non-empty set of receivers to wait for and with a
   * callback registered, over any run: a cycle's next wake has been scheduled, or is
   * about to be by the writer, exactly when every one of those receivers has committed
   * rows for it since, or some pass came a backstop after its first commit since; and
   * never more than once, whatever was scheduled before.
   */
  lemma WakeExactlyOnce(s: State, rxs: set<string>, es: seq<Event>, c: int)
    requires Inv(s) && s.track.callback && rxs != {} && forall e <- es :: Settled(e)
    requires Runs(Reconfigured(s, rxs), es)
    ensures WakesDue(Run(Reconfigured(s, rxs), es), c) ==
      WakesDue(s, c) + if rxs <= Committed(es, c) || Expired(es, c, s.backstopSec) then 1 else 0
  {
    assert !Expired([], c, s.backstopSec);
    assert [] + es == es;
    StepKeepsInv(s, ReceiversE(rxs));
    RunFollows([], Reconfigured(s, rxs), es, c, WakesDue(s, c));
  }

  /** Flushes of this cycle that wrote rows. */
  function CommitCount(es: seq<Event>, c: int): nat
  {
    if es == [] then 0 else (if Commits(es[0], c) then 1 else 0) + CommitCount(es[1..], c)
  }

  /**
   * With no receivers to wait for, which is how a batcher starts, and a callback
   * registered, every flush that writes rows wakes the uploader; and without a callback
   * nothing does.
   */
  lemma {:induction false} WakePerFlush(s: State, es: seq<Event>, c: int)
    requires s.track.expectedRx == {} && Runs(s, es) && forall e <- es :: Settled(e)
    ensures s.track.callback ==> WakesDue(Run(s, es), c) == WakesDue(s, c) + CommitCount(es, c)
    ensures !s.track.callback ==> Run(s, es).wakes[c] == s.wakes[c]
    decreases |es|
  {
    hide Step, Settled;
    if es != [] {
      var e := es[0];
      assert es == [e] + es[1..];
      StepSettled(s, e);
      StepWakesPerFlush(s, e, c);
      WakePerFlush(Step(s, e), es[1..], c);
    }
  }

  lemma StepWakesPerFlush(s: State, e: Event, c: int)
    requires s.track.expectedRx == {} && Enabled(s, e) && Settled(e)
    ensures s.track.callback ==> WakesDue(Step(s, e), c) == WakesDue(s, c) + if Commits(e, c) then 1 else 0
    ensures !s.track.callback ==> Step(s, e).wakes[c] == s.wakes[c]
  {
    hide Store, Extend, ExpectedBands, Kept, Ready, Found, Current, SpotCount;
  }

  /** At most one wake beyond `base`, and none before the cycle has fired. */
  ghost predicate AtMostOnce(s: State, c: int, base: nat)
  {
    s.track.expectedRx != {} && WakesDue(s, c) <= base + if c in s.track.fired then 1 else 0
  }

  lemma StepKeepsAtMostOnce(s: State, e: Event, c: int, base: nat)
    requires Inv(s) && AtMostOnce(s, c, base) && Enabled(s, e) && !e.ReceiversE?
    ensures AtMostOnce(Step(s, e), c, base)
  {
    hide Store, Extend, ExpectedBands, Kept, Ready, Found, Current, SpotCount;
  }

  lemma {:induction false} RunKeepsAtMostOnce(s: State, es: seq<Event>, c: int, base: nat)
    requires Inv(s) && AtMostOnce(s, c, base) && Runs(s, es) && forall e <- es :: !e.ReceiversE?
    ensures AtMostOnce(Run(s, es), c, base)
    decreases |es|
  {
    hide Inv, Step, AtMostOnce;
    if es != [] {
      assert es == [es[0]] + es[1..];
      StepKeepsInv(s, es[0]);
      StepKeepsAtMostOnce(s, es[0], c, base);
      RunKeepsAtMostOnce(Step(s, es[0]), es[1..], c, base);
    }
  }

  /**
   * Between two calls that set the expected receivers, and whatever happens to the
   * callback meanwhile, a cycle is woken at most once, beside the backstop wake the
   * writer may have been about to make for it at the first call.
   */
  lemma NeverWokenTwice(s: State, rxs: set<string>, es: seq<Event>, c: int)
    requires Inv(s) && rxs != {} && forall e <- es :: !e.ReceiversE?
    requires Runs(Reconfigured(s, rxs), es)
    ensures Run(Reconfigured(s, rxs), es).wakes[c] <= s.wakes[c] + 1 + if c in s.fires then 1 else 0
  {
    StepKeepsInv(s, ReceiversE(rxs));
    RunKeepsAtMostOnce(Reconfigured(s, rxs), es, c, WakesDue(s, c));
  }

  /** That one does come on top: the writer was about to wake the cycle, and the new set's only receiver commits it. */
  lemma PendingWakeComesOnTop(s: State, at: real)
    requires Inv(s) && s.track.callback && |s.ready| == 1
    requires s.ready[0].key.cycle in s.fires && 0 < SpotCount(s.ready[0].bands)
    ensures var b := s.ready[0];
      var s', es := Reconfigured(s, {b.key.rx}), [FlushE(b, 1, at), WakeE(b.key.cycle)];
      && Runs(s', es)
      && Run(s', es).wakes[b.key.cycle] == s.wakes[b.key.cycle] + 2
  {
    hide SpotCount;
    var b := s.ready[0];
    var s' := Reconfigured(s, {b.key.rx});
    var flush, wake := FlushE(b, 1, at), WakeE(b.key.cycle);
    assert WithCommit(s'.track, b.key) == {b.key.rx};
    assert s'.ready[1..] == [] && [flush, wake][1..] == [wake] && [wake][1..] == [];
    var s1 := Step(s', flush);
    assert s1.wakes == s.wakes + multiset{b.key.cycle} && s1.fires == s.fires && s1.track.callback;
    var s2 := Step(s1, wake);
    assert s2.wakes == s1.wakes + multiset{b.key.cycle};
    assert Runs(s2, []) && Run(s2, []) == s2;
    assert Runs(s1, [wake]) && Run(s1, [wake]) == s2;
  }
}

/** How often a cycle's batch is flushed: once for every time it was opened. */
module BatcherReopening {
  import opened BatcherModel

  function CountKey(bs: seq<Batch>, k: Key): nat
  {
    if bs == [] then 0 else (if bs[0].key == k then 1 else 0) + CountKey(bs[1..], k)
  }

  /** A producer finds no batch under this key and opens one. */
  ghost predicate Opens(s: State, e: Event, k: Key)
    requires Enabled(s, e)
  {
    !IsOpen(s, k) && IsOpen(Step(s, e), k)
  }

  ghost function Openings(s: State, es: seq<Event>, k: Key): nat
    requires Runs(s, es)
    decreases |es|
  {
    if es == [] then 0 else (if Opens(s, es[0], k) then 1 else 0) + Openings(Step(s, es[0]), es[1..], k)
  }

  /** Batches of this key ever opened, wherever they are now. */
  ghost function Held(s: State, k: Key): nat
  {
    CountKey(s.batches, k) + CountKey(s.ready, k) + CountKey(s.delivered, k)
  }

  lemma {:induction false} CountAppend(a: seq<Batch>, b: seq<Batch>, k: Key)
    ensures CountKey(a + b, k) == CountKey(a, k) + CountKey(b, k)
    decreases |a|
  {
    if a == [] {
      assert a + b == b;
    } else {
      assert (a + b)[1..] == a[1..] + b;
      CountAppend(a[1..], b, k);
    }
  }

  lemma {:induction false} CountSplit(bs: seq<Batch>, now: real, k: Key)
    ensures CountKey(Ready(bs, now), k) + CountKey(Kept(bs, now), k) == CountKey(bs, k)
    decreases |bs|
  {
    if bs != [] {
      CountSplit(bs[1..], now, k);
    }
  }

  lemma CountOne(b: Batch, k: Key)
    ensures CountKey([b], k) == if b.key == k then 1 else 0
  {
    assert [b][1..] == [];
  }

  /** Storing adds one batch exactly when none was open under its key. */
  lemma CountReplaced(front: seq<Batch>, x: Batch, back: seq<Batch>, k: Key)
    ensures CountKey(front + [x] + back, k) == CountKey(front, k) + (if x.key == k then 1 else 0) + CountKey(back, k)
  {
    hide CountKey;
    CountAppend(front + [x], back, k);
    CountAppend(front, [x], k);
    CountOne(x, k);
  }

  lemma StoreCount(bs: seq<Batch>, b: Batch, k: Key)
    ensures CountKey(Store(bs, b), k) == CountKey(bs, k) + if b.key == k && Index(bs, k) == |bs| then 1 else 0
    ensures Index(Store(bs, b), k) < |Store(bs, b)| <==> Index(bs, k) < |bs| || b.key == k
  {
    StoreIndex(bs, b, k);
    hide CountKey, Index;
    var i := Index(bs, b.key);
    if i < |bs| {
      var front, back := bs[..i], bs[i + 1..];
      assert bs == front + [bs[i]] + back && Store(bs, b) == front + [b] + back;
      CountReplaced(front, bs[i], back, k);
      CountReplaced(front, b, back, k);
    } else {
      CountAppend(bs, [b], k);
      CountOne(b, k);
    }
  }

  lemma StoreIndex(bs: seq<Batch>, b: Batch, k: Key)
    ensures Index(Store(bs, b), k) < |Store(bs, b)| <==> Index(bs, k) < |bs| || b.key == k
  {
    var i, bs' := Index(bs, b.key), Store(bs, b);
    var at := if i < |bs| then i else |bs|;
    assert bs'[at] == b;
    if Index(bs, k) < |bs| && k != b.key {
      assert bs'[Index(bs, k)] == bs[Index(bs, k)];
    }
    if Index(bs', k) < |bs'| && Index(bs', k) != at {
      assert bs'[Index(bs', k)] == bs[Index(bs', k)];
    }
  }

  lemma ProducerHeld(s: State, e: Event, k: Key)
    requires e.ExpectE? || e.DoneE? || e.AddE? || e.NoiseE?
    ensures Held(Step(s, e), k) == Held(s, k) + if Opens(s, e, k) then 1 else 0
  {
    hide CountKey, Store, Index, ExpectedBands, Extend;
    var s' := Step(s, e);
    if s'.batches != s.batches {
      var b: Batch :| s'.batches == Store(s.batches, b);
      StoreCount(s.batches, b, k);
      assert Index(s.batches, k) <= |s.batches|;
    }
  }

  lemma StepHeld(s: State, e: Event, k: Key)
    requires Enabled(s, e)
    ensures Held(Step(s, e), k) == Held(s, k) + if Opens(s, e, k) then 1 else 0
  {
    hide CountKey, Commit, Wakes, Index, Kept, Ready, ExpectBand, MarkDone, Add, AddNoise, Overdue, Expire;
    match e
    case ExpectE(_, _, _, _) => ProducerHeld(s, e, k);
    case DoneE(_, _) => ProducerHeld(s, e, k);
    case AddE(_, _, _, _, _) => ProducerHeld(s, e, k);
    case NoiseE(_, _, _, _, _) => ProducerHeld(s, e, k);
    case PassE(now) =>
      CountSplit(s.batches, now, k);
      PassOpensNothing(s, now, k);
    case FlushE(b, rows, at) =>
      assert s.ready == [b] + s.ready[1..];
      CountAppend([b], s.ready[1..], k);
      CountAppend(s.delivered, [b], k);
    case StopE =>
    case _ =>
  }

  lemma PassOpensNothing(s: State, now: real, k: Key)
    requires s.ready == []
    ensures IsOpen(Pass(s, now), k) ==> IsOpen(s, k)
    ensures CountKey(s.ready, k) == 0
  {
    hide Kept, Ready;
    KeptFacts(s.batches, now);
    var kept := Kept(s.batches, now);
    if Index(kept, k) < |kept| {
      assert kept[Index(kept, k)] in s.batches;
    }
  }

  lemma {:induction false} RunHeld(s: State, es: seq<Event>, k: Key)
    requires Runs(s, es)
    ensures Held(Run(s, es), k) == Held(s, k) + Openings(s, es, k)
    decreases |es|
  {
    if es != [] {
      StepHeld(s, es[0], k);
      RunHeld(Step(s, es[0]), es[1..], k);
    }
  }

  /**
   * Once nothing is queued or taken, a cycle has been flushed as many times as its batch
   * was opened: exactly once if and only if no request came for it after it was taken.
   */
  lemma FlushedOncePerOpening(deadlineSec: real, backstopSec: real, es: seq<Event>, k: Key)
    requires Runs(Start(deadlineSec, backstopSec), es)
    requires var s := Run(Start(deadlineSec, backstopSec), es); s.batches == [] && s.ready == []
    ensures CountKey(Run(Start(deadlineSec, backstopSec), es).delivered, k) ==
      Openings(Start(deadlineSec, backstopSec), es, k)
  {
    RunHeld(Start(deadlineSec, backstopSec), es, k);
  }

  /** A band that asks again after its batch was taken makes the cycle flush twice. */
  lemma LateRequestFlushesAgain(k: Key, band: string) returns (es: seq<Event>)
    ensures Runs(Start(30.0, 180.0), es)
    ensures Run(Start(30.0, 180.0), es).batches == [] && Run(Start(30.0, 180.0), es).ready == []
    ensures CountKey(Run(Start(30.0, 180.0), es).delivered, k) == 2
  {
    var b := Batch(k, 180.0, "", [], map[], {band}, {band});
    var once := [ExpectE(k, band, "", 0.0), DoneE(k, band), PassE(1.0), FlushE(b, 0, 1.0)];
    var s := Start(30.0, 180.0);
    OneRound(s, k, band, b, once);
    var s' := Run(s, once);
    OneRound(s', k, band, b, once);
    es := once + once;
    RunJoins(s, once, once);
    CountAppend([b], [b], k);
    CountOne(b, k);
  }

  /** One request, decoded and flushed. */
  lemma OneRound(s: State, k: Key, band: string, b: Batch, once: seq<Event>)
    requires s.backstopSec == 180.0 && s.batches == [] && s.ready == [] && s.fires == {} && !s.stopped
    requires s.track.expectedRx == {} && s.config.bySource == map[]
    requires b == Batch(k, 180.0, "", [], map[], {band}, {band})
    requires once == [ExpectE(k, band, "", 0.0), DoneE(k, band), PassE(1.0), FlushE(b, 0, 1.0)]
    ensures Runs(s, once) && Run(s, once) == s.(delivered := s.delivered + [b])
  {
    hide ExpectBand, MarkDone, Pass, Flush;
    Announce(s, k, band, b);
    Report(s, k, band, b);
    TakeOut(s, b);
    HandOver(s, b);
    var s1, s2, s3 := s.(batches := [b.(completed := {})]), s.(batches := [b]), s.(ready := [b]);
    var s4 := s.(delivered := s.delivered + [b]);
    assert Step(s, once[0]) == s1 && Step(s1, once[1]) == s2 && Step(s2, once[2]) == s3 && Step(s3, once[3]) == s4;
    OneMore(s3, once[3], []);
    OneMore(s2, once[2], [once[3]]);
    OneMore(s1, once[1], [once[2], once[3]]);
    OneMore(s, once[0], [once[1], once[2], once[3]]);
    assert once == [once[0]] + [once[1], once[2], once[3]];
    assert [once[2], once[3]] == [once[2]] + [once[3]] && [once[3]] == [once[3]] + [];
    assert [once[1], once[2], once[3]] == [once[1]] + [once[2], once[3]];
  }

  lemma OneMore(s: State, e: Event, es: seq<Event>)
    requires Enabled(s, e) && Runs(Step(s, e), es)
    ensures Runs(s, [e] + es) && Run(s, [e] + es) == Run(Step(s, e), es)
  {
    assert ([e] + es)[1..] == es;
  }

  lemma HandOver(s: State, b: Batch)
    requires s.ready == []
    ensures Flush(s.(ready := [b]), 0, 1.0) == s.(delivered := s.delivered + [b])
  {
  }

  lemma TakeOut(s: State, b: Batch)
    requires s.track.expectedRx == {} && s.fires == {} && b.Complete() && s.batches == [] && s.ready == []
    ensures Pass(s.(batches := [b]), 1.0) == s.(ready := [b])
  {
    assert [b][1..] == [] && [b] + [] == [b];
    assert Ready([b], 1.0) == [b] && Kept([b], 1.0) == [];
    assert Expire(s.track, {}) == s.track by {
      assert s.track.firstCommitAt - {} == s.track.firstCommitAt && s.track.committed - {} == s.track.committed;
    }
  }

  lemma Announce(s: State, k: Key, band: string, b: Batch)
    requires s.backstopSec == 180.0 && s.batches == [] && s.config.bySource == map[]
    requires b == Batch(k, 180.0, "", [], map[], {band}, {band})
    ensures ExpectBand(s, k, band, "", 0.0) == s.(batches := [b.(completed := {})])
  {
    assert ExpectedBands(s, k) == {};
    assert {} + {band} == {band};
  }

  lemma Report(s: State, k: Key, band: string, b: Batch)
    requires b == Batch(k, 180.0, "", [], map[], {band}, {band})
    ensures MarkDone(s.(batches := [b.(completed := {})]), k, band) == s.(batches := [b])
  {
    assert {} + {band} == {band};
  }

  lemma {:induction false} RunJoins(s: State, a: seq<Event>, b: seq<Event>)
    requires Runs(s, a) && Runs(Run(s, a), b)
    ensures Runs(s, a + b) && Run(s, a + b) == Run(Run(s, a), b)
    decreases |a|
  {
    if a == [] {
      assert a + b == b;
    } else {
      assert (a + b)[1..] == a[1..] + b;
      RunJoins(Step(s, a[0]), a[1..], b);
    }
  }
}
