/**
 * The decode-health ledger (wspr_recorder/decode_health.py) as a function of the
 * decode outcomes it is told about.
 */
module HealthModel {
  import opened Rounding

  const OK_HEARTBEAT_S: real := 3600.0

  datatype Status = OK | LATE | BEHIND | CAUGHT_UP | KILLED | DROPPED

  /** A stored event; `late` is in tenths of a second and `utc` in whole seconds. */
  datatype Event = Event(status: Status, band: string, late: int, utc: int)

  /** One call of the ledger: a decode that finished, one killed by its timeout, a cycle never decoded. */
  datatype Outcome =
    | Decoded(band: string, late: real, now: real)
    | Killed(band: string, late: real, now: real)
    | Dropped(band: string, late: real, now: real)

  /** A band's run of consecutive late decodes. */
  datatype Streak = Streak(count: nat, first: real, max: real, reported: bool)

  const FRESH: Streak := Streak(0, 0.0, 0.0, false)

  datatype Rule = Rule(lateS: real, sustain: int, enabled: bool) {
    /** Zero would divide by zero when the reminder is due. */
    predicate Valid() { sustain != 0 }
  }

  datatype Ledger = Ledger(
    streaks: map<string, Streak>,
    counts: map<Status, nat>,
    lastOkStored: map<string, real>,
    log: seq<Event>)

  const EMPTY: Ledger := Ledger(map[], map[], map[], [])

  /** Seconds from "audio complete" to "decode started". */
  function Lateness(cycleStart: real, period: int, decodeStart: real): (late: real)
    ensures late >= 0.0
    ensures decodeStart > cycleStart + period as real ==> cycleStart + period as real + late == decodeStart
    ensures decodeStart <= cycleStart + period as real ==> late == 0.0
  {
    var late := decodeStart - (cycleStart + period as real);
    if late > 0.0 then late else 0.0
  }

  /** `round(x, 1)`, in tenths. */
  function Tenths(x: real): (tenths: int)
    ensures NearestEven(10.0 * x, tenths)
  {
    RoundHalfEven(x * 10.0)
  }

  function StreakOf(l: Ledger, band: string): Streak { if band in l.streaks then l.streaks[band] else FRESH }

  function Max(x: real, y: real): (m: real)
    ensures m >= x && m >= y && (m == x || m == y)
  {
    if x < y then y else x
  }

  // ----------------------------------------------------------- the rule

  /** The streak with one more late decode, before the report is decided. */
  function Lengthened(s: Streak, late: real): Streak
  {
    if s.count == 0 then Streak(1, late, Max(0.0, late), s.reported)
    else Streak(s.count + 1, s.first, Max(s.max, late), s.reported)
  }

  /** Long enough, and no progress since the run began. */
  predicate Stuck(r: Rule, s: Streak, late: real) { s.count >= r.sustain && late >= s.first }

  function NextStreak(r: Rule, s: Streak, late: real): Streak
  {
    if late < r.lateS then if s.count == 0 then s else FRESH
    else
      var s' := Lengthened(s, late);
      if Stuck(r, s', late) then s'.(reported := true) else s'
  }

  function NextStatus(r: Rule, s: Streak, late: real): Status
    requires r.Valid()
  {
    if late < r.lateS then if s.count == 0 then OK else CAUGHT_UP
    else
      var s' := Lengthened(s, late);
      if Stuck(r, s', late) && (!s'.reported || s'.count % r.sustain == 0) then BEHIND else LATE
  }

  // --------------------------------------------------------- the ledger

  function Bump(counts: map<Status, nat>, st: Status): map<Status, nat>
  {
    counts[st := (if st in counts then counts[st] else 0) + 1]
  }

  /** A healthy decode is stored at most once an hour per band. */
  predicate Heartbeat(l: Ledger, band: string, now: real)
  {
    now - (if band in l.lastOkStored then l.lastOkStored[band] else 0.0) >= OK_HEARTBEAT_S
  }

  function Store(r: Rule, l: Ledger, e: Event, now: real): Ledger
  {
    if !r.enabled then l
    else
      var l' := l.(counts := Bump(l.counts, e.status));
      if e.status == OK then
        if Heartbeat(l, e.band, now)
        then l'.(lastOkStored := l.lastOkStored[e.band := now], log := l.log + [e])
        else l'
      else l'.(log := l.log + [e])
  }

  function EventOf(r: Rule, l: Ledger, o: Outcome): Event
    requires r.Valid()
  {
    var st :=
      match o
      case Decoded(band, late, _) => NextStatus(r, StreakOf(l, band), late)
      case Killed(_, _, _) => KILLED
      case Dropped(_, _, _) => DROPPED;
    Event(st, o.band, Tenths(o.late), o.now.Floor)
  }

  function Record(r: Rule, l: Ledger, o: Outcome): Ledger
    requires r.Valid()
  {
    var e := EventOf(r, l, o);
    var l' := if o.Decoded? then l.(streaks := l.streaks[o.band := NextStreak(r, StreakOf(l, o.band), o.late)]) else l;
    Store(r, l', e, o.now)
  }

  function RecordAll(r: Rule, h: seq<Outcome>): Ledger
    requires r.Valid()
  {
    if h == [] then EMPTY else Record(r, RecordAll(r, h[..|h| - 1]), h[|h| - 1])
  }

  // ------------------------------------------- the meaning: trailing late runs

  /** How late the decodes of this band's current unbroken late run were; kills and drops do not break it. */
  function RunOf(r: Rule, h: seq<Outcome>, band: string): seq<real>
  {
    if h == [] then []
    else
      var run, o := RunOf(r, h[..|h| - 1], band), h[|h| - 1];
      if o.Decoded? && o.band == band then if o.late < r.lateS then [] else run + [o.late]
      else run
  }

  /** Some decode of the run, the `sustain`-th or later, was no less late than the first. */
  ghost predicate Sustained(r: Rule, run: seq<real>)
  {
    exists k :: 0 <= k < |run| && NoProgress(r, run, k)
  }

  ghost predicate NoProgress(r: Rule, run: seq<real>, k: nat)
    requires k < |run|
  {
    k + 1 >= r.sustain && run[k] >= run[0]
  }

  /** The largest lateness of the run. */
  ghost predicate IsWorst(run: seq<real>, worst: real)
  {
    worst in run && forall x <- run :: x <= worst
  }

  /** The streak is what the run says. */
  ghost predicate Describes(r: Rule, s: Streak, run: seq<real>)
  {
    && s.count == |run|
    && (run != [] ==> s.first == run[0] && IsWorst(run, s.max))
    && (s.reported <==> Sustained(r, run))
  }

  lemma NothingSustained(r: Rule)
    ensures !Sustained(r, [])
  {
  }

  lemma SustainedSnoc(r: Rule, run: seq<real>, late: real)
    ensures Sustained(r, run + [late]) <==>
      Sustained(r, run) || (|run| + 1 >= r.sustain && late >= (run + [late])[0])
  {
    var run' := run + [late];
    if Sustained(r, run) {
      var k :| 0 <= k < |run| && NoProgress(r, run, k);
      assert NoProgress(r, run', k);
    }
    if |run| + 1 >= r.sustain && late >= run'[0] {
      assert NoProgress(r, run', |run|);
    }
    if Sustained(r, run') {
      var k :| 0 <= k < |run'| && NoProgress(r, run', k);
      if k < |run| { assert NoProgress(r, run, k); }
    }
  }

  lemma LengthenedDescribes(r: Rule, s: Streak, run: seq<real>, late: real)
    requires Describes(r, s, run) && r.lateS <= late && 0.0 <= late
    ensures Describes(r, NextStreak(r, s, late), run + [late])
  {
    hide Sustained;
    SustainedSnoc(r, run, late);
    if run == [] {
      NothingSustained(r);
      assert run + [late] == [late];
    } else {
      var run' := run + [late];
      assert run'[0] == run[0] && run'[|run|] == late;
      assert forall x :: x in run' <==> x in run || x == late;
    }
  }

  /** Lateness is never negative. */
  predicate Plausible(h: seq<Outcome>) { forall o <- h :: o.late >= 0.0 }

  /** The live state of a band is exactly its trailing late run. */
  lemma {:induction false} StreakIsRun(r: Rule, h: seq<Outcome>, band: string)
    requires r.Valid() && Plausible(h)
    ensures Describes(r, StreakOf(RecordAll(r, h), band), RunOf(r, h, band))
    decreases |h|
  {
    NothingSustained(r);
    if h != [] {
      var init, o := h[..|h| - 1], h[|h| - 1];
      assert o in h && forall x <- init :: x in h;
      StreakIsRun(r, init, band);
      if o.Decoded? && o.band == band && r.lateS <= o.late {
        LengthenedDescribes(r, StreakOf(RecordAll(r, init), band), RunOf(r, init, band), o.late);
      }
    }
  }

  // -------------------------------------------------------- what is reported

  /** The status a decode gets, from the history of outcomes alone. */
  ghost function RuleStatus(r: Rule, h: seq<Outcome>, band: string, late: real): Status
    requires r.Valid()
  {
    var run := RunOf(r, h, band);
    var run' := run + [late];
    if late < r.lateS then if run == [] then OK else CAUGHT_UP
    else if NoProgress(r, run', |run|) && (!Sustained(r, run) || |run'| % r.sustain == 0) then BEHIND
    else LATE
  }

  /**
   * Every decode gets the status the rule gives to the band's history, and its own band
   * alone.  In particular BEHIND is recorded only at the end of `sustain` or more
   * consecutive late decodes, the current one no less late than the run's first; the
   * first time that holds it is always recorded; CAUGHT_UP exactly when a run ends.
   */
  lemma StatusFollowsRule(r: Rule, h: seq<Outcome>, o: Outcome)
    requires r.Valid() && Plausible(h + [o]) && o.Decoded?
    ensures EventOf(r, RecordAll(r, h), o).status == RuleStatus(r, h, o.band, o.late)
  {
    hide Sustained;
    assert forall x <- h :: x in h + [o];
    StreakIsRun(r, h, o.band);
    var run := RunOf(r, h, o.band);
    assert run != [] ==> (run + [o.late])[0] == run[0];
  }

  /** BEHIND closes at least `sustain` late decodes in a row, all of this band, with no kill or drop counted. */
  lemma BehindIsSustained(r: Rule, h: seq<Outcome>, o: Outcome)
    requires r.Valid() && Plausible(h + [o]) && o.Decoded?
    requires EventOf(r, RecordAll(r, h), o).status == BEHIND
    ensures var run := RunOf(r, h + [o], o.band);
      && |run| >= r.sustain && |run| >= 1
      && (forall x <- run :: x >= r.lateS)
      && run[|run| - 1] == o.late >= run[0]
  {
    StatusFollowsRule(r, h, o);
    assert (h + [o])[..|h|] == h;
    RunIsLate(r, h + [o], o.band);
  }

  lemma {:induction false} RunIsLate(r: Rule, h: seq<Outcome>, band: string)
    ensures forall x <- RunOf(r, h, band) :: x >= r.lateS
    decreases |h|
  {
    if h != [] {
      RunIsLate(r, h[..|h| - 1], band);
    }
  }

  ghost predicate Draining(run: seq<real>) { forall k :: 0 < k < |run| ==> run[k] < run[0] }

  /**
   * A run whose later decodes are all less late than its first is never reported,
   * however long it lasts, unless a single late decode already counts as sustained.
   */
  lemma DrainingNeverReports(r: Rule, h: seq<Outcome>, band: string)
    requires r.Valid() && Plausible(h)
    requires Draining(RunOf(r, h, band))
    ensures StreakOf(RecordAll(r, h), band).reported <==> RunOf(r, h, band) != [] && r.sustain <= 1
  {
    StreakIsRun(r, h, band);
    var run := RunOf(r, h, band);
    assert forall k :: 0 < k < |run| ==> !NoProgress(r, run, k);
    assert run != [] ==> (NoProgress(r, run, 0) <==> r.sustain <= 1);
  }

  /** With a sustain count of one, a first decode two minutes late is BEHIND at once. */
  lemma OneLateDecodeIsBehind(band: string)
    ensures var r := Rule(60.0, 1, true);
      r.Valid() && EventOf(r, RecordAll(r, []), Decoded(band, 120.0, 0.0)).status == BEHIND
  {
  }

  /** On-time decodes that end a late run of this band. */
  ghost function RunEnds(r: Rule, h: seq<Outcome>, band: string): nat
  {
    if h == [] then 0
    else
      var init, o := h[..|h| - 1], h[|h| - 1];
      RunEnds(r, init, band) +
      if o.Decoded? && o.band == band && o.late < r.lateS && RunOf(r, init, band) != [] then 1 else 0
  }

  function CountIn(log: seq<Event>, band: string, st: Status): nat
  {
    if log == [] then 0
    else
      var e := log[|log| - 1];
      CountIn(log[..|log| - 1], band, st) + if e.band == band && e.status == st then 1 else 0
  }

  lemma CountSnoc(log: seq<Event>, e: Event, band: string, st: Status)
    ensures CountIn(log + [e], band, st) == CountIn(log, band, st) + if e.band == band && e.status == st then 1 else 0
  {
    assert (log + [e])[..|log|] == log;
  }

  lemma RecordCounts(r: Rule, l: Ledger, o: Outcome, band: string)
    requires r.Valid() && r.enabled
    ensures CountIn(Record(r, l, o).log, band, CAUGHT_UP) == CountIn(l.log, band, CAUGHT_UP) +
      if o.band == band && EventOf(r, l, o).status == CAUGHT_UP then 1 else 0
  {
    hide NextStatus, NextStreak, Tenths, CountIn, Heartbeat, Bump;
    CountSnoc(l.log, EventOf(r, l, o), band, CAUGHT_UP);
  }

  /** The log holds exactly one CAUGHT_UP for every late run that has ended. */
  lemma {:induction false} OneCaughtUpPerRun(r: Rule, h: seq<Outcome>, band: string)
    requires r.Valid() && r.enabled && Plausible(h)
    ensures CountIn(RecordAll(r, h).log, band, CAUGHT_UP) == RunEnds(r, h, band)
    decreases |h|
  {
    hide NextStatus, Record, CountIn, Sustained;
    if h == [] {
      assert CountIn([], band, CAUGHT_UP) == 0 by { NothingCounted(band); }
    } else {
      var init, o := h[..|h| - 1], h[|h| - 1];
      assert init + [o] == h;
      assert forall x <- init :: x in h;
      OneCaughtUpPerRun(r, init, band);
      RecordCounts(r, RecordAll(r, init), o, band);
      if o.Decoded? {
        StatusFollowsRule(r, init, o);
      }
    }
  }

  lemma NothingCounted(band: string)
    ensures CountIn([], band, CAUGHT_UP) == 0
  {
  }

  // ------------------------------------------------- what is counted and kept

  /** Outcomes of the history that were given this status. */
  ghost function Given(r: Rule, h: seq<Outcome>, st: Status): nat
    requires r.Valid()
  {
    if h == [] then 0
    else
      var init, o := h[..|h| - 1], h[|h| - 1];
      Given(r, init, st) + if EventOf(r, RecordAll(r, init), o).status == st then 1 else 0
  }

  function CountOf(counts: map<Status, nat>, st: Status): nat { if st in counts then counts[st] else 0 }

  /** Every outcome is counted under its status, the healthy ones that are not stored included. */
  lemma {:induction false} EverythingIsCounted(r: Rule, h: seq<Outcome>, st: Status)
    requires r.Valid() && r.enabled
    ensures CountOf(RecordAll(r, h).counts, st) == Given(r, h, st)
    decreases |h|
  {
    hide NextStatus, NextStreak, Tenths;
    if h != [] {
      EverythingIsCounted(r, h[..|h| - 1], st);
    }
  }

  /** The times at which a healthy decode of this band was stored. */
  ghost function OkStoredAt(r: Rule, h: seq<Outcome>, band: string): seq<real>
    requires r.Valid()
  {
    if h == [] then []
    else
      var init, o := h[..|h| - 1], h[|h| - 1];
      var e := EventOf(r, RecordAll(r, init), o);
      OkStoredAt(r, init, band) +
      if e.status == OK && e.band == band && RecordAll(r, h).log != RecordAll(r, init).log then [o.now] else []
  }

  ghost predicate HourApart(ts: seq<real>)
  {
    forall i :: 0 < i < |ts| ==> ts[i] - ts[i - 1] >= OK_HEARTBEAT_S
  }

  lemma HourApartSnoc(ts: seq<real>, t: real)
    requires HourApart(ts) && (ts != [] ==> t - ts[|ts| - 1] >= OK_HEARTBEAT_S)
    ensures HourApart(ts + [t])
  {
  }

  /** Events are stamped with the band, the second they were made in, and the lateness to the tenth. */
  lemma EventsAreStamped(r: Rule, l: Ledger, o: Outcome)
    requires r.Valid()
    ensures var e := EventOf(r, l, o);
      && e.band == o.band && e.utc as real <= o.now < e.utc as real + 1.0 && NearestEven(10.0 * o.late, e.late)
      && (o.Killed? ==> e.status == KILLED) && (o.Dropped? ==> e.status == DROPPED)
      && (o.Decoded? ==> e.status in {OK, LATE, BEHIND, CAUGHT_UP})
      && (o.Decoded? ==> (o.late < r.lateS <==> e.status in {OK, CAUGHT_UP}))
  {
    hide Tenths;
  }

  /**
   * A healthy decode is stored exactly when an hour has passed since the band's last one
   * that was (since the epoch, for the first); every other event always is.
   */
  lemma StoredExactly(r: Rule, h: seq<Outcome>, o: Outcome)
    requires r.Valid() && r.enabled
    ensures var l, e, ts := RecordAll(r, h), EventOf(r, RecordAll(r, h), o), OkStoredAt(r, h, o.band);
      RecordAll(r, h + [o]).log ==
        if e.status != OK || o.now - (if ts == [] then 0.0 else ts[|ts| - 1]) >= 3600.0 then l.log + [e] else l.log
  {
    hide NextStatus, NextStreak, Tenths, HourApart;
    HealthyAtMostHourly(r, h, o.band);
    assert (h + [o])[..|h|] == h;
  }

  /** Healthy decodes of one band are stored at least an hour apart; a first one is remembered exactly. */
  lemma {:induction false} HealthyAtMostHourly(r: Rule, h: seq<Outcome>, band: string)
    requires r.Valid() && r.enabled
    ensures HourApart(OkStoredAt(r, h, band))
    ensures var ts, l := OkStoredAt(r, h, band), RecordAll(r, h);
      (band in l.lastOkStored <==> ts != []) && (ts != [] ==> l.lastOkStored[band] == ts[|ts| - 1])
    decreases |h|
  {
    hide NextStatus, NextStreak, Tenths, HourApart;
    if h == [] {
      assert HourApart([]) by { NothingApart(); }
    } else {
      var init, o := h[..|h| - 1], h[|h| - 1];
      HealthyAtMostHourly(r, init, band);
      var ts, l := OkStoredAt(r, init, band), RecordAll(r, init);
      assert l.log + [EventOf(r, l, o)] != l.log;
      assert ts + [] == ts;
      if EventOf(r, l, o).status == OK && o.band == band && Heartbeat(l, band, o.now) {
        HourApartSnoc(ts, o.now);
      }
    }
  }

  lemma NothingApart()
    ensures HourApart([])
  {
  }
}
