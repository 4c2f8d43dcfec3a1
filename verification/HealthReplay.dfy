/**
 * Rebuilding the open late runs from the event log (wspr_recorder/wspr_ctl.py), and
 * its agreement with the live ledger.
 */
module HealthReplay {
  import opened Rounding
  import opened HealthModel

  /** One row of "bands behind": how many late cycles, first and worst lateness in tenths of a second. */
  datatype Behind = Behind(lateCycles: nat, firstLate: int, worstLate: int)

  /** What the running recorder answers. */
  function BandsBehind(l: Ledger): map<string, Behind>
  {
    map b | b in l.streaks && l.streaks[b].reported ::
      Behind(l.streaks[b].count, Tenths(l.streaks[b].first), Tenths(l.streaks[b].max))
  }

  // ------------------------------------------------------ reading the log

  function BandEvents(log: seq<Event>, band: string): seq<Event>
  {
    if log == [] then []
    else
      var rest, e := BandEvents(log[..|log| - 1], band), log[|log| - 1];
      if e.band == band then rest + [e] else rest
  }

  /** Status of the last BEHIND or CAUGHT_UP, if any. */
  function LastEpisode(es: seq<Event>): Status
  {
    if es == [] then CAUGHT_UP
    else if es[|es| - 1].status in {BEHIND, CAUGHT_UP} then es[|es| - 1].status
    else LastEpisode(es[..|es| - 1])
  }

  /** Latenesses logged since the last CAUGHT_UP. */
  function OpenRun(es: seq<Event>): seq<int>
  {
    if es == [] then []
    else
      var run, e := OpenRun(es[..|es| - 1]), es[|es| - 1];
      if e.status == CAUGHT_UP then [] else if e.status in {LATE, BEHIND} then run + [e.late] else run
  }

  function MaxOf(run: seq<int>): int
    requires run != []
  {
    if |run| == 1 then run[0]
    else var m, x := MaxOf(run[..|run| - 1]), run[|run| - 1]; if m < x then x else m
  }

  function Row(run: seq<int>): Behind
  {
    if run == [] then Behind(0, 0, 0) else Behind(|run|, run[0], MaxOf(run))
  }

  function BandsOf(log: seq<Event>): set<string> { set e | e in log :: e.band }

  predicate ReplaysBehind(log: seq<Event>, band: string) { LastEpisode(BandEvents(log, band)) == BEHIND }

  /** What the log alone tells about the bands still behind. */
  function Replay(log: seq<Event>): map<string, Behind>
  {
    map b | b in BandsOf(log) && ReplaysBehind(log, b) :: Row(OpenRun(BandEvents(log, b)))
  }

  lemma EventsSnoc(log: seq<Event>, e: Event, band: string)
    ensures BandEvents(log + [e], band) == if e.band == band then BandEvents(log, band) + [e] else BandEvents(log, band)
  {
    assert (log + [e])[..|log|] == log;
  }

  lemma EpisodeSnoc(es: seq<Event>, e: Event)
    ensures LastEpisode(es + [e]) == if e.status in {BEHIND, CAUGHT_UP} then e.status else LastEpisode(es)
    ensures OpenRun(es + [e]) ==
      if e.status == CAUGHT_UP then [] else if e.status in {LATE, BEHIND} then OpenRun(es) + [e.late] else OpenRun(es)
  {
    assert (es + [e])[..|es|] == es;
  }

  lemma MaxSnoc(run: seq<int>, x: int)
    ensures MaxOf(run + [x]) == if run == [] then x else if MaxOf(run) < x then x else MaxOf(run)
  {
    assert (run + [x])[..|run|] == run;
  }

  /** The log of one band says what its streak says. */
  ghost predicate Mirrors(s: Streak, es: seq<Event>)
  {
    && |OpenRun(es)| == s.count
    && (s.count > 0 ==> OpenRun(es)[0] == Tenths(s.first) && MaxOf(OpenRun(es)) == Tenths(s.max))
    && (s.reported <==> LastEpisode(es) == BEHIND)
    && (s.reported ==> s.count > 0)
  }

  lemma LateMirrors(r: Rule, s: Streak, es: seq<Event>, late: real, utc: int, band: string)
    requires r.Valid() && Mirrors(s, es) && r.lateS <= late && 0.0 <= late
    ensures Mirrors(NextStreak(r, s, late), es + [Event(NextStatus(r, s, late), band, Tenths(late), utc)])
  {
    hide Tenths, MaxOf, OpenRun, LastEpisode;
    var e := Event(NextStatus(r, s, late), band, Tenths(late), utc);
    EpisodeSnoc(es, e);
    MaxSnoc(OpenRun(es), e.late);
  }

  lemma RecordMirrors(r: Rule, l: Ledger, o: Outcome, band: string)
    requires r.Valid() && r.enabled && o.late >= 0.0
    requires Mirrors(StreakOf(l, band), BandEvents(l.log, band))
    ensures Mirrors(StreakOf(Record(r, l, o), band), BandEvents(Record(r, l, o).log, band))
  {
    hide Tenths, MaxOf, OpenRun, LastEpisode, BandEvents, NextStreak, NextStatus;
    var e := EventOf(r, l, o);
    EventsSnoc(l.log, e, band);
    if o.band == band {
      var es := BandEvents(l.log, band);
      EpisodeSnoc(es, e);
      if o.Decoded? {
        if r.lateS <= o.late {
          LateMirrors(r, StreakOf(l, band), es, o.late, e.utc, band);
        } else {
          OnTimeMirrors(r, StreakOf(l, band), es, o.late, e);
        }
      }
    }
  }

  lemma OnTimeMirrors(r: Rule, s: Streak, es: seq<Event>, late: real, e: Event)
    requires r.Valid() && Mirrors(s, es) && late < r.lateS && e.status == NextStatus(r, s, late)
    ensures Mirrors(NextStreak(r, s, late), es + [e])
    ensures e.status == OK ==> Mirrors(NextStreak(r, s, late), es)
  {
    hide OpenRun, LastEpisode, MaxOf, Tenths;
    EpisodeSnoc(es, e);
  }

  lemma {:induction false} LogMirrorsLive(r: Rule, h: seq<Outcome>, band: string)
    requires r.Valid() && r.enabled && Plausible(h)
    ensures Mirrors(StreakOf(RecordAll(r, h), band), BandEvents(RecordAll(r, h).log, band))
    decreases |h|
  {
    hide Mirrors, Record;
    if h == [] {
      NothingMirrors();
    } else {
      var init, o := h[..|h| - 1], h[|h| - 1];
      assert o in h && forall x <- init :: x in h;
      LogMirrorsLive(r, init, band);
      RecordMirrors(r, RecordAll(r, init), o, band);
    }
  }

  lemma NothingMirrors()
    ensures Mirrors(FRESH, [])
  {
  }

  lemma {:induction false} BehindIsLogged(log: seq<Event>, band: string)
    requires BandEvents(log, band) != []
    ensures band in BandsOf(log)
    decreases |log|
  {
    var e := log[|log| - 1];
    assert e in log;
    if e.band != band {
      BehindIsLogged(log[..|log| - 1], band);
      var x :| x in log[..|log| - 1] && x.band == band;
      assert x in log;
    }
  }

  /**
   * For every sequence of decode outcomes, the log read offline finds exactly the bands
   * the running recorder reports behind, each with the same count, first and worst
   * lateness.
   */
  lemma ReplayAgreesWithLive(r: Rule, h: seq<Outcome>)
    requires r.Valid() && r.enabled && Plausible(h)
    ensures Replay(RecordAll(r, h).log) == BandsBehind(RecordAll(r, h))
  {
    hide Tenths, MaxOf, BandEvents, RecordAll;
    var l := RecordAll(r, h);
    forall b: string
      ensures b in Replay(l.log) <==> b in BandsBehind(l)
      ensures b in Replay(l.log) ==> Replay(l.log)[b] == BandsBehind(l)[b]
    {
      LogMirrorsLive(r, h, b);
      if ReplaysBehind(l.log, b) {
        BehindIsLogged(l.log, b);
      }
    }
  }

  /** The row of a band behind tells how long its trailing late run is, how late it began, and how late it got. */
  lemma RowDescribesRun(r: Rule, h: seq<Outcome>, band: string)
    requires r.Valid() && Plausible(h) && band in BandsBehind(RecordAll(r, h))
    ensures var row, run := BandsBehind(RecordAll(r, h))[band], RunOf(r, h, band);
      && run != [] && row.lateCycles == |run|
      && NearestEven(10.0 * run[0], row.firstLate)
      && exists worst :: IsWorst(run, worst) && NearestEven(10.0 * worst, row.worstLate)
  {
    hide Sustained, RunOf, RecordAll, Tenths, IsWorst;
    StreakIsRun(r, h, band);
    NothingSustained(r);
    assert IsWorst(RunOf(r, h, band), RecordAll(r, h).streaks[band].max);
  }

  /**
   * Switched off, the ledger keeps its streaks but logs nothing: replay and live answer
   * agree exactly while no band's trailing run of late decodes is sustained.
   */
  lemma DisabledLogsNothing(r: Rule, h: seq<Outcome>)
    requires r.Valid() && !r.enabled && Plausible(h)
    ensures RecordAll(r, h).log == [] && RecordAll(r, h).counts == map[]
    ensures Replay(RecordAll(r, h).log) == BandsBehind(RecordAll(r, h)) <==>
      forall band: string :: !Sustained(r, RunOf(r, h, band))
  {
    hide Sustained, RunOf, RecordAll;
    NothingIsLogged(r, h);
    AgreesUnlessReported(RecordAll(r, h));
    if forall band: string :: !StreakOf(RecordAll(r, h), band).reported {
      forall band: string ensures !Sustained(r, RunOf(r, h, band)) { StreakIsRun(r, h, band); }
    } else {
      var band: string :| StreakOf(RecordAll(r, h), band).reported;
      StreakIsRun(r, h, band);
      assert Sustained(r, RunOf(r, h, band));
    }
  }

  /** An empty log agrees with the live answer exactly while no band is reported. */
  lemma AgreesUnlessReported(l: Ledger)
    ensures Replay([]) == BandsBehind(l) <==> forall band: string :: !StreakOf(l, band).reported
  {
    assert Replay([]) == map[] by { assert BandsOf([]) == {}; }
    forall band: string ensures band in BandsBehind(l) <==> StreakOf(l, band).reported { }
    if forall band: string :: !StreakOf(l, band).reported {
      assert BandsBehind(l).Keys == {};
    }
  }

  lemma {:induction false} NothingIsLogged(r: Rule, h: seq<Outcome>)
    requires r.Valid() && !r.enabled
    ensures RecordAll(r, h).log == [] && RecordAll(r, h).counts == map[]
    decreases |h|
  {
    if h != [] {
      NothingIsLogged(r, h[..|h| - 1]);
    }
  }

  // --------------------------------------------------- a log cut at the front

  lemma {:induction false} BandEventsAppend(a: seq<Event>, b: seq<Event>, band: string)
    ensures BandEvents(a + b, band) == BandEvents(a, band) + BandEvents(b, band)
    decreases |b|
  {
    if b == [] {
      assert a + b == a;
    } else {
      var init := b[..|b| - 1];
      assert (a + b)[..|a + b| - 1] == a + init;
      BandEventsAppend(a, init, band);
    }
  }

  lemma {:induction false} EpisodeAppend(a: seq<Event>, b: seq<Event>)
    ensures LastEpisode(b) == BEHIND ==> LastEpisode(a + b) == BEHIND
    ensures
      || OpenRun(b) == OpenRun(a + b)
      || (exists m :: 0 <= m <= |OpenRun(a + b)| && OpenRun(b) == OpenRun(a + b)[m..])
    ensures (exists e <- b :: e.status == CAUGHT_UP) ==> OpenRun(b) == OpenRun(a + b)
    decreases |b|
  {
    if b == [] {
      assert a + b == a;
      assert OpenRun(b) == OpenRun(a)[|OpenRun(a)|..];
    } else {
      var init, e := b[..|b| - 1], b[|b| - 1];
      assert (a + b)[..|a + b| - 1] == a + init;
      EpisodeAppend(a, init);
      if OpenRun(init) != OpenRun(a + init) {
        var m :| 0 <= m <= |OpenRun(a + init)| && OpenRun(init) == OpenRun(a + init)[m..];
        assert OpenRun(init) + [e.late] == (OpenRun(a + init) + [e.late])[m..];
      }
    }
  }

  /**
   * A log that has lost its oldest events (trimmed, or read over a shorter window) still
   * names only bands that are behind, never with more late cycles; and a band whose
   * previous run's CAUGHT_UP is still in it is reported exactly as the live ledger does.
   */
  lemma TrimmedLogInventsNothing(r: Rule, h: seq<Outcome>, lost: seq<Event>, kept: seq<Event>, band: string)
    requires r.Valid() && r.enabled && Plausible(h)
    requires RecordAll(r, h).log == lost + kept
    requires band in Replay(kept)
    ensures band in BandsBehind(RecordAll(r, h))
    ensures Replay(kept)[band].lateCycles <= BandsBehind(RecordAll(r, h))[band].lateCycles
    ensures (exists e <- BandEvents(kept, band) :: e.status == CAUGHT_UP) ==>
      Replay(kept)[band] == BandsBehind(RecordAll(r, h))[band]
  {
    hide Tenths, MaxOf, BandEvents, RecordAll, OpenRun, LastEpisode;
    ReplayAgreesWithLive(r, h);
    BandEventsAppend(lost, kept, band);
    EpisodeAppend(BandEvents(lost, band), BandEvents(kept, band));
    BehindHasEvents(lost + kept, band);
  }

  lemma BehindHasEvents(log: seq<Event>, band: string)
    requires ReplaysBehind(log, band)
    ensures band in BandsOf(log)
  {
    BehindIsLogged(log, band);
  }
}
