/** The ledger object and the offline report, each proved to compute what HealthModel and HealthReplay define. */
module Health {
  import opened HealthModel
  import opened HealthReplay

  const MAX_EVENTS_KEPT: nat := 500

  /** A bounded deque of everything appended so far. */
  function Recent(log: seq<Event>): seq<Event>
  {
    if |log| <= MAX_EVENTS_KEPT then log else log[|log| - MAX_EVENTS_KEPT..]
  }

  /** It holds the latest 500, or all there are. */
  lemma RecentIsTail(log: seq<Event>, i: nat)
    ensures |Recent(log)| == if |log| < 500 then |log| else 500
    ensures i < |Recent(log)| ==> Recent(log)[i] == log[|log| - |Recent(log)| + i]
  {
  }

  class DecodeHealth {
    const rule: Rule
    var streaks: map<string, Streak>
    var counts: map<Status, nat>
    var lastOkStored: map<string, real>
    var events: seq<Event>
    /** The lines appended to the event log. */
    ghost var log: seq<Event>

    ghost function Ledger(): Ledger
      reads this
    {
      HealthModel.Ledger(streaks, counts, lastOkStored, log)
    }

    ghost predicate Valid()
      reads this
    {
      rule.Valid() && events == Recent(log)
    }

    constructor (rule: Rule)
      requires rule.Valid()
      ensures Valid() && this.rule == rule && Ledger() == EMPTY
    {
      this.rule := rule;
      streaks, counts, lastOkStored, events, log := map[], map[], map[], [], [];
    }

    /** One decode finished, or was killed. */
    method Record(band: string, period: int, cycleStart: real, decodeStart: real, killed: bool, now: real)
      returns (e: Event)
      requires Valid()
      modifies this
      ensures Valid()
      ensures var late := Lateness(cycleStart, period, decodeStart);
        var o := if killed then Killed(band, late, now) else Decoded(band, late, now);
        Ledger() == HealthModel.Record(rule, old(Ledger()), o) && e == EventOf(rule, old(Ledger()), o)
    {
      hide HealthModel.Store, Tenths;
      var late := Lateness(cycleStart, period, decodeStart);
      if killed {
        e := Event(KILLED, band, Tenths(late), now.Floor);
        AddLocked(e, now);
        return;
      }
      var streak := if band in streaks then streaks[band] else FRESH;
      if late < rule.lateS {
        if streak.count == 0 {
          streaks := streaks[band := streak];
          e := Event(OK, band, Tenths(late), now.Floor);
        } else {
          streaks := streaks[band := FRESH];
          e := Event(CAUGHT_UP, band, Tenths(late), now.Floor);
        }
        AddLocked(e, now);
        return;
      }
      if streak.count == 0 {
        streak := streak.(first := late, max := 0.0);
      }
      streak := streak.(count := streak.count + 1, max := Max(streak.max, late));
      var draining := late < streak.first;
      if streak.count < rule.sustain || draining {
        e := Event(LATE, band, Tenths(late), now.Floor);
      } else {
        var firstReport := !streak.reported;
        streak := streak.(reported := true);
        if firstReport || streak.count % rule.sustain == 0 {
          e := Event(BEHIND, band, Tenths(late), now.Floor);
        } else {
          e := Event(LATE, band, Tenths(late), now.Floor);
        }
      }
      streaks := streaks[band := streak];
      AddLocked(e, now);
    }

    /** A cycle that was never decoded at all. */
    method RecordDrop(band: string, period: int, cycleStart: real, now: real) returns (e: Event)
      requires Valid()
      modifies this
      ensures Valid()
      ensures var o := Dropped(band, Lateness(cycleStart, period, now), now);
        Ledger() == HealthModel.Record(rule, old(Ledger()), o) && e == EventOf(rule, old(Ledger()), o)
    {
      e := Event(DROPPED, band, Tenths(Lateness(cycleStart, period, now)), now.Floor);
      AddLocked(e, now);
    }

    /** Count it, and keep it unless it is one healthy decode too many. */
    method AddLocked(e: Event, now: real)
      requires Valid()
      modifies this
      ensures Valid() && Ledger() == Store(rule, old(Ledger()), e, now)
    {
      if !rule.enabled {
        return;
      }
      counts := counts[e.status := (if e.status in counts then counts[e.status] else 0) + 1];
      if e.status == OK {
        if now - (if e.band in lastOkStored then lastOkStored[e.band] else 0.0) < OK_HEARTBEAT_S {
          return;
        }
        lastOkStored := lastOkStored[e.band := now];
      }
      events := Recent(events + [e]);
      log := log + [e];
    }

    /** Bands currently in a reported late run. */
    method BandsBehind() returns (behind: map<string, Behind>)
      ensures behind == HealthReplay.BandsBehind(Ledger())
    {
      behind := map[];
      var left := streaks.Keys;
      while left != {}
        invariant left <= streaks.Keys
        invariant behind ==
          map b | b in HealthReplay.BandsBehind(Ledger()) && b !in left :: HealthReplay.BandsBehind(Ledger())[b]
      {
        var b :| b in left;
        left := left - {b};
        var s := streaks[b];
        if s.reported {
          behind := behind[b := Behind(s.count, Tenths(s.first), Tenths(s.max))];
        }
      }
    }
  }

  // ----------------------------------------------------- the offline report

  function Within(log: seq<Event>, cutoff: int): seq<Event>
  {
    if log == [] then []
    else
      var rest, e := Within(log[..|log| - 1], cutoff), log[|log| - 1];
      if e.utc >= cutoff then rest + [e] else rest
  }

  predicate InOrder(log: seq<Event>) { forall i, j :: 0 <= i < j < |log| ==> log[i].utc <= log[j].utc }

  /** With the clock never stepped back, reading a window of hours drops only the oldest events. */
  lemma {:induction false} WindowIsSuffix(log: seq<Event>, cutoff: int) returns (k: nat)
    requires InOrder(log)
    ensures WindowFrom(log, cutoff, k)
    decreases |log|
  {
    k := 0;
    if log != [] {
      hide WindowFrom;
      k := WindowIsSuffix(log[..|log| - 1], cutoff);
      if log[|log| - 1].utc >= cutoff {
        WindowGrows(log, cutoff, k);
      } else {
        NothingInWindow(log, cutoff);
        k := |log|;
      }
    }
  }

  /** The window is the log from the k-th event on: those before are too old, the others are not. */
  ghost predicate WindowFrom(log: seq<Event>, cutoff: int, k: nat)
  {
    && k <= |log| && Within(log, cutoff) == log[k..]
    && (forall i :: 0 <= i < k ==> log[i].utc < cutoff)
    && (forall i :: k <= i < |log| ==> log[i].utc >= cutoff)
  }

  lemma WindowGrows(log: seq<Event>, cutoff: int, k: nat)
    requires log != [] && WindowFrom(log[..|log| - 1], cutoff, k) && log[|log| - 1].utc >= cutoff
    ensures WindowFrom(log, cutoff, k)
  {
    assert log[k..] == log[..|log| - 1][k..] + [log[|log| - 1]];
  }

  lemma NothingInWindow(log: seq<Event>, cutoff: int)
    requires log != [] && InOrder(log) && log[|log| - 1].utc < cutoff
    ensures WindowFrom(log, cutoff, |log|)
  {
    hide Within;
    assert forall i :: 0 <= i < |log| - 1 ==> log[i].utc <= log[|log| - 1].utc;
    AllTooOld(log, cutoff);
  }

  lemma {:induction false} AllTooOld(log: seq<Event>, cutoff: int)
    requires forall i :: 0 <= i < |log| ==> log[i].utc < cutoff
    ensures Within(log, cutoff) == []
    decreases |log|
  {
    if log != [] {
      AllTooOld(log[..|log| - 1], cutoff);
    }
  }

  datatype Summary = Summary(counts: map<Status, nat>, cyclesMissed: nat, behind: map<string, Behind>)

  function CountAll(log: seq<Event>, st: Status): nat
  {
    if log == [] then 0 else CountAll(log[..|log| - 1], st) + if log[|log| - 1].status == st then 1 else 0
  }

  /** The report rebuilt from the log lines of a window. */
  method SummariseEvents(all: seq<Event>, cutoff: int) returns (summary: Summary)
    ensures summary.behind == Replay(Within(all, cutoff))
    ensures forall st :: CountOf(summary.counts, st) == CountAll(Within(all, cutoff), st)
    ensures summary.cyclesMissed == CountAll(Within(all, cutoff), KILLED) + CountAll(Within(all, cutoff), DROPPED)
  {
    hide Replay, ReplaysBehind, BandEvents;
    var events := InWindow(all, cutoff);
    var counts: map<Status, nat> := map[];
    var last: set<string> := {};
    var i := 0;
    while i < |events|
      invariant i <= |events|
      invariant forall st :: CountOf(counts, st) == CountAll(events[..i], st)
      invariant last == SeenBands(events[..i])
    {
      var e := events[i];
      assert events[..i + 1][..i] == events[..i];
      assert forall x :: x in events[..i + 1] <==> x in events[..i] || x == e;
      counts := Bump(counts, e.status);
      if e.status != DROPPED {
        last := last + {e.band};
      }
      i := i + 1;
    }
    assert events[..i] == events;
    var behind := BehindBands(events, last);
    summary := Summary(counts, CountOf(counts, KILLED) + CountOf(counts, DROPPED), behind);
  }

  method InWindow(all: seq<Event>, cutoff: int) returns (events: seq<Event>)
    ensures events == Within(all, cutoff)
  {
    events := [];
    var i := 0;
    while i < |all|
      invariant i <= |all| && events == Within(all[..i], cutoff)
    {
      assert all[..i + 1][..i] == all[..i];
      if all[i].utc >= cutoff {
        events := events + [all[i]];
      }
      i := i + 1;
    }
    assert all[..i] == all;
  }

  /** Every band seen with something other than a drop: its open run, when its last episode event is BEHIND. */
  method BehindBands(events: seq<Event>, last: set<string>) returns (behind: map<string, Behind>)
    requires last == SeenBands(events)
    ensures behind == Replay(events)
  {
    hide Replay, SeenBands, ReplaysBehind, BandEvents, OpenRun, LastEpisode;
    behind := map[];
    var left := last;
    while left != {}
      invariant left <= last
      invariant behind == map b | b in Replay(events) && b in last && b !in left :: Replay(events)[b]
    {
      var band :| band in left;
      left := left - {band};
      var mine := EventsOfBand(events, band);
      var open, run := OpenRunOf(mine);
      ReplayAt(events, band);
      if open {
        behind := behind[band := Row(run)];
      }
    }
    forall b | b in Replay(events) ensures b in last {
      ReplayAt(events, b);
      BehindIsSeen(events, b);
    }
  }

  ghost function SeenBands(events: seq<Event>): set<string>
  {
    set e | e in events && e.status != DROPPED :: e.band
  }

  lemma ReplayAt(log: seq<Event>, band: string)
    ensures band in Replay(log) <==> LastEpisode(BandEvents(log, band)) == BEHIND
    ensures band in Replay(log) ==> Replay(log)[band] == Row(OpenRun(BandEvents(log, band)))
  {
    hide BandEvents, OpenRun, LastEpisode;
    if ReplaysBehind(log, band) {
      BehindHasEvents(log, band);
    }
  }

  lemma {:induction false} BehindIsSeen(log: seq<Event>, band: string)
    requires LastEpisode(BandEvents(log, band)) == BEHIND
    ensures band in SeenBands(log)
    decreases |log|
  {
    var init, e := log[..|log| - 1], log[|log| - 1];
    assert e in log;
    EventsSnoc(init, e, band);
    assert init + [e] == log;
    EpisodeSnoc(BandEvents(init, band), e);
    if e.band != band || e.status !in {BEHIND, CAUGHT_UP} {
      BehindIsSeen(init, band);
      var x :| x in init && x.status != DROPPED && x.band == band;
      assert x in log;
    }
  }

  method EventsOfBand(events: seq<Event>, band: string) returns (mine: seq<Event>)
    ensures mine == BandEvents(events, band)
  {
    mine := [];
    var i := 0;
    while i < |events|
      invariant i <= |events| && mine == BandEvents(events[..i], band)
    {
      assert events[..i + 1][..i] == events[..i];
      if events[i].band == band {
        mine := mine + [events[i]];
      }
      i := i + 1;
    }
    assert events[..i] == events;
  }

  function Lates(es: seq<Event>): seq<int>
  {
    if es == [] then []
    else
      var run, e := Lates(es[..|es| - 1]), es[|es| - 1];
      if e.status in {LATE, BEHIND} then run + [e.late] else run
  }

  /** Whether one band's last episode event is BEHIND, and the latenesses after its last CAUGHT_UP. */
  method OpenRunOf(mine: seq<Event>) returns (open: bool, run: seq<int>)
    ensures open == (LastEpisode(mine) == BEHIND)
    ensures run == OpenRun(mine)
  {
    open := LastEpisodeBehind(mine);
    var cut := AfterLastCaughtUp(mine);
    OpenRunIsTail(mine, cut);
    run := [];
    var i, tail := 0, mine[cut..];
    while i < |tail|
      invariant i <= |tail| && run == Lates(tail[..i])
    {
      assert tail[..i + 1] == tail[..i] + [tail[i]];
      if tail[i].status in {LATE, BEHIND} {
        run := run + [tail[i].late];
      }
      i := i + 1;
    }
    assert tail[..i] == tail;
  }

  /** `cut` is just past the last CAUGHT_UP. */
  ghost predicate AfterCaughtUp(mine: seq<Event>, cut: nat)
  {
    && cut <= |mine|
    && (0 < cut ==> mine[cut - 1].status == CAUGHT_UP)
    && (forall k :: cut <= k < |mine| ==> mine[k].status != CAUGHT_UP)
  }

  /** The open run is what was late since the last CAUGHT_UP. */
  lemma {:induction false} OpenRunIsTail(mine: seq<Event>, cut: nat)
    requires AfterCaughtUp(mine, cut)
    ensures OpenRun(mine) == Lates(mine[cut..])
    decreases |mine|
  {
    if cut < |mine| {
      var init := mine[..|mine| - 1];
      OpenRunIsTail(init, cut);
      assert mine[cut..][..|mine| - cut - 1] == init[cut..];
    }
  }

  method AfterLastCaughtUp(mine: seq<Event>) returns (cut: nat)
    ensures AfterCaughtUp(mine, cut)
  {
    cut := 0;
    var i := 0;
    while i < |mine|
      invariant cut <= i <= |mine|
      invariant 0 < cut ==> mine[cut - 1].status == CAUGHT_UP
      invariant forall k :: cut <= k < i ==> mine[k].status != CAUGHT_UP
    {
      if mine[i].status == CAUGHT_UP {
        cut := i + 1;
      }
      i := i + 1;
    }
  }

  method LastEpisodeBehind(mine: seq<Event>) returns (open: bool)
    ensures open == (LastEpisode(mine) == BEHIND)
  {
    open := false;
    var i := 0;
    while i < |mine|
      invariant i <= |mine| && open == (LastEpisode(mine[..i]) == BEHIND)
    {
      assert mine[..i + 1][..i] == mine[..i];
      if mine[i].status in {BEHIND, CAUGHT_UP} {
        open := mine[i].status == BEHIND;
      }
      i := i + 1;
    }
    assert mine[..i] == mine;
  }
}
