/**
 * The worker that copies a deferred window takes no lock.  It lists the closed minutes
 * first and looks at the open one afterwards, and the ingest thread may write, record
 * gaps and close minutes in between.
 */
module RingRaces {
  import opened Audio
  import opened History
  import opened Modular
  import opened RingModel

  /** What the ingest thread can do to the ring; it records a gap where the open minute ends. */
  datatype RingStep = Write(samples: seq<Sample>) | Record(gap: GapEvent) | Close(mark: MinuteMark)

  /** Everything the invariant says of a ring but for its cells. */
  ghost predicate Laid(st: RingState, capMinutes: nat, spm: nat, cap: nat)
  {
    Sized(capMinutes, spm, cap) && CountsMatch(st, capMinutes, spm, cap) && GapsMatch(st, spm, cap)
  }

  ghost predicate Allowed(st: RingState, step: RingStep, capMinutes: nat, spm: nat)
  {
    match step
    case Write(_) => true
    case Record(gap) => st.minuteCount <= gap.position < spm
    case Close(m) =>
      && |st.marks| <= capMinutes && 0 < capMinutes && st.minuteCount == spm <= st.count
      && m.absoluteIndex == st.count - spm && m.ringPosition == st.startPos && m.gaps == st.open
  }

  ghost function After(st: RingState, step: RingStep, capMinutes: nat, spm: nat, cap: nat): RingState
    requires 0 < cap && Allowed(st, step, capMinutes, spm)
  {
    match step
    case Write(s) =>
      st.(writePos := (st.writePos + |s|) % cap, count := st.count + |s|, minuteCount := st.minuteCount + |s|,
          history := st.history + s)
    case Record(gap) =>
      st.(open := st.open + [gap], log := st.log + [LoggedGap(st.Base(spm) + gap.position, gap)])
    case Close(m) => Closed(st, m, capMinutes)
  }

  ghost predicate Runs(st: RingState, steps: seq<RingStep>, capMinutes: nat, spm: nat, cap: nat)
    requires 0 < cap
    decreases |steps|
  {
    steps == [] ||
    (Allowed(st, steps[0], capMinutes, spm) &&
     Runs(After(st, steps[0], capMinutes, spm, cap), steps[1..], capMinutes, spm, cap))
  }

  ghost function Run(st: RingState, steps: seq<RingStep>, capMinutes: nat, spm: nat, cap: nat): RingState
    requires 0 < cap && Runs(st, steps, capMinutes, spm, cap)
    decreases |steps|
  {
    if steps == [] then st else Run(After(st, steps[0], capMinutes, spm, cap), steps[1..], capMinutes, spm, cap)
  }

  /** A minute is closed meanwhile. */
  ghost predicate ClosesOne(steps: seq<RingStep>) { exists s <- steps :: s.Close? }

  /** What the two reads make of the gaps: the minutes closed at the first, the minute open at the second. */
  ghost function TornGaps(first: RingState, second: RingState, spm: nat, lo: int, hi: int): seq<GapEvent>
  {
    GapsWithin(LogOfMarks(first.marks) + LogOf(second.Base(spm), second.open), lo, hi)
  }

  lemma StepKeepsLaid(st: RingState, step: RingStep, capMinutes: nat, spm: nat, cap: nat)
    requires Laid(st, capMinutes, spm, cap) && Allowed(st, step, capMinutes, spm)
    ensures Laid(After(st, step, capMinutes, spm, cap), capMinutes, spm, cap)
  {
    hide Cell, MarksLaid, LogSplits, AllBelow, GapsInMinute, Minutes, LogOf, Push;
    match step
    case Write(s) => WriteKeepsLaid(st, s, capMinutes, spm, cap);
    case Record(gap) => RecordKeepsGaps(st, gap, spm, cap);
    case Close(m) =>
      CloseKeepsCounts(st, m, capMinutes, spm, cap);
      CloseKeepsGaps(st, m, capMinutes, spm, cap);
  }

  lemma WriteKeepsLaid(st: RingState, s: seq<Sample>, capMinutes: nat, spm: nat, cap: nat)
    requires Laid(st, capMinutes, spm, cap)
    ensures 0 < cap && Laid(After(st, Write(s), capMinutes, spm, cap), capMinutes, spm, cap)
  {
    hide Cell, MarksLaid, LogSplits, AllBelow, GapsInMinute, Minutes, LogOf, Closed;
    CellShift(|st.history|, |s|, cap);
    CellIsMod(st.writePos + |s|, cap);
  }

  /** Between the reads: the history and log went on, and the open minute is the same or a later one. */
  ghost predicate Later(st: RingState, st': RingState, spm: nat, closed: bool)
  {
    && Extends(st.history, st.log, st'.history, st'.log)
    && if closed then |st.history| <= st'.Base(spm)
       else st'.marks == st.marks && st'.gone == st.gone && st'.evicted == st.evicted
  }

  lemma StepIsLater(st: RingState, st1: RingState, step: RingStep, capMinutes: nat, spm: nat, cap: nat, closed: bool)
    requires Laid(st1, capMinutes, spm, cap) && Allowed(st1, step, capMinutes, spm) && Later(st, st1, spm, closed)
    ensures Later(st, After(st1, step, capMinutes, spm, cap), spm, closed || step.Close?)
  {
    var st2 := After(st1, step, capMinutes, spm, cap);
    match step
    case Write(s) => hide Minutes, Cell;
    case Record(gap) => hide Minutes, Cell;
    case Close(m) =>
      CloseKeepsCounts(st1, m, capMinutes, spm, cap);
      hide Minutes, Cell;
  }

  lemma {:induction false} RunIsLater(st: RingState, st1: RingState, steps: seq<RingStep>, capMinutes: nat, spm: nat,
                                      cap: nat, closed: bool)
    requires 0 < cap && Laid(st1, capMinutes, spm, cap) && Later(st, st1, spm, closed)
    requires Runs(st1, steps, capMinutes, spm, cap)
    ensures var st2 := Run(st1, steps, capMinutes, spm, cap);
      Laid(st2, capMinutes, spm, cap) && Later(st, st2, spm, closed || ClosesOne(steps))
    decreases |steps|
  {
    hide Laid, Later, After, Allowed;
    if steps != [] {
      assert steps == [steps[0]] + steps[1..];
      StepKeepsLaid(st1, steps[0], capMinutes, spm, cap);
      StepIsLater(st, st1, steps[0], capMinutes, spm, cap, closed);
      RunIsLater(st, After(st1, steps[0], capMinutes, spm, cap), steps[1..], capMinutes, spm, cap,
                 closed || steps[0].Close?);
    }
  }

  /** What was evicted lies before every resident window. */
  lemma OldEvicted(st: RingState, capMinutes: nat, spm: nat, cap: nat, lo: nat)
    requires Laid(st, capMinutes, spm, cap) && Oldest(|st.history|, cap) <= lo
    ensures AllBelow(st.evicted, lo)
  {
    if |st.marks| == capMinutes {
      MinutesAdd(st.gone, capMinutes, spm);
    }
  }

  /** The minute open at the second read began after the window; it adds nothing. */
  lemma LaterMinuteAddsNothing(st: RingState, capMinutes: nat, spm: nat, cap: nat, lo: int, hi: int)
    requires Laid(st, capMinutes, spm, cap) && hi <= st.Base(spm)
    ensures GapsWithin(LogOf(st.Base(spm), st.open), lo, hi) == []
  {
    LogOfBounds(st.Base(spm), st.open, spm);
    GapsOutside(LogOf(st.Base(spm), st.open), lo, hi);
  }

  /**
   * The two reads give the gaps of the window exactly when no minute was closed between
   * them or the minute open at the first had no gap in the window.  Otherwise the
   * gaps of that minute, and no others, are missing.
   */
  lemma TornGapsExactly(first: RingState, steps: seq<RingStep>, capMinutes: nat, spm: nat, cap: nat, lo: nat, hi: nat)
    requires Laid(first, capMinutes, spm, cap) && Runs(first, steps, capMinutes, spm, cap)
    requires Oldest(|first.history|, cap) <= lo < hi <= |first.history|
    ensures var torn := TornGaps(first, Run(first, steps, capMinutes, spm, cap), spm, lo, hi);
      var missing := GapsWithin(LogOf(first.Base(spm), first.open), lo, hi);
      && (ClosesOne(steps) ==> torn + missing == GapsWithin(first.log, lo, hi))
      && (torn == GapsWithin(first.log, lo, hi) <==> !ClosesOne(steps) || missing == [])
  {
    hide GapsWithin, LogOf, LogOfMarks, Runs, Run, GapsMatch, CountsMatch, LogSplits, ClosesOne, AllBelow;
    var second := Run(first, steps, capMinutes, spm, cap);
    assert Later(first, first, spm, false);
    RunIsLater(first, first, steps, capMinutes, spm, cap, false);
    OldEvicted(first, capMinutes, spm, cap, lo);
    Retained(first, capMinutes, spm, cap, lo, hi);
    GapsWithinAppend(LogOfMarks(first.marks), LogOf(first.Base(spm), first.open), lo, hi);
    GapsWithinAppend(LogOfMarks(first.marks), LogOf(second.Base(spm), second.open), lo, hi);
    if ClosesOne(steps) {
      LaterMinuteAddsNothing(second, capMinutes, spm, cap, lo, hi);
    } else {
      Retained(second, capMinutes, spm, cap, lo, hi);
      WindowIsStable(first.history, first.log, second.history, second.log, |second.history|, lo, hi - lo);
    }
  }

  lemma Retained(st: RingState, capMinutes: nat, spm: nat, cap: nat, lo: nat, hi: int)
    requires Laid(st, capMinutes, spm, cap) && AllBelow(st.evicted, lo)
    ensures GapsWithin(st.log, lo, hi) == GapsWithin(LogOfMarks(st.marks) + LogOf(st.Base(spm), st.open), lo, hi)
  {
    hide GapsWithin, LogOf, LogOfMarks, AllBelow;
    OnlyRetainedMatter(st.log, st.evicted, st.marks, st.Base(spm), st.open, lo, hi);
    GapsWithinAppend(LogOfMarks(st.marks), LogOf(st.Base(spm), st.open), lo, hi);
  }
}
