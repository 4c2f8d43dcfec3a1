/**
 * Ring contents, minute marks and gap lists as values, with the facts that make a
 * circular buffer a window onto an unbounded history.
 */
module RingModel {
  import opened Audio
  import opened History
  import opened Modular

  datatype MinuteMark = MinuteMark(
    ringPosition: nat,
    absoluteIndex: int,
    wallclock: real,
    rtpTimestamp: int,
    gaps: seq<GapEvent>)

  // ---------------------------------------------------------------- samples

  /** Every offset still resident reads its history sample. */
  ghost predicate CellsHold(cells: seq<Sample>, h: seq<Sample>)
  {
    |cells| > 0 &&
    forall i :: Oldest(|h|, |cells|) <= i < |h| ==> cells[Cell(i, |cells|)] == h[i]
  }

  /** What cell c holds after a batch is written at wp: the batch wraps at most once, later samples win. */
  function WrittenAt(cells: seq<Sample>, wp: nat, s: seq<Sample>, c: nat): Sample
    requires wp < |cells| && wp + |s| <= 2 * |cells| && c < |cells|
  {
    if c < wp + |s| - |cells| then s[|cells| - wp + c]
    else if wp <= c < wp + |s| then s[c - wp]
    else cells[c]
  }

  /** A batch sample that is still resident afterwards sits in its cell. */
  lemma WrittenNew(cells: seq<Sample>, h: seq<Sample>, s: seq<Sample>, d: nat)
    requires |cells| > 0
    requires Cell(|h|, |cells|) + |s| <= 2 * |cells|
    requires d < |s| && |s| - |cells| <= d
    ensures WrittenAt(cells, Cell(|h|, |cells|), s, Cell(|h| + d, |cells|)) == s[d]
  {
    hide Cell, WrittenAt;
    var wp := Cell(|h|, |cells|);
    CellStep(|h|, d, |cells|);
    WrittenStep(cells, wp, s, d);
  }

  lemma WrittenStep(cells: seq<Sample>, wp: nat, s: seq<Sample>, d: nat)
    requires wp < |cells| && wp + |s| <= 2 * |cells|
    requires d < |s| && |s| - |cells| <= d
    ensures WrittenAt(cells, wp, s, if wp + d < |cells| then wp + d else wp + d - |cells|) == s[d]
  {
  }

  /** A sample from before the batch that is still resident afterwards was not touched. */
  lemma WrittenOld(cells: seq<Sample>, h: seq<Sample>, s: seq<Sample>, i: nat)
    requires |cells| > 0
    requires Cell(|h|, |cells|) + |s| <= 2 * |cells|
    requires |h| + |s| - |cells| <= i < |h|
    ensures WrittenAt(cells, Cell(|h|, |cells|), s, Cell(i, |cells|)) == cells[Cell(i, |cells|)]
  {
    var cap, wp, c := |cells|, Cell(|h|, |cells|), Cell(i, |cells|);
    if wp <= c < wp + |s| {
      CellStep(|h|, c - wp, cap);
      CellInjective(|h| + (c - wp), i, cap);
      assert false;
    }
    if c < wp + |s| - cap {
      CellStep(|h|, cap - wp + c, cap);
      CellInjective(|h| + (cap - wp + c), i, cap);
      assert false;
    }
  }

  /** Any sample still resident after the batch, old or new, is in its cell. */
  lemma WrittenResident(cells: seq<Sample>, h: seq<Sample>, s: seq<Sample>, i: nat)
    requires CellsHold(cells, h)
    requires Cell(|h|, |cells|) + |s| <= 2 * |cells|
    requires Oldest(|h| + |s|, |cells|) <= i < |h| + |s|
    ensures WrittenAt(cells, Cell(|h|, |cells|), s, Cell(i, |cells|)) == (h + s)[i]
  {
    if i >= |h| {
      WrittenNew(cells, h, s, i - |h|);
    } else {
      WrittenOld(cells, h, s, i);
    }
  }

  lemma WriteKeepsCells(cells: seq<Sample>, cells': seq<Sample>, h: seq<Sample>, s: seq<Sample>)
    requires CellsHold(cells, h)
    requires Cell(|h|, |cells|) + |s| <= 2 * |cells|
    requires |cells'| == |cells|
    requires forall c :: 0 <= c < |cells| ==> cells'[c] == WrittenAt(cells, Cell(|h|, |cells|), s, c)
    ensures CellsHold(cells', h + s)
  {
    var cap, h' := |cells|, h + s;
    forall i | Oldest(|h'|, cap) <= i < |h'| ensures cells'[Cell(i, cap)] == h'[i] {
      WrittenResident(cells, h, s, i);
    }
  }

  /** n cells read forward from a position, across the seam. */
  function CopyOut(cells: seq<Sample>, start: nat, n: nat): (r: seq<Sample>)
    requires start < |cells| && n <= |cells|
    ensures |r| == n
  {
    if start + n <= |cells| then cells[start..start + n]
    else cells[start..] + cells[..n - (|cells| - start)]
  }

  lemma CopyOutAt(cells: seq<Sample>, lo: nat, n: nat, k: nat)
    requires 0 < |cells| && k < n <= |cells|
    ensures CopyOut(cells, Cell(lo, |cells|), n)[k] == cells[Cell(lo + k, |cells|)]
  {
    CellStep(lo, k, |cells|);
  }

  lemma CopyOutIsHistory(cells: seq<Sample>, h: seq<Sample>, lo: nat, n: nat)
    requires CellsHold(cells, h) && n <= |cells|
    requires Oldest(|h|, |cells|) <= lo && lo + n <= |h|
    ensures CopyOut(cells, Cell(lo, |cells|), n) == h[lo..lo + n]
  {
    forall k | 0 <= k < n ensures CopyOut(cells, Cell(lo, |cells|), n)[k] == h[lo..lo + n][k] {
      CopyOutAt(cells, lo, n, k);
      assert cells[Cell(lo + k, |cells|)] == h[lo + k];
    }
  }

  /** What offset `at` reads by position alone: the latest sample written to its cell. */
  function ReadAt(h: seq<Sample>, cap: nat, at: nat): Sample
    requires 0 < cap && at < |h|
    decreases |h| - at
  {
    if at + cap < |h| then ReadAt(h, cap, at + cap) else h[at]
  }

  lemma {:induction false} CellReadsAt(cells: seq<Sample>, h: seq<Sample>, at: nat)
    requires CellsHold(cells, h) && 0 < |cells| && at < |h|
    ensures cells[Cell(at, |cells|)] == ReadAt(h, |cells|, at)
    decreases |h| - at
  {
    if at + |cells| < |h| {
      CellReadsAt(cells, h, at + |cells|);
      assert Cell(at + |cells|, |cells|) == Cell(at, |cells|);
    }
  }

  /** `out` is what reading forward from offset lo by position alone gives. */
  ghost predicate ReadsFrom(out: seq<Sample>, h: seq<Sample>, cap: nat, lo: nat)
    requires 0 < cap
  {
    && lo + |out| <= |h|
    && forall k :: 0 <= k < |out| ==> out[k] == ReadAt(h, cap, lo + k)
  }

  lemma CopyOutReads(cells: seq<Sample>, h: seq<Sample>, lo: nat, n: nat)
    requires CellsHold(cells, h) && 0 < |cells| && n <= |cells| && lo + n <= |h|
    ensures ReadsFrom(CopyOut(cells, Cell(lo, |cells|), n), h, |cells|, lo)
  {
    forall k | 0 <= k < n ensures CopyOut(cells, Cell(lo, |cells|), n)[k] == ReadAt(h, |cells|, lo + k) {
      CopyOutAt(cells, lo, n, k);
      CellReadsAt(cells, h, lo + k);
    }
  }

  /** `cells[start:stop]` as Python reads it, a negative end counting from the right. */
  function Sliced(cells: seq<Sample>, start: nat, stop: int): (r: seq<Sample>)
    ensures forall i :: 0 <= i < |r| ==> start + i < |cells| && r[i] == cells[start + i]
    ensures stop < -|cells| ==> r == []
    ensures -|cells| <= stop < 0 ==> |r| == if start < |cells| + stop then |cells| + stop - start else 0
    ensures 0 <= stop <= |cells| ==> |r| == if start < stop then stop - start else 0
    ensures |cells| < stop ==> |r| == if start < |cells| then |cells| - start else 0
  {
    var fromRight := if stop < 0 then stop + |cells| else stop;
    var end := if fromRight > |cells| then |cells| else fromRight;
    if start < end then cells[start..end] else []
  }

  /** With nothing overwritten yet, reading by position is reading the history. */
  lemma ReadsFromIsHistory(out: seq<Sample>, h: seq<Sample>, cap: nat, lo: nat)
    requires 0 < cap && ReadsFrom(out, h, cap, lo) && Oldest(|h|, cap) <= lo
    ensures out == h[lo..lo + |out|]
  {
  }

  // ------------------------------------------------------------- gap lists

  /** The log entries a minute's gap list stands for. */
  function LogOf(base: int, gaps: seq<GapEvent>): (log: seq<LoggedGap>)
    ensures |log| == |gaps|
  {
    if gaps == [] then []
    else
      var j := |gaps| - 1;
      LogOf(base, gaps[..j]) + [LoggedGap(base + gaps[j].position, gaps[j])]
  }

  lemma {:induction false} LogOfMember(base: int, gaps: seq<GapEvent>, g: LoggedGap)
    requires g in LogOf(base, gaps)
    ensures g.gap in gaps && g.at == base + g.gap.position
    decreases |gaps|
  {
    var j := |gaps| - 1;
    if g in LogOf(base, gaps[..j]) {
      LogOfMember(base, gaps[..j], g);
    }
  }

  predicate GapsInMinute(gaps: seq<GapEvent>, spm: nat)
  {
    forall g <- gaps :: 0 <= g.position < spm
  }

  /** A minute's log entries lie inside that minute. */
  lemma LogOfBounds(base: int, gaps: seq<GapEvent>, spm: nat)
    requires GapsInMinute(gaps, spm)
    ensures forall g <- LogOf(base, gaps) :: base <= g.at < base + spm
  {
    forall g | g in LogOf(base, gaps) ensures base <= g.at < base + spm {
      LogOfMember(base, gaps, g);
    }
  }

  function LogOfMarks(marks: seq<MinuteMark>): seq<LoggedGap>
  {
    if marks == [] then []
    else
      var j := |marks| - 1;
      LogOfMarks(marks[..j]) + LogOf(marks[j].absoluteIndex, marks[j].gaps)
  }

  lemma {:induction false} LogOfMarksAppend(a: seq<MinuteMark>, b: seq<MinuteMark>)
    ensures LogOfMarks(a + b) == LogOfMarks(a) + LogOfMarks(b)
    decreases |b|
  {
    if b == [] {
      assert a + b == a;
    } else {
      hide LogOfMarks, LogOf;
      var front, last := b[..|b| - 1], b[|b| - 1];
      assert b == front + [last] && a + b == (a + front) + [last];
      LogOfMarksAppend(a, front);
    }
  }

  // ----------------------------------------------------------------- marks

  /** `m` is the mark of the `index`-th closed minute. */
  ghost predicate MarkAt(m: MinuteMark, index: nat, spm: nat, cap: nat)
    requires 0 < cap
  {
    && m.absoluteIndex == Minutes(index, spm)
    && m.ringPosition == Cell(Minutes(index, spm), cap)
    && GapsInMinute(m.gaps, spm)
  }

  /** The marks are those of the last |marks| closed minutes. */
  ghost predicate MarksLaid(marks: seq<MinuteMark>, first: nat, spm: nat, cap: nat)
    requires 0 < cap
  {
    forall k :: 0 <= k < |marks| ==> MarkAt(marks[k], first + k, spm, cap)
  }

  /** Nothing logged at or after `bound`. */
  ghost predicate AllBelow(log: seq<LoggedGap>, bound: int)
  {
    forall g <- log :: g.at < bound
  }

  lemma {:induction false} MarksBelow(marks: seq<MinuteMark>, first: nat, spm: nat, cap: nat)
    requires 0 < cap && MarksLaid(marks, first, spm, cap)
    ensures AllBelow(LogOfMarks(marks), Minutes(first + |marks|, spm))
    decreases |marks|
  {
    if marks != [] {
      var j := |marks| - 1;
      assert MarkAt(marks[j], first + j, spm, cap);
      MarksBelow(marks[..j], first, spm, cap);
      LogOfBounds(marks[j].absoluteIndex, marks[j].gaps, spm);
    }
  }

  /** The gap log: what was evicted, what the marks carry, what the open minute carries. */
  ghost predicate LogSplits(log: seq<LoggedGap>, evicted: seq<LoggedGap>, marks: seq<MinuteMark>,
                            base: int, open: seq<GapEvent>)
  {
    log == evicted + (LogOfMarks(marks) + LogOf(base, open))
  }

  /** `deque(maxlen=n).append(m)`. */
  function Push(marks: seq<MinuteMark>, m: MinuteMark, maxlen: nat): seq<MinuteMark>
    requires 0 < maxlen
  {
    if |marks| < maxlen then marks + [m] else marks[|marks| - maxlen + 1..] + [m]
  }

  /** Closing a minute moves its gap list into the marks and, when the deque is full, the oldest list out. */
  lemma CloseKeepsLog(log: seq<LoggedGap>, evicted: seq<LoggedGap>, marks: seq<MinuteMark>, m: MinuteMark, base': int)
    requires LogSplits(log, evicted, marks, m.absoluteIndex, m.gaps)
    ensures LogSplits(log, evicted, marks + [m], base', [])
    ensures marks != [] ==>
      LogSplits(log, evicted + LogOf(marks[0].absoluteIndex, marks[0].gaps), marks[1..] + [m], base', [])
  {
    assert LogOf(base', []) == [];
    if marks != [] {
      var head, tail := [marks[0]], marks[1..] + [m];
      assert marks + [m] == head + tail;
      LogOfMarksAppend(head, tail);
      assert [] + head == head;
    }
  }

  /** Gaps whose marks have been evicted lie before every resident window. */
  lemma OnlyRetainedMatter(log: seq<LoggedGap>, evicted: seq<LoggedGap>, marks: seq<MinuteMark>, base: int,
                           open: seq<GapEvent>, lo: int, hi: int)
    requires LogSplits(log, evicted, marks, base, open)
    requires AllBelow(evicted, lo)
    ensures GapsWithin(log, lo, hi) == GapsWithin(LogOfMarks(marks), lo, hi) + GapsWithin(LogOf(base, open), lo, hi)
  {
    GapsWithinAppend(evicted, LogOfMarks(marks) + LogOf(base, open), lo, hi);
    GapsWithinAppend(LogOfMarks(marks), LogOf(base, open), lo, hi);
    GapsOutside(evicted, lo, hi);
  }

  // ---------------------------------------------------------------- slices

  function Shifted(gaps: seq<GapEvent>, offset: int): seq<GapEvent>
  {
    if gaps == [] then []
    else
      var j := |gaps| - 1;
      Shifted(gaps[..j], offset) + [gaps[j].(position := offset + gaps[j].position)]
  }

  /** The gap lists of consecutive minutes, rebased minute by minute. */
  function MergedGaps(marks: seq<MinuteMark>, spm: nat): seq<GapEvent>
  {
    if marks == [] then []
    else
      var j := |marks| - 1;
      MergedGaps(marks[..j], spm) + Shifted(marks[j].gaps, Minutes(j, spm))
  }

  lemma {:induction false} ShiftedIsWithin(base: int, gaps: seq<GapEvent>, lo: int, hi: int)
    requires lo <= base
    requires forall g <- gaps :: 0 <= g.position && base + g.position < hi
    ensures Shifted(gaps, base - lo) == GapsWithin(LogOf(base, gaps), lo, hi)
    decreases |gaps|
  {
    if gaps != [] {
      var j := |gaps| - 1;
      assert gaps[j] in gaps;
      ShiftedIsWithin(base, gaps[..j], lo, hi);
      var log := LogOf(base, gaps);
      assert log[..j] == LogOf(base, gaps[..j]);
    }
  }

  /** One minute's gap list, rebased to a slice that began j minutes earlier. */
  lemma MinuteIsWithin(m: MinuteMark, first: nat, j: nat, spm: nat, cap: nat, hi: int)
    requires 0 < cap && MarkAt(m, first + j, spm, cap) && Minutes(first + j + 1, spm) <= hi
    ensures Shifted(m.gaps, Minutes(j, spm)) == GapsWithin(LogOf(m.absoluteIndex, m.gaps), Minutes(first, spm), hi)
  {
    hide Cell, LogOf, GapsWithin, Shifted;
    MinutesAdd(first, j, spm);
    ShiftedIsWithin(m.absoluteIndex, m.gaps, Minutes(first, spm), hi);
  }

  lemma LastLaid(marks: seq<MinuteMark>, first: nat, spm: nat, cap: nat)
    requires 0 < cap && marks != [] && MarksLaid(marks, first, spm, cap)
    ensures var j := |marks| - 1;
      && MarksLaid(marks[..j], first, spm, cap) && MarkAt(marks[j], first + j, spm, cap)
      && Minutes(first + j, spm) <= Minutes(first + j + 1, spm)
  {
    hide MarkAt;
  }

  lemma {:induction false} MergedIsWithin(marks: seq<MinuteMark>, first: nat, spm: nat, cap: nat, hi: int)
    requires 0 < cap && MarksLaid(marks, first, spm, cap)
    requires Minutes(first + |marks|, spm) <= hi
    ensures MergedGaps(marks, spm) == GapsWithin(LogOfMarks(marks), Minutes(first, spm), hi)
    decreases |marks|
  {
    if marks != [] {
      hide GapsWithin, Shifted, LogOf, MarkAt, MarksLaid, Minutes;
      LastLaid(marks, first, spm, cap);
      var j := |marks| - 1;
      var front, last := marks[..j], marks[j];
      MergedIsWithin(front, first, spm, cap, hi);
      MinuteIsWithin(last, first, j, spm, cap, hi);
      GapsWithinAppend(LogOfMarks(front), LogOf(last.absoluteIndex, last.gaps), Minutes(first, spm), hi);
    }
  }

  /** Only the chosen marks' gaps fall in a window that starts after the older ones and ends before the open minute. */
  lemma CutLog(log: seq<LoggedGap>, evicted: seq<LoggedGap>, older: seq<MinuteMark>, chosen: seq<MinuteMark>,
               base: int, open: seq<GapEvent>, lo: int, hi: int)
    requires LogSplits(log, evicted, older + chosen, base, open)
    requires AllBelow(evicted, lo) && AllBelow(LogOfMarks(older), lo)
    requires forall g <- LogOf(base, open) :: hi <= g.at
    ensures GapsWithin(log, lo, hi) == GapsWithin(LogOfMarks(chosen), lo, hi)
  {
    OnlyRetainedMatter(log, evicted, older + chosen, base, open, lo, hi);
    GapsOutside(LogOf(base, open), lo, hi);
    LogOfMarksAppend(older, chosen);
    GapsWithinAppend(LogOfMarks(older), LogOfMarks(chosen), lo, hi);
    GapsOutside(LogOfMarks(older), lo, hi);
  }

  /**
   * Merging the gap lists of the last k marks gives the gaps logged in those
   * minutes, in the same order.
   */
  lemma SliceGaps(log: seq<LoggedGap>, evicted: seq<LoggedGap>, marks: seq<MinuteMark>, open: seq<GapEvent>,
                  first: nat, k: nat, spm: nat, cap: nat)
    requires 0 < cap && MarksLaid(marks, first, spm, cap) && GapsInMinute(open, spm)
    requires LogSplits(log, evicted, marks, Minutes(first + |marks|, spm), open)
    requires AllBelow(evicted, Minutes(first, spm))
    requires k <= |marks|
    ensures MergedGaps(marks[|marks| - k..], spm) ==
            GapsWithin(log, Minutes(first + (|marks| - k), spm), Minutes(first + |marks|, spm))
  {
    hide LogOfMarks, LogOf, GapsWithin, MergedGaps, LogSplits;
    var older, chosen := marks[..|marks| - k], marks[|marks| - k..];
    var lo, hi := Minutes(first + |older|, spm), Minutes(first + |marks|, spm);
    MinutesAdd(first, |older|, spm);
    MarksBelow(older, first, spm, cap);
    MergedIsWithin(chosen, first + |older|, spm, cap, hi);
    LogOfBounds(hi, open, spm);
    assert marks == older + chosen;
    CutLog(log, evicted, older, chosen, hi, open, lo, hi);
  }

  // ------------------------------------------------------- the whole buffer

  /** The fields of a ring buffer, with the history they stand for. */
  datatype RingState = RingState(
    writePos: nat, count: nat, startPos: nat, minuteCount: nat, open: seq<GapEvent>, marks: seq<MinuteMark>,
    history: seq<Sample>, log: seq<LoggedGap>, evicted: seq<LoggedGap>, gone: nat)
  {
    /** The absolute offset at which the open minute begins. */
    ghost function Base(spm: nat): nat { Minutes(gone + |marks|, spm) }
  }

  /** The sizes of a ring: whole minutes, at least two. */
  ghost predicate Sized(capMinutes: nat, spm: nat, cap: nat)
  {
    0 < spm && 2 <= capMinutes && cap == Minutes(capMinutes, spm) && 2 * spm <= cap
  }

  ghost predicate CountsMatch(st: RingState, capMinutes: nat, spm: nat, cap: nat)
    requires Sized(capMinutes, spm, cap)
  {
    && st.writePos == Cell(|st.history|, cap)
    && st.count == |st.history| == st.Base(spm) + st.minuteCount
    && st.startPos == Cell(st.Base(spm), cap)
    && |st.marks| <= capMinutes
    && (|st.marks| < capMinutes ==> st.gone == 0)
  }

  ghost predicate GapsMatch(st: RingState, spm: nat, cap: nat)
    requires 0 < cap
  {
    && MarksLaid(st.marks, st.gone, spm, cap)
    && GapsInMinute(st.open, spm)
    && LogSplits(st.log, st.evicted, st.marks, st.Base(spm), st.open)
    && AllBelow(st.evicted, Minutes(st.gone, spm))
  }

  ghost predicate Inv(st: RingState, cells: seq<Sample>, capMinutes: nat, spm: nat)
  {
    && Sized(capMinutes, spm, |cells|)
    && CellsHold(cells, st.history)
    && CountsMatch(st, capMinutes, spm, |cells|)
    && GapsMatch(st, spm, |cells|)
  }

  /** The plain facts every method needs. */
  lemma InvFacts(st: RingState, cells: seq<Sample>, capMinutes: nat, spm: nat)
    requires Inv(st, cells, capMinutes, spm)
    ensures CellsHold(cells, st.history)
    ensures st.count == |st.history| && st.writePos < |cells| && st.minuteCount <= st.count
    ensures 0 < spm && 2 <= capMinutes && 2 * spm <= |cells| && Sized(capMinutes, spm, |cells|)
    ensures |st.marks| <= capMinutes
    ensures st.count - st.minuteCount == st.Base(spm)
  {
  }

  /** The state of a ring nothing has been written to. */
  function Empty(): RingState { RingState(0, 0, 0, 0, [], [], [], [], [], 0) }

  lemma EmptyInv(cells: seq<Sample>, capMinutes: nat, spm: nat)
    requires Sized(capMinutes, spm, |cells|)
    ensures Inv(Empty(), cells, capMinutes, spm)
  {
  }

  lemma WriteKeepsInv(st: RingState, cells: seq<Sample>, cells': seq<Sample>, s: seq<Sample>, capMinutes: nat, spm: nat)
    requires Inv(st, cells, capMinutes, spm)
    requires st.writePos + |s| <= 2 * |cells|
    requires |cells'| == |cells|
    requires forall c :: 0 <= c < |cells| ==> cells'[c] == WrittenAt(cells, st.writePos, s, c)
    ensures Inv(st.(writePos := (st.writePos + |s|) % |cells|, count := st.count + |s|,
                    minuteCount := st.minuteCount + |s|, history := st.history + s),
                cells', capMinutes, spm)
  {
    hide Cell, CellsHold, WrittenAt, MarksLaid, LogSplits, AllBelow, GapsInMinute, Minutes;
    WriteKeepsCells(cells, cells', st.history, s);
    CellShift(|st.history|, |s|, |cells|);
    CellIsMod(st.writePos + |s|, |cells|);
  }

  lemma RecordKeepsInv(st: RingState, cells: seq<Sample>, gap: GapEvent, capMinutes: nat, spm: nat)
    requires Inv(st, cells, capMinutes, spm)
    ensures 0 <= gap.position < spm ==>
      Inv(st.(open := st.open + [gap], log := st.log + [LoggedGap(st.Base(spm) + gap.position, gap)]),
          cells, capMinutes, spm)
  {
    hide CellsHold, GapsMatch, Cell, Minutes;
    if 0 <= gap.position < spm {
      RecordKeepsGaps(st, gap, spm, |cells|);
    }
  }

  lemma RecordKeepsGaps(st: RingState, gap: GapEvent, spm: nat, cap: nat)
    requires 0 < cap && GapsMatch(st, spm, cap) && 0 <= gap.position < spm
    ensures var logged := LoggedGap(st.Base(spm) + gap.position, gap);
      GapsMatch(st.(open := st.open + [gap], log := st.log + [logged]), spm, cap)
  {
    hide MarksLaid, Minutes, Cell, LogOfMarks, AllBelow;
    var grown := st.open + [gap];
    assert grown[..|st.open|] == st.open;
  }

  lemma RecordNeedsIndex(st: RingState, cells: seq<Sample>, gap: GapEvent, capMinutes: nat, spm: nat)
    ensures var st' := st.(open := st.open + [gap], log := st.log + [LoggedGap(st.Base(spm) + gap.position, gap)]);
      Inv(st', cells, capMinutes, spm) ==> 0 <= gap.position < spm
  {
    hide CellsHold, CountsMatch, LogSplits, MarksLaid, AllBelow, LogOf, Minutes;
    assert gap in st.open + [gap];
  }

  /** The state after closing a minute: the open gap list becomes a mark, a full deque drops its oldest. */
  ghost function Closed(st: RingState, m: MinuteMark, capMinutes: nat): RingState
    requires |st.marks| <= capMinutes && 0 < capMinutes
  {
    var full := |st.marks| == capMinutes;
    st.(startPos := st.writePos, minuteCount := 0, open := [], marks := Push(st.marks, m, capMinutes),
        gone := if full then st.gone + 1 else st.gone,
        evicted := if full then st.evicted + LogOf(st.marks[0].absoluteIndex, st.marks[0].gaps) else st.evicted)
  }

  lemma CloseKeepsInv(st: RingState, cells: seq<Sample>, m: MinuteMark, capMinutes: nat, spm: nat)
    requires Inv(st, cells, capMinutes, spm)
    requires st.minuteCount == spm
    requires m.absoluteIndex == st.count - spm && m.ringPosition == st.startPos && m.gaps == st.open
    ensures Inv(Closed(st, m, capMinutes), cells, capMinutes, spm)
  {
    var st' := Closed(st, m, capMinutes);
    CloseKeepsCounts(st, m, capMinutes, spm, |cells|);
    CloseKeepsGaps(st, m, capMinutes, spm, |cells|);
    hide CellsHold, GapsMatch;
  }

  lemma CloseNeedsFullMinute(st: RingState, cells: seq<Sample>, m: MinuteMark, capMinutes: nat, spm: nat)
    requires Inv(st, cells, capMinutes, spm)
    ensures |st.marks| <= capMinutes && 0 < capMinutes
    ensures Inv(Closed(st, m, capMinutes), cells, capMinutes, spm) ==> st.minuteCount == spm
  {
    hide CellsHold, GapsMatch, Cell, LogOf;
    assert Closed(st, m, capMinutes).gone + |Closed(st, m, capMinutes).marks| == st.gone + |st.marks| + 1;
  }

  lemma CloseKeepsCounts(st: RingState, m: MinuteMark, capMinutes: nat, spm: nat, cap: nat)
    requires Sized(capMinutes, spm, cap) && CountsMatch(st, capMinutes, spm, cap)
    requires st.minuteCount == spm
    ensures CountsMatch(Closed(st, m, capMinutes), capMinutes, spm, cap)
    ensures Closed(st, m, capMinutes).Base(spm) == st.Base(spm) + spm
  {
    var st' := Closed(st, m, capMinutes);
    assert st'.gone + |st'.marks| == st.gone + |st.marks| + 1;
    hide Cell, LogOf;
  }

  lemma CloseKeepsGaps(st: RingState, m: MinuteMark, capMinutes: nat, spm: nat, cap: nat)
    requires Sized(capMinutes, spm, cap) && CountsMatch(st, capMinutes, spm, cap) && GapsMatch(st, spm, cap)
    requires st.minuteCount == spm
    requires m.absoluteIndex == st.count - spm && m.ringPosition == st.startPos && m.gaps == st.open
    ensures GapsMatch(Closed(st, m, capMinutes), spm, cap)
  {
    hide MarksLaid, Minutes, Cell, LogOf, LogSplits, GapsInMinute;
    var st' := Closed(st, m, capMinutes);
    CloseKeepsCounts(st, m, capMinutes, spm, cap);
    assert MarkAt(m, st.gone + |st.marks|, spm, cap);
    hide MarkAt;
    PushLaid(st.marks, m, st.gone, spm, cap);
    CloseKeepsLog(st.log, st.evicted, st.marks, m, st'.Base(spm));
    assert GapsInMinute([], spm) by { NoGaps(spm); }
    if |st.marks| == capMinutes {
      EvictedBelow(st.evicted, LogOf(st.marks[0].absoluteIndex, st.marks[0].gaps), st.gone, spm);
    }
  }

  lemma EvictedBelow(evicted: seq<LoggedGap>, more: seq<LoggedGap>, gone: nat, spm: nat)
    requires AllBelow(evicted, Minutes(gone, spm)) && AllBelow(more, Minutes(gone + 1, spm))
    ensures AllBelow(evicted + more, Minutes(gone + 1, spm))
  {
  }

  lemma NoGaps(spm: nat)
    ensures GapsInMinute([], spm)
  {
  }

  /** Appending the next mark keeps the deque laid out, and dropping the oldest evicts only older gaps. */
  lemma PushLaid(marks: seq<MinuteMark>, m: MinuteMark, first: nat, spm: nat, cap: nat)
    requires 0 < cap && MarksLaid(marks, first, spm, cap) && MarkAt(m, first + |marks|, spm, cap)
    ensures MarksLaid(marks + [m], first, spm, cap)
    ensures marks != [] ==>
      && MarksLaid(marks[1..] + [m], first + 1, spm, cap)
      && AllBelow(LogOf(marks[0].absoluteIndex, marks[0].gaps), Minutes(first + 1, spm))
  {
    if marks != [] {
      assert MarkAt(marks[0], first, spm, cap);
      LogOfBounds(marks[0].absoluteIndex, marks[0].gaps, spm);
      forall k | 0 <= k < |marks| ensures MarkAt((marks[1..] + [m])[k], first + 1 + k, spm, cap) {
        if k + 1 < |marks| {
          assert MarkAt(marks[k + 1], first + (k + 1), spm, cap);
        }
      }
    }
  }

  /** The gaps of any window that is still resident come from the retained lists. */
  lemma WindowGaps(st: RingState, cells: seq<Sample>, capMinutes: nat, spm: nat, lo: nat, hi: int)
    requires Inv(st, cells, capMinutes, spm)
    requires Oldest(|st.history|, |cells|) <= lo
    ensures GapsWithin(st.log, lo, hi) ==
            GapsWithin(LogOfMarks(st.marks) + LogOf(st.Base(spm), st.open), lo, hi)
  {
    if |st.marks| == capMinutes {
      MinutesAdd(st.gone, capMinutes, spm);
    }
    OnlyRetainedMatter(st.log, st.evicted, st.marks, st.Base(spm), st.open, lo, hi);
    GapsWithinAppend(LogOfMarks(st.marks), LogOf(st.Base(spm), st.open), lo, hi);
  }

  /** Where the last k closed minutes lie. */
  lemma SliceBounds(st: RingState, cells: seq<Sample>, capMinutes: nat, spm: nat, k: nat)
    requires Inv(st, cells, capMinutes, spm)
    requires 0 < k <= |st.marks|
    ensures Minutes(st.gone + (|st.marks| - k), spm) + Minutes(k, spm) + st.minuteCount == |st.history|
    ensures 0 < Minutes(k, spm) <= |cells|
  {
    MinutesAdd(st.gone + (|st.marks| - k), k, spm);
    MinutesAdd(k, capMinutes - k, spm);
    MinutesAdd(1, k - 1, spm);
  }

  /** The samples of the last k closed minutes, copied from the ring position of the oldest with no residency check. */
  lemma SliceSamples(st: RingState, cells: seq<Sample>, capMinutes: nat, spm: nat, k: nat)
    requires Inv(st, cells, capMinutes, spm)
    requires 0 < k <= |st.marks|
    ensures var n := Minutes(k, spm);
      var lo := |st.history| - st.minuteCount - n;
      && 0 < n <= |cells| && 0 <= lo
      && st.marks[|st.marks| - k].ringPosition == Cell(lo, |cells|)
      && ReadsFrom(CopyOut(cells, Cell(lo, |cells|), n), st.history, |cells|, lo)
  {
    hide Minutes, Cell, CellsHold, ReadsFrom, CopyOut, LogSplits, AllBelow, GapsInMinute;
    SliceBounds(st, cells, capMinutes, spm, k);
    var first := st.gone + (|st.marks| - k);
    assert MarkAt(st.marks[|st.marks| - k], first, spm, |cells|);
    var lo := |st.history| - st.minuteCount - Minutes(k, spm);
    CopyOutReads(cells, st.history, lo, Minutes(k, spm));
  }

  /** The merged gap lists of the last k marks are exactly the gaps logged in those minutes. */
  lemma SliceGapsOf(st: RingState, cells: seq<Sample>, capMinutes: nat, spm: nat, k: nat)
    requires Inv(st, cells, capMinutes, spm)
    requires 0 < k <= |st.marks|
    ensures var hi := |st.history| - st.minuteCount;
      MergedGaps(st.marks[|st.marks| - k..], spm) == GapsWithin(st.log, hi - Minutes(k, spm), hi)
  {
    hide Minutes, Cell, CellsHold, MarksLaid, LogSplits, AllBelow, GapsInMinute, GapsWithin, MergedGaps;
    SliceBounds(st, cells, capMinutes, spm, k);
    SliceGaps(st.log, st.evicted, st.marks, st.open, st.gone, k, spm, |cells|);
  }
}
