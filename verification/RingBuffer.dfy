/**
 * The circular sample buffer of one band (wspr_recorder/ring_buffer.py).  Ghost
 * fields keep the unbounded history; every method says what it does to that
 * history, and the two extraction paths are answered from it.
 */
module Ring {
  import opened Audio
  import opened History
  import opened Modular
  import opened RingModel
  import Rtp

  /** extract_slice's answer; the two failures are the exceptions it raises. */
  datatype Slice =
    | Slice(samples: seq<Sample>, gaps: seq<GapEvent>, wallclock: real, rtpTimestamp: int)
    | NotEnoughMinutes
    | NoMinutesAtAll

  class RingBuffer {
    const capacityMinutes: nat
    const samplesPerMinute: nat
    const capacity: nat
    const cells: array<Sample>

    var writePos: nat
    var absoluteCount: nat
    var minuteStartPos: nat
    var minuteCount: nat
    var minuteGaps: seq<GapEvent>
    var marks: seq<MinuteMark>

    /** Every sample written since the last clear. */
    ghost var history: seq<Sample>
    /** Every gap recorded since the last clear, at its absolute offset. */
    ghost var gapLog: seq<LoggedGap>
    /** The part of gapLog whose minute marks have left the bounded deque. */
    ghost var evicted: seq<LoggedGap>
    /** Minutes closed since the last clear that have left the deque. */
    ghost var gone: nat

    ghost function State(): RingState
      reads this
    {
      RingState(writePos, absoluteCount, minuteStartPos, minuteCount, minuteGaps, marks, history, gapLog, evicted, gone)
    }

    ghost predicate Valid()
      reads this, cells
    {
      && cells.Length == capacity
      && Inv(State(), cells[..], capacityMinutes, samplesPerMinute)
    }

    constructor (capacitySeconds: int, sampleRate: nat)
      requires 0 < sampleRate
      ensures Valid() && fresh(cells)
      ensures history == [] && gapLog == [] && marks == [] && minuteCount == 0
      ensures samplesPerMinute == sampleRate * 60
      ensures capacitySeconds <= 60 * capacityMinutes
      ensures capacityMinutes == 2 || 60 * (capacityMinutes - 1) < capacitySeconds
    {
      var minutes := -((-capacitySeconds) / 60);
      var m := if minutes < 2 then 2 else minutes;
      var spm := sampleRate * 60;
      var cap := m * spm;
      MinutesIsProduct(m, spm);
      MinutesAdd(2, m - 2, spm);
      assert Minutes(2, spm) == 2 * spm;
      capacityMinutes, samplesPerMinute, capacity := m, spm, cap;
      cells := new Sample[cap](_ => SILENCE);
      writePos, absoluteCount, minuteStartPos, minuteCount := 0, 0, 0, 0;
      minuteGaps, marks := [], [];
      history, gapLog, evicted, gone := [], [], [], 0;
    }

    /** `self._samples[pos:pos + len(chunk)] = chunk`. */
    method Store(pos: nat, chunk: seq<Sample>)
      requires pos + |chunk| <= cells.Length
      modifies cells
      ensures forall i :: 0 <= i < cells.Length ==>
        cells[i] == if pos <= i < pos + |chunk| then chunk[i - pos] else old(cells[i])
    {
      forall i | pos <= i < pos + |chunk| {
        cells[i] := chunk[i - pos];
      }
    }

    /** The slice assignments of one batch, wrapping at the end of the array. */
    method StoreWrapped(wp: nat, samples: seq<Sample>)
      requires wp < cells.Length && wp + |samples| <= 2 * cells.Length
      modifies cells
      ensures forall c :: 0 <= c < cells.Length ==> cells[c] == WrittenAt(old(cells[..]), wp, samples, c)
    {
      if wp + |samples| <= cells.Length {
        Store(wp, samples);
      } else {
        var firstChunk := cells.Length - wp;
        Store(wp, samples[..firstChunk]);
        Store(0, samples[firstChunk..]);
      }
    }

    /**
     * Append a batch.  A batch longer than the rest of this lap plus one full lap
     * is refused by numpy's slice assignment; the recorder never writes more than
     * one minute.
     */
    method WriteSamples(samples: seq<Sample>)
      requires Valid()
      requires writePos + |samples| <= 2 * capacity
      modifies this, cells
      ensures Valid()
      ensures gapLog == old(gapLog) && marks == old(marks)
      ensures history == old(history) + samples
      ensures minuteCount == old(minuteCount) + |samples|
    {
      var n := |samples|;
      hide Inv, Cell, CellsHold, Minutes, GapsWithin, CopyOut, WrittenAt, LogOfMarks, LogOf, MergedGaps, ReadsFrom;
      InvFacts(State(), cells[..], capacityMinutes, samplesPerMinute);
      if n == 0 {
        assert history + samples == history;
        return;
      }
      var endPos := writePos + n;
      ghost var was := cells[..];
      StoreWrapped(writePos, samples);
      WriteKeepsInv(State(), was, cells[..], samples, capacityMinutes, samplesPerMinute);
      writePos := endPos % capacity;
      absoluteCount := absoluteCount + n;
      minuteCount := minuteCount + n;
      history := history + samples;
    }

    method WriteZeros(count: int)
      requires Valid()
      requires writePos + count <= 2 * capacity
      modifies this, cells
      ensures Valid()
      ensures gapLog == old(gapLog) && marks == old(marks)
      ensures history == old(history) + if count <= 0 then [] else seq(count, _ => SILENCE)
      ensures minuteCount == old(minuteCount) + if count <= 0 then 0 else count
    {
      if count <= 0 {
        assert history + [] == history;
        return;
      }
      WriteSamples(seq(count, _ => SILENCE));
    }

    /**
     * Attach a gap to the open minute.  The ring goes on standing for its history and gap
     * log exactly when the position is an index into a minute.
     */
    method RecordGap(gap: GapEvent)
      requires Valid()
      modifies this
      ensures Valid() <==> 0 <= gap.position < samplesPerMinute
      ensures history == old(history) && minuteCount == old(minuteCount) && marks == old(marks)
      ensures minuteGaps == old(minuteGaps) + [gap]
      ensures gapLog == old(gapLog) + [LoggedGap(|history| - minuteCount + gap.position, gap)]
    {
      hide Inv, Cell, CellsHold, Minutes, GapsWithin, CopyOut, WrittenAt, LogOfMarks, LogOf, MergedGaps, ReadsFrom;
      InvFacts(State(), cells[..], capacityMinutes, samplesPerMinute);
      RecordKeepsInv(State(), cells[..], gap, capacityMinutes, samplesPerMinute);
      RecordNeedsIndex(State(), cells[..], gap, capacityMinutes, samplesPerMinute);
      gapLog := gapLog + [LoggedGap(State().Base(samplesPerMinute) + gap.position, gap)];
      minuteGaps := minuteGaps + [gap];
    }

    /** Forget everything; the array is kept. */
    method Clear()
      requires Valid()
      modifies this, cells
      ensures Valid()
      ensures history == [] && gapLog == [] && marks == [] && minuteCount == 0
    {
      hide Inv, Cell, CellsHold, Minutes, GapsWithin, CopyOut, WrittenAt, LogOfMarks, LogOf, MergedGaps, ReadsFrom;
      InvFacts(State(), cells[..], capacityMinutes, samplesPerMinute);
      forall i | 0 <= i < cells.Length {
        cells[i] := SILENCE;
      }
      writePos, absoluteCount, minuteStartPos, minuteCount := 0, 0, 0, 0;
      minuteGaps, marks := [], [];
      history, gapLog, evicted, gone := [], [], [], 0;
      EmptyInv(cells[..], capacityMinutes, samplesPerMinute);
    }

    /**
     * Close the open minute: the history is untouched, the deque drops its oldest mark
     * when full.  The ring goes on standing for it exactly when the minute was full.
     */
    method CloseMinute(wallclock: real, rtpTimestamp: int)
      requires Valid()
      modifies this
      ensures Valid() <==> old(minuteCount) == samplesPerMinute
      ensures history == old(history) && gapLog == old(gapLog)
      ensures minuteCount == 0 && minuteGaps == []
      ensures gone + |marks| == old(gone + |marks|) + 1
      ensures marks != []
      ensures var m := marks[|marks| - 1];
        && m.wallclock == wallclock - 60.0 && m.rtpTimestamp == Rtp.Wrap(rtpTimestamp - samplesPerMinute)
        && m.gaps == old(minuteGaps) && m.absoluteIndex == |history| - old(minuteCount)
    {
      hide Inv, Cell, CellsHold, Minutes, GapsWithin, CopyOut, WrittenAt, LogOfMarks, LogOf, MergedGaps, ReadsFrom;
      InvFacts(State(), cells[..], capacityMinutes, samplesPerMinute);
      var mark := MinuteMark(minuteStartPos, absoluteCount - minuteCount, wallclock - 60.0,
                             Rtp.Wrap(rtpTimestamp - samplesPerMinute), minuteGaps);
      CloseNeedsFullMinute(State(), cells[..], mark, capacityMinutes, samplesPerMinute);
      if minuteCount == samplesPerMinute {
        CloseKeepsInv(State(), cells[..], mark, capacityMinutes, samplesPerMinute);
      }
      if |marks| == capacityMinutes {
        evicted := evicted + LogOf(marks[0].absoluteIndex, marks[0].gaps);
        gone := gone + 1;
      }
      marks := Push(marks, mark, capacityMinutes);
      minuteStartPos := writePos;
      minuteCount := 0;
      minuteGaps := [];
    }

    /** Copy n cells from a ring position, across the seam if need be. */
    method Copy(start: nat, n: nat) returns (out: seq<Sample>)
      requires start < cells.Length && n <= cells.Length
      ensures out == CopyOut(cells[..], start, n)
    {
      if start + n <= cells.Length {
        out := cells[start..start + n];
      } else {
        var firstChunk := cells.Length - start;
        out := cells[start..] + cells[..n - firstChunk];
      }
    }

    /**
     * The window of n samples from an absolute offset: the exact history slice with
     * exactly the gaps recorded inside it, and nothing precisely when the window is
     * empty or not fully resident.
     */
    method ExtractByOffset(start: int, n: int) returns (r: Option<Window>)
      requires Valid()
      ensures r == Extracted(history, gapLog, capacity, start, n)
    {
      hide Inv, Cell, CellsHold, Minutes, GapsWithin, CopyOut, WrittenAt, LogOfMarks, LogOf, MergedGaps, ReadsFrom;
      InvFacts(State(), cells[..], capacityMinutes, samplesPerMinute);
      if n <= 0 {
        return None;
      }
      var endOffset := start + n;
      var oldest := if absoluteCount > capacity then absoluteCount - capacity else 0;
      if start < oldest || endOffset > absoluteCount {
        return None;
      }
      CellIsMod(start, capacity);
      var samples := Copy(start % capacity, n);
      CopyOutIsHistory(cells[..], history, start, n);
      var gaps := GapsInWindow(start, endOffset);
      r := Some(Window(samples, gaps));
    }

    /** The two nested loops over the gap lists of the marks and of the open minute. */
    method GapsInWindow(lo: nat, hi: nat) returns (gaps: seq<GapEvent>)
      requires Valid() && Oldest(|history|, capacity) <= lo
      ensures gaps == GapsWithin(gapLog, lo, hi)
    {
      hide Inv, Cell, CellsHold, Minutes, GapsWithin, CopyOut, WrittenAt, LogOf, MergedGaps, ReadsFrom;
      InvFacts(State(), cells[..], capacityMinutes, samplesPerMinute);
      gaps := [];
      GapsOutside([], lo, hi);
      assert marks[..0] == [];
      var m := 0;
      while m < |marks|
        invariant 0 <= m <= |marks|
        invariant gaps == GapsWithin(LogOfMarks(marks[..m]), lo, hi)
      {
        assert marks[..m + 1] == marks[..m] + [marks[m]];
        gaps := CollectGaps(marks[m].absoluteIndex, marks[m].gaps, lo, hi, gaps, LogOfMarks(marks[..m]));
        m := m + 1;
      }
      assert marks[..m] == marks;
      gaps := CollectGaps(absoluteCount - minuteCount, minuteGaps, lo, hi, gaps, LogOfMarks(marks));
      WindowGaps(State(), cells[..], capacityMinutes, samplesPerMinute, lo, hi);
    }

    /** The inner loop over one gap list, whose positions count from `base`. */
    method CollectGaps(base: int, source: seq<GapEvent>, lo: int, hi: int, acc: seq<GapEvent>,
                       ghost log: seq<LoggedGap>)
      returns (gaps: seq<GapEvent>)
      requires acc == GapsWithin(log, lo, hi)
      ensures gaps == GapsWithin(log + LogOf(base, source), lo, hi)
    {
      gaps := acc;
      var k := 0;
      assert log + LogOf(base, source[..0]) == log;
      while k < |source|
        invariant 0 <= k <= |source|
        invariant gaps == GapsWithin(log + LogOf(base, source[..k]), lo, hi)
      {
        var absPos := base + source[k].position;
        CollectStep(log, base, source, k, lo, hi);
        if lo <= absPos < hi {
          gaps := gaps + [source[k].(position := absPos - lo)];
        }
        k := k + 1;
      }
      assert source[..k] == source;
    }

    static lemma CollectStep(log: seq<LoggedGap>, base: int, source: seq<GapEvent>, k: nat, lo: int, hi: int)
      requires k < |source|
      ensures var g := LoggedGap(base + source[k].position, source[k]);
        GapsWithin(log + LogOf(base, source[..k + 1]), lo, hi) ==
        GapsWithin(log + LogOf(base, source[..k]), lo, hi) + if lo <= g.at < hi then [Rebase(g, lo)] else []
    {
      var g := LoggedGap(base + source[k].position, source[k]);
      assert source[..k + 1][..k] == source[..k];
      var before, after := log + LogOf(base, source[..k]), log + LogOf(base, source[..k + 1]);
      assert after == before + [g];
      assert after[..|before|] == before;
    }

    /** The k most recent closed minutes, gap lists included, read by position. */
    ghost predicate IsSlice(r: Slice, k: nat)
      requires k <= |marks| && minuteCount <= |history| && 0 < capacity
      reads this
    {
      var n := Minutes(k, samplesPerMinute);
      var hi := |history| - minuteCount;
      && r.Slice?
      && |r.samples| == n <= hi
      && ReadsFrom(r.samples, history, capacity, hi - n)
      && r.gaps == GapsWithin(gapLog, hi - n, hi)
      && (k > 0 ==> r.wallclock == marks[|marks| - k].wallclock && r.rtpTimestamp == marks[|marks| - k].rtpTimestamp)
    }

    /** All but the oldest `skipped` minutes by mark, and whatever a slice with no positive length reads. */
    ghost predicate IsOddSlice(r: Slice, skipped: nat)
      requires skipped < |marks|
      reads this, cells
    {
      var start := marks[skipped].ringPosition;
      && r.Slice?
      && r.samples == Sliced(cells[..], start, start - Minutes(skipped, samplesPerMinute))
      && r.gaps == MergedGaps(marks[skipped..], samplesPerMinute)
      && r.wallclock == marks[skipped].wallclock && r.rtpTimestamp == marks[skipped].rtpTimestamp
    }

    lemma SliceFacts()
      requires Valid()
      ensures minuteCount <= |history| && 0 < capacity == cells.Length
    {
    }

    /**
     * The most recent k closed minutes, by mark.  The copy takes no notice of how
     * far the open minute has already overwritten the oldest of them.  A count that is
     * not positive selects all but the oldest marks (Python's `marks[-k:]`).
     * `Minutes(k, spm)` is k * spm.
     */
    method ExtractSlice(numMinutes: int) returns (r: Slice)
      requires Valid()
      ensures minuteCount <= |history| && 0 < capacity
      ensures r.NotEnoughMinutes? <==> |marks| < numMinutes
      ensures r.NoMinutesAtAll? <==> numMinutes <= 0 && |marks| <= -numMinutes
      ensures 0 < numMinutes <= |marks| ==> IsSlice(r, numMinutes)
      ensures 0 <= -numMinutes < |marks| ==> IsOddSlice(r, -numMinutes)
    {
      hide Inv, Minutes, MergedGaps, IsSlice;
      SliceFacts();
      if |marks| < numMinutes {
        return NotEnoughMinutes;
      }
      if 0 < numMinutes {
        r := SliceFrom(marks[|marks| - numMinutes..], numMinutes);
        return;
      }
      if |marks| <= -numMinutes {
        return NoMinutesAtAll;
      }
      r := SliceAfter(marks[-numMinutes..], -numMinutes);
    }

    method SliceFrom(selected: seq<MinuteMark>, k: nat) returns (r: Slice)
      requires Valid()
      requires 0 < k <= |marks| && selected == marks[|marks| - k..]
      requires minuteCount <= |history| && 0 < capacity
      ensures r.Slice? && IsSlice(r, k)
    {
      hide Inv, Cell, CellsHold, Minutes, GapsWithin, CopyOut, WrittenAt, LogOfMarks, LogOf, MergedGaps, ReadsFrom;
      InvFacts(State(), cells[..], capacityMinutes, samplesPerMinute);
      SliceSamples(State(), cells[..], capacityMinutes, samplesPerMinute, k);
      SliceGapsOf(State(), cells[..], capacityMinutes, samplesPerMinute, k);
      var total := SamplesIn(k);
      var samples := Copy(selected[0].ringPosition, total);
      var gaps := Merge(selected);
      r := Slice(samples, gaps, selected[0].wallclock, selected[0].rtpTimestamp);
    }

    method SliceAfter(selected: seq<MinuteMark>, skipped: nat) returns (r: Slice)
      requires skipped < |marks| && selected == marks[skipped..] && cells.Length == capacity
      ensures IsOddSlice(r, skipped)
    {
      hide MergedGaps, Minutes;
      var start := selected[0].ringPosition;
      var back := SamplesIn(skipped);
      var fromRight := if start < back then start - back + capacity else start - back;
      var end := if fromRight > capacity then capacity else fromRight;
      var samples := if start < end then cells[start..end] else [];
      assert cells[..][..] == cells[..];
      var gaps := Merge(selected);
      r := Slice(samples, gaps, selected[0].wallclock, selected[0].rtpTimestamp);
    }

    method SamplesIn(minutes: nat) returns (n: nat)
      ensures n == Minutes(minutes, samplesPerMinute)
    {
      MinutesIsProduct(minutes, samplesPerMinute);
      n := minutes * samplesPerMinute;
    }

    /** Concatenate the gap lists, positions rebased minute by minute. */
    method Merge(selected: seq<MinuteMark>) returns (gaps: seq<GapEvent>)
      ensures gaps == MergedGaps(selected, samplesPerMinute)
    {
      gaps := [];
      var i := 0;
      while i < |selected|
        invariant 0 <= i <= |selected|
        invariant gaps == MergedGaps(selected[..i], samplesPerMinute)
      {
        var offset := SamplesIn(i);
        var source := selected[i].gaps;
        ghost var before := gaps;
        var k := 0;
        while k < |source|
          invariant 0 <= k <= |source|
          invariant gaps == before + Shifted(source[..k], offset)
        {
          assert source[..k + 1][..k] == source[..k];
          gaps := gaps + [source[k].(position := offset + source[k].position)];
          k := k + 1;
        }
        assert source[..k] == source;
        assert selected[..i + 1][..i] == selected[..i];
        i := i + 1;
      }
      assert selected[..i] == selected;
    }

    /**
     * The two extraction paths on one ring agree exactly as long as the chosen
     * minutes and the open minute fit in the ring together; past that point the
     * offset path refuses and the mark path still answers.
     */
    method ExtractBothWays(k: nat) returns (byMark: Slice, byOffset: Option<Window>)
      requires Valid() && 0 < k <= |marks|
      ensures byMark.Slice?
      ensures byOffset.Some? <==> Minutes(k, samplesPerMinute) + minuteCount <= capacity
      ensures byOffset.Some? ==> byMark.samples == byOffset.value.samples && byMark.gaps == byOffset.value.gaps
    {
      hide Inv, Cell, CellsHold, Minutes, GapsWithin, CopyOut, WrittenAt, LogOfMarks, LogOf, MergedGaps, ReadsFrom;
      InvFacts(State(), cells[..], capacityMinutes, samplesPerMinute);
      byMark := ExtractSlice(k);
      var n := SamplesIn(k);
      SliceBounds(State(), cells[..], capacityMinutes, samplesPerMinute, k);
      var lo := absoluteCount - minuteCount - n;
      byOffset := ExtractByOffset(lo, n);
      if byOffset.Some? {
        ReadsFromIsHistory(byMark.samples, history, capacity, lo);
      }
    }
  }
}
