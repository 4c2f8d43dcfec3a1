/** Values that travel with the audio. */
module Audio {

  type Byte = b: int | 0 <= b < 256

  /** One float32 sample, kept as its four stored bytes: nothing in the capture path computes on it. */
  datatype Sample = Sample(b0: Byte, b1: Byte, b2: Byte, b3: Byte)

  const SILENCE: Sample := Sample(0, 0, 0, 0)

  /** A gap in the stream; `position` counts samples from the start of whatever buffer holds the event. */
  datatype GapEvent = GapEvent(position: int, duration: int, seqBefore: int, seqAfter: int, timestampUtc: string)

  datatype Option<+T> = None | Some(value: T) {
    function GetOr(default: T): (t: T)
      ensures if Some? then t == value else t == default
    {
      match this
      case Some(v) => v
      case None => default
    }
  }
}

/**
 * The unbounded history a ring buffer stands for: every sample written since the
 * last clear, and every gap with its absolute offset.  Windows are cut from it
 * without any notion of wrap-around, minutes or eviction of gap lists.
 */
module History {
  import opened Audio

  datatype LoggedGap = LoggedGap(at: int, gap: GapEvent)

  datatype Window = Window(samples: seq<Sample>, gaps: seq<GapEvent>)

  function Rebase(g: LoggedGap, lo: int): GapEvent { g.gap.(position := g.at - lo) }

  /** The logged gaps that fall in [lo, hi), in recording order, positions counted from lo. */
  function GapsWithin(log: seq<LoggedGap>, lo: int, hi: int): seq<GapEvent>
  {
    if log == [] then []
    else
      var last := log[|log| - 1];
      GapsWithin(log[..|log| - 1], lo, hi) + if lo <= last.at < hi then [Rebase(last, lo)] else []
  }

  lemma {:induction false} GapsWithinAppend(a: seq<LoggedGap>, b: seq<LoggedGap>, lo: int, hi: int)
    ensures GapsWithin(a + b, lo, hi) == GapsWithin(a, lo, hi) + GapsWithin(b, lo, hi)
    decreases |b|
  {
    if b == [] {
      assert a + b == a;
    } else {
      var ab := a + b;
      assert ab[..|ab| - 1] == a + b[..|b| - 1];
      assert ab[|ab| - 1] == b[|b| - 1];
      GapsWithinAppend(a, b[..|b| - 1], lo, hi);
    }
  }

  /** These are the entries ks of the log: all that lie in the window, in order, at their distance from its start. */
  ghost predicate Picked(log: seq<LoggedGap>, lo: int, hi: int, ks: seq<nat>, gaps: seq<GapEvent>)
  {
    && |ks| == |gaps|
    && (forall i, j :: 0 <= i < j < |ks| ==> ks[i] < ks[j])
    && (forall k: nat :: k in ks <==> k < |log| && lo <= log[k].at < hi)
    && forall i :: 0 <= i < |ks| ==> ks[i] < |log| && PickedAt(log[ks[i]], lo, gaps[i])
  }

  predicate PickedAt(g: LoggedGap, lo: int, gap: GapEvent)
  {
    && gap.position == g.at - lo && gap.duration == g.gap.duration && gap.timestampUtc == g.gap.timestampUtc
    && gap.seqBefore == g.gap.seqBefore && gap.seqAfter == g.gap.seqAfter
  }

  lemma {:induction false} GapsWithinAre(log: seq<LoggedGap>, lo: int, hi: int) returns (ks: seq<nat>)
    ensures Picked(log, lo, hi, ks, GapsWithin(log, lo, hi))
    decreases |log|
  {
    ks := [];
    if log != [] {
      var k := |log| - 1;
      ks := GapsWithinAre(log[..k], lo, hi);
      ks := PickLast(log, lo, hi, ks, GapsWithin(log[..k], lo, hi));
    }
  }

  lemma PickLast(log: seq<LoggedGap>, lo: int, hi: int, ks: seq<nat>, gaps: seq<GapEvent>) returns (ks': seq<nat>)
    requires log != [] && Picked(log[..|log| - 1], lo, hi, ks, gaps)
    ensures var last := log[|log| - 1];
      Picked(log, lo, hi, ks', gaps + if lo <= last.at < hi then [Rebase(last, lo)] else [])
  {
    hide GapsWithin, PickedAt;
    var k := |log| - 1;
    if lo <= log[k].at < hi {
      ks' := ks + [k];
      assert PickedAt(log[k], lo, Rebase(log[k], lo)) by { RebaseIs(log[k], lo); }
      assert forall j: nat :: j in ks' <==> j in ks || j == k;
    } else {
      ks' := ks;
      assert gaps + [] == gaps;
    }
  }

  lemma RebaseIs(g: LoggedGap, lo: int)
    ensures PickedAt(g, lo, Rebase(g, lo))
  {
  }

  lemma {:induction false} GapsOutside(log: seq<LoggedGap>, lo: int, hi: int)
    requires forall g <- log :: g.at < lo || hi <= g.at
    ensures GapsWithin(log, lo, hi) == []
    decreases |log|
  {
    if log != [] {
      GapsOutside(log[..|log| - 1], lo, hi);
    }
  }

  /** The oldest offset still held by a ring of `cap` cells. */
  function Oldest(count: nat, cap: nat): nat { if count > cap then count - cap else 0 }

  predicate Resident(count: nat, cap: nat, start: int, n: int)
  {
    n > 0 && Oldest(count, cap) <= start && start + n <= count
  }

  /** What a window request must return: the exact history slice, or nothing. */
  function Extracted(h: seq<Sample>, log: seq<LoggedGap>, cap: nat, start: int, n: int): Option<Window>
  {
    if Resident(|h|, cap, start, n)
    then Some(Window(h[start..start + n], GapsWithin(log, start, start + n)))
    else None
  }

  /**
   * A later history: more samples, and more gaps, none of them before the old
   * leading edge.
   */
  predicate Extends(h: seq<Sample>, log: seq<LoggedGap>, h': seq<Sample>, log': seq<LoggedGap>)
  {
    && h <= h'
    && log <= log'
    && forall i :: |log| <= i < |log'| ==> |h| <= log'[i].at
  }

  lemma ExtendsTransitive(h0: seq<Sample>, l0: seq<LoggedGap>, h1: seq<Sample>, l1: seq<LoggedGap>,
                          h2: seq<Sample>, l2: seq<LoggedGap>)
    requires Extends(h0, l0, h1, l1) && Extends(h1, l1, h2, l2)
    ensures Extends(h0, l0, h2, l2)
  {
    forall i | |l0| <= i < |l2| ensures |h0| <= l2[i].at {
      if i < |l1| {
        assert l2[i] == l1[i];
      }
    }
  }

  /**
   * A window that had fully arrived reads the same, samples and gaps, at every
   * later moment; it is lost exactly when the leading edge has moved more than
   * one capacity past its start.
   */
  lemma WindowIsStable(h: seq<Sample>, log: seq<LoggedGap>, h': seq<Sample>, log': seq<LoggedGap>,
                       cap: nat, start: nat, n: nat)
    requires 0 < n && start + n <= |h|
    requires Extends(h, log, h', log')
    ensures Extracted(h', log', cap, start, n) ==
            if |h'| <= start + cap
            then Some(Window(h[start..start + n], GapsWithin(log, start, start + n)))
            else None
  {
    if |h'| <= start + cap {
      assert h'[start..start + n] == h[start..start + n];
      var later := log'[|log|..];
      assert log' == log + later;
      forall g | g in later ensures |h| <= g.at {
        var i :| 0 <= i < |later| && later[i] == g;
        assert log'[|log| + i] == g;
      }
      GapsWithinAppend(log, later, start, start + n);
      GapsOutside(later, start, start + n);
      assert GapsWithin(log', start, start + n) == GapsWithin(log, start, start + n);
    }
  }
}
