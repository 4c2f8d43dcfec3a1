/** Decode requests: what a harvest hands to the decode pipeline. */
module Requests {
  import opened Audio
  import opened History
  import opened Modes
  import opened Slots
  import Ring
  import Rtp

  /** Samples copied at emission, or a closure over the ring that will copy them later. */
  datatype AudioSource = Eager(window: Window) | Deferred(ring: Ring.RingBuffer, offset: nat, count: nat)

  datatype DecodeRequest = DecodeRequest(
    modes: seq<DecodeMode>,
    periodSeconds: int,
    startWallclock: int,
    startRtp: Rtp.Timestamp,
    endRtp: Rtp.Timestamp,
    audio: AudioSource)

  datatype Drop = Drop(periodSeconds: int, cycleStart: int)

  /** Slot starts of the requests of one period, in order. */
  function StartsOf(rs: seq<DecodeRequest>, p: int): seq<int>
  {
    if rs == [] then []
    else
      var last := rs[|rs| - 1];
      StartsOf(rs[..|rs| - 1], p) + if last.periodSeconds == p then [last.startWallclock] else []
  }

  function DropStartsOf(ds: seq<Drop>, p: int): seq<int>
  {
    if ds == [] then []
    else
      var last := ds[|ds| - 1];
      DropStartsOf(ds[..|ds| - 1], p) + if last.periodSeconds == p then [last.cycleStart] else []
  }

  lemma {:induction false} StartsOfAppend(a: seq<DecodeRequest>, b: seq<DecodeRequest>, p: int)
    ensures StartsOf(a + b, p) == StartsOf(a, p) + StartsOf(b, p)
    decreases |b|
  {
    if b == [] {
      assert a + b == a;
    } else {
      assert (a + b)[..|a + b| - 1] == a + b[..|b| - 1];
      StartsOfAppend(a, b[..|b| - 1], p);
    }
  }

  lemma {:induction false} DropStartsOfAppend(a: seq<Drop>, b: seq<Drop>, p: int)
    ensures DropStartsOf(a + b, p) == DropStartsOf(a, p) + DropStartsOf(b, p)
    decreases |b|
  {
    if b == [] {
      assert a + b == a;
    } else {
      assert (a + b)[..|a + b| - 1] == a + b[..|b| - 1];
      DropStartsOfAppend(a, b[..|b| - 1], p);
    }
  }

  lemma {:induction false} StartsOfOther(rs: seq<DecodeRequest>, xs: seq<Drop>, q: int)
    requires forall r <- rs :: r.periodSeconds != q
    requires forall x <- xs :: x.periodSeconds != q
    ensures StartsOf(rs, q) == [] && DropStartsOf(xs, q) == []
    decreases |rs|, |xs|
  {
    if rs != [] {
      StartsOfOther(rs[..|rs| - 1], xs, q);
    } else if xs != [] {
      StartsOfOther(rs, xs[..|xs| - 1], q);
    }
  }

  /**
   * The request names the window its label calls for: offset, RTP times and audio
   * all follow from the slot start and the anchor in force.
   */
  ghost predicate RightWindow(r: DecodeRequest, h: seq<Sample>, log: seq<LoggedGap>, ring: Ring.RingBuffer,
                              firstRtp: Rtp.Timestamp, rate: nat, anchor: real)
  {
    var off, n := Offset(r.startWallclock, anchor, rate), WindowSamples(r.periodSeconds, rate);
    && 0 <= off && 0 < n && off + n <= |h|
    && r.startRtp == Rtp.Wrap(firstRtp + off)
    && r.endRtp == Rtp.Wrap(r.startRtp + n)
    && r.audio == if IsDeferred(r.periodSeconds) then Deferred(ring, off, n)
                  else Eager(Window(h[off..off + n], GapsWithin(log, off, off + n)))
  }

  /** A right window stays right as the stream goes on. */
  lemma RightWindowPersists(r: DecodeRequest, h: seq<Sample>, log: seq<LoggedGap>, h': seq<Sample>,
                            log': seq<LoggedGap>, ring: Ring.RingBuffer, firstRtp: Rtp.Timestamp, rate: nat,
                            anchor: real)
    requires RightWindow(r, h, log, ring, firstRtp, rate, anchor)
    requires Extends(h, log, h', log')
    ensures RightWindow(r, h', log', ring, firstRtp, rate, anchor)
  {
    hide Offset, WindowSamples, GapsWithin, Rtp.Wrap;
    var off, n := Offset(r.startWallclock, anchor, rate), WindowSamples(r.periodSeconds, rate);
    WindowIsStable(h, log, h', log', off + |h'|, off, n);
    assert Extracted(h', log', off + |h'|, off, n) == Some(Window(h'[off..off + n], GapsWithin(log', off, off + n)));
  }
}
