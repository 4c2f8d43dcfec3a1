/**
 * Minute boundaries from 32-bit RTP time (RtpSyncStrategy in
 * wspr_recorder/sync_strategy.py).  The UTC instant of the first packet comes from
 * outside and is a parameter, in microseconds.
 */
module Sync {
  import opened Audio
  import opened Rounding
  import opened Rtp

  const MICROS: int := 1_000_000

  datatype SyncDecision = SyncDecision(startWallclock: int, startRtp: Timestamp, sampleOffset: nat)

  /** The signed step from one raw timestamp to the next; more than half the circle counts as backward. */
  function Delta(last: Timestamp, ts: Timestamp): (d: int)
    ensures -HALF < d <= HALF
    ensures Wrap(last + d) == ts
  {
    var d := Wrap(ts - last);
    if d > HALF then d - WRAP else d
  }

  /** Within that range the step is determined by the two timestamps. */
  lemma DeltaUnique(last: Timestamp, d: int)
    requires -HALF < d <= HALF
    ensures Delta(last, Wrap(last + d)) == d
  {
  }

  // ------------------------------------------------- whole packet sequences

  function Sum(lens: seq<nat>): nat
  {
    if lens == [] then 0 else Sum(lens[..|lens| - 1]) + lens[|lens| - 1]
  }

  lemma {:induction false} SumMonotone(lens: seq<nat>, i: nat, j: nat)
    requires i <= j <= |lens|
    ensures Sum(lens[..i]) <= Sum(lens[..j])
    decreases j
  {
    if i < j {
      assert lens[..j][..j - 1] == lens[..j - 1];
      SumMonotone(lens, i, j - 1);
    }
  }

  /** The unwrapped value after a run of raw timestamps. */
  function Unwrapped(raws: seq<Timestamp>): int
    requires raws != []
  {
    var k := |raws| - 1;
    if k == 0 then raws[0] else Unwrapped(raws[..k]) + Delta(raws[k - 1], raws[k])
  }

  /** Packets laid end to end: each timestamp is the first one plus the samples before it, mod 2^32. */
  ghost predicate Contiguous(raws: seq<Timestamp>, lens: seq<nat>)
  {
    && |raws| == |lens|
    && (forall k :: 0 <= k < |lens| ==> lens[k] <= HALF)
    && forall k :: 0 <= k < |raws| ==> raws[k] == Wrap(raws[0] + Sum(lens[..k]))
  }

  lemma ContiguousPrefix(raws: seq<Timestamp>, lens: seq<nat>, k: nat)
    requires Contiguous(raws, lens) && 0 < k <= |raws|
    ensures Contiguous(raws[..k], lens[..k])
  {
    hide Wrap, Sum;
    forall i | 0 <= i < k ensures raws[..k][i] == Wrap(raws[..k][0] + Sum(lens[..k][..i])) {
      assert lens[..k][..i] == lens[..i];
    }
  }

  /** Across any number of wraps the unwrapped value is the first timestamp plus the samples so far. */
  lemma {:induction false} UnwrapCountsSamples(raws: seq<Timestamp>, lens: seq<nat>)
    requires raws != [] && Contiguous(raws, lens)
    ensures Unwrapped(raws) == raws[0] + Sum(lens[..|lens| - 1])
    decreases |raws|
  {
    hide Wrap, Delta;
    var k := |raws| - 1;
    if k > 0 {
      ContiguousPrefix(raws, lens, k);
      UnwrapCountsSamples(raws[..k], lens[..k]);
      var before := Sum(lens[..k - 1]);
      assert lens[..k][..k - 1] == lens[..k - 1];
      assert raws[k - 1] == Wrap(raws[0] + before);
      assert raws[k] == Wrap(raws[0] + before + lens[k - 1]);
      WrapAdd(raws[0] + before, lens[k - 1]);
      DeltaUnique(raws[k - 1], lens[k - 1]);
    } else {
      assert lens[..0] == [];
    }
  }

  /** Packet k spans the boundary that lies `until` samples after the first packet's first sample. */
  predicate Spans(lens: seq<nat>, until: nat, k: nat)
    requires k < |lens|
  {
    Sum(lens[..k]) <= until < Sum(lens[..k + 1])
  }

  /** A boundary the stream has run past is spanned by exactly one packet. */
  lemma {:induction false} ExactlyOneSpans(lens: seq<nat>, until: nat) returns (k: nat)
    requires until < Sum(lens)
    ensures k < |lens| && Spans(lens, until, k)
    ensures forall j :: 0 <= j < |lens| && Spans(lens, until, j) ==> j == k
    decreases |lens|
  {
    var n := |lens| - 1;
    assert lens[..n + 1] == lens;
    if Sum(lens[..n]) <= until {
      k := n;
    } else {
      k := ExactlyOneSpans(lens[..n], until);
      assert lens[..n][..k] == lens[..k] && lens[..n][..k + 1] == lens[..k + 1];
    }
    forall j | 0 <= j < |lens| && Spans(lens, until, j) ensures j == k {
      if j < k {
        SumMonotone(lens, j + 1, k);
      } else if k < j {
        SumMonotone(lens, k + 1, j);
      }
    }
  }

  // --------------------------------------------------------- the correlation

  /** The minute at or after an instant, and the samples until it. */
  function NextMinute(referenceMicros: int): int
  {
    var past := referenceMicros % (60 * MICROS);
    (referenceMicros - past) / MICROS + if past > 0 then 60 else 0
  }

  function SecondsUntil(referenceMicros: int): real
  {
    var past := (referenceMicros % (60 * MICROS)) as real / MICROS as real;
    if past > 0.0 then 60.0 - past else 0.0
  }

  function SamplesUntil(referenceMicros: int, sampleRate: nat): int
  {
    ToSamples(SecondsUntil(referenceMicros), sampleRate)
  }

  /** The instant `seconds`, counted in sample periods from `referenceMicros`. */
  function PeriodsTo(seconds: int, referenceMicros: int, sampleRate: nat): real
  {
    var apart := (seconds * MICROS - referenceMicros) as real / MICROS as real;
    apart * sampleRate as real
  }

  /** The labelled minute is the first at or after the instant, `SecondsUntil` away. */
  lemma NextMinuteIsNext(referenceMicros: int)
    ensures var m := NextMinute(referenceMicros);
      && m % 60 == 0
      && 0 <= m * MICROS - referenceMicros < 60 * MICROS
      && SecondsUntil(referenceMicros) == (m * MICROS - referenceMicros) as real / MICROS as real
  {
    var past := referenceMicros % (60 * MICROS);
    var minutes := referenceMicros / (60 * MICROS);
    assert referenceMicros == minutes * (60 * MICROS) + past;
    assert (referenceMicros - past) / MICROS == minutes * 60;
  }

  /** The correlated boundary sample lies within half a sample period of the UTC minute it is labelled with. */
  lemma BoundaryIsOnTheMinute(referenceMicros: int, sampleRate: nat)
    ensures var m := NextMinute(referenceMicros);
      && m % 60 == 0
      && 0 <= m * MICROS - referenceMicros < 60 * MICROS
      && 0 <= SamplesUntil(referenceMicros, sampleRate) <= 60 * sampleRate
      && -0.5 <= PeriodsTo(m, referenceMicros, sampleRate) - SamplesUntil(referenceMicros, sampleRate) as real <= 0.5
  {
    NextMinuteIsNext(referenceMicros);
    ToSamplesBounds(SecondsUntil(referenceMicros), 60, sampleRate);
  }

  // ------------------------------------------------------------- the strategy

  /** The fields of the strategy. */
  datatype SyncState = SyncState(correlated: bool, nextBoundary: Option<int>, nextMinute: Option<int>,
                                 lastRaw: Option<Timestamp>, unwrapped: int)
  {
    /** A correlated strategy has a boundary and a minute to give. */
    predicate Ok() { correlated ==> nextBoundary.Some? && nextMinute.Some? && lastRaw.Some? }
  }

  const UNSYNCED: SyncState := SyncState(false, None, None, None, 0)

  /** One more raw timestamp. */
  function Hear(s: SyncState, ts: Timestamp): SyncState
  {
    s.(unwrapped := if s.lastRaw.Some? then s.unwrapped + Delta(s.lastRaw.value, ts) else ts, lastRaw := Some(ts))
  }

  /** Fix the boundary from the reference instant of the packet just heard. */
  function CorrelateAt(s: SyncState, referenceMicros: int, sampleRate: nat): SyncState
  {
    s.(correlated := true, nextMinute := Some(NextMinute(referenceMicros)),
       nextBoundary := Some(s.unwrapped + SamplesUntil(referenceMicros, sampleRate)))
  }

  function HearPacket(s: SyncState, ts: Timestamp, referenceMicros: int, sampleRate: nat): SyncState
  {
    if s.correlated then Hear(s, ts) else CorrelateAt(Hear(s, ts), referenceMicros, sampleRate)
  }

  /** The packet just heard starts the minute when the boundary falls inside it. */
  function DecisionFor(s: SyncState, ts: Timestamp, n: nat): (d: Option<SyncDecision>)
    requires s.nextBoundary.Some? && s.nextMinute.Some?
    ensures d.Some? <==> s.unwrapped <= s.nextBoundary.value < s.unwrapped + n
    ensures d.Some? ==> d.value.sampleOffset < n && s.unwrapped + d.value.sampleOffset == s.nextBoundary.value
  {
    if s.unwrapped <= s.nextBoundary.value < s.unwrapped + n then
      var offset := s.nextBoundary.value - s.unwrapped;
      Some(SyncDecision(s.nextMinute.value, Wrap(ts + offset), offset))
    else None
  }

  /** The target moves on by one minute. */
  function Advance(s: SyncState, sampleRate: nat): SyncState
  {
    s.(nextBoundary := if s.nextBoundary.Some? then Some(s.nextBoundary.value + 60 * sampleRate) else None,
       nextMinute := if s.nextMinute.Some? then Some(s.nextMinute.value + 60) else None)
  }

  /** Once a decision is taken the target is the minute after the one decided. */
  lemma AdvancedPast(s: SyncState, ts: Timestamp, n: nat, sampleRate: nat)
    requires s.nextBoundary.Some? && s.nextMinute.Some? && DecisionFor(s, ts, n).Some?
    ensures var d, s' := DecisionFor(s, ts, n).value, Advance(s, sampleRate);
      && s'.nextMinute == Some(d.startWallclock + 60)
      && s'.nextBoundary == Some(s.unwrapped + d.sampleOffset + 60 * sampleRate) && s'.unwrapped == s.unwrapped
  {
  }

  function HearAll(raws: seq<Timestamp>): SyncState
  {
    if raws == [] then UNSYNCED else Hear(HearAll(raws[..|raws| - 1]), raws[|raws| - 1])
  }

  /** The strategy's counter is the unwrapped value of everything it has heard. */
  lemma {:induction false} HearAllUnwraps(raws: seq<Timestamp>)
    requires raws != []
    ensures HearAll(raws).unwrapped == Unwrapped(raws) && HearAll(raws).lastRaw == Some(raws[|raws| - 1])
    decreases |raws|
  {
    hide Delta;
    if |raws| > 1 {
      HearAllUnwraps(raws[..|raws| - 1]);
    }
  }

  class RtpSyncStrategy {
    const sampleRate: nat
    var correlated: bool
    var nextBoundary: Option<int>
    var nextMinute: Option<int>
    var lastRaw: Option<Timestamp>
    var unwrapped: int

    ghost function State(): SyncState
      reads this
    {
      SyncState(correlated, nextBoundary, nextMinute, lastRaw, unwrapped)
    }

    constructor (sampleRate: nat)
      ensures State() == UNSYNCED && this.sampleRate == sampleRate
    {
      this.sampleRate := sampleRate;
      correlated, nextBoundary, nextMinute, lastRaw, unwrapped := false, None, None, None, 0;
    }

    method Unwrap(ts: Timestamp) returns (u: int)
      modifies this`lastRaw, this`unwrapped
      ensures State() == Hear(old(State()), ts) && u == unwrapped
    {
      if lastRaw.Some? {
        var delta := Wrap(ts - lastRaw.value);
        if delta > HALF {
          delta := delta - WRAP;
        }
        unwrapped := unwrapped + delta;
      } else {
        unwrapped := ts;
      }
      lastRaw := Some(ts);
      u := unwrapped;
    }

    method Correlate(referenceMicros: int)
      modifies this`correlated, this`nextBoundary, this`nextMinute
      ensures State() == CorrelateAt(old(State()), referenceMicros, sampleRate)
    {
      var pastMicros := referenceMicros % (60 * MICROS);
      var secondsPast := pastMicros as real / MICROS as real;
      var secondsUntil := if secondsPast > 0.0 then 60.0 - secondsPast else 0.0;
      assert secondsUntil == SecondsUntil(referenceMicros);
      var samplesUntil := ToSamples(secondsUntil, sampleRate);
      nextBoundary := Some(unwrapped + samplesUntil);
      nextMinute := Some((referenceMicros - pastMicros) / MICROS + if pastMicros > 0 then 60 else 0);
      correlated := true;
    }

    /** Reports the boundary when, and only when, it falls inside this packet. */
    method ShouldStartMinute(ts: Timestamp, packetSamples: nat, referenceMicros: int)
      returns (decision: Option<SyncDecision>)
      requires State().Ok()
      modifies this
      ensures State() == HearPacket(old(State()), ts, referenceMicros, sampleRate) && State().Ok() && correlated
      ensures decision == DecisionFor(State(), ts, packetSamples)
    {
      hide Delta, SamplesUntil, NextMinute;
      var u := Unwrap(ts);
      if !correlated {
        Correlate(referenceMicros);
      }
      var packetEnd := u + packetSamples;
      if u <= nextBoundary.value < packetEnd {
        var offset := nextBoundary.value - u;
        return Some(SyncDecision(nextMinute.value, Wrap(ts + offset), offset));
      }
      return None;
    }

    method OnMinuteStarted()
      modifies this`nextBoundary, this`nextMinute
      ensures State() == Advance(old(State()), sampleRate)
      ensures old(nextBoundary).Some? ==> nextBoundary == Some(old(nextBoundary).value + 60 * sampleRate)
      ensures old(nextMinute).Some? ==> nextMinute == Some(old(nextMinute).value + 60)
    {
      if nextBoundary.Some? {
        nextBoundary := Some(nextBoundary.value + sampleRate * 60);
      }
      if nextMinute.Some? {
        nextMinute := Some(nextMinute.value + 60);
      }
    }

    /** Back to the state before the first packet. */
    method Reset()
      modifies this
      ensures State() == UNSYNCED
    {
      correlated, nextBoundary, nextMinute, lastRaw, unwrapped := false, None, None, None, 0;
    }
  }
}
