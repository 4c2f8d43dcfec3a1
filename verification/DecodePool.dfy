/**
 * The priority decode pool (wspr_recorder/decode_pool.py) as a state machine: one
 * atomic step per region held under the condition variable's lock, plus the
 * worker's moves between regions.  Any number of workers.
 */
module PoolModel {

  const LONG_PERIOD_SECONDS: int := 900

  /** A queued decode; `ticket` is its submission number. */
  datatype Job = Job(period: int, ticket: nat) {
    predicate IsLong() { period >= LONG_PERIOD_SECONDS }
  }

  /** heapq's order on entries: period, then submission number. */
  predicate Before(a: Job, b: Job) { a.period < b.period || (a.period == b.period && a.ticket < b.ticket) }

  /** A heap, seen as its entries in order. */
  predicate Ordered(q: seq<Job>)
  {
    forall i, j :: 0 <= i < j < |q| ==> Before(q[i], q[j])
  }

  function Push(q: seq<Job>, j: Job): seq<Job>
  {
    if q == [] then [j]
    else if Before(j, q[0]) then [j] + q
    else [q[0]] + Push(q[1..], j)
  }

  /** An entry before all of an ordered heap may stand in front of it. */
  lemma OrderedCons(x: Job, q: seq<Job>)
    requires Ordered(q) && forall k <- q :: Before(x, k)
    ensures Ordered([x] + q)
  {
    var xq := [x] + q;
    forall i, j | 0 <= i < j < |xq| ensures Before(xq[i], xq[j]) {
      assert xq[j] == q[j - 1];
    }
  }

  lemma OrderedTail(q: seq<Job>)
    requires Ordered(q) && q != []
    ensures Ordered(q[1..]) && (forall k <- q[1..] :: Before(q[0], k)) && q == [q[0]] + q[1..]
  {
  }

  lemma {:induction false} PushOrdered(q: seq<Job>, j: Job)
    requires Ordered(q) && forall k <- q :: k.ticket < j.ticket
    ensures Ordered(Push(q, j))
    ensures forall k :: k in Push(q, j) <==> k in q || k == j
    ensures |Push(q, j)| == |q| + 1
    decreases |q|
  {
    hide Ordered;
    if q == [] {
      assert Ordered([j] + []) by { OrderedCons(j, []); }
      assert [j] + [] == [j];
    } else if Before(j, q[0]) {
      OrderedTail(q);
      OrderedCons(j, q);
    } else {
      OrderedTail(q);
      PushOrdered(q[1..], j);
      OrderedCons(q[0], Push(q[1..], j));
    }
  }

  /**
   * Where a worker is.  Idle: about to take the lock.  Waiting: in wait(), not yet
   * notified.  Notified: woken, about to re-check.  Taken: holding a job it has not
   * started.  Running: executing it.  Releasing: finished a long job, slot not yet
   * given back.  Exited: returned from its loop.
   */
  datatype Worker =
    | Idle
    | Waiting
    | Notified
    | Taken(job: Job)
    | Running(job: Job)
    | Releasing(job: Job)
    | Exited
  {
    /** Holds a job. */
    predicate HasJob() { Taken? || Running? || Releasing? }

    /** Holds a long job whose slot is not released. */
    predicate HoldsLong()
    {
      HasJob() && job.IsLong()
    }

    /** Will look at the queues without needing another wake-up. */
    predicate Awake() { Idle? || Notified? }
  }

  datatype Pool = Pool(
    cap: nat,
    short: seq<Job>,
    long: seq<Job>,
    nextSeq: nat,
    longInflight: int,
    running: int,
    shutdown: bool,
    workers: map<nat, Worker>,
    accepted: seq<Job>,
    taken: seq<Job>)

  // ------------------------------------------------------------ worker sets

  function AwakeSet(ws: map<nat, Worker>): set<nat> { set w | w in ws && ws[w].Awake() }
  function WaitingSet(ws: map<nat, Worker>): set<nat> { set w | w in ws && ws[w].Waiting? }
  function LongSet(ws: map<nat, Worker>): set<nat> { set w | w in ws && ws[w].HoldsLong() }
  function RunningSet(ws: map<nat, Worker>): set<nat> { set w | w in ws && ws[w].Running? }

  function TakenSet(ws: map<nat, Worker>): set<nat> { set w | w in ws && ws[w].Taken? }
  function ReleasingSet(ws: map<nat, Worker>): set<nat> { set w | w in ws && ws[w].Releasing? }

  /** The worker threads of a pool of n. */
  function Threads(n: nat): (ids: set<nat>)
    ensures forall w: nat :: w in ids <==> w < n
  {
    if n == 0 then {} else Threads(n - 1) + {n - 1}
  }

  function Delta(before: bool, after: bool): int { (if after then 1 else 0) - (if before then 1 else 0) }

  lemma OneMember(s: set<nat>, s': set<nat>, w: nat, after: bool)
    requires s' == if after then s + {w} else s - {w}
    ensures |s'| == |s| + Delta(w in s, after)
  {
    if w in s {
      assert s + {w} == s;
    }
  }

  lemma MoveAwake(ws: map<nat, Worker>, w: nat, s: Worker)
    requires w in ws
    ensures |AwakeSet(ws[w := s])| == |AwakeSet(ws)| + Delta(ws[w].Awake(), s.Awake())
  {
    OneMember(AwakeSet(ws), AwakeSet(ws[w := s]), w, s.Awake());
  }

  lemma MoveLong(ws: map<nat, Worker>, w: nat, s: Worker)
    requires w in ws
    ensures |LongSet(ws[w := s])| == |LongSet(ws)| + Delta(ws[w].HoldsLong(), s.HoldsLong())
  {
    OneMember(LongSet(ws), LongSet(ws[w := s]), w, s.HoldsLong());
  }

  lemma MoveRunning(ws: map<nat, Worker>, w: nat, s: Worker)
    requires w in ws
    ensures |RunningSet(ws[w := s])| == |RunningSet(ws)| + Delta(ws[w].Running?, s.Running?)
  {
    OneMember(RunningSet(ws), RunningSet(ws[w := s]), w, s.Running?);
  }

  lemma MoveTaken(ws: map<nat, Worker>, w: nat, s: Worker)
    requires w in ws
    ensures |TakenSet(ws[w := s])| == |TakenSet(ws)| + Delta(ws[w].Taken?, s.Taken?)
  {
    OneMember(TakenSet(ws), TakenSet(ws[w := s]), w, s.Taken?);
  }

  lemma MoveReleasing(ws: map<nat, Worker>, w: nat, s: Worker)
    requires w in ws
    ensures |ReleasingSet(ws[w := s])| == |ReleasingSet(ws)| + Delta(ws[w].Releasing?, s.Releasing?)
  {
    OneMember(ReleasingSet(ws), ReleasingSet(ws[w := s]), w, s.Releasing?);
  }

  lemma MoveWaiting(ws: map<nat, Worker>, w: nat, s: Worker)
    requires w in ws
    ensures WaitingSet(ws[w := s]) == if s.Waiting? then WaitingSet(ws) + {w} else WaitingSet(ws) - {w}
  {
  }

  /** Moving one worker changes each count by what that worker contributes. */
  lemma MoveCounts(ws: map<nat, Worker>, w: nat, s: Worker)
    requires w in ws
    ensures |AwakeSet(ws[w := s])| == |AwakeSet(ws)| + Delta(ws[w].Awake(), s.Awake())
    ensures |LongSet(ws[w := s])| == |LongSet(ws)| + Delta(ws[w].HoldsLong(), s.HoldsLong())
    ensures |RunningSet(ws[w := s])| == |RunningSet(ws)| + Delta(ws[w].Running?, s.Running?)
    ensures |TakenSet(ws[w := s])| == |TakenSet(ws)| + Delta(ws[w].Taken?, s.Taken?)
    ensures |ReleasingSet(ws[w := s])| == |ReleasingSet(ws)| + Delta(ws[w].Releasing?, s.Releasing?)
    ensures WaitingSet(ws[w := s]) == if s.Waiting? then WaitingSet(ws) + {w} else WaitingSet(ws) - {w}
  {
    hide AwakeSet, LongSet, RunningSet, TakenSet, ReleasingSet, WaitingSet, Delta;
    MoveAwake(ws, w, s);
    MoveLong(ws, w, s);
    MoveRunning(ws, w, s);
    MoveTaken(ws, w, s);
    MoveReleasing(ws, w, s);
    MoveWaiting(ws, w, s);
  }

  /** `notify()`: one waiting worker, whichever the condition picks, is woken; nothing happens when none waits. */
  predicate CanNotify(ws: map<nat, Worker>, who: nat)
  {
    WaitingSet(ws) != {} ==> who in WaitingSet(ws)
  }

  function Notify(ws: map<nat, Worker>, who: nat): map<nat, Worker>
  {
    if who in WaitingSet(ws) then ws[who := Notified] else ws
  }

  function NotifyAll(ws: map<nat, Worker>): map<nat, Worker>
  {
    map w | w in ws :: if ws[w].Waiting? then Notified else ws[w]
  }

  // ------------------------------------------------------------------ steps

  /** submit() under the lock; refused after shutdown. */
  function Submit(p: Pool, period: int, who: nat): Pool
  {
    if p.shutdown then p
    else
      var j := Job(period, p.nextSeq + 1);
      var q := p.(nextSeq := p.nextSeq + 1, accepted := p.accepted + [j], workers := Notify(p.workers, who));
      if j.IsLong() then q.(long := Push(p.long, j)) else q.(short := Push(p.short, j))
  }

  predicate LongAllowed(p: Pool) { p.long != [] && (p.longInflight < p.cap || p.shutdown) }

  /**
   * One pass of the take loop by an awake worker: short work first, then long work
   * the cap allows (any, while shutting down), then leave or wait.
   */
  function TakeNext(p: Pool, w: nat): Pool
    requires w in p.workers
  {
    if p.short != [] then
      p.(short := p.short[1..], taken := p.taken + [p.short[0]], workers := p.workers[w := Taken(p.short[0])])
    else if LongAllowed(p) then
      p.(long := p.long[1..], longInflight := p.longInflight + 1, taken := p.taken + [p.long[0]],
         workers := p.workers[w := Taken(p.long[0])])
    else if p.shutdown then p.(workers := p.workers[w := Exited])
    else p.(workers := p.workers[w := Waiting])
  }

  /** `_release_long` under the lock. */
  function ReleaseLong(p: Pool, w: nat, who: nat): Pool
    requires w in p.workers
  {
    p.(longInflight := if p.longInflight > 0 then p.longInflight - 1 else p.longInflight,
       workers := Notify(p.workers, who)[w := Idle])
  }

  datatype Event =
    | SubmitE(period: int, who: nat)
    | TakeE(w: nat)
    | StartE(w: nat)            // running += 1
    | CancelledE(w: nat)        // the future was cancelled before it ran
    | FinishE(w: nat)           // running -= 1
    | ReleaseE(w: nat, who: nat)
    | SpuriousE(w: nat)         // wait() returns without a notify
    | ShutdownE

  /** The event can happen now. */
  predicate Enabled(p: Pool, e: Event)
  {
    match e
    case SubmitE(_, who) => CanNotify(p.workers, who)
    case TakeE(w) => w in p.workers && p.workers[w].Awake()
    case StartE(w) => w in p.workers && p.workers[w].Taken?
    case CancelledE(w) => w in p.workers && p.workers[w].Taken?
    case FinishE(w) => w in p.workers && p.workers[w].Running?
    case ReleaseE(w, who) => w in p.workers && p.workers[w].Releasing? && CanNotify(p.workers, who)
    case SpuriousE(w) => w in p.workers && p.workers[w].Waiting?
    case ShutdownE => true
  }

  function Step(p: Pool, e: Event): Pool
    requires Enabled(p, e)
  {
    match e
    case SubmitE(period, who) => Submit(p, period, who)
    case TakeE(w) => TakeNext(p, w)
    case StartE(w) => p.(running := p.running + 1, workers := p.workers[w := Running(p.workers[w].job)])
    case CancelledE(w) =>
      p.(workers := p.workers[w := if p.workers[w].job.IsLong() then Releasing(p.workers[w].job) else Idle])
    case FinishE(w) =>
      p.(running := p.running - 1,
         workers := p.workers[w := if p.workers[w].job.IsLong() then Releasing(p.workers[w].job) else Idle])
    case ReleaseE(w, who) => ReleaseLong(p, w, who)
    case SpuriousE(w) => p.(workers := p.workers[w := Notified])
    case ShutdownE => p.(shutdown := true, workers := NotifyAll(p.workers))
  }

  /** A new pool: every worker thread started, nothing queued. */
  function Start(cap: nat, ids: set<nat>): Pool
  {
    Pool(cap, [], [], 0, 0, 0, false, map w | w in ids :: Idle, [], [])
  }

  ghost predicate Runs(p: Pool, es: seq<Event>)
    decreases |es|
  {
    es == [] || (Enabled(p, es[0]) && Runs(Step(p, es[0]), es[1..]))
  }

  ghost function Run(p: Pool, es: seq<Event>): Pool
    requires Runs(p, es)
    decreases |es|
  {
    if es == [] then p else Run(Step(p, es[0]), es[1..])
  }

  // ------------------------------------------------------------- invariants

  /** Jobs a worker that looks now could take. */
  ghost function Runnable(p: Pool): int
  {
    |p.short| + var room := p.cap - p.longInflight; if |p.long| <= room then |p.long| else if room > 0 then room else 0
  }

  /** The counters count what they are named after, and the cap holds until shutdown. */
  ghost predicate Accounted(p: Pool)
  {
    && p.longInflight == |LongSet(p.workers)|
    && p.running == |RunningSet(p.workers)|
    && (!p.shutdown ==> p.longInflight <= p.cap)
  }

  /**
   * No lost wake-up: while some worker waits un-notified, the runnable jobs are no
   * more than the workers already on their way to the queues.  After shutdown
   * nobody waits.
   */
  ghost predicate Covered(p: Pool)
  {
    WaitingSet(p.workers) != {} ==> !p.shutdown && Runnable(p) <= |AwakeSet(p.workers)|
  }

  /** Only long jobs have a slot to give back. */
  ghost predicate Releasers(p: Pool)
  {
    forall w :: w in p.workers && p.workers[w].Releasing? ==> p.workers[w].job.IsLong()
  }

  /** Queues are in order and hold the right kind; submission numbers are unique and not yet exceeded. */
  ghost predicate Queued(p: Pool)
  {
    && Ordered(p.short) && Ordered(p.long)
    && (forall j <- p.short :: !j.IsLong() && j.ticket <= p.nextSeq)
    && (forall j <- p.long :: j.IsLong() && j.ticket <= p.nextSeq)
    && (forall j <- p.taken :: j.ticket <= p.nextSeq)
  }

  ghost predicate InQueue(p: Pool, j: Job) { j in p.short || j in p.long }

  /** Accepted jobs are numbered 1, 2, 3, ...; each is queued or has been taken, never both. */
  ghost predicate Conserved(p: Pool)
  {
    && |p.accepted| == p.nextSeq
    && (forall i :: 0 <= i < |p.accepted| ==> p.accepted[i].ticket == i + 1)
    && (forall j :: j in p.accepted <==> InQueue(p, j) || j in p.taken)
    && (forall j <- p.taken :: !InQueue(p, j))
    && (forall i, k :: 0 <= i < k < |p.taken| ==> p.taken[i] != p.taken[k])
  }

  /** Jobs of one period are taken in submission order. */
  ghost predicate Fifo(p: Pool)
  {
    && (forall i, k :: 0 <= i < k < |p.taken| && p.taken[i].period == p.taken[k].period ==>
         p.taken[i].ticket < p.taken[k].ticket)
    && (forall t, j :: t in p.taken && InQueue(p, j) && t.period == j.period ==> t.ticket < j.ticket)
  }

  /** A worker leaves only when everything has been taken, and nothing is accepted afterwards. */
  ghost predicate Drained(p: Pool)
  {
    (exists w :: w in p.workers && p.workers[w].Exited?) ==> p.shutdown && p.short == [] && p.long == []
  }

  ghost predicate Inv(p: Pool)
  {
    Accounted(p) && Covered(p) && Releasers(p) && Queued(p) && Conserved(p) && Fifo(p) && Drained(p)
  }

  /** Waking every waiter changes neither count. */
  lemma NotifyAllCounts(ws: map<nat, Worker>)
    ensures LongSet(NotifyAll(ws)) == LongSet(ws)
    ensures RunningSet(NotifyAll(ws)) == RunningSet(ws)
  {
  }

  lemma HolderIsCounted(ws: map<nat, Worker>, w: nat)
    requires w in ws && ws[w].HoldsLong()
    ensures |LongSet(ws)| > 0
  {
    assert w in LongSet(ws);
  }

  lemma ReleaseKeepsAccounted(p: Pool, w: nat, who: nat)
    requires Accounted(p) && Releasers(p) && Enabled(p, ReleaseE(w, who))
    ensures Accounted(ReleaseLong(p, w, who))
  {
    hide LongSet, RunningSet, AwakeSet, TakenSet, ReleasingSet;
    HolderIsCounted(p.workers, w);
    if who in WaitingSet(p.workers) {
      MoveCounts(p.workers, who, Notified);
    }
    MoveCounts(Notify(p.workers, who), w, Idle);
  }

  lemma TakeKeepsAccounted(p: Pool, w: nat)
    requires Accounted(p) && Queued(p) && Enabled(p, TakeE(w))
    ensures Accounted(TakeNext(p, w))
  {
    hide Ordered, LongSet, RunningSet, AwakeSet, TakenSet, ReleasingSet, WaitingSet;
    MoveCounts(p.workers, w, TakeNext(p, w).workers[w]);
  }

  lemma SubmitKeepsCounts(p: Pool, period: int, who: nat)
    ensures Accounted(p) ==> Accounted(Submit(p, period, who))
  {
    hide Push, LongSet, RunningSet, AwakeSet, TakenSet, ReleasingSet;
    if who in WaitingSet(p.workers) { MoveCounts(p.workers, who, Notified); }
  }

  lemma StepKeepsAccounted(p: Pool, e: Event)
    requires Inv(p) && Enabled(p, e)
    ensures Accounted(Step(p, e))
  {
    hide Conserved, Fifo, Drained, Queued, Covered, TakeNext, Submit, LongSet, RunningSet, AwakeSet, TakenSet,
      ReleasingSet, WaitingSet;
    match e
    case SubmitE(period, who) => SubmitKeepsCounts(p, period, who);
    case TakeE(w) => TakeKeepsAccounted(p, w);
    case StartE(w) => MoveCounts(p.workers, w, Step(p, e).workers[w]);
    case CancelledE(w) => MoveCounts(p.workers, w, Step(p, e).workers[w]);
    case FinishE(w) => MoveCounts(p.workers, w, Step(p, e).workers[w]);
    case ReleaseE(w, who) => ReleaseKeepsAccounted(p, w, who);
    case SpuriousE(w) =>
      MoveCounts(p.workers, w, Notified);
    case ShutdownE => NotifyAllCounts(p.workers);
  }

  lemma TakeKeepsCovered(p: Pool, w: nat)
    requires Covered(p) && Accounted(p) && Queued(p) && Enabled(p, TakeE(w))
    ensures Covered(TakeNext(p, w))
  {
    hide Ordered, LongSet, RunningSet, AwakeSet, TakenSet, ReleasingSet;
    MoveCounts(p.workers, w, TakeNext(p, w).workers[w]);
  }

  lemma SubmitKeepsCovered(p: Pool, period: int, who: nat)
    requires Covered(p) && Queued(p) && CanNotify(p.workers, who)
    ensures Covered(Submit(p, period, who))
  {
    hide Ordered, Push, LongSet, RunningSet, AwakeSet, TakenSet, ReleasingSet;
    if who in WaitingSet(p.workers) { MoveCounts(p.workers, who, Notified); }
    if !p.shutdown {
      var j := Job(period, p.nextSeq + 1);
      PushOrdered(p.short, j);
      PushOrdered(p.long, j);
    }
  }

  lemma ReleaseKeepsCovered(p: Pool, w: nat, who: nat)
    requires Covered(p) && Enabled(p, ReleaseE(w, who))
    ensures Covered(ReleaseLong(p, w, who))
  {
    hide LongSet, RunningSet, AwakeSet, TakenSet, ReleasingSet;
    if who in WaitingSet(p.workers) { MoveCounts(p.workers, who, Notified); }
    MoveCounts(Notify(p.workers, who), w, Idle);
  }

  lemma StepKeepsCovered(p: Pool, e: Event)
    requires Inv(p) && Enabled(p, e)
    ensures Covered(Step(p, e))
  {
    hide Conserved, Fifo, Drained, Queued, Accounted, TakeNext, Submit, ReleaseLong, LongSet, RunningSet, AwakeSet,
         TakenSet, ReleasingSet;
    match e
    case SubmitE(period, who) => SubmitKeepsCovered(p, period, who);
    case TakeE(w) => TakeKeepsCovered(p, w);
    case StartE(w) => MoveCounts(p.workers, w, Step(p, e).workers[w]);
    case CancelledE(w) => MoveCounts(p.workers, w, Step(p, e).workers[w]);
    case FinishE(w) => MoveCounts(p.workers, w, Step(p, e).workers[w]);
    case ReleaseE(w, who) => ReleaseKeepsCovered(p, w, who);
    case SpuriousE(w) => MoveCounts(p.workers, w, Notified);
    case ShutdownE =>
      assert WaitingSet(NotifyAll(p.workers)) == {};
  }

  lemma StepKeepsReleasers(p: Pool, e: Event)
    requires Inv(p) && Enabled(p, e)
    ensures Releasers(Step(p, e))
  {
    hide Conserved, Fifo, Drained, Ordered, Push, Covered, Accounted, Queued;
  }

  lemma StepKeepsQueued(p: Pool, e: Event)
    requires Inv(p) && Enabled(p, e)
    ensures Queued(Step(p, e))
  {
    hide Conserved, Fifo, Drained, Accounted, Covered, Push;
    if e.SubmitE? && !p.shutdown {
      var j := Job(e.period, p.nextSeq + 1);
      PushOrdered(p.short, j);
      PushOrdered(p.long, j);
    }
  }

  lemma StepKeepsConserved(p: Pool, e: Event)
    requires Inv(p) && Enabled(p, e)
    ensures Conserved(Step(p, e))
  {
    hide Fifo, Drained, Accounted, Covered, Push, Ordered;
    if e.SubmitE? && !p.shutdown {
      SubmitQueues(p, e.period, e.who);
    } else if e.TakeE? && Step(p, e).taken != p.taken {
      TakenWasQueued(p, e.w);
      TakeKeepsConserved(p, Step(p, e));
    }
  }

  /** A submission adds its job to one queue and to `accepted`. */
  lemma SubmitQueues(p: Pool, period: int, who: nat)
    requires Queued(p) && !p.shutdown
    ensures forall k :: InQueue(Submit(p, period, who), k) <==> InQueue(p, k) || k == Job(period, p.nextSeq + 1)
  {
    var j := Job(period, p.nextSeq + 1);
    PushOrdered(p.short, j);
    PushOrdered(p.long, j);
  }

  lemma TakeKeepsConserved(p: Pool, p': Pool)
    requires Conserved(p)
    requires p'.nextSeq == p.nextSeq && p'.accepted == p.accepted
    requires |p'.taken| == |p.taken| + 1 && p'.taken[..|p.taken|] == p.taken
    requires var j := p'.taken[|p.taken|];
      InQueue(p, j) && forall k :: InQueue(p', k) <==> InQueue(p, k) && k != j
    ensures Conserved(p')
  {
    hide InQueue;
    var j := p'.taken[|p.taken|];
    assert p'.taken == p.taken + [j];
  }

  /** What a take removes from the queues it adds to `taken`, and it was the first of its period. */
  lemma TakenWasQueued(p: Pool, w: nat)
    requires Queued(p) && w in p.workers && TakeNext(p, w).taken != p.taken
    ensures var p' := TakeNext(p, w);
      && |p'.taken| == |p.taken| + 1 && p'.taken[..|p.taken|] == p.taken
      && var j := p'.taken[|p.taken|];
      && InQueue(p, j) && !InQueue(p', j)
      && (forall k :: InQueue(p', k) <==> InQueue(p, k) && k != j)
      && (forall k :: InQueue(p', k) && k.period == j.period ==> j.ticket < k.ticket)
  {
    var p' := TakeNext(p, w);
    var j := p'.taken[|p.taken|];
    var q := if p.short != [] then p.short else p.long;
    assert q == [j] + q[1..];
    assert forall i :: 0 < i < |q| ==> Before(q[0], q[i]);
  }

  lemma StepKeepsFifo(p: Pool, e: Event)
    requires Inv(p) && Enabled(p, e)
    ensures Fifo(Step(p, e))
  {
    hide Conserved, Drained, Accounted, Covered, Push, Ordered;
    if e.SubmitE? && !p.shutdown {
      SubmitQueues(p, e.period, e.who);
    } else if e.TakeE? && Step(p, e).taken != p.taken {
      TakenWasQueued(p, e.w);
      TakeKeepsFifo(p, Step(p, e));
    }
  }

  lemma TakeKeepsFifo(p: Pool, p': Pool)
    requires Fifo(p)
    requires |p'.taken| == |p.taken| + 1 && p'.taken[..|p.taken|] == p.taken
    requires var j := p'.taken[|p.taken|];
      && InQueue(p, j)
      && (forall k :: InQueue(p', k) <==> InQueue(p, k) && k != j)
      && (forall k :: InQueue(p', k) && k.period == j.period ==> j.ticket < k.ticket)
    ensures Fifo(p')
  {
    hide InQueue;
    var j := p'.taken[|p.taken|];
    assert p'.taken == p.taken + [j];
    assert forall i :: 0 <= i < |p.taken| ==> p'.taken[i] in p.taken;
  }

  lemma StepKeepsDrained(p: Pool, e: Event)
    requires Inv(p) && Enabled(p, e)
    ensures Drained(Step(p, e))
  {
    hide Conserved, Fifo, Accounted, Covered, Queued, Push;
  }

  /** Every atomic step keeps the invariant. */
  lemma StepKeepsInv(p: Pool, e: Event)
    requires Inv(p) && Enabled(p, e)
    ensures Inv(Step(p, e))
  {
    hide Accounted, Covered, Releasers, Queued, Conserved, Fifo, Drained, Step;
    StepKeepsAccounted(p, e);
    StepKeepsCovered(p, e);
    StepKeepsReleasers(p, e);
    StepKeepsQueued(p, e);
    StepKeepsConserved(p, e);
    StepKeepsFifo(p, e);
    StepKeepsDrained(p, e);
  }

  lemma {:induction false} RunKeepsInv(p: Pool, es: seq<Event>)
    requires Inv(p) && Runs(p, es)
    ensures Inv(Run(p, es))
    decreases |es|
  {
    if es != [] {
      StepKeepsInv(p, es[0]);
      RunKeepsInv(Step(p, es[0]), es[1..]);
    }
  }

  // ---------------------------------------------------------- main results

  /**
   * No lost wake-up, in every reachable state: while some worker waits un-notified, the
   * jobs that could run now are no more than the workers on their way to look.
   */
  lemma NoLostWakeUp(cap: nat, ids: set<nat>, es: seq<Event>)
    requires Runs(Start(cap, ids), es)
    ensures var p := Run(Start(cap, ids), es);
      WaitingSet(p.workers) != {} ==> !p.shutdown && Runnable(p) <= |AwakeSet(p.workers)|
  {
    RunKeepsInv(Start(cap, ids), es);
  }

  /**
   * In every reachable state the counter is the number of workers holding a job of fifteen
   * minutes or more, within the cap until shutdown.
   */
  lemma LongSlotsAccounted(cap: nat, ids: set<nat>, es: seq<Event>)
    requires Runs(Start(cap, ids), es)
    ensures var p := Run(Start(cap, ids), es);
      && p.longInflight == |QuarterHourHolders(p.workers)|
      && p.running == |RunningSet(p.workers)|
      && (!p.shutdown ==> p.longInflight <= cap)
  {
    RunKeepsInv(Start(cap, ids), es);
    RunKeepsCap(Start(cap, ids), es);
    assert LongSet(Run(Start(cap, ids), es).workers) == QuarterHourHolders(Run(Start(cap, ids), es).workers);
  }

  /** Workers that hold a job of fifteen minutes or more. */
  function QuarterHourHolders(ws: map<nat, Worker>): set<nat>
  {
    set w | w in ws && ws[w].HasJob() && ws[w].job.period >= 900
  }

  lemma {:induction false} RunKeepsCap(p: Pool, es: seq<Event>)
    requires Runs(p, es)
    ensures Run(p, es).cap == p.cap
    decreases |es|
  {
    hide Push, Notify, NotifyAll;
    if es != [] {
      RunKeepsCap(Step(p, es[0]), es[1..]);
    }
  }

  /**
   * Nothing is stranded: before shutdown, if every worker that is free is asleep in
   * wait(), then no queued job could be taken; the queues are empty or hold only
   * long jobs with the cap used up.
   */
  lemma NothingStranded(cap: nat, ids: set<nat>, es: seq<Event>)
    requires Runs(Start(cap, ids), es)
    ensures var p := Run(Start(cap, ids), es);
      !p.shutdown && WaitingSet(p.workers) != {} && AwakeSet(p.workers) == {} ==>
        p.short == [] && (p.long == [] || p.longInflight == p.cap)
  {
    RunKeepsInv(Start(cap, ids), es);
  }

  /** Long work starts only when no short work waits, and before shutdown only within the cap. */
  lemma LongOnlyAfterShort(p: Pool, w: nat)
    requires Inv(p) && w in p.workers && p.workers[w].Awake()
    ensures var p' := Step(p, TakeE(w));
      p'.workers[w].Taken? ==>
        && (p'.workers[w].job.IsLong() ==> p.short == [] && (!p.shutdown ==> |LongSet(p'.workers)| <= p.cap))
        && forall j :: InQueue(p, j) && j.IsLong() == p'.workers[w].job.IsLong() ==>
             j == p'.workers[w].job || Before(p'.workers[w].job, j)
  {
    StepKeepsInv(p, TakeE(w));
  }

  /** `a` goes first: the shorter period, and of equal periods the earlier submission. */
  predicate GoesFirst(a: Job, b: Job)
  {
    a.period <= b.period && (a.period == b.period ==> a.ticket < b.ticket)
  }

  /** A heap pops its smallest entry: period before submission number. */
  lemma OrderIsByPeriod(q: seq<Job>, i: nat, k: nat)
    requires Ordered(q) && i < k < |q|
    ensures GoesFirst(q[i], q[k])
  {
  }

  /**
   * In every reachable state a worker that takes a job takes, of the jobs queued, one of
   * less than fifteen minutes if there is one, and of its kind the one of shortest
   * period and, among those, the one submitted first.
   */
  lemma SmallestIsTaken(cap: nat, ids: set<nat>, es: seq<Event>, w: nat)
    requires Runs(Start(cap, ids), es)
    requires var p := Run(Start(cap, ids), es); w in p.workers && p.workers[w].Awake()
    ensures var p := Run(Start(cap, ids), es); TakesSmallest(p, Step(p, TakeE(w)), w)
  {
    hide TakesSmallest;
    RunKeepsInv(Start(cap, ids), es);
    TakenIsSmallest(Run(Start(cap, ids), es), w);
  }

  /**
   * Worker w takes a job when there is one it may take, leaves when nothing is left and
   * the pool is shutting down, and waits otherwise.  The job is the one that is due, and
   * no other leaves the queues.
   */
  ghost predicate TakesSmallest(p: Pool, p': Pool, w: nat)
    requires w in p'.workers
  {
    && (p'.workers[w].Taken? <==> p.short != [] || (p.long != [] && (p.longInflight < p.cap || p.shutdown)))
    && (p'.workers[w].Exited? <==> p.shutdown && p.short == [] && p.long == [])
    && (p'.workers[w].Taken? || p'.workers[w].Exited? || p'.workers[w].Waiting?)
    && p'.taken == p.taken + (if p'.workers[w].Taken? then [p'.workers[w].job] else [])
    && (p'.workers[w].Taken? ==>
      var j := p'.workers[w].job;
      && InQueue(p, j) && !InQueue(p', j)
      && (forall k :: InQueue(p, k) && k != j ==> InQueue(p', k))
      && (forall k :: InQueue(p', k) && (k.period >= 900 <==> j.period >= 900) ==> GoesFirst(j, k))
      && (j.period >= 900 ==> forall k :: InQueue(p, k) ==> k.period >= 900))
  }

  lemma TakenIsSmallest(p: Pool, w: nat)
    requires Inv(p) && w in p.workers && p.workers[w].Awake()
    ensures TakesSmallest(p, Step(p, TakeE(w)), w)
  {
    hide Ordered, Accounted, Covered, Fifo, Drained, Conserved;
    if p.short != [] { OrderedHead(p.short); }
    if p.long != [] { OrderedHead(p.long); }
  }

  lemma OrderedHead(q: seq<Job>)
    requires Ordered(q) && q != []
    ensures q == [q[0]] + q[1..] && q[0] !in q[1..] && forall k <- q[1..] :: GoesFirst(q[0], k)
  {
    assert forall k <- q[1..] :: Before(q[0], k);
  }

  /** Over a whole run, jobs of equal period are taken in the order they were submitted. */
  lemma EqualPeriodsInOrder(cap: nat, ids: set<nat>, es: seq<Event>, i: nat, k: nat)
    requires Runs(Start(cap, ids), es)
    requires i < k < |Run(Start(cap, ids), es).taken|
    ensures var t := Run(Start(cap, ids), es).taken;
      t[i].period == t[k].period ==> t[i].ticket < t[k].ticket
  {
    RunKeepsInv(Start(cap, ids), es);
  }

  /** Once any worker has left, every accepted job has been taken, and exactly once. */
  lemma ExitMeansDrained(cap: nat, ids: set<nat>, es: seq<Event>, w: nat)
    requires Runs(Start(cap, ids), es)
    requires var p := Run(Start(cap, ids), es); w in p.workers && p.workers[w].Exited?
    ensures var p := Run(Start(cap, ids), es);
      && p.shutdown
      && multiset(p.taken) == multiset(p.accepted)
  {
    RunKeepsInv(Start(cap, ids), es);
    var p := Run(Start(cap, ids), es);
    forall j ensures multiset(p.taken)[j] == multiset(p.accepted)[j] {
      DistinctCounts(p.taken, j);
      DistinctCounts(p.accepted, j);
    }
  }

  lemma {:induction false} DistinctCounts(s: seq<Job>, j: Job)
    requires forall i, k :: 0 <= i < k < |s| ==> s[i] != s[k]
    ensures multiset(s)[j] == if j in s then 1 else 0
    decreases |s|
  {
    if s != [] {
      var k := |s| - 1;
      assert s == s[..k] + [s[k]];
      DistinctCounts(s[..k], j);
    }
  }

  /** Steps a worker can still take while the pool drains. */
  ghost function Remaining(p: Pool): int
  {
    5 * (|p.short| + |p.long|) + 4 * |TakenSet(p.workers)| + 3 * |RunningSet(p.workers)| +
    2 * |ReleasingSet(p.workers)| + |AwakeSet(p.workers)|
  }

  predicate WorkerEvent(e: Event) { e.TakeE? || e.StartE? || e.CancelledE? || e.FinishE? || e.ReleaseE? }

  lemma NobodyWaits(p: Pool)
    requires Inv(p) && p.shutdown
    ensures WaitingSet(p.workers) == {}
  {
  }

  lemma TakeDrains(p: Pool, w: nat)
    requires p.shutdown && Enabled(p, TakeE(w))
    ensures TakeNext(p, w).shutdown && 0 <= Remaining(TakeNext(p, w)) < Remaining(p)
  {
    hide AwakeSet, LongSet, RunningSet, TakenSet, ReleasingSet, WaitingSet;
    MoveCounts(p.workers, w, TakeNext(p, w).workers[w]);
  }

  lemma MoveDrains(p: Pool, w: nat, e: Event)
    requires p.shutdown && Enabled(p, e) && e in {StartE(w), CancelledE(w), FinishE(w)}
    ensures Step(p, e).shutdown && 0 <= Remaining(Step(p, e)) < Remaining(p)
  {
    hide AwakeSet, LongSet, RunningSet, TakenSet, ReleasingSet, WaitingSet;
    MoveCounts(p.workers, w, Step(p, e).workers[w]);
  }

  lemma ReleaseDrains(p: Pool, w: nat, who: nat)
    requires p.shutdown && Enabled(p, ReleaseE(w, who)) && Notify(p.workers, who) == p.workers
    ensures Step(p, ReleaseE(w, who)).shutdown && 0 <= Remaining(Step(p, ReleaseE(w, who))) < Remaining(p)
  {
    hide Notify, AwakeSet, LongSet, RunningSet, TakenSet, ReleasingSet, WaitingSet;
    MoveCounts(p.workers, w, Idle);
  }

  /** The flag set, and nobody told. */
  function HalfShutdown(p: Pool): Pool { p.(shutdown := true) }

  /** Which is as good as a shutdown exactly when no worker is waiting to be told. */
  lemma HalfShutdownKeepsInv(p: Pool)
    requires Inv(p)
    ensures Inv(HalfShutdown(p)) <==> WaitingSet(p.workers) == {}
  {
  }

  /** After shutdown every worker step brings the drain closer to its end ... */
  lemma DrainDecreases(p: Pool, e: Event)
    requires Inv(p) && p.shutdown && Enabled(p, e) && WorkerEvent(e)
    ensures Step(p, e).shutdown && 0 <= Remaining(Step(p, e)) < Remaining(p)
  {
    NobodyWaits(p);
    hide Inv, TakeNext, Remaining;
    match e
    case TakeE(w) => TakeDrains(p, w);
    case StartE(w) => MoveDrains(p, w, e);
    case CancelledE(w) => MoveDrains(p, w, e);
    case FinishE(w) => MoveDrains(p, w, e);
    case ReleaseE(w, who) => ReleaseDrains(p, w, who);
  }

  /** ... and as long as some worker has not left, some worker step is possible. */
  lemma DrainNeverStuck(p: Pool, w: nat) returns (e: Event)
    requires Inv(p) && p.shutdown && w in p.workers && !p.workers[w].Exited?
    ensures WorkerEvent(e) && Enabled(p, e)
  {
    assert w !in WaitingSet(p.workers);
    match p.workers[w]
    case Idle => e := TakeE(w);
    case Notified => e := TakeE(w);
    case Taken(_) => e := StartE(w);
    case Running(_) => e := FinishE(w);
    case Releasing(_) => e := ReleaseE(w, 0);
    case _ => assert false; e := TakeE(w);
  }

  /** So shutdown(wait=True) can return: a finite run of worker steps takes every worker out. */
  lemma {:induction false} DrainFinishes(p: Pool) returns (es: seq<Event>)
    requires Inv(p) && p.shutdown
    ensures Runs(p, es) && forall e <- es :: WorkerEvent(e)
    ensures forall w :: w in p.workers ==> w in Run(p, es).workers && Run(p, es).workers[w].Exited?
    decreases Remaining(p)
  {
    if w :| w in p.workers && !p.workers[w].Exited? {
      var e := DrainNeverStuck(p, w);
      DrainDecreases(p, e);
      StepKeepsInv(p, e);
      var rest := DrainFinishes(Step(p, e));
      es := [e] + rest;
      assert es[1..] == rest;
    } else {
      es := [];
    }
  }
}

/** The pool object: each method is one region under the lock, proved to be one step of the machine. */
module Pool {
  import opened PoolModel

  datatype TakeResult = Entry(job: Job) | SHUTDOWN | MustWait

  class PriorityDecodePool {
    const maxWorkers: nat
    const maxLongInflight: nat
    var short: seq<Job>
    var long: seq<Job>
    var nextSeq: nat
    var longInflight: int
    var running: int
    var shutdown: bool
    /** Where each worker thread is, and what has been accepted and taken so far. */
    ghost var workers: map<nat, Worker>
    ghost var accepted: seq<Job>
    ghost var taken: seq<Job>

    ghost function State(): PoolModel.Pool
      reads this
    {
      PoolModel.Pool(maxLongInflight, short, long, nextSeq, longInflight, running, shutdown, workers, accepted, taken)
    }

    ghost predicate Valid()
      reads this
    {
      Inv(State()) && 1 <= maxLongInflight <= maxWorkers
    }

    /** `requested` is None when the caller gives no cap: then at most half the workers run long jobs. */
    constructor (workerCount: int, requested: int, given: bool)
      ensures Valid() && !shutdown && short == long == [] && workers.Keys == Threads(maxWorkers)
      ensures State() == Start(maxLongInflight, Threads(maxWorkers))
      ensures maxWorkers == if workerCount < 1 then 1 else workerCount
      ensures !given && maxWorkers == 1 ==> maxLongInflight == 1
      ensures !given && maxWorkers > 1 ==> 2 * maxLongInflight <= maxWorkers <= 2 * maxLongInflight + 1
      ensures given && 1 <= requested <= maxWorkers ==> maxLongInflight == requested
      ensures given && requested < 1 ==> maxLongInflight == 1
      ensures given && requested > maxWorkers ==> maxLongInflight == maxWorkers
    {
      var n := if workerCount < 1 then 1 else workerCount;
      var want := if given then requested else if n / 2 < 1 then 1 else n / 2;
      var capped := if want < n then want else n;
      maxWorkers := n;
      maxLongInflight := if capped < 1 then 1 else capped;
      short, long, nextSeq, longInflight, running, shutdown := [], [], 0, 0, 0, false;
      workers, accepted, taken := map w | w in Threads(n) :: Idle, [], [];
      new;
    }

    /** Queue a job and wake one waiter; refused (a raised error) after shutdown. */
    method Submit(period: int, ghost who: nat) returns (ok: bool)
      requires Valid() && CanNotify(workers, who)
      modifies this
      ensures Valid()
      ensures ok == !old(shutdown)
      ensures State() == Step(old(State()), SubmitE(period, who))
    {
      hide Inv, Push, Notify;
      StepKeepsInv(State(), SubmitE(period, who));
      if shutdown {
        return false;
      }
      nextSeq := nextSeq + 1;
      var entry := Job(period, nextSeq);
      if period >= LONG_PERIOD_SECONDS {
        long := Push(long, entry);
      } else {
        short := Push(short, entry);
      }
      accepted := accepted + [entry];
      workers := Notify(workers, who);
      return true;
    }

    /** One pass of the take loop. */
    method TakeNext(ghost w: nat) returns (r: TakeResult)
      requires Valid() && w in workers && workers[w].Awake()
      modifies this
      ensures Valid()
      ensures State() == Step(old(State()), TakeE(w))
      ensures match workers[w]
        case Taken(j) => r == Entry(j)
        case Exited => r == SHUTDOWN
        case _ => r == MustWait && workers[w].Waiting?
      ensures TakesSmallest(old(State()), Step(old(State()), TakeE(w)), w)
    {
      hide Inv, Push, Notify, TakesSmallest;
      TakenIsSmallest(State(), w);
      StepKeepsInv(State(), TakeE(w));
      if short != [] {
        var entry := short[0];
        short := short[1..];
        taken, workers := taken + [entry], workers[w := Taken(entry)];
        return Entry(entry);
      }
      if long != [] && longInflight < maxLongInflight {
        var entry := long[0];
        long := long[1..];
        longInflight := longInflight + 1;
        taken, workers := taken + [entry], workers[w := Taken(entry)];
        return Entry(entry);
      }
      if shutdown {
        if long != [] {
          var entry := long[0];
          long := long[1..];
          longInflight := longInflight + 1;
          taken, workers := taken + [entry], workers[w := Taken(entry)];
          return Entry(entry);
        }
        workers := workers[w := Exited];
        return SHUTDOWN;
      }
      workers := workers[w := Waiting];
      return MustWait;
    }

    method MarkRunning(ghost w: nat)
      requires Valid() && w in workers && workers[w].Taken?
      modifies this
      ensures Valid() && State() == Step(old(State()), StartE(w))
    {
      StepKeepsInv(State(), StartE(w));
      running := running + 1;
      workers := workers[w := Running(workers[w].job)];
    }

    method MarkFinished(ghost w: nat)
      requires Valid() && w in workers && workers[w].Running?
      modifies this
      ensures Valid() && State() == Step(old(State()), FinishE(w))
    {
      hide Inv, Push, Notify;
      StepKeepsInv(State(), FinishE(w));
      running := running - 1;
      workers := workers[w := if workers[w].job.IsLong() then Releasing(workers[w].job) else Idle];
    }

    method ReleaseLong(ghost w: nat, ghost who: nat)
      requires Valid() && w in workers && workers[w].Releasing? && CanNotify(workers, who)
      modifies this
      ensures Valid() && State() == Step(old(State()), ReleaseE(w, who))
      ensures longInflight == old(longInflight) - 1
    {
      StepKeepsInv(State(), ReleaseE(w, who));
      assert w in LongSet(workers);
      if longInflight > 0 {
        longInflight := longInflight - 1;
      }
      workers := Notify(workers, who)[w := Idle];
    }

    /**
     * Refuse further jobs and wake every worker.  Asked to cancel what is queued, the
     * loop over the queues raises on its first entry, with the flag set and nobody woken.
     */
    method Shutdown(cancelFutures: bool) returns (raised: bool)
      requires Valid()
      modifies this
      ensures raised <==> cancelFutures && old(short + long) != []
      ensures !raised ==> Valid() && State() == Step(old(State()), ShutdownE)
      ensures raised ==> State() == HalfShutdown(old(State()))
    {
      hide Inv;
      StepKeepsInv(State(), ShutdownE);
      shutdown := true;
      if cancelFutures && short + long != [] {
        return true;
      }
      workers := NotifyAll(workers);
      return false;
    }

    method Pending() returns (n: nat)
      requires Valid()
      ensures n == |accepted| - |taken|
    {
      n := |short| + |long|;
      QueueSizes(State());
    }
  }

  /** Jobs queued are those accepted and not yet taken. */
  lemma QueueSizes(p: PoolModel.Pool)
    requires Inv(p)
    ensures |p.short| + |p.long| == |p.accepted| - |p.taken|
  {
    var queued := p.short + p.long;
    forall i, k | 0 <= i < k < |queued| ensures queued[i] != queued[k] {
      if i < |p.short| && |p.short| <= k {
        assert queued[i] in p.short && queued[k] in p.long;
      }
    }
    forall j ensures multiset(queued + p.taken)[j] == multiset(p.accepted)[j] {
      assert j in queued <==> InQueue(p, j);
      DistinctCounts(queued, j);
      DistinctCounts(p.taken, j);
      DistinctCounts(p.accepted, j);
    }
    assert multiset(queued + p.taken) == multiset(p.accepted);
    assert |queued + p.taken| == |multiset(queued + p.taken)|;
  }
}
