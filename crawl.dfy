// The crawler: the per-node update decision, the output node set seeded
// from the input set, and the sequential part of the crawl loop. Network
// results (dial and status exchange, ENR request), the clock and the
// scheduling of goroutines are inputs.
module Crawl {

  import opened GoTypes

  /** `enode.ID`: the 32-byte identity of a node. */
  type NodeId = Bytes

  /** `enode.Node` as the crawler uses it: identity, ENR sequence number, signed record. */
  datatype Node = Node(id: NodeId, sequence: uint64, record: Bytes)

  const Second: int := 1_000_000_000

  /**
   * A `time.Time` as Go keeps it: whole seconds since the zero time
   * (January 1, year 1, UTC) and the nanoseconds within that second.
   */
  datatype Instant = Instant(sec: int, nsec: int)
  type Time = t: Instant | 0 <= t.nsec < Second witness Instant(0, 0)

  /** The zero `time.Time`, the only one for which `IsZero` holds. */
  const Zero: Time := Instant(0, 0)

  /** The instant as a count of nanoseconds since the zero time. */
  function Nanos(t: Time): int
  {
    t.sec * Second + t.nsec
  }

  /** A `time.Duration`: a signed 64-bit count of nanoseconds. */
  type Duration = int64

  /** One entry of a node set, with the fields the crawler maintains. */
  datatype NodeRecord = NodeRecord(
    n: Option<Node>,
    seqNum: uint64,
    score: int,
    firstResponse: Time,
    lastResponse: Time,
    lastCheck: Time)

  /** The zero value, which a lookup of a missing id yields in Go. */
  const ZeroRecord := NodeRecord(None, 0, 0, Zero, Zero, Zero)

  /** `p2p.NodeSet`: records keyed by node id. */
  type NodeSet = map<NodeId, NodeRecord>

  function Lookup(s: NodeSet, id: NodeId): Option<NodeRecord>
  {
    if id in s then Some(s[id]) else None
  }

  /** `truncNow`: the current time rounded down to a whole second. */
  function TruncNow(now: Time): (t: Time)
    ensures t.nsec == 0
    ensures Nanos(t) <= Nanos(now) < Nanos(t) + Second
  {
    now.(nsec := 0)
  }

  /** `time.Since(t)` at time `now`: the difference, clamped to the `Duration` range. */
  function Since(now: Time, t: Time): (d: Duration)
    ensures MinInt64 <= Nanos(now) - Nanos(t) <= MaxInt64 ==> d == Nanos(now) - Nanos(t)
    ensures Nanos(now) - Nanos(t) > MaxInt64 ==> d == MaxInt64
    ensures Nanos(now) - Nanos(t) < MinInt64 ==> d == MinInt64
  {
    var diff := (now.sec - t.sec) * Second + (now.nsec - t.nsec);
    if diff > MaxInt64 then MaxInt64
    else if diff < MinInt64 then MinInt64
    else diff
  }

  /** What `updateNode` reports. */
  datatype Outcome = Removed | SkipRecent | SkipIncompat | Added | Updated

  /** The integer constants the outcomes are in Go (`iota` order). */
  function OutcomeCode(o: Outcome): (c: int)
    ensures 0 <= c <= 4
  {
    match o
    case Removed => 0
    case SkipRecent => 1
    case SkipIncompat => 2
    case Added => 3
    case Updated => 4
  }

  /** The five constants are distinct, so the code determines the outcome. */
  lemma OutcomeCodesDistinct(a: Outcome, b: Outcome)
    ensures OutcomeCode(a) == OutcomeCode(b) <==> a == b
  {
  }

  /** Result of dialing a node and exchanging hello and status with it. */
  datatype PeerProbe = DialFailed | PeerFailed | Peered(networkId: uint64)

  /** Result of asking the resolver for the node's current record (EIP-868). */
  datatype EnrResult = EnrFailed | EnrOk(refreshed: Node)

  /** The crawler's settings: the revalidation interval and the network-id filter (0: none). */
  datatype Config = Config(revalidateInterval: Duration, networkId: uint64)

  /**
   * `shouldSkipNode`: with no network filter nothing is skipped and the probe
   * is not looked at; otherwise a node is skipped unless it could be dialed,
   * answered the status exchange, and declared the configured network.
   */
  function ShouldSkipNode(networkId: uint64, probe: PeerProbe): (skip: bool)
    ensures networkId == 0 ==> !skip
    ensures networkId != 0 ==> (skip <==> !(probe.Peered? && probe.networkId == networkId))
  {
    if networkId == 0 then false
    else match probe
      case DialFailed => true
      case PeerFailed => true
      case Peered(id) => networkId != id
  }

  /** What happens to the node's entry of the output set. */
  datatype Effect = Keep | Store(rec: NodeRecord) | Delete

  datatype Step = Step(outcome: Outcome, effect: Effect)

  /** The entry is known and was checked less than the interval ago. */
  predicate Recent(cfg: Config, prior: Option<NodeRecord>, now: Time)
  {
    prior.Some? && Since(now, prior.value.lastCheck) < cfg.revalidateInterval
  }

  function Known(prior: Option<NodeRecord>): NodeRecord
  {
    if prior.Some? then prior.value else ZeroRecord
  }

  /**
   * The decision `updateNode` makes for one node whose current entry is
   * `prior`: the outcome, and what is done to the entry.
   */
  function Transition(cfg: Config, prior: Option<NodeRecord>, probe: PeerProbe, enr: EnrResult, now: Time): (r: Step)
    // Only the two skips leave the entry alone, only a removal deletes it,
    // and a stored entry has a positive score.
    ensures r.effect == Keep <==> r.outcome in {SkipRecent, SkipIncompat}
    ensures r.effect == Delete <==> r.outcome == Removed
    ensures r.effect.Store? ==> r.effect.rec.score > 0
  {
    var node := Known(prior);
    if Recent(cfg, prior, now) then Step(SkipRecent, Keep)
    else if ShouldSkipNode(cfg.networkId, probe) then Step(SkipIncompat, Keep)
    else
      var t := TruncNow(now);
      match enr
      case EnrFailed =>
        if node.score == 0 then Step(SkipIncompat, Keep)
        else
          var s := GoHalf(node.score);
          if s <= 0 then Step(Removed, Delete)
          else Step(Updated, Store(node.(score := s, lastCheck := t)))
      case EnrOk(nn) =>
        var s := node.score + 1;
        if s <= 0 then Step(Removed, Delete)
        else if node.firstResponse == Zero then
          Step(Added, Store(node.(n := Some(nn), seqNum := nn.sequence, score := s, firstResponse := t, lastResponse := t, lastCheck := t)))
        else
          Step(Updated, Store(node.(n := Some(nn), seqNum := nn.sequence, score := s, lastResponse := t, lastCheck := t)))
  }

  /**
   * Every branch of the decision: skip-recent exactly for recently checked
   * known entries (the filter and the resolver play no part); skip-incompatible
   * when filtered out or when the resolver fails on a zero score; otherwise
   * the score is halved (Go division) on a failure and raised by one on a
   * success, the entry is deleted when that leaves it non-positive, and
   * stored otherwise with the truncated time as its last check.
   */
  lemma TransitionCases(cfg: Config, prior: Option<NodeRecord>, probe: PeerProbe, enr: EnrResult, now: Time)
    // Skip-recent exactly for recently checked known entries; nothing else is consulted.
    ensures var r := Transition(cfg, prior, probe, enr, now);
            r.outcome == SkipRecent <==> Recent(cfg, prior, now)
    ensures var r := Transition(cfg, prior, probe, enr, now);
            Recent(cfg, prior, now) ==> r.effect == Keep
    // Skip-incompatible: filtered out, or the resolver fails on a node with score 0.
    ensures var r := Transition(cfg, prior, probe, enr, now);
            r.outcome == SkipIncompat <==>
                !Recent(cfg, prior, now) &&
                (ShouldSkipNode(cfg.networkId, probe) || (enr.EnrFailed? && Known(prior).score == 0))
    // A stored entry was checked at the truncated time.
    ensures var r := Transition(cfg, prior, probe, enr, now);
            r.effect.Store? ==> r.effect.rec.lastCheck == TruncNow(now)
    // Resolver failure on a scored node: the score is halved (Go division).
    ensures var r := Transition(cfg, prior, probe, enr, now);
            r.outcome != SkipIncompat && r.outcome != SkipRecent && enr.EnrFailed? ==>
                var prev := Known(prior);
                (r.outcome == Removed <==> GoHalf(prev.score) <= 0) &&
                (r.outcome != Removed ==>
                   r == Step(Updated, Store(prev.(score := GoHalf(prev.score), lastCheck := TruncNow(now)))))
    // Resolver success: score + 1, fresh record and sequence, response times.
    ensures var r := Transition(cfg, prior, probe, enr, now);
            r.outcome != SkipIncompat && r.outcome != SkipRecent && enr.EnrOk? ==>
                var prev := Known(prior);
                var t := TruncNow(now);
                (r.outcome == Removed <==> prev.score + 1 <= 0) &&
                (r.outcome != Removed ==>
                   r.effect.Store? &&
                   r.effect.rec.score == prev.score + 1 &&
                   r.effect.rec.n == Some(enr.refreshed) && r.effect.rec.seqNum == enr.refreshed.sequence &&
                   r.effect.rec.lastResponse == t &&
                   r.effect.rec.firstResponse == (if prev.firstResponse == Zero then t else prev.firstResponse) &&
                   (r.outcome == Added <==> prev.firstResponse == Zero) &&
                   (r.outcome == Updated <==> prev.firstResponse != Zero))
  {
  }

  /** The output set after the entry of `id` undergoes `e`. */
  function Apply(s: NodeSet, id: NodeId, e: Effect): (r: NodeSet)
    ensures forall k :: k != id ==> Lookup(r, k) == Lookup(s, k)
    ensures e == Keep ==> r == s
    ensures e == Delete ==> id !in r
    ensures e.Store? ==> id in r && r[id] == e.rec
  {
    match e
    case Keep => s
    case Store(rec) => s[id := rec]
    case Delete => s - {id}
  }

  /** Every entry has a positive score (the store's intended invariant). */
  predicate AllScored(s: NodeSet)
  {
    forall id :: id in s ==> s[id].score > 0
  }

  /** The counters `run` keeps, one per outcome. */
  datatype Counter = AddedCount | UpdatedCount | SkippedCount | RecentCount | RemovedCount

  /**
   * The counter `run` increments for an outcome code: one per named
   * outcome, and the default branch (`nodeUpdated` among its codes) counts
   * as updated.
   */
  function CounterOf(status: int): (c: Counter)
    ensures c == SkippedCount <==> status == OutcomeCode(SkipIncompat)
    ensures c == RecentCount <==> status == OutcomeCode(SkipRecent)
    ensures c == RemovedCount <==> status == OutcomeCode(Removed)
    ensures c == AddedCount <==> status == OutcomeCode(Added)
    ensures c == UpdatedCount <==> status !in {0, 1, 2, 3}
  {
    if status == OutcomeCode(SkipIncompat) then SkippedCount
    else if status == OutcomeCode(SkipRecent) then RecentCount
    else if status == OutcomeCode(Removed) then RemovedCount
    else if status == OutcomeCode(Added) then AddedCount
    else UpdatedCount
  }

  datatype Tally = Tally(added: nat, updated: nat, skipped: nat, recent: nat, removed: nat)

  const NoCounts := Tally(0, 0, 0, 0, 0)

  function Get(t: Tally, c: Counter): nat
  {
    match c
    case AddedCount => t.added
    case UpdatedCount => t.updated
    case SkippedCount => t.skipped
    case RecentCount => t.recent
    case RemovedCount => t.removed
  }

  function Total(t: Tally): nat
  {
    t.added + t.updated + t.skipped + t.recent + t.removed
  }

  /** The worker's switch: exactly the outcome's counter goes up by one. */
  function Record(t: Tally, status: int): (r: Tally)
    ensures forall c :: Get(r, c) == Get(t, c) + (if c == CounterOf(status) then 1 else 0)
  {
    match CounterOf(status)
    case SkippedCount => t.(skipped := t.skipped + 1)
    case RecentCount => t.(recent := t.recent + 1)
    case RemovedCount => t.(removed := t.removed + 1)
    case AddedCount => t.(added := t.added + 1)
    case UpdatedCount => t.(updated := t.updated + 1)
  }

  /** Recording an outcome adds one to the total. */
  lemma RecordTotal(t: Tally, status: int)
    ensures Total(Record(t, status)) == Total(t) + 1
  {
  }

  /** `nthreads < 1` is raised to one worker. */
  function Threads(nthreads: int): (r: int)
    ensures r >= 1
    ensures nthreads >= 1 ==> r == nthreads
    ensures nthreads < 1 ==> r == 1
  {
    if nthreads < 1 then 1 else nthreads
  }

  /** A node source (`enode.Iterator`); `run` only compares them by identity. */
  class Iterator {
    constructor ()
    {
    }
  }

  /**
   * What the crawl loop observes, one at a time: a worker takes a node off
   * the channel (with the answers the network and the clock gave for it),
   * an iterator finishes, the armed timeout fires, or the status ticker ticks.
   */
  datatype Event =
    | Deliver(node: Node, probe: PeerProbe, enr: EnrResult, now: Time)
    | IterDone(it: Iterator)
    | TimerFired
    | Tick

  datatype Exit = Running | AllIteratorsDone | TimedOut

  /**
   * The loop's own variables: the iterators still running, whether the
   * timeout is armed, how the loop exited, and how many events it has taken.
   */
  datatype Loop = Loop(live: int, armed: bool, exit: Exit, handled: nat)

  function Begin(iterators: nat): Loop
  {
    Loop(iterators, false, Running, 0)
  }

  /**
   * What the select does with one event. After the loop has exited nothing
   * changes. The timeout is armed only when the input iterator finishes and
   * the timeout is positive; a `TimerFired` taken while unarmed changes
   * nothing but the count of taken events.
   */
  function LoopStep(inputIter: Iterator, timeout: Duration, l: Loop, e: Event): (r: Loop)
    ensures l.exit != Running ==> r == l
    ensures l.exit == Running ==> r.handled == l.handled + 1
    // Arming is permanent, and only the input iterator's completion arms a positive timeout.
    ensures l.armed ==> r.armed
    ensures r.armed && !l.armed ==> e == IterDone(inputIter) && timeout > 0
    // The loop breaks only on the last completion or on the armed timer.
    ensures l.exit == Running && r.exit == AllIteratorsDone ==> e.IterDone? && l.live == 1
    ensures l.exit == Running && r.exit == TimedOut ==> e == TimerFired && l.armed
    ensures l.exit == Running && r.exit != Running ==> r.exit in {AllIteratorsDone, TimedOut}
    // And it does break on them.
    ensures l.exit == Running && e.IterDone? && l.live == 1 ==> r.exit == AllIteratorsDone
    ensures l.exit == Running && l.armed && e == TimerFired ==> r.exit == TimedOut
  {
    if l.exit != Running then l
    else match e
      case Deliver(_, _, _, _) => l.(handled := l.handled + 1)
      case IterDone(it) =>
        var live := l.live - 1;
        Loop(live, l.armed || (it == inputIter && timeout > 0),
             if live == 0 then AllIteratorsDone else Running, l.handled + 1)
      case TimerFired => l.(exit := if l.armed then TimedOut else Running, handled := l.handled + 1)
      case Tick => l.(handled := l.handled + 1)
  }

  /** The loop variables after a sequence of events; each event is taken at most once. */
  function LoopRun(inputIter: Iterator, timeout: Duration, l: Loop, es: seq<Event>): (r: Loop)
    ensures l.handled <= r.handled <= l.handled + |es|
    decreases |es|
  {
    if es == [] then l
    else LoopStep(inputIter, timeout, LoopRun(inputIter, timeout, l, es[..|es| - 1]), es[|es| - 1])
  }

  /** The events the loop takes from `es` before it exits. */
  function Taken(inputIter: Iterator, timeout: Duration, n: nat, es: seq<Event>): seq<Event>
  {
    es[..LoopRun(inputIter, timeout, Begin(n), es).handled]
  }

  /** What the workers build: the output set and the outcome counters. */
  datatype Work = Work(store: NodeSet, tally: Tally)

  /** A worker handles a delivered node: its entry is updated and its outcome counted. */
  function WorkStep(cfg: Config, w: Work, e: Event): (r: Work)
    ensures !e.Deliver? ==> r == w
    ensures forall id :: (!e.Deliver? || id != e.node.id) ==> Lookup(r.store, id) == Lookup(w.store, id)
    ensures e.Deliver? && e.node.id in r.store && Lookup(r.store, e.node.id) != Lookup(w.store, e.node.id) ==>
              r.store[e.node.id].score > 0
  {
    if e.Deliver? then
      var st := Transition(cfg, Lookup(w.store, e.node.id), e.probe, e.enr, e.now);
      Work(Apply(w.store, e.node.id, st.effect), Record(w.tally, OutcomeCode(st.outcome)))
    else w
  }

  function WorkRun(cfg: Config, w: Work, es: seq<Event>): Work
    decreases |es|
  {
    if es == [] then w
    else WorkStep(cfg, WorkRun(cfg, w, es[..|es| - 1]), es[|es| - 1])
  }

  function CountDeliveries(es: seq<Event>): nat
    decreases |es|
  {
    if es == [] then 0 else CountDeliveries(es[..|es| - 1]) + (if es[|es| - 1].Deliver? then 1 else 0)
  }

  function CountDone(es: seq<Event>): nat
    decreases |es|
  {
    if es == [] then 0 else CountDone(es[..|es| - 1]) + (if es[|es| - 1].IterDone? then 1 else 0)
  }

  /** The iterators whose completion is among `es`, in order; one per completion. */
  function DoneIters(es: seq<Event>): (r: seq<Iterator>)
    ensures |r| == CountDone(es)
    ensures forall it :: it in r ==> IterDone(it) in es
    decreases |es|
  {
    if es == [] then []
    else
      var e := es[|es| - 1];
      DoneIters(es[..|es| - 1]) + (if e.IterDone? then [e.it] else [])
  }

  /**
   * Each started iterator reports completion once (`runIterator` sends on
   * the done channel as it returns), and only the crawler's iterators are
   * started: the completions among `es` are drawn from `iters`.
   */
  predicate DoneByStarted(iters: seq<Iterator>, es: seq<Event>)
  {
    multiset(DoneIters(es)) <= multiset(iters)
  }

  /** Ids of the nodes delivered among `es`. */
  function Delivered(es: seq<Event>): set<NodeId>
    decreases |es|
  {
    if es == [] then {}
    else Delivered(es[..|es| - 1]) + (if es[|es| - 1].Deliver? then {es[|es| - 1].node.id} else {})
  }

  /**
   * The loop takes events until it exits: it takes all of them while it
   * runs, and the events after the exiting one are not taken.
   */
  lemma {:induction false} HandledPrefix(inputIter: Iterator, timeout: Duration, n: nat, es: seq<Event>)
    ensures var r := LoopRun(inputIter, timeout, Begin(n), es);
            (r.exit == Running ==> r.handled == |es|) &&
            (r.handled < |es| ==> r.exit != Running) &&
            r == LoopRun(inputIter, timeout, Begin(n), es[..r.handled])
  {
    if es != [] {
      var p := es[..|es| - 1];
      HandledPrefix(inputIter, timeout, n, p);
      var rp := LoopRun(inputIter, timeout, Begin(n), p);
      assert p[..rp.handled] == es[..rp.handled];
      if rp.exit == Running {
        assert es[..|es|] == es;
      }
    }
  }

  /** Once the loop has exited, later events change nothing. */
  lemma {:induction false} Stopped(inputIter: Iterator, timeout: Duration, l: Loop, es: seq<Event>, i: nat)
    requires i <= |es|
    requires LoopRun(inputIter, timeout, l, es[..i]).exit != Running
    ensures LoopRun(inputIter, timeout, l, es) == LoopRun(inputIter, timeout, l, es[..i])
    decreases |es| - i
  {
    if i == |es| {
      assert es[..i] == es;
    } else {
      var p := es[..|es| - 1];
      assert p[..i] == es[..i];
      Stopped(inputIter, timeout, l, p, i);
    }
  }

  /** Exactly one counter goes up per node a worker handles. */
  lemma {:induction false} CountsMatchDeliveries(cfg: Config, w: Work, es: seq<Event>)
    ensures Total(WorkRun(cfg, w, es).tally) == Total(w.tally) + CountDeliveries(es)
  {
    if es != [] {
      var p := es[..|es| - 1];
      CountsMatchDeliveries(cfg, w, p);
      var e := es[|es| - 1];
      if e.Deliver? {
        var wp := WorkRun(cfg, w, p);
        var st := Transition(cfg, Lookup(wp.store, e.node.id), e.probe, e.enr, e.now);
        RecordTotal(wp.tally, OutcomeCode(st.outcome));
      }
    }
  }

  /**
   * The live-iterator count is the number of iterators minus the finished
   * ones, never below zero; the loop ends by exhaustion exactly when it has
   * taken as many completions as there are iterators (which completions
   * those are is `AllIteratorsFinished`).
   */
  lemma {:induction false} LiveCountdown(inputIter: Iterator, timeout: Duration, n: nat, es: seq<Event>)
    requires n >= 1
    ensures var r := LoopRun(inputIter, timeout, Begin(n), es);
            r.live == n - CountDone(es[..r.handled]) && r.live >= 0 &&
            (r.exit == AllIteratorsDone <==> r.live == 0) &&
            (r.exit == AllIteratorsDone ==> CountDone(es[..r.handled]) == n)
  {
    if es != [] {
      var p := es[..|es| - 1];
      var e := es[|es| - 1];
      LiveCountdown(inputIter, timeout, n, p);
      HandledPrefix(inputIter, timeout, n, p);
      var rp := LoopRun(inputIter, timeout, Begin(n), p);
      var r := LoopRun(inputIter, timeout, Begin(n), es);
      assert r == LoopStep(inputIter, timeout, rp, e);
      if rp.exit == Running {
        assert r.handled == |es| && es[..|es|] == es && p[..rp.handled] == p;
        assert CountDone(es) == CountDone(p) + (if e.IterDone? then 1 else 0);
        assert r.live == rp.live - (if e.IterDone? then 1 else 0);
      } else {
        assert r == rp;
        assert es[..r.handled] == p[..rp.handled];
      }
    } else {
      assert es[..0] == [];
    }
  }

  /** The completions in a prefix are among those of the whole sequence. */
  lemma {:induction false} DonePrefix(es: seq<Event>, k: nat)
    requires k <= |es|
    ensures multiset(DoneIters(es[..k])) <= multiset(DoneIters(es))
    decreases |es|
  {
    if k == |es| {
      assert es[..k] == es;
    } else {
      var p := es[..|es| - 1];
      assert p[..k] == es[..k];
      DonePrefix(p, k);
    }
  }

  /** A sub-multiset as large as the whole is the whole. */
  lemma SubMultisetOfSameSize<T>(a: multiset<T>, b: multiset<T>)
    requires a <= b && |a| == |b|
    ensures a == b
  {
    assert b == a + (b - a);
    assert |b - a| == 0;
  }

  /**
   * When the completions come from the crawler's iterators, the loop ends by
   * exhaustion only once every one of them has finished.
   */
  lemma AllIteratorsFinished(inputIter: Iterator, timeout: Duration, iters: seq<Iterator>, es: seq<Event>)
    requires |iters| >= 1 && DoneByStarted(iters, es)
    ensures var r := LoopRun(inputIter, timeout, Begin(|iters|), es);
            r.exit == AllIteratorsDone ==> forall it :: it in iters ==> IterDone(it) in es[..r.handled]
  {
    var r := LoopRun(inputIter, timeout, Begin(|iters|), es);
    if r.exit == AllIteratorsDone {
      LiveCountdown(inputIter, timeout, |iters|, es);
      DonePrefix(es, r.handled);
      var done := DoneIters(es[..r.handled]);
      SubMultisetOfSameSize(multiset(done), multiset(iters));
      forall it | it in iters
        ensures IterDone(it) in es[..r.handled]
      {
        assert it in multiset(iters);
        assert it in done;
      }
    }
  }

  /** The timeout is armed exactly when it is positive and the input iterator has finished. */
  lemma {:induction false} TimeoutArming(inputIter: Iterator, timeout: Duration, n: nat, es: seq<Event>)
    ensures var r := LoopRun(inputIter, timeout, Begin(n), es);
            r.armed <==> timeout > 0 && IterDone(inputIter) in es[..r.handled]
  {
    if es != [] {
      var p := es[..|es| - 1];
      var e := es[|es| - 1];
      TimeoutArming(inputIter, timeout, n, p);
      HandledPrefix(inputIter, timeout, n, p);
      var rp := LoopRun(inputIter, timeout, Begin(n), p);
      var r := LoopRun(inputIter, timeout, Begin(n), es);
      assert r == LoopStep(inputIter, timeout, rp, e);
      if rp.exit == Running {
        assert r.handled == |es|;
        assert es[..r.handled] == p[..rp.handled] + [e];
        assert r.armed <==> rp.armed || (e == IterDone(inputIter) && timeout > 0);
      } else {
        assert r == rp;
        assert es[..r.handled] == p[..rp.handled];
      }
    } else {
      assert es[..0] == [];
    }
  }

  /** A loop that timed out was armed, and the last event it took was the timer. */
  lemma {:induction false} TimedOutWhenArmed(inputIter: Iterator, timeout: Duration, n: nat, es: seq<Event>)
    ensures var r := LoopRun(inputIter, timeout, Begin(n), es);
            r.exit == TimedOut ==> r.armed && r.handled > 0 && es[r.handled - 1] == TimerFired
  {
    if es != [] {
      var p := es[..|es| - 1];
      TimedOutWhenArmed(inputIter, timeout, n, p);
      HandledPrefix(inputIter, timeout, n, p);
    }
  }

  /**
   * Conversely, once the timeout is armed, the timer firing ends the loop at
   * once: the loop has timed out, and that event is the last it takes.
   */
  lemma ArmedTimerEnds(inputIter: Iterator, timeout: Duration, n: nat, es: seq<Event>, i: nat)
    requires i < |es| && es[i] == TimerFired
    requires LoopRun(inputIter, timeout, Begin(n), es[..i]).exit == Running
    requires LoopRun(inputIter, timeout, Begin(n), es[..i]).armed
    ensures var r := LoopRun(inputIter, timeout, Begin(n), es);
            r.exit == TimedOut && r.handled == i + 1
  {
    HandledPrefix(inputIter, timeout, n, es[..i]);
    var q := es[..i + 1];
    assert q[..i] == es[..i] && q[i] == TimerFired;
    assert LoopRun(inputIter, timeout, Begin(n), q).exit == TimedOut;
    Stopped(inputIter, timeout, Begin(n), es, i + 1);
  }

  /** Only delivered nodes' entries change. */
  lemma {:induction false} OnlyDeliveredChange(cfg: Config, w: Work, es: seq<Event>)
    ensures forall id :: id !in Delivered(es) ==> Lookup(WorkRun(cfg, w, es).store, id) == Lookup(w.store, id)
  {
    if es != [] {
      OnlyDeliveredChange(cfg, w, es[..|es| - 1]);
    }
  }

  /**
   * Every entry the crawl writes has a positive score, so a store of scored
   * entries stays one.
   */
  lemma {:induction false} WrittenEntriesScored(cfg: Config, w: Work, es: seq<Event>)
    ensures var r := WorkRun(cfg, w, es).store;
            (forall id :: id in r && Lookup(r, id) != Lookup(w.store, id) ==> r[id].score > 0) &&
            (AllScored(w.store) ==> AllScored(r))
  {
    if es != [] {
      var p := es[..|es| - 1];
      WrittenEntriesScored(cfg, w, p);
      var rp := WorkRun(cfg, w, p);
      var e := es[|es| - 1];
      if e.Deliver? {
        TransitionCases(cfg, Lookup(rp.store, e.node.id), e.probe, e.enr, e.now);
      }
    }
  }

  /**
   * A known node checked 10 s ago with a 30 s interval is skipped as recent
   * and keeps its entry; an unknown node whose ENR request succeeds is
   * added with score 1.
   */
  lemma RecentAndAdded(a: Node, b: Node, b': Node, recA: NodeRecord)
    requires a.id != b.id && recA.lastCheck == Instant(90, 0)
    ensures var now := Instant(100, 0);
            var es := [Deliver(a, DialFailed, EnrFailed, now), Deliver(b, DialFailed, EnrOk(b'), now)];
            var r := WorkRun(Config(30 * Second, 0), Work(map[a.id := recA], NoCounts), es);
            r.store == map[a.id := recA, b.id := NodeRecord(Some(b'), b'.sequence, 1, now, now, now)] &&
            r.tally == NoCounts.(recent := 1, added := 1)
  {
    var now := Instant(100, 0);
    var cfg := Config(30 * Second, 0);
    var store := map[a.id := recA];
    var es := [Deliver(a, DialFailed, EnrFailed, now), Deliver(b, DialFailed, EnrOk(b'), now)];
    var w0 := Work(store, NoCounts);
    var w1 := Work(store, NoCounts.(recent := 1));
    ExampleTransitions(recA, b');
    assert es[..1] == [es[0]];
    assert es[..1][..0] == [];
    assert Lookup(store, a.id) == Some(recA);
    assert Record(NoCounts, OutcomeCode(SkipRecent)) == w1.tally;
    assert WorkRun(cfg, w0, es[..1]) == WorkStep(cfg, w0, es[0]) == w1;
    assert Lookup(store, b.id) == None;
    assert Record(w1.tally, OutcomeCode(Added)) == NoCounts.(recent := 1, added := 1);
    assert WorkRun(cfg, w0, es) == WorkStep(cfg, w1, es[1]);
  }

  /** The two per-node decisions of the scenario above. */
  lemma ExampleTransitions(recA: NodeRecord, b': Node)
    requires recA.lastCheck == Instant(90, 0)
    ensures Transition(Config(30 * Second, 0), Some(recA), DialFailed, EnrFailed, Instant(100, 0)) == Step(SkipRecent, Keep)
    ensures Transition(Config(30 * Second, 0), None, DialFailed, EnrOk(b'), Instant(100, 0))
            == Step(Added, Store(NodeRecord(Some(b'), b'.sequence, 1, Instant(100, 0), Instant(100, 0), Instant(100, 0))))
  {
  }

  /** A node with score 1 whose ENR request fails drops to 0 and is removed. */
  lemma ScoreOneRemoved(c: Node, rec: NodeRecord)
    requires rec.score == 1 && rec.lastCheck == Zero
    ensures var es := [Deliver(c, DialFailed, EnrFailed, Instant(100, 0))];
            var r := WorkRun(Config(30 * Second, 0), Work(map[c.id := rec], NoCounts), es);
            c.id !in r.store && r.tally == NoCounts.(removed := 1)
  {
    var cfg := Config(30 * Second, 0);
    var w0 := Work(map[c.id := rec], NoCounts);
    var es := [Deliver(c, DialFailed, EnrFailed, Instant(100, 0))];
    assert es[..0] == [];
    assert WorkRun(cfg, w0, es) == WorkStep(cfg, w0, es[0]);
    assert Lookup(w0.store, c.id) == Some(rec);
    assert Transition(cfg, Some(rec), DialFailed, EnrFailed, Instant(100, 0)) == Step(Removed, Delete);
    assert Record(NoCounts, OutcomeCode(Removed)) == NoCounts.(removed := 1);
  }

  /**
   * With no timeout, a crawl over the input iterator alone ends when that
   * iterator finishes, without arming a timeout.
   */
  lemma InputOnlyRunEnds(inputIter: Iterator)
    ensures var r := LoopRun(inputIter, 0, Begin(1), [IterDone(inputIter)]);
            r.exit == AllIteratorsDone && !r.armed && r.handled == 1
  {
    var es := [IterDone(inputIter)];
    assert es[..0] == [];
  }

  /** The crawler of one run: the input set, the output set it builds, its node sources. */
  class Crawler {
    const input: NodeSet
    var output: NodeSet
    const iters: seq<Iterator>
    const inputIter: Iterator
    const config: Config

    /**
     * `newCrawler`: the output starts as a copy of the input, and an iterator
     * over the input nodes is appended to the given ones.
     */
    constructor (input: NodeSet, config: Config, given: seq<Iterator>)
      ensures this.input == input && this.config == config
      ensures output == input
      ensures iters == given + [inputIter] && |iters| == |given| + 1
      ensures fresh(inputIter) && inputIter !in given
    {
      this.input := input;
      this.config := config;
      var it := new Iterator();
      inputIter := it;
      iters := given + [it];
      var copy := CopyNodeSet(input);
      output := copy;
    }

    /**
     * `updateNode`: decide the node's outcome and apply it to the entry of
     * `n`'s id; no other entry changes.
     */
    method UpdateNode(n: Node, probe: PeerProbe, enr: EnrResult, now: Time) returns (status: Outcome)
      modifies this`output
      ensures var st := Transition(config, Lookup(old(output), n.id), probe, enr, now);
              status == st.outcome && output == Apply(old(output), n.id, st.effect)
      ensures forall id :: id != n.id ==> Lookup(output, id) == Lookup(old(output), id)
      ensures status in {SkipRecent, SkipIncompat} ==> output == old(output)
      ensures status == Removed ==> n.id !in output
      ensures status in {Added, Updated} ==>
                n.id in output && output[n.id].score > 0 && output[n.id].lastCheck == TruncNow(now)
    {
      var ok := n.id in output;
      var node := if ok then output[n.id] else ZeroRecord;

      if ok && Since(now, node.lastCheck) < config.revalidateInterval {
        return SkipRecent;
      }
      if ShouldSkipNode(config.networkId, probe) {
        return SkipIncompat;
      }

      status := Updated;
      node := node.(lastCheck := TruncNow(now));
      match enr {
        case EnrFailed =>
          if node.score == 0 {
            return SkipIncompat;
          }
          node := node.(score := GoHalf(node.score));
        case EnrOk(nn) =>
          node := node.(n := Some(nn));
          node := node.(seqNum := nn.sequence);
          node := node.(score := node.score + 1);
          if node.firstResponse == Zero {
            node := node.(firstResponse := node.lastCheck);
            status := Added;
          }
          node := node.(lastResponse := node.lastCheck);
      }

      if node.score <= 0 {
        output := output - {n.id};
        return Removed;
      }
      output := output[n.id := node];
    }

    /**
     * The sequential part of `run`: take events until every iterator has
     * finished or the armed timeout fires, handling delivered nodes with
     * `UpdateNode` and counting their outcomes.
     */
    method Run(timeout: Duration, nthreads: int, events: seq<Event>) returns (threads: int, tally: Tally, exit: Exit)
      modifies this`output
      ensures threads == Threads(nthreads)
      ensures var taken := Taken(inputIter, timeout, |iters|, events);
              var w := WorkRun(config, Work(old(output), NoCounts), taken);
              output == w.store && tally == w.tally
      ensures exit == LoopRun(inputIter, timeout, Begin(|iters|), events).exit
    {
      threads := nthreads;
      if threads < 1 {
        threads := 1;
      }
      ghost var w0 := Work(output, NoCounts);
      var live := |iters|;
      var armed := false;
      tally, exit := NoCounts, Running;
      var i := 0;
      while i < |events| && exit == Running
        invariant 0 <= i <= |events|
        invariant w0 == Work(old(output), NoCounts)
        invariant WorkRun(config, w0, events[..i]) == Work(output, tally)
        invariant LoopRun(inputIter, timeout, Begin(|iters|), events[..i]) == Loop(live, armed, exit, i)
      {
        var e := events[i];
        match e {
          case Deliver(n, probe, enr, now) =>
            var status := UpdateNode(n, probe, enr, now);
            tally := Record(tally, OutcomeCode(status));
          case IterDone(it) =>
            if it == inputIter && timeout > 0 {
              armed := true;
            }
            live := live - 1;
            if live == 0 {
              exit := AllIteratorsDone;
            }
          case TimerFired =>
            if armed {
              exit := TimedOut;
            }
          case Tick =>
        }
        assert events[..i + 1][..i] == events[..i];
        i := i + 1;
      }
      if i == |events| {
        assert events[..i] == events;
      } else {
        Stopped(inputIter, timeout, Begin(|iters|), events, i);
      }
    }
  }

  /** `newCrawler`'s copy loop: the result holds every input entry and nothing else. */
  method CopyNodeSet(input: NodeSet) returns (output: NodeSet)
    ensures output == input
  {
    output := map[];
    var pending := input.Keys;
    while pending != {}
      invariant pending <= input.Keys
      invariant output.Keys == input.Keys - pending
      invariant forall id :: id in output ==> output[id] == input[id]
      decreases pending
    {
      var id :| id in pending;
      output := output[id := input[id]];
      pending := pending - {id};
    }
  }
}
