/** No release is lost: while the delayed queue has room and the hop limit is beyond the flows' depth, a rate limiter
    that waits has its release outstanding, and so has every trigger whose timer is live.
 */
module FlowLiveness {
  import opened FlowEngine
  import Hops = FlowHops
  import Ports = FlowPorts
  import Rates = FlowRates
  import Shield = FlowShield
  import Timers = FlowTimers

  /** The node an event leads to, its hops aside. */
  function Place(d: Deployment, q: Queued): Option<Kind> {
    if q.to.flow !in d.flows then None
    else
      var flow := d.flows[q.to.flow];
      if (q.epoch != 0 && q.epoch != flow.epoch) || !flow.enabled || q.to.node !in flow.nodes then None
      else Some(flow.nodes[q.to.node])
  }

  lemma PlaceIsDelivered(d: Deployment, q: Queued)
    ensures q.hops <= d.maxHops ==> Delivered(d, q) == Place(d, q)
    ensures Delivered(d, q).Some? ==> Place(d, q) == Delivered(d, q)
  {
  }

  /** The outstanding release of a rate limiter. */
  ghost predicate ReleaseOf(d: Deployment, x: Queued, k: Key) {
    Rates.IsRateRelease(x, k) && Place(d, x).Some? && Place(d, x).value.RateLimit?
  }

  ghost predicate RateLive(d: Deployment, s: State, k: Key) {
    s.RateOf(k).scheduled ==> exists x :: x in Timers.Pending(s) && ReleaseOf(d, x, k)
  }

  /** The release that the live timer of a trigger made. */
  ghost predicate TimerOf(d: Deployment, x: Queued, k: Key, generation: nat, stamp: nat) {
    && Timers.IsOwnRelease(x, k) && x.port == TriggerRelease(generation) && x.stamp == Some(stamp)
    && Place(d, x).Some? && Place(d, x).value.Trigger?
  }

  /** The number of the start whose timer is live, if any. */
  function LiveStart(log: seq<Record>, k: Key): Option<nat> {
    var last := Timers.LastTimer(log, k);
    if last.Some? && last.value.Started? then Some(last.value.stamp) else None
  }

  ghost predicate TimerLive(d: Deployment, s: State, k: Key) {
    var stamp := LiveStart(s.log, k);
    stamp.Some? ==> exists x :: x in Timers.Pending(s) && TimerOf(d, x, k, s.Generation(k), stamp.value)
  }

  // ---------------------------------------------------------------- what stays in the queues

  lemma {:induction false} InsertHolds(delayed: seq<Timed>, t: Timed)
    ensures t.item in Items(Insert(delayed, t)) && forall x | x in Items(delayed) :: x in Items(Insert(delayed, t))
  {
    if delayed == [] || t.due < delayed[0].due {
      assert ([t] + delayed)[1..] == delayed;
    } else {
      InsertHolds(delayed[1..], t);
      var rest := Insert(delayed[1..], t);
      assert ([delayed[0]] + rest)[1..] == rest;
    }
  }

  lemma {:induction false} WithoutTimerHolds(delayed: seq<Timed>, k: Key)
    ensures |WithoutTimer(delayed, k)| <= |delayed|
    ensures forall x | x in Items(delayed) && !IsTriggerRelease(x, k) :: x in Items(WithoutTimer(delayed, k))
    decreases delayed
  {
    if delayed != [] {
      WithoutTimerHolds(delayed[1..], k);
      var rest := WithoutTimer(delayed[1..], k);
      assert ([delayed[0]] + rest)[1..] == rest;
    }
  }

  lemma {:induction false} DelayAllHolds(d: Deployment, delayed: seq<Timed>, items: seq<Queued>, due: int)
    ensures forall x | x in Items(delayed) :: x in Items(DelayAll(d, delayed, items, due))
    decreases items
  {
    if items != [] {
      var r := EnqueueDelayed(d, delayed, Timed(due, items[0]));
      if r.Some? {
        InsertHolds(delayed, Timed(due, items[0]));
        DelayAllHolds(d, r.value, items[1..], due);
      }
    }
  }

  lemma ReplaceHolds(d: Deployment, delayed: seq<Timed>, t: Timed)
    ensures forall x | x in Items(delayed) && !IsTriggerRelease(x, t.item.to) :: x in Items(ReplaceTimer(d, delayed, t))
    ensures |delayed| < d.limit ==> t.item in Items(ReplaceTimer(d, delayed, t))
  {
    WithoutTimerHolds(delayed, t.item.to);
    InsertHolds(WithoutTimer(delayed, t.item.to), t);
  }

  /** Processing takes nothing out of the delayed queue but the timers of the trigger it starts. */
  lemma ProcessHolds(d: Deployment, s: State, q: Queued, i: Input, x: Queued)
    requires x in Items(s.delayed)
    requires Delivered(d, q).Some? && Delivered(d, q).value.Trigger? ==> !IsTriggerRelease(x, q.to)
    ensures x in Items(Process(d, s, q, i).delayed)
  {
    var kind := Delivered(d, q);
    hide Process, Delivered, DelayAll, Insert, WithoutTimer, Items;
    if kind.Some? && SetsTimers(kind.value) {
      match kind.value
      case DelayEach(delay) =>
        Shield.DelaysMessages(d, s, q, i);
        DelayAllHolds(d, s.delayed, Along(q, Edges(d, q.to), q.event), i.now + delay);
      case RateLimit(_) =>
        Shield.DelaysRelease(d, s, q, i);
        InsertHolds(s.delayed, Timed(s.RateOf(q.to).nextAllowed, NextRelease(q)));
      case Trigger(_, _, _, _, _, _, _) =>
        Shield.DelaysTimer(d, s, q, i);
        WithoutTimerHolds(s.delayed, q.to);
        InsertHolds(WithoutTimer(s.delayed, q.to), Timed(i.now + DurationOf(kind.value), NextTimer(s, q)));
    } else {
      Ports.NothingDelayed(d, s, q, i);
    }
  }

  /** What is pending stays pending, unless it is the event of this turn or left the delayed queue. */
  lemma TurnPending(d: Deployment, s: State, i: Input, x: Queued)
    requires s.batch != [] && x in Timers.Pending(s) && x != s.batch[0]
    requires x in Items(s.delayed) ==> x in Items(Process(d, s, s.batch[0], i).delayed)
    ensures x in Timers.Pending(Turn(d, s, i))
  {
    var sent := Hops.ProcessAdds(d, s, s.batch[0], i);
    hide Process, Items, Hops.Children, Hops.Spawned;
    if x in s.batch {
      assert x in s.batch[1..];
    }
  }

  lemma NowPending(d: Deployment, s: State, i: Input, x: Queued)
    requires s.batch != [] && x in Items(Turn(d, s, i).delayed)
    ensures x in Timers.Pending(Turn(d, s, i))
  {
    hide Process, Items;
  }

  // ---------------------------------------------------------------- rate limiters

  predicate AtRateLimit(d: Deployment, q: Queued) { Delivered(d, q).Some? && Delivered(d, q).value.RateLimit? }

  function NextRelease(q: Queued): Queued { Queued(q.to, q.event, q.hops + 1, RateRelease, q.epoch, Some(0)) }

  lemma TurnIs(d: Deployment, s: State, i: Input)
    requires s.batch != []
    ensures
      var s', p := Turn(d, s, i), Process(d, s, s.batch[0], i);
      s'.rates == p.rates && s'.generations == p.generations && s'.delayed == p.delayed && s'.log == p.log
  {
  }

  /** How a turn changes the state of the rate limiter k. */
  lemma RateAfter(d: Deployment, s: State, i: Input, k: Key)
    requires s.batch != []
    ensures
      var q, s' := s.batch[0], Turn(d, s, i);
      if !AtRateLimit(d, q) || q.to != k then s'.RateOf(k) == s.RateOf(k)
      else if q.port.RateRelease? then !s'.RateOf(k).scheduled
      else s'.RateOf(k).scheduled && !s.RateOf(k).scheduled && |s.delayed| < d.limit ==>
        NextRelease(q) in Items(s'.delayed)
  {
    var q := s.batch[0];
    TurnIs(d, s, i);
    if AtRateLimit(d, q) { AtRate(d, s, q, i); } else { RatesSame(d, s, q, i); }
    hide Turn, Process, Delivered, Items;
  }

  lemma RatesSame(d: Deployment, s: State, q: Queued, i: Input)
    requires !AtRateLimit(d, q)
    ensures Process(d, s, q, i).rates == s.rates
  {
    hide Delivered, Along, Output, DelayAll, ReplaceTimer, Edges;
  }

  lemma AtRate(d: Deployment, s: State, q: Queued, i: Input)
    requires AtRateLimit(d, q)
    ensures
      var p := Process(d, s, q, i);
      && (forall k | k != q.to :: p.RateOf(k) == s.RateOf(k))
      && (q.port.RateRelease? ==> !p.RateOf(q.to).scheduled)
      && (p.RateOf(q.to).scheduled && !s.RateOf(q.to).scheduled && |s.delayed| < d.limit ==>
           NextRelease(q) in Items(p.delayed))
  {
    InsertHolds(s.delayed, Timed(s.RateOf(q.to).nextAllowed, NextRelease(q)));
    hide Delivered, Along, Insert, Items, Edges;
  }

  lemma PlaceNext(d: Deployment, q: Queued, x: Queued)
    requires Delivered(d, q).Some? && x.to == q.to && x.epoch == q.epoch
    ensures Place(d, x) == Delivered(d, q)
  {
  }

  lemma TurnKeepsRate(d: Deployment, s: State, i: Input, k: Key)
    requires RateLive(d, s, k) && s.batch != [] && |s.delayed| < d.limit && s.batch[0].hops <= d.maxHops
    ensures RateLive(d, Turn(d, s, i), k)
  {
    var q, s' := s.batch[0], Turn(d, s, i);
    RateAfter(d, s, i, k);
    PlaceIsDelivered(d, q);
    hide Place, Delivered, Turn, Process, Timers.Pending;
    if s'.RateOf(k).scheduled && s.RateOf(k).scheduled {
      var x :| x in Timers.Pending(s) && ReleaseOf(d, x, k);
      if x in Items(s.delayed) { ProcessHolds(d, s, q, i, x); }
      TurnPending(d, s, i, x);
    } else if s'.RateOf(k).scheduled {
      PlaceNext(d, q, NextRelease(q));
      NowPending(d, s, i, NextRelease(q));
      assert ReleaseOf(d, NextRelease(q), k);
    }
  }

  // ---------------------------------------------------------------- triggers

  /** The turn leaves the timer of k as it was. */
  ghost predicate TimerSame(d: Deployment, s: State, i: Input, k: Key)
    requires s.batch != []
  {
    var q, s' := s.batch[0], Turn(d, s, i);
    && LiveStart(s'.log, k) == LiveStart(s.log, k) && s'.Generation(k) == s.Generation(k)
    && (AtTrigger(d, q) && q.to == k ==> s'.delayed == s.delayed && q.port != TriggerRelease(s.Generation(k)))
  }

  predicate AtTrigger(d: Deployment, q: Queued) { Delivered(d, q).Some? && Delivered(d, q).value.Trigger? }

  /** The turn starts the timer of k anew, with a release of its own if the delayed queue has room. */
  ghost predicate TimerStarts(d: Deployment, s: State, i: Input, k: Key)
    requires s.batch != []
  {
    var q, s' := s.batch[0], Turn(d, s, i);
    && AtTrigger(d, q) && q.to == k
    && LiveStart(s'.log, k) == Some(s.starts) && s'.Generation(k) == s.Generation(k) + 1
    && (|s.delayed| < d.limit ==> NextTimer(s, q) in Items(s'.delayed))
  }

  function NextTimer(s: State, q: Queued): Queued {
    Queued(q.to, q.event, q.hops + 1, TriggerRelease(s.Generation(q.to) + 1), q.epoch, Some(s.starts))
  }

  lemma TimerAfter(d: Deployment, s: State, i: Input, k: Key)
    requires s.batch != []
    ensures TimerSame(d, s, i, k) || LiveStart(Turn(d, s, i).log, k).None? || TimerStarts(d, s, i, k)
  {
    if AtTrigger(d, s.batch[0]) { TriggerAfter(d, s, i, k); } else { OtherAfter(d, s, i, k); }
  }

  lemma OtherAfter(d: Deployment, s: State, i: Input, k: Key)
    requires s.batch != [] && !AtTrigger(d, s.batch[0])
    ensures TimerSame(d, s, i, k)
  {
    var records := OtherRecords(d, s, s.batch[0], i);
    TurnIs(d, s, i);
    hide Process, Turn, Delivered;
    Timers.LastTimerOther(s.log, records, k);
  }

  /** Only triggers record anything about timers. */
  lemma OtherRecords(d: Deployment, s: State, q: Queued, i: Input) returns (records: seq<Record>)
    requires !AtTrigger(d, q)
    ensures |records| <= 2 && forall r | r in records :: r.Accepted? || r.Emitted?
    ensures Process(d, s, q, i).log == s.log + records && Process(d, s, q, i).generations == s.generations
  {
    var rate := s.RateOf(q.to);
    records :=
      if !AtRateLimit(d, q) then []
      else if q.port.RateRelease? then [Emitted(q.to, i.now, rate.latest)]
      else if !q.event.writable then []
      else if !rate.scheduled && i.now >= rate.nextAllowed then [Accepted(q.to, q.event), Emitted(q.to, i.now, q.event)]
      else [Accepted(q.to, q.event)];
    assert s.log + [] == s.log;
    hide Delivered, Along, Output, DelayAll, Insert, Edges;
  }

  lemma TriggerAfter(d: Deployment, s: State, i: Input, k: Key)
    requires s.batch != [] && AtTrigger(d, s.batch[0])
    ensures TimerSame(d, s, i, k) || LiveStart(Turn(d, s, i).log, k).None? || TimerStarts(d, s, i, k)
  {
    var q, kind := s.batch[0], Delivered(d, s.batch[0]).value;
    hide Delivered, Turn, Process, TimerSame, TimerStarts, LiveStart;
    if q.port.TriggerRelease? && s.Generation(q.to) == q.port.generation {
      FireAfter(d, s, i, k);
    } else if q.port.TriggerRelease? || !q.event.writable {
      TriggerIdles(d, s, i, kind);
      IdleAfter(d, s, i, k);
    } else if kind.resetValue == Some(q.event.value) {
      ResetAfter(d, s, i, k);
    } else if kind.extend || s.Generation(q.to) == 0 {
      StartAfter(d, s, i, k);
    } else {
      TriggerIdles(d, s, i, kind);
      IdleAfter(d, s, i, k);
    }
  }

  lemma IdleAfter(d: Deployment, s: State, i: Input, k: Key)
    requires s.batch != []
    requires
      var s' := Turn(d, s, i);
      s'.generations == s.generations && s'.log == s.log && s'.delayed == s.delayed
    requires s.batch[0].port != TriggerRelease(s.Generation(s.batch[0].to))
    ensures TimerSame(d, s, i, k)
  {
    hide Turn, Delivered;
  }

  lemma FireAfter(d: Deployment, s: State, i: Input, k: Key)
    requires s.batch != [] && AtTrigger(d, s.batch[0])
    requires s.batch[0].port.TriggerRelease? && s.Generation(s.batch[0].to) == s.batch[0].port.generation
    ensures TimerSame(d, s, i, k) || LiveStart(Turn(d, s, i).log, k).None?
  {
    var q := s.batch[0];
    Timers.FireTurn(d, s, i, Delivered(d, q).value);
    Timers.LastTimerOne(s.log, Fired(q.to, q.stamp), k);
    hide Delivered, Turn, Timers.LastTimer, Along, Edges;
  }

  lemma ResetAfter(d: Deployment, s: State, i: Input, k: Key)
    requires s.batch != [] && AtTrigger(d, s.batch[0])
    requires !s.batch[0].port.TriggerRelease? && s.batch[0].event.writable
    requires Delivered(d, s.batch[0]).value.resetValue == Some(s.batch[0].event.value)
    ensures TimerSame(d, s, i, k) || LiveStart(Turn(d, s, i).log, k).None?
  {
    var q := s.batch[0];
    Timers.ResetTurn(d, s, i, Delivered(d, q).value);
    Timers.LastTimerOne(s.log, Reset(q.to), k);
    hide Delivered, Turn, Timers.LastTimer, Along, Edges;
  }

  lemma StartAfter(d: Deployment, s: State, i: Input, k: Key)
    requires s.batch != [] && AtTrigger(d, s.batch[0])
    requires !s.batch[0].port.TriggerRelease? && s.batch[0].event.writable
    requires Delivered(d, s.batch[0]).value.resetValue != Some(s.batch[0].event.value)
    requires Delivered(d, s.batch[0]).value.extend || s.Generation(s.batch[0].to) == 0
    ensures TimerSame(d, s, i, k) || TimerStarts(d, s, i, k)
  {
    var q, kind := s.batch[0], Delivered(d, s.batch[0]).value;
    Timers.StartTurn(d, s, i, kind);
    Timers.LastTimerOne(s.log, Started(q.to, s.starts), k);
    ReplaceHolds(d, s.delayed, Timed(i.now + DurationOf(kind), NextTimer(s, q)));
    hide Delivered, Turn, Timers.LastTimer, ReplaceTimer, Items, Along, Edges;
  }

  /** An old release, an unwritable event, and a second start where none extends, change nothing. */
  lemma TriggerIdles(d: Deployment, s: State, i: Input, kind: Kind)
    requires s.batch != [] && kind.Trigger? && Delivered(d, s.batch[0]) == Some(kind)
    requires
      var q, g := s.batch[0], s.Generation(s.batch[0].to);
      if q.port.TriggerRelease? then q.port.generation != g
      else !q.event.writable || (kind.resetValue != Some(q.event.value) && !kind.extend && g != 0)
    ensures
      var s' := Turn(d, s, i);
      s'.generations == s.generations && s'.log == s.log && s'.delayed == s.delayed
  {
    hide Delivered, Along, Edges, ReplaceTimer;
  }

  lemma TurnKeepsTimer(d: Deployment, s: State, i: Input, k: Key)
    requires TimerLive(d, s, k) && s.batch != [] && |s.delayed| < d.limit && s.batch[0].hops <= d.maxHops
    ensures TimerLive(d, Turn(d, s, i), k)
  {
    var q, s' := s.batch[0], Turn(d, s, i);
    TimerAfter(d, s, i, k);
    PlaceIsDelivered(d, q);
    var stamp, g := LiveStart(s'.log, k), s'.Generation(k);
    hide Place, Delivered, Turn, Process, Timers.Pending, LiveStart;
    if TimerStarts(d, s, i, k) {
      PlaceNext(d, q, NextTimer(s, q));
      NowPending(d, s, i, NextTimer(s, q));
      assert TimerOf(d, NextTimer(s, q), k, g, stamp.value);
    } else if stamp.Some? {
      var x :| x in Timers.Pending(s) && TimerOf(d, x, k, g, stamp.value);
      if x in Items(s.delayed) && !(AtTrigger(d, q) && q.to == k) { ProcessHolds(d, s, q, i, x); }
      TurnPending(d, s, i, x);
    }
  }

  // ---------------------------------------------------------------- whole runs

  /** The delayed queue had room before every action. */
  ghost predicate NeverFull(d: Deployment, run: seq<Action>) {
    forall m: nat, s | m < |run| && Reaches(d, run[..m], s) :: |s.delayed| < d.limit
  }

  /** Every flow passed validation, and the hop limit is beyond its depth. */
  ghost predicate DeepEnough(d: Deployment, orders: map<string, seq<string>>) {
    Hops.AcceptedFlows(d, orders) && forall f | f in d.flows :: 2 * |d.flows[f].nodes| - 1 <= d.maxHops
  }

  ghost predicate NodeLive(d: Deployment, s: State, k: Key) { RateLive(d, s, k) && TimerLive(d, s, k) }

  lemma ActKeepsLive(d: Deployment, s: State, a: Action, k: Key)
    requires NodeLive(d, s, k) && Enabled(s, a)
    requires a.Turning? ==> |s.delayed| < d.limit && s.batch[0].hops <= d.maxHops
    ensures NodeLive(d, Act(d, s, a), k)
  {
    match a
    case Arrival(q) =>
      hide Items, LiveStart, ReleaseOf, TimerOf;
      assert forall x | x in Timers.Pending(s) :: x in Timers.Pending(Arrive(s, q));
    case Pulling(now) =>
      hide Items, LiveStart, ReleaseOf, TimerOf, DueCount;
      Timers.PullPending(s, now);
    case Turning(i) =>
      hide RateLive, TimerLive, Turn;
      TurnKeepsRate(d, s, i, k);
      TurnKeepsTimer(d, s, i, k);
  }

  /** In every reachable state of a run that never filled the delayed queue: a rate limiter that waits, and a trigger
      whose timer is live, have their release among the pending events, where the engine will deliver it. */
  lemma {:induction false} NothingIsLost(d: Deployment, orders: map<string, seq<string>>, run: seq<Action>, s: State,
      k: Key)
    requires DeepEnough(d, orders) && NeverFull(d, run) && Reaches(d, run, s)
    ensures NodeLive(d, s, k)
    decreases |run|
  {
    if run != [] {
      var n := |run| - 1;
      var before :| Reaches(d, run[..n], before) && Enabled(before, run[n]) && s == Act(d, before, run[n]);
      assert forall m: nat | m < n :: run[..n][..m] == run[..m];
      NothingIsLost(d, orders, run[..n], before, k);
      Hops.LimitNeverHit(d, orders, run[..n], before);
      if run[n].Turning? { assert before.batch[0] in Timers.Pending(before); }
      hide NodeLive, Reaches, Act, Timers.Pending;
      ActKeepsLive(d, before, run[n], k);
    }
  }

  lemma {:induction false} Counted(k: Key, xs: seq<Queued>, x: Queued)
    requires x in xs && Rates.IsRateRelease(x, k)
    ensures Rates.Count(k, xs) >= 1
  {
    if xs[0] != x { Counted(k, xs[1..], x); }
  }

  /** A rate limiter is scheduled exactly while one release of its own is outstanding, and none is otherwise. */
  lemma ScheduledExactly(d: Deployment, orders: map<string, seq<string>>, run: seq<Action>, s: State, k: Key)
    requires DeepEnough(d, orders) && NeverFull(d, run) && Reaches(d, run, s) && Ports.NoForgedRate(d)
    ensures Rates.Count(k, Timers.Pending(s)) == if s.RateOf(k).scheduled then 1 else 0
  {
    hide *;
    NothingIsLost(d, orders, run, s, k);
    Shield.RatesAreSafe(d, run, s);
    AtMostOne(d, s, k);
    if s.RateOf(k).scheduled { OneIsPending(d, s, k); }
  }

  lemma AtMostOne(d: Deployment, s: State, k: Key)
    requires Rates.RatesOk(d, s)
    ensures Rates.Count(k, Timers.Pending(s)) <= if s.RateOf(k).scheduled then 1 else 0
  {
    assert Rates.NodeOk(d, s, k);
    Rates.CountBoth(k, s.batch + s.queue, Items(s.delayed));
    Rates.CountBoth(k, s.batch, s.queue);
    hide Rates.Count, Items, Rates.WellSpaced, Rates.EmittedBefore;
  }

  lemma OneIsPending(d: Deployment, s: State, k: Key)
    requires NodeLive(d, s, k) && s.RateOf(k).scheduled
    ensures Rates.Count(k, Timers.Pending(s)) >= 1
  {
    hide TimerLive, Rates.Count, Timers.Pending;
    var x :| x in Timers.Pending(s) && ReleaseOf(d, x, k);
    Counted(k, Timers.Pending(s), x);
  }

  lemma {:induction false} OwnIsOutstanding(k: Key, xs: seq<Queued>, x: Queued)
    requires x in xs && Timers.IsOwnRelease(x, k)
    ensures x in Timers.Releases(k, xs)
  {
    if xs[0] != x { OwnIsOutstanding(k, xs[1..], x); }
  }

  /** While a timer is live, the newest outstanding release of its trigger is the one it made, and the only one of
      the trigger's current generation. */
  lemma LiveTimerPends(d: Deployment, orders: map<string, seq<string>>, run: seq<Action>, s: State, k: Key, stamp: nat)
    requires DeepEnough(d, orders) && NeverFull(d, run) && Reaches(d, run, s) && Ports.NoForgedTimer(d)
    requires LiveStart(s.log, k) == Some(stamp)
    ensures
      var out := Timers.Releases(k, Timers.Pending(s));
      && out != [] && TimerOf(d, out[|out| - 1], k, s.Generation(k), stamp)
      && forall j | 0 <= j < |out| - 1 :: out[j].port.TriggerRelease? && out[j].port.generation < s.Generation(k)
  {
    hide *;
    NothingIsLost(d, orders, run, s, k);
    var x := PendingTimer(d, s, k, stamp);
    Shield.TimersAreSafe(d, run, s);
    Timers.InOrderNow(s, k);
    OwnTimerOf(d, x, k, s.Generation(k), stamp);
    OwnIsOutstanding(k, Timers.Pending(s), x);
    NewestIs(k, Timers.Releases(k, Timers.Pending(s)), s.Generation(k), Timers.LastTimer(s.log, k), x);
  }

  lemma PendingTimer(d: Deployment, s: State, k: Key, stamp: nat) returns (x: Queued)
    requires NodeLive(d, s, k) && LiveStart(s.log, k) == Some(stamp)
    ensures x in Timers.Pending(s) && TimerOf(d, x, k, s.Generation(k), stamp)
  {
    hide LiveStart, TimerOf, ReleaseOf, Timers.Pending;
    x :| x in Timers.Pending(s) && TimerOf(d, x, k, s.Generation(k), stamp);
  }

  lemma OwnTimerOf(d: Deployment, x: Queued, k: Key, generation: nat, stamp: nat)
    requires TimerOf(d, x, k, generation, stamp)
    ensures Timers.IsOwnRelease(x, k) && x.port == TriggerRelease(generation)
  {
  }

  /** Only the newest release has the current generation. */
  lemma NewestIs(k: Key, out: seq<Queued>, generation: nat, live: Option<Record>, x: Queued)
    requires Timers.InOrder(k, out, generation, live) && x in out && x.port == TriggerRelease(generation)
    ensures out[|out| - 1] == x
    ensures forall j | 0 <= j < |out| - 1 :: out[j].port.TriggerRelease? && out[j].port.generation < generation
  {
    var j :| 0 <= j < |out| && out[j] == x;
    assert out[|out| - 1] in out;
    assert j == |out| - 1;
  }

  // ---------------------------------------------------------------- and it is processed

  lemma {:induction false} RunIsSorted(d: Deployment, run: seq<Action>, s: State)
    requires Reaches(d, run, s)
    ensures Shield.Sorted(s.delayed)
    decreases |run|
  {
    if run != [] {
      var n := |run| - 1;
      var before :| Reaches(d, run[..n], before) && Enabled(before, run[n]) && s == Act(d, before, run[n]);
      RunIsSorted(d, run[..n], before);
      hide Reaches, Process, DueCount;
      if run[n].Turning? { ProcessSorted(d, before, before.batch[0], run[n].input); }
    }
  }

  lemma InsertSorted(delayed: seq<Timed>, t: Timed)
    requires Shield.Sorted(delayed)
    ensures Shield.Sorted(Insert(delayed, t))
  {
    Shield.InsertIsPut(delayed, t);
    Shield.SortedPut(delayed, [t.item], t.due);
  }

  lemma ProcessSorted(d: Deployment, s: State, q: Queued, i: Input)
    requires Shield.Sorted(s.delayed)
    ensures Shield.Sorted(Process(d, s, q, i).delayed)
  {
    var kind := Delivered(d, q);
    hide Process, Delivered, Insert, WithoutTimer, DelayAll, Shield.Sorted;
    if kind.Some? && SetsTimers(kind.value) {
      match kind.value
      case DelayEach(delay) =>
        Shield.DelaysMessages(d, s, q, i);
        var all := Along(q, Edges(d, q.to), q.event);
        var n := Shield.DelayAllIsPut(d, s.delayed, all, i.now + delay);
        Shield.SortedPut(s.delayed, all[..n], i.now + delay);
      case RateLimit(_) =>
        Shield.DelaysRelease(d, s, q, i);
        InsertSorted(s.delayed, Timed(s.RateOf(q.to).nextAllowed, NextRelease(q)));
      case Trigger(_, _, _, _, _, _, _) =>
        Shield.DelaysTimer(d, s, q, i);
        Shield.SortedRemoved(s.delayed, q.to);
        InsertSorted(WithoutTimer(s.delayed, q.to), Timed(i.now + DurationOf(kind.value), NextTimer(s, q)));
    } else {
      Ports.NothingDelayed(d, s, q, i);
    }
  }

  lemma {:induction false} ItemIn(delayed: seq<Timed>, t: Timed)
    requires t in delayed
    ensures t.item in Items(delayed)
  {
    if delayed[0] != t { ItemIn(delayed[1..], t); }
  }

  /** A pull takes everything that is due. */
  lemma DueIsPulled(s: State, now: int, t: Timed)
    requires Shield.Sorted(s.delayed) && t in s.delayed && t.due <= now
    ensures t.item in Pull(s, now).batch
  {
    var n := DueCount(s.delayed, now);
    Shield.CountHas(s.delayed, now);
    hide DueCount, Items;
    var j :| 0 <= j < |s.delayed| && s.delayed[j] == t;
    assert s.delayed[..n][j] == t;
    ItemIn(s.delayed[..n], t);
  }

  /** Turn by turn the whole batch comes to the front. */
  lemma {:induction false} ComesToFront(d: Deployment, s: State, inputs: nat -> Input, from: nat, p: nat)
    requires p < |s.batch|
    ensures
      var t := Hops.Turns(d, s, inputs, from, p);
      t.batch != [] && t.batch[0] == s.batch[p]
    decreases p
  {
    if p > 0 {
      var s' := Turn(d, s, inputs(from));
      assert s'.batch[p - 1] == s.batch[1..][p - 1] by { hide Process; }
      hide Turn;
      ComesToFront(d, s', inputs, from + 1, p - 1);
    }
  }

  /** Waits in the queue, or in the delayed queue until no later than this. */
  ghost predicate DueBy(s: State, x: Queued, now: int) {
    x in s.queue || exists t :: t in s.delayed && t.item == x && t.due <= now
  }

  /** Whatever is queued, and whatever is due, is processed by the next worker pass, in every reachable state. */
  lemma DueIsProcessed(d: Deployment, run: seq<Action>, s: State, now: int, inputs: nat -> Input, x: Queued)
    returns (n: nat)
    requires Reaches(d, run, s) && s.batch == [] && DueBy(s, x, now)
    ensures
      var at := Hops.Turns(d, Pull(s, now), inputs, 0, n);
      at.batch != [] && at.batch[0] == x
  {
    RunIsSorted(d, run, s);
    var pulled := Pull(s, now);
    if x !in s.queue {
      var t :| t in s.delayed && t.item == x && t.due <= now;
      DueIsPulled(s, now, t);
    }
    assert x in pulled.batch by { hide DueCount, Items, Reaches; }
    hide Pull, Turn, Reaches, Shield.Sorted;
    n :| 0 <= n < |pulled.batch| && pulled.batch[n] == x;
    ComesToFront(d, pulled, inputs, 0, n);
  }
}
