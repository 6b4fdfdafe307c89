/** The rate limiter over whole runs: at most one release is outstanding and none unless one is scheduled,
    emissions of a node are at least its delay apart, and every emission is of the value accepted last.
 */
module FlowRates {
  import opened FlowEngine
  import Timers = FlowTimers

  /** A release the engine made itself for this node. */
  predicate IsRateRelease(q: Queued, k: Key) { q.to == k && q.port.RateRelease? && q.stamp.Some? }

  /** How many releases for k are in xs. */
  function Count(k: Key, xs: seq<Queued>): nat {
    if xs == [] then 0 else (if IsRateRelease(xs[0], k) then 1 else 0) + Count(k, xs[1..])
  }

  lemma {:induction false} CountBoth(k: Key, xs: seq<Queued>, ys: seq<Queued>)
    ensures Count(k, xs + ys) == Count(k, xs) + Count(k, ys)
  {
    if xs == [] {
      assert xs + ys == ys;
    } else {
      assert (xs + ys)[1..] == xs[1..] + ys;
      CountBoth(k, xs[1..], ys);
    }
  }

  lemma {:induction false} UnstampedCount(k: Key, xs: seq<Queued>)
    requires Timers.Unstamped(xs)
    ensures Count(k, xs) == 0
  {
    if xs != [] { UnstampedCount(k, xs[1..]); }
  }

  /** Delayed releases of k are due when the node may emit again. */
  ghost predicate DueAt(delayed: seq<Timed>, k: Key, nextAllowed: int) {
    forall t | t in delayed && IsRateRelease(t.item, k) :: t.due == nextAllowed
  }

  // ---------------------------------------------------------------- the delayed queue

  lemma {:induction false} InsertCount(k: Key, delayed: seq<Timed>, t: Timed)
    ensures Count(k, Items(Insert(delayed, t)))
      == Count(k, Items(delayed)) + (if IsRateRelease(t.item, k) then 1 else 0)
    ensures forall x | x in Insert(delayed, t) :: x in delayed || x == t
  {
    if delayed == [] || t.due < delayed[0].due {
      assert ([t] + delayed)[1..] == delayed;
    } else {
      InsertCount(k, delayed[1..], t);
      var rest := Insert(delayed[1..], t);
      assert ([delayed[0]] + rest)[1..] == rest;
    }
  }

  lemma {:induction false} WithoutTimerCount(k: Key, delayed: seq<Timed>, own: Key)
    ensures Count(k, Items(WithoutTimer(delayed, own))) == Count(k, Items(delayed))
    ensures forall x | x in WithoutTimer(delayed, own) :: x in delayed
    decreases delayed
  {
    if delayed != [] {
      WithoutTimerCount(k, delayed[1..], own);
      var rest := WithoutTimer(delayed[1..], own);
      assert ([delayed[0]] + rest)[1..] == rest;
    }
  }

  lemma {:induction false} DelayAllCount(d: Deployment, k: Key, delayed: seq<Timed>, items: seq<Queued>, due: int,
      next: int)
    requires Timers.Unstamped(items) && DueAt(delayed, k, next)
    ensures Count(k, Items(DelayAll(d, delayed, items, due))) == Count(k, Items(delayed))
    ensures DueAt(DelayAll(d, delayed, items, due), k, next)
    decreases items
  {
    if items != [] {
      var t := Timed(due, items[0]);
      var r := EnqueueDelayed(d, delayed, t);
      if r.Some? {
        InsertCount(k, delayed, t);
        DelayAllCount(d, k, r.value, items[1..], due, next);
      }
    }
  }

  lemma ReplaceCount(d: Deployment, k: Key, delayed: seq<Timed>, t: Timed, next: int)
    requires !t.item.port.RateRelease? && DueAt(delayed, k, next)
    ensures Count(k, Items(ReplaceTimer(d, delayed, t))) == Count(k, Items(delayed))
    ensures DueAt(ReplaceTimer(d, delayed, t), k, next)
  {
    WithoutTimerCount(k, delayed, t.item.to);
    InsertCount(k, WithoutTimer(delayed, t.item.to), t);
  }

  /** What is pulled was due. */
  lemma {:induction false} PulledWasDue(delayed: seq<Timed>, now: int)
    ensures forall t | t in delayed[..DueCount(delayed, now)] :: t.due <= now
  {
    if delayed != [] && delayed[0].due <= now {
      PulledWasDue(delayed[1..], now);
      var n := DueCount(delayed[1..], now);
      assert delayed[..n + 1] == [delayed[0]] + delayed[1..][..n];
    }
  }

  lemma {:induction false} CountedIsThere(k: Key, delayed: seq<Timed>)
    ensures Count(k, Items(delayed)) > 0 ==> exists t :: t in delayed && IsRateRelease(t.item, k)
  {
    if delayed != [] && !IsRateRelease(delayed[0].item, k) {
      CountedIsThere(k, delayed[1..]);
    } else if delayed != [] {
      assert delayed[0] in delayed;
    }
  }

  // ---------------------------------------------------------------- the records

  predicate IsRateRecord(r: Record, k: Key) { (r.Accepted? || r.Emitted?) && r.key == k }

  function LastAccepted(log: seq<Record>, k: Key): Option<Event> {
    if log == [] then None
    else
      var r := log[|log| - 1];
      if r.Accepted? && r.key == k then Some(r.event) else LastAccepted(log[..|log| - 1], k)
  }

  /** Emissions of k are `delay` apart and of the value accepted last. */
  ghost predicate WellSpaced(log: seq<Record>, k: Key, delay: nat) {
    && (forall i, j | 0 <= i < j < |log| && log[i].Emitted? && log[j].Emitted? && log[i].key == k && log[j].key == k
         :: log[i].time + delay <= log[j].time)
    && (forall i | 0 <= i < |log| && log[i].Emitted? && log[i].key == k ::
         LastAccepted(log[..i], k) == Some(log[i].event))
  }

  ghost predicate EmittedBefore(log: seq<Record>, k: Key, delay: nat, next: int) {
    forall r | r in log && r.Emitted? && r.key == k :: r.time + delay <= next
  }

  lemma LastAcceptedOne(log: seq<Record>, r: Record, k: Key)
    ensures LastAccepted(log + [r], k) == if r.Accepted? && r.key == k then Some(r.event) else LastAccepted(log, k)
  {
    assert (log + [r])[..|log|] == log;
  }

  /** A record that is no emission of k. */
  lemma SpacedOther(log: seq<Record>, r: Record, k: Key, delay: nat)
    requires WellSpaced(log, k, delay) && !(r.Emitted? && r.key == k)
    ensures WellSpaced(log + [r], k, delay)
  {
    var all := log + [r];
    forall i | 0 <= i < |all| && all[i].Emitted? && all[i].key == k
      ensures LastAccepted(all[..i], k) == Some(all[i].event)
    {
      assert all[..i] == log[..i];
    }
  }

  /** An emission of the last accepted value, late enough. */
  lemma SpacedEmission(log: seq<Record>, k: Key, time: int, event: Event, delay: nat, next: int)
    requires WellSpaced(log, k, delay) && EmittedBefore(log, k, delay, next) && next <= time
    requires LastAccepted(log, k) == Some(event)
    ensures WellSpaced(log + [Emitted(k, time, event)], k, delay)
    ensures EmittedBefore(log + [Emitted(k, time, event)], k, delay, time + delay)
  {
    var all := log + [Emitted(k, time, event)];
    forall i | 0 <= i < |all| && all[i].Emitted? && all[i].key == k
      ensures LastAccepted(all[..i], k) == Some(all[i].event)
    {
      assert all[..i] == log[..i];
      if i == |log| { assert log[..i] == log; }
    }
    forall i, j | 0 <= i < j < |all| && all[i].Emitted? && all[j].Emitted? && all[i].key == k && all[j].key == k
      ensures all[i].time + delay <= all[j].time
    {
      assert all[i] == log[i] && log[i] in log;
    }
  }

  // ---------------------------------------------------------------- the invariant

  function DelayOf(d: Deployment, k: Key): nat {
    var kind := KindAt(d, k);
    if kind.Some? && kind.value.RateLimit? then kind.value.delay else 0
  }

  /** The value kept is the one accepted last, and one was accepted if a release is scheduled. */
  predicate Latest(log: seq<Record>, k: Key, rate: Rate) {
    var last := LastAccepted(log, k);
    (rate.scheduled ==> last.Some?) && (last.Some? ==> last.value == rate.latest)
  }

  ghost predicate NodeOk(d: Deployment, s: State, k: Key) {
    var rate := s.RateOf(k);
    && Count(k, s.batch) + Count(k, s.queue) + Count(k, Items(s.delayed)) <= (if rate.scheduled then 1 else 0)
    && DueAt(s.delayed, k, rate.nextAllowed)
    && (Count(k, s.batch) + Count(k, s.queue) > 0 ==> rate.nextAllowed <= s.clock)
    && Latest(s.log, k, rate)
    && (DelayOf(d, k) == 0 ==> !rate.scheduled && rate.nextAllowed <= s.clock)
    && EmittedBefore(s.log, k, DelayOf(d, k), rate.nextAllowed)
    && WellSpaced(s.log, k, DelayOf(d, k))
  }

  ghost predicate RatesOk(d: Deployment, s: State) { forall k :: NodeOk(d, s, k) }

  /** The part of the state a node's invariant speaks of did not change, except that releases may have left. */
  lemma QuietKeeps(d: Deployment, s: State, s': State, sent: seq<Queued>, k: Key)
    requires NodeOk(d, s, k) && s.batch != [] && s.clock <= s'.clock
    requires s'.batch == s.batch[1..] + s.queue + sent && s'.queue == [] && Count(k, sent) == 0
    requires Count(k, Items(s'.delayed)) == Count(k, Items(s.delayed)) && DueAt(s'.delayed, k, s.RateOf(k).nextAllowed)
    requires s'.RateOf(k) == s.RateOf(k) && LastAccepted(s'.log, k) == LastAccepted(s.log, k)
    requires EmittedBefore(s'.log, k, DelayOf(d, k), s.RateOf(k).nextAllowed) && WellSpaced(s'.log, k, DelayOf(d, k))
    ensures NodeOk(d, s', k)
  {
    CountLeaves(s, s', sent, k);
  }

  lemma CountLeaves(s: State, s': State, sent: seq<Queued>, k: Key)
    requires s.batch != [] && s'.batch == s.batch[1..] + s.queue + sent && Count(k, sent) == 0
    ensures Count(k, s'.batch) + (if IsRateRelease(s.batch[0], k) then 1 else 0)
      == Count(k, s.batch) + Count(k, s.queue)
  {
    CountBoth(k, s.batch[1..] + s.queue, sent);
    CountBoth(k, s.batch[1..], s.queue);
  }

  // ---------------------------------------------------------------- every action keeps it

  lemma ArriveKeeps(d: Deployment, s: State, q: Queued, k: Key)
    requires NodeOk(d, s, k) && IsInput(q)
    ensures NodeOk(d, Arrive(s, q), k)
  {
    CountBoth(k, s.queue, [q]);
    assert Count(k, [q]) == 0;
  }

  lemma PullKeeps(d: Deployment, s: State, now: int, k: Key)
    requires NodeOk(d, s, k) && s.batch == [] && s.clock <= now
    ensures NodeOk(d, Pull(s, now), k)
  {
    var n := DueCount(s.delayed, now);
    var a, b := s.delayed[..n], s.delayed[n..];
    assert s.delayed == a + b;
    Timers.ItemsBoth(a, b);
    CountBoth(k, Items(a), Items(b));
    CountBoth(k, s.queue, Items(a));
    PulledDue(s, now, k);
    assert Count(k, []) == 0;
    hide Count, Items, WellSpaced, EmittedBefore, LastAccepted, DueCount, DelayOf;
    var s' := Pull(s, now);
    assert Count(k, s'.batch) == Count(k, s.queue) + Count(k, Items(a)) && Count(k, s'.queue) == 0;
    assert s'.RateOf(k) == s.RateOf(k) && s'.delayed == b;
    assert DueAt(b, k, s.RateOf(k).nextAllowed) by { assert forall t | t in b :: t in s.delayed; }
  }

  /** If a release is pulled, the node may emit again. */
  lemma PulledDue(s: State, now: int, k: Key)
    requires DueAt(s.delayed, k, s.RateOf(k).nextAllowed)
    ensures Count(k, Items(s.delayed[..DueCount(s.delayed, now)])) > 0 ==> s.RateOf(k).nextAllowed <= now
  {
    hide Items, Count, DueCount;
    var a := s.delayed[..DueCount(s.delayed, now)];
    PulledWasDue(s.delayed, now);
    CountedIsThere(k, a);
    assert forall t | t in a :: t in s.delayed;
  }

  /** A turn that sends user events and does nothing with rates. */
  lemma SentKeeps(d: Deployment, s: State, i: Input, sent: seq<Queued>, k: Key)
    requires NodeOk(d, s, k) && s.batch != [] && s.clock <= i.now && Timers.Unstamped(sent)
    requires var p := Process(d, s, s.batch[0], i);
      && p.queue == s.queue + sent && p.clock == i.now && p.RateOf(k) == s.RateOf(k)
      && Count(k, Items(p.delayed)) == Count(k, Items(s.delayed)) && DueAt(p.delayed, k, s.RateOf(k).nextAllowed)
      && (p.log == s.log || exists r :: p.log == s.log + [r] && !IsRateRecord(r, k))
    ensures NodeOk(d, Turn(d, s, i), k)
  {
    var p := Process(d, s, s.batch[0], i);
    UnstampedCount(k, sent);
    hide Process, Count, Items;
    if p.log != s.log {
      var r :| p.log == s.log + [r] && !IsRateRecord(r, k);
      LastAcceptedOne(s.log, r, k);
      SpacedOther(s.log, r, k, DelayOf(d, k));
    }
    assert s.batch[1..] + (s.queue + sent) == s.batch[1..] + s.queue + sent;
    QuietKeeps(d, s, Turn(d, s, i), sent, k);
  }

  /** The front event makes its rate limiter release. */
  predicate FrontReleases(d: Deployment, s: State)
    requires s.batch != []
  {
    var kind := Delivered(d, s.batch[0]);
    kind.Some? && kind.value.RateLimit? && s.batch[0].port.RateRelease?
  }

  /** What the front release must be: the engine's own, or one to a node without delay that has accepted something. */
  predicate ReleaseOk(d: Deployment, s: State)
    requires s.batch != []
  {
    var q := s.batch[0];
    FrontReleases(d, s) ==> q.stamp.Some? || (DelayOf(d, q.to) == 0 && LastAccepted(s.log, q.to).Some?)
  }

  lemma TurnKeeps(d: Deployment, s: State, i: Input, k: Key)
    requires s.batch != [] && ReleaseOk(d, s)
    requires NodeOk(d, s, k) && s.batch != [] && s.clock <= i.now
    ensures NodeOk(d, Turn(d, s, i), k)
  {
    var q := s.batch[0];
    var kind, edges := Delivered(d, q), Edges(d, q.to);
    Timers.NothingSent();
    hide NodeOk, Output, Edges, Delivered, Items, Count;
    if kind.None? {
      QuietTurn(d, s, i, k);
    } else {
      match kind.value
      case DelayEach(delay) => DelayKeeps(d, s, i, delay, k);
      case RateLimit(delay) => RateKeeps(d, s, i, delay, k);
      case Trigger(_, _, _, _, _, _, _) => TriggerKeeps(d, s, i, kind.value, k);
      case _ => QuietTurn(d, s, i, k);
    }
  }

  /** Nodes that only send. */
  lemma QuietTurn(d: Deployment, s: State, i: Input, k: Key)
    requires NodeOk(d, s, k) && s.batch != [] && s.clock <= i.now
    requires Delivered(d, s.batch[0]).None? || !SetsTimers(Delivered(d, s.batch[0]).value)
    ensures NodeOk(d, Turn(d, s, i), k)
  {
    var q := s.batch[0];
    var kind, edges := Delivered(d, q), Edges(d, q.to);
    if kind.Some? { Timers.OutputIsUnstamped(kind.value, q, edges, i); }
    Timers.NothingSent();
    DueNow(d, s, k);
    Timers.QuietProcess(d, s, q, i);
    hide *;
    SentKeeps(d, s, i, if kind.None? then [] else Output(kind.value, q, edges, i), k);
  }

  lemma DueNow(d: Deployment, s: State, k: Key)
    requires NodeOk(d, s, k)
    ensures DueAt(s.delayed, k, s.RateOf(k).nextAllowed)
  {
  }

  lemma DelayKeeps(d: Deployment, s: State, i: Input, delay: nat, k: Key)
    requires NodeOk(d, s, k) && s.batch != [] && s.clock <= i.now
    requires Delivered(d, s.batch[0]) == Some(DelayEach(delay))
    ensures NodeOk(d, Turn(d, s, i), k)
  {
    var q := s.batch[0];
    var items := Along(q, Edges(d, q.to), q.event);
    Timers.AlongIsUnstamped(q, Edges(d, q.to), q.event);
    Timers.NothingSent();
    DueNow(d, s, k);
    DelayAllCount(d, k, s.delayed, items, i.now + delay, s.RateOf(k).nextAllowed);
    Timers.DelayTurn(d, s, i, delay);
    hide NodeOk, Along, Edges, Delivered, Items, Count, DelayAll, Timers.Unstamped, DueAt, Process;
    assert s.log + [] == s.log;
    SentKeeps(d, s, i, [], k);
  }

  lemma TriggerKeeps(d: Deployment, s: State, i: Input, kind: Kind, k: Key)
    requires NodeOk(d, s, k) && s.batch != [] && s.clock <= i.now
    requires kind.Trigger? && Delivered(d, s.batch[0]) == Some(kind)
    ensures NodeOk(d, Turn(d, s, i), k)
  {
    var q := s.batch[0];
    var edges, timer := Edges(d, q.to), TimerOf(s, q, i.now, kind);
    Timers.AlongIsUnstamped(q, edges, Configured(kind.delayed, q.event.key));
    Timers.AlongIsUnstamped(q, edges, Configured(kind.initial, q.event.key));
    Timers.NothingSent();
    DueNow(d, s, k);
    ReplaceCount(d, k, s.delayed, timer, s.RateOf(k).nextAllowed);
    TriggerProcess(d, s, q, i, kind);
    hide NodeOk, Along, Edges, Delivered, Items, Count, ReplaceTimer, Timers.Unstamped, DueAt, Process, TimerOf;
    SentKeeps(d, s, i, TriggerSent(s, q, edges, kind), k);
  }

  function TimerOf(s: State, q: Queued, now: int, kind: Kind): Timed
    requires kind.Trigger?
  {
    Timed(now + DurationOf(kind),
        Queued(q.to, q.event, q.hops + 1, TriggerRelease(s.Generation(q.to) + 1), q.epoch, Some(s.starts)))
  }

  /** What a trigger node sends. */
  function TriggerSent(s: State, q: Queued, edges: seq<FlowEdge>, kind: Kind): seq<Queued>
    requires kind.Trigger?
  {
    if q.port.TriggerRelease? then
      if s.Generation(q.to) != q.port.generation || !kind.sendDelayed then []
      else Along(q, edges, Configured(kind.delayed, q.event.key))
    else if q.event.writable && kind.resetValue != Some(q.event.value) && (kind.extend || s.Generation(q.to) == 0)
            && kind.sendInitial
    then Along(q, edges, Configured(kind.initial, q.event.key))
    else []
  }

  lemma TriggerProcess(d: Deployment, s: State, q: Queued, i: Input, kind: Kind)
    requires kind.Trigger? && Delivered(d, q) == Some(kind)
    ensures
      var p := Process(d, s, q, i);
      && p.queue == s.queue + TriggerSent(s, q, Edges(d, q.to), kind) && p.clock == i.now && p.rates == s.rates
      && (p.delayed == s.delayed
          || (!q.port.TriggerRelease? && p.delayed == ReplaceTimer(d, s.delayed, TimerOf(s, q, i.now, kind))))
      && (p.log == s.log || exists r :: p.log == s.log + [r] && (r.Started? || r.Reset? || r.Fired?))
  {
    hide Delivered, Along, Edges, ReplaceTimer;
    assert s.queue + [] == s.queue;
    var p := Process(d, s, q, i);
    if q.port.TriggerRelease? {
      assert s.Generation(q.to) == q.port.generation ==> p.log == s.log + [Fired(q.to, q.stamp)];
    } else {
      assert p.log == s.log || p.log == s.log + [Reset(q.to)] || p.log == s.log + [Started(q.to, s.starts)];
    }
  }

  // ---------------------------------------------------------------- the rate-limit node itself

  lemma RateKeeps(d: Deployment, s: State, i: Input, delay: nat, k: Key)
    requires s.batch != [] && ReleaseOk(d, s)
    requires NodeOk(d, s, k) && s.batch != [] && s.clock <= i.now
    requires Delivered(d, s.batch[0]) == Some(RateLimit(delay))
    ensures NodeOk(d, Turn(d, s, i), k)
  {
    if k == s.batch[0].to { OwnRate(d, s, i, delay); } else { OtherRate(d, s, i, delay, k); }
  }

  /** What one turn of a rate limiter does. */
  datatype Effect = Effect(sent: seq<Queued>, rate: Rate, records: seq<Record>, release: Option<Timed>)

  function EffectOf(d: Deployment, s: State, q: Queued, now: int, delay: nat): Effect {
    var k, rate, edges := q.to, s.RateOf(q.to), Edges(d, q.to);
    if q.port.RateRelease? then
      Effect(Along(q, edges, rate.latest), rate.(scheduled := false, nextAllowed := now + delay),
          [Emitted(k, now, rate.latest)], None)
    else if !q.event.writable then Effect([], rate, [], None)
    else if !rate.scheduled && now >= rate.nextAllowed then
      Effect(Along(q, edges, q.event), Rate(q.event, false, now + delay),
          [Accepted(k, q.event), Emitted(k, now, q.event)], None)
    else if !rate.scheduled then
      Effect([], Rate(q.event, true, rate.nextAllowed), [Accepted(k, q.event)],
        if |s.delayed| >= d.limit then None
        else Some(Timed(rate.nextAllowed, Queued(k, q.event, q.hops + 1, RateRelease, q.epoch, Some(0)))))
    else Effect([], rate.(latest := q.event), [Accepted(k, q.event)], None)
  }

  lemma RateTurn(d: Deployment, s: State, i: Input, delay: nat)
    requires s.batch != [] && Delivered(d, s.batch[0]) == Some(RateLimit(delay))
    ensures var q := s.batch[0];
      var e, s' := EffectOf(d, s, q, i.now, delay), Turn(d, s, i);
      && s'.batch == s.batch[1..] + s.queue + e.sent && s'.queue == [] && s'.clock == i.now
      && s'.log == s.log + e.records && s'.RateOf(q.to) == e.rate
      && (forall k | k != q.to :: s'.RateOf(k) == s.RateOf(k))
      && s'.delayed == if e.release.None? then s.delayed else Insert(s.delayed, e.release.value)
  {
    hide Delivered, Along, Edges, Insert;
    assert s.queue + [] == s.queue && s.log + [] == s.log;
  }

  lemma EffectIsUser(d: Deployment, s: State, q: Queued, now: int, delay: nat, k: Key)
    ensures Count(k, EffectOf(d, s, q, now, delay).sent) == 0
  {
    Timers.AlongIsUnstamped(q, Edges(d, q.to), s.RateOf(q.to).latest);
    Timers.AlongIsUnstamped(q, Edges(d, q.to), q.event);
    Timers.NothingSent();
    hide Edges, Along, Count, Timers.Unstamped;
    UnstampedCount(k, EffectOf(d, s, q, now, delay).sent);
  }

  lemma OtherRate(d: Deployment, s: State, i: Input, delay: nat, k: Key)
    requires NodeOk(d, s, k) && s.batch != [] && s.clock <= i.now && k != s.batch[0].to
    requires Delivered(d, s.batch[0]) == Some(RateLimit(delay))
    ensures NodeOk(d, Turn(d, s, i), k)
  {
    var q := s.batch[0];
    var e := EffectOf(d, s, q, i.now, delay);
    RateTurn(d, s, i, delay);
    EffectIsUser(d, s, q, i.now, delay, k);
    EffectRecords(d, s, q, i.now, delay, k);
    SpacedNow(d, s, k);
    hide *;
    OtherRecords(s.log, e.records, k, DelayOf(d, k), s.RateOf(k).nextAllowed);
    StillDue(s, Turn(d, s, i), e.release, k);
    QuietKeeps(d, s, Turn(d, s, i), e.sent, k);
  }

  lemma SpacedNow(d: Deployment, s: State, k: Key)
    requires NodeOk(d, s, k)
    ensures WellSpaced(s.log, k, DelayOf(d, k)) && EmittedBefore(s.log, k, DelayOf(d, k), s.RateOf(k).nextAllowed)
    ensures DueAt(s.delayed, k, s.RateOf(k).nextAllowed)
  {
  }

  /** The records and the release of a turn are about its own node. */
  lemma EffectRecords(d: Deployment, s: State, q: Queued, now: int, delay: nat, k: Key)
    requires k != q.to
    ensures
      var e := EffectOf(d, s, q, now, delay);
      && |e.records| <= 2 && (forall r | r in e.records :: !IsRateRecord(r, k))
      && (e.release.Some? ==> !IsRateRelease(e.release.value.item, k))
  {
    hide Along, Edges;
  }

  lemma StillDue(s: State, s': State, release: Option<Timed>, k: Key)
    requires DueAt(s.delayed, k, s.RateOf(k).nextAllowed)
    requires s'.delayed == if release.None? then s.delayed else Insert(s.delayed, release.value)
    requires release.Some? ==> !IsRateRelease(release.value.item, k)
    ensures Count(k, Items(s'.delayed)) == Count(k, Items(s.delayed))
    ensures DueAt(s'.delayed, k, s.RateOf(k).nextAllowed)
  {
    if release.Some? { InsertCount(k, s.delayed, release.value); }
    hide Count, Items, Insert;
  }

  lemma OtherRecords(log: seq<Record>, records: seq<Record>, k: Key, delay: nat, next: int)
    requires |records| <= 2 && (forall r | r in records :: !IsRateRecord(r, k))
    requires WellSpaced(log, k, delay) && EmittedBefore(log, k, delay, next)
    ensures WellSpaced(log + records, k, delay) && EmittedBefore(log + records, k, delay, next)
    ensures LastAccepted(log + records, k) == LastAccepted(log, k)
  {
    hide WellSpaced;
    if |records| == 0 {
      assert log + records == log;
    } else {
      assert records[0] in records;
      LastAcceptedOne(log, records[0], k);
      SpacedOther(log, records[0], k, delay);
      if |records| == 1 {
        assert log + records == log + [records[0]];
      } else {
        assert records[1] in records;
        LastAcceptedOne(log + [records[0]], records[1], k);
        SpacedOther(log + [records[0]], records[1], k, delay);
        assert log + records == log + [records[0]] + [records[1]];
      }
    }
  }

  lemma OwnRate(d: Deployment, s: State, i: Input, delay: nat)
    requires s.batch != [] && ReleaseOk(d, s)
    requires s.batch != [] && NodeOk(d, s, s.batch[0].to) && s.clock <= i.now
    requires Delivered(d, s.batch[0]) == Some(RateLimit(delay))
    ensures NodeOk(d, Turn(d, s, i), s.batch[0].to)
  {
    var q, k := s.batch[0], s.batch[0].to;
    var e, s' := EffectOf(d, s, q, i.now, delay), Turn(d, s, i);
    assert DelayOf(d, k) == delay;
    RateTurn(d, s, i, delay);
    EffectIsUser(d, s, q, i.now, delay, k);
    CountLeaves(s, s', e.sent, k);
    hide Delivered, Turn, Items, Edges, Along, DelayOf;
    OwnRecords(s.log, s.RateOf(k), q, i.now, delay, e, d, s);
    OwnCounts(d, s, s', e, delay, i.now);
  }

  /** The records of one turn keep the spacing and name the value accepted last. */
  lemma OwnRecords(log: seq<Record>, rate: Rate, q: Queued, now: int, delay: nat, e: Effect, d: Deployment, s: State)
    requires log == s.log && rate == s.RateOf(q.to) && e == EffectOf(d, s, q, now, delay)
    requires WellSpaced(log, q.to, delay) && EmittedBefore(log, q.to, delay, rate.nextAllowed)
    requires Latest(log, q.to, rate)
    requires q.port.RateRelease? ==> LastAccepted(log, q.to).Some? && rate.nextAllowed <= now
    ensures WellSpaced(log + e.records, q.to, delay) && EmittedBefore(log + e.records, q.to, delay, e.rate.nextAllowed)
    ensures Latest(log + e.records, q.to, e.rate)
  {
    hide WellSpaced, EmittedBefore, Edges, Along;
    var k, accepted := q.to, Accepted(q.to, q.event);
    SpacedOther(log, accepted, k, delay);
    LastAcceptedOne(log, accepted, k);
    AcceptedIsNoEmission(log, accepted, k, delay, rate.nextAllowed);
    if q.port.RateRelease? {
      SpacedEmission(log, k, now, rate.latest, delay, rate.nextAllowed);
    } else if !q.event.writable {
      assert log + [] == log;
    } else if !rate.scheduled && now >= rate.nextAllowed {
      SpacedEmission(log + [accepted], k, now, q.event, delay, rate.nextAllowed);
      assert log + [accepted] + [Emitted(k, now, q.event)] == log + e.records;
    }
  }

  lemma AcceptedIsNoEmission(log: seq<Record>, r: Record, k: Key, delay: nat, next: int)
    requires EmittedBefore(log, k, delay, next) && !r.Emitted?
    ensures EmittedBefore(log + [r], k, delay, next)
  {
  }

  lemma OwnCounts(d: Deployment, s: State, s': State, e: Effect, delay: nat, now: int)
    requires s.batch != [] && (s.batch[0].port.RateRelease? ==> s.batch[0].stamp.Some? || delay == 0)
    requires s.batch != [] && NodeOk(d, s, s.batch[0].to) && s.clock <= now
    requires e == EffectOf(d, s, s.batch[0], now, delay)
    requires s'.queue == [] && s'.clock == now && s'.RateOf(s.batch[0].to) == e.rate && s'.log == s.log + e.records
    requires s'.delayed == if e.release.None? then s.delayed else Insert(s.delayed, e.release.value)
    requires Count(s.batch[0].to, s'.batch) + (if IsRateRelease(s.batch[0], s.batch[0].to) then 1 else 0)
      == Count(s.batch[0].to, s.batch) + Count(s.batch[0].to, s.queue)
    requires DelayOf(d, s.batch[0].to) == delay
    requires WellSpaced(s'.log, s.batch[0].to, delay) && EmittedBefore(s'.log, s.batch[0].to, delay, e.rate.nextAllowed)
    requires Latest(s'.log, s.batch[0].to, e.rate)
    ensures NodeOk(d, s', s.batch[0].to)
  {
    var k := s.batch[0].to;
    if e.release.Some? { InsertCount(k, s.delayed, e.release.value); }
    NoneThere(k, s.delayed);
    hide WellSpaced, EmittedBefore, LastAccepted, Edges, Along, DelayOf, Items, Insert;
  }

  lemma {:induction false} NoneThere(k: Key, delayed: seq<Timed>)
    ensures Count(k, Items(delayed)) == 0 ==> forall t | t in delayed :: !IsRateRelease(t.item, k)
  {
    if delayed != [] { NoneThere(k, delayed[1..]); }
  }

  // ---------------------------------------------------------------- whole runs

  lemma StartOk(d: Deployment, k: Key)
    ensures NodeOk(d, EMPTY, k)
  {
  }

  lemma ActKeeps(d: Deployment, s: State, a: Action, k: Key)
    requires a.Turning? && s.batch != [] ==> ReleaseOk(d, s)
    requires NodeOk(d, s, k) && Enabled(s, a)
    ensures NodeOk(d, Act(d, s, a), k)
  {
    hide NodeOk, Turn, Pull, Arrive;
    match a
    case Arrival(q) => ArriveKeeps(d, s, q, k);
    case Pulling(now) => PullKeeps(d, s, now, k);
    case Turning(i) => TurnKeeps(d, s, i, k);
  }
}
