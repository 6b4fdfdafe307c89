/** Safety of the trigger timers over whole runs, although generation numbers restart at 0.

    The records of a run say which start of a trigger is its live timer: the last start, unless a reset or
    a firing came after it.  Every action keeps, as long as the release that makes a trigger fire is the
    engine's own: the outstanding releases of a node, in queue order, have strictly increasing generations
    up to the node's current one, at most one of them is delayed, and every release that fires is that of
    the live timer.  So comparing generations implements the identity of timers.
 */
module FlowTimers {
  import opened FlowEngine

  // ---------------------------------------------------------------- outstanding releases

  /** A release the engine made itself for this node. */
  predicate IsOwnRelease(q: Queued, k: Key) { IsTriggerRelease(q, k) && q.stamp.Some? }

  function Releases(k: Key, xs: seq<Queued>): seq<Queued> {
    if xs == [] then []
    else (if IsOwnRelease(xs[0], k) then [xs[0]] else []) + Releases(k, xs[1..])
  }

  /** Everything queued, in the order in which it will be processed. */
  function Pending(s: State): seq<Queued> { s.batch + s.queue + Items(s.delayed) }

  lemma {:induction false} ReleasesBoth(k: Key, xs: seq<Queued>, ys: seq<Queued>)
    ensures Releases(k, xs + ys) == Releases(k, xs) + Releases(k, ys)
  {
    if xs == [] {
      assert xs + ys == ys;
    } else {
      assert (xs + ys)[1..] == xs[1..] + ys;
      ReleasesBoth(k, xs[1..], ys);
    }
  }

  lemma PendingReleases(s: State, k: Key)
    ensures Releases(k, Pending(s)) == Releases(k, s.batch) + Releases(k, s.queue) + Releases(k, Items(s.delayed))
  {
    ReleasesBoth(k, s.batch + s.queue, Items(s.delayed));
    ReleasesBoth(k, s.batch, s.queue);
  }

  lemma {:induction false} ItemsBoth(a: seq<Timed>, b: seq<Timed>)
    ensures Items(a + b) == Items(a) + Items(b)
  {
    if a == [] {
      assert a + b == b;
    } else {
      assert (a + b)[1..] == a[1..] + b;
      ItemsBoth(a[1..], b);
    }
  }

  /** Sent along edges, or nothing. */
  predicate Unstamped(xs: seq<Queued>) { forall q | q in xs :: q.stamp.None? }

  lemma {:induction false} NoneOwn(k: Key, xs: seq<Queued>)
    requires Unstamped(xs)
    ensures Releases(k, xs) == []
  {
    if xs != [] { NoneOwn(k, xs[1..]); }
  }

  // ---------------------------------------------------------------- what sending adds

  lemma {:induction false} OutgoingAreEdges(edges: seq<FlowEdge>, node: string)
    ensures forall e | e in Outgoing(edges, node) :: e in edges && e.from == node
  {
    if edges != [] { OutgoingAreEdges(edges[1..], node); }
  }

  lemma {:induction false} AlongIsUnstamped(q: Queued, edges: seq<FlowEdge>, event: Event)
    ensures Unstamped(Along(q, edges, event))
  {
    if edges != [] { AlongIsUnstamped(q, edges[1..], event); }
  }

  lemma {:induction false} AlongAllIsUnstamped(q: Queued, edges: seq<FlowEdge>, parts: seq<Part>)
    ensures Unstamped(AlongAll(q, edges, parts))
  {
    if parts != [] {
      AlongIsUnstamped(q, edges, PartEvent(parts[0]));
      AlongAllIsUnstamped(q, edges, parts[1..]);
    }
  }

  lemma {:induction false} FromPortAreEdges(edges: seq<FlowEdge>, port: string)
    ensures forall e | e in FromPort(edges, port) :: e in edges
  {
    if edges != [] { FromPortAreEdges(edges[1..], port); }
  }

  lemma {:induction false} AlongPortsIsUnstamped(q: Queued, edges: seq<FlowEdge>, ports: seq<string>)
    ensures Unstamped(AlongPorts(q, edges, ports))
  {
    if ports != [] {
      FromPortAreEdges(edges, ports[0]);
      AlongIsUnstamped(q, FromPort(edges, ports[0]), q.event);
      AlongPortsIsUnstamped(q, edges, ports[1..]);
    }
  }

  lemma OutputIsUnstamped(kind: Kind, q: Queued, edges: seq<FlowEdge>, i: Input)
    ensures Unstamped(Output(kind, q, edges, i))
  {
    NothingSent();
    match kind
    case Pass => AlongIsUnstamped(q, edges, q.event);
    case Convert(apply) =>
      var value := if q.event.writable then apply(q.event.value) else None;
      if value.Some? { AlongIsUnstamped(q, edges, q.event.(value := value.value)); }
    case Labelled(clearsKey) =>
      if i.relay.Some? {
        AlongIsUnstamped(q, edges, Event(i.relay.value, if clearsKey then "" else q.event.key, true));
      }
    case Split => AlongAllIsUnstamped(q, edges, i.parts);
    case Switch(rules, checkAll, otherwise) =>
      AlongPortsIsUnstamped(q, edges, Selected(rules, checkAll, otherwise, q.event.key));
    case _ =>
  }

  /** A node without timers only sends. */
  lemma QuietProcess(d: Deployment, s: State, q: Queued, i: Input)
    requires Delivered(d, q).None? || !SetsTimers(Delivered(d, q).value)
    ensures
      var sent := if Delivered(d, q).None? then [] else Output(Delivered(d, q).value, q, Edges(d, q.to), i);
      Process(d, s, q, i) == s.(clock := i.now, queue := s.queue + sent)
  {
    hide Delivered, Output, Edges;
    assert s.queue + [] == s.queue;
  }

  // ---------------------------------------------------------------- what the delayed queue keeps

  lemma {:induction false} InsertReleases(k: Key, delayed: seq<Timed>, t: Timed)
    requires !IsOwnRelease(t.item, k)
    ensures Releases(k, Items(Insert(delayed, t))) == Releases(k, Items(delayed))
  {
    if delayed == [] || t.due < delayed[0].due {
      assert ([t] + delayed)[1..] == delayed;
      assert Items([t] + delayed) == [t.item] + Items(delayed);
    } else {
      InsertReleases(k, delayed[1..], t);
      var rest := Insert(delayed[1..], t);
      assert ([delayed[0]] + rest)[1..] == rest;
    }
  }

  lemma {:induction false} InsertOnly(k: Key, delayed: seq<Timed>, t: Timed)
    requires Releases(k, Items(delayed)) == [] && IsOwnRelease(t.item, k)
    ensures Releases(k, Items(Insert(delayed, t))) == [t.item]
  {
    if delayed == [] || t.due < delayed[0].due {
      assert ([t] + delayed)[1..] == delayed;
      assert Items([t] + delayed) == [t.item] + Items(delayed);
    } else {
      InsertOnly(k, delayed[1..], t);
      var rest := Insert(delayed[1..], t);
      assert ([delayed[0]] + rest)[1..] == rest;
    }
  }

  lemma {:induction false} WithoutTimerReleases(k: Key, delayed: seq<Timed>, own: Key)
    ensures Releases(k, Items(WithoutTimer(delayed, own))) == if k == own then [] else Releases(k, Items(delayed))
    decreases delayed
  {
    if delayed != [] {
      WithoutTimerReleases(k, delayed[1..], own);
      var rest := WithoutTimer(delayed[1..], own);
      assert ([delayed[0]] + rest)[1..] == rest;
    }
  }

  lemma {:induction false} DelayAllReleases(d: Deployment, k: Key, delayed: seq<Timed>, items: seq<Queued>, due: int)
    requires Unstamped(items)
    ensures Releases(k, Items(DelayAll(d, delayed, items, due))) == Releases(k, Items(delayed))
    decreases items
  {
    if items != [] {
      var r := EnqueueDelayed(d, delayed, Timed(due, items[0]));
      if r.Some? {
        InsertReleases(k, delayed, Timed(due, items[0]));
        DelayAllReleases(d, k, r.value, items[1..], due);
      }
    }
  }

  // ---------------------------------------------------------------- the live timer in the records

  predicate IsTimerRecord(r: Record, k: Key) { (r.Started? || r.Reset? || r.Fired?) && r.key == k }

  /** The last thing that happened to the node's timer. */
  function LastTimer(log: seq<Record>, k: Key): Option<Record> {
    if log == [] then None
    else if IsTimerRecord(log[|log| - 1], k) then Some(log[|log| - 1])
    else LastTimer(log[..|log| - 1], k)
  }

  lemma LastTimerOne(log: seq<Record>, r: Record, k: Key)
    ensures LastTimer(log + [r], k) == if IsTimerRecord(r, k) then Some(r) else LastTimer(log, k)
  {
    assert (log + [r])[..|log|] == log;
  }

  lemma LastTimerOther(log: seq<Record>, more: seq<Record>, k: Key)
    requires |more| <= 2 && forall r | r in more :: !IsTimerRecord(r, k)
    ensures LastTimer(log + more, k) == LastTimer(log, k)
  {
    if |more| == 1 {
      LastTimerOne(log, more[0], k);
      assert log + more == log + [more[0]];
    } else if |more| == 2 {
      LastTimerOne(log, more[0], k);
      LastTimerOne(log + [more[0]], more[1], k);
      assert log + more == log + [more[0]] + [more[1]];
    } else {
      assert log + more == log;
    }
  }

  /** The node's timer was started under this stamp, and neither reset nor extended nor fired since. */
  predicate LiveIs(log: seq<Record>, k: Key, stamp: Option<nat>) {
    stamp.Some? && LastTimer(log, k) == Some(Started(k, stamp.value))
  }

  /** Whatever fired was the live timer: started, and neither reset nor extended nor fired since. */
  ghost predicate OnlyLiveFires(log: seq<Record>) {
    forall i | 0 <= i < |log| && log[i].Fired? :: LiveIs(log[..i], log[i].key, log[i].release)
  }

  lemma OnlyLiveFiresMore(log: seq<Record>, more: seq<Record>)
    requires OnlyLiveFires(log) && forall r | r in more :: !r.Fired?
    ensures OnlyLiveFires(log + more)
  {
    assert forall j | 0 <= j < |more| :: !more[j].Fired?;
    forall i | 0 <= i < |log + more| && (log + more)[i].Fired?
      ensures LiveIs((log + more)[..i], (log + more)[i].key, (log + more)[i].release)
    {
      if i < |log| { assert (log + more)[..i] == log[..i]; }
    }
  }

  lemma OnlyLiveFiresOne(log: seq<Record>, k: Key, stamp: Option<nat>)
    requires OnlyLiveFires(log) && LiveIs(log, k, stamp)
    ensures OnlyLiveFires(log + [Fired(k, stamp)])
  {
    var all := log + [Fired(k, stamp)];
    forall i | 0 <= i < |all| && all[i].Fired?
      ensures LiveIs(all[..i], all[i].key, all[i].release)
    {
      assert all[..i] == log[..i];
      if i == |log| { assert log[..i] == log; }
    }
  }

  // ---------------------------------------------------------------- the invariant

  /** The outstanding releases of one node against its current generation and its live timer. */
  ghost predicate InOrder(k: Key, out: seq<Queued>, generation: nat, live: Option<Record>) {
    && (forall q | q in out :: IsOwnRelease(q, k) && 1 <= q.port.generation <= generation)
    && (forall i, j | 0 <= i < j < |out| :: out[i].port.TriggerRelease? && out[j].port.TriggerRelease?
         && out[i].port.generation < out[j].port.generation)
    && (forall q | q in out && q.port.generation == generation :: live == Some(Started(k, q.stamp.value)))
  }

  ghost predicate NodeOk(s: State, k: Key) {
    && InOrder(k, Releases(k, Pending(s)), s.Generation(k), LastTimer(s.log, k))
    && |Releases(k, Items(s.delayed))| <= 1
  }

  ghost predicate TimersOk(s: State) {
    (forall k :: NodeOk(s, k)) && OnlyLiveFires(s.log)
  }

  lemma InOrderTail(k: Key, out: seq<Queued>, generation: nat, live: Option<Record>)
    requires InOrder(k, out, generation, live) && out != []
    ensures InOrder(k, out[1..], generation, live)
    ensures out[0].port.generation == generation ==> out[1..] == []
  {
    if |out| > 1 { assert out[0].port.generation < out[1].port.generation && out[1] in out; }
  }

  /** A higher generation supersedes everything outstanding. */
  lemma InOrderRaised(k: Key, out: seq<Queued>, generation: nat, live: Option<Record>, live': Option<Record>)
    requires InOrder(k, out, generation, live)
    ensures InOrder(k, out, generation + 1, live')
  {
  }

  lemma InOrderAppend(k: Key, out: seq<Queued>, generation: nat, live: Option<Record>, timer: Queued)
    requires InOrder(k, out, generation, live) && IsOwnRelease(timer, k) && timer.port.generation == generation + 1
    ensures InOrder(k, out + [timer], generation + 1, Some(Started(k, timer.stamp.value)))
  {
    forall q | q in out + [timer] ensures IsOwnRelease(q, k) && 1 <= q.port.generation <= generation + 1 {
      assert q in out || q == timer;
    }
  }

  lemma InOrderPrefix(k: Key, a: seq<Queued>, b: seq<Queued>, generation: nat, live: Option<Record>)
    requires InOrder(k, a + b, generation, live)
    ensures InOrder(k, a, generation, live)
  {
    assert forall q | q in a :: q in a + b;
    forall i, j | 0 <= i < j < |a| ensures a[i].port.TriggerRelease? && a[j].port.TriggerRelease?
         && a[i].port.generation < a[j].port.generation
    {
      assert a[i] == (a + b)[i] && a[j] == (a + b)[j];
    }
  }

  // ---------------------------------------------------------------- every action keeps it

  lemma ArriveKeepsTimers(s: State, q: Queued)
    requires TimersOk(s) && IsInput(q)
    ensures TimersOk(Arrive(s, q))
  {
    forall k ensures NodeOk(Arrive(s, q), k) { ArriveKeepsNode(s, q, k); }
  }

  lemma ArriveKeepsNode(s: State, q: Queued, k: Key)
    requires NodeOk(s, k) && IsInput(q)
    ensures NodeOk(Arrive(s, q), k)
  {
    PendingReleases(s, k);
    PendingReleases(Arrive(s, q), k);
    ReleasesBoth(k, s.queue, [q]);
    assert Releases(k, [q]) == [];
    hide Releases, Items, Pending, InOrder;
    assert Releases(k, s.queue) + [] == Releases(k, s.queue);
  }

  lemma PullKeepsTimers(s: State, now: int)
    requires TimersOk(s) && s.batch == []
    ensures TimersOk(Pull(s, now))
  {
    forall k ensures NodeOk(Pull(s, now), k) { PullKeepsNode(s, now, k); }
  }

  lemma PullKeepsNode(s: State, now: int, k: Key)
    requires NodeOk(s, k) && s.batch == []
    ensures NodeOk(Pull(s, now), k)
  {
    hide Releases, InOrder;
    PullPending(s, now);
    var n := DueCount(s.delayed, now);
    ReleasesBoth(k, Items(s.delayed[..n]), Items(s.delayed[n..]));
  }

  lemma PullPending(s: State, now: int)
    requires s.batch == []
    ensures var n := DueCount(s.delayed, now); Items(s.delayed) == Items(s.delayed[..n]) + Items(s.delayed[n..])
    ensures Pending(Pull(s, now)) == Pending(s)
  {
    var n := DueCount(s.delayed, now);
    assert s.delayed == s.delayed[..n] + s.delayed[n..];
    ItemsBoth(s.delayed[..n], s.delayed[n..]);
    hide Items, DueCount;
    var a, b := Items(s.delayed[..n]), Items(s.delayed[n..]);
    assert (s.queue + a) + [] + b == [] + s.queue + (a + b);
  }

  /** A processed event that starts, fires or resets no timer: it only leaves the queues, user events and rate
      releases come. */
  lemma QuietNodeKeeps(s: State, s': State, sent: seq<Queued>, k: Key)
    requires NodeOk(s, k) && s.batch != []
    requires s'.batch == s.batch[1..] + s.queue + sent && s'.queue == [] && Unstamped(sent)
    requires Releases(k, Items(s'.delayed)) == Releases(k, Items(s.delayed))
    requires s'.Generation(k) == s.Generation(k) && LastTimer(s'.log, k) == LastTimer(s.log, k)
    ensures NodeOk(s', k)
  {
    FrontLeaves(s, s', sent, k);
    hide Releases, Items, InOrder, Pending;
    var out := Releases(k, Pending(s));
    if out != [] { InOrderTail(k, out, s.Generation(k), LastTimer(s.log, k)); }
  }

  lemma FrontLeaves(s: State, s': State, sent: seq<Queued>, k: Key)
    requires s.batch != [] && s'.batch == s.batch[1..] + s.queue + sent && s'.queue == [] && Unstamped(sent)
    requires Releases(k, Items(s'.delayed)) == Releases(k, Items(s.delayed))
    ensures Releases(k, Pending(s')) ==
      if IsOwnRelease(s.batch[0], k) then Releases(k, Pending(s))[1..] else Releases(k, Pending(s))
    ensures IsOwnRelease(s.batch[0], k) ==> Releases(k, Pending(s)) != [] && Releases(k, Pending(s))[0] == s.batch[0]
  {
    hide *;
    BatchLeaves(s, s', sent, k);
    PendingReleases(s, k);
    PendingReleases(s', k);
    ReleasesHead(k, s.batch);
    NothingReleased(k);
    var head := if IsOwnRelease(s.batch[0], k) then [s.batch[0]] else [];
    FrontOf(head, Releases(k, s.batch[1..]), Releases(k, s.queue), Releases(k, Items(s.delayed)));
  }

  lemma NothingReleased(k: Key)
    ensures Releases(k, []) == []
  {
  }

  lemma ReleasesHead(k: Key, xs: seq<Queued>)
    requires xs != []
    ensures Releases(k, xs) == (if IsOwnRelease(xs[0], k) then [xs[0]] else []) + Releases(k, xs[1..])
  {
  }

  lemma FrontOf<T>(head: seq<T>, a: seq<T>, b: seq<T>, c: seq<T>)
    ensures (head + a) + b + c == head + ((a + b) + [] + c)
    ensures |head| == 1 ==>
      (head + ((a + b) + [] + c))[0] == head[0] && (head + ((a + b) + [] + c))[1..] == (a + b) + [] + c
    ensures head == [] ==> head + ((a + b) + [] + c) == (a + b) + [] + c
  {
  }

  lemma BatchLeaves(s: State, s': State, sent: seq<Queued>, k: Key)
    requires s.batch != [] && s'.batch == s.batch[1..] + s.queue + sent && Unstamped(sent)
    ensures Releases(k, s'.batch) == Releases(k, s.batch[1..]) + Releases(k, s.queue)
  {
    ReleasesBoth(k, s.batch[1..] + s.queue, sent);
    ReleasesBoth(k, s.batch[1..], s.queue);
    NoneOwn(k, sent);
  }

  /** The front event makes its trigger fire. */
  predicate FrontFires(d: Deployment, s: State)
    requires s.batch != []
  {
    var q := s.batch[0];
    var kind := Delivered(d, q);
    kind.Some? && kind.value.Trigger? && q.port.TriggerRelease? && s.Generation(q.to) == q.port.generation
  }

  lemma TurnKeepsTimers(d: Deployment, s: State, i: Input)
    requires TimersOk(s) && s.batch != [] && (FrontFires(d, s) ==> s.batch[0].stamp.Some?)
    ensures TimersOk(Turn(d, s, i))
  {
    var q := s.batch[0];
    var kind, edges := Delivered(d, q), Edges(d, q.to);
    hide TimersOk, Releases, Along, DelayAll, Output;
    if kind.None? {
      SentKeeps(d, s, i, [], s.delayed, []);
    } else {
      match kind.value
      case DelayEach(delay) =>
        DelayKeeps(d, s, i, delay);
      case RateLimit(delay) =>
        RateKeeps(d, s, i, delay);
      case Trigger(_, _, _, _, _, _, _) =>
        TriggerKeeps(d, s, i, kind.value);
      case _ =>
        OutputIsUnstamped(kind.value, q, edges, i);
        SentKeeps(d, s, i, Output(kind.value, q, edges, i), s.delayed, []);
    }
  }

  /** A turn that sends user events, changes the delayed queue without touching timers, and records nothing about
      timers. */
  lemma SentKeeps(d: Deployment, s: State, i: Input, sent: seq<Queued>, delayed: seq<Timed>, records: seq<Record>)
    requires TimersOk(s) && s.batch != [] && Unstamped(sent)
    requires forall k :: Releases(k, Items(delayed)) == Releases(k, Items(s.delayed))
    requires |records| <= 2 && forall r | r in records :: r.Accepted? || r.Emitted?
    requires var p := Process(d, s, s.batch[0], i);
      p.queue == s.queue + sent && p.delayed == delayed && p.generations == s.generations && p.log == s.log + records
    ensures TimersOk(Turn(d, s, i))
  {
    var s' := Turn(d, s, i);
    hide Process;
    assert s'.batch == s.batch[1..] + s.queue + sent;
    OnlyLiveFiresMore(s.log, records);
    hide Turn, Items, Releases, OnlyLiveFires, Unstamped;
    forall k ensures NodeOk(s', k) {
      hide NodeOk;
      LastTimerOther(s.log, records, k);
      QuietNodeKeeps(s, s', sent, k);
    }
  }

  lemma DelayKeeps(d: Deployment, s: State, i: Input, delay: nat)
    requires TimersOk(s) && s.batch != [] && Delivered(d, s.batch[0]) == Some(DelayEach(delay))
    ensures TimersOk(Turn(d, s, i))
  {
    var q := s.batch[0];
    var items := Along(q, Edges(d, q.to), q.event);
    AlongIsUnstamped(q, Edges(d, q.to), q.event);
    hide TimersOk, Releases, Along, DelayAll, Delivered, Edges, Unstamped, Items;
    var delayed := if !q.event.writable then s.delayed else DelayAll(d, s.delayed, items, i.now + delay);
    forall k ensures Releases(k, Items(delayed)) == Releases(k, Items(s.delayed)) {
      if q.event.writable { DelayAllReleases(d, k, s.delayed, items, i.now + delay); }
    }
    DelayTurn(d, s, i, delay);
    NothingSent();
    SentKeeps(d, s, i, [], delayed, []);
  }

  lemma NothingSent()
    ensures Unstamped([])
  {
  }

  lemma DelayTurn(d: Deployment, s: State, i: Input, delay: nat)
    requires s.batch != [] && Delivered(d, s.batch[0]) == Some(DelayEach(delay))
    ensures var q, p := s.batch[0], Process(d, s, s.batch[0], i);
      && p.queue == s.queue + [] && p.generations == s.generations && p.log == s.log + []
      && p.clock == i.now && p.rates == s.rates
      && p.delayed == (if !q.event.writable then s.delayed
                       else DelayAll(d, s.delayed, Along(q, Edges(d, q.to), q.event), i.now + delay))
  {
    hide Delivered, DelayAll, Along, Edges;
    assert s.queue + [] == s.queue && s.log + [] == s.log;
  }

  lemma RateKeeps(d: Deployment, s: State, i: Input, delay: nat)
    requires TimersOk(s) && s.batch != [] && Delivered(d, s.batch[0]) == Some(RateLimit(delay))
    ensures TimersOk(Turn(d, s, i))
  {
    var q := s.batch[0];
    var k, edges := q.to, Edges(d, q.to);
    var rate := s.RateOf(k);
    AlongIsUnstamped(q, edges, rate.latest);
    AlongIsUnstamped(q, edges, q.event);
    var release := Timed(rate.nextAllowed, Queued(k, q.event, q.hops + 1, RateRelease, q.epoch, Some(0)));
    forall x ensures Releases(x, Items(Insert(s.delayed, release))) == Releases(x, Items(s.delayed)) {
      InsertReleases(x, s.delayed, release);
    }
    hide TimersOk, Releases, Along, Delivered, Insert;
    assert s.queue + [] == s.queue && s.log + [] == s.log;
    if q.port.RateRelease? {
      SentKeeps(d, s, i, Along(q, edges, rate.latest), s.delayed, [Emitted(k, i.now, rate.latest)]);
    } else if !q.event.writable {
      SentKeeps(d, s, i, [], s.delayed, []);
    } else if !rate.scheduled && i.now >= rate.nextAllowed {
      SentKeeps(d, s, i, Along(q, edges, q.event), s.delayed, [Accepted(k, q.event), Emitted(k, i.now, q.event)]);
    } else if !rate.scheduled && |s.delayed| < d.limit {
      SentKeeps(d, s, i, [], Insert(s.delayed, release), [Accepted(k, q.event)]);
    } else {
      SentKeeps(d, s, i, [], s.delayed, [Accepted(k, q.event)]);
    }
  }

  // ---------------------------------------------------------------- the trigger node itself

  lemma TriggerKeeps(d: Deployment, s: State, i: Input, kind: Kind)
    requires s.batch != [] && (FrontFires(d, s) ==> s.batch[0].stamp.Some?)
    requires TimersOk(s) && kind.Trigger? && Delivered(d, s.batch[0]) == Some(kind)
    ensures TimersOk(Turn(d, s, i))
  {
    var q := s.batch[0];
    var k, edges := q.to, Edges(d, q.to);
    AlongIsUnstamped(q, edges, Configured(kind.delayed, q.event.key));
    AlongIsUnstamped(q, edges, Configured(kind.initial, q.event.key));
    hide TimersOk, Releases, Along, Delivered;
    assert s.queue + [] == s.queue && s.log + [] == s.log;
    if q.port.TriggerRelease? {
      if s.Generation(k) != q.port.generation {
        SentKeeps(d, s, i, [], s.delayed, []);
      } else {
        FireKeeps(d, s, i, kind);
      }
    } else if !q.event.writable {
      SentKeeps(d, s, i, [], s.delayed, []);
    } else if kind.resetValue == Some(q.event.value) {
      ResetKeeps(d, s, i, kind);
    } else if kind.extend || s.Generation(k) == 0 {
      StartKeeps(d, s, i, kind);
    } else {
      SentKeeps(d, s, i, [], s.delayed, []);
    }
  }

  /** A release whose generation is current is the only one outstanding, and that of the live timer. */
  lemma FireKeeps(d: Deployment, s: State, i: Input, kind: Kind)
    requires TimersOk(s) && s.batch != [] && kind.Trigger? && Delivered(d, s.batch[0]) == Some(kind)
    requires s.batch[0].port.TriggerRelease? && s.Generation(s.batch[0].to) == s.batch[0].port.generation
    requires s.batch[0].stamp.Some?
    ensures TimersOk(Turn(d, s, i))
  {
    var q, s' := s.batch[0], Turn(d, s, i);
    var own := q.to;
    var sent := if kind.sendDelayed then Along(q, Edges(d, own), Configured(kind.delayed, q.event.key)) else [];
    AlongIsUnstamped(q, Edges(d, own), Configured(kind.delayed, q.event.key));
    FireTurn(d, s, i, kind);
    hide Turn, Along, Delivered, Edges;
    forall k ensures NodeOk(s', k) {
      hide NodeOk;
      LastTimerOne(s.log, Fired(own, q.stamp), k);
      if k == own { FireKeepsNode(s, s', sent); } else { QuietNodeKeeps(s, s', sent, k); }
    }
    LiveAtFront(s, s', sent);
    OnlyLiveFiresOne(s.log, own, q.stamp);
  }

  lemma FireTurn(d: Deployment, s: State, i: Input, kind: Kind)
    requires s.batch != [] && kind.Trigger? && Delivered(d, s.batch[0]) == Some(kind)
    requires s.batch[0].port.TriggerRelease? && s.Generation(s.batch[0].to) == s.batch[0].port.generation
    ensures var q, s' := s.batch[0], Turn(d, s, i);
      && s'.batch == s.batch[1..] + s.queue
           + (if kind.sendDelayed then Along(q, Edges(d, q.to), Configured(kind.delayed, q.event.key)) else [])
      && s'.delayed == s.delayed && s'.queue == []
      && s'.log == s.log + [Fired(q.to, q.stamp)] && s'.generations == s.generations[q.to := 0]
  {
    hide Delivered, Along, Edges;
    assert s.queue + [] == s.queue;
  }

  lemma FireKeepsNode(s: State, s': State, sent: seq<Queued>)
    requires s.batch != [] && NodeOk(s, s.batch[0].to) && IsOwnRelease(s.batch[0], s.batch[0].to)
    requires s.Generation(s.batch[0].to) == s.batch[0].port.generation && s'.Generation(s.batch[0].to) == 0
    requires s'.batch == s.batch[1..] + s.queue + sent && s'.queue == [] && Unstamped(sent) && s'.delayed == s.delayed
    ensures NodeOk(s', s.batch[0].to)
  {
    var k := s.batch[0].to;
    FrontLeaves(s, s', sent, k);
    InOrderTail(k, Releases(k, Pending(s)), s.Generation(k), LastTimer(s.log, k));
  }

  /** The front release is outstanding, so if its generation is current it is the live timer's. */
  lemma LiveAtFront(s: State, s': State, sent: seq<Queued>)
    requires s.batch != [] && NodeOk(s, s.batch[0].to) && IsOwnRelease(s.batch[0], s.batch[0].to)
    requires s.Generation(s.batch[0].to) == s.batch[0].port.generation
    requires s'.batch == s.batch[1..] + s.queue + sent && s'.queue == [] && Unstamped(sent) && s'.delayed == s.delayed
    ensures LiveIs(s.log, s.batch[0].to, s.batch[0].stamp)
  {
    FrontLeaves(s, s', sent, s.batch[0].to);
    assert s.batch[0] in Releases(s.batch[0].to, Pending(s));
  }

  lemma ResetKeeps(d: Deployment, s: State, i: Input, kind: Kind)
    requires TimersOk(s) && s.batch != [] && kind.Trigger? && Delivered(d, s.batch[0]) == Some(kind)
    requires !s.batch[0].port.TriggerRelease? && s.batch[0].event.writable
    requires kind.resetValue == Some(s.batch[0].event.value)
    ensures TimersOk(Turn(d, s, i))
  {
    var s', own := Turn(d, s, i), s.batch[0].to;
    ResetTurn(d, s, i, kind);
    hide Turn, Delivered;
    forall k ensures NodeOk(s', k) {
      hide NodeOk;
      LastTimerOne(s.log, Reset(own), k);
      if k == own { ResetKeepsNode(s, s'); } else { QuietNodeKeeps(s, s', [], k); }
    }
    OnlyLiveFiresMore(s.log, [Reset(own)]);
  }

  lemma ResetKeepsNode(s: State, s': State)
    requires s.batch != [] && NodeOk(s, s.batch[0].to) && !s.batch[0].port.TriggerRelease?
    requires s'.Generation(s.batch[0].to) == s.Generation(s.batch[0].to) + 1
    requires s'.batch == s.batch[1..] + s.queue + [] && s'.queue == [] && s'.delayed == s.delayed
    ensures NodeOk(s', s.batch[0].to)
  {
    var k := s.batch[0].to;
    FrontLeaves(s, s', [], k);
    InOrderRaised(k, Releases(k, Pending(s)), s.Generation(k), LastTimer(s.log, k), LastTimer(s'.log, k));
  }

  lemma ResetTurn(d: Deployment, s: State, i: Input, kind: Kind)
    requires s.batch != [] && kind.Trigger? && Delivered(d, s.batch[0]) == Some(kind)
    requires !s.batch[0].port.TriggerRelease? && s.batch[0].event.writable
    requires kind.resetValue == Some(s.batch[0].event.value)
    ensures var s', own := Turn(d, s, i), s.batch[0].to;
      && s'.batch == s.batch[1..] + s.queue + [] && s'.delayed == s.delayed && s'.queue == []
      && s'.log == s.log + [Reset(own)] && s'.generations == s.generations[own := s.Generation(own) + 1]
  {
    hide Delivered;
  }

  lemma StartKeeps(d: Deployment, s: State, i: Input, kind: Kind)
    requires TimersOk(s) && s.batch != [] && kind.Trigger? && Delivered(d, s.batch[0]) == Some(kind)
    requires !s.batch[0].port.TriggerRelease? && s.batch[0].event.writable
    requires kind.resetValue != Some(s.batch[0].event.value)
    requires kind.extend || s.Generation(s.batch[0].to) == 0
    ensures TimersOk(Turn(d, s, i))
  {
    var q, s' := s.batch[0], Turn(d, s, i);
    var own, g := q.to, s.Generation(q.to);
    var sent := if kind.sendInitial then Along(q, Edges(d, own), Configured(kind.initial, q.event.key)) else [];
    var timer := Queued(own, q.event, q.hops + 1, TriggerRelease(g + 1), q.epoch, Some(s.starts));
    var t := Timed(i.now + DurationOf(kind), timer);
    AlongIsUnstamped(q, Edges(d, own), Configured(kind.initial, q.event.key));
    StartTurn(d, s, i, kind);
    hide Turn, Along, Delivered, Edges, ReplaceTimer;
    forall k ensures NodeOk(s', k) {
      hide *;
      StartedNode(d, s, s', sent, t, k);
    }
    OnlyLiveFiresMore(s.log, [Started(own, s.starts)]);
  }

  lemma StartedNode(d: Deployment, s: State, s': State, sent: seq<Queued>, t: Timed, k: Key)
    requires s.batch != [] && TimersOk(s) && s.batch[0].to == t.item.to && !s.batch[0].port.TriggerRelease?
    requires t.item.stamp.Some?
    requires s'.batch == s.batch[1..] + s.queue + sent && s'.queue == [] && Unstamped(sent)
    requires s'.delayed == ReplaceTimer(d, s.delayed, t) && t.item.port == TriggerRelease(s.Generation(t.item.to) + 1)
    requires s'.generations == s.generations[t.item.to := s.Generation(t.item.to) + 1]
    requires s'.log == s.log + [Started(t.item.to, t.item.stamp.value)]
    ensures NodeOk(s', k)
  {
    hide NodeOk, ReplaceTimer, Unstamped;
    assert NodeOk(s, k) && NodeOk(s, t.item.to);
    LastTimerOne(s.log, Started(t.item.to, t.item.stamp.value), k);
    ReplaceReleases(d, s.delayed, t, k);
    if k == t.item.to { StartKeepsNode(s, s', sent, t.item); } else { QuietNodeKeeps(s, s', sent, k); }
  }

  lemma StartKeepsNode(s: State, s': State, sent: seq<Queued>, timer: Queued)
    requires timer.stamp.Some?
    requires s.batch != [] && NodeOk(s, timer.to) && !IsOwnRelease(s.batch[0], timer.to)
    requires s'.batch == s.batch[1..] + s.queue + sent && s'.queue == [] && Unstamped(sent)
    requires timer.port == TriggerRelease(s.Generation(timer.to) + 1)
    requires Releases(timer.to, Items(s'.delayed)) == [] || Releases(timer.to, Items(s'.delayed)) == [timer]
    requires s'.Generation(timer.to) == s.Generation(timer.to) + 1
    requires LastTimer(s'.log, timer.to) == Some(Started(timer.to, timer.stamp.value))
    ensures NodeOk(s', timer.to)
  {
    hide Releases, InOrder, Pending, Items;
    StartOrder(s, s', sent, timer);
  }

  lemma StartTurn(d: Deployment, s: State, i: Input, kind: Kind)
    requires s.batch != [] && kind.Trigger? && Delivered(d, s.batch[0]) == Some(kind)
    requires !s.batch[0].port.TriggerRelease? && s.batch[0].event.writable
    requires kind.resetValue != Some(s.batch[0].event.value)
    requires kind.extend || s.Generation(s.batch[0].to) == 0
    ensures var q, s' := s.batch[0], Turn(d, s, i);
      var own, g := q.to, s.Generation(q.to);
      var timer := Queued(own, q.event, q.hops + 1, TriggerRelease(g + 1), q.epoch, Some(s.starts));
      && s'.batch == s.batch[1..] + s.queue
           + (if kind.sendInitial then Along(q, Edges(d, own), Configured(kind.initial, q.event.key)) else [])
      && s'.queue == []
      && s'.delayed == ReplaceTimer(d, s.delayed, Timed(i.now + DurationOf(kind), timer))
      && s'.log == s.log + [Started(own, s.starts)] && s'.generations == s.generations[own := g + 1]
  {
    hide Delivered, Along, ReplaceTimer, Edges;
    assert s.queue + [] == s.queue;
  }

  lemma ReplaceReleases(d: Deployment, delayed: seq<Timed>, t: Timed, k: Key)
    requires IsOwnRelease(t.item, t.item.to)
    ensures k != t.item.to ==> Releases(k, Items(ReplaceTimer(d, delayed, t))) == Releases(k, Items(delayed))
    ensures k == t.item.to ==>
      || Releases(k, Items(ReplaceTimer(d, delayed, t))) == []
      || Releases(k, Items(ReplaceTimer(d, delayed, t))) == [t.item]
  {
    WithoutTimerReleases(k, delayed, t.item.to);
    var rest := WithoutTimer(delayed, t.item.to);
    if k == t.item.to { InsertOnly(k, rest, t); } else { InsertReleases(k, rest, t); }
  }

  lemma StartOrder(s: State, s': State, sent: seq<Queued>, timer: Queued)
    requires s.batch != [] && s'.batch == s.batch[1..] + s.queue + sent && s'.queue == [] && Unstamped(sent)
    requires timer.port == TriggerRelease(s.Generation(timer.to) + 1) && timer.stamp.Some?
    requires InOrder(timer.to, Releases(timer.to, Pending(s)), s.Generation(timer.to), LastTimer(s.log, timer.to))
    requires !IsOwnRelease(s.batch[0], timer.to)
    requires Releases(timer.to, Items(s'.delayed)) == [] || Releases(timer.to, Items(s'.delayed)) == [timer]
    ensures InOrder(timer.to, Releases(timer.to, Pending(s')), s.Generation(timer.to) + 1,
                    Some(Started(timer.to, timer.stamp.value)))
  {
    var k := timer.to;
    BatchLeaves(s, s', sent, k);
    PendingReleases(s, k);
    PendingReleases(s', k);
    assert Releases(k, s.batch) == [] + Releases(k, s.batch[1..]);
    hide Releases, InOrder, Pending;
    StartOut(k, Releases(k, s.batch[1..]), Releases(k, s.queue), Releases(k, Items(s.delayed)),
      Releases(k, Items(s'.delayed)), s.Generation(k), LastTimer(s.log, k), timer);
  }

  lemma StartOut(k: Key, a: seq<Queued>, b: seq<Queued>, c: seq<Queued>, c2: seq<Queued>, generation: nat,
                 live: Option<Record>, timer: Queued)
    requires InOrder(k, ([] + a) + b + c, generation, live) && (c2 == [] || c2 == [timer])
    requires IsOwnRelease(timer, k) && timer.port.generation == generation + 1
    ensures InOrder(k, (a + b) + [] + c2, generation + 1, Some(Started(k, timer.stamp.value)))
  {
    hide InOrder;
    assert ([] + a) + b + c == (a + b) + c && (a + b) + [] == a + b;
    InOrderPrefix(k, a + b, c, generation, live);
    if c2 == [] {
      InOrderRaised(k, a + b, generation, live, Some(Started(k, timer.stamp.value)));
      assert (a + b) + [] + c2 == a + b;
    } else {
      InOrderAppend(k, a + b, generation, live, timer);
    }
  }

  lemma InOrderNow(s: State, k: Key)
    requires TimersOk(s)
    ensures InOrder(k, Releases(k, Pending(s)), s.Generation(k), LastTimer(s.log, k))
  {
    assert NodeOk(s, k);
  }

  lemma NothingAtZero(k: Key, out: seq<Queued>, live: Option<Record>)
    ensures InOrder(k, out, 0, live) ==> out == []
  {
    if out != [] { assert out[0] in out; }
  }
}
