/** Hops: in a deployment of accepted flows no event exceeds twice the number of nodes, less one, and the
    worker's inner loop ends on every batch, although events spawn events.
 */
module FlowHops {
  import opened FlowEngine
  import Rates = FlowRates
  import Timers = FlowTimers
  import Graph = FlowGraph

  // ---------------------------------------------------------------- what one turn spawns

  /** An event sent along an edge of the node that processed q. */
  ghost predicate Child(d: Deployment, q: Queued, x: Queued) {
    && Delivered(d, q).Some? && x.hops == q.hops + 1 && x.stamp.None? && x.epoch == q.epoch
    && exists e :: e in Edges(d, q.to) && x.to == Key(q.to.flow, e.to) && x.port == e.toPort
  }

  /** An event the engine delivers to its own port of the node. */
  predicate IsOwnTimer(d: Deployment, x: Queued) {
    var kind := KindAt(d, x.to);
    kind.Some? && ((kind.value.RateLimit? && x.port.RateRelease?) || (kind.value.Trigger? && x.port.TriggerRelease?))
  }

  /** The timer a node sets for itself on an event that is none of its timers. */
  ghost predicate OwnTimer(d: Deployment, q: Queued, x: Queued) {
    && Delivered(d, q).Some? && !IsOwnTimer(d, q) && IsOwnTimer(d, x) && x.to == q.to && x.hops == q.hops + 1
    && x.stamp.Some? && x.epoch == q.epoch
  }

  ghost predicate Spawned(d: Deployment, q: Queued, x: Queued) { Child(d, q, x) || OwnTimer(d, q, x) }

  ghost predicate Children(d: Deployment, q: Queued, xs: seq<Queued>) { forall x | x in xs :: Child(d, q, x) }

  ghost predicate Within(edges: seq<FlowEdge>, all: seq<FlowEdge>) { forall e | e in edges :: e in all }

  lemma {:induction false} AlongChildren(d: Deployment, q: Queued, edges: seq<FlowEdge>, event: Event)
    requires Delivered(d, q).Some? && Within(edges, Edges(d, q.to))
    ensures Children(d, q, Along(q, edges, event))
  {
    hide Delivered, Edges;
    if edges != [] {
      assert edges[0] in edges;
      AlongChildren(d, q, edges[1..], event);
    }
  }

  lemma {:induction false} AlongAllChildren(d: Deployment, q: Queued, edges: seq<FlowEdge>, parts: seq<Part>)
    requires Delivered(d, q).Some? && Within(edges, Edges(d, q.to))
    ensures Children(d, q, AlongAll(q, edges, parts))
  {
    hide Delivered, Edges, Child, Along;
    if parts != [] {
      AlongChildren(d, q, edges, PartEvent(parts[0]));
      AlongAllChildren(d, q, edges, parts[1..]);
    }
  }

  lemma {:induction false} AlongPortsChildren(d: Deployment, q: Queued, edges: seq<FlowEdge>, ports: seq<string>)
    requires Delivered(d, q).Some? && Within(edges, Edges(d, q.to))
    ensures Children(d, q, AlongPorts(q, edges, ports))
  {
    hide Delivered, Edges, Child, Along;
    if ports != [] {
      Timers.FromPortAreEdges(edges, ports[0]);
      AlongChildren(d, q, FromPort(edges, ports[0]), q.event);
      AlongPortsChildren(d, q, edges, ports[1..]);
    }
  }

  lemma OutputChildren(d: Deployment, q: Queued, kind: Kind, i: Input)
    requires Delivered(d, q).Some?
    ensures Children(d, q, Output(kind, q, Edges(d, q.to), i))
  {
    var edges := Edges(d, q.to);
    hide Delivered, Edges, Child, Along, AlongAll, AlongPorts, Selected;
    match kind
    case Pass => AlongChildren(d, q, edges, q.event);
    case Convert(apply) =>
      var value := if q.event.writable then apply(q.event.value) else None;
      if value.Some? { AlongChildren(d, q, edges, q.event.(value := value.value)); }
    case Labelled(clearsKey) =>
      if i.relay.Some? {
        AlongChildren(d, q, edges, Event(i.relay.value, if clearsKey then "" else q.event.key, true));
      }
    case Split => AlongAllChildren(d, q, edges, i.parts);
    case Switch(rules, checkAll, otherwise) =>
      AlongPortsChildren(d, q, edges, Selected(rules, checkAll, otherwise, q.event.key));
    case _ =>
  }

  lemma {:induction false} InsertHas(delayed: seq<Timed>, t: Timed)
    ensures forall x | x in Items(Insert(delayed, t)) :: x in Items(delayed) || x == t.item
  {
    if delayed == [] || t.due < delayed[0].due {
      assert ([t] + delayed)[1..] == delayed;
    } else {
      InsertHas(delayed[1..], t);
      var rest := Insert(delayed[1..], t);
      assert ([delayed[0]] + rest)[1..] == rest;
    }
  }

  lemma {:induction false} WithoutTimerHas(delayed: seq<Timed>, k: Key)
    ensures forall x | x in Items(WithoutTimer(delayed, k)) :: x in Items(delayed)
    decreases delayed
  {
    if delayed != [] {
      WithoutTimerHas(delayed[1..], k);
      var rest := WithoutTimer(delayed[1..], k);
      assert ([delayed[0]] + rest)[1..] == rest;
    }
  }

  lemma {:induction false} DelayAllHas(d: Deployment, delayed: seq<Timed>, items: seq<Queued>, due: int)
    ensures forall x | x in Items(DelayAll(d, delayed, items, due)) :: x in Items(delayed) || x in items
    decreases items
  {
    if items != [] {
      var t := Timed(due, items[0]);
      var r := EnqueueDelayed(d, delayed, t);
      if r.Some? {
        InsertHas(delayed, t);
        DelayAllHas(d, r.value, items[1..], due);
      }
    }
  }

  lemma ReplaceHas(d: Deployment, delayed: seq<Timed>, t: Timed)
    ensures forall x | x in Items(ReplaceTimer(d, delayed, t)) :: x in Items(delayed) || x == t.item
  {
    WithoutTimerHas(delayed, t.item.to);
    InsertHas(WithoutTimer(delayed, t.item.to), t);
  }

  /** What processing q adds to the queue, and to the delayed queue. */
  ghost predicate Adds(d: Deployment, s: State, p: State, q: Queued, sent: seq<Queued>) {
    && p.queue == s.queue + sent && Children(d, q, sent)
    && forall x | x in Items(p.delayed) :: x in Items(s.delayed) || Spawned(d, q, x)
  }

  lemma ProcessAdds(d: Deployment, s: State, q: Queued, i: Input) returns (sent: seq<Queued>)
    ensures Adds(d, s, Process(d, s, q, i), q, sent)
    ensures q.hops > d.maxHops ==> sent == []
  {
    assert s.queue + [] == s.queue;
    sent := [];
    var kind, edges := Delivered(d, q), Edges(d, q.to);
    hide Delivered, Edges, Items, Output, Along;
    if kind.Some? {
      match kind.value
      case DelayEach(delay) =>
        AlongChildren(d, q, edges, q.event);
        DelayAllHas(d, s.delayed, Along(q, edges, q.event), i.now + delay);
      case RateLimit(delay) =>
        sent := RateAdds(d, s, q, i, delay);
      case Trigger(_, _, _, _, _, _, _) =>
        sent := TriggerAdds(d, s, q, i, kind.value);
      case _ =>
        OutputChildren(d, q, kind.value, i);
        sent := Output(kind.value, q, edges, i);
    }
    DroppedOverLimit(d, q);
  }

  lemma DroppedOverLimit(d: Deployment, q: Queued)
    ensures q.hops > d.maxHops ==> Delivered(d, q).None?
  {
  }

  lemma DeliveredKind(d: Deployment, q: Queued)
    ensures Delivered(d, q).Some? ==> KindAt(d, q.to) == Delivered(d, q)
  {
  }

  lemma RateAdds(d: Deployment, s: State, q: Queued, i: Input, delay: nat) returns (sent: seq<Queued>)
    requires Delivered(d, q) == Some(RateLimit(delay))
    ensures Adds(d, s, Process(d, s, q, i), q, sent)
  {
    var rate, edges := s.RateOf(q.to), Edges(d, q.to);
    DeliveredKind(d, q);
    AlongChildren(d, q, edges, rate.latest);
    AlongChildren(d, q, edges, q.event);
    assert s.queue + [] == s.queue;
    hide Delivered, Edges, Items, Along, Insert, KindAt;
    if q.port.RateRelease? {
      sent := Along(q, edges, rate.latest);
    } else if q.event.writable && !rate.scheduled && i.now >= rate.nextAllowed {
      sent := Along(q, edges, q.event);
    } else {
      sent := [];
      var release := Queued(q.to, q.event, q.hops + 1, RateRelease, q.epoch, Some(0));
      InsertHas(s.delayed, Timed(rate.nextAllowed, release));
      assert OwnTimer(d, q, release);
    }
  }

  lemma TriggerAdds(d: Deployment, s: State, q: Queued, i: Input, kind: Kind) returns (sent: seq<Queued>)
    requires kind.Trigger? && Delivered(d, q) == Some(kind)
    ensures Adds(d, s, Process(d, s, q, i), q, sent)
  {
    var edges, t := Edges(d, q.to), Rates.TimerOf(s, q, i.now, kind);
    sent := Rates.TriggerSent(s, q, edges, kind);
    DeliveredKind(d, q);
    AlongChildren(d, q, edges, Configured(kind.delayed, q.event.key));
    AlongChildren(d, q, edges, Configured(kind.initial, q.event.key));
    ReplaceHas(d, s.delayed, t);
    Rates.TriggerProcess(d, s, q, i, kind);
    hide Delivered, Process, Edges, Items, Along, ReplaceTimer, KindAt;
    assert !q.port.TriggerRelease? ==> OwnTimer(d, q, t.item);
  }

  // ---------------------------------------------------------------- the bound

  function GraphEdges(edges: seq<FlowEdge>): seq<Graph.Edge> {
    if edges == [] then [] else [Graph.Edge(edges[0].from, edges[0].to)] + GraphEdges(edges[1..])
  }

  /** Every flow passed validation, which found these orders. */
  ghost predicate AcceptedFlows(d: Deployment, orders: map<string, seq<string>>) {
    forall f | f in d.flows ::
      f in orders && Graph.Topological(d.flows[f].nodes.Keys, GraphEdges(d.flows[f].edges), orders[f])
  }

  function IndexOf(order: seq<string>, x: string): nat {
    if order == [] || order[0] == x then 0 else 1 + IndexOf(order[1..], x)
  }

  lemma {:induction false} IndexIs(order: seq<string>, i: nat)
    requires Graph.Distinct(order) && i < |order|
    ensures IndexOf(order, order[i]) == i
  {
    if i > 0 {
      assert Graph.Distinct(order[1..]);
      assert order[1..][i - 1] == order[i];
      IndexIs(order[1..], i - 1);
    }
  }

  function Rank(orders: map<string, seq<string>>, k: Key): nat {
    if k.flow in orders then IndexOf(orders[k.flow], k.node) else 0
  }

  function Size(d: Deployment, f: string): nat { if f in d.flows then |d.flows[f].nodes| else 0 }

  /** Two hops per position before the node, and one more for a timer of its own. */
  ghost predicate Bounded(d: Deployment, orders: map<string, seq<string>>, q: Queued) {
    q.hops == 0 || (KindAt(d, q.to).Some? && q.hops <= 2 * Rank(orders, q.to) + (if IsOwnTimer(d, q) then 1 else 0))
  }

  ghost predicate AllBounded(d: Deployment, orders: map<string, seq<string>>, xs: seq<Queued>) {
    forall q | q in xs :: Bounded(d, orders, q)
  }

  lemma {:induction false} EdgeInGraph(edges: seq<FlowEdge>, e: FlowEdge)
    requires e in edges
    ensures Graph.Edge(e.from, e.to) in GraphEdges(edges)
  {
    if e != edges[0] { EdgeInGraph(edges[1..], e); }
  }

  lemma EdgesGoUp(d: Deployment, orders: map<string, seq<string>>, k: Key, e: FlowEdge)
    requires AcceptedFlows(d, orders) && e in Edges(d, k)
    ensures KindAt(d, Key(k.flow, e.to)).Some? && Rank(orders, k) < Rank(orders, Key(k.flow, e.to))
  {
    var f := d.flows[k.flow];
    var order := orders[k.flow];
    Timers.OutgoingAreEdges(f.edges, k.node);
    EdgeInGraph(f.edges, e);
    var i, j :| 0 <= i < j < |order| && order[i] == e.from && order[j] == e.to;
    IndexIs(order, i);
    IndexIs(order, j);
    assert e.to in Graph.Elements(order);
  }

  lemma SpawnedBounded(d: Deployment, orders: map<string, seq<string>>, q: Queued, x: Queued)
    requires AcceptedFlows(d, orders) && Bounded(d, orders, q) && Spawned(d, q, x)
    ensures Bounded(d, orders, x)
  {
    DeliveredKind(d, q);
    hide AcceptedFlows, Edges, Delivered, Rank, KindAt;
    if Child(d, q, x) {
      var e :| e in Edges(d, q.to) && x.to == Key(q.to.flow, e.to);
      EdgesGoUp(d, orders, q.to, e);
    }
  }

  lemma TurnBounded(d: Deployment, orders: map<string, seq<string>>, s: State, i: Input)
    requires AcceptedFlows(d, orders) && AllBounded(d, orders, Timers.Pending(s)) && s.batch != []
    ensures AllBounded(d, orders, Timers.Pending(Turn(d, s, i)))
  {
    var q, s' := s.batch[0], Turn(d, s, i);
    var sent := ProcessAdds(d, s, q, i);
    assert q in Timers.Pending(s);
    hide Process, AcceptedFlows, Bounded, Items, Spawned, Child;
    forall x | x in Timers.Pending(s') ensures Bounded(d, orders, x) {
      if x in s.batch[1..] || x in s.queue || x in Items(s.delayed) {
        assert x in Timers.Pending(s);
      } else {
        SpawnedIs(d, q, x);
        assert Spawned(d, q, x);
        SpawnedBounded(d, orders, q, x);
      }
    }
  }

  lemma SpawnedIs(d: Deployment, q: Queued, x: Queued)
    ensures Child(d, q, x) ==> Spawned(d, q, x)
  {
  }

  lemma PullBounded(d: Deployment, orders: map<string, seq<string>>, s: State, now: int)
    requires AllBounded(d, orders, Timers.Pending(s)) && s.batch == []
    ensures AllBounded(d, orders, Timers.Pending(Pull(s, now)))
  {
    Timers.PullPending(s, now);
  }

  lemma ArriveBounded(d: Deployment, orders: map<string, seq<string>>, s: State, q: Queued)
    requires AllBounded(d, orders, Timers.Pending(s)) && IsInput(q)
    ensures AllBounded(d, orders, Timers.Pending(Arrive(s, q)))
  {
    hide Items;
    forall x | x in Timers.Pending(Arrive(s, q)) ensures Bounded(d, orders, x) {
      assert x == q || x in Timers.Pending(s);
    }
  }

  lemma {:induction false} RunsAreBounded(d: Deployment, orders: map<string, seq<string>>, run: seq<Action>, s: State)
    requires AcceptedFlows(d, orders) && Reaches(d, run, s)
    ensures AllBounded(d, orders, Timers.Pending(s))
    decreases |run|
  {
    if run != [] {
      var n := |run| - 1;
      var before :| Reaches(d, run[..n], before) && Enabled(before, run[n]) && s == Act(d, before, run[n]);
      RunsAreBounded(d, orders, run[..n], before);
      hide Turn, Pull, Arrive, AllBounded, AcceptedFlows, Reaches;
      match run[n]
      case Arrival(q) => ArriveBounded(d, orders, before, q);
      case Pulling(now) => PullBounded(d, orders, before, now);
      case Turning(i) => TurnBounded(d, orders, before, i);
    }
  }

  lemma RankBelowSize(d: Deployment, orders: map<string, seq<string>>, k: Key)
    requires AcceptedFlows(d, orders) && KindAt(d, k).Some?
    ensures Rank(orders, k) < Size(d, k.flow)
  {
    var order := orders[k.flow];
    Graph.ElementsSize(order);
    assert k.node in Graph.Elements(order);
    var i :| 0 <= i < |order| && order[i] == k.node;
    IndexIs(order, i);
    assert |order| == |d.flows[k.flow].nodes.Keys|;
  }

  /** In every reachable state of accepted flows an event has made at most 2n - 1 hops, n the number of nodes
      of its flow. */
  lemma HopsAreBounded(d: Deployment, orders: map<string, seq<string>>, run: seq<Action>, s: State, q: Queued)
    requires AcceptedFlows(d, orders) && Reaches(d, run, s) && q in Timers.Pending(s)
    ensures q.hops == 0 || q.hops <= 2 * Size(d, q.to.flow) - 1
  {
    RunsAreBounded(d, orders, run, s);
    hide AcceptedFlows, Reaches, Rank, Size;
    assert Bounded(d, orders, q);
    if q.hops > 0 { RankBelowSize(d, orders, q.to); }
  }

  /** So when 2n - 1 is within the limit for every flow, no event is ever dropped for its hops. */
  lemma LimitNeverHit(d: Deployment, orders: map<string, seq<string>>, run: seq<Action>, s: State)
    requires AcceptedFlows(d, orders) && Reaches(d, run, s)
    requires forall f | f in d.flows :: 2 * |d.flows[f].nodes| - 1 <= d.maxHops
    ensures forall q | q in Timers.Pending(s) :: q.hops <= d.maxHops
  {
    forall q | q in Timers.Pending(s) ensures q.hops <= d.maxHops { HopsAreBounded(d, orders, run, s, q); }
  }

  // ---------------------------------------------------------------- the inner loop ends

  /** n turns without arrivals, fed by `inputs` from `from` on; an empty batch stays. */
  function Turns(d: Deployment, s: State, inputs: nat -> Input, from: nat, n: nat): State
    decreases n
  {
    if n == 0 || s.batch == [] then s else Turns(d, Turn(d, s, inputs(from)), inputs, from + 1, n - 1)
  }

  /** How many events of the batch have made exactly `level` hops. */
  function AtLevel(xs: seq<Queued>, level: nat): nat {
    if xs == [] then 0 else (if xs[0].hops == level then 1 else 0) + AtLevel(xs[1..], level)
  }

  /** The position of the first of them. */
  function FirstAt(xs: seq<Queued>, level: nat): nat {
    if xs == [] || xs[0].hops == level then 0 else 1 + FirstAt(xs[1..], level)
  }

  lemma {:induction false} AtLevelBoth(xs: seq<Queued>, ys: seq<Queued>, level: nat)
    ensures AtLevel(xs + ys, level) == AtLevel(xs, level) + AtLevel(ys, level)
  {
    if xs == [] {
      assert xs + ys == ys;
    } else {
      assert (xs + ys)[1..] == xs[1..] + ys;
      AtLevelBoth(xs[1..], ys, level);
    }
  }

  lemma {:induction false} NoneAtLevel(xs: seq<Queued>, level: nat)
    requires forall x | x in xs :: x.hops > level
    ensures AtLevel(xs, level) == 0
  {
    if xs != [] { NoneAtLevel(xs[1..], level); }
  }

  lemma {:induction false} NoneLeft(xs: seq<Queued>, level: nat)
    requires AtLevel(xs, level) == 0
    ensures forall x | x in xs :: x.hops != level
  {
    if xs != [] { NoneLeft(xs[1..], level); }
  }

  lemma {:induction false} FirstAtAppend(xs: seq<Queued>, ys: seq<Queued>, level: nat)
    requires AtLevel(xs, level) > 0
    ensures FirstAt(xs + ys, level) == FirstAt(xs, level)
  {
    assert (xs + ys)[0] == xs[0] && (xs + ys)[1..] == xs[1..] + ys;
    if xs[0].hops != level { FirstAtAppend(xs[1..], ys, level); }
  }

  /** One turn of a batch whose events have made at least `level` hops. */
  lemma TurnDescends(d: Deployment, s: State, i: Input, level: nat)
    requires s.batch != [] && s.queue == [] && forall q | q in s.batch :: q.hops >= level
    ensures var s' := Turn(d, s, i); s'.queue == [] && forall q | q in s'.batch :: q.hops >= level
    ensures level > d.maxHops ==> |Turn(d, s, i).batch| < |s.batch|
    ensures s.batch[0].hops == level ==> AtLevel(Turn(d, s, i).batch, level) == AtLevel(s.batch, level) - 1
    ensures s.batch[0].hops > level && AtLevel(s.batch, level) > 0 ==>
      && AtLevel(Turn(d, s, i).batch, level) == AtLevel(s.batch, level)
      && FirstAt(Turn(d, s, i).batch, level) == FirstAt(s.batch, level) - 1
  {
    var q, rest := s.batch[0], s.batch[1..];
    var sent := ProcessAdds(d, s, q, i);
    var s' := Turn(d, s, i);
    hide Process, Items, Edges, Delivered, Spawned;
    assert q in s.batch && forall x | x in rest :: x in s.batch;
    assert s.queue + sent == sent;
    assert s'.batch == rest + sent;
    assert forall x | x in sent :: x.hops == q.hops + 1;
    AtLevelBoth(rest, sent, level);
    NoneAtLevel(sent, level);
    if AtLevel(rest, level) > 0 { FirstAtAppend(rest, sent, level); }
  }

  /** The inner loop ends, for every batch, every input and every fan-out.  The measure descends through the
      levels of hops: events of the lowest level only go, and what they spawn is one level up. */
  lemma {:induction false} InnerLoopEnds(d: Deployment, s: State, inputs: nat -> Input, from: nat, level: nat)
    returns (n: nat)
    requires s.queue == [] && level <= d.maxHops + 1 && forall q | q in s.batch :: q.hops >= level
    ensures Turns(d, s, inputs, from, n).batch == []
    decreases d.maxHops + 1 - level, if level > d.maxHops then |s.batch| else AtLevel(s.batch, level),
              FirstAt(s.batch, level)
  {
    hide Turn;
    if s.batch == [] {
      n := 0;
    } else if level <= d.maxHops && AtLevel(s.batch, level) == 0 {
      NoneLeft(s.batch, level);
      n := InnerLoopEnds(d, s, inputs, from, level + 1);
    } else {
      TurnDescends(d, s, inputs(from), level);
      assert s.batch[0] in s.batch;
      n := InnerLoopEnds(d, Turn(d, s, inputs(from)), inputs, from + 1, level);
      n := n + 1;
    }
  }
}
