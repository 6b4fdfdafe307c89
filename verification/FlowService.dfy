/** The flow service's queue methods, event processing and worker pass as the source has them: a mutable
    object whose methods are proved to compute the actions of `FlowEngine`.

    `batch` is the worker's local deque, kept in the object so that the whole state is in one place.
    `starts` and `log` are the model's bookkeeping.
 */
module FlowServiceModel {
  import opened FlowEngine
  import Timers = FlowTimers
  import Hops = FlowHops
  import Ports = FlowPorts

  // ---------------------------------------------------------------- loops over edges, as functions

  lemma {:induction false} OutgoingBoth(a: seq<FlowEdge>, b: seq<FlowEdge>, node: string)
    ensures Outgoing(a + b, node) == Outgoing(a, node) + Outgoing(b, node)
  {
    hide *;
    OutgoingHead(a, node);
    OutgoingHead(a + b, node);
    if a == [] {
      assert a + b == b;
    } else {
      assert (a + b)[1..] == a[1..] + b && (a + b)[0] == a[0];
      OutgoingBoth(a[1..], b, node);
      Regroup(if a[0].from == node then [a[0]] else [], Outgoing(a[1..], node), Outgoing(b, node));
    }
  }

  lemma OutgoingHead(edges: seq<FlowEdge>, node: string)
    ensures Outgoing(edges, node) ==
      if edges == [] then [] else (if edges[0].from == node then [edges[0]] else []) + Outgoing(edges[1..], node)
  {
  }

  lemma InsertFrom(xs: seq<Timed>, k: nat, t: Timed)
    requires k <= |xs| && Insert(xs, t) == xs[..k] + Insert(xs[k..], t)
    ensures k < |xs| && xs[k].due <= t.due ==> Insert(xs, t) == xs[..k + 1] + Insert(xs[k + 1..], t)
    ensures k == |xs| || xs[k].due > t.due ==> Insert(xs, t) == xs[..k] + [t] + xs[k..]
  {
    hide *;
    InsertHead(xs[k..], t);
    if k < |xs| && xs[k].due <= t.due {
      assert xs[k..][1..] == xs[k + 1..] && xs[k..][0] == xs[k];
      MoveOne(xs, k, Insert(xs[k + 1..], t));
    } else {
      assert k < |xs| ==> xs[k..][0] == xs[k];
      Regroup(xs[..k], [t], xs[k..]);
    }
  }

  lemma OneMoreDue(all: seq<Timed>, n: nat, now: int)
    requires n < |all| && all[n].due <= now
    ensures DueCount(all[n..], now) == 1 + DueCount(all[n + 1..], now) && all[n..][1..] == all[n + 1..]
    ensures Items(all[..n + 1]) == Items(all[..n]) + [all[n].item]
  {
    assert all[..n + 1] == all[..n] + [all[n]] && all[n..][1..] == all[n + 1..];
    Timers.ItemsBoth(all[..n], [all[n]]);
    assert Items([all[n]]) == [all[n].item];
  }

  lemma NoneDue(delayed: seq<Timed>, now: int)
    ensures delayed == [] || delayed[0].due > now ==> DueCount(delayed, now) == 0
  {
  }

  lemma NoItems(all: seq<Timed>)
    ensures all[..0] == [] && Items([]) == []
  {
  }

  lemma MoveOne<T>(xs: seq<T>, k: nat, rest: seq<T>)
    requires k < |xs|
    ensures xs[..k] + ([xs[k]] + rest) == xs[..k + 1] + rest
  {
  }

  lemma Regroup<T>(a: seq<T>, b: seq<T>, c: seq<T>)
    ensures a + (b + c) == a + b + c
  {
  }

  lemma InsertHead(xs: seq<Timed>, t: Timed)
    ensures Insert(xs, t) == if xs != [] && xs[0].due <= t.due then [xs[0]] + Insert(xs[1..], t) else [t] + xs
  {
  }

  lemma {:induction false} FromPortBoth(a: seq<FlowEdge>, b: seq<FlowEdge>, port: string)
    ensures FromPort(a + b, port) == FromPort(a, port) + FromPort(b, port)
  {
    hide *;
    FromPortHead(a, port);
    FromPortHead(a + b, port);
    if a == [] {
      assert a + b == b;
    } else {
      assert (a + b)[1..] == a[1..] + b && (a + b)[0] == a[0];
      FromPortBoth(a[1..], b, port);
      Regroup(if a[0].OutPort() == port then [a[0]] else [], FromPort(a[1..], port), FromPort(b, port));
    }
  }

  lemma FromPortHead(edges: seq<FlowEdge>, port: string)
    ensures FromPort(edges, port) ==
      if edges == [] then [] else (if edges[0].OutPort() == port then [edges[0]] else []) + FromPort(edges[1..], port)
  {
  }

  lemma {:induction false} AlongAllBoth(q: Queued, edges: seq<FlowEdge>, a: seq<Part>, b: seq<Part>)
    ensures AlongAll(q, edges, a + b) == AlongAll(q, edges, a) + AlongAll(q, edges, b)
  {
    if a == [] {
      assert a + b == b;
    } else {
      assert (a + b)[1..] == a[1..] + b;
      AlongAllBoth(q, edges, a[1..], b);
    }
  }

  lemma {:induction false} AlongPortsBoth(q: Queued, edges: seq<FlowEdge>, a: seq<string>, b: seq<string>)
    ensures AlongPorts(q, edges, a + b) == AlongPorts(q, edges, a) + AlongPorts(q, edges, b)
  {
    if a == [] {
      assert a + b == b;
    } else {
      assert (a + b)[1..] == a[1..] + b;
      AlongPortsBoth(q, edges, a[1..], b);
    }
  }

  lemma OnePortMore(q: Queued, edges: seq<FlowEdge>, ports: seq<string>, port: string)
    ensures AlongPorts(q, edges, ports + [port]) ==
      AlongPorts(q, edges, ports) + Along(q, FromPort(edges, port), q.event)
  {
    AlongPortsBoth(q, edges, ports, [port]);
    assert AlongPorts(q, edges, [port]) == Along(q, FromPort(edges, port), q.event);
  }

  lemma OneRuleMore(rules: seq<string>, index: nat, checkAll: bool, key: string)
    requires index < |rules|
    ensures Matches(rules[index..], index, checkAll, key) ==
      (if rules[index] == key then [RulePort(index)] else [])
      + (if rules[index] == key && !checkAll then [] else Matches(rules[index + 1..], index + 1, checkAll, key))
  {
    assert rules[index..][1..] == rules[index + 1..] && rules[index..][0] == rules[index];
  }

  lemma NoRulesLeft(rules: seq<string>, checkAll: bool, key: string)
    ensures rules[0..] == rules && Matches(rules[|rules|..], |rules|, checkAll, key) == []
  {
  }

  lemma SelectedIs(rules: seq<string>, checkAll: bool, otherwise: bool, key: string)
    ensures
      var matches := Matches(rules, 0, checkAll, key);
      Selected(rules, checkAll, otherwise, key) == matches + (if matches == [] && otherwise then ["otherwise"] else [])
  {
  }

  lemma OnePartMore(q: Queued, edges: seq<FlowEdge>, parts: seq<Part>, k: nat)
    requires k < |parts|
    ensures AlongAll(q, edges, parts[..k + 1]) == AlongAll(q, edges, parts[..k]) + Along(q, edges, PartEvent(parts[k]))
  {
    assert parts[..k + 1] == parts[..k] + [parts[k]];
    AlongAllBoth(q, edges, parts[..k], [parts[k]]);
    assert AlongAll(q, edges, [parts[k]]) == Along(q, edges, PartEvent(parts[k]));
  }

  lemma NothingAlong(q: Queued, edges: seq<FlowEdge>)
    ensures AlongAll(q, edges, []) == [] && AlongPorts(q, edges, []) == []
  {
  }

  lemma OneMoreEdge(q: Queued, edges: seq<FlowEdge>, k: nat, event: Event)
    requires k < |edges|
    ensures var node := q.to.node;
      Along(q, Outgoing(edges[..k + 1], node), event)
      == Along(q, Outgoing(edges[..k], node), event)
        + (if edges[k].from == node then [Message(q, edges[k], event)] else [])
  {
    var node := q.to.node;
    assert edges[..k + 1] == edges[..k] + [edges[k]];
    OutgoingBoth(edges[..k], [edges[k]], node);
    Ports.AlongBoth(q, Outgoing(edges[..k], node), Outgoing([edges[k]], node), event);
  }

  lemma OneMorePortEdge(q: Queued, edges: seq<FlowEdge>, k: nat, port: string)
    requires k < |edges|
    ensures var node := q.to.node;
      Along(q, FromPort(Outgoing(edges[..k + 1], node), port), q.event)
      == Along(q, FromPort(Outgoing(edges[..k], node), port), q.event)
         + (if edges[k].from == node && edges[k].OutPort() == port then [Message(q, edges[k], q.event)] else [])
  {
    var node := q.to.node;
    assert edges[..k + 1] == edges[..k] + [edges[k]];
    OutgoingBoth(edges[..k], [edges[k]], node);
    FromPortBoth(Outgoing(edges[..k], node), Outgoing([edges[k]], node), port);
    Ports.AlongBoth(q, FromPort(Outgoing(edges[..k], node), port), FromPort(Outgoing([edges[k]], node), port), q.event);
  }

  lemma {:induction false} DelayRest(d: Deployment, delayed: seq<Timed>, q: Queued, edges: seq<FlowEdge>, k: nat,
      due: int)
    requires k < |edges|
    ensures var rest := Along(q, Outgoing(edges[k..], q.to.node), q.event);
      var tail := Along(q, Outgoing(edges[k + 1..], q.to.node), q.event);
      if edges[k].from != q.to.node then rest == tail
      else
        rest == [Message(q, edges[k], q.event)] + tail
        && DelayAll(d, delayed, rest, due) ==
             if |delayed| >= d.limit then delayed
             else DelayAll(d, Insert(delayed, Timed(due, Message(q, edges[k], q.event))), tail, due)
  {
    var outgoing := Outgoing(edges[k + 1..], q.to.node);
    var tail := Along(q, outgoing, q.event);
    assert edges[k..][0] == edges[k] && edges[k..][1..] == edges[k + 1..];
    assert Outgoing(edges[k..], q.to.node) == (if edges[k].from == q.to.node then [edges[k]] else []) + outgoing;
    if edges[k].from == q.to.node {
      assert ([edges[k]] + outgoing)[1..] == outgoing;
      assert ([Message(q, edges[k], q.event)] + tail)[1..] == tail;
    } else {
      assert [] + outgoing == outgoing;
    }
  }

  // ---------------------------------------------------------------- the object

  class FlowService {
    const deployment: Deployment
    var batch: seq<Queued>
    var queue: seq<Queued>
    var delayed: seq<Timed>
    var generations: map<Key, nat>
    var rates: map<Key, Rate>
    var clock: int
    var starts: nat
    var log: seq<Record>

    function Now(): State
      reads this
    {
      State(batch, queue, delayed, generations, rates, clock, starts, log)
    }

    constructor (deployment: Deployment)
      ensures this.deployment == deployment && Now() == EMPTY
    {
      this.deployment := deployment;
      batch, queue, delayed, generations, rates, clock, starts, log := [], [], [], map[], map[], 0, 0, [];
    }

    method Enqueue(item: Queued)
      modifies this`queue
      ensures queue == old(queue) + [item]
    {
      queue := queue + [item];
    }

    /** std::multimap::emplace. */
    method Emplace(t: Timed)
      modifies this`delayed
      ensures delayed == Insert(old(delayed), t)
    {
      var k: nat := 0;
      assert delayed[0..] == delayed && delayed[..0] == [] && [] + Insert(delayed, t) == Insert(delayed, t);
      hide *;
      while k < |delayed| && delayed[k].due <= t.due
        invariant k <= |delayed| && delayed == old(delayed)
        invariant Insert(delayed, t) == delayed[..k] + Insert(delayed[k..], t)
      {
        InsertFrom(delayed, k, t);
        k := k + 1;
      }
      InsertFrom(delayed, k, t);
      delayed := delayed[..k] + [t] + delayed[k..];
    }

    method EnqueueDelayed(item: Queued, due: int) returns (accepted: bool)
      modifies this`delayed
      ensures accepted == (|old(delayed)| < deployment.limit)
      ensures delayed == if accepted then Insert(old(delayed), Timed(due, item)) else old(delayed)
    {
      if |delayed| >= deployment.limit { return false; }
      Emplace(Timed(due, item));
      accepted := true;
    }

    method ReplaceTriggerTimer(item: Queued, due: int) returns (accepted: bool)
      modifies this`delayed
      ensures accepted == (|WithoutTimer(old(delayed), item.to)| < deployment.limit)
      ensures delayed == ReplaceTimer(deployment, old(delayed), Timed(due, item))
    {
      var kept: seq<Timed> := [];
      for k := 0 to |delayed|
        invariant delayed == old(delayed)
        invariant WithoutTimer(delayed, item.to) == kept + WithoutTimer(delayed[k..], item.to)
      {
        assert delayed[k..][1..] == delayed[k + 1..] && delayed[k..][0] == delayed[k];
        if !IsTriggerRelease(delayed[k].item, item.to) {
          ghost var rest := WithoutTimer(delayed[k + 1..], item.to);
          assert kept + ([delayed[k]] + rest) == (kept + [delayed[k]]) + rest;
          kept := kept + [delayed[k]];
        }
      }
      assert delayed[|delayed|..] == [] && kept + [] == kept;
      delayed := kept;
      if |delayed| >= deployment.limit { return false; }
      Emplace(Timed(due, item));
      accepted := true;
    }

    /** The source's loop over the flow's edges. */
    method SendAlong(q: Queued, edges: seq<FlowEdge>, event: Event)
      modifies this`queue
      ensures queue == old(queue) + Along(q, Outgoing(edges, q.to.node), event)
    {
      assert edges[..0] == [] && Outgoing([], q.to.node) == [] && Along(q, [], event) == [];
      for k := 0 to |edges|
        invariant queue == old(queue) + Along(q, Outgoing(edges[..k], q.to.node), event)
      {
        OneMoreEdge(q, edges, k, event);
        if edges[k].from == q.to.node { Enqueue(Message(q, edges[k], event)); }
      }
      assert edges[..|edges|] == edges;
    }

    method SendFromPort(q: Queued, edges: seq<FlowEdge>, port: string)
      modifies this`queue
      ensures queue == old(queue) + Along(q, FromPort(Outgoing(edges, q.to.node), port), q.event)
    {
      assert edges[..0] == [] && Outgoing([], q.to.node) == [] && FromPort([], port) == []
        && Along(q, [], q.event) == [];
      for k := 0 to |edges|
        invariant queue == old(queue) + Along(q, FromPort(Outgoing(edges[..k], q.to.node), port), q.event)
      {
        OneMorePortEdge(q, edges, k, port);
        if edges[k].from == q.to.node && edges[k].OutPort() == port { Enqueue(Message(q, edges[k], q.event)); }
      }
      assert edges[..|edges|] == edges;
    }

    method SplitParts(q: Queued, edges: seq<FlowEdge>, parts: seq<Part>)
      modifies this`queue
      ensures queue == old(queue) + AlongAll(q, Outgoing(edges, q.to.node), parts)
    {
      hide *;
      ghost var out := Outgoing(edges, q.to.node);
      NothingAlong(q, out);
      assert parts[..0] == [];
      for k := 0 to |parts|
        invariant queue == old(queue) + AlongAll(q, out, parts[..k])
      {
        OnePartMore(q, out, parts, k);
        Regroup(old(queue), AlongAll(q, out, parts[..k]), Along(q, out, PartEvent(parts[k])));
        SendAlong(q, edges, PartEvent(parts[k]));
      }
      assert parts[..|parts|] == parts;
    }

    /** The source's loop over the rules, left at the first match unless all are to be checked. */
    method SwitchPorts(q: Queued, edges: seq<FlowEdge>, rules: seq<string>, checkAll: bool, otherwise: bool)
      modifies this`queue
      ensures queue == old(queue)
        + AlongPorts(q, Outgoing(edges, q.to.node), Selected(rules, checkAll, otherwise, q.event.key))
    {
      hide *;
      var key, matched, index := q.event.key, false, 0;
      ghost var out := Outgoing(edges, q.to.node);
      ghost var ports: seq<string> := [];
      NothingAlong(q, out);
      NoRulesLeft(rules, checkAll, key);
      SelectedIs(rules, checkAll, otherwise, key);
      while index < |rules|
        invariant index <= |rules|
        invariant queue == old(queue) + AlongPorts(q, out, ports) && matched == (ports != [])
        invariant Matches(rules, 0, checkAll, key) == ports + Matches(rules[index..], index, checkAll, key)
      {
        OneRuleMore(rules, index, checkAll, key);
        if rules[index] == key {
          matched := true;
          OnePortMore(q, out, ports, RulePort(index));
          Regroup(old(queue), AlongPorts(q, out, ports), Along(q, FromPort(out, RulePort(index)), q.event));
          SendFromPort(q, edges, RulePort(index));
          ports := ports + [RulePort(index)];
          if !checkAll { break; }
        }
        index := index + 1;
      }
      assert Matches(rules, 0, checkAll, key) == ports;
      if !matched && otherwise {
        OnePortMore(q, out, ports, "otherwise");
        Regroup(old(queue), AlongPorts(q, out, ports), Along(q, FromPort(out, "otherwise"), q.event));
        SendFromPort(q, edges, "otherwise");
      } else {
        assert ports + [] == ports;
      }
    }

    method DelayEachMessage(q: Queued, edges: seq<FlowEdge>, due: int)
      modifies this`delayed
      ensures delayed == DelayAll(deployment, old(delayed), Along(q, Outgoing(edges, q.to.node), q.event), due)
    {
      ghost var goal := DelayAll(deployment, delayed, Along(q, Outgoing(edges, q.to.node), q.event), due);
      assert edges[0..] == edges;
      for k := 0 to |edges|
        invariant goal == DelayAll(deployment, delayed, Along(q, Outgoing(edges[k..], q.to.node), q.event), due)
      {
        DelayRest(deployment, delayed, q, edges, k, due);
        if edges[k].from == q.to.node {
          var accepted := EnqueueDelayed(Message(q, edges[k], q.event), due);
          if !accepted { return; }
        }
      }
    }

    method ProcessRateLimit(q: Queued, edges: seq<FlowEdge>, delay: nat)
      modifies this
      ensures Now() == ProcessRate(deployment, old(Now()), q, Outgoing(edges, q.to.node), delay)
      ensures batch == old(batch)
    {
      hide Outgoing, Along, Insert;
      var state := if q.to in rates then rates[q.to] else Rate(Event("", "", false), false, 0);
      if q.port.RateRelease? {
        rates := rates[q.to := state.(scheduled := false, nextAllowed := clock + delay)];
        log := log + [Emitted(q.to, clock, state.latest)];
        SendAlong(q, edges, state.latest);
        return;
      }
      if !q.event.writable { return; }
      log := log + [Accepted(q.to, q.event)];
      if !state.scheduled && clock >= state.nextAllowed {
        rates := rates[q.to := Rate(q.event, false, clock + delay)];
        log := log + [Emitted(q.to, clock, q.event)];
        assert log == old(log) + [Accepted(q.to, q.event), Emitted(q.to, clock, q.event)];
        SendAlong(q, edges, q.event);
      } else if !state.scheduled {
        rates := rates[q.to := Rate(q.event, true, state.nextAllowed)];
        var accepted := EnqueueDelayed(Queued(q.to, q.event, q.hops + 1, RateRelease, q.epoch, Some(0)),
            state.nextAllowed);
      } else {
        rates := rates[q.to := state.(latest := q.event)];
      }
    }

    method ProcessTriggerNode(q: Queued, edges: seq<FlowEdge>, kind: Kind)
      requires kind.Trigger?
      modifies this
      ensures Now() == ProcessTrigger(deployment, old(Now()), q, Outgoing(edges, q.to.node), kind)
      ensures batch == old(batch)
    {
      hide Outgoing, Along, ReplaceTimer;
      var current := if q.to in generations then generations[q.to] else 0;
      if q.port.TriggerRelease? {
        if current == q.port.generation {
          generations := generations[q.to := 0];
          log := log + [Fired(q.to, q.stamp)];
          if kind.sendDelayed { SendAlong(q, edges, Configured(kind.delayed, q.event.key)); }
        }
        return;
      }
      if !q.event.writable { return; }
      if kind.resetValue == Some(q.event.value) {
        generations := generations[q.to := current + 1];
        log := log + [Reset(q.to)];
      } else if kind.extend || current == 0 {
        generations := generations[q.to := current + 1];
        log := log + [Started(q.to, starts)];
        if kind.sendInitial { SendAlong(q, edges, Configured(kind.initial, q.event.key)); }
        var accepted := ReplaceTriggerTimer(
          Queued(q.to, q.event, q.hops + 1, TriggerRelease(current + 1), q.epoch, Some(starts)),
          clock + DurationOf(kind));
        starts := starts + 1;
      }
    }

    method ProcessEvent(q: Queued, i: Input)
      modifies this
      ensures Now() == Process(deployment, old(Now()), q, i) && batch == old(batch)
    {
      hide Outgoing, Along, AlongAll, AlongPorts, Selected, DelayAll, ProcessRate, ProcessTrigger;
      clock := i.now;
      if q.hops > deployment.maxHops { return; }
      if q.to.flow !in deployment.flows { return; }
      var flow := deployment.flows[q.to.flow];
      if q.epoch != 0 && q.epoch != flow.epoch { return; }
      if !flow.enabled || q.to.node !in flow.nodes { return; }
      match flow.nodes[q.to.node] {
        case Pass => SendAlong(q, flow.edges, q.event);
        case Convert(apply) =>
          if q.event.writable {
            var value := apply(q.event.value);
            if value.Some? { SendAlong(q, flow.edges, q.event.(value := value.value)); }
          }
        case Labelled(clearsKey) =>
          if q.event.writable && q.port.User? && i.relay.Some? {
            SendAlong(q, flow.edges, Event(i.relay.value, if clearsKey then "" else q.event.key, true));
          }
        case Sink =>
        case Split => if q.event.writable { SplitParts(q, flow.edges, i.parts); }
        case Switch(rules, checkAll, otherwise) => SwitchPorts(q, flow.edges, rules, checkAll, otherwise);
        case DelayEach(delay) => if q.event.writable { DelayEachMessage(q, flow.edges, i.now + delay); }
        case RateLimit(delay) => ProcessRateLimit(q, flow.edges, delay);
        case Trigger(_, _, _, _, _, _, _) => ProcessTriggerNode(q, flow.edges, flow.nodes[q.to.node]);
      }
    }

    /** The first half of a worker pass: what is due joins the queue, and the queue becomes the batch. */
    method PullDue(now: int)
      requires batch == []
      modifies this
      ensures Now() == Pull(old(Now()), now)
    {
      clock := now;
      var n: nat := 0;
      ghost var all := delayed;
      NoItems(all);
      hide DueCount, Items;
      while |delayed| > 0 && delayed[0].due <= now
        invariant n <= |all| && delayed == all[n..] && batch == []
        invariant queue == old(queue) + Items(all[..n])
        invariant DueCount(all, now) == n + DueCount(delayed, now)
        invariant generations == old(generations) && rates == old(rates) && clock == now
        invariant starts == old(starts) && log == old(log)
        decreases |delayed|
      {
        OneMoreDue(all, n, now);
        Regroup(old(queue), Items(all[..n]), [all[n].item]);
        queue := queue + [delayed[0].item];
        delayed := delayed[1..];
        n := n + 1;
      }
      NoneDue(delayed, now);
      batch, queue := queue, [];
    }

    /** One whole worker pass without other producers: it ends, with an empty batch and queue, in the state
        the turns of the engine lead to. */
    method WorkerPass(now: int, inputs: nat -> Input) returns (turns: nat)
      requires batch == []
      modifies this
      ensures batch == [] && queue == []
      ensures Now() == Hops.Turns(deployment, Pull(old(Now()), now), inputs, 0, turns)
    {
      PullDue(now);
      ghost var start := Now();
      ghost var n := Hops.InnerLoopEnds(deployment, start, inputs, 0, 0);
      turns := 0;
      while batch != []
        invariant queue == [] && turns <= n
        invariant Remaining(deployment, start, inputs, n, turns, Now())
        decreases n - turns
      {
        hide Process, Remaining;
        ghost var before := Now();
        var i := inputs(turns);
        PassStep(deployment, start, inputs, n, turns, before, i);
        ProcessEvent(batch[0], i);
        batch := batch[1..];
        batch, queue := batch + queue, [];
        assert Now() == Turn(deployment, before, i);
        turns := turns + 1;
      }
    }
  }

  /** `now` is the state after `done` of the n turns that empty the batch. */
  ghost predicate Remaining(d: Deployment, start: State, inputs: nat -> Input, n: nat, done: nat, now: State) {
    && done <= n && Hops.Turns(d, start, inputs, 0, n).batch == []
    && Hops.Turns(d, start, inputs, 0, n) == Hops.Turns(d, now, inputs, done, n - done)
    && now == Hops.Turns(d, start, inputs, 0, done)
  }

  lemma PassStep(d: Deployment, start: State, inputs: nat -> Input, n: nat, done: nat, now: State, i: Input)
    requires now.batch != [] && i == inputs(done) && Remaining(d, start, inputs, n, done, now)
    ensures done < n && Remaining(d, start, inputs, n, done + 1, Turn(d, now, i))
  {
    hide Turn;
    TurnsOneMore(d, start, inputs, 0, done);
  }

  lemma {:induction false} TurnsOneMore(d: Deployment, s: State, inputs: nat -> Input, from: nat, n: nat)
    ensures var t := Hops.Turns(d, s, inputs, from, n);
      t.batch != [] ==> Hops.Turns(d, s, inputs, from, n + 1) == Turn(d, t, inputs(from + n))
    decreases n
  {
    hide Turn;
    if n > 0 && s.batch != [] { TurnsOneMore(d, Turn(d, s, inputs(from)), inputs, from + 1, n - 1); }
  }
}
