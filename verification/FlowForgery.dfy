/** Forged releases take effect. Where a message of a node can be a release that its target has no way to tell from its
    own, some run of injected events makes it act on it; so the absence of such messages is not only enough for the
    timers and the rate limiters but needed.
 */
module FlowForgery {
  import opened FlowEngine
  import opened FlowPorts
  import Hops = FlowHops
  import Rates = FlowRates
  import Shield = FlowShield
  import Timers = FlowTimers

  /** What validation and the configuration see to: no node is connected to itself; room for an event or two. */
  ghost predicate Usable(d: Deployment) {
    && (forall f, e | f in d.flows && e in d.flows[f].edges :: e.from != e.to)
    && d.maxHops >= 2 && d.limit >= 1
  }

  /** An event put in from outside, at any node, is enough to make a node of this kind send this one. */
  predicate FromInput(kind: Kind, event: Event) {
    && event.key == "" && !kind.Labelled? && (kind.RateLimit? ==> event.writable)
    && (kind.Trigger? && kind.sendInitial ==> event == Configured(kind.initial, ""))
  }

  /** A forged release that an event from outside brings about. */
  ghost predicate ForgesAtOnce(d: Deployment, k: Key, es: seq<FlowEdge>, j: nat, event: Event) {
    Forges(d, k, es, j, event) && FromInput(d.flows[k.flow].nodes[k.node], event)
  }

  ghost predicate ForgesTimer(d: Deployment, k: Key, es: seq<FlowEdge>, j: nat, event: Event) {
    j < |es| && ForgesAtOnce(d, k, es, j, event) && IsTrigger(d, Key(k.flow, es[j].to))
  }

  ghost predicate ForgesRate(d: Deployment, k: Key, es: seq<FlowEdge>, j: nat, event: Event) {
    j < |es| && ForgesAtOnce(d, k, es, j, event) && IsRateLimit(d, Key(k.flow, es[j].to))
  }

  // ---------------------------------------------------------------- building runs

  /** A test event as `inject` makes it. */
  predicate IsInjected(q: Queued) { IsInput(q) && q.port == User("") && q.epoch == 0 }

  predicate AllInjected(xs: seq<Queued>) { forall x | x in xs :: IsInjected(x) }

  /** A run in which nothing comes from outside but test events. */
  ghost predicate Leads(d: Deployment, run: seq<Action>, s: State) {
    Reaches(d, run, s) && forall a | a in run && a.Arrival? :: IsInjected(a.item)
  }

  lemma Extend(d: Deployment, run: seq<Action>, s: State, a: Action)
    requires Leads(d, run, s) && Enabled(s, a) && (a.Arrival? ==> IsInjected(a.item))
    ensures Leads(d, run + [a], Act(d, s, a))
  {
    assert (run + [a])[..|run|] == run;
  }

  lemma {:induction false} ArriveAll(d: Deployment, run: seq<Action>, s: State, xs: seq<Queued>)
    returns (run': seq<Action>)
    requires Leads(d, run, s) && AllInjected(xs)
    ensures Leads(d, run', s.(queue := s.queue + xs))
    decreases xs
  {
    hide Leads;
    if xs == [] {
      assert s.queue + xs == s.queue;
      run' := run;
    } else {
      assert xs[0] in xs;
      Extend(d, run, s, Arrival(xs[0]));
      var s' := Arrive(s, xs[0]);
      run' := ArriveAll(d, run + [Arrival(xs[0])], s', xs[1..]);
      assert s'.queue + xs[1..] == s.queue + xs;
    }
  }

  /** One event put in and pulled. */
  function Pulled(x: Queued): State { EMPTY.(batch := [x]) }

  lemma PullOne(d: Deployment, x: Queued) returns (run: seq<Action>)
    requires IsInjected(x)
    ensures Leads(d, run, Pulled(x))
  {
    run := [];
    assert Leads(d, run, EMPTY);
    hide Leads;
    Extend(d, run, EMPTY, Arrival(x));
    run := run + [Arrival(x)];
    var s := Arrive(EMPTY, x);
    Extend(d, run, s, Pulling(0));
    run := run + [Pulling(0)];
    assert Pull(s, 0) == Pulled(x);
  }

  // ---------------------------------------------------------------- getting a node to send

  /** Nothing happened yet except at one node. */
  ghost predicate Untouched(s: State, own: Key) {
    && 0 <= s.clock && (forall k | k != own :: k !in s.generations && k !in s.rates)
    && (forall r | r in s.log :: r.key == own)
  }

  /** The batch holds what came in meanwhile and then the group that x makes its node send. */
  ghost predicate Loaded(s: State, x: Queued, k: Key, more: seq<Queued>, es: seq<FlowEdge>, event: Event) {
    && x.to == k && x.hops <= 1 && x.epoch == 0
    && s.batch == more + Along(x, es, event) && s.queue == [] && Untouched(s, k)
  }

  function Injected(k: Key, value: string, writable: bool): Queued {
    Queued(k, Event(value, "", writable), 0, User(""), 0, None)
  }

  /** A value other than the one that resets. */
  function Other(reset: Option<string>): string { if reset == Some("") then "0" else "" }

  /** A node that sends on the event itself. */
  lemma LoadAtOnce(d: Deployment, k: Key, es: seq<FlowEdge>, event: Event, more: seq<Queued>)
    returns (run: seq<Action>, s: State, x: Queued)
    requires Sends(d, k, es, event) && FromInput(d.flows[k.flow].nodes[k.node], event) && AllInjected(more)
    requires
      var kind := d.flows[k.flow].nodes[k.node];
      !kind.DelayEach? && (kind.Trigger? ==> kind.sendInitial)
    ensures Leads(d, run, s) && Loaded(s, x, k, more, es, event)
  {
    var i;
    x, i := SendsAtOnce(d, k, es, event, more);
    hide Leads, Process, Along, Untouched, Sends, FromInput;
    run := PullOne(d, x);
    run := ArriveAll(d, run, Pulled(x), more);
    var s0 := Pulled(x).(queue := more);
    assert [] + more == more;
    Extend(d, run, s0, Turning(i));
    run, s := run + [Turning(i)], Turn(d, s0, i);
    assert s0.batch[1..] == [];
    assert [] + (more + Along(x, es, event)) == more + Along(x, es, event);
  }

  lemma SendsAtOnce(d: Deployment, k: Key, es: seq<FlowEdge>, event: Event, more: seq<Queued>)
    returns (x: Queued, i: Input)
    requires Sends(d, k, es, event) && FromInput(d.flows[k.flow].nodes[k.node], event)
    requires
      var kind := d.flows[k.flow].nodes[k.node];
      !kind.DelayEach? && (kind.Trigger? ==> kind.sendInitial)
    ensures IsInjected(x) && x.to == k && i.now == 0
    ensures
      var p := Process(d, Pulled(x).(queue := more), x, i);
      p.queue == more + Along(x, es, event) && Untouched(p, k)
  {
    var kind, out := d.flows[k.flow].nodes[k.node], Edges(d, k);
    i := Input(0, None, []);
    x := Injected(k, event.value, event.writable);
    if kind.Trigger? {
      x := Injected(k, Other(kind.resetValue), true);
    } else if kind.Split? {
      i := Input(0, None, [Part("", event.value)]);
      x := Injected(k, "", true);
      OnePart(x, out, Part("", event.value));
    } else if kind.Convert? {
      var v :| kind.apply(v) == Some(event.value);
      x := Injected(k, v, true);
    } else if kind.Switch? {
      AlongPortsIs(x, out, Selected(kind.rules, kind.checkAll, kind.otherwise, ""));
    }
    assert Delivered(d, x) == Some(kind);
    hide Along, AlongAll, AlongPorts, Edges, Delivered, ReplaceTimer, Selected;
  }

  lemma OnePart(x: Queued, out: seq<FlowEdge>, part: Part)
    ensures AlongAll(x, out, [part]) == Along(x, out, PartEvent(part))
  {
    assert Along(x, out, PartEvent(part)) + [] == Along(x, out, PartEvent(part));
  }

  /** A node that delays: as many of its messages as fit become due together. */
  lemma LoadDelayed(d: Deployment, k: Key, es: seq<FlowEdge>, event: Event, more: seq<Queued>)
    returns (run: seq<Action>, s: State, x: Queued)
    requires Sends(d, k, es, event) && FromInput(d.flows[k.flow].nodes[k.node], event) && AllInjected(more)
    requires d.flows[k.flow].nodes[k.node].DelayEach?
    ensures Leads(d, run, s) && Loaded(s, x, k, more, es, event)
  {
    var delay := d.flows[k.flow].nodes[k.node].delay;
    x := Injected(k, event.value, true);
    var i, group := Input(0, None, []), Along(x, es, event);
    DelaysGroup(d, k, es, event);
    hide Leads, Turn, Along, Sends, FromInput;
    run := PullOne(d, x);
    Extend(d, run, Pulled(x), Turning(i));
    var s0 := EMPTY.(delayed := Shield.AllDue(group, delay));
    run := ArriveAll(d, run + [Turning(i)], s0, more);
    assert [] + more == more;
    PullsAll(more, group, delay);
    hide Pull;
    Extend(d, run, s0.(queue := more), Pulling(delay));
    run, s := run + [Pulling(delay)], Pull(s0.(queue := more), delay);
  }

  lemma PullsAll(more: seq<Queued>, group: seq<Queued>, due: nat)
    ensures
      Pull(EMPTY.(delayed := Shield.AllDue(group, due), queue := more), due)
        == EMPTY.(batch := more + group, clock := due)
  {
    var s := EMPTY.(delayed := Shield.AllDue(group, due), queue := more);
    Shield.AllDueItems(group, due);
    Shield.CountIs(s.delayed, due, |s.delayed|);
    hide Items, Shield.AllDue, DueCount;
    assert s.delayed[..|s.delayed|] == s.delayed && s.delayed[|s.delayed|..] == [];
  }

  lemma DelaysGroup(d: Deployment, k: Key, es: seq<FlowEdge>, event: Event)
    requires Sends(d, k, es, event) && event.key == "" && d.flows[k.flow].nodes[k.node].DelayEach?
    ensures
      var x := Injected(k, event.value, true);
      Turn(d, Pulled(x), Input(0, None, [])) ==
        EMPTY.(delayed := Shield.AllDue(Along(x, es, event), d.flows[k.flow].nodes[k.node].delay))
  {
    var x, out, kind := Injected(k, event.value, true), Edges(d, k), d.flows[k.flow].nodes[k.node];
    var all := Along(x, out, event);
    AlongFirst(x, out, |es|, event);
    var n := Shield.DelayAllIsPut(d, [], all, kind.delay);
    assert out[..|es|] == es && n == |es| && all[..n] == Along(x, es, event);
    PutIntoNothing(all[..n], kind.delay);
    assert Delivered(d, x) == Some(kind);
    hide Along, Edges, Delivered, DelayAll, Shield.Put, Shield.AllDue;
  }

  lemma PutIntoNothing(items: seq<Queued>, due: int)
    ensures Shield.Put([], items, due) == Shield.AllDue(items, due)
  {
  }

  /** A trigger that sends only when its timer fires. */
  lemma LoadFired(d: Deployment, k: Key, es: seq<FlowEdge>, event: Event, more: seq<Queued>)
    returns (run: seq<Action>, s: State, timer: Queued)
    requires Usable(d)
    requires Sends(d, k, es, event) && FromInput(d.flows[k.flow].nodes[k.node], event) && AllInjected(more)
    requires d.flows[k.flow].nodes[k.node].Trigger? && !d.flows[k.flow].nodes[k.node].sendInitial
    ensures Leads(d, run, s) && Loaded(s, timer, k, more, es, event)
  {
    var kind := d.flows[k.flow].nodes[k.node];
    var x, due := Injected(k, Other(kind.resetValue), true), DurationOf(kind);
    timer := OwnTimer(x);
    var s0, i := Armed(x, kind), Input(due, None, []);
    assert Delivered(d, x) == Some(kind) && Delivered(d, timer) == Some(kind);
    TimerSends(d, x, kind, es, event, more);
    hide Leads, Process, Along, Untouched, Sends, FromInput, Delivered, Armed;
    run := StartAndPull(d, x, kind);
    run := ArriveAll(d, run, s0, more);
    assert s0.queue + more == more by { ArmedIs(x, kind); }
    ArmedIs(x, kind);
    Extend(d, run, s0.(queue := more), Turning(i));
    run, s := run + [Turning(i)], Turn(d, s0.(queue := more), i);
    assert s0.(queue := more).batch[1..] == [];
    assert [] + (more + Along(timer, es, event)) == more + Along(timer, es, event);
  }

  function OwnTimer(x: Queued): Queued { Queued(x.to, x.event, 1, TriggerRelease(1), 0, Some(0)) }

  /** The state after a trigger was started for the first time, and sent nothing. */
  function Started1(x: Queued, kind: Kind): State
    requires kind.Trigger?
  {
    EMPTY.(delayed := [Timed(DurationOf(kind), OwnTimer(x))], generations := map[x.to := 1], starts := 1,
           log := [Started(x.to, 0)])
  }

  /** And after its release was pulled. */
  function Armed(x: Queued, kind: Kind): State
    requires kind.Trigger?
  {
    Started1(x, kind).(batch := [OwnTimer(x)], delayed := [], clock := DurationOf(kind))
  }

  lemma ArmedIs(x: Queued, kind: Kind)
    requires kind.Trigger?
    ensures
      var s := Armed(x, kind);
      s.batch == [OwnTimer(x)] && s.queue == [] && s.clock == DurationOf(kind)
  {
  }

  lemma StartAndPull(d: Deployment, x: Queued, kind: Kind) returns (run: seq<Action>)
    requires Delivered(d, x) == Some(kind) && kind.Trigger? && !kind.sendInitial && d.limit >= 1
    requires IsInjected(x) && x.event.writable && kind.resetValue != Some(x.event.value)
    ensures Leads(d, run, Armed(x, kind))
  {
    var i := Input(0, None, []);
    run := PullOne(d, x);
    ProbeStarts(d, x, kind);
    ArmedPulled(x, kind);
    hide Leads, Turn, Pull, Delivered;
    Extend(d, run, Pulled(x), Turning(i));
    Extend(d, run + [Turning(i)], Started1(x, kind), Pulling(DurationOf(kind)));
    run := run + [Turning(i)] + [Pulling(DurationOf(kind))];
  }

  lemma ProbeStarts(d: Deployment, x: Queued, kind: Kind)
    requires Delivered(d, x) == Some(kind) && kind.Trigger? && !kind.sendInitial && d.limit >= 1
    requires IsInjected(x) && x.event.writable && kind.resetValue != Some(x.event.value)
    ensures Turn(d, Pulled(x), Input(0, None, [])) == Started1(x, kind)
  {
    hide Delivered, Edges;
  }

  lemma ArmedPulled(x: Queued, kind: Kind)
    requires kind.Trigger?
    ensures Pull(Started1(x, kind), DurationOf(kind)) == Armed(x, kind)
  {
    var s := Started1(x, kind);
    assert s.delayed[..1] == s.delayed && s.delayed[1..] == [];
    assert DueCount(s.delayed, DurationOf(kind)) == 1;
    assert [] + Items(s.delayed) == [s.delayed[0].item];
  }

  lemma TimerSends(d: Deployment, x: Queued, kind: Kind, es: seq<FlowEdge>, event: Event, more: seq<Queued>)
    requires Sends(d, x.to, es, event) && kind == d.flows[x.to.flow].nodes[x.to.node] && x.event.key == event.key
    requires kind.Trigger? && !kind.sendInitial && Delivered(d, OwnTimer(x)) == Some(kind)
    ensures
      var timer := OwnTimer(x);
      var p := Process(d, Armed(x, kind).(queue := more), timer, Input(DurationOf(kind), None, []));
      p.queue == more + Along(timer, es, event) && Untouched(p, x.to)
  {
    hide Along, Delivered, Edges;
  }

  lemma Load(d: Deployment, k: Key, es: seq<FlowEdge>, event: Event, more: seq<Queued>)
    returns (run: seq<Action>, s: State, x: Queued)
    requires Usable(d)
    requires Sends(d, k, es, event) && FromInput(d.flows[k.flow].nodes[k.node], event) && AllInjected(more)
    ensures Leads(d, run, s) && Loaded(s, x, k, more, es, event)
  {
    var kind := d.flows[k.flow].nodes[k.node];
    if kind.DelayEach? {
      run, s, x := LoadDelayed(d, k, es, event, more);
    } else if kind.Trigger? && !kind.sendInitial {
      run, s, x := LoadFired(d, k, es, event, more);
    } else {
      run, s, x := LoadAtOnce(d, k, es, event, more);
    }
  }

  // ---------------------------------------------------------------- forged timers fire

  /** Processed in this order by a trigger at this generation, one of these forged releases names its generation. */
  ghost predicate Hits(d: Deployment, k: Key, generation: nat, xs: seq<Queued>)
    decreases |xs|
  {
    xs != []
    && if xs[0].to != k || Delivered(d, xs[0]).None? then Hits(d, k, generation, xs[1..])
       else if !xs[0].port.TriggerRelease? then
         Hits(d, k, Step(Delivered(d, xs[0]).value, xs[0].event, generation), xs[1..])
       else xs[0].port.generation == generation || Hits(d, k, generation, xs[1..])
  }

  lemma AfterTurn(d: Deployment, s: State, i: Input, xs: seq<Queued>)
    requires s.batch != [] && xs != [] && xs <= s.batch
    ensures s.batch[0] == xs[0] && xs[1..] <= Turn(d, s, i).batch && Turn(d, s, i).queue == []
  {
    hide Process;
    assert s.batch[1..][..|xs| - 1] == xs[1..];
  }

  lemma Fires(d: Deployment, s: State, i: Input)
    requires s.batch != [] && Delivered(d, s.batch[0]).Some? && Delivered(d, s.batch[0]).value.Trigger?
    requires s.batch[0].port == TriggerRelease(s.Generation(s.batch[0].to)) && s.batch[0].stamp.None?
    ensures Turn(d, s, i).log == s.log + [Fired(s.batch[0].to, None)]
  {
    Timers.FireTurn(d, s, i, Delivered(d, s.batch[0]).value);
  }

  /** Until it fires, a turn takes the trigger's generation as far as the step says. */
  lemma StepsOn(d: Deployment, s: State, i: Input, k: Key)
    requires s.batch != [] && IsTrigger(d, k)
    ensures
      var q, g, g' := s.batch[0], s.Generation(k), Turn(d, s, i).Generation(k);
      if q.to != k || Delivered(d, q).None? then g' == g
      else if !q.port.TriggerRelease? then g' == Step(Delivered(d, q).value, q.event, g)
      else q.port.generation != g ==> g' == g
  {
    var q := s.batch[0];
    NodeStep(d, s, q, i, k);
    Hops.DeliveredKind(d, q);
    if q.to == k && Delivered(d, q).Some? { Shield.TriggerLevel(d, s, q, i); }
    hide Process, Delivered;
  }

  lemma {:induction false} FiresForged(d: Deployment, k: Key, xs: seq<Queued>, run: seq<Action>, s: State)
    returns (run': seq<Action>, s': State)
    requires IsTrigger(d, k) && Leads(d, run, s) && Timers.Unstamped(xs)
    requires xs <= s.batch && s.queue == [] && Hits(d, k, s.Generation(k), xs)
    ensures Leads(d, run', s') && exists before: seq<Record> :: s'.log == before + [Fired(k, None)]
    decreases |xs|
  {
    hide Leads, Turn, Delivered, Hits, Step;
    var a := Turning(Input(s.clock, None, []));
    HitsHead(d, k, s.Generation(k), xs);
    AfterTurn(d, s, a.input, xs);
    StepsOn(d, s, a.input, k);
    Extend(d, run, s, a);
    run', s' := run + [a], Act(d, s, a);
    var x := xs[0];
    if x.to == k && Delivered(d, x).Some? && x.port == TriggerRelease(s.Generation(k)) {
      Hops.DeliveredKind(d, x);
      Fires(d, s, a.input);
    } else {
      run', s' := FiresForged(d, k, xs[1..], run', s');
    }
  }

  lemma HitsHead(d: Deployment, k: Key, generation: nat, xs: seq<Queued>)
    requires Hits(d, k, generation, xs)
    ensures xs != []
    ensures
      if xs[0].to != k || Delivered(d, xs[0]).None? then Hits(d, k, generation, xs[1..])
      else if !xs[0].port.TriggerRelease? then
        Hits(d, k, Step(Delivered(d, xs[0]).value, xs[0].event, generation), xs[1..])
      else xs[0].port.generation == generation || Hits(d, k, generation, xs[1..])
  {
  }

  lemma AfterNext(kind: Kind, event: Event, generation: nat, n: nat)
    requires kind.Trigger?
    ensures After(kind, event, generation, n + 1) == Step(kind, event, After(kind, event, generation, n))
  {
    AfterIs(kind, event, generation, n + 1);
    AfterIs(kind, event, generation, n);
  }

  /** From the generation that leads to the one the release names, the rest of the group hits. */
  lemma {:induction false} GroupHits(d: Deployment, q: Queued, es: seq<FlowEdge>, event: Event, k: Key, kind: Kind,
      c: nat, j: nat, m: nat)
    requires m <= j < |es| && es[j].to == k.node && q.to.flow == k.flow && kind.Trigger?
    requires Shield.DeliveredAt(d, q, k) == Some(kind)
    requires es[j].toPort == TriggerRelease(After(kind, event, c, Ordinary(es[..j], k.node, kind)))
    ensures Hits(d, k, After(kind, event, c, Ordinary(es[..m], k.node, kind)), Along(q, es[m..], event))
    decreases j - m
  {
    var x, rest := Message(q, es[m], event), Along(q, es[m + 1..], event);
    if m < j { GroupHits(d, q, es, event, k, kind, c, j, m + 1); }
    Shield.AlongFrom(q, es, m, event);
    Shield.OrdinaryNext(es, m, k.node, kind);
    AfterNext(kind, event, c, Ordinary(es[..m], k.node, kind));
    if es[m].to == k.node { Shield.AllOrNone(d, q, k, event, es[m]); }
    hide Along, Delivered, After, Step, Ordinary;
    assert ([x] + rest)[1..] == rest;
  }

  /** An event that takes a trigger one generation up. */
  function Bump(k: Key, kind: Kind): Queued
    requires kind.Trigger?
  {
    Injected(k, if kind.resetValue.Some? then kind.resetValue.value else "", true)
  }

  function Bumps(k: Key, kind: Kind, n: nat): (bumps: seq<Queued>)
    requires kind.Trigger?
    ensures AllInjected(bumps) && Timers.Unstamped(bumps)
  {
    if n == 0 then [] else [Bump(k, kind)] + Bumps(k, kind, n - 1)
  }

  lemma {:induction false} BumpsHit(d: Deployment, k: Key, kind: Kind, g: nat, n: nat, xs: seq<Queued>)
    requires kind.Trigger? && Delivered(d, Bump(k, kind)) == Some(kind) && Attainable(kind, g + n)
    requires Hits(d, k, g + n, xs)
    ensures Hits(d, k, g, Bumps(k, kind, n) + xs)
    decreases n
  {
    if n == 0 {
      assert Bumps(k, kind, n) + xs == xs;
    } else {
      var rest := Bumps(k, kind, n - 1) + xs;
      assert Bumps(k, kind, n) + xs == [Bump(k, kind)] + rest && ([Bump(k, kind)] + rest)[1..] == rest;
      BumpsHit(d, k, kind, g + 1, n - 1, xs);
      hide Delivered;
    }
  }

  /** What a node sends reaches its neighbour. */
  lemma ReachesNode(d: Deployment, x: Queued, to: string)
    requires x.to.flow in d.flows && d.flows[x.to.flow].enabled && to in d.flows[x.to.flow].nodes
    requires x.hops <= 1 && x.epoch == 0 && d.maxHops >= 2
    ensures Shield.DeliveredAt(d, x, Key(x.to.flow, to)) == Some(d.flows[x.to.flow].nodes[to])
  {
  }

  lemma NotItself(d: Deployment, k: Key, es: seq<FlowEdge>, j: nat, event: Event)
    requires Usable(d) && Forges(d, k, es, j, event)
    ensures es[j].to != k.node
  {
    SendsAlongEdges(d, k, es, event);
    assert es[j] in es;
  }

  /** The generation the bumps take the target to. */
  function Lift(d: Deployment, k: Key, es: seq<FlowEdge>, j: nat, event: Event): nat
    requires Strikes(d, k.flow, es, j, event) && d.flows[k.flow].nodes[es[j].to].Trigger?
  {
    var kind := d.flows[k.flow].nodes[es[j].to];
    Start(kind, event, Ordinary(es[..j], es[j].to, kind), es[j].toPort.generation)
  }

  lemma BatchHits(d: Deployment, k: Key, es: seq<FlowEdge>, j: nat, event: Event, x: Queued)
    requires Usable(d) && Forges(d, k, es, j, event) && IsTrigger(d, Key(k.flow, es[j].to))
    requires x.to == k && x.hops <= 1 && x.epoch == 0
    ensures
      var to, kind := Key(k.flow, es[j].to), d.flows[k.flow].nodes[es[j].to];
      Hits(d, to, 0, Bumps(to, kind, Lift(d, k, es, j, event)) + Along(x, es, event))
  {
    var to, kind, c := Key(k.flow, es[j].to), d.flows[k.flow].nodes[es[j].to], Lift(d, k, es, j, event);
    TakesEffectMeans(kind, es[j].toPort, event, Ordinary(es[..j], to.node, kind));
    ReachesNode(d, x, to.node);
    assert Delivered(d, Bump(to, kind)) == Some(kind);
    hide Along, Delivered, After, Lead, Ordinary, Sends, Hits, Shield.DeliveredAt, Start, TakesEffect, Bumps;
    GroupHits(d, x, es, event, to, kind, c, j, 0);
    AfterNone(kind, event, c, es, to.node);
    assert es[0..] == es && es[..0] == [];
    BumpsHit(d, to, kind, 0, c, Along(x, es, event));
  }

  /** A message that strikes, and is sent at an event from outside, makes its trigger fire although its timer is not
      due: in some run of test events a release fires that the engine never made. */
  lemma ForgedTimerFires(d: Deployment, k: Key, es: seq<FlowEdge>, j: nat, event: Event)
    returns (run: seq<Action>, s: State)
    requires Usable(d) && ForgesTimer(d, k, es, j, event)
    ensures Leads(d, run, s) && !Timers.OnlyLiveFires(s.log)
  {
    var to, kind, c := Key(k.flow, es[j].to), d.flows[k.flow].nodes[es[j].to], Lift(d, k, es, j, event);
    NotItself(d, k, es, j, event);
    hide Leads, Along, Delivered, Lead, Ordinary, Sends, Hits, Forges, Strikes, FromInput, Lift, Bumps;
    var x;
    run, s, x := Load(d, k, es, event, Bumps(to, kind, c));
    BatchHits(d, k, es, j, event, x);
    Timers.AlongIsUnstamped(x, es, event);
    assert s.Generation(to) == 0;
    run, s := FiresForged(d, to, Bumps(to, kind, c) + Along(x, es, event), run, s);
    var before: seq<Record> :| s.log == before + [Fired(to, None)];
    assert s.log[|before|] == Fired(to, None);
  }

  lemma AfterNone(kind: Kind, event: Event, c: nat, es: seq<FlowEdge>, to: string)
    ensures After(kind, event, c, Ordinary([], to, kind)) == c
  {
  }

  // ---------------------------------------------------------------- forged rate releases emit

  /** The rate limiter has seen nothing, or has just emitted what it accepted. */
  ghost predicate Fresh(s: State, k: Key, lead: nat) {
    && 0 <= s.clock && lead <= 1
    && (lead == 0 ==> s.RateOf(k) == EMPTY.RateOf(k) && forall r | r in s.log :: r.key != k)
    && (lead == 1 ==> exists j: nat :: j < |s.log| && IsEmission(s.log[j], k, s.clock))
  }

  predicate IsEmission(r: Record, k: Key, time: int) { r.Emitted? && r.key == k && r.time == time }

  lemma RateElsewhere(d: Deployment, s: State, q: Queued, i: Input, k: Key)
    requires q.to != k || Delivered(d, q).None?
    ensures Process(d, s, q, i).RateOf(k) == s.RateOf(k)
  {
    hide Delivered, Along, Output, DelayAll, Insert, ReplaceTimer, Edges;
  }

  lemma RateHere(d: Deployment, s: State, q: Queued, i: Input)
    requires Delivered(d, q).Some? && Delivered(d, q).value.RateLimit?
    ensures
      var p, rate, k := Process(d, s, q, i), s.RateOf(q.to), q.to;
      if q.port.RateRelease? then p.log == s.log + [Emitted(k, i.now, rate.latest)]
      else if !q.event.writable then p.log == s.log && p.rates == s.rates
      else !rate.scheduled && i.now >= rate.nextAllowed ==>
        p.log == s.log + [Accepted(k, q.event), Emitted(k, i.now, q.event)]
  {
    hide Delivered, Along, Insert, Edges;
  }

  /** A turn that is not the one of a release with effect. */
  lemma StaysFresh(d: Deployment, s: State, i: Input, k: Key, lead: nat)
    requires s.batch != [] && i.now == s.clock && IsRateLimit(d, k) && Fresh(s, k, lead)
    requires
      var q := s.batch[0];
      q.to == k && Delivered(d, q).Some? && q.port.RateRelease? ==> lead == 1
    ensures
      var q := s.batch[0];
      Fresh(Turn(d, s, i), k, if q.to != k || Delivered(d, q).None? || q.port.RateRelease? then lead
                              else Step(Delivered(d, q).value, q.event, lead))
  {
    var q, s' := s.batch[0], Turn(d, s, i);
    Hops.DeliveredKind(d, q);
    var records := Shield.Records(d, s, q, i);
    assert s'.clock == s.clock && s'.log == s.log + records && s'.rates == Process(d, s, q, i).rates;
    if lead == 1 {
      var j: nat :| j < |s.log| && IsEmission(s.log[j], k, s.clock);
      assert s'.log[j] == s.log[j];
    }
    if q.to != k || Delivered(d, q).None? {
      RateElsewhere(d, s, q, i, k);
    } else {
      RateHere(d, s, q, i);
      if !q.port.RateRelease? && q.event.writable && lead == 0 {
        assert s'.log[|s.log| + 1] == Emitted(k, s.clock, q.event);
      }
    }
    hide Process, Turn, Delivered;
  }

  lemma EmitsEarly(d: Deployment, s: State, i: Input, k: Key, lead: nat)
    requires s.batch != [] && i.now == s.clock && IsRateLimit(d, k) && Fresh(s, k, lead)
    requires s.batch[0].to == k && Delivered(d, s.batch[0]).Some? && s.batch[0].port.RateRelease?
    requires TakesEffect(Delivered(d, s.batch[0]).value, s.batch[0].port, lead)
    ensures !Rates.WellSpaced(Turn(d, s, i).log, k, Rates.DelayOf(d, k))
  {
    var q, s', n := s.batch[0], Turn(d, s, i), |s.log|;
    Hops.DeliveredKind(d, q);
    RateHere(d, s, q, i);
    assert s'.log == s.log + [Emitted(k, s.clock, s.RateOf(k).latest)] && s'.log[..n] == s.log;
    hide Process, Turn, Delivered;
    if lead == 0 {
      NothingAccepted(s.log, k);
      assert s'.log[n].Emitted?;
    } else {
      var j: nat :| j < |s.log| && IsEmission(s.log[j], k, s.clock);
      assert s'.log[j] == s.log[j] && s'.log[n].time == s.clock;
    }
  }

  lemma {:induction false} NothingAccepted(log: seq<Record>, k: Key)
    requires forall r | r in log :: r.key != k
    ensures Rates.LastAccepted(log, k) == None
  {
    if log != [] { NothingAccepted(log[..|log| - 1], k); }
  }

  lemma {:induction false} EmitsForged(d: Deployment, k: Key, lead: nat, xs: seq<Queued>, run: seq<Action>, s: State)
    returns (run': seq<Action>, s': State)
    requires IsRateLimit(d, k) && Leads(d, run, s) && Timers.Unstamped(xs) && Fresh(s, k, lead)
    requires xs <= s.batch && s.queue == [] && !Shield.Shielded(d, k, lead, xs)
    ensures Leads(d, run', s') && !Rates.WellSpaced(s'.log, k, Rates.DelayOf(d, k))
    decreases |xs|
  {
    var a := Turning(Input(s.clock, None, []));
    assert xs != [];
    var x := xs[0];
    var here := x.to == k && Delivered(d, x).Some?;
    if here { Hops.DeliveredKind(d, x); }
    hide Leads, Turn, Delivered, Fresh, Rates.WellSpaced, TakesEffect;
    AfterTurn(d, s, a.input, xs);
    Extend(d, run, s, a);
    run', s' := run + [a], Act(d, s, a);
    if here && x.port.RateRelease? && TakesEffect(Delivered(d, x).value, x.port, lead) {
      EmitsEarly(d, s, a.input, k, lead);
    } else {
      assert here && x.port.RateRelease? ==> lead == 1 by { IdleRelease(d, s, k, lead, x); }
      StaysFresh(d, s, a.input, k, lead);
      run', s' := EmitsForged(d, k, if here && !x.port.RateRelease? then Step(Delivered(d, x).value, x.event, lead)
                                    else lead, xs[1..], run', s');
    }
  }

  lemma IdleRelease(d: Deployment, s: State, k: Key, lead: nat, x: Queued)
    requires Fresh(s, k, lead)
    ensures
      && Delivered(d, x).Some? && Delivered(d, x).value.RateLimit? && x.port.RateRelease?
      && !TakesEffect(Delivered(d, x).value, x.port, lead)
      ==> lead == 1
  {
  }

  /** The rest of a group, up to the message that strikes. */
  lemma {:induction false} GroupStruck(d: Deployment, q: Queued, es: seq<FlowEdge>, event: Event, k: Key, kind: Kind,
      j: nat, m: nat)
    requires m <= j < |es| && es[j].to == k.node && q.to.flow == k.flow && Strikes(d, k.flow, es, j, event)
    requires Shield.DeliveredAt(d, q, k) == Some(kind) && kind == d.flows[k.flow].nodes[k.node]
    ensures !Shield.Shielded(d, k, Lead(kind, event, Ordinary(es[..m], k.node, kind)), Along(q, es[m..], event))
    decreases j - m
  {
    var x, rest := Message(q, es[m], event), Along(q, es[m + 1..], event);
    if m < j { GroupStruck(d, q, es, event, k, kind, j, m + 1); }
    Shield.AlongFrom(q, es, m, event);
    Shield.OrdinaryNext(es, m, k.node, kind);
    Shield.LeadNext(kind, event, Ordinary(es[..m], k.node, kind));
    if es[m].to == k.node { Shield.AllOrNone(d, q, k, event, es[m]); }
    hide Along, Delivered, Lead, Step, Ordinary, TakesEffect;
    assert ([x] + rest)[1..] == rest;
  }

  /** The same for a rate limiter: it emits what it never accepted, or too soon. */
  lemma ForgedReleaseEmits(d: Deployment, k: Key, es: seq<FlowEdge>, j: nat, event: Event)
    returns (run: seq<Action>, s: State)
    requires Usable(d) && ForgesRate(d, k, es, j, event)
    ensures
      var to := Key(k.flow, es[j].to);
      Leads(d, run, s) && !Rates.WellSpaced(s.log, to, Rates.DelayOf(d, to))
  {
    var to, kind := Key(k.flow, es[j].to), d.flows[k.flow].nodes[es[j].to];
    NotItself(d, k, es, j, event);
    var x;
    hide Leads, Along, Lead, Ordinary, Sends, FromInput, Shield.Shielded, Rates.WellSpaced;
    run, s, x := Load(d, k, es, event, []);
    ReachesNode(d, x, to.node);
    Timers.AlongIsUnstamped(x, es, event);
    GroupStruck(d, x, es, event, to, kind, j, 0);
    NoLead(kind, event, es, to.node);
    assert es[0..] == es && es[..0] == [] && s.batch == Along(x, es, event);
    assert Fresh(s, to, 0);
    run, s := EmitsForged(d, to, 0, Along(x, es, event), run, s);
  }

  lemma NoLead(kind: Kind, event: Event, es: seq<FlowEdge>, to: string)
    ensures Lead(kind, event, Ordinary([], to, kind)) == 0
  {
  }

  // ---------------------------------------------------------------- the condition is exact

  /** In every run only live timers fire. */
  ghost predicate TimersHold(d: Deployment) { forall run, s | Reaches(d, run, s) :: Timers.OnlyLiveFires(s.log) }

  /** In every run emissions keep their distance and are of the value accepted last. */
  ghost predicate RatesHold(d: Deployment) { forall run, s | Reaches(d, run, s) :: RatesKept(d, s) }

  ghost predicate RatesKept(d: Deployment, s: State) {
    forall k :: Rates.WellSpaced(s.log, k, Rates.DelayOf(d, k))
  }

  /** Events that take a node equally far. */
  predicate Alike(target: Kind, a: Event, b: Event) {
    && a.writable == b.writable
    && (target.Trigger? ==>
         target.extend || (target.resetValue == Some(a.value)) == (target.resetValue == Some(b.value)))
  }

  /** Whatever can come over this edge, something that takes its target as far does at an event from outside. This
      leaves out nodes with labelled inputs; switches behind splits, except over the port that events without a key
      take; rate limiters with a forging edge of their own; and triggers whose two values differ in what they do to the
      target. */
  ghost predicate Direct(d: Deployment, f: string, e: FlowEdge)
    requires f in d.flows && e.from in d.flows[f].nodes && e.to in d.flows[f].nodes
  {
    match d.flows[f].nodes[e.from]
    case Labelled(_) => false
    case Switch(rules, checkAll, otherwise) =>
      !Splits(d.flows[f]) || (!checkAll && e.OutPort() in Selected(rules, checkAll, otherwise, ""))
    case RateLimit(_) => !Entered(d, Key(f, e.from), RateRelease)
    case Trigger(_, _, sendInitial, initial, sendDelayed, delayed, _) =>
      !sendInitial || !sendDelayed || Alike(d.flows[f].nodes[e.to], Configured(initial, ""), Configured(delayed, ""))
    case _ => true
  }

  /** All edges into the reserved port of a node of this sort are direct. */
  ghost predicate DirectInto(d: Deployment, to: Key) {
    forall e | to.flow in d.flows && e in d.flows[to.flow].edges && e.to == to.node && !e.toPort.User?
        && e.to in d.flows[to.flow].nodes && e.from in d.flows[to.flow].nodes :: Direct(d, to.flow, e)
  }

  lemma LeadAlike(target: Kind, a: Event, b: Event, n: nat)
    requires Alike(target, a, b)
    ensures Lead(target, a, n) == Lead(target, b, n)
  {
  }

  lemma {:induction false} OneMatch(rules: seq<string>, index: nat, key: string)
    ensures |Matches(rules, index, false, key)| <= 1
  {
    if rules != [] && rules[0] != key { OneMatch(rules[1..], index + 1, key); }
  }

  /** Without check_all all events that reach an edge reach the same edges. */
  lemma SamePort(out: seq<FlowEdge>, rules: seq<string>, otherwise: bool, key: string, e: FlowEdge)
    requires e in PortEdges(out, Selected(rules, false, otherwise, key))
    requires e.OutPort() in Selected(rules, false, otherwise, "")
    ensures PortEdges(out, Selected(rules, false, otherwise, key))
      == PortEdges(out, Selected(rules, false, otherwise, ""))
  {
    OneMatch(rules, 0, key);
    OneMatch(rules, 0, "");
    hide Matches;
    var ports, ports' := Selected(rules, false, otherwise, key), Selected(rules, false, otherwise, "");
    assert ports != [];
    FromPortIs(out, ports[0]);
    assert ports == [ports[0]] && ports' == [ports'[0]];
    assert PortEdges(out, ports) == FromPort(out, ports[0]) + [];
  }

  /** The event from outside that forges as much. */
  function Substitute(kind: Kind, event: Event): Event {
    if kind.Trigger? then Configured(if kind.sendInitial then kind.initial else kind.delayed, "")
    else event.(key := "")
  }

  lemma SubstituteSent(d: Deployment, k: Key, es: seq<FlowEdge>, event: Event, e: FlowEdge)
    requires Sends(d, k, es, event) && e in es && e.from == k.node && e.to in d.flows[k.flow].nodes
    requires Direct(d, k.flow, e)
    ensures
      var kind := d.flows[k.flow].nodes[k.node];
      Sends(d, k, es, Substitute(kind, event)) && FromInput(kind, Substitute(kind, event))
  {
    var kind := d.flows[k.flow].nodes[k.node];
    if kind.Switch? && Splits(d.flows[k.flow]) {
      SamePort(Edges(d, k), kind.rules, kind.otherwise, event.key, e);
    }
    hide Edges, PortEdges, Selected;
  }

  lemma SubstituteStrikes(d: Deployment, k: Key, es: seq<FlowEdge>, j: nat, event: Event)
    requires Forges(d, k, es, j, event) && es[j].from == k.node && Direct(d, k.flow, es[j])
    ensures Strikes(d, k.flow, es, j, Substitute(d.flows[k.flow].nodes[k.node], event))
  {
    var kind, target := d.flows[k.flow].nodes[k.node], d.flows[k.flow].nodes[es[j].to];
    assert Alike(target, event, Substitute(kind, event)) by { hide Edges, Aimed, TakesEffect, Ordinary, Lead; }
    LeadAlike(target, event, Substitute(kind, event), Ordinary(es[..j], es[j].to, target));
    hide Sends, Direct, Ordinary, Lead, TakesEffect, Aimed, Substitute;
  }

  lemma DirectForges(d: Deployment, to: Key) returns (k: Key, es: seq<FlowEdge>, j: nat, event: Event)
    requires !NoneInto(d, to) && DirectInto(d, to)
    ensures j < |es| && ForgesAtOnce(d, k, es, j, event) && Key(k.flow, es[j].to) == to
  {
    var node, any;
    node, es, j, any :| Forges(d, Key(to.flow, node), es, j, any) && es[j].to == to.node;
    k := Key(to.flow, node);
    event := Substitute(d.flows[k.flow].nodes[k.node], any);
    SendsAlongEdges(d, k, es, any);
    assert es[j] in es;
    assert Direct(d, k.flow, es[j]);
    hide Sends, Direct, Ordinary, Lead, TakesEffect, Substitute, FromInput;
    SubstituteSent(d, k, es, any, es[j]);
    SubstituteStrikes(d, k, es, j, any);
  }

  /** The condition on the messages is exact: without one that strikes only live timers fire, in every run; with one
      sent at an event from outside some run fires something else; and these are all there are where every edge into a
      trigger's reserved port is direct. */
  lemma TimersHoldExactly(d: Deployment)
    requires Usable(d)
    ensures NoForgedTimer(d) ==> TimersHold(d)
    ensures (exists k, es, j: nat, event :: ForgesTimer(d, k, es, j, event)) ==> !TimersHold(d)
    ensures (forall to | IsTrigger(d, to) :: DirectInto(d, to)) ==> (TimersHold(d) <==> NoForgedTimer(d))
  {
    hide Reaches, Timers.OnlyLiveFires, DirectInto, ForgesAtOnce, IsTrigger;
    if NoForgedTimer(d) {
      forall run, s | Reaches(d, run, s) ensures Timers.OnlyLiveFires(s.log) {
        Shield.TimersAreSafe(d, run, s);
        OnlyLive(s);
      }
    }
    forall k: Key, es: seq<FlowEdge>, j: nat, event | ForgesTimer(d, k, es, j, event) ensures !TimersHold(d) {
      var run, s := ForgedTimerFires(d, k, es, j, event);
      TimersFail(d, run, s);
    }
    if !NoForgedTimer(d) && forall to | IsTrigger(d, to) :: DirectInto(d, to) {
      var to: Key :| IsTrigger(d, to) && !NoneInto(d, to);
      var k, es, j, event := DirectForges(d, to);
      assert ForgesTimer(d, k, es, j, event);
    }
  }

  lemma TimersFail(d: Deployment, run: seq<Action>, s: State)
    requires Reaches(d, run, s) && !Timers.OnlyLiveFires(s.log)
    ensures !TimersHold(d)
  {
    hide Reaches, Timers.OnlyLiveFires;
  }

  lemma OnlyLive(s: State)
    requires Timers.TimersOk(s)
    ensures Timers.OnlyLiveFires(s.log)
  {
  }

  /** The same for rate limiters. */
  lemma RatesHoldExactly(d: Deployment)
    requires Usable(d)
    ensures NoForgedRate(d) ==> RatesHold(d)
    ensures (exists k, es, j: nat, event :: ForgesRate(d, k, es, j, event)) ==> !RatesHold(d)
    ensures (forall to | IsRateLimit(d, to) :: DirectInto(d, to)) ==> (RatesHold(d) <==> NoForgedRate(d))
  {
    hide Reaches, RatesKept, DirectInto, ForgesAtOnce, IsRateLimit;
    if NoForgedRate(d) {
      forall run, s | Reaches(d, run, s) ensures RatesKept(d, s) {
        Shield.RatesAreSafe(d, run, s);
        Kept(d, s);
      }
    }
    forall k: Key, es: seq<FlowEdge>, j: nat, event | ForgesRate(d, k, es, j, event) ensures !RatesHold(d) {
      var run, s := ForgedReleaseEmits(d, k, es, j, event);
      RatesFail(d, run, s, Key(k.flow, es[j].to));
    }
    if !NoForgedRate(d) && forall to | IsRateLimit(d, to) :: DirectInto(d, to) {
      var to: Key :| IsRateLimit(d, to) && !NoneInto(d, to);
      var k, es, j, event := DirectForges(d, to);
      assert ForgesRate(d, k, es, j, event);
    }
  }

  lemma Kept(d: Deployment, s: State)
    requires Rates.RatesOk(d, s)
    ensures RatesKept(d, s)
  {
    forall k ensures Rates.WellSpaced(s.log, k, Rates.DelayOf(d, k)) {
      assert Rates.NodeOk(d, s, k);
      hide Rates.WellSpaced, Rates.DelayOf, Rates.Count, Rates.LastAccepted;
    }
  }

  lemma RatesFail(d: Deployment, run: seq<Action>, s: State, k: Key)
    requires Reaches(d, run, s) && !Rates.WellSpaced(s.log, k, Rates.DelayOf(d, k))
    ensures !RatesHold(d)
  {
    hide Reaches, Rates.WellSpaced, Rates.DelayOf;
  }
}
