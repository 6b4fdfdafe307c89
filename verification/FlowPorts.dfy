/** The reserved input ports. Flow validation does not stop an edge from naming one, so a node's messages can reach
    a trigger or a rate limiter as if they were releases of its own.

    Here is what every kind of node can send along which edges at once, and when a release among these messages takes
    effect, whatever the messages before it have done to the node.
 */
module FlowPorts {
  import opened FlowEngine
  import Hops = FlowHops
  import Timers = FlowTimers

  // ---------------------------------------------------------------- what nodes send

  function PortEdges(edges: seq<FlowEdge>, ports: seq<string>): seq<FlowEdge> {
    if ports == [] then [] else FromPort(edges, ports[0]) + PortEdges(edges, ports[1..])
  }

  function FirstOf(edges: seq<FlowEdge>, n: nat): seq<FlowEdge> { if |edges| <= n then edges else edges[..n] }

  /** Only splits give events keys. */
  ghost predicate Splits(flow: Flow) { exists n :: n in flow.nodes && flow.nodes[n].Split? }

  ghost predicate KeyOk(d: Deployment, f: string, key: string) {
    key == "" || (f in d.flows && Splits(d.flows[f]))
  }

  /** Some edge leads into this port of the node. */
  ghost predicate Entered(d: Deployment, k: Key, port: Port) {
    k.flow in d.flows && exists e :: e in d.flows[k.flow].edges && e.to == k.node && e.toPort == port
  }

  /** What a trigger sends: its configured values, with the key of the event it works on. */
  predicate TriggerSends(kind: Kind, event: Event)
    requires kind.Trigger?
  {
    || (kind.sendInitial && event == Configured(kind.initial, event.key))
    || (kind.sendDelayed && event == Configured(kind.delayed, event.key))
  }

  /** At one event the node can send `event` along these edges, in this order, one message each. */
  ghost predicate Sends(d: Deployment, k: Key, es: seq<FlowEdge>, event: Event) {
    && k.flow in d.flows && d.flows[k.flow].enabled && k.node in d.flows[k.flow].nodes && KeyOk(d, k.flow, event.key)
    && var out := Edges(d, k);
    match d.flows[k.flow].nodes[k.node]
    case Pass => es == out
    case Convert(apply) => es == out && event.writable && exists v :: apply(v) == Some(event.value)
    case Labelled(_) => es == out && event.writable
    case Sink => false
    case Split => es == out && event.writable
    case Switch(rules, checkAll, otherwise) => es == PortEdges(out, Selected(rules, checkAll, otherwise, event.key))
    case DelayEach(_) => es == FirstOf(out, d.limit) && event.writable
    case RateLimit(_) => es == out && (event.writable || Entered(d, k, RateRelease))
    case Trigger(_, _, _, _, _, _, _) => es == out && TriggerSends(d.flows[k.flow].nodes[k.node], event)
  }

  lemma {:induction false} PortEdgesAre(edges: seq<FlowEdge>, ports: seq<string>)
    ensures forall e | e in PortEdges(edges, ports) :: e in edges
  {
    if ports != [] {
      Timers.FromPortAreEdges(edges, ports[0]);
      PortEdgesAre(edges, ports[1..]);
    }
  }

  lemma SendsAlongEdges(d: Deployment, k: Key, es: seq<FlowEdge>, event: Event)
    requires Sends(d, k, es, event)
    ensures forall e | e in es :: e in Edges(d, k) && e in d.flows[k.flow].edges && e.from == k.node
  {
    Timers.OutgoingAreEdges(d.flows[k.flow].edges, k.node);
    hide Outgoing;
    var kind := d.flows[k.flow].nodes[k.node];
    if kind.Switch? {
      PortEdgesAre(Edges(d, k), Selected(kind.rules, kind.checkAll, kind.otherwise, event.key));
    }
  }

  // ---------------------------------------------------------------- when a release takes effect

  /** The generations a trigger can be at: any, unless it neither extends nor resets. */
  predicate Attainable(kind: Kind, generation: nat)
    requires kind.Trigger?
  {
    generation <= 1 || kind.extend || kind.resetValue.Some?
  }

  /** The port on which the node takes events for its own releases. */
  predicate Aimed(kind: Kind, port: Port) {
    (kind.Trigger? && port.TriggerRelease?) || (kind.RateLimit? && port.RateRelease?)
  }

  /** How far an ordinary delivery takes the node: a trigger's generation, or 1 for a rate limiter that has accepted
      something. */
  function Step(kind: Kind, event: Event, lead: nat): nat {
    if !event.writable then lead
    else match kind
      case Trigger(_, extend, _, _, _, _, resetValue) =>
        if extend || resetValue == Some(event.value) || lead == 0 then lead + 1 else lead
      case RateLimit(_) => 1
      case _ => lead
  }

  /** What `n` of them bring a node to that was at 0, and so at least any node. */
  function Lead(kind: Kind, event: Event, n: nat): nat {
    if !event.writable || n == 0 then 0
    else match kind
      case Trigger(_, extend, _, _, _, _, resetValue) => if extend || resetValue == Some(event.value) then n else 1
      case RateLimit(_) => 1
      case _ => 0
  }

  /** Whether a release on this port can find the node in a state in which it acts on it without being due, when the
      node is known to be at `lead` or further. */
  predicate TakesEffect(kind: Kind, port: Port, lead: nat)
    requires Aimed(kind, port)
  {
    match kind
    case Trigger(_, _, _, _, _, _, _) => lead <= port.generation && Attainable(kind, port.generation)
    case RateLimit(delay) => delay > 0 || lead == 0
    case _ => false
  }

  /** The messages among these that the node takes for ordinary events. */
  function Ordinary(es: seq<FlowEdge>, to: string, kind: Kind): nat {
    if es == [] then 0
    else (if es[0].to == to && !Aimed(kind, es[0].toPort) then 1 else 0) + Ordinary(es[1..], to, kind)
  }

  /** Message j of a group is a release that can take effect. */
  predicate Strikes(d: Deployment, f: string, es: seq<FlowEdge>, j: nat, event: Event) {
    && f in d.flows && j < |es| && es[j].to in d.flows[f].nodes
    && var kind := d.flows[f].nodes[es[j].to];
    && Aimed(kind, es[j].toPort)
    && TakesEffect(kind, es[j].toPort, Lead(kind, event, Ordinary(es[..j], es[j].to, kind)))
  }

  /** Node k forges a release for this node. */
  ghost predicate Forges(d: Deployment, k: Key, es: seq<FlowEdge>, j: nat, event: Event) {
    Sends(d, k, es, event) && Strikes(d, k.flow, es, j, event)
  }

  ghost predicate NoneInto(d: Deployment, to: Key) {
    forall node, es: seq<FlowEdge>, j: nat, event | Forges(d, Key(to.flow, node), es, j, event) :: es[j].to != to.node
  }

  ghost predicate NoForgedTimer(d: Deployment) {
    forall k: Key :: IsTrigger(d, k) ==> NoneInto(d, k)
  }

  ghost predicate NoForgedRate(d: Deployment) {
    forall k: Key :: IsRateLimit(d, k) ==> NoneInto(d, k)
  }

  predicate IsTrigger(d: Deployment, k: Key) { KindAt(d, k).Some? && KindAt(d, k).value.Trigger? }

  predicate IsRateLimit(d: Deployment, k: Key) { KindAt(d, k).Some? && KindAt(d, k).value.RateLimit? }

  // ---------------------------------------------------------------- what that means

  /** Where a trigger gets from a generation by `n` ordinary deliveries of an event. */
  function After(kind: Kind, event: Event, generation: nat, n: nat): nat
    decreases n
  {
    if n == 0 then generation else After(kind, event, Step(kind, event, generation), n - 1)
  }

  lemma {:induction false} AfterIs(kind: Kind, event: Event, generation: nat, n: nat)
    requires kind.Trigger?
    ensures After(kind, event, generation, n) ==
      if !event.writable || n == 0 then generation
      else if kind.extend || kind.resetValue == Some(event.value) then generation + n
      else if generation == 0 then 1 else generation
    decreases n
  {
    if n > 0 { AfterIs(kind, event, Step(kind, event, generation), n - 1); }
  }

  /** The generation from which the ordinary messages of a group lead to this one. */
  function Start(kind: Kind, event: Event, n: nat, generation: nat): nat
    requires kind.Trigger?
  {
    if event.writable && (kind.extend || kind.resetValue == Some(event.value)) && n <= generation
    then generation - n else generation
  }

  /** A forged release behind n ordinary messages of its group takes effect exactly if some generation the trigger can
      be at before them is taken by them to the generation the release names. */
  lemma TakesEffectMeans(kind: Kind, port: Port, event: Event, n: nat)
    requires kind.Trigger? && port.TriggerRelease?
    ensures TakesEffect(kind, port, Lead(kind, event, n)) <==>
      exists c: nat :: Attainable(kind, c) && After(kind, event, c, n) == port.generation
    ensures TakesEffect(kind, port, Lead(kind, event, n)) ==>
      var c := Start(kind, event, n, port.generation);
      Attainable(kind, c) && After(kind, event, c, n) == port.generation
  {
    forall c: nat ensures After(kind, event, c, n) == if !event.writable || n == 0 then c
      else if kind.extend || kind.resetValue == Some(event.value) then c + n else if c == 0 then 1 else c
    {
      AfterIs(kind, event, c, n);
    }
    hide After;
    var c := Start(kind, event, n, port.generation);
    assert TakesEffect(kind, port, Lead(kind, event, n)) ==> After(kind, event, c, n) == port.generation;
  }

  // ---------------------------------------------------------------- which edges forge

  /** A switch sends along edges from its own ports only. */
  lemma OnlySelectable(d: Deployment, k: Key, es: seq<FlowEdge>, event: Event, e: FlowEdge)
    requires Sends(d, k, es, event) && d.flows[k.flow].nodes[k.node].Switch? && e in es
    ensures
      var kind := d.flows[k.flow].nodes[k.node];
      || (kind.otherwise && e.OutPort() == "otherwise")
      || exists i: nat :: i < |kind.rules| && e.OutPort() == RulePort(i)
  {
    var kind := d.flows[k.flow].nodes[k.node];
    hide Selected, Matches, Edges, RulePort;
    var port := PortOf(Edges(d, k), Selected(kind.rules, kind.checkAll, kind.otherwise, event.key), e);
    PortIs(kind.rules, kind.checkAll, kind.otherwise, event.key, port);
  }

  lemma {:induction false} PortOf(edges: seq<FlowEdge>, ports: seq<string>, e: FlowEdge) returns (port: string)
    requires e in PortEdges(edges, ports)
    ensures port in ports && e.OutPort() == port
  {
    port := ports[0];
    FromPortIs(edges, port);
    if e !in FromPort(edges, port) { port := PortOf(edges, ports[1..], e); }
  }

  lemma {:induction false} FromPortIs(edges: seq<FlowEdge>, port: string)
    ensures forall e | e in FromPort(edges, port) :: e.OutPort() == port
  {
    if edges != [] { FromPortIs(edges[1..], port); }
  }

  lemma PortIs(rules: seq<string>, checkAll: bool, otherwise: bool, key: string, port: string)
    requires port in Selected(rules, checkAll, otherwise, key)
    ensures (otherwise && port == "otherwise") || exists i: nat :: i < |rules| && port == RulePort(i)
  {
    var matches := Matches(rules, 0, checkAll, key);
    if port in matches {
      var i := MatchIs(rules, 0, checkAll, key, port);
    }
  }

  lemma {:induction false} MatchIs(rules: seq<string>, index: nat, checkAll: bool, key: string, port: string)
    returns (i: nat)
    requires port in Matches(rules, index, checkAll, key)
    ensures index <= i < index + |rules| && port == RulePort(i)
  {
    hide RulePort;
    if rules[0] == key && port == RulePort(index) {
      i := index;
    } else {
      i := MatchIs(rules[1..], index + 1, checkAll, key, port);
    }
  }

  /** A node that passes everything on forges over every edge into a trigger's port whose generation the trigger can
      be at, whatever edges come before it. */
  lemma PassingForges(d: Deployment, k: Key, j: nat)
    requires k.flow in d.flows && d.flows[k.flow].enabled && k.node in d.flows[k.flow].nodes
    requires d.flows[k.flow].nodes[k.node].Pass? && j < |Edges(d, k)|
    requires Edges(d, k)[j].toPort.TriggerRelease? && IsTrigger(d, Key(k.flow, Edges(d, k)[j].to))
    ensures
      var es := Edges(d, k);
      (exists event :: Forges(d, k, es, j, event))
        <==> Attainable(d.flows[k.flow].nodes[es[j].to], es[j].toPort.generation)
  {
    var es := Edges(d, k);
    hide Edges, Ordinary, Attainable;
    if Attainable(d.flows[k.flow].nodes[es[j].to], es[j].toPort.generation) {
      assert Forges(d, k, es, j, Event("", "", false));
    }
  }

  /** A value other than this one. */
  function Except(value: Option<string>): string { if value == Some("") then "0" else "" }

  /** A split, which sends any value but never null, forges over an edge behind `n` ordinary ones to the same trigger
      exactly if those, from some generation, lead to the one it names. */
  lemma SplitForges(d: Deployment, k: Key, j: nat)
    requires k.flow in d.flows && d.flows[k.flow].enabled && k.node in d.flows[k.flow].nodes
    requires d.flows[k.flow].nodes[k.node].Split? && j < |Edges(d, k)|
    requires Edges(d, k)[j].toPort.TriggerRelease? && IsTrigger(d, Key(k.flow, Edges(d, k)[j].to))
    ensures
      var es := Edges(d, k);
      var kind, g := d.flows[k.flow].nodes[es[j].to], es[j].toPort.generation;
      var n := Ordinary(es[..j], es[j].to, kind);
      (exists event :: Forges(d, k, es, j, event))
        <==> Attainable(kind, g) && (n == 0 || if kind.extend then n <= g else g >= 1)
  {
    var es := Edges(d, k);
    var kind, g := d.flows[k.flow].nodes[es[j].to], es[j].toPort.generation;
    var n := Ordinary(es[..j], es[j].to, kind);
    hide Edges, Ordinary, Attainable;
    if Attainable(kind, g) && (n == 0 || if kind.extend then n <= g else g >= 1) {
      assert Forges(d, k, es, j, Event(Except(kind.resetValue), "", true));
    }
  }

  // ---------------------------------------------------------------- messages come in groups

  datatype Group = Group(es: seq<FlowEdge>, event: Event)

  function Messages(q: Queued, groups: seq<Group>): seq<Queued> {
    if groups == [] then [] else Along(q, groups[0].es, groups[0].event) + Messages(q, groups[1..])
  }

  ghost predicate AllSent(d: Deployment, k: Key, groups: seq<Group>) {
    forall g | g in groups :: Sends(d, k, g.es, g.event)
  }

  lemma {:induction false} AlongBoth(q: Queued, a: seq<FlowEdge>, b: seq<FlowEdge>, event: Event)
    ensures Along(q, a + b, event) == Along(q, a, event) + Along(q, b, event)
  {
    if a == [] {
      assert a + b == b;
    } else {
      assert (a + b)[1..] == a[1..] + b;
      AlongBoth(q, a[1..], b, event);
    }
  }

  lemma {:induction false} AlongPortsIs(q: Queued, edges: seq<FlowEdge>, ports: seq<string>)
    ensures AlongPorts(q, edges, ports) == Along(q, PortEdges(edges, ports), q.event)
  {
    if ports != [] {
      AlongPortsIs(q, edges, ports[1..]);
      AlongBoth(q, FromPort(edges, ports[0]), PortEdges(edges, ports[1..]), q.event);
    }
  }

  function PartGroups(edges: seq<FlowEdge>, parts: seq<Part>): (groups: seq<Group>)
    ensures forall g | g in groups :: g.es == edges && g.event.writable
  {
    if parts == [] then [] else [Group(edges, PartEvent(parts[0]))] + PartGroups(edges, parts[1..])
  }

  lemma {:induction false} AlongAllIs(q: Queued, edges: seq<FlowEdge>, parts: seq<Part>)
    ensures AlongAll(q, edges, parts) == Messages(q, PartGroups(edges, parts))
  {
    if parts != [] {
      AlongAllIs(q, edges, parts[1..]);
      var groups := PartGroups(edges, parts);
      assert groups[1..] == PartGroups(edges, parts[1..]);
    }
  }

  lemma OneGroup(q: Queued, es: seq<FlowEdge>, event: Event)
    ensures Messages(q, []) == [] && Messages(q, [Group(es, event)]) == Along(q, es, event)
  {
    assert [Group(es, event)][1..] == [];
    assert Along(q, es, event) + [] == Along(q, es, event);
  }

  /** Nodes without timers. */
  lemma OutputGroups(d: Deployment, q: Queued, kind: Kind, i: Input) returns (groups: seq<Group>)
    requires Delivered(d, q) == Some(kind) && !SetsTimers(kind) && KeyOk(d, q.to.flow, q.event.key)
    ensures Output(kind, q, Edges(d, q.to), i) == Messages(q, groups) && AllSent(d, q.to, groups)
  {
    var out := Edges(d, q.to);
    groups := [];
    match kind
    case Pass =>
      groups := [Group(out, q.event)];
      OneGroup(q, out, q.event);
    case Convert(apply) =>
      var value := if q.event.writable then apply(q.event.value) else None;
      if value.Some? {
        var event := q.event.(value := value.value);
        groups := [Group(out, event)];
        OneGroup(q, out, event);
        assert Sends(d, q.to, out, event);
      }
    case Labelled(clearsKey) =>
      if q.event.writable && q.port.User? && i.relay.Some? {
        var event := Event(i.relay.value, if clearsKey then "" else q.event.key, true);
        groups := [Group(out, event)];
        OneGroup(q, out, event);
      }
    case Split =>
      if q.event.writable {
        groups := PartGroups(out, i.parts);
        AlongAllIs(q, out, i.parts);
        assert d.flows[q.to.flow].nodes[q.to.node].Split?;
      }
    case Switch(rules, checkAll, otherwise) =>
      var ports := Selected(rules, checkAll, otherwise, q.event.key);
      groups := [Group(PortEdges(out, ports), q.event)];
      AlongPortsIs(q, out, ports);
      OneGroup(q, PortEdges(out, ports), q.event);
    case _ =>
  }

  /** The value a rate limiter keeps may be sent. */
  ghost predicate MaySendLatest(d: Deployment, s: State, q: Queued) {
    var latest := s.RateOf(q.to).latest;
    KeyOk(d, q.to.flow, latest.key) && (q.port.RateRelease? ==> latest.writable || Entered(d, q.to, RateRelease))
  }

  lemma ProcessGroups(d: Deployment, s: State, q: Queued, i: Input) returns (groups: seq<Group>)
    requires KeyOk(d, q.to.flow, q.event.key) && MaySendLatest(d, s, q)
    ensures Process(d, s, q, i).queue == s.queue + Messages(q, groups) && AllSent(d, q.to, groups)
  {
    var kind, out := Delivered(d, q), Edges(d, q.to);
    groups := [];
    assert s.queue + [] == s.queue;
    if kind.Some? {
      if !SetsTimers(kind.value) {
        groups := OutputGroups(d, q, kind.value, i);
      } else if kind.value.RateLimit? {
        groups := RateGroups(d, s, q, i);
      } else if kind.value.Trigger? {
        groups := TriggerGroups(d, s, q, i);
      }
    }
    hide Delivered, Edges, Output, DelayAll, ProcessRate, ProcessTrigger, AllSent;
  }

  lemma RateGroups(d: Deployment, s: State, q: Queued, i: Input) returns (groups: seq<Group>)
    requires Delivered(d, q).Some? && Delivered(d, q).value.RateLimit?
    requires KeyOk(d, q.to.flow, q.event.key) && MaySendLatest(d, s, q)
    ensures Process(d, s, q, i).queue == s.queue + Messages(q, groups) && AllSent(d, q.to, groups)
  {
    var rate, out := s.RateOf(q.to), Edges(d, q.to);
    var event := if q.port.RateRelease? then rate.latest else q.event;
    groups := if q.port.RateRelease? || (q.event.writable && !rate.scheduled && i.now >= rate.nextAllowed)
      then [Group(out, event)] else [];
    OneGroup(q, out, event);
    assert groups != [] ==> Sends(d, q.to, out, event) by { hide Edges, KeyOk, Entered; }
    hide Delivered, Edges, Along, Insert, Messages, Sends;
    assert s.queue + [] == s.queue;
  }

  lemma TriggerGroups(d: Deployment, s: State, q: Queued, i: Input) returns (groups: seq<Group>)
    requires Delivered(d, q).Some? && Delivered(d, q).value.Trigger?
    requires KeyOk(d, q.to.flow, q.event.key)
    ensures Process(d, s, q, i).queue == s.queue + Messages(q, groups) && AllSent(d, q.to, groups)
  {
    var kind, out, g := Delivered(d, q).value, Edges(d, q.to), s.Generation(q.to);
    var fires := q.port.TriggerRelease? && g == q.port.generation && kind.sendDelayed;
    var starts := !q.port.TriggerRelease? && q.event.writable && kind.resetValue != Some(q.event.value)
      && (kind.extend || g == 0) && kind.sendInitial;
    var event := Configured(if fires then kind.delayed else kind.initial, q.event.key);
    groups := if fires || starts then [Group(out, event)] else [];
    OneGroup(q, out, event);
    assert groups != [] ==> Sends(d, q.to, out, event) by { hide Edges, KeyOk, Entered; }
    hide Delivered, Edges, Along, ReplaceTimer, Messages, Sends;
    assert s.queue + [] == s.queue;
  }

  // ---------------------------------------------------------------- where pending events come from

  /** Keys come from splits; a release is the engine's own or came over an edge into that port; an own release of a
      rate limiter has a writable value to release. */
  ghost predicate Traceable(d: Deployment, s: State, x: Queued) {
    && KeyOk(d, x.to.flow, x.event.key)
    && (x.stamp.Some? || x.port.User? || Entered(d, x.to, x.port))
    && (x.stamp.Some? && x.port.RateRelease? ==> s.RateOf(x.to).latest.writable)
  }

  /** A trigger that neither extends nor resets stays at 0 or 1, and the values kept have keys from splits. */
  ghost predicate NodeKnown(d: Deployment, s: State, k: Key) {
    && KeyOk(d, k.flow, s.RateOf(k).latest.key)
    && (IsTrigger(d, k) ==> Attainable(KindAt(d, k).value, s.Generation(k)))
  }

  ghost predicate PortsOk(d: Deployment, s: State) {
    (forall x | x in Timers.Pending(s) :: Traceable(d, s, x)) && forall k :: NodeKnown(d, s, k)
  }

  lemma {:induction false} AlongIs(q: Queued, es: seq<FlowEdge>, event: Event)
    ensures |Along(q, es, event)| == |es|
    ensures forall j: nat | j < |es| :: Along(q, es, event)[j] == Message(q, es[j], event)
  {
    if es != [] { AlongIs(q, es[1..], event); }
  }

  lemma AlongTraceable(d: Deployment, s: State, q: Queued, es: seq<FlowEdge>, event: Event, x: Queued)
    requires x in Along(q, es, event) && KeyOk(d, q.to.flow, event.key)
    requires q.to.flow in d.flows && forall e | e in es :: e in d.flows[q.to.flow].edges
    ensures Traceable(d, s, x)
  {
    AlongIs(q, es, event);
    hide Along, KeyOk;
    var j: nat :| j < |es| && x == Message(q, es[j], event);
    assert es[j] in es;
  }

  lemma {:induction false} MessagesTraceable(d: Deployment, s: State, q: Queued, groups: seq<Group>)
    requires AllSent(d, q.to, groups)
    ensures forall x | x in Messages(q, groups) :: Traceable(d, s, x)
  {
    if groups != [] {
      var es, event := groups[0].es, groups[0].event;
      assert Sends(d, q.to, es, event) by { assert groups[0] in groups; }
      SendsAlongEdges(d, q.to, es, event);
      MessagesTraceable(d, s, q, groups[1..]);
      forall x | x in Along(q, es, event) ensures Traceable(d, s, x) { AlongTraceable(d, s, q, es, event, x); }
      hide Along, Traceable, Sends;
    }
  }

  lemma {:induction false} AlongFirst(q: Queued, es: seq<FlowEdge>, n: nat, event: Event)
    requires n <= |es|
    ensures |Along(q, es, event)| == |es| && Along(q, es[..n], event) == Along(q, es, event)[..n]
  {
    AlongIs(q, es, event);
    AlongIs(q, es[..n], event);
    hide Along;
  }

  /** A turn changes the value a rate limiter keeps only to a writable event at that node, and the generation of a
      trigger only at that node: to 0, or one up. */
  lemma NodeStep(d: Deployment, s: State, q: Queued, i: Input, k: Key)
    ensures
      var latest, latest' := s.RateOf(k).latest, Process(d, s, q, i).RateOf(k).latest;
      latest' == latest || (latest' == q.event && q.event.writable && k == q.to)
    ensures
      var g, g' := s.Generation(k), Process(d, s, q, i).Generation(k);
      || g' == g
      || (k == q.to && Delivered(d, q).Some? && Delivered(d, q).value.Trigger? &&
          var kind := Delivered(d, q).value;
          g' == 0 || (g' == g + 1 && (kind.extend || kind.resetValue.Some? || g == 0)))
  {
    var kind := Delivered(d, q);
    if kind.Some? && kind.value.RateLimit? {
      RateStep(d, s, q, i, k);
    } else if kind.Some? && kind.value.Trigger? {
      TriggerStep(d, s, q, i, k);
    } else {
      NothingKept(d, s, q, i);
    }
    hide Process, Delivered;
  }

  lemma NothingKept(d: Deployment, s: State, q: Queued, i: Input)
    requires Delivered(d, q).Some? ==> !Delivered(d, q).value.RateLimit? && !Delivered(d, q).value.Trigger?
    ensures Process(d, s, q, i).rates == s.rates && Process(d, s, q, i).generations == s.generations
  {
    hide Delivered, Along, Output, Edges, DelayAll;
  }

  lemma RateStep(d: Deployment, s: State, q: Queued, i: Input, k: Key)
    requires Delivered(d, q).Some? && Delivered(d, q).value.RateLimit?
    ensures
      var latest, latest' := s.RateOf(k).latest, Process(d, s, q, i).RateOf(k).latest;
      latest' == latest || (latest' == q.event && q.event.writable && k == q.to)
    ensures Process(d, s, q, i).generations == s.generations
  {
    hide Delivered, Along, Edges, Insert;
  }

  lemma TriggerStep(d: Deployment, s: State, q: Queued, i: Input, k: Key)
    requires Delivered(d, q).Some? && Delivered(d, q).value.Trigger?
    ensures
      var g, g', kind := s.Generation(k), Process(d, s, q, i).Generation(k), Delivered(d, q).value;
      g' == g || (k == q.to && (g' == 0 || (g' == g + 1 && (kind.extend || kind.resetValue.Some? || g == 0))))
    ensures Process(d, s, q, i).rates == s.rates
  {
    hide Delivered, Along, Edges, ReplaceTimer;
  }

  lemma NodeStaysKnown(d: Deployment, s: State, q: Queued, i: Input, k: Key)
    requires NodeKnown(d, s, k) && KeyOk(d, q.to.flow, q.event.key)
    ensures NodeKnown(d, Process(d, s, q, i), k)
  {
    NodeStep(d, s, q, i, k);
    Hops.DeliveredKind(d, q);
    hide Process, Delivered, KeyOk, KindAt;
  }

  lemma StaysTraceable(d: Deployment, s: State, q: Queued, i: Input, x: Queued)
    requires Traceable(d, s, x)
    ensures Traceable(d, Process(d, s, q, i), x)
  {
    NodeStep(d, s, q, i, x.to);
    hide Process, Delivered, KeyOk, Entered;
  }

  /** What a node puts into the delayed queue: the messages of delay_each, or a release of its own. */
  ghost predicate IsNewDelayed(d: Deployment, s: State, q: Queued, i: Input, x: Queued) {
    && Delivered(d, q).Some?
    && if Delivered(d, q).value.DelayEach? then x in Along(q, Edges(d, q.to), q.event) else AddsRelease(d, s, q, i, x)
  }

  ghost predicate AddsRelease(d: Deployment, s: State, q: Queued, i: Input, x: Queued) {
    && x.to == q.to && x.event == q.event && x.stamp.Some?
    && (x.port.RateRelease? ==> Process(d, s, q, i).RateOf(q.to).latest.writable)
  }

  lemma NewDelayed(d: Deployment, s: State, q: Queued, i: Input, x: Queued)
    requires x in Items(Process(d, s, q, i).delayed) && x !in Items(s.delayed)
    ensures IsNewDelayed(d, s, q, i, x)
  {
    var kind := Delivered(d, q);
    hide Process, Items, Delivered, IsNewDelayed, AddsRelease;
    if kind.Some? {
      match kind.value
      case DelayEach(delay) => NewMessages(d, s, q, i, x);
      case RateLimit(_) => NewRelease(d, s, q, i, x);
      case Trigger(_, _, _, _, _, _, _) => NewTimer(d, s, q, i, x);
      case _ => NothingDelayed(d, s, q, i);
    } else {
      NothingDelayed(d, s, q, i);
    }
  }

  lemma NothingDelayed(d: Deployment, s: State, q: Queued, i: Input)
    requires Delivered(d, q).Some? ==> !SetsTimers(Delivered(d, q).value)
    ensures Process(d, s, q, i).delayed == s.delayed
  {
    Timers.QuietProcess(d, s, q, i);
    hide Process;
  }

  lemma NewMessages(d: Deployment, s: State, q: Queued, i: Input, x: Queued)
    requires Delivered(d, q).Some? && Delivered(d, q).value.DelayEach?
    requires x in Items(Process(d, s, q, i).delayed) && x !in Items(s.delayed)
    ensures IsNewDelayed(d, s, q, i, x)
  {
    Hops.DelayAllHas(d, s.delayed, Along(q, Edges(d, q.to), q.event), i.now + Delivered(d, q).value.delay);
    hide Delivered, Along, Edges, DelayAll, Items;
  }

  lemma NewRelease(d: Deployment, s: State, q: Queued, i: Input, x: Queued)
    requires Delivered(d, q).Some? && Delivered(d, q).value.RateLimit?
    requires x in Items(Process(d, s, q, i).delayed) && x !in Items(s.delayed)
    ensures IsNewDelayed(d, s, q, i, x)
  {
    var release := Queued(q.to, q.event, q.hops + 1, RateRelease, q.epoch, Some(0));
    Hops.InsertHas(s.delayed, Timed(s.RateOf(q.to).nextAllowed, release));
    hide Delivered, Along, Edges, Insert, Items;
  }

  lemma NewTimer(d: Deployment, s: State, q: Queued, i: Input, x: Queued)
    requires Delivered(d, q).Some? && Delivered(d, q).value.Trigger?
    requires x in Items(Process(d, s, q, i).delayed) && x !in Items(s.delayed)
    ensures IsNewDelayed(d, s, q, i, x)
  {
    var timer := Queued(q.to, q.event, q.hops + 1, TriggerRelease(s.Generation(q.to) + 1), q.epoch, Some(s.starts));
    Hops.ReplaceHas(d, s.delayed, Timed(i.now + DurationOf(Delivered(d, q).value), timer));
    hide Delivered, Along, Edges, ReplaceTimer, Items;
  }

  lemma NewTraceable(d: Deployment, s: State, q: Queued, i: Input, x: Queued)
    requires KeyOk(d, q.to.flow, q.event.key) && IsNewDelayed(d, s, q, i, x)
    ensures Traceable(d, Process(d, s, q, i), x)
  {
    hide Process, Along, Delivered, KeyOk, Entered;
    if Delivered(d, q).value.DelayEach? {
      hide IsNewDelayed, Traceable, Edges;
      DeliveredFlow(d, q);
      AlongTraceable(d, Process(d, s, q, i), q, Edges(d, q.to), q.event, x);
    }
  }

  lemma DeliveredFlow(d: Deployment, q: Queued)
    requires Delivered(d, q).Some?
    ensures q.to.flow in d.flows && forall e | e in Edges(d, q.to) :: e in d.flows[q.to.flow].edges
  {
    Timers.OutgoingAreEdges(d.flows[q.to.flow].edges, q.to.node);
    hide Outgoing;
  }

  lemma TurnTraceable(d: Deployment, s: State, i: Input)
    requires PortsOk(d, s) && s.batch != []
    ensures PortsOk(d, Turn(d, s, i))
  {
    var q, s', p := s.batch[0], Turn(d, s, i), Process(d, s, s.batch[0], i);
    assert Traceable(d, s, q) && NodeKnown(d, s, q.to);
    MayRelease(d, s, q);
    var groups := ProcessGroups(d, s, q, i);
    MessagesTraceable(d, p, q, groups);
    forall x | x in Timers.Pending(s') ensures Traceable(d, s', x) {
      SameTraceable(d, p, s', x);
      hide Process, Traceable, Items, IsNewDelayed, NodeKnown, AllSent;
      if x in s.batch[1..] || x in s.queue || x in Items(s.delayed) {
        assert x in Timers.Pending(s);
        StaysTraceable(d, s, q, i, x);
      } else if x in Items(p.delayed) {
        NewDelayed(d, s, q, i, x);
        NewTraceable(d, s, q, i, x);
      }
    }
    forall k ensures NodeKnown(d, s', k) {
      SameKnown(d, p, s', k);
      hide Process, Traceable, NodeKnown;
      NodeStaysKnown(d, s, q, i, k);
    }
  }

  lemma SameTraceable(d: Deployment, s: State, s': State, x: Queued)
    requires s'.rates == s.rates
    ensures Traceable(d, s, x) ==> Traceable(d, s', x)
  {
  }

  lemma SameKnown(d: Deployment, s: State, s': State, k: Key)
    requires s'.rates == s.rates && s'.generations == s.generations
    ensures NodeKnown(d, s, k) ==> NodeKnown(d, s', k)
  {
  }

  lemma MayRelease(d: Deployment, s: State, q: Queued)
    requires Traceable(d, s, q) && NodeKnown(d, s, q.to)
    ensures KeyOk(d, q.to.flow, q.event.key) && MaySendLatest(d, s, q)
  {
  }

  lemma InputTraceable(d: Deployment, s: State, q: Queued)
    requires IsInput(q)
    ensures Traceable(d, s, q)
  {
  }

  lemma ActKeepsPorts(d: Deployment, s: State, a: Action)
    requires PortsOk(d, s) && Enabled(s, a)
    ensures PortsOk(d, Act(d, s, a))
  {
    var s' := Act(d, s, a);
    hide Traceable, NodeKnown;
    match a
    case Arrival(q) =>
      forall x | x in Timers.Pending(s') ensures Traceable(d, s', x) {
        InputTraceable(d, s', q);
        SameTraceable(d, s, s', x);
        assert x == q || x in Timers.Pending(s);
      }
      forall k ensures NodeKnown(d, s', k) { SameKnown(d, s, s', k); }
    case Pulling(now) =>
      Timers.PullPending(s, now);
      forall x | x in Timers.Pending(s') ensures Traceable(d, s', x) { SameTraceable(d, s, s', x); }
      forall k ensures NodeKnown(d, s', k) { SameKnown(d, s, s', k); }
    case Turning(i) =>
      TurnTraceable(d, s, i);
  }

  lemma {:induction false} RunKeepsPorts(d: Deployment, run: seq<Action>, s: State)
    requires Reaches(d, run, s)
    ensures PortsOk(d, s)
    decreases |run|
  {
    if run != [] {
      var n := |run| - 1;
      var before :| Reaches(d, run[..n], before) && Enabled(before, run[n]) && s == Act(d, before, run[n]);
      RunKeepsPorts(d, run[..n], before);
      ActKeepsPorts(d, before, run[n]);
    }
  }
}
