/** The flow engine's event loop as a state machine: the worker's batch, the queue, the delayed queue, the
    trigger generations and the rate-limit states of one deployment.

    One action is one lock-protected section of the source: another thread enqueues an input event, the
    worker pulls what is due, the worker processes the front event of its batch.
 */
module FlowEngine {

  datatype Option<+T> = None | Some(value: T)

  datatype Key = Key(flow: string, node: string)

  /** A flow event: its value, its key (the name of the part a split made it from, else empty), and whether
      event_writable would pass it on. */
  datatype Event = Event(value: string, key: string, writable: bool)

  /** Input ports: those users draw edges to, and the two the engine reserves for its timers; what stands for a
      generation and is no number is read as 0. */
  datatype Port = User(name: string) | RateRelease | TriggerRelease(generation: nat)

  /** `stamp` marks the releases the engine makes itself, with the number of the trigger start; what is sent along an
      edge or arrives from outside has none.  It is bookkeeping of the model: no decision reads it. */
  datatype Queued = Queued(to: Key, event: Event, hops: nat, port: Port, epoch: nat, stamp: Option<nat>)

  datatype Timed = Timed(due: int, item: Queued)

  /** Inputs and debug pass everything on; conversions map writable values; combine, boolean_logic, build_json and
      compute take writable values on labelled ports; write, publish and e-mail nodes send nothing.  The rules of a
      switch are its trimmed values; the values a trigger sends may be null. */
  datatype Kind =
    | Pass
    | Convert(apply: string -> Option<string>)
    | Labelled(clearsKey: bool)
    | Sink
    | Split
    | Switch(rules: seq<string>, checkAll: bool, otherwise: bool)
    | DelayEach(delay: nat)
    | RateLimit(delay: nat)
    | Trigger(duration: nat, extend: bool, sendInitial: bool, initial: Option<string>,
              sendDelayed: bool, delayed: Option<string>, resetValue: Option<string>)

  /** A connection; a missing from_port is read as "rule_0". */
  datatype FlowEdge = FlowEdge(from: string, fromPort: Option<string>, to: string, toPort: Port)
  {
    function OutPort(): string { if fromPort.None? then "rule_0" else fromPort.value }
  }

  datatype Flow = Flow(enabled: bool, epoch: nat, nodes: map<string, Kind>, edges: seq<FlowEdge>)

  /** What stays the same during one deployment. */
  datatype Deployment = Deployment(flows: map<string, Flow>, maxHops: nat, limit: nat)

  datatype Rate = Rate(latest: Event, scheduled: bool, nextAllowed: int)

  /** What the timer nodes did, in order. */
  datatype Record =
    | Started(key: Key, stamp: nat)
    | Reset(key: Key)
    | Fired(key: Key, release: Option<nat>)
    | Accepted(key: Key, event: Event)
    | Emitted(key: Key, time: int, event: Event)

  datatype State = State(
    batch: seq<Queued>, queue: seq<Queued>, delayed: seq<Timed>,
    generations: map<Key, nat>, rates: map<Key, Rate>,
    clock: int, starts: nat, log: seq<Record>)
  {
    function Generation(k: Key): nat { if k in generations then generations[k] else 0 }

    function RateOf(k: Key): Rate { if k in rates then rates[k] else Rate(Event("", "", false), false, 0) }
  }

  /** A part of an object or a list that is not null, under its name. */
  datatype Part = Part(key: string, value: string)

  /** What the outside contributes to one processed event: the time, and the results of computations the
      model leaves abstract (the value a node with labelled inputs passes on, if any, and the parts of a split). */
  datatype Input = Input(now: int, relay: Option<string>, parts: seq<Part>)

  // ---------------------------------------------------------------- the queues

  function Enqueue(s: State, items: seq<Queued>): State { s.(queue := s.queue + items) }

  /** std::multimap::emplace: behind all entries that are due no later. */
  function Insert(delayed: seq<Timed>, t: Timed): seq<Timed> {
    if delayed == [] || t.due < delayed[0].due then [t] + delayed
    else [delayed[0]] + Insert(delayed[1..], t)
  }

  /** enqueue_delayed: refused when the delayed queue is full. */
  function EnqueueDelayed(d: Deployment, delayed: seq<Timed>, t: Timed): (r: Option<seq<Timed>>) {
    if |delayed| >= d.limit then None else Some(Insert(delayed, t))
  }

  predicate IsTriggerRelease(q: Queued, k: Key) { q.to == k && q.port.TriggerRelease? }

  function WithoutTimer(delayed: seq<Timed>, k: Key): seq<Timed>
    decreases delayed
  {
    if delayed == [] then []
    else if IsTriggerRelease(delayed[0].item, k) then WithoutTimer(delayed[1..], k)
    else [delayed[0]] + WithoutTimer(delayed[1..], k)
  }

  /** replace_trigger_timer: the node's old timer goes even when there is no room for the new one. */
  function ReplaceTimer(d: Deployment, delayed: seq<Timed>, t: Timed): seq<Timed> {
    var rest := WithoutTimer(delayed, t.item.to);
    if |rest| >= d.limit then rest else Insert(rest, t)
  }

  // ---------------------------------------------------------------- sending along edges

  function Outgoing(edges: seq<FlowEdge>, node: string): seq<FlowEdge> {
    if edges == [] then []
    else (if edges[0].from == node then [edges[0]] else []) + Outgoing(edges[1..], node)
  }

  /** What is sent over an edge while q is processed. */
  function Message(q: Queued, e: FlowEdge, event: Event): Queued {
    Queued(Key(q.to.flow, e.to), event, q.hops + 1, e.toPort, q.epoch, None)
  }

  function Along(q: Queued, edges: seq<FlowEdge>, event: Event): seq<Queued> {
    if edges == [] then [] else [Message(q, edges[0], event)] + Along(q, edges[1..], event)
  }

  function PartEvent(part: Part): Event { Event(part.value, part.key, true) }

  function AlongAll(q: Queued, edges: seq<FlowEdge>, parts: seq<Part>): seq<Queued> {
    if parts == [] then [] else Along(q, edges, PartEvent(parts[0])) + AlongAll(q, edges, parts[1..])
  }

  function FromPort(edges: seq<FlowEdge>, port: string): seq<FlowEdge> {
    if edges == [] then []
    else (if edges[0].OutPort() == port then [edges[0]] else []) + FromPort(edges[1..], port)
  }

  function AlongPorts(q: Queued, edges: seq<FlowEdge>, ports: seq<string>): seq<Queued> {
    if ports == [] then [] else Along(q, FromPort(edges, ports[0]), q.event) + AlongPorts(q, edges, ports[1..])
  }

  function Decimal(n: nat): string {
    if n < 10 then [('0' as int + n) as char] else Decimal(n / 10) + [('0' as int + n % 10) as char]
  }

  function RulePort(index: nat): string { "rule_" + Decimal(index) }

  /** The ports of the rules for this key, the first of which has number `index`; only one without check_all. */
  function Matches(rules: seq<string>, index: nat, checkAll: bool, key: string): seq<string> {
    if rules == [] then []
    else if rules[0] != key then Matches(rules[1..], index + 1, checkAll, key)
    else [RulePort(index)] + if checkAll then Matches(rules[1..], index + 1, checkAll, key) else []
  }

  /** The ports a switch sends an event with this key through. */
  function Selected(rules: seq<string>, checkAll: bool, otherwise: bool, key: string): seq<string> {
    var matches := Matches(rules, 0, checkAll, key);
    if matches == [] && otherwise then ["otherwise"] else matches
  }

  /** delay_each: one delayed message per edge until the limit is reached. */
  function DelayAll(d: Deployment, delayed: seq<Timed>, items: seq<Queued>, due: int): seq<Timed>
    decreases |items|
  {
    if items == [] then delayed
    else
      var r := EnqueueDelayed(d, delayed, Timed(due, items[0]));
      if r.None? then delayed else DelayAll(d, r.value, items[1..], due)
  }

  // ---------------------------------------------------------------- processing one event

  /** The flow and the node an event is delivered to, if any: not too many hops, current deployment, flow
      enabled, node present. */
  function Delivered(d: Deployment, q: Queued): Option<Kind> {
    if q.hops > d.maxHops || q.to.flow !in d.flows then None
    else
      var flow := d.flows[q.to.flow];
      if (q.epoch != 0 && q.epoch != flow.epoch) || !flow.enabled || q.to.node !in flow.nodes then None
      else Some(flow.nodes[q.to.node])
  }

  function KindAt(d: Deployment, k: Key): Option<Kind> {
    if k.flow in d.flows && k.node in d.flows[k.flow].nodes then Some(d.flows[k.flow].nodes[k.node]) else None
  }

  function Edges(d: Deployment, k: Key): seq<FlowEdge> {
    if k.flow in d.flows then Outgoing(d.flows[k.flow].edges, k.node) else []
  }

  /** What a node that sets no timers sends on an event. */
  function Output(kind: Kind, q: Queued, edges: seq<FlowEdge>, i: Input): seq<Queued> {
    match kind
    case Pass => Along(q, edges, q.event)
    case Convert(apply) =>
      var value := if q.event.writable then apply(q.event.value) else None;
      if value.None? then [] else Along(q, edges, q.event.(value := value.value))
    case Labelled(clearsKey) =>
      if !q.event.writable || !q.port.User? || i.relay.None? then []
      else Along(q, edges, Event(i.relay.value, if clearsKey then "" else q.event.key, true))
    case Split => if q.event.writable then AlongAll(q, edges, i.parts) else []
    case Switch(rules, checkAll, otherwise) => AlongPorts(q, edges, Selected(rules, checkAll, otherwise, q.event.key))
    case _ => []
  }

  predicate SetsTimers(kind: Kind) { kind.DelayEach? || kind.RateLimit? || kind.Trigger? }

  function Process(d: Deployment, s: State, q: Queued, i: Input): State {
    var s := s.(clock := i.now);
    var kind := Delivered(d, q);
    if kind.None? then s
    else
      var edges := Edges(d, q.to);
      match kind.value
      case DelayEach(delay) =>
        if !q.event.writable then s
        else s.(delayed := DelayAll(d, s.delayed, Along(q, edges, q.event), i.now + delay))
      case RateLimit(delay) => ProcessRate(d, s, q, edges, delay)
      case Trigger(_, _, _, _, _, _, _) => ProcessTrigger(d, s, q, edges, kind.value)
      case _ => Enqueue(s, Output(kind.value, q, edges, i))
  }

  function SetRate(s: State, k: Key, rate: Rate, log: seq<Record>): State {
    s.(rates := s.rates[k := rate], log := s.log + log)
  }

  function ProcessRate(d: Deployment, s: State, q: Queued, edges: seq<FlowEdge>, delay: nat): State {
    var k, rate, now := q.to, s.RateOf(q.to), s.clock;
    if q.port.RateRelease? then
      var s' := SetRate(s, k, rate.(scheduled := false, nextAllowed := now + delay), [Emitted(k, now, rate.latest)]);
      Enqueue(s', Along(q, edges, rate.latest))
    else if !q.event.writable then s
    else if !rate.scheduled && now >= rate.nextAllowed then
      var s' := SetRate(s, k, Rate(q.event, false, now + delay), [Accepted(k, q.event), Emitted(k, now, q.event)]);
      Enqueue(s', Along(q, edges, q.event))
    else if !rate.scheduled then
      var s' := SetRate(s, k, Rate(q.event, true, rate.nextAllowed), [Accepted(k, q.event)]);
      var r := EnqueueDelayed(d, s.delayed,
          Timed(rate.nextAllowed, Queued(k, q.event, q.hops + 1, RateRelease, q.epoch, Some(0))));
      if r.None? then s' else s'.(delayed := r.value)
    else SetRate(s, k, rate.(latest := q.event), [Accepted(k, q.event)])
  }

  function SetGeneration(s: State, k: Key, generation: nat, record: Record): State {
    s.(generations := s.generations[k := generation], log := s.log + [record])
  }

  /** At least a millisecond. */
  function DurationOf(kind: Kind): nat
    requires kind.Trigger?
  {
    if kind.duration < 1 then 1 else kind.duration
  }

  /** A configured value as an event: null is not writable, the key stays. */
  function Configured(value: Option<string>, key: string): Event {
    Event(if value.Some? then value.value else "", key, value.Some?)
  }

  function ProcessTrigger(d: Deployment, s: State, q: Queued, edges: seq<FlowEdge>, kind: Kind): State
    requires kind.Trigger?
  {
    var k, current := q.to, s.Generation(q.to);
    if q.port.TriggerRelease? then
      if current != q.port.generation then s
      else
        var s' := SetGeneration(s, k, 0, Fired(k, q.stamp));
        if kind.sendDelayed then Enqueue(s', Along(q, edges, Configured(kind.delayed, q.event.key))) else s'
    else if !q.event.writable then s
    else if kind.resetValue == Some(q.event.value) then
      SetGeneration(s, k, current + 1, Reset(k))
    else if kind.extend || current == 0 then
      var s' := SetGeneration(s, k, current + 1, Started(k, s.starts)).(starts := s.starts + 1);
      var s'' := if kind.sendInitial then Enqueue(s', Along(q, edges, Configured(kind.initial, q.event.key))) else s';
      var timer := Queued(k, q.event, q.hops + 1, TriggerRelease(current + 1), q.epoch, Some(s.starts));
      s''.(delayed := ReplaceTimer(d, s.delayed, Timed(s.clock + DurationOf(kind), timer)))
    else s
  }

  // ---------------------------------------------------------------- the actions

  /** Another thread's enqueue: an input event without a key, at hop 0, on a user port. */
  predicate IsInput(q: Queued) { q.hops == 0 && q.port.User? && q.stamp.None? && q.event.key == "" }

  function Arrive(s: State, q: Queued): State { Enqueue(s, [q]) }

  function DueCount(delayed: seq<Timed>, now: int): (n: nat)
    ensures n <= |delayed|
  {
    if delayed == [] || delayed[0].due > now then 0 else 1 + DueCount(delayed[1..], now)
  }

  function Items(delayed: seq<Timed>): seq<Queued> {
    if delayed == [] then [] else [delayed[0].item] + Items(delayed[1..])
  }

  /** The start of a worker pass: what is due goes behind the queue, and the queue becomes the batch. */
  function Pull(s: State, now: int): State {
    var n := DueCount(s.delayed, now);
    s.(batch := s.queue + Items(s.delayed[..n]), queue := [], delayed := s.delayed[n..], clock := now)
  }

  /** One turn of the worker's inner loop: the front event, then everything queued meanwhile. */
  function Turn(d: Deployment, s: State, i: Input): State
    requires s.batch != []
  {
    var s' := Process(d, s, s.batch[0], i);
    s'.(batch := s.batch[1..] + s'.queue, queue := [])
  }

  datatype Action = Arrival(item: Queued) | Pulling(now: int) | Turning(input: Input)

  predicate Enabled(s: State, a: Action) {
    match a
    case Arrival(q) => IsInput(q)
    case Pulling(now) => s.batch == [] && s.clock <= now
    case Turning(i) => s.batch != [] && s.clock <= i.now
  }

  function Act(d: Deployment, s: State, a: Action): State
    requires Enabled(s, a)
  {
    match a
    case Arrival(q) => Arrive(s, q)
    case Pulling(now) => Pull(s, now)
    case Turning(i) => Turn(d, s, i)
  }

  const EMPTY := State([], [], [], map[], map[], 0, 0, [])

  /** States after a run from the fresh deployment. */
  ghost predicate Reaches(d: Deployment, run: seq<Action>, s: State)
    decreases |run|
  {
    if run == [] then s == EMPTY
    else
      var n := |run| - 1;
      exists before :: Reaches(d, run[..n], before) && Enabled(before, run[n]) && s == Act(d, before, run[n])
  }
}
