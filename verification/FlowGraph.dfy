/** The graph part of flow validation: edge checks, then Kahn's algorithm over successor lists and
    in-degree counters.

    Proved: a flow is accepted exactly when every edge connects two different existing nodes and the edge
    relation, parallel edges included, has no cycle; and an accepted flow comes with an order of its nodes
    along which every edge goes forward.
 */
module FlowGraph {

  type Node = string

  datatype Edge = Edge(from: Node, to: Node)

  datatype Verdict = Accepted | MissingNode | SelfEdge | Cycle

  // ---------------------------------------------------------------- what the verdict means

  predicate IsWalk(edges: seq<Edge>, p: seq<Node>) {
    forall i | 0 <= i < |p| - 1 :: Edge(p[i], p[i + 1]) in edges
  }

  ghost predicate HasCycle(edges: seq<Edge>) {
    exists p: seq<Node> :: |p| >= 2 && IsWalk(edges, p) && p[0] == p[|p| - 1]
  }

  predicate Proper(nodes: set<Node>, e: Edge) {
    e.from in nodes && e.to in nodes && e.from != e.to
  }

  function EdgeVerdict(nodes: set<Node>, e: Edge): Verdict {
    if e.from !in nodes || e.to !in nodes then MissingNode else if e.from == e.to then SelfEdge else Accepted
  }

  /** The verdict on the first improper edge, Accepted if there is none. */
  function EdgesVerdict(nodes: set<Node>, edges: seq<Edge>): Verdict {
    if edges == [] then Accepted
    else
      var first := EdgeVerdict(nodes, edges[0]);
      if first.Accepted? then EdgesVerdict(nodes, edges[1..]) else first
  }

  predicate Distinct(order: seq<Node>) {
    forall i, j | 0 <= i < j < |order| :: order[i] != order[j]
  }

  function Elements(order: seq<Node>): set<Node> { set x | x in order }

  /** All nodes, once each, such that whatever has an edge to a node stands before it. */
  ghost predicate Topological(nodes: set<Node>, edges: seq<Edge>, order: seq<Node>) {
    && Distinct(order) && Elements(order) == nodes
    && forall e | e in edges :: exists i, j :: 0 <= i < j < |order| && order[i] == e.from && order[j] == e.to
  }

  // ---------------------------------------------------------------- successor lists and counters

  function Successors(edges: seq<Edge>, u: Node): seq<Node> {
    if edges == [] then []
    else
      var n := |edges| - 1;
      Successors(edges[..n], u) + (if edges[n].from == u then [edges[n].to] else [])
  }

  /** How many edges go from a node of `sources` to v. */
  function InCount(edges: seq<Edge>, sources: set<Node>, v: Node): nat {
    if edges == [] then 0
    else
      var n := |edges| - 1;
      InCount(edges[..n], sources, v) + (if edges[n].from in sources && edges[n].to == v then 1 else 0)
  }

  function Occurrences(xs: seq<Node>, v: Node): nat {
    if xs == [] then 0 else (if xs[0] == v then 1 else 0) + Occurrences(xs[1..], v)
  }

  lemma {:induction false} OccurrencesBoth(xs: seq<Node>, ys: seq<Node>, v: Node)
    ensures Occurrences(xs + ys, v) == Occurrences(xs, v) + Occurrences(ys, v)
  {
    if xs == [] {
      assert xs + ys == ys;
    } else {
      assert (xs + ys)[1..] == xs[1..] + ys;
      OccurrencesBoth(xs[1..], ys, v);
    }
  }

  /** Taking a source away takes away its successors, parallel edges counted. */
  lemma {:induction false} InCountWithout(edges: seq<Edge>, sources: set<Node>, u: Node, v: Node)
    requires u in sources
    ensures InCount(edges, sources, v) == InCount(edges, sources - {u}, v) + Occurrences(Successors(edges, u), v)
  {
    if edges != [] {
      var n := |edges| - 1;
      InCountWithout(edges[..n], sources, u, v);
      OccurrencesBoth(Successors(edges[..n], u), if edges[n].from == u then [edges[n].to] else [], v);
    }
  }

  lemma {:induction false} InCountPositive(edges: seq<Edge>, sources: set<Node>, v: Node)
    ensures InCount(edges, sources, v) > 0 <==> exists e :: e in edges && e.from in sources && e.to == v
  {
    if edges != [] {
      var n := |edges| - 1;
      InCountPositive(edges[..n], sources, v);
      assert edges == edges[..n] + [edges[n]];
    }
  }

  lemma {:induction false} SuccessorsAre(edges: seq<Edge>, u: Node)
    ensures forall v :: v in Successors(edges, u) <==> Edge(u, v) in edges
  {
    if edges != [] {
      var n := |edges| - 1;
      SuccessorsAre(edges[..n], u);
      assert edges == edges[..n] + [edges[n]];
    }
  }

  lemma {:induction false} OccursIn(xs: seq<Node>, v: Node)
    ensures Occurrences(xs, v) > 0 <==> v in xs
  {
    if xs != [] { OccursIn(xs[1..], v); }
  }

  // ---------------------------------------------------------------- the algorithm

  method ValidateGraph(nodes: set<Node>, edges: seq<Edge>) returns (verdict: Verdict, ghost order: seq<Node>)
    ensures verdict ==
      if EdgesVerdict(nodes, edges) != Accepted then EdgesVerdict(nodes, edges)
      else if HasCycle(edges) then Cycle else Accepted
    ensures verdict.Accepted? ==> Topological(nodes, edges, order)
  {
    order := [];
    var graph: map<Node, seq<Node>> := map[];
    var indegree: map<Node, int> := map v | v in nodes :: 0;
    hide *;
    CountNone(nodes);
    assert edges[0..] == edges && edges[..0] == [];
    for k := 0 to |edges|
      invariant AllProper(nodes, edges[..k])
      invariant EdgesVerdict(nodes, edges) == EdgesVerdict(nodes, edges[k..])
      invariant Counted(nodes, edges[..k], graph, indegree)
    {
      var e := edges[k];
      VerdictAt(nodes, edges, k);
      assert edges[..k + 1] == edges[..k] + [e];
      if e.from !in nodes || e.to !in nodes { return MissingNode, []; }
      if e.from == e.to { return SelfEdge, []; }
      OneMoreProper(nodes, edges[..k], e);
      CountOne(nodes, edges[..k], e, graph, indegree);
      graph := graph[e.from := SuccessorList(graph, e.from) + [e.to]];
      indegree := indegree[e.to := indegree[e.to] + 1];
    }
    NoVerdictLeft(nodes, edges);
    assert edges[..|edges|] == edges;
    EachProper(nodes, edges);
    verdict, order := Drain(nodes, edges, graph, indegree);
  }

  predicate AllProper(nodes: set<Node>, edges: seq<Edge>) { forall e | e in edges :: Proper(nodes, e) }

  lemma OneMoreProper(nodes: set<Node>, edges: seq<Edge>, e: Edge)
    requires AllProper(nodes, edges) && Proper(nodes, e)
    ensures AllProper(nodes, edges + [e])
  {
  }

  lemma EachProper(nodes: set<Node>, edges: seq<Edge>)
    requires AllProper(nodes, edges)
    ensures forall e | e in edges :: Proper(nodes, e)
  {
  }

  lemma VerdictAt(nodes: set<Node>, edges: seq<Edge>, k: nat)
    requires k < |edges|
    ensures Proper(nodes, edges[k]) <==> edges[k].from in nodes && edges[k].to in nodes && edges[k].from != edges[k].to
    ensures EdgesVerdict(nodes, edges[k..]) ==
      if edges[k].from !in nodes || edges[k].to !in nodes then MissingNode
      else if edges[k].from == edges[k].to then SelfEdge
      else EdgesVerdict(nodes, edges[k + 1..])
  {
    assert edges[k..][0] == edges[k] && edges[k..][1..] == edges[k + 1..];
  }

  lemma NoVerdictLeft(nodes: set<Node>, edges: seq<Edge>)
    ensures EdgesVerdict(nodes, edges[|edges|..]) == Accepted
  {
  }

  lemma CountNone(nodes: set<Node>)
    ensures Counted(nodes, [], map[], map v | v in nodes :: 0) && AllProper(nodes, [])
  {
  }

  /** The lists and counters the source has built from `edges`. */
  ghost predicate Counted(nodes: set<Node>, edges: seq<Edge>, graph: map<Node, seq<Node>>, indegree: map<Node, int>) {
    && indegree.Keys == nodes
    && (forall u | u in nodes :: SuccessorList(graph, u) == Successors(edges, u))
    && (forall v | v in nodes :: indegree[v] == InCount(edges, nodes, v))
  }

  lemma CountOne(nodes: set<Node>, edges: seq<Edge>, e: Edge, graph: map<Node, seq<Node>>, indegree: map<Node, int>)
    requires Counted(nodes, edges, graph, indegree) && Proper(nodes, e)
    ensures e.to in indegree
    ensures Counted(nodes, edges + [e],
      graph[e.from := SuccessorList(graph, e.from) + [e.to]], indegree[e.to := indegree[e.to] + 1])
  {
    hide Successors, InCount;
    var graph' := graph[e.from := SuccessorList(graph, e.from) + [e.to]];
    var indegree' := indegree[e.to := indegree[e.to] + 1];
    forall u | u in nodes ensures SuccessorList(graph', u) == Successors(edges + [e], u) { SuccessorsOne(edges, e, u); }
    forall v | v in nodes ensures indegree'[v] == InCount(edges + [e], nodes, v) { InCountOne(edges, e, nodes, v); }
  }

  lemma SuccessorsOne(edges: seq<Edge>, e: Edge, u: Node)
    ensures Successors(edges + [e], u) == Successors(edges, u) + (if e.from == u then [e.to] else [])
  {
    assert (edges + [e])[..|edges|] == edges;
  }

  lemma InCountOne(edges: seq<Edge>, e: Edge, sources: set<Node>, v: Node)
    ensures InCount(edges + [e], sources, v)
      == InCount(edges, sources, v) + (if e.from in sources && e.to == v then 1 else 0)
  {
    assert (edges + [e])[..|edges|] == edges;
  }

  /** graph[u] of the source, which is empty for a node without edges. */
  function SuccessorList(graph: map<Node, seq<Node>>, u: Node): seq<Node> {
    if u in graph then graph[u] else []
  }

  /** The state between two nodes of the queue: `order` has been visited. */
  ghost predicate Between(nodes: set<Node>, edges: seq<Edge>, order: seq<Node>, ready: seq<Node>, indegree: map<Node,
      int>) {
    var rest := nodes - Elements(order);
    && Distinct(order) && Elements(order) <= nodes
    && indegree.Keys == nodes
    && (forall v | v in nodes :: indegree[v] == InCount(edges, rest, v))
    && Distinct(ready) && (forall v :: v in ready <==> v in rest && InCount(edges, rest, v) == 0)
    && (forall v | v in order :: InCount(edges, rest, v) == 0)
    && Forward(edges, order)
  }

  /** Sources of edges into the order stand before. */
  ghost predicate Forward(edges: seq<Edge>, order: seq<Node>) {
    forall e, j | e in edges && 0 <= j < |order| && order[j] == e.to :: e.from in order[..j]
  }

  /** The second half of the source: the queue. */
  method Drain(nodes: set<Node>, edges: seq<Edge>, graph: map<Node, seq<Node>>, degrees: map<Node, int>)
    returns (verdict: Verdict, ghost order: seq<Node>)
    requires (forall e | e in edges :: Proper(nodes, e)) && Counted(nodes, edges, graph, degrees)
    ensures verdict == if HasCycle(edges) then Cycle else Accepted
    ensures verdict.Accepted? ==> Topological(nodes, edges, order)
  {
    order := [];
    var indegree := degrees;
    var ready := Sources(nodes, edges, indegree);
    var visited := 0;
    while ready != []
      invariant Between(nodes, edges, order, ready, indegree) && visited == |order|
      decreases nodes - Elements(order)
    {
      var node := ready[0];
      assert node in ready;
      ghost var before := order;
      ready, indegree := Visit(nodes, edges, order, ready, indegree, SuccessorList(graph, node));
      order := order + [node];
      visited := visited + 1;
      assert node in nodes - Elements(before) && node in order;
    }
    Finished(nodes, edges, order, indegree);
    ElementsSize(order);
    return if visited != |nodes| then Cycle else Accepted, order;
  }

  /** The nodes without incoming edges, in any order. */
  method Sources(nodes: set<Node>, edges: seq<Edge>, indegree: map<Node, int>) returns (ready: seq<Node>)
    requires indegree.Keys == nodes && forall v | v in nodes :: indegree[v] == InCount(edges, nodes, v)
    ensures Between(nodes, edges, [], ready, indegree)
  {
    ready := [];
    assert Elements([]) == {} && nodes - Elements([]) == nodes;
    var todo := nodes;
    while todo != {}
      invariant todo <= nodes
      invariant Distinct(ready) && forall v :: v in ready <==> v in nodes - todo && indegree[v] == 0
    {
      var v :| v in todo;
      if indegree[v] == 0 { ready := ready + [v]; }
      todo := todo - {v};
    }
  }

  /** One turn of the queue: the front node's edges are taken away. */
  method Visit(nodes: set<Node>, edges: seq<Edge>, ghost order: seq<Node>, queue: seq<Node>, degrees: map<Node, int>,
               successors: seq<Node>) returns (ready: seq<Node>, indegree: map<Node, int>)
    requires (forall e | e in edges :: Proper(nodes, e)) && queue != []
    requires Between(nodes, edges, order, queue, degrees) && successors == Successors(edges, queue[0])
    ensures Between(nodes, edges, order + [queue[0]], ready, indegree)
  {
    var node := queue[0];
    ghost var rest := nodes - Elements(order) - {node};
    hide *;
    ready, indegree := queue[1..], degrees;
    HalfwayStart(nodes, edges, order, queue, degrees);
    assert successors[0..] == successors;
    for k := 0 to |successors|
      invariant Halfway(nodes, edges, rest, successors[k..], ready, indegree)
    {
      var next := successors[k];
      assert successors[k..] == [next] + successors[k + 1..];
      SuccessorInRest(nodes, edges, order, queue, degrees, next);
      TakeOne(nodes, edges, rest, next, successors[k + 1..], ready, indegree);
      indegree := indegree[next := indegree[next] - 1];
      if indegree[next] == 0 { ready := ready + [next]; }
    }
    assert successors[|successors|..] == [];
    HalfwayEnd(nodes, edges, order, queue, degrees, ready, indegree);
  }

  lemma HalfwayStart(nodes: set<Node>, edges: seq<Edge>, order: seq<Node>, queue: seq<Node>, degrees: map<Node, int>)
    requires Between(nodes, edges, order, queue, degrees) && queue != []
    ensures Halfway(nodes, edges, nodes - Elements(order) - {queue[0]}, Successors(edges, queue[0]), queue[1..],
        degrees)
  {
    AfterPop(nodes, edges, order, queue, degrees);
    hide InCount, Occurrences, Successors, Forward;
  }

  lemma HalfwayEnd(nodes: set<Node>, edges: seq<Edge>, order: seq<Node>, queue: seq<Node>, degrees: map<Node, int>,
                   ready: seq<Node>, indegree: map<Node, int>)
    requires (forall e | e in edges :: Proper(nodes, e)) && queue != []
    requires Between(nodes, edges, order, queue, degrees)
    requires Halfway(nodes, edges, nodes - Elements(order) - {queue[0]}, [], ready, indegree)
    ensures Between(nodes, edges, order + [queue[0]], ready, indegree)
  {
    AfterVisit(nodes, edges, order, queue, degrees);
    assert nodes - Elements(order + [queue[0]]) == nodes - Elements(order) - {queue[0]};
    hide InCount, Forward;
  }

  /** In the middle of one turn: `left` edges of the visited node are still counted. */
  ghost predicate Halfway(nodes: set<Node>, edges: seq<Edge>, rest: set<Node>, left: seq<Node>,
                          ready: seq<Node>, indegree: map<Node, int>) {
    && indegree.Keys == nodes && rest <= nodes
    && (forall v | v in nodes :: indegree[v] == InCount(edges, rest, v) + Occurrences(left, v))
    && Distinct(ready) && (forall v :: v in ready <==> v in rest && indegree[v] == 0)
  }

  lemma TakeOne(nodes: set<Node>, edges: seq<Edge>, rest: set<Node>, next: Node, left: seq<Node>,
                ready: seq<Node>, indegree: map<Node, int>)
    requires Halfway(nodes, edges, rest, [next] + left, ready, indegree) && next in rest
    ensures next in indegree
    ensures Halfway(nodes, edges, rest, left,
      if indegree[next] == 1 then ready + [next] else ready, indegree[next := indegree[next] - 1])
  {
    assert forall v :: Occurrences([next] + left, v) == (if next == v then 1 else 0) + Occurrences(left, v) by {
      assert ([next] + left)[1..] == left;
    }
    assert indegree[next] > 0 && next !in ready;
  }

  lemma AfterPop(nodes: set<Node>, edges: seq<Edge>, order: seq<Node>, queue: seq<Node>, degrees: map<Node, int>)
    requires Between(nodes, edges, order, queue, degrees) && queue != []
    ensures var rest := nodes - Elements(order); var node := queue[0];
      && node in rest
      && (forall v | v in nodes ::
           degrees[v] == InCount(edges, rest - {node}, v) + Occurrences(Successors(edges, node), v))
      && Distinct(queue[1..]) && (forall v :: v in queue[1..] <==> v in rest - {node} && degrees[v] == 0)
  {
    var rest, node := nodes - Elements(order), queue[0];
    forall v | v in nodes
      ensures degrees[v] == InCount(edges, rest - {node}, v) + Occurrences(Successors(edges, node), v)
    {
      InCountWithout(edges, rest, node, v);
    }
    forall v ensures v in queue[1..] <==> v in rest - {node} && degrees[v] == 0 {
      assert queue == [node] + queue[1..];
      if v in queue[1..] {
        var i :| 0 <= i < |queue| - 1 && queue[1..][i] == v;
        assert queue[i + 1] == v;
      }
    }
  }

  /** An edge of the front node leads to a node that is not visited and not the front node itself. */
  lemma SuccessorInRest(nodes: set<Node>, edges: seq<Edge>, order: seq<Node>, queue: seq<Node>, degrees: map<Node,
      int>, next: Node)
    requires (forall e | e in edges :: Proper(nodes, e)) && Between(nodes, edges, order, queue, degrees) && queue != []
    requires next in Successors(edges, queue[0])
    ensures next in nodes - Elements(order) - {queue[0]}
  {
    SuccessorsAre(edges, queue[0]);
    var e := Edge(queue[0], next);
    assert e in edges && queue[0] in queue;
    InCountPositive(edges, nodes - Elements(order), next);
  }

  lemma AfterVisit(nodes: set<Node>, edges: seq<Edge>, order: seq<Node>, queue: seq<Node>, degrees: map<Node, int>)
    requires (forall e | e in edges :: Proper(nodes, e)) && Between(nodes, edges, order, queue, degrees) && queue != []
    ensures var order' := order + [queue[0]];
      && Distinct(order') && Elements(order') <= nodes
      && Forward(edges, order')
      && (forall v | v in order' :: InCount(edges, nodes - Elements(order'), v) == 0)
  {
    var node, rest := queue[0], nodes - Elements(order);
    var order' := order + [node];
    assert node in queue;
    forall e, j | e in edges && 0 <= j < |order'| && order'[j] == e.to ensures e.from in order'[..j] {
      if j < |order| {
        assert order'[..j] == order[..j];
      } else {
        InCountPositive(edges, rest, node);
        assert Proper(nodes, e) && e.from in Elements(order);
        assert order'[..j] == order;
      }
    }
    forall v | v in order' ensures InCount(edges, nodes - Elements(order'), v) == 0 {
      InCountPositive(edges, rest, v);
      InCountPositive(edges, nodes - Elements(order'), v);
    }
  }

  // ---------------------------------------------------------------- why the verdict is right

  lemma {:induction false} ElementsSize(order: seq<Node>)
    requires Distinct(order)
    ensures |Elements(order)| == |order|
  {
    if order != [] {
      ElementsSize(order[1..]);
      assert Elements(order) == {order[0]} + Elements(order[1..]);
      assert forall i | 0 <= i < |order| - 1 :: order[1..][i] == order[i + 1];
    }
  }

  lemma Finished(nodes: set<Node>, edges: seq<Edge>, order: seq<Node>, indegree: map<Node, int>)
    requires (forall e | e in edges :: Proper(nodes, e)) && Between(nodes, edges, order, [], indegree)
    ensures |order| == |nodes| <==> !HasCycle(edges)
    ensures |order| == |nodes| ==> Topological(nodes, edges, order)
  {
    ElementsSize(order);
    var rest := nodes - Elements(order);
    if |order| == |nodes| {
      AllVisited(nodes, Elements(order));
      ForwardIsTopological(nodes, edges, order);
      TopologicalIsAcyclic(nodes, edges, order);
    } else {
      assert rest != {} by { assert Elements(order) + rest == nodes; }
      var v :| v in rest;
      var none: seq<Node> := [];
      forall x | x in rest ensures exists e :: e in edges && e.from in rest && e.to == x {
        assert x !in none;
        InCountPositive(edges, rest, x);
      }
      WalkBack(edges, rest, [v]);
    }
  }

  lemma AllVisited(nodes: set<Node>, visited: set<Node>)
    requires visited <= nodes && |visited| == |nodes|
    ensures visited == nodes
  {
    assert |nodes - visited| == 0;
    assert nodes == visited + (nodes - visited);
  }

  lemma ForwardIsTopological(nodes: set<Node>, edges: seq<Edge>, order: seq<Node>)
    requires (forall e | e in edges :: Proper(nodes, e)) && Distinct(order) && Elements(order) == nodes
    requires Forward(edges, order)
    ensures Topological(nodes, edges, order)
  {
    forall e | e in edges ensures exists i, j :: 0 <= i < j < |order| && order[i] == e.from && order[j] == e.to {
      assert Proper(nodes, e) && e.to in Elements(order);
      var j :| 0 <= j < |order| && order[j] == e.to;
      var i :| 0 <= i < j && order[..j][i] == e.from;
      assert order[i] == e.from;
    }
  }

  /** Along a walk the position in a topological order grows. */
  lemma {:induction false} WalksGoForward(nodes: set<Node>, edges: seq<Edge>, order: seq<Node>, p: seq<Node>)
    returns (i: nat, j: nat)
    requires Topological(nodes, edges, order) && |p| >= 2 && IsWalk(edges, p)
    ensures i < j < |order| && order[i] == p[0] && order[j] == p[|p| - 1]
  {
    var e := Edge(p[0], p[1]);
    assert e in edges;
    i, j :| 0 <= i < j < |order| && order[i] == e.from && order[j] == e.to;
    if |p| > 2 {
      assert IsWalk(edges, p[1..]) by {
        forall k | 0 <= k < |p[1..]| - 1 ensures Edge(p[1..][k], p[1..][k + 1]) in edges {
          assert Edge(p[k + 1], p[k + 2]) in edges;
        }
      }
      var i', j' := WalksGoForward(nodes, edges, order, p[1..]);
      assert i' == j;
      j := j';
    }
  }

  lemma TopologicalIsAcyclic(nodes: set<Node>, edges: seq<Edge>, order: seq<Node>)
    requires Topological(nodes, edges, order)
    ensures !HasCycle(edges)
  {
    if HasCycle(edges) {
      var p: seq<Node> :| |p| >= 2 && IsWalk(edges, p) && p[0] == p[|p| - 1];
      var i, j := WalksGoForward(nodes, edges, order, p);
    }
  }

  /** In a finite set where every node has a predecessor, walking back meets a node again. */
  lemma {:induction false} WalkBack(edges: seq<Edge>, rest: set<Node>, p: seq<Node>)
    requires p != [] && Elements(p) <= rest && IsWalk(edges, p)
    requires forall v | v in rest :: exists e :: e in edges && e.from in rest && e.to == v
    ensures HasCycle(edges)
    decreases rest - Elements(p)
  {
    assert p[0] in Elements(p);
    var e :| e in edges && e.from in rest && e.to == p[0];
    Prepend(edges, e, p);
    if e.from in p {
      assert ([e.from] + p)[1..] == p;
      Close(edges, [e.from] + p);
    } else {
      assert Elements([e.from] + p) == Elements(p) + {e.from};
      WalkBack(edges, rest, [e.from] + p);
    }
  }

  lemma Prepend(edges: seq<Edge>, e: Edge, p: seq<Node>)
    requires p != [] && IsWalk(edges, p) && e in edges && e.to == p[0]
    ensures IsWalk(edges, [e.from] + p)
  {
    var q := [e.from] + p;
    forall i | 0 <= i < |q| - 1 ensures Edge(q[i], q[i + 1]) in edges {
      if i == 0 { assert e == Edge(q[0], q[1]); } else { assert Edge(p[i - 1], p[i]) in edges; }
    }
  }

  lemma Close(edges: seq<Edge>, q: seq<Node>)
    requires q != [] && IsWalk(edges, q) && q[0] in q[1..]
    ensures HasCycle(edges)
  {
    hide IsWalk;
    var i :| 0 <= i < |q[1..]| && q[1..][i] == q[0];
    assert q[i + 1] == q[0];
    var cycle := q[..i + 2];
    FrontIsWalk(edges, q, i + 2);
    assert cycle[0] == q[0] && cycle[i + 1] == q[i + 1];
  }

  lemma FrontIsWalk(edges: seq<Edge>, q: seq<Node>, n: nat)
    requires n <= |q| && IsWalk(edges, q)
    ensures IsWalk(edges, q[..n])
  {
    var p := q[..n];
    forall i | 0 <= i < |p| - 1 ensures Edge(p[i], p[i + 1]) in edges {
      assert p[i] == q[i] && p[i + 1] == q[i + 1];
      assert Edge(q[i], q[i + 1]) in edges;
    }
  }
}
