/** Starting a batch of driver requests and polling them all to completion, deadline or cancellation. */
module AsyncPollBatchModel {
  /** Everything the batch asks of its surroundings. Positions count the batch, passes count the rounds of polling:
      the result of starting a position and the clock just before it; whether cancellation is seen before a start or at
      the beginning of a pass; the status of a position in a pass, and the clock right after asking for it. */
  datatype World = World(
    start: nat -> int, began: nat -> int, cancelledBefore: nat -> bool, cancelledIn: nat -> bool,
    status: (nat, nat) -> int, clock: (nat, nat) -> int)

  datatype Settings = Settings(timeoutMs: int, pending: int, timeout: int)

  datatype Action =
    | Start(position: nat, index: nat)
    | Abort(position: nat, index: nat)
    | Capture(position: nat, index: nat, rc: int, began: int)

  datatype Request = Request(index: nat, deadline: int, active: bool)

  function StartOf(w: World, i: nat): int { w.start(i) }
  function BeganOf(w: World, i: nat): int { w.began(i) }
  predicate CancelledBefore(w: World, i: nat) { w.cancelledBefore(i) }
  predicate CancelledIn(w: World, pass: nat) { w.cancelledIn(pass) }
  function StatusOf(w: World, pass: nat, i: nat): int { w.status(pass, i) }
  function ClockOf(w: World, pass: nat, i: nat): int { w.clock(pass, i) }

  /** Polling begins after the starts, and each pass, with its sleep, takes at least a millisecond. */
  ghost predicate Advancing(w: World) {
    && (forall i, j :: ClockOf(w, 0, j) >= BeganOf(w, i))
    && (forall p: nat, q: nat, i, j :: p < q ==> ClockOf(w, q, j) >= ClockOf(w, p, i) + q - p)
  }

  // ---------------------------------------------------------------- what happens to one position

  /** Cancelled, or past the deadline. */
  predicate GivenUp(w: World, s: Settings, pass: nat, i: nat) {
    CancelledIn(w, pass) || ClockOf(w, pass, i) >= BeganOf(w, i) + s.timeoutMs
  }

  predicate Ends(w: World, s: Settings, pass: nat, i: nat) {
    StatusOf(w, pass, i) != s.pending || GivenUp(w, s, pass, i)
  }

  function Bound(s: Settings): nat { if s.timeoutMs > 0 then s.timeoutMs else 0 }

  /** The first pass from this one on in which the position ends, looking no further than the bound. */
  function FirstEnd(w: World, s: Settings, pass: nat, i: nat): (end: nat)
    ensures pass <= Bound(s) ==> pass <= end <= Bound(s)
    decreases Bound(s) - pass
  {
    if pass >= Bound(s) || Ends(w, s, pass, i) then pass else FirstEnd(w, s, pass + 1, i)
  }

  /** The whole story of a started position: captured at once, or in the first pass that ends it; aborted only if
      still pending then; and always with the instant of its own start. */
  function Story(w: World, s: Settings, i: nat, index: nat): seq<Action> {
    if StartOf(w, i) != s.pending then
      [Start(i, index), Capture(i, index, StartOf(w, i), BeganOf(w, i))]
    else
      var end := FirstEnd(w, s, 0, i);
      if StatusOf(w, end, i) != s.pending then
        [Start(i, index), Capture(i, index, StatusOf(w, end, i), BeganOf(w, i))]
      else
        [Start(i, index), Abort(i, index), Capture(i, index, s.timeout, BeganOf(w, i))]
  }

  /** The actions on one position. */
  function On(trace: seq<Action>, i: nat): seq<Action> {
    if trace == [] then []
    else On(trace[..|trace| - 1], i) + (if trace[|trace| - 1].position == i then [trace[|trace| - 1]] else [])
  }

  function FirstPositions(n: nat): seq<nat> { seq(n, i => i) }

  /** The starts, in order. */
  function Starts(trace: seq<Action>): seq<nat> {
    if trace == [] then []
    else Starts(trace[..|trace| - 1]) + (if trace[|trace| - 1].Start? then [trace[|trace| - 1].position] else [])
  }

  lemma OneMore(trace: seq<Action>, a: Action, i: nat)
    ensures On(trace + [a], i) == On(trace, i) + (if a.position == i then [a] else [])
    ensures Starts(trace + [a]) == Starts(trace) + (if a.Start? then [a.position] else [])
  {
    assert (trace + [a])[..|trace|] == trace;
  }

  /** At most two actions on one position, of which only the first may be a start. */
  predicate Burst(more: seq<Action>, i: nat) {
    |more| <= 2 && (forall a | a in more :: a.position == i) && (|more| == 2 ==> !more[1].Start?)
  }

  lemma Append(trace: seq<Action>, more: seq<Action>, i: nat, j: nat)
    requires Burst(more, i)
    ensures On(trace + more, j) == if i == j then On(trace, j) + more else On(trace, j)
    ensures Starts(trace + more) == Starts(trace) + (if more != [] && more[0].Start? then [i] else [])
  {
    hide On, Starts;
    if |more| == 0 {
      assert trace + more == trace;
    } else {
      OneMore(trace, more[0], j);
      if |more| == 1 {
        assert more == [more[0]];
      } else {
        OneMore(trace + [more[0]], more[1], j);
        assert trace + more == trace + [more[0]] + [more[1]];
        assert more == [more[0]] + [more[1]];
      }
    }
  }

  lemma ClockAdvances(w: World, pass: nat, i: nat)
    requires Advancing(w)
    ensures ClockOf(w, pass, i) >= BeganOf(w, i) + pass
  {
    hide ClockOf, BeganOf;
    assert ClockOf(w, 0, i) >= BeganOf(w, i);
    assert pass > 0 ==> ClockOf(w, pass, i) >= ClockOf(w, 0, i) + pass - 0;
  }

  /** The first end is the first: nothing before it ends the position, and it does. */
  lemma {:induction false} FirstEndIsFirst(w: World, s: Settings, pass: nat, i: nat)
    requires Advancing(w) && pass <= Bound(s)
    ensures Ends(w, s, FirstEnd(w, s, pass, i), i)
    ensures forall q :: pass <= q < FirstEnd(w, s, pass, i) ==> !Ends(w, s, q, i)
    decreases Bound(s) - pass
  {
    if Ends(w, s, pass, i) {
    } else if pass == Bound(s) {
      ClockAdvances(w, pass, i);
    } else {
      FirstEndIsFirst(w, s, pass + 1, i);
    }
  }

  // ---------------------------------------------------------------- the loops

  /** How a position stands when it has been through this many passes. */
  predicate Stands(w: World, s: Settings, i: nat, index: nat, r: Request, actions: seq<Action>, passes: nat) {
    && r.index == index && r.deadline == BeganOf(w, i) + s.timeoutMs
    && (r.active ==> actions == [Start(i, index)] && StartOf(w, i) == s.pending && passes <= FirstEnd(w, s, 0, i))
    && (!r.active ==> actions == Story(w, s, i, index))
  }

  function PassesOf(passes: nat, k: nat, i: nat): nat { if i < k then passes + 1 else passes }

  /** Started positions stand after `passes` passes, the first `k` of them one pass further. */
  ghost predicate AllStand(w: World, s: Settings, indices: seq<nat>, requests: seq<Request>, trace: seq<Action>,
      passes: nat, k: nat) {
    && |requests| <= |indices|
    && (forall i: nat :: i < |requests| ==>
      Stands(w, s, i, indices[i], requests[i], On(trace, i), PassesOf(passes, k, i)))
    && (forall i: nat :: i >= |requests| ==> On(trace, i) == [])
  }

  function StartActions(w: World, s: Settings, i: nat, index: nat): seq<Action> {
    [Start(i, index)] + (if StartOf(w, i) != s.pending then [Capture(i, index, StartOf(w, i), BeganOf(w, i))] else [])
  }

  function Started(w: World, s: Settings, i: nat, index: nat): Request {
    Request(index, BeganOf(w, i) + s.timeoutMs, StartOf(w, i) == s.pending)
  }

  lemma StartedStands(w: World, s: Settings, i: nat, index: nat)
    ensures Stands(w, s, i, index, Started(w, s, i, index), StartActions(w, s, i, index), 0)
    ensures StartActions(w, s, i, index) != [] && StartActions(w, s, i, index)[0].Start?
    ensures Burst(StartActions(w, s, i, index), i)
  {
    hide StartOf, BeganOf;
  }

  lemma StartStands(w: World, s: Settings, indices: seq<nat>, requests: seq<Request>, trace: seq<Action>)
    requires AllStand(w, s, indices, requests, trace, 0, 0) && |requests| < |indices|
    ensures
      var n := |requests|;
      var more := StartActions(w, s, n, indices[n]);
      && AllStand(w, s, indices, requests + [Started(w, s, n, indices[n])], trace + more, 0, 0)
      && Starts(trace + more) == Starts(trace) + [n]
  {
    hide *;
    var n := |requests|;
    var more := StartActions(w, s, n, indices[n]);
    var requests' := requests + [Started(w, s, n, indices[n])];
    StartedStands(w, s, n, indices[n]);
    Append(trace, more, n, n);
    forall i: nat | i < |requests'|
      ensures Stands(w, s, i, indices[i], requests'[i], On(trace + more, i), PassesOf(0, 0, i))
    {
      Append(trace, more, n, i);
      NoPasses(i);
      if i < n {
        StandsAt(w, s, indices, requests, trace, 0, 0, i);
      } else {
        NotStarted(w, s, indices, requests, trace, 0, 0, n);
        assert [] + more == more;
      }
    }
    forall i: nat | i >= |requests'| ensures On(trace + more, i) == [] {
      Append(trace, more, n, i);
      NotStarted(w, s, indices, requests, trace, 0, 0, i);
    }
    AllStandFrom(w, s, indices, requests', trace + more, 0, 0);
  }

  lemma NoPasses(i: nat)
    ensures PassesOf(0, 0, i) == 0
  {
  }

  lemma StandsAt(w: World, s: Settings, indices: seq<nat>, requests: seq<Request>, trace: seq<Action>, passes: nat,
      k: nat, i: nat)
    requires AllStand(w, s, indices, requests, trace, passes, k) && i < |requests|
    ensures i < |indices| && Stands(w, s, i, indices[i], requests[i], On(trace, i), PassesOf(passes, k, i))
  {
  }

  lemma NotStarted(w: World, s: Settings, indices: seq<nat>, requests: seq<Request>, trace: seq<Action>, passes: nat,
      k: nat, i: nat)
    requires AllStand(w, s, indices, requests, trace, passes, k) && i >= |requests|
    ensures On(trace, i) == []
  {
  }

  lemma AllStandFrom(w: World, s: Settings, indices: seq<nat>, requests: seq<Request>, trace: seq<Action>, passes: nat,
      k: nat)
    requires |requests| <= |indices|
    requires forall i: nat :: i < |requests| ==>
      Stands(w, s, i, indices[i], requests[i], On(trace, i), PassesOf(passes, k, i))
    requires forall i: nat :: i >= |requests| ==> On(trace, i) == []
    ensures AllStand(w, s, indices, requests, trace, passes, k)
  {
  }

  /** One request in one pass: its new activity and the actions taken. */
  function Polled(w: World, s: Settings, pass: nat, i: nat, index: nat): (bool, seq<Action>) {
    if StatusOf(w, pass, i) == s.pending && GivenUp(w, s, pass, i) then
      if s.timeout == s.pending then (true, [Abort(i, index)])
      else (false, [Abort(i, index), Capture(i, index, s.timeout, BeganOf(w, i))])
    else if StatusOf(w, pass, i) == s.pending then (true, [])
    else (false, [Capture(i, index, StatusOf(w, pass, i), BeganOf(w, i))])
  }

  lemma PolledStands(w: World, s: Settings, pass: nat, i: nat, index: nat, r: Request, actions: seq<Action>)
    requires Advancing(w) && s.timeout != s.pending && r.active && Stands(w, s, i, index, r, actions, pass)
    ensures
      var (active, more) := Polled(w, s, pass, i, index);
      && Stands(w, s, i, index, r.(active := active), actions + more, pass + 1)
      && Burst(more, i) && (more == [] || !more[0].Start?)
  {
    FirstEndIsFirst(w, s, 0, i);
    hide FirstEnd, StatusOf, BeganOf, StartOf, GivenUp, Advancing;
    assert pass == FirstEnd(w, s, 0, i) || !Ends(w, s, pass, i);
  }

  lemma InactiveStands(w: World, s: Settings, i: nat, index: nat, r: Request, actions: seq<Action>, pass: nat)
    requires !r.active && Stands(w, s, i, index, r, actions, pass)
    ensures Stands(w, s, i, index, r, actions, pass + 1)
  {
  }

  lemma PassesAt(passes: nat, k: nat, i: nat)
    ensures PassesOf(passes, k, k) == passes && PassesOf(passes, k + 1, k) == passes + 1
    ensures i != k ==> PassesOf(passes, k + 1, i) == PassesOf(passes, k, i)
  {
  }

  lemma ActivePolled(w: World, s: Settings, indices: seq<nat>, requests: seq<Request>, trace: seq<Action>, pass: nat,
      k: nat)
    requires Advancing(w) && s.timeout != s.pending && k < |requests| && requests[k].active
    requires AllStand(w, s, indices, requests, trace, pass, k)
    ensures k < |indices|
    ensures
      var (active, more) := Polled(w, s, pass, k, indices[k]);
      && AllStand(w, s, indices, requests[k := requests[k].(active := active)], trace + more, pass, k + 1)
      && Starts(trace + more) == Starts(trace)
  {
    hide *;
    StandsAt(w, s, indices, requests, trace, pass, k, k);
    PassesAt(pass, k, k);
    var (active, more) := Polled(w, s, pass, k, indices[k]);
    PolledStands(w, s, pass, k, indices[k], requests[k], On(trace, k));
    Append(trace, more, k, k);
    var requests' := requests[k := requests[k].(active := active)];
    Fits(w, s, indices, requests, trace, pass, k);
    forall i: nat | i < |requests'|
      ensures Stands(w, s, i, indices[i], requests'[i], On(trace + more, i), PassesOf(pass, k + 1, i))
    {
      Append(trace, more, k, i);
      PassesAt(pass, k, i);
      if i != k { StandsAt(w, s, indices, requests, trace, pass, k, i); }
    }
    forall i: nat | i >= |requests'| ensures On(trace + more, i) == [] {
      Append(trace, more, k, i);
      NotStarted(w, s, indices, requests, trace, pass, k, i);
    }
    AllStandFrom(w, s, indices, requests', trace + more, pass, k + 1);
  }

  lemma Fits(w: World, s: Settings, indices: seq<nat>, requests: seq<Request>, trace: seq<Action>, pass: nat, k: nat)
    requires AllStand(w, s, indices, requests, trace, pass, k)
    ensures |requests| <= |indices|
  {
  }

  lemma InactivePassed(w: World, s: Settings, indices: seq<nat>, requests: seq<Request>, trace: seq<Action>, pass: nat,
      k: nat)
    requires k < |requests| && !requests[k].active && AllStand(w, s, indices, requests, trace, pass, k)
    ensures AllStand(w, s, indices, requests, trace, pass, k + 1)
  {
    hide *;
    Fits(w, s, indices, requests, trace, pass, k);
    forall i: nat | i < |requests|
      ensures Stands(w, s, i, indices[i], requests[i], On(trace, i), PassesOf(pass, k + 1, i))
    {
      StandsAt(w, s, indices, requests, trace, pass, k, i);
      PassesAt(pass, k, i);
      if i == k { InactiveStands(w, s, k, indices[k], requests[k], On(trace, k), pass); }
    }
    forall i: nat | i >= |requests|
      ensures On(trace, i) == []
    {
      NotStarted(w, s, indices, requests, trace, pass, k, i);
    }
    AllStandFrom(w, s, indices, requests, trace, pass, k + 1);
  }

  lemma NextPass(w: World, s: Settings, indices: seq<nat>, requests: seq<Request>, trace: seq<Action>, pass: nat)
    requires AllStand(w, s, indices, requests, trace, pass, |requests|)
    ensures AllStand(w, s, indices, requests, trace, pass + 1, 0)
  {
    hide Stands;
    forall i: nat | i < |requests|
      ensures Stands(w, s, i, indices[i], requests[i], On(trace, i), PassesOf(pass + 1, 0, i))
    {
      StandsAt(w, s, indices, requests, trace, pass, |requests|, i);
    }
  }

  predicate AnyActive(requests: seq<Request>, k: nat)
    requires k <= |requests|
  {
    exists i: nat :: i < k && requests[i].active
  }

  /** While something is active, the bound is not reached. */
  lemma SomeActive(w: World, s: Settings, indices: seq<nat>, requests: seq<Request>, trace: seq<Action>, passes: nat)
    requires AllStand(w, s, indices, requests, trace, passes, 0) && AnyActive(requests, |requests|)
    ensures passes <= Bound(s)
  {
    var i: nat :| i < |requests| && requests[i].active;
    StandsAt(w, s, indices, requests, trace, passes, 0, i);
  }

  lemma AllDone(w: World, s: Settings, indices: seq<nat>, requests: seq<Request>, trace: seq<Action>, passes: nat)
    requires AllStand(w, s, indices, requests, trace, passes, 0) && !AnyActive(requests, |requests|)
    ensures |requests| <= |indices|
    ensures forall i: nat :: i < |requests| ==> On(trace, i) == Story(w, s, i, indices[i])
    ensures forall i: nat :: i >= |requests| ==> On(trace, i) == []
  {
    assert forall i: nat | i < |requests| :: !requests[i].active;
    hide *;
    Fits(w, s, indices, requests, trace, passes, 0);
    forall i: nat | i < |requests| ensures On(trace, i) == Story(w, s, i, indices[i]) {
      StandsAt(w, s, indices, requests, trace, passes, 0, i);
      DoneAt(w, s, i, indices[i], requests[i], On(trace, i), PassesOf(passes, 0, i));
    }
    forall i: nat | i >= |requests|
      ensures On(trace, i) == []
    {
      NotStarted(w, s, indices, requests, trace, passes, 0, i);
    }
  }

  lemma DoneAt(w: World, s: Settings, i: nat, index: nat, r: Request, actions: seq<Action>, passes: nat)
    requires !r.active && Stands(w, s, i, index, r, actions, passes)
    ensures actions == Story(w, s, i, index)
  {
  }

  /** The first loop: starts positions until cancellation is seen. */
  method StartAll(w: World, s: Settings, indices: seq<nat>) returns (requests: seq<Request>, trace: seq<Action>)
    ensures AllStand(w, s, indices, requests, trace, 0, 0)
    ensures forall i: nat :: i < |requests| ==> !CancelledBefore(w, i)
    ensures |requests| < |indices| ==> CancelledBefore(w, |requests|)
    ensures Starts(trace) == FirstPositions(|requests|)
  {
    requests, trace := [], [];
    NoneStand(w, s, indices);
    hide *;
    while |requests| < |indices|
      invariant AllStand(w, s, indices, requests, trace, 0, 0)
      invariant forall i: nat :: i < |requests| ==> !CancelledBefore(w, i)
      invariant Starts(trace) == FirstPositions(|requests|)
      decreases |indices| - |requests|
    {
      var i := |requests|;
      if CancelledBefore(w, i) { return; }
      StartStands(w, s, indices, requests, trace);
      OnePositionMore(i);
      var request, more := StartRequest(w, s, i, indices[i]);
      requests, trace := requests + [request], trace + more;
    }
  }

  lemma NoneStand(w: World, s: Settings, indices: seq<nat>)
    ensures AllStand(w, s, indices, [], [], 0, 0) && Starts([]) == FirstPositions(0)
  {
  }

  lemma OnePositionMore(n: nat)
    ensures FirstPositions(n + 1) == FirstPositions(n) + [n]
  {
  }

  /** One position of the first loop: started, and captured at once when it is not left pending. */
  method StartRequest(w: World, s: Settings, i: nat, index: nat) returns (request: Request, more: seq<Action>)
    ensures request == Started(w, s, i, index) && more == StartActions(w, s, i, index)
  {
    hide StartOf, BeganOf;
    var began := BeganOf(w, i);
    var rc := StartOf(w, i);
    more := [Start(i, index)];
    request := Request(index, began + s.timeoutMs, rc == s.pending);
    if rc != s.pending { more := more + [Capture(i, index, rc, began)]; }
    assert more == StartActions(w, s, i, index);
  }

  /** One request in one pass of the second loop. */
  method PollRequest(w: World, s: Settings, pass: nat, i: nat, request: Request, cancel: bool)
    returns (active: bool, more: seq<Action>)
    requires cancel == CancelledIn(w, pass) && request.deadline == BeganOf(w, i) + s.timeoutMs
    ensures (active, more) == Polled(w, s, pass, i, request.index)
  {
    hide StatusOf, ClockOf, BeganOf, CancelledIn;
    more := [];
    var rc := StatusOf(w, pass, i);
    if rc == s.pending && (cancel || ClockOf(w, pass, i) >= request.deadline) {
      more := more + [Abort(i, request.index)];
      rc := s.timeout;
    }
    if rc == s.pending {
      assert more == Polled(w, s, pass, i, request.index).1;
      return true, more;
    }
    more := more + [Capture(i, request.index, rc, request.deadline - s.timeoutMs)];
    active := false;
    assert more == Polled(w, s, pass, i, request.index).1;
  }

  lemma Deadlines(w: World, s: Settings, indices: seq<nat>, requests: seq<Request>, trace: seq<Action>, pass: nat,
      k: nat)
    requires AllStand(w, s, indices, requests, trace, pass, k) && k < |requests|
    ensures k < |indices| && requests[k].index == indices[k] && requests[k].deadline == BeganOf(w, k) + s.timeoutMs
  {
    StandsAt(w, s, indices, requests, trace, pass, k, k);
  }

  lemma ActivityOf(before: seq<Request>, after: seq<Request>, k: nat)
    requires k < |before| == |after| && after == before[k := after[k]]
    ensures AnyActive(after, k + 1) <==> AnyActive(before, k) || after[k].active
  {
    assert forall i: nat | i < k :: after[i] == before[i];
  }

  lemma NoneActive(requests: seq<Request>)
    ensures !AnyActive(requests, 0)
  {
  }

  /** One pass of the second loop. */
  method PollAll(w: World, s: Settings, indices: seq<nat>, before: seq<Request>, earlier: seq<Action>, pass: nat)
    returns (requests: seq<Request>, trace: seq<Action>, active: bool)
    requires s.timeout != s.pending && Advancing(w) && AllStand(w, s, indices, before, earlier, pass, 0)
    ensures |requests| == |before| && AllStand(w, s, indices, requests, trace, pass, |requests|)
    ensures Starts(trace) == Starts(earlier)
    ensures active <==> AnyActive(requests, |requests|)
  {
    requests, trace, active := before, earlier, false;
    hide *;
    NoneActive(requests);
    var cancel := CancelledIn(w, pass);
    for k := 0 to |before|
      invariant |requests| == |before| && AllStand(w, s, indices, requests, trace, pass, k)
      invariant Starts(trace) == Starts(earlier)
      invariant active <==> AnyActive(requests, k)
    {
      Deadlines(w, s, indices, requests, trace, pass, k);
      if requests[k].active {
        ActivePolled(w, s, indices, requests, trace, pass, k);
        var still, more := PollRequest(w, s, pass, k, requests[k], cancel);
        ActivityOf(requests, requests[k := requests[k].(active := still)], k);
        requests, trace := requests[k := requests[k].(active := still)], trace + more;
        if still { active := true; }
      } else {
        ActivityOf(requests, requests, k);
        InactivePassed(w, s, indices, requests, trace, pass, k);
      }
    }
  }

  /** Starts what it can, then polls until nothing is active. The started positions are a prefix, and each has its whole
      story in the trace: captured exactly once, with its own start instant. */
  method AsyncPollBatch(w: World, s: Settings, indices: seq<nat>)
      returns (started: nat, trace: seq<Action>, passes: nat)
    requires s.timeout != s.pending && Advancing(w)
    ensures started <= |indices| && (started < |indices| ==> CancelledBefore(w, started))
    ensures forall i: nat :: i < started ==> !CancelledBefore(w, i)
    ensures Starts(trace) == FirstPositions(started)
    ensures forall i: nat :: i < started ==> On(trace, i) == Story(w, s, i, indices[i])
    ensures forall i: nat :: i >= started ==> On(trace, i) == []
    ensures 1 <= passes <= Bound(s) + 1
  {
    var requests;
    requests, trace := StartAll(w, s, indices);
    started := |requests|;
    var active;
    hide *;
    requests, trace, active := PollAll(w, s, indices, requests, trace, 0);
    NextPass(w, s, indices, requests, trace, 0);
    passes := 1;
    while active
      invariant |requests| == started && AllStand(w, s, indices, requests, trace, passes, 0)
      invariant Starts(trace) == FirstPositions(started)
      invariant active <==> AnyActive(requests, |requests|)
      invariant 1 <= passes <= Bound(s) + 1
      decreases Bound(s) + 1 - passes
    {
      SomeActive(w, s, indices, requests, trace, passes);
      requests, trace, active := PollAll(w, s, indices, requests, trace, passes);
      NextPass(w, s, indices, requests, trace, passes);
      passes := passes + 1;
    }
    AllDone(w, s, indices, requests, trace, passes);
  }

  // ---------------------------------------------------------------- when the loop ends

  /** Whether a position is still active after this many passes, for any settings. */
  predicate ActiveAfter(w: World, s: Settings, i: nat, passes: nat) {
    if passes == 0 then StartOf(w, i) == s.pending
    else ActiveAfter(w, s, i, passes - 1) && Polled(w, s, passes - 1, i, 0).0
  }

  ghost predicate DoneSometime(w: World, s: Settings, i: nat) { exists passes: nat :: !ActiveAfter(w, s, i, passes) }

  lemma {:induction false} ActiveMeansPolled(w: World, s: Settings, i: nat, passes: nat, pass: nat)
    requires pass < passes
    ensures ActiveAfter(w, s, i, passes) ==> Polled(w, s, pass, i, 0).0
  {
    hide Polled;
    if pass < passes - 1 { ActiveMeansPolled(w, s, i, passes - 1, pass); }
  }

  lemma {:induction false} NeverEnds(w: World, s: Settings, i: nat, passes: nat)
    requires s.timeout == s.pending && StartOf(w, i) == s.pending && forall p: nat :: StatusOf(w, p, i) == s.pending
    ensures ActiveAfter(w, s, i, passes)
  {
    if passes > 0 { NeverEnds(w, s, i, passes - 1); }
  }

  /** The timeout result must differ from the pending one, and nothing else is needed: otherwise a driver that stays
      pending is aborted again in every pass and the loop does not end. */
  lemma EndsExactlyWhen(s: Settings)
    ensures (forall w, i: nat :: Advancing(w) ==> DoneSometime(w, s, i)) <==> s.timeout != s.pending
  {
    if s.timeout != s.pending {
      forall w, i: nat | Advancing(w) ensures DoneSometime(w, s, i) {
        FirstEndIsFirst(w, s, 0, i);
        var end := FirstEnd(w, s, 0, i);
        ActiveMeansPolled(w, s, i, end + 1, end);
        assert !Polled(w, s, end, i, 0).0;
      }
    } else {
      var w := World(i => s.pending, i => 0, i => false, i => false,
                     (pass: nat, i: nat) => s.pending, (pass: nat, i: nat) => pass);
      assert Advancing(w);
      forall passes: nat ensures ActiveAfter(w, s, 0, passes) { NeverEnds(w, s, 0, passes); }
      assert !DoneSometime(w, s, 0);
    }
  }
}
