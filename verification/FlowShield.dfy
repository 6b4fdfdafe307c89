/** Safety without forging edges. The messages of one group stay together in the queues, so a forged release that
    cannot take effect behind the messages sent before it never does: the node is too far when it arrives.

    The invariant follows each node through everything queued, in the order of processing, and keeps a lower bound of
    how far it will be.
 */
module FlowShield {
  import opened FlowEngine
  import opened FlowPorts
  import Hops = FlowHops
  import Rates = FlowRates
  import Timers = FlowTimers

  /** No forged release among these can take effect at k, which is at `lead` or further when they come; an own release
      may take it back to 0. */
  ghost predicate Shielded(d: Deployment, k: Key, lead: nat, xs: seq<Queued>)
    decreases |xs|
  {
    xs == []
    || if xs[0].to != k || Delivered(d, xs[0]).None? then Shielded(d, k, lead, xs[1..])
       else
         var x, kind := xs[0], Delivered(d, xs[0]).value;
         if !Aimed(kind, x.port) then Shielded(d, k, Step(kind, x.event, lead), xs[1..])
         else if x.stamp.Some? then Shielded(d, k, 0, xs[1..])
         else !TakesEffect(kind, x.port, lead) && Shielded(d, k, lead, xs[1..])
  }

  // ---------------------------------------------------------------- sequences of events

  lemma {:induction false} FurtherOn(d: Deployment, k: Key, lead: nat, further: nat, xs: seq<Queued>)
    requires Shielded(d, k, lead, xs) && lead <= further
    ensures Shielded(d, k, further, xs)
    decreases |xs|
  {
    if xs != [] {
      hide Delivered;
      if xs[0].to != k || Delivered(d, xs[0]).None? {
        FurtherOn(d, k, lead, further, xs[1..]);
      } else {
        var x, kind := xs[0], Delivered(d, xs[0]).value;
        if !Aimed(kind, x.port) {
          FurtherOn(d, k, Step(kind, x.event, lead), Step(kind, x.event, further), xs[1..]);
        } else if x.stamp.None? {
          FurtherOn(d, k, lead, further, xs[1..]);
        }
      }
    }
  }

  lemma {:induction false} ShieldedBoth(d: Deployment, k: Key, lead: nat, xs: seq<Queued>, ys: seq<Queued>)
    requires Shielded(d, k, lead, xs) && Shielded(d, k, 0, ys)
    ensures Shielded(d, k, lead, xs + ys)
    decreases |xs|
  {
    hide Delivered;
    if xs == [] {
      assert xs + ys == ys;
      FurtherOn(d, k, 0, lead, ys);
    } else {
      var x := xs[0];
      assert (xs + ys)[1..] == xs[1..] + ys && (xs + ys)[0] == x;
      if x.to != k || Delivered(d, x).None? {
        ShieldedBoth(d, k, lead, xs[1..], ys);
      } else {
        var kind := Delivered(d, x).value;
        ShieldedBoth(d, k,
          if !Aimed(kind, x.port) then Step(kind, x.event, lead) else if x.stamp.Some? then 0 else lead, xs[1..], ys);
      }
    }
  }

  lemma {:induction false} ShieldedPrefix(d: Deployment, k: Key, lead: nat, xs: seq<Queued>, ys: seq<Queued>)
    requires Shielded(d, k, lead, xs + ys)
    ensures Shielded(d, k, lead, xs)
    decreases |xs|
  {
    hide Delivered;
    if xs != [] {
      var x := xs[0];
      assert (xs + ys)[1..] == xs[1..] + ys && (xs + ys)[0] == x;
      if x.to != k || Delivered(d, x).None? {
        ShieldedPrefix(d, k, lead, xs[1..], ys);
      } else {
        var kind := Delivered(d, x).value;
        ShieldedPrefix(d, k,
          if !Aimed(kind, x.port) then Step(kind, x.event, lead) else if x.stamp.Some? then 0 else lead, xs[1..], ys);
      }
    }
  }

  // ---------------------------------------------------------------- what is sent is shielded

  lemma {:induction false} NothingArrives(d: Deployment, k: Key, lead: nat, xs: seq<Queued>)
    requires forall x | x in xs && x.to == k :: Delivered(d, x).None?
    ensures Shielded(d, k, lead, xs)
    decreases |xs|
  {
    if xs != [] {
      assert xs[0] in xs;
      NothingArrives(d, k, lead, xs[1..]);
    }
  }

  lemma {:induction false} OrdinaryBoth(a: seq<FlowEdge>, b: seq<FlowEdge>, to: string, kind: Kind)
    ensures Ordinary(a + b, to, kind) == Ordinary(a, to, kind) + Ordinary(b, to, kind)
  {
    if a == [] {
      assert a + b == b;
    } else {
      assert (a + b)[1..] == a[1..] + b;
      OrdinaryBoth(a[1..], b, to, kind);
    }
  }

  lemma OrdinaryNext(es: seq<FlowEdge>, j: nat, to: string, kind: Kind)
    requires j < |es|
    ensures Ordinary(es[..j + 1], to, kind) ==
      Ordinary(es[..j], to, kind) + (if es[j].to == to && !Aimed(kind, es[j].toPort) then 1 else 0)
  {
    assert es[..j + 1] == es[..j] + [es[j]];
    OrdinaryBoth(es[..j], [es[j]], to, kind);
  }

  lemma LeadNext(kind: Kind, event: Event, n: nat)
    ensures Lead(kind, event, n + 1) == Step(kind, event, Lead(kind, event, n))
  {
  }

  /** Message j of a group. */
  lemma AlongFrom(q: Queued, es: seq<FlowEdge>, j: nat, event: Event)
    requires j < |es|
    ensures Along(q, es[j..], event) == [Message(q, es[j], event)] + Along(q, es[j + 1..], event)
  {
    assert es[j..][1..] == es[j + 1..];
  }

  /** The messages of a group come to the same node, all or none. */
  lemma AllOrNone(d: Deployment, q: Queued, k: Key, event: Event, e: FlowEdge)
    requires Key(q.to.flow, e.to) == k
    ensures Delivered(d, Message(q, e, event)) == DeliveredAt(d, q, k)
  {
  }

  function DeliveredAt(d: Deployment, q: Queued, k: Key): Option<Kind> {
    Delivered(d, Queued(k, q.event, q.hops + 1, User(""), q.epoch, None))
  }

  /** The rest of a group, behind its first j messages. */
  lemma {:induction false} RestShielded(d: Deployment, q: Queued, es: seq<FlowEdge>, event: Event, k: Key, kind: Kind,
      j: nat)
    requires j <= |es| && q.to.flow == k.flow && DeliveredAt(d, q, k) == Some(kind)
    requires forall m: nat | m < |es| && es[m].to == k.node :: !Strikes(d, k.flow, es, m, event)
    ensures Shielded(d, k, Lead(kind, event, Ordinary(es[..j], k.node, kind)), Along(q, es[j..], event))
    decreases |es| - j
  {
    if j == |es| {
      assert es[j..] == [];
    } else {
      var x, n := Message(q, es[j], event), Ordinary(es[..j], k.node, kind);
      RestShielded(d, q, es, event, k, kind, j + 1);
      OrdinaryNext(es, j, k.node, kind);
      AlongFrom(q, es, j, event);
      assert ([x] + Along(q, es[j + 1..], event))[1..] == Along(q, es[j + 1..], event);
      if es[j].to == k.node {
        AllOrNone(d, q, k, event, es[j]);
        LeadNext(kind, event, n);
        if Aimed(kind, es[j].toPort) { NoStrike(d, q, es, event, k, kind, j); }
      }
      hide Along, Delivered, Lead, Step, Aimed, Ordinary, TakesEffect, Strikes;
    }
  }

  lemma NoStrike(d: Deployment, q: Queued, es: seq<FlowEdge>, event: Event, k: Key, kind: Kind, j: nat)
    requires q.to.flow == k.flow && DeliveredAt(d, q, k) == Some(kind)
    requires j < |es| && es[j].to == k.node && Aimed(kind, es[j].toPort) && !Strikes(d, k.flow, es, j, event)
    ensures !TakesEffect(kind, es[j].toPort, Lead(kind, event, Ordinary(es[..j], k.node, kind)))
  {
  }

  /** A group that no release in it can forge. */
  lemma GroupShielded(d: Deployment, q: Queued, es: seq<FlowEdge>, event: Event, k: Key)
    requires Sends(d, q.to, es, event) && NoneInto(d, k)
    ensures Shielded(d, k, 0, Along(q, es, event))
  {
    var kind := DeliveredAt(d, q, k);
    if q.to.flow == k.flow && kind.Some? {
      forall m: nat | m < |es| && es[m].to == k.node ensures !Strikes(d, k.flow, es, m, event) {
        assert !Forges(d, Key(k.flow, q.to.node), es, m, event);
      }
      hide Delivered, Strikes, NoneInto, Along, Sends;
      RestShielded(d, q, es, event, k, kind.value, 0);
      assert es[..0] == [] && es[0..] == es;
    } else {
      AlongIs(q, es, event);
      hide Along, Sends;
      forall x | x in Along(q, es, event) && x.to == k ensures Delivered(d, x).None? {
        var j: nat :| j < |es| && x == Message(q, es[j], event);
        AllOrNone(d, q, k, event, es[j]);
      }
      NothingArrives(d, k, 0, Along(q, es, event));
    }
  }

  lemma {:induction false} MessagesShielded(d: Deployment, q: Queued, groups: seq<Group>, k: Key)
    requires AllSent(d, q.to, groups) && NoneInto(d, k)
    ensures Shielded(d, k, 0, Messages(q, groups))
  {
    if groups != [] {
      assert groups[0] in groups;
      hide Sends, NoneInto, Along, Shielded;
      GroupShielded(d, q, groups[0].es, groups[0].event, k);
      MessagesShielded(d, q, groups[1..], k);
      ShieldedBoth(d, k, 0, Along(q, groups[0].es, groups[0].event), Messages(q, groups[1..]));
    } else {
      assert Messages(q, groups) == [];
    }
  }

  // ---------------------------------------------------------------- the delayed queue

  function Later(delayed: seq<Timed>, now: int): seq<Timed> { delayed[DueCount(delayed, now)..] }

  ghost predicate Sorted(delayed: seq<Timed>) {
    forall i, j | 0 <= i < j < |delayed| :: delayed[i].due <= delayed[j].due
  }

  /** Every part of the delayed queue that can be left is shielded by itself. */
  ghost predicate DelayedShielded(d: Deployment, k: Key, delayed: seq<Timed>) {
    && Sorted(delayed) && Shielded(d, k, 0, Items(delayed))
    && forall now :: Shielded(d, k, 0, Items(Later(delayed, now)))
  }

  lemma {:induction false} CountHas(delayed: seq<Timed>, now: int)
    ensures
      var n := DueCount(delayed, now);
      (forall i | 0 <= i < n :: delayed[i].due <= now) && (n < |delayed| ==> delayed[n].due > now)
  {
    if delayed != [] && delayed[0].due <= now { CountHas(delayed[1..], now); }
  }

  lemma {:induction false} CountIs(delayed: seq<Timed>, now: int, n: nat)
    requires n <= |delayed| && (forall i | 0 <= i < n :: delayed[i].due <= now)
    requires n < |delayed| ==> delayed[n].due > now
    ensures DueCount(delayed, now) == n
  {
    if n > 0 { CountIs(delayed[1..], now, n - 1); }
  }

  function AllDue(items: seq<Queued>, due: int): (r: seq<Timed>)
    ensures |r| == |items| && forall j | 0 <= j < |r| :: r[j] == Timed(due, items[j])
  {
    if items == [] then [] else [Timed(due, items[0])] + AllDue(items[1..], due)
  }

  lemma {:induction false} AllDueItems(items: seq<Queued>, due: int)
    ensures Items(AllDue(items, due)) == items
  {
    if items != [] {
      AllDueItems(items[1..], due);
      assert AllDue(items, due)[1..] == AllDue(items[1..], due);
    }
  }

  /** These items, together, behind what is due no later. */
  function Put(delayed: seq<Timed>, items: seq<Queued>, due: int): seq<Timed> {
    var n := DueCount(delayed, due);
    delayed[..n] + AllDue(items, due) + delayed[n..]
  }

  lemma {:induction false} InsertIsPut(delayed: seq<Timed>, t: Timed)
    ensures Insert(delayed, t) == Put(delayed, [t.item], t.due)
  {
    assert AllDue([t.item], t.due) == [t];
    if delayed == [] || t.due < delayed[0].due {
      assert Put(delayed, [t.item], t.due) == [t] + delayed;
    } else {
      InsertIsPut(delayed[1..], t);
      var n := DueCount(delayed[1..], t.due);
      assert delayed[1..][..n] == delayed[1..n + 1] && delayed[1..][n..] == delayed[n + 1..];
      assert [delayed[0]] + delayed[1..n + 1] == delayed[..n + 1];
    }
  }

  lemma PutOne(delayed: seq<Timed>, x: Queued, items: seq<Queued>, due: int)
    ensures Put(Put(delayed, [x], due), items, due) == Put(delayed, [x] + items, due)
  {
    var n := DueCount(delayed, due);
    var a, b, t := delayed[..n], delayed[n..], [Timed(due, x)];
    CountHas(delayed, due);
    assert AllDue([x], due) == t && AllDue([x] + items, due) == t + AllDue(items, due);
    CountIs(a + t + b, due, n + 1);
    hide DueCount, AllDue;
    Regroup(a, t, AllDue(items, due), b);
  }

  lemma Regroup<T>(a: seq<T>, t: seq<T>, y: seq<T>, b: seq<T>)
    ensures var n := |a + t|; (a + t + b)[..n] + y + (a + t + b)[n..] == a + (t + y) + b
  {
    var n := |a + t|;
    assert (a + t + b)[..n] == a + t && (a + t + b)[n..] == b;
  }

  /** What delay_each puts there: as many of the messages as there is room for, together. */
  lemma {:induction false} DelayAllIsPut(d: Deployment, delayed: seq<Timed>, items: seq<Queued>, due: int)
    returns (n: nat)
    ensures n <= |items| && n <= d.limit && DelayAll(d, delayed, items, due) == Put(delayed, items[..n], due)
    ensures |delayed| >= d.limit ==> n == 0
    ensures |delayed| < d.limit ==> n == if |items| <= d.limit - |delayed| then |items| else d.limit - |delayed|
    decreases |items|
  {
    n := 0;
    if items == [] || |delayed| >= d.limit {
      assert items[..0] == [] && Put(delayed, [], due) == delayed;
    } else {
      var t := Timed(due, items[0]);
      InsertIsPut(delayed, t);
      n := DelayAllIsPut(d, Insert(delayed, t), items[1..], due);
      PutOne(delayed, items[0], items[1..][..n], due);
      n := n + 1;
      assert items[..n] == [items[0]] + items[1..][..n - 1];
    }
  }

  /** What is due by then is passed over. */
  lemma {:induction false} LaterOver(a: seq<Timed>, b: seq<Timed>, now: int)
    requires forall t | t in a :: t.due <= now
    ensures Later(a + b, now) == Later(b, now)
    decreases |a|
  {
    hide *;
    if a == [] {
      assert a + b == b;
    } else {
      assert a[0] in a && (a + b)[0] == a[0] && (a + b)[1..] == a[1..] + b;
      OneLater(a + b, now);
      LaterOver(a[1..], b, now);
    }
  }

  lemma OneLater(delayed: seq<Timed>, now: int)
    ensures
      Later(delayed, now) ==
        if delayed != [] && delayed[0].due <= now then Later(delayed[1..], now) else delayed
  {
    if delayed != [] && delayed[0].due <= now {
      assert delayed[1..][DueCount(delayed[1..], now)..] == delayed[DueCount(delayed[1..], now) + 1..];
    }
  }

  /** What is due later stays, with what stood before it. */
  lemma {:induction false} LaterKeeps(a: seq<Timed>, g: seq<Timed>, b: seq<Timed>, now: int) returns (x: seq<Timed>)
    requires g != [] && g[0].due > now && (b == [] || b[0].due > now)
    ensures Later(a + b, now) == x + b && Later(a + g + b, now) == x + g + b
    decreases |a|
  {
    hide *;
    OneLater(a + b, now);
    OneLater(a + g + b, now);
    if a == [] {
      x := [];
      assert a + b == x + b && a + g + b == x + g + b && (g + b)[0] == g[0];
    } else if a[0].due <= now {
      x := LaterKeeps(a[1..], g, b, now);
      assert (a + b)[1..] == a[1..] + b && (a + g + b)[1..] == a[1..] + g + b;
    } else {
      x := a;
    }
  }

  /** The place where a put divides the queue. */
  lemma PutParts(delayed: seq<Timed>, items: seq<Queued>, due: int)
    ensures
      var n := DueCount(delayed, due);
      var a, g, b := delayed[..n], AllDue(items, due), delayed[n..];
      && a + b == delayed && Put(delayed, items, due) == a + g + b && b == Later(delayed, due)
      && (forall t | t in a + g :: t.due <= due) && (b == [] || b[0].due > due)
      && (items != [] ==> g != [] && g[0].due == due)
  {
    CountHas(delayed, due);
    hide DueCount;
  }

  lemma SortedPut(delayed: seq<Timed>, items: seq<Queued>, due: int)
    requires Sorted(delayed)
    ensures Sorted(Put(delayed, items, due))
  {
    CountHas(delayed, due);
    hide DueCount;
  }

  lemma PutShielded(d: Deployment, k: Key, delayed: seq<Timed>, items: seq<Queued>, due: int)
    requires DelayedShielded(d, k, delayed) && Shielded(d, k, 0, items)
    ensures DelayedShielded(d, k, Put(delayed, items, due))
  {
    var n, put := DueCount(delayed, due), Put(delayed, items, due);
    var a, g, b := delayed[..n], AllDue(items, due), delayed[n..];
    PutParts(delayed, items, due);
    SortedPut(delayed, items, due);
    hide Shielded, Items, Put, DueCount, Sorted, Later, AllDue;
    assert Shielded(d, k, 0, Items(a + b)) && Shielded(d, k, 0, Items(b));
    MiddleShielded(d, k, a, b, items, due);
    forall now ensures Shielded(d, k, 0, Items(Later(put, now))) {
      assert Shielded(d, k, 0, Items(Later(delayed, now)));
      LaterShielded(d, k, a, b, items, due, now);
    }
  }

  lemma LaterShielded(d: Deployment, k: Key, a: seq<Timed>, b: seq<Timed>, items: seq<Queued>, due: int, now: int)
    requires (forall t | t in a + AllDue(items, due) :: t.due <= due) && (b == [] || b[0].due > due)
    requires items != [] ==> AllDue(items, due) != [] && AllDue(items, due)[0].due == due
    requires Shielded(d, k, 0, Items(Later(a + b, now))) && Shielded(d, k, 0, Items(b)) && Shielded(d, k, 0, items)
    ensures Shielded(d, k, 0, Items(Later(a + AllDue(items, due) + b, now)))
  {
    hide *;
    var g := AllDue(items, due);
    if due <= now {
      forall t | t in a ensures t.due <= now { assert t in a + g; }
      LaterOver(a, b, now);
      LaterOver(a + g, b, now);
    } else if items != [] {
      var x := LaterKeeps(a, g, b, now);
      MiddleShielded(d, k, x, b, items, due);
    } else {
      NoneDue(due);
      assert a + [] == a;
    }
  }

  lemma NoneDue(due: int)
    ensures AllDue([], due) == []
  {
  }

  lemma MiddleShielded(d: Deployment, k: Key, a: seq<Timed>, b: seq<Timed>, items: seq<Queued>, due: int)
    requires Shielded(d, k, 0, Items(a + b)) && Shielded(d, k, 0, Items(b)) && Shielded(d, k, 0, items)
    ensures Shielded(d, k, 0, Items(a + AllDue(items, due) + b))
  {
    hide Shielded;
    Timers.ItemsBoth(a, b);
    Timers.ItemsBoth(a + AllDue(items, due), b);
    Timers.ItemsBoth(a, AllDue(items, due));
    AllDueItems(items, due);
    hide Items, AllDue;
    ShieldedPrefix(d, k, 0, Items(a), Items(b));
    ShieldedBoth(d, k, 0, Items(a), items);
    ShieldedBoth(d, k, 0, Items(a) + items, Items(b));
  }

  lemma {:induction false} RemovedShielded(d: Deployment, k: Key, lead: nat, delayed: seq<Timed>, own: Key)
    requires Shielded(d, k, lead, Items(delayed)) && IsTrigger(d, own)
    ensures Shielded(d, k, lead, Items(WithoutTimer(delayed, own)))
    decreases |delayed|
  {
    if delayed != [] {
      var x, rest := delayed[0].item, WithoutTimer(delayed[1..], own);
      assert ([delayed[0]] + rest)[1..] == rest;
      assert Items(delayed) == [x] + Items(delayed[1..]) && Items(delayed)[1..] == Items(delayed[1..]);
      Hops.DeliveredKind(d, x);
      hide Delivered;
      if x.to != k || Delivered(d, x).None? {
        RemovedShielded(d, k, lead, delayed[1..], own);
      } else {
        var kind := Delivered(d, x).value;
        var next := if !Aimed(kind, x.port) then Step(kind, x.event, lead) else if x.stamp.Some? then 0 else lead;
        RemovedShielded(d, k, next, delayed[1..], own);
        if IsTriggerRelease(x, own) { FurtherOn(d, k, next, lead, Items(rest)); }
      }
    }
  }

  lemma {:induction false} LaterRemoved(delayed: seq<Timed>, own: Key, now: int)
    requires Sorted(delayed)
    ensures Later(WithoutTimer(delayed, own), now) == WithoutTimer(Later(delayed, now), own)
    decreases |delayed|
  {
    if delayed != [] {
      assert Sorted(delayed[1..]);
      if delayed[0].due <= now {
        LaterRemoved(delayed[1..], own, now);
        var rest := WithoutTimer(delayed[1..], own);
        assert Later(delayed, now) == Later(delayed[1..], now);
        assert ([delayed[0]] + rest)[1..] == rest;
        assert Later([delayed[0]] + rest, now) == Later(rest, now);
      } else {
        Rates.WithoutTimerCount(own, delayed, own);
        var rest := WithoutTimer(delayed, own);
        assert rest != [] ==> rest[0] in delayed;
        assert Later(rest, now) == rest;
      }
    }
  }

  lemma {:induction false} SortedRemoved(delayed: seq<Timed>, own: Key)
    requires Sorted(delayed)
    ensures Sorted(WithoutTimer(delayed, own))
    decreases |delayed|
  {
    if delayed != [] {
      SortedRemoved(delayed[1..], own);
      Rates.WithoutTimerCount(own, delayed[1..], own);
      var rest := WithoutTimer(delayed[1..], own);
      forall i | 0 <= i < |rest| ensures delayed[0].due <= rest[i].due {
        assert rest[i] in delayed[1..];
      }
      hide Items, Rates.Count;
    }
  }

  lemma RemoveShielded(d: Deployment, k: Key, delayed: seq<Timed>, own: Key)
    requires DelayedShielded(d, k, delayed) && IsTrigger(d, own)
    ensures DelayedShielded(d, k, WithoutTimer(delayed, own))
  {
    hide Shielded, Items, Later, WithoutTimer, Sorted;
    RemovedShielded(d, k, 0, delayed, own);
    SortedRemoved(delayed, own);
    forall now ensures Shielded(d, k, 0, Items(Later(WithoutTimer(delayed, own), now))) {
      LaterRemoved(delayed, own, now);
      RemovedShielded(d, k, 0, Later(delayed, now), own);
    }
  }

  lemma LaterTwice(delayed: seq<Timed>, now: int, then': int)
    ensures Later(Later(delayed, now), then') == Later(delayed, if then' <= now then now else then')
  {
    CountHas(delayed, now);
    CountHas(delayed, then');
    var n, m, rest := DueCount(delayed, now), DueCount(delayed, then'), Later(delayed, now);
    hide DueCount;
    if then' <= now {
      CountIs(rest, then', 0);
    } else {
      CountIs(rest, then', m - n);
    }
  }

  lemma PullShielded(d: Deployment, k: Key, delayed: seq<Timed>, now: int)
    requires DelayedShielded(d, k, delayed)
    ensures DelayedShielded(d, k, Later(delayed, now))
    ensures Shielded(d, k, 0, Items(delayed[..DueCount(delayed, now)]))
  {
    var n := DueCount(delayed, now);
    assert delayed == delayed[..n] + delayed[n..];
    Timers.ItemsBoth(delayed[..n], delayed[n..]);
    hide Shielded, Items;
    ShieldedPrefix(d, k, 0, Items(delayed[..n]), Items(delayed[n..]));
    assert Sorted(Later(delayed, now));
    forall t ensures Shielded(d, k, 0, Items(Later(Later(delayed, now), t))) { LaterTwice(delayed, now, t); }
  }

  // ---------------------------------------------------------------- how far a node is

  /** A trigger's generation, and whether a rate limiter has accepted anything. */
  function Level(d: Deployment, s: State, k: Key): nat {
    if IsTrigger(d, k) then s.Generation(k)
    else if IsRateLimit(d, k) && Rates.LastAccepted(s.log, k).Some? then 1
    else 0
  }

  ghost predicate NodeShielded(d: Deployment, s: State, k: Key) {
    Shielded(d, k, Level(d, s, k), s.batch + s.queue) && DelayedShielded(d, k, s.delayed)
  }

  lemma LevelElsewhere(d: Deployment, s: State, q: Queued, i: Input, k: Key)
    requires q.to != k || Delivered(d, q).None?
    ensures Level(d, Process(d, s, q, i), k) == Level(d, s, k)
  {
    var p := Process(d, s, q, i);
    var records := Records(d, s, q, i);
    NodeStep(d, s, q, i, k);
    hide Process, Delivered, KindAt;
    AcceptedElsewhere(s.log, records, k);
  }

  lemma AcceptedElsewhere(log: seq<Record>, records: seq<Record>, k: Key)
    requires |records| <= 2 && forall r | r in records :: r.Accepted? ==> r.key != k
    ensures Rates.LastAccepted(log + records, k) == Rates.LastAccepted(log, k)
  {
    if |records| == 0 {
      assert log + records == log;
    } else {
      assert records[0] in records;
      Rates.LastAcceptedOne(log, records[0], k);
      if |records| == 1 {
        assert log + records == log + [records[0]];
      } else {
        assert records[1] in records;
        Rates.LastAcceptedOne(log + [records[0]], records[1], k);
        assert log + records == log + [records[0]] + [records[1]];
      }
    }
  }

  /** What processing records. */
  lemma Records(d: Deployment, s: State, q: Queued, i: Input) returns (records: seq<Record>)
    ensures |records| <= 2 && Process(d, s, q, i).log == s.log + records
    ensures forall r | r in records :: r.key == q.to && Delivered(d, q).Some?
    ensures forall r | r in records && r.Accepted? :: Delivered(d, q).value.RateLimit? && !q.port.RateRelease?
  {
    var kind, rate, g := Delivered(d, q), s.RateOf(q.to), s.Generation(q.to);
    assert s.log + [] == s.log;
    records := [];
    if kind.Some? && kind.value.RateLimit? {
      records :=
        if q.port.RateRelease? then [Emitted(q.to, i.now, rate.latest)]
        else if !q.event.writable then []
        else if !rate.scheduled && i.now >= rate.nextAllowed then
          [Accepted(q.to, q.event), Emitted(q.to, i.now, q.event)]
        else [Accepted(q.to, q.event)];
    } else if kind.Some? && kind.value.Trigger? {
      records :=
        if q.port.TriggerRelease? then (if g == q.port.generation then [Fired(q.to, q.stamp)] else [])
        else if !q.event.writable then []
        else if kind.value.resetValue == Some(q.event.value) then [Reset(q.to)]
        else if kind.value.extend || g == 0 then [Started(q.to, s.starts)]
        else [];
    }
    hide Delivered, Along, Output, DelayAll, Insert, ReplaceTimer, Edges;
  }

  /** An event at the node itself takes it as far as the step says, and a forged release without effect leaves it. */
  lemma LevelHere(d: Deployment, s: State, q: Queued, i: Input)
    requires Delivered(d, q).Some? && NodeKnown(d, s, q.to)
    ensures
      var kind, level, level' := Delivered(d, q).value, Level(d, s, q.to), Level(d, Process(d, s, q, i), q.to);
      && (!Aimed(kind, q.port) ==> level' >= Step(kind, q.event, level))
      && (Aimed(kind, q.port) && !TakesEffect(kind, q.port, level) ==> level' >= level)
  {
    var kind := Delivered(d, q).value;
    Hops.DeliveredKind(d, q);
    if kind.Trigger? {
      TriggerLevel(d, s, q, i);
    } else if kind.RateLimit? {
      RateLevel(d, s, q, i);
    }
    hide Process, Delivered, KindAt, KeyOk;
  }

  lemma TriggerLevel(d: Deployment, s: State, q: Queued, i: Input)
    requires Delivered(d, q).Some? && Delivered(d, q).value.Trigger?
    ensures
      var kind, g, g' := Delivered(d, q).value, s.Generation(q.to), Process(d, s, q, i).Generation(q.to);
      && (!q.port.TriggerRelease? ==> g' == Step(kind, q.event, g))
      && (q.port.TriggerRelease? && q.port.generation != g ==> g' == g)
  {
    hide Delivered, Along, ReplaceTimer, Edges;
  }

  lemma RateLevel(d: Deployment, s: State, q: Queued, i: Input)
    requires Delivered(d, q).Some? && Delivered(d, q).value.RateLimit?
    ensures
      var last, last' := Rates.LastAccepted(s.log, q.to), Rates.LastAccepted(Process(d, s, q, i).log, q.to);
      && (!q.port.RateRelease? && q.event.writable ==> last'.Some?)
      && (q.port.RateRelease? || !q.event.writable ==> last' == last)
  {
    var rate, k := s.RateOf(q.to), q.to;
    RateLog(d, s, q, i);
    hide *;
    AcceptedOnce(s.log, k, q.event, Emitted(k, i.now, q.event));
    Rates.LastAcceptedOne(s.log, Emitted(k, i.now, rate.latest), k);
  }

  lemma AcceptedOnce(log: seq<Record>, k: Key, event: Event, r: Record)
    requires !r.Accepted?
    ensures Rates.LastAccepted(log + [Accepted(k, event)], k).Some?
    ensures Rates.LastAccepted(log + [Accepted(k, event), r], k).Some?
  {
    hide *;
    Rates.LastAcceptedOne(log, Accepted(k, event), k);
    Rates.LastAcceptedOne(log + [Accepted(k, event)], r, k);
    assert log + [Accepted(k, event)] + [r] == log + [Accepted(k, event), r];
  }

  lemma RateLog(d: Deployment, s: State, q: Queued, i: Input)
    requires Delivered(d, q).Some? && Delivered(d, q).value.RateLimit?
    ensures
      var log, rate, k := Process(d, s, q, i).log, s.RateOf(q.to), q.to;
      if q.port.RateRelease? then log == s.log + [Emitted(k, i.now, rate.latest)]
      else if !q.event.writable then log == s.log
      else
        || log == s.log + [Accepted(k, q.event)]
        || log == s.log + [Accepted(k, q.event), Emitted(k, i.now, q.event)]
  {
    hide Delivered, Along, Insert, Edges;
  }

  // ---------------------------------------------------------------- every action keeps it

  lemma FrontLeaves(d: Deployment, s: State, i: Input, k: Key)
    requires s.batch != [] && Shielded(d, k, Level(d, s, k), s.batch + s.queue) && NodeKnown(d, s, k)
    ensures Shielded(d, k, Level(d, Process(d, s, s.batch[0], i), k), s.batch[1..] + s.queue)
  {
    var q, rest := s.batch[0], s.batch[1..] + s.queue;
    var level, level' := Level(d, s, k), Level(d, Process(d, s, s.batch[0], i), k);
    assert (s.batch + s.queue)[0] == q && (s.batch + s.queue)[1..] == rest;
    if q.to != k || Delivered(d, q).None? {
      LevelElsewhere(d, s, q, i, k);
    } else {
      LevelHere(d, s, q, i);
      hide Delivered, Process, Level, NodeKnown;
      var kind := Delivered(d, q).value;
      if !Aimed(kind, q.port) {
        FurtherOn(d, k, Step(kind, q.event, level), level', rest);
      } else if q.stamp.Some? {
        FurtherOn(d, k, 0, level', rest);
      } else {
        FurtherOn(d, k, level, level', rest);
      }
    }
  }

  lemma BatchShielded(d: Deployment, s: State, i: Input, groups: seq<Group>, k: Key)
    requires s.batch != [] && NodeShielded(d, s, k) && NodeKnown(d, s, k) && NoneInto(d, k)
    requires Process(d, s, s.batch[0], i).queue == s.queue + Messages(s.batch[0], groups)
    requires AllSent(d, s.batch[0].to, groups)
    ensures var s' := Turn(d, s, i); Shielded(d, k, Level(d, s', k), s'.batch + s'.queue)
  {
    var s', sent, rest := Turn(d, s, i), Messages(s.batch[0], groups), s.batch[1..] + s.queue;
    FrontLeaves(d, s, i, k);
    MessagesShielded(d, s.batch[0], groups, k);
    assert Level(d, s', k) == Level(d, Process(d, s, s.batch[0], i), k);
    hide Shielded, Process, Level, NoneInto, Messages;
    ShieldedBoth(d, k, Level(d, s', k), rest, sent);
    assert s'.batch + s'.queue == rest + sent;
  }

  lemma OwnShielded(d: Deployment, k: Key, x: Queued)
    requires x.stamp.Some?
    ensures Shielded(d, k, 0, [x])
  {
  }

  lemma QueueShielded(d: Deployment, s: State, q: Queued, i: Input, k: Key)
    requires DelayedShielded(d, k, s.delayed) && NoneInto(d, k) && KeyOk(d, q.to.flow, q.event.key)
    ensures DelayedShielded(d, k, Process(d, s, q, i).delayed)
  {
    var kind := Delivered(d, q);
    hide DelayedShielded, NoneInto, Delivered, Process, KeyOk;
    if kind.Some? {
      match kind.value
      case DelayEach(delay) => MessagesDelayed(d, s, q, i, k);
      case RateLimit(_) => ReleaseDelayed(d, s, q, i, k);
      case Trigger(_, _, _, _, _, _, _) => TimerDelayed(d, s, q, i, k);
      case _ => NothingDelayed(d, s, q, i);
    } else {
      NothingDelayed(d, s, q, i);
    }
  }

  lemma MessagesDelayed(d: Deployment, s: State, q: Queued, i: Input, k: Key)
    requires Delivered(d, q).Some? && Delivered(d, q).value.DelayEach?
    requires DelayedShielded(d, k, s.delayed) && NoneInto(d, k) && KeyOk(d, q.to.flow, q.event.key)
    ensures DelayedShielded(d, k, Process(d, s, q, i).delayed)
  {
    var due := i.now + Delivered(d, q).value.delay;
    DelaysMessages(d, s, q, i);
    if q.event.writable {
      MayDelay(d, q);
      hide *;
      GroupShielded(d, q, FirstOf(Edges(d, q.to), d.limit), q.event, k);
      var n := DelayAllIsPut(d, s.delayed, Along(q, Edges(d, q.to), q.event), due);
      FirstShielded(d, q, Edges(d, q.to), q.event, k, n);
      PutShielded(d, k, s.delayed, Along(q, Edges(d, q.to), q.event)[..n], due);
    }
  }

  lemma DelaysMessages(d: Deployment, s: State, q: Queued, i: Input)
    requires Delivered(d, q).Some? && Delivered(d, q).value.DelayEach?
    ensures Process(d, s, q, i).delayed ==
      if !q.event.writable then s.delayed
      else DelayAll(d, s.delayed, Along(q, Edges(d, q.to), q.event), i.now + Delivered(d, q).value.delay)
  {
    hide Delivered, DelayAll, Along, Edges;
  }

  lemma MayDelay(d: Deployment, q: Queued)
    requires Delivered(d, q).Some? && Delivered(d, q).value.DelayEach? && q.event.writable
    requires KeyOk(d, q.to.flow, q.event.key)
    ensures Sends(d, q.to, FirstOf(Edges(d, q.to), d.limit), q.event)
  {
  }

  /** As many of the messages as fit are a beginning of the group. */
  lemma FirstShielded(d: Deployment, q: Queued, out: seq<FlowEdge>, event: Event, k: Key, n: nat)
    requires n <= |Along(q, out, event)| && n <= d.limit
    requires Shielded(d, k, 0, Along(q, FirstOf(out, d.limit), event))
    ensures Shielded(d, k, 0, Along(q, out, event)[..n])
  {
    var all, m := Along(q, out, event), |FirstOf(out, d.limit)|;
    assert out[..m] == FirstOf(out, d.limit);
    hide *;
    AlongFirst(q, out, m, event);
    AlongIs(q, out, event);
    FirstFits(out, d.limit);
    Beginning(all, n, m);
    ShieldedPrefix(d, k, 0, all[..n], all[n..m]);
  }

  lemma FirstFits(edges: seq<FlowEdge>, n: nat)
    ensures |FirstOf(edges, n)| == if |edges| <= n then |edges| else n
  {
  }

  lemma Beginning<T>(s: seq<T>, n: nat, m: nat)
    requires n <= m <= |s|
    ensures s[..n] + s[n..m] == s[..m]
  {
  }

  lemma ReleaseDelayed(d: Deployment, s: State, q: Queued, i: Input, k: Key)
    requires Delivered(d, q).Some? && Delivered(d, q).value.RateLimit? && DelayedShielded(d, k, s.delayed)
    ensures DelayedShielded(d, k, Process(d, s, q, i).delayed)
  {
    var release := Queued(q.to, q.event, q.hops + 1, RateRelease, q.epoch, Some(0));
    var t := Timed(s.RateOf(q.to).nextAllowed, release);
    DelaysRelease(d, s, q, i);
    OwnInserted(d, k, s.delayed, t);
  }

  lemma DelaysRelease(d: Deployment, s: State, q: Queued, i: Input)
    requires Delivered(d, q).Some? && Delivered(d, q).value.RateLimit?
    ensures
      var release := Queued(q.to, q.event, q.hops + 1, RateRelease, q.epoch, Some(0));
      var delayed := Process(d, s, q, i).delayed;
      delayed == s.delayed || delayed == Insert(s.delayed, Timed(s.RateOf(q.to).nextAllowed, release))
  {
    hide Delivered, Insert, Along, Edges;
  }

  lemma OwnInserted(d: Deployment, k: Key, delayed: seq<Timed>, t: Timed)
    requires t.item.stamp.Some? && DelayedShielded(d, k, delayed)
    ensures DelayedShielded(d, k, Insert(delayed, t))
  {
    OwnShielded(d, k, t.item);
    hide *;
    PutShielded(d, k, delayed, [t.item], t.due);
    InsertIsPut(delayed, t);
  }

  lemma TimerDelayed(d: Deployment, s: State, q: Queued, i: Input, k: Key)
    requires Delivered(d, q).Some? && Delivered(d, q).value.Trigger? && DelayedShielded(d, k, s.delayed)
    ensures DelayedShielded(d, k, Process(d, s, q, i).delayed)
  {
    var timer := Queued(q.to, q.event, q.hops + 1, TriggerRelease(s.Generation(q.to) + 1), q.epoch, Some(s.starts));
    var t := Timed(i.now + DurationOf(Delivered(d, q).value), timer);
    DelaysTimer(d, s, q, i);
    Hops.DeliveredKind(d, q);
    hide Delivered, KindAt, DelayedShielded, Process, Insert, WithoutTimer;
    RemoveShielded(d, k, s.delayed, q.to);
    OwnInserted(d, k, WithoutTimer(s.delayed, q.to), t);
  }

  lemma DelaysTimer(d: Deployment, s: State, q: Queued, i: Input)
    requires Delivered(d, q).Some? && Delivered(d, q).value.Trigger?
    ensures
      var timer := Queued(q.to, q.event, q.hops + 1, TriggerRelease(s.Generation(q.to) + 1), q.epoch, Some(s.starts));
      var delayed, rest := Process(d, s, q, i).delayed, WithoutTimer(s.delayed, q.to);
      || delayed == s.delayed || delayed == rest
      || delayed == Insert(rest, Timed(i.now + DurationOf(Delivered(d, q).value), timer))
  {
    hide Delivered, Insert, WithoutTimer, Along, Edges;
  }

  lemma ArriveShielded(d: Deployment, s: State, q: Queued, k: Key)
    requires NodeShielded(d, s, k) && IsInput(q)
    ensures NodeShielded(d, Arrive(s, q), k)
  {
    InputShielded(d, k, q);
    assert Level(d, Arrive(s, q), k) == Level(d, s, k);
    hide Shielded, DelayedShielded, Level;
    ShieldedBoth(d, k, Level(d, s, k), s.batch + s.queue, [q]);
    assert s.batch + (s.queue + [q]) == (s.batch + s.queue) + [q];
  }

  lemma PassShielded(d: Deployment, s: State, now: int, k: Key)
    requires NodeShielded(d, s, k) && s.batch == []
    ensures NodeShielded(d, Pull(s, now), k)
  {
    PullShielded(d, k, s.delayed, now);
    var due := Items(s.delayed[..DueCount(s.delayed, now)]);
    assert Level(d, Pull(s, now), k) == Level(d, s, k);
    hide Shielded, DelayedShielded, Items, DueCount, Level;
    assert s.batch + s.queue == s.queue && s.queue + due + [] == s.queue + due;
    ShieldedBoth(d, k, Level(d, s, k), s.queue, due);
  }

  lemma TurnShielded(d: Deployment, s: State, i: Input, k: Key)
    requires NodeShielded(d, s, k) && PortsOk(d, s) && NoneInto(d, k) && s.batch != []
    ensures NodeShielded(d, Turn(d, s, i), k)
  {
    var q := s.batch[0];
    FrontKnown(d, s, k);
    hide Shielded, DelayedShielded, Process, Level, NoneInto, PortsOk, KeyOk, MaySendLatest;
    var groups := ProcessGroups(d, s, q, i);
    BatchShielded(d, s, i, groups, k);
    QueueShielded(d, s, q, i, k);
  }

  lemma FrontKnown(d: Deployment, s: State, k: Key)
    requires PortsOk(d, s) && s.batch != []
    ensures var q := s.batch[0]; KeyOk(d, q.to.flow, q.event.key) && MaySendLatest(d, s, q)
    ensures NodeKnown(d, s, s.batch[0].to) && NodeKnown(d, s, k)
  {
    var q := s.batch[0];
    hide KeyOk, Items, Entered;
    assert q in Timers.Pending(s);
    assert Traceable(d, s, q) && NodeKnown(d, s, q.to);
    MayRelease(d, s, q);
  }

  lemma ActKeepsShield(d: Deployment, s: State, a: Action, k: Key)
    requires NodeShielded(d, s, k) && PortsOk(d, s) && NoneInto(d, k) && Enabled(s, a)
    ensures NodeShielded(d, Act(d, s, a), k)
  {
    hide NodeShielded, PortsOk, NoneInto, Turn, Pull, Arrive;
    match a
    case Arrival(q) => ArriveShielded(d, s, q, k);
    case Pulling(now) => PassShielded(d, s, now, k);
    case Turning(i) => TurnShielded(d, s, i, k);
  }

  lemma InputShielded(d: Deployment, k: Key, q: Queued)
    requires IsInput(q)
    ensures Shielded(d, k, 0, [q])
  {
  }

  // ---------------------------------------------------------------- whole runs

  lemma {:induction false} RunKeepsShield(d: Deployment, run: seq<Action>, s: State, k: Key)
    requires NoneInto(d, k) && Reaches(d, run, s)
    ensures NodeShielded(d, s, k)
    decreases |run|
  {
    hide NoneInto, PortsOk;
    if run == [] {
      EmptyShielded(d, k);
    } else {
      var n := |run| - 1;
      var before :| Reaches(d, run[..n], before) && Enabled(before, run[n]) && s == Act(d, before, run[n]);
      RunKeepsShield(d, run[..n], before, k);
      RunKeepsPorts(d, run[..n], before);
      hide *;
      ActKeepsShield(d, before, run[n], k);
    }
  }

  lemma EmptyShielded(d: Deployment, k: Key)
    ensures NodeShielded(d, EMPTY, k)
  {
    assert forall now :: Later([], now) == [];
    assert Items([]) == [];
    assert Shielded(d, k, 0, []);
  }

  /** At the front, a forged release finds its node where it has no effect. */
  lemma FrontIsIdle(d: Deployment, s: State)
    requires s.batch != [] && NodeShielded(d, s, s.batch[0].to)
    ensures
      var q := s.batch[0];
      Delivered(d, q).Some? && Aimed(Delivered(d, q).value, q.port) && q.stamp.None? ==>
        !TakesEffect(Delivered(d, q).value, q.port, Level(d, s, q.to))
  {
    assert (s.batch + s.queue)[0] == s.batch[0];
    hide Delivered, DelayedShielded;
  }

  /** Without a forging edge, the release that makes a trigger fire is the engine's own. */
  lemma OwnReleaseFires(d: Deployment, run: seq<Action>, s: State)
    requires NoForgedTimer(d) && Reaches(d, run, s) && s.batch != []
    ensures Timers.FrontFires(d, s) ==> s.batch[0].stamp.Some?
  {
    var q := s.batch[0];
    Hops.DeliveredKind(d, q);
    if Timers.FrontFires(d, s) {
      assert IsTrigger(d, q.to);
      RunKeepsShield(d, run, s, q.to);
      RunKeepsPorts(d, run, s);
      assert NodeKnown(d, s, q.to);
      FrontIsIdle(d, s);
    }
  }

  /** And a release that makes a rate limiter emit is its own, or comes when that does no harm. */
  lemma OwnReleaseEmits(d: Deployment, run: seq<Action>, s: State)
    requires NoForgedRate(d) && Reaches(d, run, s) && s.batch != []
    ensures Rates.ReleaseOk(d, s)
  {
    var q := s.batch[0];
    Hops.DeliveredKind(d, q);
    if Rates.FrontReleases(d, s) {
      assert IsRateLimit(d, q.to);
      RunKeepsShield(d, run, s, q.to);
      FrontIsIdle(d, s);
    }
  }

  /** In every reachable state: order of generations, one delayed release per node, and only live timers have fired. */
  lemma {:induction false} TimersAreSafe(d: Deployment, run: seq<Action>, s: State)
    requires NoForgedTimer(d) && Reaches(d, run, s)
    ensures Timers.TimersOk(s)
    decreases |run|
  {
    if run != [] {
      var n := |run| - 1;
      var before :| Reaches(d, run[..n], before) && Enabled(before, run[n]) && s == Act(d, before, run[n]);
      TimersAreSafe(d, run[..n], before);
      hide Timers.TimersOk, Turn, Pull, Arrive, NoForgedTimer, Reaches, Timers.FrontFires;
      match run[n]
      case Arrival(q) => Timers.ArriveKeepsTimers(before, q);
      case Pulling(now) => Timers.PullKeepsTimers(before, now);
      case Turning(i) =>
        OwnReleaseFires(d, run[..n], before);
        Timers.TurnKeepsTimers(d, before, i);
    }
  }

  /** A node whose generation is 0 has no release outstanding, although its numbers start anew from there. */
  lemma NoneAtZero(d: Deployment, run: seq<Action>, s: State, k: Key)
    requires NoForgedTimer(d) && Reaches(d, run, s) && s.Generation(k) == 0
    ensures Timers.Releases(k, Timers.Pending(s)) == []
  {
    TimersAreSafe(d, run, s);
    Timers.InOrderNow(s, k);
    Timers.NothingAtZero(k, Timers.Releases(k, Timers.Pending(s)), Timers.LastTimer(s.log, k));
  }

  /** In every reachable state, every node: at most one release outstanding, none unless scheduled; emissions
      `delay` apart; every emission of the value accepted last. */
  lemma {:induction false} RatesAreSafe(d: Deployment, run: seq<Action>, s: State)
    requires NoForgedRate(d) && Reaches(d, run, s)
    ensures Rates.RatesOk(d, s)
    decreases |run|
  {
    hide Rates.NodeOk, NoForgedRate, Rates.ReleaseOk;
    if run == [] {
      forall k ensures Rates.NodeOk(d, s, k) { Rates.StartOk(d, k); }
    } else {
      var n := |run| - 1;
      var before :| Reaches(d, run[..n], before) && Enabled(before, run[n]) && s == Act(d, before, run[n]);
      RatesAreSafe(d, run[..n], before);
      if before.batch != [] { OwnReleaseEmits(d, run[..n], before); }
      forall k ensures Rates.NodeOk(d, s, k) { Rates.ActKeeps(d, before, run[n], k); }
    }
  }
}
