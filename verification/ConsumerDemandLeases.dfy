/** Registrations that HTTP consumers renew: each (client, owner) pair holds one scope until its lease runs out. */
module ConsumerDemandLeasesModel {
  import opened ConsumerDemandModel

  /** Client and owner label. */
  type Key = (string, string)

  datatype Entry = Entry(scope: Scope, until: int)
  type Entries = map<Key, Entry>

  const LEASE_MS := 60_000

  /** What reaches the server under its lock: a registration, a release, or a reader of the demand. */
  datatype Op = Renew(key: Key, scope: Scope) | End(key: Key) | Observe

  datatype Event = Event(op: Op, now: int)
  type History = seq<Event>

  // ---------------------------------------------------------------- one step

  function Pruned(entries: Entries, now: int): Entries {
    map key | key in entries && entries[key].until > now :: entries[key]
  }

  function Step(entries: Entries, e: Event): Entries {
    match e.op
    case Renew(key, scope) => Pruned(entries, e.now)[key := Entry(scope, e.now + LEASE_MS)]
    case End(key) => Pruned(entries, e.now) - {key}
    case Observe => Pruned(entries, e.now)
  }

  /** The operation a message asks for: the type it carries is overwritten. */
  function OpOf(m: Message, release: bool): Option<Op> {
    if !m.isObject || !m.clientId.Is? || !(0 < |m.clientId.value| <= NAME_LIMIT) then None
    else match RequestOf(m.(kind := Is(if release then "release_demand" else "register_demand")))
      case None => None
      case Some(Register(owner, scope)) => Some(Renew((m.clientId.value, owner), scope))
      case Some(Release(owner)) => Some(End((m.clientId.value, owner)))
  }

  // ---------------------------------------------------------------- aggregation

  function SummaryOf(owners: map<string, Summary>, name: string): Summary {
    if name in owners then owners[name] else NOTHING
  }

  function WithScope(owners: map<string, Summary>, name: string, scope: Scope): map<string, Summary> {
    owners[name := Merged(SummaryOf(owners, name), scope)]
  }

  function KeysOf(keys: set<Key>, owner: string): set<Key> {
    set key | key in keys && key.1 == owner
  }

  /** One of the entries with this owner label asks for the tag. */
  ghost predicate Contributes(entries: Entries, keys: set<Key>, owner: string, cid: string, name: string) {
    exists key :: key in keys && key in entries && key.1 == owner && Covers(entries[key].scope, cid, name)
  }

  ghost predicate AnswersFor(before: map<string, Summary>, after: map<string, Summary>, entries: Entries,
      keys: set<Key>, owner: string, cid: string, name: string) {
    Demands(SummaryOf(after, owner), cid, name) <==>
      Demands(SummaryOf(before, owner), cid, name) || Contributes(entries, keys, owner, cid, name)
  }

  ghost predicate CountsFor(before: map<string, Summary>, after: map<string, Summary>, keys: set<Key>, owner: string) {
    SummaryOf(after, owner).registrations == SummaryOf(before, owner).registrations + |KeysOf(keys, owner)|
  }

  /** These entries have been merged into the index, each once. */
  ghost predicate Added(before: map<string, Summary>, after: map<string, Summary>, entries: Entries, keys: set<Key>) {
    && (forall owner, cid, name :: AnswersFor(before, after, entries, keys, owner, cid, name))
    && (forall owner :: CountsFor(before, after, keys, owner))
  }

  lemma AddedNone(before: map<string, Summary>, entries: Entries)
    ensures Added(before, before, entries, {})
  {
    hide Demands, Covers;
    forall owner ensures CountsFor(before, before, {}, owner) { assert KeysOf({}, owner) == {}; }
  }

  lemma AnswersOneMore(before: map<string, Summary>, mid: map<string, Summary>, entries: Entries, keys: set<Key>,
      key: Key, owner: string, cid: string, name: string)
    requires key in entries && AnswersFor(before, mid, entries, keys, owner, cid, name)
    ensures
      var after := WithScope(mid, key.1, entries[key].scope);
      AnswersFor(before, after, entries, keys + {key}, owner, cid, name)
  {
    hide Demands, Covers, Merged;
    MergedDemands(SummaryOf(mid, key.1), entries[key].scope, cid, name);
    assert Contributes(entries, keys + {key}, owner, cid, name)
      <==> Contributes(entries, keys, owner, cid, name) || (key.1 == owner && Covers(entries[key].scope, cid, name));
  }

  lemma CountsOneMore(before: map<string, Summary>, mid: map<string, Summary>, entries: Entries, keys: set<Key>,
      key: Key, owner: string)
    requires key in entries && key !in keys && CountsFor(before, mid, keys, owner)
    ensures
      var after := WithScope(mid, key.1, entries[key].scope);
      CountsFor(before, after, keys + {key}, owner)
  {
    assert KeysOf(keys + {key}, owner) == KeysOf(keys, owner) + (if key.1 == owner then {key} else {});
  }

  lemma AddedOneMore(before: map<string, Summary>, mid: map<string, Summary>, entries: Entries, keys: set<Key>,
      key: Key)
    requires key in entries && key !in keys && Added(before, mid, entries, keys)
    ensures Added(before, WithScope(mid, key.1, entries[key].scope), entries, keys + {key})
  {
    hide AnswersFor, CountsFor, WithScope;
    forall owner, cid, name
      ensures AnswersFor(before, WithScope(mid, key.1, entries[key].scope), entries, keys + {key}, owner, cid, name)
    {
      AnswersOneMore(before, mid, entries, keys, key, owner, cid, name);
    }
    forall owner ensures CountsFor(before, WithScope(mid, key.1, entries[key].scope), keys + {key}, owner) {
      CountsOneMore(before, mid, entries, keys, key, owner);
    }
  }

  // ---------------------------------------------------------------- the class

  class ConsumerDemandLeases {
    var entries: Entries

    constructor ()
      ensures entries == map[]
    {
      entries := map[];
    }

    /** A refused message changes nothing, not even by expiry. */
    method Apply(m: Message, release: bool, now: int) returns (ok: bool)
      modifies this
      ensures ok == OpOf(m, release).Some?
      ensures entries == if ok then Step(old(entries), Event(OpOf(m, release).value, now)) else old(entries)
    {
      if !m.isObject || !m.clientId.Is? { return false; }
      var client := m.clientId.value;
      if client == "" || |client| > NAME_LIMIT { return false; }
      var message := m.(kind := Is(if release then "release_demand" else "register_demand"));
      var validated := new ConsumerDemand();
      ok := validated.Apply(message);
      if !ok { return; }
      var owner := message.owner.value;
      Prune(now);
      if release {
        entries := entries - {(client, owner)};
      } else {
        entries := entries[(client, owner) := Entry(validated.owners[owner], now + LEASE_MS)];
      }
    }

    /** Merges every unexpired entry into the index, whatever the order in which they are visited. */
    method Append(index: DemandIndex, now: int)
      modifies this, index
      ensures entries == Step(old(entries), Event(Observe, now))
      ensures Added(old(index.owners), index.owners, entries, entries.Keys)
    {
      Prune(now);
      var todo := entries.Keys;
      AddedNone(index.owners, entries);
      while todo != {}
        invariant entries == Pruned(old(entries), now)
        invariant todo <= entries.Keys && Added(old(index.owners), index.owners, entries, entries.Keys - todo)
      {
        hide Added, Merged, Pruned;
        var key :| key in todo;
        AddedOneMore(old(index.owners), index.owners, entries, entries.Keys - todo, key);
        assert entries.Keys - todo + {key} == entries.Keys - (todo - {key});
        assert SummaryOf(index.owners, key.1) == index.Of(key.1);
        index.Merge(key.1, entries[key].scope);
        todo := todo - {key};
      }
      assert entries.Keys - {} == entries.Keys;
    }

    /** Erases in place, in any order, every entry whose time has come. */
    method Prune(now: int)
      modifies this
      ensures entries == Pruned(old(entries), now)
    {
      var todo := entries.Keys;
      while todo != {}
        invariant todo <= entries.Keys <= old(entries).Keys
        invariant forall key | key in old(entries) ::
          key in entries <==> key in todo || old(entries)[key].until > now
        invariant forall key | key in entries :: entries[key] == old(entries)[key]
      {
        var key :| key in todo;
        if entries[key].until <= now { entries := entries - {key}; }
        todo := todo - {key};
      }
    }
  }

  // ---------------------------------------------------------------- whole histories

  function After(h: History): Entries {
    if h == [] then map[] else Step(After(h[..|h| - 1]), h[|h| - 1])
  }

  /** Times do not decrease, and none is after now. */
  predicate Ordered(h: History, now: int) {
    forall i, j :: 0 <= i <= j < |h| ==> h[i].now <= h[j].now <= now
  }

  predicate Touches(op: Op, key: Key) { !op.Observe? && op.key == key }

  /** The latest word on this key is this registration, and less than the lease time has passed since. */
  ghost predicate Live(h: History, key: Key, scope: Scope, now: int) {
    exists i :: 0 <= i < |h| && h[i].op == Renew(key, scope) && now < h[i].now + LEASE_MS
      && forall j :: i < j < |h| ==> !Touches(h[j].op, key)
  }

  predicate Holds(entries: Entries, key: Key, scope: Scope, now: int) {
    key in entries && entries[key].scope == scope && entries[key].until > now
  }

  lemma StepHolds(entries: Entries, e: Event, key: Key, scope: Scope, now: int)
    requires e.now <= now
    ensures Holds(Step(entries, e), key, scope, now) <==>
      if Touches(e.op, key) then e.op == Renew(key, scope) && now < e.now + LEASE_MS
      else Holds(entries, key, scope, now)
  {
  }

  lemma LiveSteps(h: History, key: Key, scope: Scope, now: int)
    requires h != []
    ensures
      var e := h[|h| - 1];
      Live(h, key, scope, now) <==>
        if Touches(e.op, key) then e.op == Renew(key, scope) && now < e.now + LEASE_MS
        else Live(h[..|h| - 1], key, scope, now)
  {
    var n := |h| - 1;
    var g := h[..n];
    assert forall i | 0 <= i < n :: g[i] == h[i];
    if Live(h, key, scope, now) {
      var i :| 0 <= i < |h| && h[i].op == Renew(key, scope) && now < h[i].now + LEASE_MS
        && forall j :: i < j < |h| ==> !Touches(h[j].op, key);
      assert Touches(h[i].op, key);
      if i < n { assert g[i].op == Renew(key, scope); }
    }
    if !Touches(h[n].op, key) && Live(g, key, scope, now) {
      var i :| 0 <= i < |g| && g[i].op == Renew(key, scope) && now < g[i].now + LEASE_MS
        && forall j :: i < j < |g| ==> !Touches(g[j].op, key);
      assert h[i].op == Renew(key, scope);
    }
    if h[n].op == Renew(key, scope) && now < h[n].now + LEASE_MS { assert Touches(h[n].op, key); }
  }

  /** After any sequence of registrations, releases and expiries, the server holds exactly the live registrations. */
  lemma {:induction false} EntriesAreLive(h: History, key: Key, scope: Scope, now: int)
    requires Ordered(h, now)
    ensures Holds(After(h), key, scope, now) <==> Live(h, key, scope, now)
  {
    hide Holds, Live, Step, Touches;
    if h == [] {
      NothingLive(key, scope, now);
    } else {
      EntriesAreLive(h[..|h| - 1], key, scope, now);
      StepHolds(After(h[..|h| - 1]), h[|h| - 1], key, scope, now);
      LiveSteps(h, key, scope, now);
    }
  }

  lemma NothingLive(key: Key, scope: Scope, now: int)
    ensures !Holds(map[], key, scope, now) && !Live([], key, scope, now)
  {
  }

  /** A pair with no accepted registration for the lease time contributes nothing, released or not. */
  lemma SilentContributesNothing(h: History, key: Key, now: int)
    requires Ordered(h, now)
    requires forall i :: 0 <= i < |h| && h[i].op.Renew? && h[i].op.key == key ==> h[i].now + LEASE_MS <= now
    ensures key !in Pruned(After(h), now)
  {
    if key in Pruned(After(h), now) { EntriesAreLive(h, key, After(h)[key].scope, now); }
  }

  /** What appending the leases adds to the demand, at the end of any history: exactly the live registrations with
      that owner label. */
  lemma DemandIsExact(h: History, now: int, before: map<string, Summary>, after: map<string, Summary>,
      owner: string, cid: string, name: string)
    requires Ordered(h, now)
    requires
      var entries := After(h + [Event(Observe, now)]);
      Added(before, after, entries, entries.Keys)
    ensures Demands(SummaryOf(after, owner), cid, name) <==>
      || Demands(SummaryOf(before, owner), cid, name)
      || exists client, scope :: Live(h, (client, owner), scope, now) && Covers(scope, cid, name)
  {
    hide Demands, Covers, Live;
    var g := h + [Event(Observe, now)];
    assert g[..|g| - 1] == h;
    var entries := After(g);
    assert entries == Pruned(After(h), now);
    assert AnswersFor(before, after, entries, entries.Keys, owner, cid, name);
    forall client: string, scope: Scope
      ensures Live(h, (client, owner), scope, now) <==>
        (client, owner) in entries && entries[(client, owner)].scope == scope
    {
      EntriesAreLive(h, (client, owner), scope, now);
    }
    if Contributes(entries, entries.Keys, owner, cid, name) {
      var key :| key in entries.Keys && key in entries && key.1 == owner && Covers(entries[key].scope, cid, name);
      assert key == (key.0, owner);
      assert Live(h, (key.0, owner), entries[key].scope, now);
    }
    forall client, scope | Live(h, (client, owner), scope, now) && Covers(scope, cid, name)
      ensures Contributes(entries, entries.Keys, owner, cid, name)
    {
      assert (client, owner) in entries.Keys;
    }
  }

  /** The operations on one key, in their order. */
  function OnlyOf(h: History, key: Key): History {
    if h == [] then []
    else OnlyOf(h[..|h| - 1], key) + (if Touches(h[|h| - 1].op, key) then [h[|h| - 1]] else [])
  }

  /** Isolation: what one pair holds depends on that pair's own messages only, whatever others register, release
      or let expire in between. */
  lemma {:induction false} OthersDoNotMatter(h: History, key: Key, scope: Scope, now: int)
    requires Ordered(h, now)
    ensures Holds(After(h), key, scope, now) <==> Holds(After(OnlyOf(h, key)), key, scope, now)
  {
    hide Holds, Step, Touches;
    if h != [] {
      var g, e := h[..|h| - 1], h[|h| - 1];
      OthersDoNotMatter(g, key, scope, now);
      StepHolds(After(g), e, key, scope, now);
      if Touches(e.op, key) {
        var o := OnlyOf(h, key);
        assert o[..|o| - 1] == OnlyOf(g, key) && o[|o| - 1] == e;
        StepHolds(After(OnlyOf(g, key)), e, key, scope, now);
      } else {
        assert OnlyOf(h, key) == OnlyOf(g, key);
      }
    }
  }
}
