/** A plan of which tags need polling, rebuilt from snapshots of the observed demand. It fails open: whatever it does
    not know for certain is polled.
 */
module DemandSchedulerPreviewModel {
  datatype Option<+T> = None | Some(value: T)

  /** One tag of a demand snapshot, its absent members read as their defaults. */
  datatype Tag = Tag(connection: string, name: string, driver: string, pollWork: bool, enabled: bool, epoch: nat,
      observed: bool)

  datatype Entry = Entry(epoch: nat, started: int, lastDemand: int, wouldPoll: bool)
  datatype Row = Row(connection: string, name: string, wouldPoll: bool, reason: string, epoch: nat)

  /** Startup grace, idle grace and the age at which a plan is stale, in milliseconds. */
  datatype Settings = Settings(startup: int, idle: int, stale: int)

  const DRIVER := "ab_eip"

  function KeyOf(connection: string, name: string): string { connection + ['\U{1f}'] + name }
  function TagKey(t: Tag): string { KeyOf(t.connection, t.name) }
  predicate Counted(t: Tag) { t.pollWork && t.enabled }

  // ---------------------------------------------------------------- one tag

  /** The entry before the decision: a new one when there is none for this driver. */
  function Touched(before: Option<Entry>, t: Tag, now: int): Entry {
    var e := if before.Some? && before.value.epoch == t.epoch then before.value else Entry(t.epoch, now, now, true);
    if t.observed then e.(lastDemand := now) else e
  }

  function Decision(e: Entry, t: Tag, now: int, s: Settings): (bool, string) {
    if t.driver != DRIVER then (true, "unsupported_driver")
    else if t.observed then (true, if e.wouldPoll then "observed_demand" else "wake_requested")
    else if now - e.started < s.startup then (true, "startup_grace")
    else if now - e.lastDemand < s.idle then (true, "idle_grace")
    else (false, "no_observed_demand")
  }

  function Decided(before: Option<Entry>, t: Tag, now: int, s: Settings): Entry {
    var e := Touched(before, t, now);
    e.(wouldPoll := Decision(e, t, now, s).0)
  }

  function RowOf(before: Option<Entry>, t: Tag, now: int, s: Settings): Row {
    var d := Decision(Touched(before, t, now), t, now, s);
    Row(t.connection, t.name, d.0, d.1, t.epoch)
  }

  function At<K, V>(m: map<K, V>, key: K): Option<V> { if key in m then Some(m[key]) else None }

  // ---------------------------------------------------------------- one refresh

  datatype Plan = Plan(entries: map<string, Entry>, rows: seq<Row>, seen: set<string>)

  function Noted(p: Plan, t: Tag, now: int, s: Settings): Plan {
    if !Counted(t) then p
    else
      var before := At(p.entries, TagKey(t));
      Plan(p.entries[TagKey(t) := Decided(before, t, now, s)], p.rows + [RowOf(before, t, now, s)],
           p.seen + {TagKey(t)})
  }

  function NotedAll(p: Plan, tags: seq<Tag>, now: int, s: Settings): Plan {
    if tags == [] then p else Noted(NotedAll(p, tags[..|tags| - 1], now, s), tags[|tags| - 1], now, s)
  }

  function Kept(entries: map<string, Entry>, seen: set<string>): map<string, Entry> {
    map key | key in entries && key in seen :: entries[key]
  }

  datatype State = State(entries: map<string, Entry>, rows: seq<Row>, updated: int, initialized: bool)

  const FRESH := State(map[], [], 0, false)

  function Refreshed(state: State, tags: seq<Tag>, now: int, s: Settings): State {
    var p := NotedAll(Plan(state.entries, [], {}), tags, now, s);
    State(Kept(p.entries, p.seen), p.rows, now, true)
  }

  predicate Stale(state: State, now: int, s: Settings) {
    !state.initialized || now < state.updated || now - state.updated > s.stale
  }

  /** should_poll. */
  predicate Polls(state: State, connection: string, name: string, epoch: nat, now: int, s: Settings) {
    Stale(state, now, s) ||
    var found := At(state.entries, KeyOf(connection, name));
    found.None? || found.value.epoch != epoch || found.value.wouldPoll
  }

  // ---------------------------------------------------------------- summaries

  datatype Counts = Counts(pollWork: nat, wouldPoll: nat, wouldIdle: nat)

  datatype Snapshot = Snapshot(stale: bool, connections: map<string, Counts>, tags: seq<Row>)

  predicate Selected(r: Row, filter: string) { filter == "" || r.connection == filter }

  function ShownRow(r: Row, stale: bool): Row {
    if stale then r.(wouldPoll := true, reason := "stale_demand_snapshot") else r
  }

  /** The selected rows as they are shown. */
  function Shown(rows: seq<Row>, filter: string, stale: bool): seq<Row> {
    if rows == [] then []
    else
      var r := rows[|rows| - 1];
      Shown(rows[..|rows| - 1], filter, stale) + (if Selected(r, filter) then [ShownRow(r, stale)] else [])
  }

  /** How many of the rows are of this connection, with this verdict. */
  function Tally(rows: seq<Row>, connection: string, verdict: bool): nat {
    if rows == [] then 0
    else
      var r := rows[|rows| - 1];
      Tally(rows[..|rows| - 1], connection, verdict)
          + (if r.connection == connection && r.wouldPoll == verdict then 1 else 0)
  }

  /** The summary of the rows: nothing is lost or counted twice. */
  ghost predicate Summarises(connections: map<string, Counts>, rows: seq<Row>) {
    && (forall c :: c in connections <==> exists r :: r in rows && r.connection == c)
    && (forall c :: c in connections ==>
          && connections[c].wouldPoll == Tally(rows, c, true)
          && connections[c].wouldIdle == Tally(rows, c, false)
          && connections[c].pollWork == connections[c].wouldPoll + connections[c].wouldIdle)
  }

  function CountedIn(connections: map<string, Counts>, r: Row): map<string, Counts> {
    var c := if r.connection in connections then connections[r.connection] else Counts(0, 0, 0);
    connections[r.connection :=
      if r.wouldPoll then Counts(c.pollWork + 1, c.wouldPoll + 1, c.wouldIdle)
      else Counts(c.pollWork + 1, c.wouldPoll, c.wouldIdle + 1)]
  }

  lemma {:induction false} NoTally(rows: seq<Row>, connection: string, verdict: bool)
    requires forall r :: r in rows ==> r.connection != connection
    ensures Tally(rows, connection, verdict) == 0
  {
    if rows != [] { NoTally(rows[..|rows| - 1], connection, verdict); }
  }

  lemma OneMoreRow(connections: map<string, Counts>, rows: seq<Row>, r: Row)
    requires Summarises(connections, rows)
    ensures Summarises(CountedIn(connections, r), rows + [r])
  {
    var after := CountedIn(connections, r);
    assert (rows + [r])[..|rows|] == rows;
    if r.connection !in connections {
      NoTally(rows, r.connection, true);
      NoTally(rows, r.connection, false);
    }
    forall c ensures c in after <==> exists x :: x in rows + [r] && x.connection == c {
      if c in after {
        if c == r.connection { assert r in rows + [r]; }
        else {
          var x :| x in rows && x.connection == c;
          assert x in rows + [r];
        }
      }
    }
  }

  // ---------------------------------------------------------------- the class

  class DemandSchedulerPreview {
    const settings: Settings
    var entries: map<string, Entry>
    var rows: seq<Row>
    var updated: int
    var initialized: bool

    constructor (settings: Settings)
      ensures this.settings == settings && Current() == FRESH
    {
      this.settings := settings;
      entries, rows, updated, initialized := map[], [], 0, false;
    }

    function Current(): State
      reads this
    {
      State(entries, rows, updated, initialized)
    }

    method Refresh(tags: seq<Tag>, now: int)
      modifies this
      ensures Current() == Refreshed(old(Current()), tags, now, settings)
    {
      ghost var start := Plan(entries, [], {});
      var seen := {};
      rows := [];
      for k := 0 to |tags|
        invariant Plan(entries, rows, seen) == NotedAll(start, tags[..k], now, settings)
      {
        assert tags[..k + 1][..k] == tags[..k];
        var t := tags[k];
        if t.pollWork && t.enabled {
          var key := TagKey(t);
          seen := seen + {key};
          var e := if key in entries && entries[key].epoch == t.epoch then entries[key]
                   else Entry(t.epoch, now, now, true);
          if t.observed { e := e.(lastDemand := now); }
          var poll, reason := true, "";
          if t.driver != DRIVER { reason := "unsupported_driver"; }
          else if t.observed { reason := if e.wouldPoll then "observed_demand" else "wake_requested"; }
          else if now - e.started < settings.startup { reason := "startup_grace"; }
          else if now - e.lastDemand < settings.idle { reason := "idle_grace"; }
          else { poll, reason := false, "no_observed_demand"; }
          entries := entries[key := e.(wouldPoll := poll)];
          rows := rows + [Row(t.connection, t.name, poll, reason, t.epoch)];
        }
      }
      assert tags[..|tags|] == tags;
      Forget(seen);
      updated, initialized := now, true;
    }

    /** Erases in place, in any order, the entries that were not seen. */
    method Forget(seen: set<string>)
      modifies this`entries
      ensures entries == Kept(old(entries), seen)
    {
      var todo := entries.Keys;
      while todo != {}
        invariant todo <= entries.Keys <= old(entries).Keys
        invariant forall key | key in old(entries) :: key in entries <==> key in todo || key in seen
        invariant forall key | key in entries :: entries[key] == old(entries)[key]
      {
        var key :| key in todo;
        if key !in seen { entries := entries - {key}; }
        todo := todo - {key};
      }
    }

    method ShouldPoll(connection: string, name: string, epoch: nat, now: int) returns (poll: bool)
      ensures poll == Polls(Current(), connection, name, epoch, now, settings)
    {
      if !initialized || now < updated || now - updated > settings.stale { return true; }
      var key := KeyOf(connection, name);
      poll := key !in entries || entries[key].epoch != epoch || entries[key].wouldPoll;
    }

    method TakeSnapshot(filter: string, includeTags: bool, now: int) returns (r: Snapshot)
      ensures r.stale == Stale(Current(), now, settings)
      ensures Summarises(r.connections, Shown(rows, filter, r.stale))
      ensures r.tags == if includeTags then Shown(rows, filter, r.stale) else []
    {
      var stale := !initialized || now < updated || now - updated > settings.stale;
      var connections: map<string, Counts> := map[];
      var tags := [];
      for k := 0 to |rows|
        invariant Summarises(connections, Shown(rows[..k], filter, stale))
        invariant tags == if includeTags then Shown(rows[..k], filter, stale) else []
      {
        assert rows[..k + 1][..k] == rows[..k];
        hide Summarises, CountedIn, ShownRow;
        var row := rows[k];
        assert Shown(rows[..k], filter, stale) + [] == Shown(rows[..k], filter, stale);
        if filter == "" || row.connection == filter {
          row := Displayed(row, stale);
          OneMoreRow(connections, Shown(rows[..k], filter, stale), row);
          connections := Count(connections, row);
          if includeTags { tags := tags + [row]; }
        }
      }
      assert rows[..|rows|] == rows;
      r := Snapshot(stale, connections, tags);
    }
  }

  method Displayed(row: Row, stale: bool) returns (r: Row)
    ensures r == ShownRow(row, stale)
  {
    r := row;
    if stale { r := r.(wouldPoll := true, reason := "stale_demand_snapshot"); }
  }

  method Count(connections: map<string, Counts>, row: Row) returns (r: map<string, Counts>)
    ensures r == CountedIn(connections, row)
  {
    var summary := Counts(0, 0, 0);
    if row.connection in connections { summary := connections[row.connection]; }
    summary := summary.(pollWork := summary.pollWork + 1);
    if row.wouldPoll { summary := summary.(wouldPoll := summary.wouldPoll + 1); }
    else { summary := summary.(wouldIdle := summary.wouldIdle + 1); }
    r := connections[row.connection := summary];
  }

  // ---------------------------------------------------------------- what a refresh does to one tag

  /** No two counted tags of a snapshot share a key. */
  predicate UniqueTags(tags: seq<Tag>) {
    forall i, j :: 0 <= i < j < |tags| && Counted(tags[i]) && Counted(tags[j]) ==> TagKey(tags[i]) != TagKey(tags[j])
  }

  /** The counted tag with this key, if there is one. */
  function TagOf(tags: seq<Tag>, key: string): Option<Tag> {
    if tags == [] then None
    else if Counted(tags[|tags| - 1]) && TagKey(tags[|tags| - 1]) == key then Some(tags[|tags| - 1])
    else TagOf(tags[..|tags| - 1], key)
  }

  lemma {:induction false} TagOfIsThere(tags: seq<Tag>, key: string)
    ensures match TagOf(tags, key)
      case None => forall t | t in tags :: !(Counted(t) && TagKey(t) == key)
      case Some(t) => t in tags && Counted(t) && TagKey(t) == key
  {
    if tags != [] {
      var n := |tags| - 1;
      TagOfIsThere(tags[..n], key);
      assert tags == tags[..n] + [tags[n]];
    }
  }

  lemma {:induction false} NotedAt(p: Plan, tags: seq<Tag>, now: int, s: Settings, key: string)
    requires UniqueTags(tags)
    ensures
      var q := NotedAll(p, tags, now, s);
      var t := TagOf(tags, key);
      && (key in q.seen <==> key in p.seen || t.Some?)
      && At(q.entries, key) == if t.None? then At(p.entries, key)
                               else Some(Decided(At(p.entries, key), t.value, now, s))
  {
    hide Decided, RowOf;
    if tags != [] {
      var n := |tags| - 1;
      NotedAt(p, tags[..n], now, s, key);
      if Counted(tags[n]) && TagKey(tags[n]) == key {
        TagOfIsThere(tags[..n], key);
        assert forall i | 0 <= i < n :: tags[..n][i] == tags[i];
        assert TagOf(tags[..n], key).None?;
      }
    }
  }

  /** A refresh decides each key by its own tag and its own previous entry; a key without a tag is forgotten. */
  lemma RefreshedAt(state: State, tags: seq<Tag>, now: int, s: Settings, key: string)
    requires UniqueTags(tags)
    ensures At(Refreshed(state, tags, now, s).entries, key) ==
      match TagOf(tags, key)
      case None => None
      case Some(t) => Some(Decided(At(state.entries, key), t, now, s))
  {
    hide Decided;
    NotedAt(Plan(state.entries, [], {}), tags, now, s, key);
  }

  lemma {:induction false} RowsAgree(p: Plan, tags: seq<Tag>, now: int, s: Settings)
    requires UniqueTags(tags) && p.rows == []
    ensures
      var q := NotedAll(p, tags, now, s);
      forall r | r in q.rows ::
        var key := KeyOf(r.connection, r.name);
        && TagOf(tags, key).Some?
        && key in q.entries && q.entries[key].epoch == r.epoch && q.entries[key].wouldPoll == r.wouldPoll
  {
    if tags != [] {
      var n := |tags| - 1;
      RowsAgree(p, tags[..n], now, s);
      var m, q := NotedAll(p, tags[..n], now, s), NotedAll(p, tags, now, s);
      forall r | r in q.rows
        ensures
          var key := KeyOf(r.connection, r.name);
          && TagOf(tags, key).Some?
          && key in q.entries && q.entries[key].epoch == r.epoch && q.entries[key].wouldPoll == r.wouldPoll
      {
        var key := KeyOf(r.connection, r.name);
        if r in m.rows {
          TagOfIsThere(tags[..n], key);
          if Counted(tags[n]) {
            var i :| 0 <= i < n && tags[..n][i] == TagOf(tags[..n], key).value;
            assert tags[i] == tags[..n][i];
            assert TagKey(tags[i]) != TagKey(tags[n]);
          }
        }
      }
    }
  }

  /** The snapshot and should_poll give the same verdict on every row shown, stale or not. */
  lemma SnapshotAgrees(state: State, tags: seq<Tag>, time: int, s: Settings, filter: string, now: int, r: Row)
    requires UniqueTags(tags)
    requires
      var t := Refreshed(state, tags, time, s);
      r in Shown(t.rows, filter, Stale(t, now, s))
    ensures r.wouldPoll == Polls(Refreshed(state, tags, time, s), r.connection, r.name, r.epoch, now, s)
  {
    var t := Refreshed(state, tags, time, s);
    var p := Plan(state.entries, [], {});
    RowsAgree(p, tags, time, s);
    ShownIsThere(t.rows, filter, Stale(t, now, s), r);
    var x :| x in t.rows && r == ShownRow(x, Stale(t, now, s));
    NotedAt(p, tags, time, s, KeyOf(r.connection, r.name));
    hide NotedAll;
  }

  lemma {:induction false} ShownIsThere(rows: seq<Row>, filter: string, stale: bool, r: Row)
    requires r in Shown(rows, filter, stale)
    ensures exists x :: x in rows && Selected(x, filter) && r == ShownRow(x, stale)
  {
    var n := |rows| - 1;
    if r in Shown(rows[..n], filter, stale) { ShownIsThere(rows[..n], filter, stale, r); }
    else { assert rows[n] in rows; }
  }

  // ---------------------------------------------------------------- whole histories

  datatype Round = Round(tags: seq<Tag>, now: int)

  function After(h: seq<Round>, s: Settings): State {
    if h == [] then FRESH else Refreshed(After(h[..|h| - 1], s), h[|h| - 1].tags, h[|h| - 1].now, s)
  }

  predicate Proper(h: seq<Round>) {
    && (forall i :: 0 <= i < |h| ==> UniqueTags(h[i].tags))
    && (forall i, j :: 0 <= i <= j < |h| ==> h[i].now <= h[j].now)
  }

  /** This round counts the key, for this driver instance. */
  predicate Lists(r: Round, key: string, epoch: nat) {
    TagOf(r.tags, key).Some? && TagOf(r.tags, key).value.epoch == epoch
  }

  /** The key has been listed, for one driver instance, in every round from `a` to the last, and not in the one
      before. */
  predicate Since(h: seq<Round>, key: string, epoch: nat, a: nat) {
    && a < |h| && (forall j :: a <= j < |h| ==> Lists(h[j], key, epoch))
    && (a > 0 ==> !Lists(h[a - 1], key, epoch))
  }

  /** Rounds from `a` on that saw demand are at least the idle grace before the last one. */
  predicate Quiet(h: seq<Round>, key: string, a: nat, idle: int)
    requires h != []
  {
    forall j :: a <= j < |h| && TagOf(h[j].tags, key).Some? && TagOf(h[j].tags, key).value.observed
      ==> h[|h| - 1].now - h[j].now >= idle
  }

  /** What the entry of a listed key remembers: when its run of rounds began, and the last demand in it, or its
      beginning when there was none. */
  ghost predicate Remembers(h: seq<Round>, key: string, e: Entry, a: nat, d: nat) {
    && Since(h, key, e.epoch, a) && a <= d < |h|
    && e.started == h[a].now && e.lastDemand == h[d].now
    && (d == a || TagOf(h[d].tags, key).value.observed)
    && (forall j :: d < j < |h| ==> !TagOf(h[j].tags, key).value.observed)
  }

  lemma SinceGrows(h: seq<Round>, r: Round, key: string, epoch: nat, a: nat)
    requires Since(h, key, epoch, a) && Lists(r, key, epoch)
    ensures Since(h + [r], key, epoch, a)
  {
    assert forall j | 0 <= j < |h| :: (h + [r])[j] == h[j];
  }

  lemma RememberMore(h: seq<Round>, r: Round, key: string, before: Entry, t: Tag, s: Settings, a: nat, d: nat)
    returns (d': nat)
    requires Remembers(h, key, before, a, d) && TagOf(r.tags, key) == Some(t) && t.epoch == before.epoch
    ensures Remembers(h + [r], key, Decided(Some(before), t, r.now, s), a, d')
  {
    hide TagOf;
    SinceGrows(h, r, key, before.epoch, a);
    assert forall j | 0 <= j < |h| :: (h + [r])[j] == h[j];
    d' := if t.observed then |h| else d;
  }

  lemma RememberFirst(h: seq<Round>, r: Round, key: string, before: Option<Entry>, t: Tag, s: Settings)
    requires TagOf(r.tags, key) == Some(t) && (before.Some? ==> before.value.epoch != t.epoch)
    requires h != [] ==> !Lists(h[|h| - 1], key, t.epoch)
    ensures Remembers(h + [r], key, Decided(before, t, r.now, s), |h|, |h|)
  {
    hide TagOf;
    assert h != [] ==> (h + [r])[|h| - 1] == h[|h| - 1];
  }

  lemma {:induction false} EntryRemembers(h: seq<Round>, s: Settings, key: string) returns (a: nat, d: nat)
    requires Proper(h) && h != []
    ensures
      var t := TagOf(h[|h| - 1].tags, key);
      var e := At(After(h, s).entries, key);
      && (t.Some? <==> e.Some?)
      && (t.Some? ==>
        && e.value.epoch == t.value.epoch && Remembers(h, key, e.value, a, d)
        && e.value.wouldPoll == Decision(e.value, t.value, h[|h| - 1].now, s).0)
  {
    a, d := 0, 0;
    var n := |h| - 1;
    var g, r := h[..n], h[n];
    assert h == g + [r];
    RefreshedAt(After(g, s), r.tags, r.now, s, key);
    var before := At(After(g, s).entries, key);
    hide Remembers, Refreshed, TagOf;
    if g != [] {
      assert Proper(g);
      a, d := EntryRemembers(g, s, key);
    }
    match TagOf(r.tags, key)
    case None =>
    case Some(t) =>
      if before.Some? && before.value.epoch == t.epoch {
        d := RememberMore(g, r, key, before.value, t, s, a, d);
      } else {
        a, d := n, n;
        RememberFirst(g, r, key, before, t, s);
      }
  }

  lemma SinceIsUnique(h: seq<Round>, key: string, epoch: nat, a: nat, b: nat)
    requires Since(h, key, epoch, a) && Since(h, key, epoch, b)
    ensures a == b
  {
    hide Lists;
  }

  /** Everything that must hold for a tag not to be polled. */
  ghost predicate Idles(h: seq<Round>, s: Settings, key: string, epoch: nat, now: int) {
    h != [] &&
    var u := h[|h| - 1].now;
    && 0 <= now - u <= s.stale
    && TagOf(h[|h| - 1].tags, key).Some?
    && TagOf(h[|h| - 1].tags, key).value.driver == DRIVER
    && !TagOf(h[|h| - 1].tags, key).value.observed
    && exists a: nat ::
         Since(h, key, epoch, a) && u - h[a].now >= s.startup && u - h[a].now >= s.idle && Quiet(h, key, a, s.idle)
  }

  /** The planner fails open and honours both graces: it stops polling a tag exactly when the last plan is fresh, lists
      the tag for this driver instance and a supported driver, has listed it for at least both graces, and no round of
      that time within the idle grace saw demand. */
  lemma FailsOpen(h: seq<Round>, s: Settings, connection: string, name: string, epoch: nat, now: int)
    requires Proper(h)
    ensures !Polls(After(h, s), connection, name, epoch, now, s) <==> Idles(h, s, KeyOf(connection, name), epoch, now)
  {
    if h != [] {
      var key := KeyOf(connection, name);
      var a, d := EntryRemembers(h, s, key);
      UpdatedIsLast(h, s);
      Verdict(h, s, key, epoch, now, a, d);
    }
  }

  lemma UpdatedIsLast(h: seq<Round>, s: Settings)
    requires h != []
    ensures After(h, s).initialized && After(h, s).updated == h[|h| - 1].now
  {
  }

  lemma Verdict(h: seq<Round>, s: Settings, key: string, epoch: nat, now: int, a: nat, d: nat)
    requires Proper(h) && h != []
    requires After(h, s).initialized && After(h, s).updated == h[|h| - 1].now
    requires
      var t := TagOf(h[|h| - 1].tags, key);
      var e := At(After(h, s).entries, key);
      && (t.Some? <==> e.Some?)
      && (t.Some? ==>
        && e.value.epoch == t.value.epoch && Remembers(h, key, e.value, a, d)
        && e.value.wouldPoll == Decision(e.value, t.value, h[|h| - 1].now, s).0)
    ensures Idles(h, s, key, epoch, now) <==>
      && !Stale(After(h, s), now, s)
      && At(After(h, s).entries, key).Some?
      && At(After(h, s).entries, key).value.epoch == epoch
      && !At(After(h, s).entries, key).value.wouldPoll
  {
    hide TagOf, After;
    var t := TagOf(h[|h| - 1].tags, key);
    if t.Some? {
      var e := At(After(h, s).entries, key).value;
      var u := h[|h| - 1].now;
      QuietMeans(h, key, e, a, d, s.idle);
      if Idles(h, s, key, epoch, now) {
        var b: nat :| Since(h, key, epoch, b) && u - h[b].now >= s.startup && u - h[b].now >= s.idle
          && Quiet(h, key, b, s.idle);
        assert Lists(h[|h| - 1], key, epoch);
        SinceIsUnique(h, key, epoch, a, b);
      }
    }
  }

  lemma QuietMeans(h: seq<Round>, key: string, e: Entry, a: nat, d: nat, idle: int)
    requires Proper(h) && h != [] && Remembers(h, key, e, a, d)
    ensures h[|h| - 1].now - e.lastDemand >= idle <==>
      h[|h| - 1].now - h[d].now >= idle
    ensures h[|h| - 1].now - e.lastDemand >= idle ==> Quiet(h, key, a, idle) && h[|h| - 1].now - h[a].now >= idle
    ensures Quiet(h, key, a, idle) && h[|h| - 1].now - h[a].now >= idle ==> h[|h| - 1].now - e.lastDemand >= idle
  {
    hide TagOf;
    if h[|h| - 1].now - e.lastDemand >= idle {
      forall j | a <= j < |h| && TagOf(h[j].tags, key).Some? && TagOf(h[j].tags, key).value.observed
        ensures h[|h| - 1].now - h[j].now >= idle
      {
        assert j <= d;
        assert h[j].now <= h[d].now;
      }
    }
    assert Lists(h[d], key, e.epoch);
  }
}
