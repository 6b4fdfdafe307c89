/** Demand registrations: validation of a message, the owners of one connection, the aggregated demand
    object that scopes are merged into, and the query on it.
 */
module ConsumerDemandModel {
  import Glob

  datatype Option<+T> = None | Some(value: T)

  /** A JSON member: absent, of another type, or a value. */
  datatype Field<+T> = Missing | WrongType | Is(value: T)

  datatype Pattern = Pattern(connection: string, name: string)

  /** An element of "patterns": an object with two members, or something else. */
  datatype PatternField = NotObject | Object(connection: Field<string>, name: Field<string>)

  datatype Message = Message(
    isObject: bool, clientId: Field<string>, owner: Field<string>, kind: Field<string>,
    allTags: Field<bool>, tags: Field<seq<Field<string>>>, patterns: Field<seq<PatternField>>)

  datatype Scope = Scope(allTags: bool, tags: set<string>, patterns: seq<Pattern>)

  datatype Request = Register(owner: string, scope: Scope) | Release(owner: string)

  const LIMIT := 100000
  const NAME_LIMIT := 128

  // ---------------------------------------------------------------- which messages are accepted

  /** "connection:name" with both parts, cut at the first colon. */
  predicate IsKey(key: string) {
    exists i :: 0 < i < |key| - 1 && key[i] == ':' && forall j | 0 <= j < i :: key[j] != ':'
  }

  predicate IsKeyField(f: Field<string>) { f.Is? && IsKey(f.value) }

  predicate IsPatternField(f: PatternField) {
    f.Object? && f.connection.Is? && f.name.Is? && f.connection.value != "" && f.name.value != ""
  }

  function PatternOf(f: PatternField): Pattern
    requires IsPatternField(f)
  {
    Pattern(f.connection.value, f.name.value)
  }

  function PatternsOf(fs: seq<PatternField>): seq<Pattern>
    requires forall f | f in fs :: IsPatternField(f)
  {
    seq(|fs|, i requires 0 <= i < |fs| => PatternOf(fs[i]))
  }

  predicate HasOwner(m: Message) {
    m.isObject && m.owner.Is? && 0 < |m.owner.value| <= NAME_LIMIT
  }

  predicate ValidScope(m: Message) {
    && !m.allTags.WrongType?
    && (m.tags.Missing? ==> m.allTags == Is(true))
    && !m.tags.WrongType?
    && (m.tags.Is? ==> |m.tags.value| <= LIMIT && forall f | f in m.tags.value :: IsKeyField(f))
    && !m.patterns.WrongType?
    && (m.patterns.Is? ==> |m.patterns.value| <= LIMIT && forall f | f in m.patterns.value :: IsPatternField(f))
  }

  function ScopeOf(m: Message): Scope
    requires ValidScope(m)
  {
    Scope(m.allTags == Is(true),
      if m.tags.Is? then set f | f in m.tags.value :: f.value else {},
      if m.patterns.Is? then PatternsOf(m.patterns.value) else [])
  }

  /** What a message asks for; None when it is refused. */
  function RequestOf(m: Message): Option<Request> {
    if !HasOwner(m) then None
    else if m.kind == Is("release_demand") then Some(Release(m.owner.value))
    else if m.kind == Is("register_demand") && ValidScope(m) then Some(Register(m.owner.value, ScopeOf(m)))
    else None
  }

  method FirstColon(key: string) returns (i: nat)
    ensures i <= |key| && (forall j | 0 <= j < i :: key[j] != ':') && (i < |key| ==> key[i] == ':')
  {
    i := 0;
    while i < |key| && key[i] != ':'
      invariant i <= |key| && forall j | 0 <= j < i :: key[j] != ':'
    {
      i := i + 1;
    }
  }

  lemma KeyByColon(key: string, colon: nat)
    requires colon <= |key| && (forall j | 0 <= j < colon :: key[j] != ':') && (colon < |key| ==> key[colon] == ':')
    ensures IsKey(key) <==> 0 < colon < |key| - 1
  {
    if IsKey(key) {
      var i :| 0 < i < |key| - 1 && key[i] == ':' && forall j | 0 <= j < i :: key[j] != ':';
      assert !(i < colon) && !(colon < i);
    }
  }

  /** The loop over "tags": all keys, or refused. */
  method ReadTags(fields: seq<Field<string>>) returns (ok: bool, tags: set<string>)
    ensures ok <==> forall f | f in fields :: IsKeyField(f)
    ensures ok ==> tags == set f | f in fields :: f.value
  {
    tags := {};
    for k := 0 to |fields|
      invariant forall f | f in fields[..k] :: IsKeyField(f)
      invariant tags == set f | f in fields[..k] :: f.value
    {
      assert fields[..k + 1] == fields[..k] + [fields[k]];
      assert fields[k] in fields;
      if !fields[k].Is? { return false, {}; }
      var key := fields[k].value;
      var colon := FirstColon(key);
      KeyByColon(key, colon);
      if colon == |key| || colon == 0 || colon + 1 == |key| { return false, {}; }
      tags := tags + {key};
    }
    assert fields[..|fields|] == fields;
    ok := true;
  }

  method ReadPatterns(fields: seq<PatternField>) returns (ok: bool, patterns: seq<Pattern>)
    ensures ok <==> forall f | f in fields :: IsPatternField(f)
    ensures ok ==> patterns == PatternsOf(fields)
  {
    patterns := [];
    for k := 0 to |fields|
      invariant forall f | f in fields[..k] :: IsPatternField(f)
      invariant patterns == PatternsOf(fields[..k])
    {
      assert fields[..k + 1] == fields[..k] + [fields[k]];
      assert fields[k] in fields;
      var f := fields[k];
      if !f.Object? || !f.connection.Is? || !f.name.Is? { return false, []; }
      if f.connection.value == "" || f.name.value == "" { return false, []; }
      patterns := patterns + [Pattern(f.connection.value, f.name.value)];
    }
    assert fields[..|fields|] == fields;
    ok := true;
  }

  /** The registrations of one connection. */
  class ConsumerDemand {
    var owners: map<string, Scope>

    constructor ()
      ensures owners == map[]
    {
      owners := map[];
    }

    /** A refused message leaves everything; an accepted one changes its own owner only. */
    method Apply(m: Message) returns (ok: bool)
      modifies this
      ensures ok == RequestOf(m).Some?
      ensures owners == match RequestOf(m)
        case None => old(owners)
        case Some(Release(owner)) => old(owners) - {owner}
        case Some(Register(owner, scope)) => old(owners)[owner := scope]
    {
      if !m.isObject || !m.owner.Is? { return false; }
      var owner := m.owner.value;
      if owner == "" || |owner| > NAME_LIMIT { return false; }
      if !m.kind.Is? { return false; }
      if m.kind.value == "release_demand" {
        owners := owners - {owner};
        return true;
      }
      if m.kind.value != "register_demand" { return false; }
      var all := false;
      if !m.allTags.Missing? {
        if !m.allTags.Is? { return false; }
        all := m.allTags.value;
      }
      if !all && !m.tags.Is? { return false; }
      var tags, patterns := {}, [];
      if !m.tags.Missing? {
        if !m.tags.Is? || |m.tags.value| > LIMIT { return false; }
        ok, tags := ReadTags(m.tags.value);
        if !ok { return; }
      }
      if !m.patterns.Missing? {
        if !m.patterns.Is? || |m.patterns.value| > LIMIT { return false; }
        ok, patterns := ReadPatterns(m.patterns.value);
        if !ok { return; }
      }
      owners := owners[owner := Scope(all, tags, patterns)];
      ok := true;
    }
  }

  // ---------------------------------------------------------------- aggregated demand

  /** The demand object of one owner label. */
  datatype Summary = Summary(registrations: nat, allTags: nat, tags: map<string, nat>, patterns: seq<Pattern>)

  const NOTHING := Summary(0, 0, map[], [])

  function TagCount(tags: map<string, nat>, key: string): nat { if key in tags then tags[key] else 0 }

  function CountMore(tags: map<string, nat>, more: set<string>): map<string, nat> {
    map key | key in tags.Keys + more :: TagCount(tags, key) + (if key in more then 1 else 0)
  }

  /** merge_consumer_scope on one owner's object. */
  function Merged(s: Summary, scope: Scope): Summary {
    var t := s.(registrations := s.registrations + 1);
    if scope.allTags then t.(allTags := s.allTags + 1)
    else t.(tags := CountMore(s.tags, scope.tags), patterns := s.patterns + scope.patterns)
  }

  function MergedAll(scopes: seq<Scope>): Summary {
    if scopes == [] then NOTHING else Merged(MergedAll(scopes[..|scopes| - 1]), scopes[|scopes| - 1])
  }

  /** consumer_demand_matches. */
  predicate Demands(s: Summary, cid: string, name: string) {
    || s.allTags > 0
    || TagCount(s.tags, cid + ":" + name) > 0
    || exists p :: p in s.patterns && p.connection == cid && Glob.Fast(p.name, name)
  }

  /** One registration by itself: it asks for all tags, lists the key, or has a matching pattern. */
  predicate Covers(scope: Scope, cid: string, name: string) {
    || scope.allTags
    || cid + ":" + name in scope.tags
    || exists p :: p in scope.patterns && p.connection == cid && Glob.Fast(p.name, name)
  }

  lemma MergedDemands(s: Summary, scope: Scope, cid: string, name: string)
    ensures Demands(Merged(s, scope), cid, name) <==> Demands(s, cid, name) || Covers(scope, cid, name)
  {
    hide Glob.Fast;
    var t := Merged(s, scope);
    if scope.allTags {
      assert t.allTags > 0;
    } else {
      var key := cid + ":" + name;
      assert TagCount(t.tags, key) == TagCount(s.tags, key) + (if key in scope.tags then 1 else 0);
      assert forall p :: p in t.patterns <==> p in s.patterns || p in scope.patterns;
    }
  }

  /** The aggregate answers exactly for its registrations, in whatever order they were merged. */
  lemma {:induction false} AggregateIsExact(scopes: seq<Scope>, cid: string, name: string)
    ensures Demands(MergedAll(scopes), cid, name) <==> exists scope :: scope in scopes && Covers(scope, cid, name)
    ensures MergedAll(scopes).registrations == |scopes|
  {
    hide Covers, Demands;
    if scopes == [] {
      NothingDemands(cid, name);
    } else {
      var n := |scopes| - 1;
      AggregateIsExact(scopes[..n], cid, name);
      MergedDemands(MergedAll(scopes[..n]), scopes[n], cid, name);
      assert scopes == scopes[..n] + [scopes[n]];
    }
  }

  lemma NothingDemands(cid: string, name: string)
    ensures !Demands(NOTHING, cid, name)
  {
  }

  /** Connections are exact and patterns mean what they say for every name without a star. */
  lemma CoversMeans(scope: Scope, cid: string, name: string)
    requires '*' !in name
    ensures Covers(scope, cid, name) <==>
      || scope.allTags || cid + ":" + name in scope.tags
      || exists p :: p in scope.patterns && p.connection == cid && Glob.Matches(p.name, name)
  {
    forall p: Pattern
      ensures Glob.Fast(p.name, name) <==> Glob.Matches(p.name, name)
    {
      Glob.FastIsExact(p.name, name);
    }
    hide Glob.Fast, Glob.Matches;
  }

  /** The JSON object of all owners, which scopes are merged into. */
  class DemandIndex {
    var owners: map<string, Summary>

    constructor ()
      ensures owners == map[]
    {
      owners := map[];
    }

    function Of(name: string): Summary
      reads this
    {
      if name in owners then owners[name] else NOTHING
    }

    /** merge_consumer_scope. */
    method Merge(name: string, scope: Scope)
      modifies this
      ensures owners == old(owners)[name := Merged(old(Of(name)), scope)]
    {
      var owner := if name in owners then owners[name] else NOTHING;
      owner := owner.(registrations := owner.registrations + 1);
      if scope.allTags {
        owner := owner.(allTags := owner.allTags + 1);
      } else {
        var tags := IncrementAll(owner.tags, scope.tags);
        owner := owner.(tags := tags);
        for k := 0 to |scope.patterns|
          invariant owner == old(Of(name)).(registrations := old(Of(name)).registrations + 1,
            tags := CountMore(old(Of(name)).tags, scope.tags), patterns := old(Of(name)).patterns + scope.patterns[..k])
        {
          assert scope.patterns[..k + 1] == scope.patterns[..k] + [scope.patterns[k]];
          assert old(Of(name)).patterns + scope.patterns[..k] + [scope.patterns[k]]
              == old(Of(name)).patterns + scope.patterns[..k + 1];
          owner := owner.(patterns := owner.patterns + [scope.patterns[k]]);
        }
        assert scope.patterns[..|scope.patterns|] == scope.patterns;
      }
      owners := owners[name := owner];
    }
  }

  /** The loop over a scope's keys, in any order. */
  method IncrementAll(tags: map<string, nat>, keys: set<string>) returns (counts: map<string, nat>)
    ensures counts == CountMore(tags, keys)
  {
    counts := tags;
    var todo := keys;
    while todo != {}
      invariant todo <= keys && counts == CountMore(tags, keys - todo)
    {
      var key :| key in todo;
      assert keys - (todo - {key}) == (keys - todo) + {key};
      counts := counts[key := TagCount(counts, key) + 1];
      todo := todo - {key};
    }
    assert keys - {} == keys;
  }

  /** consumer_demand_matches: any registration for all tags, the key itself, or a pattern of the connection. */
  method ConsumerDemandMatches(owner: Summary, cid: string, name: string) returns (matched: bool)
    ensures matched == Demands(owner, cid, name)
  {
    if owner.allTags > 0 || TagCount(owner.tags, cid + ":" + name) > 0 { return true; }
    for k := 0 to |owner.patterns|
      invariant forall p | p in owner.patterns[..k] :: !(p.connection == cid && Glob.Fast(p.name, name))
    {
      hide Glob.Fast;
      var p := owner.patterns[k];
      assert p in owner.patterns;
      assert owner.patterns[..k + 1] == owner.patterns[..k] + [p];
      if p.connection == cid {
        var hit := Glob.ConsumerDemandGlob(p.name, name);
        if hit { return true; }
      }
    }
    assert owner.patterns[..|owner.patterns|] == owner.patterns;
    matched := false;
  }
}
