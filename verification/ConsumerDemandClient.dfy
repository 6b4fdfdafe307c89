/** The heartbeat of a consumer: it registers what its provider wants at each base URL, renews every ten seconds,
    and releases what is no longer wanted. With the server's leases it forms a two-party protocol.
 */
module ConsumerDemandClientModel {
  import opened ConsumerDemandModel
  import opened ConsumerDemandLeasesModel

  type Base = string

  datatype Sent = Sent(scope: Message, next: int)
  datatype Post = Post(body: Message, release: bool)
  datatype Sending = Sending(base: Base, post: Post)

  const RENEW_MS := 10_000

  const EMPTY := Message(true, Missing, Missing, Missing, Missing, Missing, Missing)

  // ---------------------------------------------------------------- one pass at one base URL

  /** The posted body: the scope, or an empty object, with both identifiers set. */
  function Body(scope: Message, client: string, owner: string): Message {
    (if scope.isObject then scope else EMPTY).(clientId := Is(client), owner := Is(owner))
  }

  predicate Due(before: Option<Sent>, scope: Message, now: int) {
    before.None? || before.value.scope != scope || now >= before.value.next
  }

  /** What is remembered as sent after the pass. */
  function Remembered(before: Option<Sent>, want: Option<Message>, now: int): Option<Sent> {
    match want
    case None => None
    case Some(scope) => if Due(before, scope, now) then Some(Sent(scope, now + RENEW_MS)) else before
  }

  /** The post the pass makes, if any. */
  function Posted(before: Option<Sent>, want: Option<Message>, now: int, client: string, owner: string): seq<Post> {
    match want
    case None => if before.Some? then [Post(Body(EMPTY, client, owner), true)] else []
    case Some(scope) => if Due(before, scope, now) then [Post(Body(scope, client, owner), false)] else []
  }

  function At<V>(m: map<Base, V>, base: Base): Option<V> { if base in m then Some(m[base]) else None }

  function PostsTo(posts: seq<Sending>, base: Base): seq<Post> {
    if posts == [] then []
    else
      PostsTo(posts[..|posts| - 1], base) + (if posts[|posts| - 1].base == base then [posts[|posts| - 1].post] else [])
  }

  /** One base URL is as the pass should leave it. */
  predicate TurnTaken(before: map<Base, Sent>, after: map<Base, Sent>, posts: seq<Sending>, want: Option<Message>,
      base: Base, now: int, client: string, owner: string) {
    && At(after, base) == Remembered(At(before, base), want, now)
    && PostsTo(posts, base) == Posted(At(before, base), want, now, client, owner)
  }

  predicate Untouched(before: map<Base, Sent>, after: map<Base, Sent>, posts: seq<Sending>, base: Base) {
    At(after, base) == At(before, base) && PostsTo(posts, base) == []
  }

  lemma OnePostMore(posts: seq<Sending>, sending: Sending, base: Base)
    ensures PostsTo(posts + [sending], base)
      == PostsTo(posts, base) + (if sending.base == base then [sending.post] else [])
  {
    assert (posts + [sending])[..|posts|] == posts;
  }

  /** These bases have been released and forgotten, each with one post; nothing happened to the others. */
  predicate ReleasedAt(before: map<Base, Sent>, after: map<Base, Sent>, posts: seq<Sending>, done: set<Base>,
      base: Base, client: string, owner: string) {
    if base in done then base !in after && PostsTo(posts, base) == [Post(Body(EMPTY, client, owner), true)]
    else Untouched(before, after, posts, base)
  }

  lemma ReleaseOneMore(before: map<Base, Sent>, after: map<Base, Sent>, posts: seq<Sending>, done: set<Base>,
      next: Base, client: string, owner: string)
    requires next !in done && forall base :: ReleasedAt(before, after, posts, done, base, client, owner)
    ensures forall base :: ReleasedAt(before, after - {next},
                                      posts + [Sending(next, Post(Body(EMPTY, client, owner), true))],
      done + {next}, base, client, owner)
  {
    hide Body;
    var sending := Sending(next, Post(Body(EMPTY, client, owner), true));
    forall base ensures ReleasedAt(before, after - {next}, posts + [sending], done + {next}, base, client, owner) {
      assert ReleasedAt(before, after, posts, done, base, client, owner);
      OnePostMore(posts, sending, base);
    }
  }

  /** A pass that got through these desired bases: they and the undesired ones have had their turn, the rest not. */
  predicate PassedAt(before: map<Base, Sent>, after: map<Base, Sent>, posts: seq<Sending>, desired: map<Base, Message>,
      clock: map<Base, int>, done: seq<Base>, base: Base, client: string, owner: string) {
    if base !in desired then TurnTaken(before, after, posts, None, base, 0, client, owner)
    else if base in done then
      base in clock && TurnTaken(before, after, posts, Some(desired[base]), base, clock[base], client, owner)
    else Untouched(before, after, posts, base)
  }

  ghost predicate Passed(before: map<Base, Sent>, after: map<Base, Sent>, posts: seq<Sending>, desired: map<Base,
      Message>,
      clock: map<Base, int>, done: seq<Base>, client: string, owner: string) {
    forall base :: PassedAt(before, after, posts, desired, clock, done, base, client, owner)
  }

  function AfterVisit(sent: map<Base, Sent>, base: Base, scope: Message, now: int): map<Base, Sent> {
    if Due(At(sent, base), scope, now) then sent[base := Sent(scope, now + RENEW_MS)] else sent
  }

  function PostsAfterVisit(posts: seq<Sending>, sent: map<Base, Sent>, base: Base, scope: Message, now: int,
      client: string, owner: string): seq<Sending> {
    if Due(At(sent, base), scope, now) then posts + [Sending(base, Post(Body(scope, client, owner), false))] else posts
  }

  lemma PassOneMore(before: map<Base, Sent>, after: map<Base, Sent>, posts: seq<Sending>, desired: map<Base, Message>,
      clock: map<Base, int>, done: seq<Base>, next: Base, client: string, owner: string)
    requires next !in done && next in desired && next in clock
    requires Passed(before, after, posts, desired, clock, done, client, owner)
    ensures Passed(before, AfterVisit(after, next, desired[next], clock[next]),
      PostsAfterVisit(posts, after, next, desired[next], clock[next], client, owner), desired, clock,
      done + [next], client, owner)
  {
    hide Body, PostsTo, Due;
    var after' := AfterVisit(after, next, desired[next], clock[next]);
    var posts' := PostsAfterVisit(posts, after, next, desired[next], clock[next], client, owner);
    forall base ensures PassedAt(before, after', posts', desired, clock, done + [next], base, client, owner) {
      assert PassedAt(before, after, posts, desired, clock, done, base, client, owner);
      OnePostMore(posts, Sending(next, Post(Body(desired[next], client, owner), false)), base);
      assert base in done + [next] <==> base in done || base == next;
    }
  }

  // ---------------------------------------------------------------- the class

  class ConsumerDemandClient {
    const client: string
    const owner: string
    var sent: map<Base, Sent>
    var posts: seq<Sending>

    constructor (client: string, owner: string)
      ensures this.client == client && this.owner == owner && sent == map[] && posts == []
    {
      this.client := client;
      this.owner := owner;
      sent := map[];
      posts := [];
    }

    /** Posts a release for each of these bases and forgets them, in any order. */
    method ReleaseAll(bases: set<Base>)
      requires bases <= sent.Keys
      modifies this
      ensures old(posts) <= posts
      ensures forall base :: ReleasedAt(old(sent), sent, posts[|old(posts)|..], bases, base, client, owner)
    {
      var todo := bases;
      ghost var made := [];
      while todo != {}
        invariant todo <= bases && posts == old(posts) + made
        invariant forall base :: ReleasedAt(old(sent), sent, made, bases - todo, base, client, owner)
      {
        hide ReleasedAt, Body;
        var base :| base in todo;
        ReleaseOneMore(old(sent), sent, made, bases - todo, base, client, owner);
        assert bases - todo + {base} == bases - (todo - {base});
        var sending := Sending(base, Post(Body(EMPTY, client, owner), true));
        posts, made := posts + [sending], made + [sending];
        sent := sent - {base};
        todo := todo - {base};
      }
      assert bases - {} == bases && posts[|old(posts)|..] == made;
    }

    /** One desired scope: posted when it is new, changed or due for renewal. */
    method Visit(base: Base, scope: Message, now: int, ghost made: seq<Sending>, ghost earlier: seq<Sending>)
      returns (ghost more: seq<Sending>)
      requires posts == earlier + made
      modifies this
      ensures sent == AfterVisit(old(sent), base, scope, now)
      ensures more == PostsAfterVisit(made, old(sent), base, scope, now, client, owner)
      ensures posts == earlier + more
    {
      hide Body;
      more := made;
      if base !in sent || sent[base].scope != scope || now >= sent[base].next {
        var sending := Sending(base, Post(Body(scope, client, owner), false));
        posts, more := posts + [sending], made + [sending];
        sent := sent[base := Sent(scope, now + RENEW_MS)];
      }
    }

    /** One pass of the worker. The provider's answer is `desired`, listed in `order`; `clock` holds the instant read
        for each base; the stop flag is seen before entry `stop` (at the end when it is not raised). */
    method Pass(desired: map<Base, Message>, order: seq<Base>, clock: map<Base, int>, stop: nat)
      requires forall base :: base in order <==> base in desired
      requires forall i, j :: 0 <= i < j < |order| ==> order[i] != order[j]
      requires desired.Keys <= clock.Keys && stop <= |order|
      modifies this
      ensures old(posts) <= posts
      ensures Passed(old(sent), sent, posts[|old(posts)|..], desired, clock, order[..stop], client, owner)
    {
      var gone := set base | base in sent && base !in desired;
      ReleaseAll(gone);
      ghost var made := posts[|old(posts)|..];
      ReleaseIsFirstPart(old(sent), sent, made, desired, clock, client, owner);
      for k := 0 to stop
        invariant posts == old(posts) + made
        invariant Passed(old(sent), sent, made, desired, clock, order[..k], client, owner)
      {
        hide *;
        var base := order[k];
        NotBefore(order, k);
        PassOneMore(old(sent), sent, made, desired, clock, order[..k], base, client, owner);
        made := Visit(base, desired[base], clock[base], made, old(posts));
      }
      assert posts[|old(posts)|..] == made;
    }

    /** The end of the worker: everything remembered is released. */
    method Stop()
      modifies this
      ensures old(posts) <= posts
      ensures forall base :: ReleasedAt(old(sent), sent, posts[|old(posts)|..], old(sent).Keys, base, client, owner)
    {
      ReleaseAll(sent.Keys);
    }
  }

  lemma NotBefore(order: seq<Base>, k: nat)
    requires k < |order| && forall i, j :: 0 <= i < j < |order| ==> order[i] != order[j]
    ensures order[k] !in order[..k] && order[..k + 1] == order[..k] + [order[k]] && order[k] in order
  {
  }

  lemma ReleaseIsFirstPart(before: map<Base, Sent>, after: map<Base, Sent>, posts: seq<Sending>, desired: map<Base,
      Message>,
      clock: map<Base, int>, client: string, owner: string)
    requires
      var gone := set base | base in before && base !in desired;
      forall base :: ReleasedAt(before, after, posts, gone, base, client, owner)
    ensures Passed(before, after, posts, desired, clock, [], client, owner)
  {
    hide Body, PostsTo;
    var gone := set base | base in before && base !in desired;
    forall base ensures PassedAt(before, after, posts, desired, clock, [], base, client, owner) {
      assert ReleasedAt(before, after, posts, gone, base, client, owner);
    }
  }

  // ---------------------------------------------------------------- client and server together

  /** What happens at one server: a pass of this client's loop, with the provider's answer for this base and whether
      a post it makes arrives, or an operation of anybody else. */
  datatype Happening =
    | Beat(now: int, want: Answer, arrives: bool)
    | Elsewhere(now: int, op: Op)

  datatype Answer = ProviderFailed | Wants(scope: Message) | WantsNothing

  /** The client's memory for this base and the server's entries; as history, the scope last accepted, the failed
      posts since, and the last pass in which the provider returned a scope. */
  datatype System = System(sent: Option<Sent>, entries: Entries, held: Option<Scope>, failed: nat, last: Option<int>)

  /** The server handles a post that arrives; the answer is whether it was accepted. */
  function Received(entries: Entries, post: Post, now: int): (Entries, bool) {
    match OpOf(post.body, post.release)
    case Some(op) => (Step(entries, Event(op, now)), true)
    case None => (entries, false)
  }

  function ScopePosted(post: Post): Option<Scope> {
    match OpOf(post.body, post.release)
    case Some(Renew(key, scope)) => Some(scope)
    case _ => None
  }

  function Next(s: System, h: Happening, client: string, owner: string): System {
    match h
    case Elsewhere(now, op) => s.(entries := Step(s.entries, Event(op, now)))
    case Beat(now, ProviderFailed, arrives) => s
    case Beat(now, WantsNothing, arrives) =>
      var posts := Posted(s.sent, None, now, client, owner);
      s.(sent := Remembered(s.sent, None, now),
         entries := if posts != [] && arrives then Received(s.entries, posts[0], now).0 else s.entries)
    case Beat(now, Wants(scope), arrives) =>
      var posts := Posted(s.sent, Some(scope), now, client, owner);
      var t := s.(sent := Remembered(s.sent, Some(scope), now), last := Some(now));
      if posts == [] then t
      else
        var (entries, accepted) := Received(s.entries, posts[0], now);
        if arrives && accepted then t.(entries := entries, held := ScopePosted(posts[0]), failed := 0)
        else t.(failed := s.failed + 1)
  }

  function Start(entries: Entries): System { System(None, entries, None, 0, None) }

  function Reached(run: seq<Happening>, entries: Entries, client: string, owner: string): System {
    if run == [] then Start(entries)
    else Next(Reached(run[..|run| - 1], entries, client, owner), run[|run| - 1], client, owner)
  }

  /** The circumstances of one happening: nobody else uses this client's identifier, the provider does not withdraw its
      demand, and the last pass with a scope is at most `gap` ago. */
  predicate Steady(s: System, h: Happening, gap: nat, client: string, owner: string) {
    && (h.Elsewhere? ==> !Touches(h.op, (client, owner)))
    && (h.Beat? ==> !h.want.WantsNothing?)
    && (s.last.Some? ==> s.last.value <= h.now <= s.last.value + gap)
  }

  /** Throughout the run: steady circumstances, time does not go back, at most `k` posts in a row fail. */
  predicate SteadyRun(run: seq<Happening>, entries: Entries, gap: nat, k: nat, client: string, owner: string) {
    && (forall i :: 0 <= i < |run| ==> Steady(Reached(run[..i], entries, client, owner), run[i], gap, client, owner))
    && (forall i :: 0 <= i <= |run| ==> Reached(run[..i], entries, client, owner).failed <= k)
  }

  /** The lease was renewed at t and last posted at p, with at most one renewal period per failure in between. */
  predicate LeaseKept(s: System, gap: nat, key: Key) {
    s.held.Some? ==>
      && s.last.Some? && s.sent.Some? && key in s.entries
      && s.entries[key].scope == s.held.value
      && s.last.value < s.sent.value.next
      && s.sent.value.next - RENEW_MS <= s.entries[key].until - LEASE_MS + s.failed * (RENEW_MS + gap)
  }

  lemma AcceptedRenewal(scope: Message, client: string, owner: string)
    ensures
      var op := OpOf(Body(scope, client, owner), false);
      op.Some? ==> op.value.Renew? && op.value.key == (client, owner)
  {
  }

  lemma Product(a: nat, b: nat, c: nat)
    requires a <= b
    ensures a * c <= b * c && (a + 1) * c == a * c + c
  {
  }

  /** Nothing due is left undone for longer than a renewal period and a gap. */
  lemma NotExpired(s: System, now: int, gap: nat, k: nat, key: Key)
    requires LeaseKept(s, gap, key) && s.held.Some? && s.failed <= k && (k + 1) * (RENEW_MS + gap) < LEASE_MS
    requires now <= s.last.value + gap
    ensures Holds(s.entries, key, s.held.value, now)
  {
    Product(s.failed, k, RENEW_MS + gap);
    Product(k, k, RENEW_MS + gap);
  }

  lemma OthersKeepLease(s: System, h: Happening, gap: nat, k: nat, client: string, owner: string)
    requires h.Elsewhere? && Steady(s, h, gap, client, owner) && LeaseKept(s, gap, (client, owner))
    requires s.failed <= k && (k + 1) * (RENEW_MS + gap) < LEASE_MS
    ensures LeaseKept(Next(s, h, client, owner), gap, (client, owner))
  {
    if s.held.Some? { NotExpired(s, h.now, gap, k, (client, owner)); }
  }

  lemma BeatKeepsLease(s: System, h: Happening, gap: nat, k: nat, client: string, owner: string)
    requires h.Beat? && Steady(s, h, gap, client, owner) && LeaseKept(s, gap, (client, owner))
    requires s.failed <= k && (k + 1) * (RENEW_MS + gap) < LEASE_MS
    ensures LeaseKept(Next(s, h, client, owner), gap, (client, owner))
  {
    if h.want.Wants? {
      AcceptedRenewal(h.want.scope, client, owner);
      Product(s.failed, s.failed, RENEW_MS + gap);
      hide OpOf, Body;
    }
  }

  lemma NothingHeld(entries: Entries, gap: nat, key: Key)
    ensures LeaseKept(Start(entries), gap, key)
  {
  }

  lemma {:induction false} LeaseIsKept(run: seq<Happening>, entries: Entries, gap: nat, k: nat, client: string,
      owner: string)
    requires SteadyRun(run, entries, gap, k, client, owner) && (k + 1) * (RENEW_MS + gap) < LEASE_MS
    ensures LeaseKept(Reached(run, entries, client, owner), gap, (client, owner))
  {
    hide LeaseKept, Next, Steady;
    if run == [] {
      NothingHeld(entries, gap, (client, owner));
    } else {
      var n := |run| - 1;
      var g := run[..n];
      assert forall i | 0 <= i <= n :: g[..i] == run[..i];
      LeaseIsKept(g, entries, gap, k, client, owner);
      assert g[..n] == g;
      var s := Reached(g, entries, client, owner);
      if run[n].Beat? { BeatKeepsLease(s, run[n], gap, k, client, owner); }
      else { OthersKeepLease(s, run[n], gap, k, client, owner); }
    }
  }

  /** Once a registration has been accepted, the lease does not lapse: at any instant up to a gap after the last pass,
      the server holds the scope it last accepted, whatever other clients did and whichever posts failed. */
  lemma LeaseNeverLapses(run: seq<Happening>, entries: Entries, gap: nat, k: nat, client: string, owner: string,
      now: int)
    requires SteadyRun(run, entries, gap, k, client, owner) && (k + 1) * (RENEW_MS + gap) < LEASE_MS
    requires
      var s := Reached(run, entries, client, owner);
      s.held.Some? && s.last.Some? && now <= s.last.value + gap
    ensures
      var s := Reached(run, entries, client, owner);
      Holds(s.entries, (client, owner), s.held.value, now)
  {
    hide LeaseKept, Reached, Holds;
    assert run[..|run|] == run;
    LeaseIsKept(run, entries, gap, k, client, owner);
    NotExpired(Reached(run, entries, client, owner), now, gap, k, (client, owner));
  }
}
