/** What a sync run promises: it preserves, converges, is idempotent, accounts for every key, and is predicted exactly
    by its dry run.
 */
module DatabaseSyncTheorems {
  import opened DatabaseSyncModel

  // ---------------------------------------------------------------- nothing is lost

  lemma VisitGrows(job: Job, ca: Candidates, cb: Candidates, dry: bool, p: Progress, key: Key, reply: Reply)
    requires key in ca || key in cb
    ensures
      var q := Visit(job, ca, cb, dry, p, key, reply);
      && p.a <= q.a && p.b <= q.b
      && |q.a| + |q.b| - q.out.inserted == |p.a| + |p.b| - p.out.inserted
  {
    hide StatusOf, IdentityIn;
  }

  lemma {:induction false} LoopGrows(job: Job, ca: Candidates, cb: Candidates, dry: bool, p: Progress, order: seq<Key>,
      replies: map<Key, Reply>)
    requires forall key :: key in order ==> key in ca || key in cb
    ensures
      var q := VisitAll(job, ca, cb, dry, p, order, replies);
      && p.a <= q.a && p.b <= q.b
      && |q.a| + |q.b| - q.out.inserted == |p.a| + |p.b| - p.out.inserted
  {
    hide Visit;
    if order != [] {
      var n := |order| - 1;
      LoopGrows(job, ca, cb, dry, p, order[..n], replies);
      VisitGrows(job, ca, cb, dry, VisitAll(job, ca, cb, dry, p, order[..n], replies), order[n],
          ReplyTo(replies, order[n]));
    }
  }

  /** No run, successful or not, removes or changes an existing row; a run that is not successful for want of a second
      commit alone leaves anything behind, and a dry run or one that meets a failure nothing at all. */
  lemma RunPreserves(job: Job, w: Window, dry: bool, x: SyncRun)
    requires IsRun(job, w, dry, x)
    ensures x.before.a <= x.after.a && x.before.b <= x.after.b
    ensures dry || (!x.after.out.ok && !(x.commitsA && !x.commitsB)) ==>
      x.after.a == x.before.a && x.after.b == x.before.b
    ensures x.after.out.ok && !dry ==> |x.after.a| + |x.after.b| == |x.before.a| + |x.before.b| + x.after.out.inserted
    ensures x.after.out.failed > 0 ==>
      !x.after.out.ok && x.after.out.inserted == 0 && x.after.a == x.before.a && x.after.b == x.before.b
  {
    hide VisitAll, Loaded;
    assert forall key :: key in x.order ==> key in x.ca || key in x.cb;
    LoopGrows(job, x.ca, x.cb, dry, x.before, x.order, x.replies);
    LoopKeeps(job, x.ca, x.cb, dry, x.before, x.order, x.replies);
    var p := VisitAll(job, x.ca, x.cb, dry, x.before, x.order, x.replies);
    if dry { DryLoopNeverFails(job, x.ca, x.cb, x.before, x.order, x.replies); }
  }

  lemma {:induction false} DryLoopNeverFails(job: Job, ca: Candidates, cb: Candidates, p: Progress, order: seq<Key>,
      replies: map<Key, Reply>)
    requires forall key :: key in order ==> key in ca || key in cb
    ensures VisitAll(job, ca, cb, true, p, order, replies).out.failed == p.out.failed
    ensures VisitAll(job, ca, cb, true, p, order, replies).out.inserted == p.out.inserted
  {
    hide StatusOf;
    if order != [] { DryLoopNeverFails(job, ca, cb, p, order[..|order| - 1], replies); }
  }

  /** The visit of this key puts a row into A. */
  predicate EntersA(job: Job, ca: Candidates, cb: Candidates, replies: map<Key, Reply>, key: Key)
    requires key in ca || key in cb
  {
    StatusOf(job, ca, cb, key) == BToA && ReplyTo(replies, key).accepts
  }

  lemma VisitEntersA(job: Job, ca: Candidates, cb: Candidates, p: Progress, key: Key, replies: map<Key, Reply>)
    requires key in ca || key in cb
    ensures
      var q := Visit(job, ca, cb, false, p, key, ReplyTo(replies, key));
      && q.out.failed >= p.out.failed
      && if EntersA(job, ca, cb, replies, key) then |q.a| == |p.a| + 1 else q.a == p.a
  {
    hide StatusOf, IdentityIn, ReplyTo;
  }

  /** A loop that met no failure has changed A exactly if it put a row there. */
  lemma {:induction false} LoopEntersA(job: Job, ca: Candidates, cb: Candidates, p: Progress, order: seq<Key>,
      replies: map<Key, Reply>)
    requires p.out.failed >= 0 && forall key :: key in order ==> key in ca || key in cb
    ensures
      var q := VisitAll(job, ca, cb, false, p, order, replies);
      && q.out.failed >= p.out.failed && |q.a| >= |p.a|
      && (q.out.failed == 0 ==>
           if exists key :: key in order && EntersA(job, ca, cb, replies, key) then |q.a| > |p.a| else q.a == p.a)
  {
    hide Visit, EntersA;
    if order != [] {
      var n := |order| - 1;
      assert order == order[..n] + [order[n]];
      assert forall key :: key in order <==> key in order[..n] || key == order[n];
      LoopEntersA(job, ca, cb, p, order[..n], replies);
      VisitEntersA(job, ca, cb, VisitAll(job, ca, cb, false, p, order[..n], replies), order[n], replies);
    }
  }

  /** A run that is not successful leaves B, and changes A exactly if no key failed, A committed, B did not, and a row
      was put into A. */
  lemma PartialCommit(job: Job, w: Window, x: SyncRun)
    requires IsRun(job, w, false, x)
    ensures forall key :: key in x.order ==> key in x.ca || key in x.cb
    ensures !x.after.out.ok ==> x.after.b == x.before.b
    ensures !x.after.out.ok ==>
      (x.after.a != x.before.a <==>
        && x.after.out.failed == 0 && x.commitsA && !x.commitsB
        && exists key :: key in x.order && EntersA(job, x.ca, x.cb, x.replies, key))
  {
    assert forall key :: key in x.order ==> key in x.ca || key in x.cb;
    hide VisitAll, Loaded, EntersA;
    LoopEntersA(job, x.ca, x.cb, x.before, x.order, x.replies);
    LoopKeeps(job, x.ca, x.cb, false, x.before, x.order, x.replies);
  }

  // ---------------------------------------------------------------- every key is accounted for

  function OnlyInB(job: Job, ca: Candidates, cb: Candidates, order: seq<Key>): nat
    requires forall key :: key in order ==> key in ca || key in cb
  {
    if order == [] then 0
    else
      var n := |order| - 1;
      OnlyInB(job, ca, cb, order[..n]) + (if StatusOf(job, ca, cb, order[n]) == BOnly then 1 else 0)
  }

  /** After `n` keys of which `only` were in B alone, without their being copied. */
  predicate Accounted(out: Result, dry: bool, n: nat, only: nat) {
    && out.aToB >= 0 && out.bToA >= 0 && out.matching >= 0 && out.conflicts >= 0 && 0 <= out.failed <= 1
    && out.aToB + out.bToA + out.matching + out.conflicts + only == n
    && out.skipped == out.matching + out.conflicts + only
    && (if dry then out.inserted == 0 == out.failed else out.inserted + out.failed == out.aToB + out.bToA)
  }

  lemma VisitAccounts(job: Job, ca: Candidates, cb: Candidates, dry: bool, p: Progress, key: Key, reply: Reply, n: nat,
      only: nat)
    requires (key in ca || key in cb) && p.out.failed == 0 && Accounted(p.out, dry, n, only)
    ensures Accounted(Visit(job, ca, cb, dry, p, key, reply).out, dry, n + 1,
      only + if StatusOf(job, ca, cb, key) == BOnly then 1 else 0)
  {
    hide StatusOf, IdentityIn;
  }

  /** The account holds for the keys that were visited: all of them unless the loop was left. */
  lemma {:induction false} LoopAccounts(job: Job, ca: Candidates, cb: Candidates, dry: bool, p: Progress,
      order: seq<Key>, replies: map<Key, Reply>) returns (n: nat)
    requires forall key :: key in order ==> key in ca || key in cb
    requires CleanSlate(p.out)
    ensures n <= |order|
    ensures
      var out := VisitAll(job, ca, cb, dry, p, order, replies).out;
      Accounted(out, dry, n, OnlyInB(job, ca, cb, order[..n])) && (out.failed == 0 ==> n == |order|)
  {
    hide Visit, StatusOf;
    n := |order|;
    if order == [] {
      assert order[..n] == [];
    } else {
      n := n - 1;
      var m := LoopAccounts(job, ca, cb, dry, p, order[..n], replies);
      assert order[..n][..m] == order[..m];
      var q := VisitAll(job, ca, cb, dry, p, order[..n], replies);
      if q.out.failed > 0 {
        n := m;
      } else {
        VisitAccounts(job, ca, cb, dry, q, order[n], ReplyTo(replies, order[n]), n, OnlyInB(job, ca, cb, order[..n]));
        n := n + 1;
        assert order[..n] == order;
      }
    }
  }

  lemma {:induction false} EnumerationSize(order: seq<Key>, keys: set<Key>)
    requires Enumerates(order, keys)
    ensures |order| == |keys|
  {
    if order != [] {
      var n := |order| - 1;
      assert order == order[..n] + [order[n]];
      EnumerationSize(order[..n], keys - {order[n]});
    }
  }

  /** Conservation: the classes partition the selected keys, in every successful run, whichever inserts were found to be
      unnecessary; and what was inserted is what was classified as copied. */
  lemma CountersConserve(job: Job, w: Window, dry: bool, x: SyncRun)
    requires IsRun(job, w, dry, x)
    ensures forall key :: key in x.order ==> key in x.ca || key in x.cb
    ensures x.after.out.ok ==>
      var only := OnlyInB(job, x.ca, x.cb, x.order);
      && x.after.out.aToB + x.after.out.bToA + x.after.out.matching + x.after.out.conflicts + only
        == x.after.out.selected
      && x.after.out.skipped == x.after.out.matching + x.after.out.conflicts + only
      && x.after.out.inserted == x.after.out.aToB + x.after.out.bToA
      && x.after.out.failed == 0
    ensures x.after.out.failed <= 1
    ensures x.after.out.failed == 1 ==>
      x.after.out.aToB + x.after.out.bToA + x.after.out.matching + x.after.out.conflicts <= x.after.out.selected
  {
    hide VisitAll, Loaded;
    assert forall key :: key in x.order ==> key in x.ca || key in x.cb;
    var n := LoopAccounts(job, x.ca, x.cb, dry, x.before, x.order, x.replies);
    LoopKeeps(job, x.ca, x.cb, dry, x.before, x.order, x.replies);
    EnumerationSize(x.order, x.ca.Keys + x.cb.Keys);
    assert n == |x.order| ==> x.order[..n] == x.order;
    hide Enumerates, OnlyInB;
  }

  // ---------------------------------------------------------------- convergence

  /** A key that was missing on one side now has, there, a row with its own time and item. */
  predicate Copied(job: Job, ca: Candidates, cb: Candidates, p: Progress, key: Key)
    requires key in ca || key in cb
  {
    match StatusOf(job, ca, cb, key)
    case AToB => IdentityIn(p.b, ca[key])
    case BToA => IdentityIn(p.a, cb[key])
    case _ => true
  }

  lemma IdentityStays(table: Table, larger: Table, r: Row)
    requires table <= larger && IdentityIn(table, r)
    ensures IdentityIn(larger, r)
  {
    var q :| q in table && SameIdentity(q, r);
    assert q in larger;
  }

  lemma InsertCopies(table: Table, r: Row, reply: Reply)
    ensures InsertInto(table, r, reply).1 == Failed || IdentityIn(InsertInto(table, r, reply).0, r)
  {
    assert SameIdentity(r, r);
    if reply.accepts { assert r in table + multiset{r}; }
  }

  lemma VisitCopies(job: Job, ca: Candidates, cb: Candidates, p: Progress, key: Key, reply: Reply)
    requires key in ca || key in cb
    ensures
      var q := Visit(job, ca, cb, false, p, key, reply);
      q.out.failed > p.out.failed || Copied(job, ca, cb, q, key)
  {
    if key in ca { InsertCopies(p.b, ca[key], reply); }
    if key in cb { InsertCopies(p.a, cb[key], reply); }
    hide InsertInto, IdentityIn;
  }

  lemma CopiedStays(job: Job, ca: Candidates, cb: Candidates, p: Progress, q: Progress, key: Key)
    requires (key in ca || key in cb) && Copied(job, ca, cb, p, key) && p.a <= q.a && p.b <= q.b
    ensures Copied(job, ca, cb, q, key)
  {
    hide IdentityIn;
    match StatusOf(job, ca, cb, key)
    case AToB => IdentityStays(p.b, q.b, ca[key]);
    case BToA => IdentityStays(p.a, q.a, cb[key]);
    case _ =>
  }

  lemma {:induction false} LoopCopies(job: Job, ca: Candidates, cb: Candidates, p: Progress, order: seq<Key>,
      replies: map<Key, Reply>, key: Key)
    requires (forall k :: k in order ==> k in ca || k in cb) && key in order
    requires p.out.failed >= 0 && VisitAll(job, ca, cb, false, p, order, replies).out.failed <= 0
    ensures Copied(job, ca, cb, VisitAll(job, ca, cb, false, p, order, replies), key)
  {
    hide Visit, Copied;
    var n := |order| - 1;
    assert order == order[..n] + [order[n]];
    var q := VisitAll(job, ca, cb, false, p, order[..n], replies);
    FailedGrows(job, ca, cb, p, order[..n], replies);
    VisitGrows(job, ca, cb, false, q, order[n], ReplyTo(replies, order[n]));
    if key == order[n] {
      VisitCopies(job, ca, cb, q, key, ReplyTo(replies, key));
    } else {
      LoopCopies(job, ca, cb, p, order[..n], replies, key);
      CopiedStays(job, ca, cb, q, VisitAll(job, ca, cb, false, p, order, replies), key);
    }
  }

  lemma VisitFailedGrows(job: Job, ca: Candidates, cb: Candidates, p: Progress, key: Key, reply: Reply)
    requires key in ca || key in cb
    ensures Visit(job, ca, cb, false, p, key, reply).out.failed >= p.out.failed
  {
    hide StatusOf, InsertInto;
  }

  lemma {:induction false} FailedGrows(job: Job, ca: Candidates, cb: Candidates, p: Progress, order: seq<Key>,
      replies: map<Key, Reply>)
    requires forall k :: k in order ==> k in ca || k in cb
    ensures VisitAll(job, ca, cb, false, p, order, replies).out.failed >= p.out.failed
  {
    hide Visit;
    if order != [] {
      var n := |order| - 1;
      FailedGrows(job, ca, cb, p, order[..n], replies);
      VisitFailedGrows(job, ca, cb, VisitAll(job, ca, cb, false, p, order[..n], replies), order[n],
          ReplyTo(replies, order[n]));
    }
  }

  /** Every row of a side is an old one or the copy of a candidate whose key was missing there. */
  predicate Origin(job: Job, ca: Candidates, cb: Candidates, p: Progress, q: Progress, order: seq<Key>, r: Row)
    requires forall k :: k in order ==> k in ca || k in cb
  {
    && (r in q.a ==> r in p.a || exists k :: k in order && StatusOf(job, ca, cb, k) == BToA && r == cb[k])
    && (r in q.b ==> r in p.b || exists k :: k in order && StatusOf(job, ca, cb, k) == AToB && r == ca[k])
  }

  lemma VisitOrigin(job: Job, ca: Candidates, cb: Candidates, dry: bool, p: Progress, key: Key, reply: Reply, r: Row)
    requires key in ca || key in cb
    ensures
      var q := Visit(job, ca, cb, dry, p, key, reply);
      && (r in q.a ==> r in p.a || (StatusOf(job, ca, cb, key) == BToA && r == cb[key]))
      && (r in q.b ==> r in p.b || (StatusOf(job, ca, cb, key) == AToB && r == ca[key]))
  {
    hide IdentityIn;
  }

  lemma {:induction false} LoopOrigin(job: Job, ca: Candidates, cb: Candidates, dry: bool, p: Progress, order: seq<Key>,
      replies: map<Key, Reply>, r: Row)
    requires forall k :: k in order ==> k in ca || k in cb
    ensures Origin(job, ca, cb, p, VisitAll(job, ca, cb, dry, p, order, replies), order, r)
  {
    hide Visit, StatusOf;
    if order != [] {
      var n := |order| - 1;
      assert order == order[..n] + [order[n]];
      LoopOrigin(job, ca, cb, dry, p, order[..n], replies, r);
      VisitOrigin(job, ca, cb, dry, VisitAll(job, ca, cb, dry, p, order[..n], replies), order[n],
          ReplyTo(replies, order[n]), r);
    }
  }

  lemma SameIdentitySameKey(job: Job, w: Window, side: Side, other: Side, r: Row, q: Row)
    requires OneBucketing(job) && SameIdentity(r, q)
    ensures KeyOf(job, side, r) == KeyOf(job, other, q) && (InScope(job, w, r) <==> InScope(job, w, q))
  {
    hide Period, LocalTime;
    assert LocalTime(job, A, r.time) == LocalTime(job, B, r.time);
  }

  lemma IdentityIsKey(job: Job, w: Window, side: Side, other: Side, source: Table, table: Table, r: Row, key: Key)
    requires OneBucketing(job) && InGroup(job, w, other, source, r, key) && IdentityIn(table, r)
    ensures Has(job, w, side, table, key)
  {
    hide KeyOf, InScope, OneBucketing;
    var q :| q in table && SameIdentity(q, r);
    SameIdentitySameKey(job, w, side, other, q, r);
    assert InGroup(job, w, side, table, q, key);
  }

  /** Keys on a side after the loop were on one of the sides before it. */
  lemma NoNewKeys(job: Job, w: Window, dry: bool, before: Progress, replies: map<Key, Reply>,
      ca: Candidates, cb: Candidates, order: seq<Key>, key: Key)
    requires OneBucketing(job) && Loaded(job, w, A, before.a, ca) && Loaded(job, w, B, before.b, cb)
    requires forall k :: k in order ==> k in ca || k in cb
    ensures
      var q := VisitAll(job, ca, cb, dry, before, order, replies);
      Has(job, w, A, q.a, key) || Has(job, w, B, q.b, key) ==> key in ca || key in cb
  {
    hide VisitAll, KeyOf, InScope, OneBucketing;
    var q := VisitAll(job, ca, cb, dry, before, order, replies);
    forall r | InGroup(job, w, A, q.a, r, key) ensures key in ca || key in cb {
      LoopOrigin(job, ca, cb, dry, before, order, replies, r);
      if r in before.a {
        assert InGroup(job, w, A, before.a, r, key);
      } else {
        var k :| k in order && StatusOf(job, ca, cb, k) == BToA && r == cb[k];
        StatusMeans(job, ca, cb, k);
        assert InGroup(job, w, B, before.b, r, k);
        SameIdentitySameKey(job, w, A, B, r, r);
      }
    }
    forall r | InGroup(job, w, B, q.b, r, key) ensures key in ca || key in cb {
      LoopOrigin(job, ca, cb, dry, before, order, replies, r);
      if r in before.b {
        assert InGroup(job, w, B, before.b, r, key);
      } else {
        var k :| k in order && StatusOf(job, ca, cb, k) == AToB && r == ca[k];
        StatusMeans(job, ca, cb, k);
        assert InGroup(job, w, A, before.a, r, k);
        SameIdentitySameKey(job, w, A, B, r, r);
      }
    }
  }

  lemma StatusMeans(job: Job, ca: Candidates, cb: Candidates, key: Key)
    requires key in ca || key in cb
    ensures StatusOf(job, ca, cb, key) == AToB <==> key in ca && key !in cb
    ensures StatusOf(job, ca, cb, key) == BToA <==> key !in ca && key in cb && job.bidirectional
    ensures StatusOf(job, ca, cb, key) == BOnly <==> key !in ca && key in cb && !job.bidirectional
  {
  }

  lemma HasStays(job: Job, w: Window, side: Side, table: Table, larger: Table, key: Key)
    requires table <= larger && Has(job, w, side, table, key)
    ensures Has(job, w, side, larger, key)
  {
    var r :| InGroup(job, w, side, table, r, key);
    assert InGroup(job, w, side, larger, r, key);
  }

  /** Convergence: after a successful run every key seen on either side is on both; in one-way jobs, on B, with A as
      it was. */
  lemma RunConverges(job: Job, w: Window, x: SyncRun, key: Key)
    requires IsRun(job, w, false, x)
    requires OneBucketing(job) && x.after.out.ok
    ensures
      var seen := Has(job, w, A, x.before.a, key) || Has(job, w, B, x.before.b, key);
      && (Has(job, w, B, x.after.b, key) <==> seen)
      && (job.bidirectional ==> (Has(job, w, A, x.after.a, key) <==> seen))
  {
    hide VisitAll, Has, OneBucketing, KeyOf, InScope;
    assert forall k :: k in x.order ==> k in x.ca || k in x.cb;
    NoNewKeys(job, w, false, x.before, x.replies, x.ca, x.cb, x.order, key);
    LoopGrows(job, x.ca, x.cb, false, x.before, x.order, x.replies);
    LoopKeeps(job, x.ca, x.cb, false, x.before, x.order, x.replies);
    assert x.after.a == VisitAll(job, x.ca, x.cb, false, x.before, x.order, x.replies).a;
    if key in x.ca || key in x.cb {
      LoopCopies(job, x.ca, x.cb, x.before, x.order, x.replies, key);
      StatusMeans(job, x.ca, x.cb, key);
      hide StatusOf, IdentityIn, InGroup;
      if key in x.ca {
        HasStays(job, w, A, x.before.a, x.after.a, key);
        if key !in x.cb { IdentityIsKey(job, w, B, A, x.before.a, x.after.b, x.ca[key], key); }
      }
      if key in x.cb {
        HasStays(job, w, B, x.before.b, x.after.b, key);
        if key !in x.ca && job.bidirectional { IdentityIsKey(job, w, A, B, x.before.b, x.after.a, x.cb[key], key); }
      }
    }
  }

  // ---------------------------------------------------------------- idempotence

  /** Nothing is missing on the other side, as far as the job copies. */
  ghost predicate InSync(job: Job, w: Window, a: Table, b: Table) {
    forall key ::
      && (Has(job, w, A, a, key) ==> Has(job, w, B, b, key))
      && (job.bidirectional && Has(job, w, B, b, key) ==> Has(job, w, A, a, key))
  }

  lemma SuccessIsInSync(job: Job, w: Window, x: SyncRun)
    requires IsRun(job, w, false, x)
    requires OneBucketing(job) && x.after.out.ok
    ensures InSync(job, w, x.after.a, x.after.b)
  {
    hide Has, IsRun, OneBucketing;
    if !job.bidirectional { OneWayKeepsA(job, w, x); }
    forall key
      ensures Has(job, w, A, x.after.a, key) ==> Has(job, w, B, x.after.b, key)
      ensures job.bidirectional && Has(job, w, B, x.after.b, key) ==> Has(job, w, A, x.after.a, key)
    {
      RunConverges(job, w, x, key);
    }
  }

  /** A one-way job never writes to A. */
  lemma OneWayKeepsA(job: Job, w: Window, x: SyncRun)
    requires IsRun(job, w, false, x) && !job.bidirectional
    ensures x.after.a == x.before.a
  {
    hide VisitAll, Loaded;
    assert forall k :: k in x.order ==> k in x.ca || k in x.cb;
    LoopKeepsA(job, x.ca, x.cb, x.before, x.order, x.replies);
  }

  lemma {:induction false} LoopKeepsA(job: Job, ca: Candidates, cb: Candidates, p: Progress, order: seq<Key>,
      replies: map<Key, Reply>)
    requires (forall k :: k in order ==> k in ca || k in cb) && !job.bidirectional
    ensures VisitAll(job, ca, cb, false, p, order, replies).a == p.a
  {
    hide InsertInto;
    if order != [] { LoopKeepsA(job, ca, cb, p, order[..|order| - 1], replies); }
  }

  /** On tables in sync a run inserts nothing and leaves both tables, whatever the matching interval. */
  lemma InSyncChangesNothing(job: Job, w: Window, dry: bool, x: SyncRun)
    requires IsRun(job, w, dry, x)
    requires InSync(job, w, x.before.a, x.before.b)
    ensures x.after.a == x.before.a && x.after.b == x.before.b
    ensures x.after.out.inserted == 0 && x.after.out.aToB == 0 && x.after.out.bToA == 0 && x.after.out.failed == 0
  {
    hide VisitAll, Has;
    assert forall k :: k in x.order ==> k in x.ca || k in x.cb;
    forall key | key in x.order ensures key in x.cb && (job.bidirectional ==> key in x.ca) {
      assert key in x.ca <==> Has(job, w, A, x.before.a, key);
      assert key in x.cb <==> Has(job, w, B, x.before.b, key);
    }
    LoopIdles(job, x.ca, x.cb, dry, x.before, x.order, x.replies);
  }

  lemma {:induction false} LoopIdles(job: Job, ca: Candidates, cb: Candidates, dry: bool, p: Progress, order: seq<Key>,
      replies: map<Key, Reply>)
    requires forall key :: key in order ==> key in cb && (job.bidirectional ==> key in ca)
    ensures
      var q := VisitAll(job, ca, cb, dry, p, order, replies);
      && q.a == p.a && q.b == p.b
      && q.out.inserted == p.out.inserted && q.out.aToB == p.out.aToB && q.out.bToA == p.out.bToA
        && q.out.failed == p.out.failed
  {
    hide InsertInto;
    if order != [] { LoopIdles(job, ca, cb, dry, p, order[..|order| - 1], replies); }
  }

  /** Idempotence: a second run over the same window inserts nothing and leaves both tables unchanged, whatever it is
      answered and whether or not it commits. */
  lemma SecondRunChangesNothing(job: Job, w: Window, dry: bool, x: SyncRun, y: SyncRun)
    requires OneBucketing(job)
    requires IsRun(job, w, false, x) && x.after.out.ok
    requires IsRun(job, w, dry, y) && y.before.a == x.after.a && y.before.b == x.after.b
    ensures y.after.a == x.after.a && y.after.b == x.after.b && y.after.out.inserted == 0 && y.after.out.failed == 0
  {
    hide IsRun, InSync, OneBucketing;
    SuccessIsInSync(job, w, x);
    InSyncChangesNothing(job, w, dry, y);
  }

  // ---------------------------------------------------------------- the dry run predicts

  function CountOf(job: Job, ca: Candidates, cb: Candidates, order: seq<Key>, status: Status): nat
    requires forall key :: key in order ==> key in ca || key in cb
  {
    if order == [] then 0
    else
      var n := |order| - 1;
      CountOf(job, ca, cb, order[..n], status) + (if StatusOf(job, ca, cb, order[n]) == status then 1 else 0)
  }

  lemma {:induction false} DryCounts(job: Job, ca: Candidates, cb: Candidates, p: Progress, order: seq<Key>,
      replies: map<Key, Reply>)
    requires (forall key :: key in order ==> key in ca || key in cb) && CleanSlate(p.out)
    ensures
      var out := VisitAll(job, ca, cb, true, p, order, replies).out;
      out.aToB == CountOf(job, ca, cb, order, AToB) && out.bToA == CountOf(job, ca, cb, order, BToA) && out.failed == 0
  {
    hide StatusOf;
    if order != [] { DryCounts(job, ca, cb, p, order[..|order| - 1], replies); }
  }

  /** With one bucketing, no insert meets a row with its own time and item. */
  lemma NoneExists(job: Job, w: Window, before: Progress, ca: Candidates, cb: Candidates, order: seq<Key>,
      replies: map<Key, Reply>, key: Key)
    requires OneBucketing(job) && Loaded(job, w, A, before.a, ca) && Loaded(job, w, B, before.b, cb)
    requires (forall k :: k in order ==> k in ca || k in cb) && (key in ca || key in cb) && key !in order
    ensures
      var q := VisitAll(job, ca, cb, false, before, order, replies);
      match StatusOf(job, ca, cb, key)
      case AToB => !IdentityIn(q.b, ca[key])
      case BToA => !IdentityIn(q.a, cb[key])
      case _ => true
  {
    hide VisitAll, KeyOf, InScope, OneBucketing, StatusOf;
    var q := VisitAll(job, ca, cb, false, before, order, replies);
    StatusMeans(job, ca, cb, key);
    if key in ca && key !in cb {
      forall r | r in q.b ensures !SameIdentity(r, ca[key]) {
        LoopOrigin(job, ca, cb, false, before, order, replies, r);
        NotSameAsB(job, w, before, ca, cb, order, key, r);
      }
    }
    if key !in ca && key in cb {
      forall r | r in q.a ensures !SameIdentity(r, cb[key]) {
        LoopOrigin(job, ca, cb, false, before, order, replies, r);
        NotSameAsA(job, w, before, ca, cb, order, key, r);
      }
    }
  }

  lemma LoadedKey(job: Job, w: Window, side: Side, table: Table, c: Candidates, key: Key)
    requires Loaded(job, w, side, table, c)
    ensures key in c <==> Has(job, w, side, table, key)
  {
  }

  lemma SameIdentitySameGroup(job: Job, w: Window, side: Side, other: Side, source: Table, table: Table, r: Row,
      q: Row, key: Key)
    requires OneBucketing(job) && InGroup(job, w, side, source, r, key)
    ensures SameIdentity(q, r) && q in table ==> InGroup(job, w, other, table, q, key) && Has(job, w, other, table, key)
  {
    hide KeyOf, InScope, OneBucketing;
    if SameIdentity(q, r) && q in table {
      SameIdentitySameKey(job, w, other, side, q, r);
      assert InGroup(job, w, other, table, q, key);
    }
  }

  lemma NotSameAsB(job: Job, w: Window, before: Progress, ca: Candidates, cb: Candidates, order: seq<Key>, key: Key,
      r: Row)
    requires OneBucketing(job) && Loaded(job, w, A, before.a, ca) && Loaded(job, w, B, before.b, cb)
    requires (forall k :: k in order ==> k in ca || k in cb) && key in ca && key !in cb && key !in order
    requires r in before.b || exists k :: k in order && StatusOf(job, ca, cb, k) == AToB && r == ca[k]
    ensures !SameIdentity(r, ca[key])
  {
    hide KeyOf, InScope, OneBucketing;
    assert InGroup(job, w, A, before.a, ca[key], key);
    SameIdentitySameGroup(job, w, A, B, before.a, before.b, ca[key], r, key);
    forall k | k in order && k in ca ensures SameIdentity(ca[k], ca[key]) ==> k == key {
      assert InGroup(job, w, A, before.a, ca[k], k);
      SameIdentitySameGroup(job, w, A, A, before.a, before.a, ca[key], ca[k], key);
    }
    hide InGroup, SameIdentity, Loaded;
    assert key in cb <==> Has(job, w, B, before.b, key) by { LoadedKey(job, w, B, before.b, cb, key); }
  }

  lemma NotSameAsA(job: Job, w: Window, before: Progress, ca: Candidates, cb: Candidates, order: seq<Key>, key: Key,
      r: Row)
    requires OneBucketing(job) && Loaded(job, w, A, before.a, ca) && Loaded(job, w, B, before.b, cb)
    requires (forall k :: k in order ==> k in ca || k in cb) && key in cb && key !in ca && key !in order
    requires r in before.a || exists k :: k in order && StatusOf(job, ca, cb, k) == BToA && r == cb[k]
    ensures !SameIdentity(r, cb[key])
  {
    hide KeyOf, InScope, OneBucketing;
    assert InGroup(job, w, B, before.b, cb[key], key);
    SameIdentitySameGroup(job, w, B, A, before.b, before.a, cb[key], r, key);
    forall k | k in order && k in cb ensures SameIdentity(cb[k], cb[key]) ==> k == key {
      assert InGroup(job, w, B, before.b, cb[k], k);
      SameIdentitySameGroup(job, w, B, B, before.b, before.b, cb[key], cb[k], key);
    }
    hide InGroup, SameIdentity, Loaded;
    assert key in ca <==> Has(job, w, A, before.a, key) by { LoadedKey(job, w, A, before.a, ca, key); }
  }

  lemma VisitCounts(job: Job, ca: Candidates, cb: Candidates, p: Progress, key: Key, reply: Reply)
    requires key in ca || key in cb
    requires match StatusOf(job, ca, cb, key)
      case AToB => !IdentityIn(p.b, ca[key])
      case BToA => !IdentityIn(p.a, cb[key])
      case _ => true
    ensures
      var q := Visit(job, ca, cb, false, p, key, reply);
      q.out.failed > p.out.failed || (
        && q.out.aToB == p.out.aToB + (if StatusOf(job, ca, cb, key) == AToB then 1 else 0)
        && q.out.bToA == p.out.bToA + (if StatusOf(job, ca, cb, key) == BToA then 1 else 0))
  {
    if StatusOf(job, ca, cb, key) == AToB { NotEvenTheRow(p.b, ca[key]); }
    if StatusOf(job, ca, cb, key) == BToA { NotEvenTheRow(p.a, cb[key]); }
    hide IdentityIn;
  }

  lemma NotEvenTheRow(table: Table, r: Row)
    requires !IdentityIn(table, r)
    ensures r !in table
  {
    assert SameIdentity(r, r);
  }

  lemma {:induction false} RealCounts(job: Job, w: Window, before: Progress, ca: Candidates, cb: Candidates,
      order: seq<Key>, replies: map<Key, Reply>, keys: set<Key>)
    requires OneBucketing(job) && Loaded(job, w, A, before.a, ca) && Loaded(job, w, B, before.b, cb)
    requires CleanSlate(before.out)
    requires (forall k :: k in order ==> k in ca || k in cb) && Enumerates(order, keys)
    requires VisitAll(job, ca, cb, false, before, order, replies).out.failed <= 0
    ensures
      var out := VisitAll(job, ca, cb, false, before, order, replies).out;
      out.aToB == CountOf(job, ca, cb, order, AToB) && out.bToA == CountOf(job, ca, cb, order, BToA)
  {
    hide Visit, StatusOf, OneBucketing, Loaded, IdentityIn;
    if order != [] {
      var n := |order| - 1;
      var key := order[n];
      assert order == order[..n] + [key];
      FailedGrows(job, ca, cb, before, order[..n], replies);
      var q := VisitAll(job, ca, cb, false, before, order[..n], replies);
      RealCounts(job, w, before, ca, cb, order[..n], replies, keys - {key});
      NoneExists(job, w, before, ca, cb, order[..n], replies, key);
      VisitCounts(job, ca, cb, q, key, ReplyTo(replies, key));
    }
  }

  lemma OneKeyMore(only: set<Key>, keys: set<Key>, key: Key)
    requires key in keys
    ensures |only * keys| == |only * (keys - {key})| + (if key in only then 1 else 0)
  {
    assert only * keys == only * (keys - {key}) + (if key in only then {key} else {});
  }

  lemma LastKey(order: seq<Key>, keys: set<Key>)
    requires Enumerates(order, keys) && order != []
    ensures
      var n := |order| - 1;
      order[n] in keys && order[n] !in order[..n] && Enumerates(order[..n], keys - {order[n]})
  {
    var n := |order| - 1;
    assert order == order[..n] + [order[n]];
  }

  lemma {:induction false} CountsAreSizes(job: Job, ca: Candidates, cb: Candidates, order: seq<Key>, keys: set<Key>)
    requires Enumerates(order, keys) && keys <= ca.Keys + cb.Keys
    ensures forall key :: key in order ==> key in ca || key in cb
    ensures CountOf(job, ca, cb, order, AToB) == |(ca.Keys - cb.Keys) * keys|
    ensures CountOf(job, ca, cb, order, BToA) == if job.bidirectional then |(cb.Keys - ca.Keys) * keys| else 0
  {
    assert forall key :: key in order ==> key in keys;
    if order == [] {
      assert (ca.Keys - cb.Keys) * keys == {} && (cb.Keys - ca.Keys) * keys == {};
    } else {
      var n := |order| - 1;
      var key := order[n];
      LastKey(order, keys);
      hide Enumerates, StatusOf;
      CountsAreSizes(job, ca, cb, order[..n], keys - {key});
      StatusMeans(job, ca, cb, key);
      OneKeyMore(ca.Keys - cb.Keys, keys, key);
      OneKeyMore(cb.Keys - ca.Keys, keys, key);
    }
  }

  lemma SameDomain(job: Job, w: Window, side: Side, table: Table, c: Candidates, d: Candidates)
    requires Loaded(job, w, side, table, c) && Loaded(job, w, side, table, d)
    ensures c.Keys == d.Keys
  {
    hide Has;
    forall key ensures key in c.Keys <==> key in d.Keys {
      assert key in c <==> Has(job, w, side, table, key);
    }
  }

  /** The prediction: what a dry run reports as inserted, and in each direction, is what a successful run on the same
      tables then inserts, even if the two read other rows among equally late ones and visit the keys in another
      order. */
  lemma DryRunPredicts(job: Job, w: Window, x: SyncRun, y: SyncRun)
    requires OneBucketing(job) && x.before.a == y.before.a && x.before.b == y.before.b
    requires IsRun(job, w, true, x) && IsRun(job, w, false, y) && y.after.out.ok
    ensures x.after.out.ok && x.after.out.inserted == y.after.out.inserted
    ensures x.after.out.aToB == y.after.out.aToB && x.after.out.bToA == y.after.out.bToA
    ensures x.after.out.selected == y.after.out.selected
  {
    hide VisitAll, OneBucketing, CountOf;
    SameDomain(job, w, A, x.before.a, x.ca, y.ca);
    SameDomain(job, w, B, x.before.b, x.cb, y.cb);
    CountsAreSizes(job, x.ca, x.cb, x.order, x.ca.Keys + x.cb.Keys);
    CountsAreSizes(job, y.ca, y.cb, y.order, y.ca.Keys + y.cb.Keys);
    DryCounts(job, x.ca, x.cb, x.before, x.order, x.replies);
    LoopKeeps(job, x.ca, x.cb, true, x.before, x.order, x.replies);
    LoopKeeps(job, y.ca, y.cb, false, y.before, y.order, y.replies);
    RealCounts(job, w, y.before, y.ca, y.cb, y.order, y.replies, y.ca.Keys + y.cb.Keys);
    CountersConserve(job, w, false, y);
    hide Loaded, Enumerates, OnlyInB;
  }
}
