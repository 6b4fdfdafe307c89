/** Two-sided reconciliation of a table in database A with a table in database B: each side is reduced to the latest row
    of every (tag, period) key, and keys missing on one side are copied from the other.
 */
module DatabaseSyncModel {
  datatype Option<+T> = None | Some(value: T)

  datatype Side = A | B

  /** A row: its time in milliseconds, its item, and the mapped values (None for NULL). */
  datatype Row = Row(time: int, item: string, values: seq<Option<string>>)

  /** The rows of a table; nothing forbids duplicates. */
  type Table = multiset<Row>

  /** `local` is the instant each database session reads from a stored time when it computes the period. */
  datatype Job = Job(allTags: bool, tags: set<string>, interval: nat, bidirectional: bool, local: (Side, int) -> int)

  /** From `start` on, up to `end` when there is one. */
  datatype Window = Window(start: int, end: Option<int>)

  /** Item and period. */
  type Key = (string, int)

  /** The latest row of each key. */
  type Candidates = map<Key, Row>

  const RECORD_LIMIT := 1_000_000

  // ---------------------------------------------------------------- keys

  function LocalTime(job: Job, side: Side, t: int): int { job.local(side, t) }

  function PeriodMs(interval: nat): (ms: int)
    ensures ms > 0
  {
    if interval == 0 then 1_000 else interval * 60_000
  }

  function Period(interval: nat, t: int): int { t / PeriodMs(interval) }

  function KeyOf(job: Job, side: Side, r: Row): Key { (r.item, Period(job.interval, LocalTime(job, side, r.time))) }

  predicate InScope(job: Job, w: Window, r: Row) {
    && w.start <= r.time && (w.end.Some? ==> r.time < w.end.value)
    && (job.allTags || r.item in job.tags)
  }

  /** Both sessions bucket alike. */
  ghost predicate OneBucketing(job: Job) {
    forall t :: LocalTime(job, A, t) == LocalTime(job, B, t)
  }

  predicate InGroup(job: Job, w: Window, side: Side, table: Table, r: Row, key: Key) {
    r in table && InScope(job, w, r) && KeyOf(job, side, r) == key
  }

  /** The key is present on this side, within the window. */
  ghost predicate Has(job: Job, w: Window, side: Side, table: Table, key: Key) {
    exists r :: InGroup(job, w, side, table, r, key)
  }

  ghost predicate Latest(job: Job, w: Window, side: Side, table: Table, r: Row) {
    && InGroup(job, w, side, table, r, KeyOf(job, side, r))
    && forall q :: InGroup(job, w, side, table, q, KeyOf(job, side, r)) ==> q.time <= r.time
  }

  /** The answer to the query: the latest rows of each key, each as often as the table has it, in any order. */
  ghost predicate Answers(job: Job, w: Window, side: Side, table: Table, answer: seq<Row>) {
    forall r :: multiset(answer)[r] == if Latest(job, w, side, table, r) then table[r] else 0
  }

  /** The candidates of one side: one latest row for each key present. */
  ghost predicate Loaded(job: Job, w: Window, side: Side, table: Table, c: Candidates) {
    && (forall key :: key in c <==> Has(job, w, side, table, key))
    && (forall key :: key in c ==> InGroup(job, w, side, table, c[key], key))
  }

  function Later(table: Table, r: Row): set<Row> { set x | x in table && x.time > r.time }

  lemma {:induction false} LatestExists(job: Job, w: Window, side: Side, table: Table, r: Row, key: Key)
      returns (q: Row)
    requires InGroup(job, w, side, table, r, key)
    ensures Latest(job, w, side, table, q) && KeyOf(job, side, q) == key
    decreases |Later(table, r)|
  {
    hide KeyOf, InScope;
    if Latest(job, w, side, table, r) {
      q := r;
    } else {
      var x :| InGroup(job, w, side, table, x, key) && x.time > r.time;
      assert Later(table, x) <= Later(table, r) - {x} && x in Later(table, r);
      Fewer(Later(table, x), Later(table, r) - {x});
      q := LatestExists(job, w, side, table, x, key);
    }
  }

  lemma {:induction false} Fewer<T>(a: set<T>, b: set<T>)
    requires a <= b
    ensures |a| <= |b|
  {
    assert b == a + (b - a);
  }

  lemma AnswerIsLoaded(job: Job, w: Window, side: Side, table: Table, answer: seq<Row>, c: Candidates)
    requires Answers(job, w, side, table, answer)
    requires forall key :: key in c ==> c[key] in answer && KeyOf(job, side, c[key]) == key
    requires forall r :: r in answer ==> KeyOf(job, side, r) in c
    ensures Loaded(job, w, side, table, c)
  {
    hide KeyOf, InScope;
    forall r ensures r in answer <==> Latest(job, w, side, table, r) {
      assert r in multiset(answer) <==> Latest(job, w, side, table, r);
    }
    forall key | Has(job, w, side, table, key) ensures key in c {
      var r :| InGroup(job, w, side, table, r, key);
      var q := LatestExists(job, w, side, table, r, key);
    }
  }

  /** Reads one side; it fails when the query does, or when there are too many records. */
  method LoadSide(job: Job, ghost w: Window, side: Side, ghost table: Table, answer: Option<seq<Row>>)
    returns (candidates: Option<Candidates>, count: nat)
    requires answer.Some? ==> Answers(job, w, side, table, answer.value)
    ensures candidates.Some? <==> answer.Some? && |answer.value| <= RECORD_LIMIT
    ensures candidates.Some? ==> Loaded(job, w, side, table, candidates.value) && count == |answer.value|
  {
    count := 0;
    if answer.None? { return None, 0; }
    var rows := answer.value;
    var c: Candidates := map[];
    for k := 0 to |rows|
      invariant count == k <= RECORD_LIMIT
      invariant forall key :: key in c ==> c[key] in rows && KeyOf(job, side, c[key]) == key
      invariant forall r :: r in rows[..k] ==> KeyOf(job, side, r) in c
    {
      hide KeyOf, Answers;
      count := count + 1;
      if count > RECORD_LIMIT { return None, count; }
      assert rows[..k + 1] == rows[..k] + [rows[k]];
      c := c[KeyOf(job, side, rows[k]) := rows[k]];
    }
    assert rows[..|rows|] == rows;
    AnswerIsLoaded(job, w, side, table, rows, c);
    candidates := Some(c);
  }

  // ---------------------------------------------------------------- one key

  datatype Result = Result(
    ok: bool, examined: nat, selected: nat, inserted: int, skipped: int, failed: int,
    aToB: int, bToA: int, matching: int, conflicts: int)

  const NO_RESULT := Result(false, 0, 0, 0, 0, 0, 0, 0, 0, 0)

  datatype Status = AToB | BToA | BOnly | Matching | Conflict

  datatype InsertResult = Inserted | AlreadyExists | IdentityConflict | Failed

  /** How the database reacts to an insert, and whether the two look-ups after a rejected one succeed. */
  datatype Reply = Reply(accepts: bool, rowQuery: bool, identityQuery: bool)

  function StatusOf(job: Job, ca: Candidates, cb: Candidates, key: Key): Status
    requires key in ca || key in cb
  {
    if key !in cb then AToB
    else if key !in ca then (if job.bidirectional then BToA else BOnly)
    else if job.interval > 0 || ca[key].values == cb[key].values then Matching
    else Conflict
  }

  predicate SameIdentity(r: Row, q: Row) { r.time == q.time && r.item == q.item }

  predicate IdentityIn(table: Table, r: Row) { exists q :: q in table && SameIdentity(q, r) }

  function InsertInto(table: Table, r: Row, reply: Reply): (Table, InsertResult) {
    if reply.accepts then (table + multiset{r}, Inserted)
    else if reply.rowQuery && r in table then (table, AlreadyExists)
    else if reply.identityQuery && IdentityIn(table, r) then (table, IdentityConflict)
    else (table, Failed)
  }

  datatype Progress = Progress(out: Result, a: Table, b: Table)

  /** The counters once a key's status is known. */
  function Classified(out: Result, status: Status): Result {
    match status
    case AToB => out.(aToB := out.aToB + 1)
    case BToA => out.(bToA := out.bToA + 1)
    case BOnly => out.(skipped := out.skipped + 1)
    case Matching => out.(matching := out.matching + 1, skipped := out.skipped + 1)
    case Conflict => out.(conflicts := out.conflicts + 1, skipped := out.skipped + 1)
  }

  /** A copy that was not made is taken back from the counter of its direction. */
  function TakenBack(out: Result, status: Status): Result {
    if status == AToB then out.(aToB := out.aToB - 1)
    else if status == BToA then out.(bToA := out.bToA - 1)
    else out
  }

  function Adjusted(out: Result, status: Status, result: InsertResult): Result {
    match result
    case Inserted => out.(inserted := out.inserted + 1)
    case AlreadyExists => var t := TakenBack(out, status); t.(matching := t.matching + 1, skipped := t.skipped + 1)
    case IdentityConflict => var t := TakenBack(out, status); t.(conflicts := t.conflicts + 1, skipped := t.skipped + 1)
    case Failed => out.(failed := out.failed + 1)
  }

  function Visit(job: Job, ca: Candidates, cb: Candidates, dry: bool, p: Progress, key: Key, reply: Reply): Progress
    requires key in ca || key in cb
  {
    var status := StatusOf(job, ca, cb, key);
    var out := Classified(p.out, status);
    if dry then p.(out := out)
    else if status == AToB then
      var (b, result) := InsertInto(p.b, ca[key], reply);
      Progress(Adjusted(out, status, result), p.a, b)
    else if status == BToA then
      var (a, result) := InsertInto(p.a, cb[key], reply);
      Progress(Adjusted(out, status, result), a, p.b)
    else p.(out := out)
  }

  function ReplyTo(replies: map<Key, Reply>, key: Key): Reply {
    if key in replies then replies[key] else Reply(true, true, true)
  }

  /** The loop over the keys, left at the first failure. */
  function VisitAll(job: Job, ca: Candidates, cb: Candidates, dry: bool, p: Progress, order: seq<Key>,
      replies: map<Key, Reply>): Progress
    requires forall key :: key in order ==> key in ca || key in cb
  {
    if order == [] then p
    else
      var n := |order| - 1;
      var q := VisitAll(job, ca, cb, dry, p, order[..n], replies);
      if q.out.failed > 0 then q
      else Visit(job, ca, cb, dry, q, order[n], ReplyTo(replies, order[n]))
  }

  /** The end of the run: prediction, rollback, or the two commits, of which the second may fail alone. */
  function Finished(dry: bool, before: Progress, p: Progress, commitsA: bool, commitsB: bool): Progress {
    if dry then Progress(p.out.(inserted := p.out.aToB + p.out.bToA, ok := true), before.a, before.b)
    else if p.out.failed > 0 then Progress(p.out.(inserted := 0), before.a, before.b)
    else if !commitsA then Progress(p.out, before.a, before.b)
    else if !commitsB then Progress(p.out, p.a, before.b)
    else Progress(p.out.(ok := true), p.a, p.b)
  }

  /** Each key once. */
  ghost predicate Enumerates(order: seq<Key>, keys: set<Key>) {
    && (forall key :: key in order <==> key in keys)
    && (forall i, j :: 0 <= i < j < |order| ==> order[i] != order[j])
  }

  // ---------------------------------------------------------------- the databases and the run

  /** A database's table, and its rows as of the last BEGIN. */
  class SyncDatabase {
    var rows: Table
    var saved: Table

    constructor (rows: Table)
      ensures this.rows == rows && saved == rows
    {
      this.rows, saved := rows, rows;
    }

    method Begin()
      modifies this
      ensures rows == saved == old(rows)
    {
      saved := rows;
    }

    method Rollback()
      modifies this`rows
      ensures rows == saved
    {
      rows := saved;
    }

    /** A commit that fails leaves the table as it was before the transaction. */
    method Commit(succeeds: bool) returns (ok: bool)
      modifies this`rows
      ensures ok == succeeds && rows == if ok then old(rows) else saved
    {
      if !succeeds { rows := saved; }
      ok := succeeds;
    }

    /** insert_candidate: a rejected row is looked up, first as a whole and then by time and item. */
    method Insert(r: Row, reply: Reply) returns (result: InsertResult)
      modifies this`rows
      ensures (rows, result) == InsertInto(old(rows), r, reply)
    {
      if reply.accepts {
        rows := rows + multiset{r};
        return Inserted;
      }
      if reply.rowQuery && r in rows { return AlreadyExists; }
      if reply.identityQuery && IdentityIn(rows, r) { return IdentityConflict; }
      result := Failed;
    }
  }

  /** One key of the loop. */
  method VisitKey(job: Job, ca: Candidates, cb: Candidates, dry: bool, a: SyncDatabase, b: SyncDatabase,
      before: Result, key: Key, reply: Reply) returns (out: Result)
    requires a != b && (key in ca || key in cb)
    modifies a`rows, b`rows
    ensures Progress(out, a.rows, b.rows)
      == Visit(job, ca, cb, dry, Progress(before, old(a.rows), old(b.rows)), key, reply)
  {
    hide InsertInto;
    out := before;
    var status;
    if key in ca && key !in cb { status := AToB; out := out.(aToB := out.aToB + 1); }
    else if key !in ca && key in cb {
      status := if job.bidirectional then BToA else BOnly;
      if job.bidirectional { out := out.(bToA := out.bToA + 1); } else { out := out.(skipped := out.skipped + 1); }
    } else if job.interval > 0 || ca[key].values == cb[key].values {
      status := Matching;
      out := out.(matching := out.matching + 1, skipped := out.skipped + 1);
    } else {
      status := Conflict;
      out := out.(conflicts := out.conflicts + 1, skipped := out.skipped + 1);
    }
    if dry { return; }
    var result;
    if status == AToB { result := b.Insert(ca[key], reply); }
    else if status == BToA { result := a.Insert(cb[key], reply); }
    else { return; }
    if result == Inserted { out := out.(inserted := out.inserted + 1); }
    else if result == AlreadyExists {
      if status == AToB { out := out.(aToB := out.aToB - 1); }
      else if status == BToA { out := out.(bToA := out.bToA - 1); }
      out := out.(matching := out.matching + 1, skipped := out.skipped + 1);
    } else if result == IdentityConflict {
      if status == AToB { out := out.(aToB := out.aToB - 1); }
      else if status == BToA { out := out.(bToA := out.bToA - 1); }
      out := out.(conflicts := out.conflicts + 1, skipped := out.skipped + 1);
    } else {
      out := out.(failed := out.failed + 1);
    }
  }

  method ListKeys(keys: set<Key>) returns (order: seq<Key>)
    ensures Enumerates(order, keys)
  {
    order := [];
    var todo := keys;
    while todo != {}
      invariant todo <= keys && Enumerates(order, keys - todo)
    {
      var key :| key in todo;
      assert forall k :: k in order + [key] <==> k in order || k == key;
      order, todo := order + [key], todo - {key};
    }
  }

  /** What the run meets: the answers to its two queries, whether the transactions begin, the reactions to its
      inserts, and whether the commits succeed. */
  datatype Surroundings = Surroundings(
    answerA: Option<seq<Row>>, answerB: Option<seq<Row>>, begins: bool, replies: map<Key, Reply>,
    commitsA: bool, commitsB: bool)

  ghost predicate Honest(job: Job, w: Window, a: Table, b: Table, s: Surroundings) {
    && (s.answerA.Some? ==> Answers(job, w, A, a, s.answerA.value))
    && (s.answerB.Some? ==> Answers(job, w, B, b, s.answerB.value))
  }

  /** A run of the loop: counters and tables before and after it, the reactions it met, the candidates it read and the
      order in which it visited the keys. */
  datatype SyncRun = SyncRun(
    before: Progress, after: Progress, replies: map<Key, Reply>, commitsA: bool, commitsB: bool,
    ca: Candidates, cb: Candidates, order: seq<Key>)

  /** A run that gets to its loop and through it. */
  ghost predicate IsRun(job: Job, w: Window, dry: bool, x: SyncRun) {
    && Loaded(job, w, A, x.before.a, x.ca) && Loaded(job, w, B, x.before.b, x.cb)
    && Enumerates(x.order, x.ca.Keys + x.cb.Keys)
    && CleanSlate(x.before.out) && x.before.out.selected == |x.ca.Keys + x.cb.Keys|
    && x.after == Finished(dry, x.before, VisitAll(job, x.ca, x.cb, dry, x.before, x.order, x.replies), x.commitsA,
        x.commitsB)
  }

  predicate CleanSlate(out: Result) {
    out == NO_RESULT.(examined := out.examined, selected := out.selected)
  }

  /** Nothing stops the run before its loop. */
  predicate Proceeds(job: Job, dry: bool, s: Surroundings) {
    && (job.allTags || job.tags != {}) && (dry || s.begins)
    && s.answerA.Some? && |s.answerA.value| <= RECORD_LIMIT
    && s.answerB.Some? && |s.answerB.value| <= RECORD_LIMIT
  }

  /** The whole run. It either stops early, without touching a table, or is a run of the loop. */
  method RunSyncJob(job: Job, w: Window, dry: bool, a: SyncDatabase, b: SyncDatabase, s: Surroundings)
    returns (out: Result, ghost ca: Candidates, ghost cb: Candidates, ghost order: seq<Key>)
    requires a != b && Honest(job, w, a.rows, b.rows, s)
    modifies a, b
    ensures Proceeds(job, dry, s) ==>
      && IsRun(job, w, dry, SyncRun(
           Progress(NO_RESULT.(examined := out.examined, selected := out.selected), old(a.rows), old(b.rows)),
           Progress(out, a.rows, b.rows), s.replies, s.commitsA, s.commitsB, ca, cb, order))
      && out.examined == |s.answerA.value| + |s.answerB.value|
    ensures !Proceeds(job, dry, s) ==> !out.ok && out.inserted == 0 && a.rows == old(a.rows) && b.rows == old(b.rows)
  {
    hide Loaded, Latest, Answers, IsRun, Enumerates, VisitAll, CleanSlate, Finished;
    out, ca, cb, order := NO_RESULT, map[], map[], [];
    if !job.allTags && job.tags == {} { return; }
    var rowsA, rowsB, count;
    rowsA, count := LoadSide(job, w, A, a.rows, s.answerA);
    if rowsA.None? { return; }
    out := out.(examined := out.examined + count);
    rowsB, count := LoadSide(job, w, B, b.rows, s.answerB);
    if rowsB.None? { return; }
    out := out.(examined := out.examined + count);
    ca, cb := rowsA.value, rowsB.value;
    out := out.(selected := |rowsA.value.Keys + rowsB.value.Keys|);
    if !dry {
      if !s.begins { return; }
      a.Begin();
      b.Begin();
    }
    hide *;
    FreshIsClean(out.examined, out.selected);
    out, order := Reconcile(job, rowsA.value, rowsB.value, dry, a, b, out, s.replies, s.commitsA, s.commitsB);
    ItIsARun(job, w, dry, SyncRun(
      Progress(NO_RESULT.(examined := out.examined, selected := out.selected), old(a.rows), old(b.rows)),
      Progress(out, a.rows, b.rows), s.replies, s.commitsA, s.commitsB, ca, cb, order));
  }

  lemma FreshIsClean(examined: nat, selected: nat)
    ensures CleanSlate(NO_RESULT.(examined := examined, selected := selected))
  {
  }

  lemma ItIsARun(job: Job, w: Window, dry: bool, x: SyncRun)
    requires Loaded(job, w, A, x.before.a, x.ca) && Loaded(job, w, B, x.before.b, x.cb)
    requires Enumerates(x.order, x.ca.Keys + x.cb.Keys) && forall key :: key in x.order ==> key in x.ca || key in x.cb
    requires CleanSlate(x.before.out) && x.before.out.selected == |x.ca.Keys + x.cb.Keys|
    requires x.after ==
      Finished(dry, x.before, VisitAll(job, x.ca, x.cb, dry, x.before, x.order, x.replies), x.commitsA, x.commitsB)
    ensures IsRun(job, w, dry, x)
  {
  }

  /** From the transactions to the end of the run. */
  method Reconcile(job: Job, ca: Candidates, cb: Candidates, dry: bool, a: SyncDatabase, b: SyncDatabase,
      before: Result, replies: map<Key, Reply>, commitsA: bool, commitsB: bool)
    returns (out: Result, ghost order: seq<Key>)
    requires a != b && (!dry ==> a.saved == a.rows && b.saved == b.rows) && !before.ok
    modifies a`rows, b`rows
    ensures Enumerates(order, ca.Keys + cb.Keys) && forall key :: key in order ==> key in ca || key in cb
    ensures Progress(out, a.rows, b.rows) ==
      var start := Progress(before, old(a.rows), old(b.rows));
      Finished(dry, start, VisitAll(job, ca, cb, dry, start, order, replies), commitsA, commitsB)
    ensures out.examined == before.examined && out.selected == before.selected
    ensures out.ok ==> dry || (commitsA && commitsB)
  {
    var todo := ListKeys(ca.Keys + cb.Keys);
    order := todo;
    ghost var start := Progress(before, a.rows, b.rows);
    hide Enumerates, VisitAll;
    out := VisitKeys(job, ca, cb, dry, a, b, before, todo, replies, ca.Keys + cb.Keys);
    LoopKeeps(job, ca, cb, dry, start, todo, replies);
    if dry {
      out := out.(inserted := out.aToB + out.bToA, ok := true);
      return;
    }
    if out.failed > 0 {
      a.Rollback();
      b.Rollback();
      out := out.(inserted := 0);
      return;
    }
    var committed := a.Commit(commitsA);
    if committed { committed := b.Commit(commitsB); } else { b.Rollback(); }
    if !committed { return; }
    out := out.(ok := true);
  }

  method VisitKeys(job: Job, ca: Candidates, cb: Candidates, dry: bool, a: SyncDatabase, b: SyncDatabase,
      before: Result, todo: seq<Key>, replies: map<Key, Reply>, ghost keys: set<Key>) returns (out: Result)
    requires a != b && Enumerates(todo, keys) && keys == ca.Keys + cb.Keys
    modifies a`rows, b`rows
    ensures forall key :: key in todo ==> key in ca || key in cb
    ensures Progress(out, a.rows, b.rows)
      == VisitAll(job, ca, cb, dry, Progress(before, old(a.rows), old(b.rows)), todo, replies)
  {
    out := before;
    ghost var start := Progress(before, a.rows, b.rows);
    assert forall key :: key in todo ==> key in ca || key in cb;
    hide *;
    NoneVisited(job, ca, cb, dry, start, replies);
    var k := 0;
    assert todo[..0] == [];
    while k < |todo| && out.failed <= 0
      invariant 0 <= k <= |todo| && forall key :: key in todo[..k] ==> key in ca || key in cb
      invariant Progress(out, a.rows, b.rows) == VisitAll(job, ca, cb, dry, start, todo[..k], replies)
      decreases |todo| - k
    {
      VisitNext(job, ca, cb, dry, start, todo, replies, k);
      out := VisitKey(job, ca, cb, dry, a, b, out, todo[k], ReplyTo(replies, todo[k]));
      k := k + 1;
    }
    StoppedStays(job, ca, cb, dry, start, todo, replies, k);
  }

  lemma NoneVisited(job: Job, ca: Candidates, cb: Candidates, dry: bool, p: Progress, replies: map<Key, Reply>)
    ensures VisitAll(job, ca, cb, dry, p, [], replies) == p
  {
  }

  lemma VisitNext(job: Job, ca: Candidates, cb: Candidates, dry: bool, p: Progress, order: seq<Key>, replies: map<Key,
      Reply>, k: nat)
    requires k < |order| && forall key :: key in order ==> key in ca || key in cb
    ensures order[k] in ca || order[k] in cb
    ensures forall key :: key in order[..k] ==> key in ca || key in cb
    ensures forall key :: key in order[..k + 1] ==> key in ca || key in cb
    ensures
      var q := VisitAll(job, ca, cb, dry, p, order[..k], replies);
      q.out.failed <= 0 ==>
        VisitAll(job, ca, cb, dry, p, order[..k + 1], replies)
            == Visit(job, ca, cb, dry, q, order[k], ReplyTo(replies, order[k]))
  {
    hide Visit;
    assert order[k] in order && order[..k + 1][..k] == order[..k];
  }

  lemma {:induction false} StoppedStays(job: Job, ca: Candidates, cb: Candidates, dry: bool, p: Progress,
      order: seq<Key>, replies: map<Key, Reply>, k: nat)
    requires k <= |order| && forall key :: key in order ==> key in ca || key in cb
    requires k == |order| || VisitAll(job, ca, cb, dry, p, order[..k], replies).out.failed > 0
    ensures VisitAll(job, ca, cb, dry, p, order, replies) == VisitAll(job, ca, cb, dry, p, order[..k], replies)
  {
    hide Visit;
    if k == |order| {
      assert order[..k] == order;
    } else {
      var n := |order| - 1;
      assert order[..n][..k] == order[..k];
      StoppedStays(job, ca, cb, dry, p, order[..n], replies, k);
    }
  }

  lemma VisitKeeps(job: Job, ca: Candidates, cb: Candidates, dry: bool, p: Progress, key: Key, reply: Reply)
    requires key in ca || key in cb
    ensures
      var q := Visit(job, ca, cb, dry, p, key, reply);
      && q.out.examined == p.out.examined && q.out.selected == p.out.selected && q.out.ok == p.out.ok
      && (dry ==> q.a == p.a && q.b == p.b)
  {
    hide InsertInto, StatusOf;
  }

  /** The loop changes neither `ok` nor the record counts; a dry run changes no table. */
  lemma {:induction false} LoopKeeps(job: Job, ca: Candidates, cb: Candidates, dry: bool, p: Progress, order: seq<Key>,
      replies: map<Key, Reply>)
    requires forall key :: key in order ==> key in ca || key in cb
    ensures
      var q := VisitAll(job, ca, cb, dry, p, order, replies);
      && q.out.examined == p.out.examined && q.out.selected == p.out.selected && q.out.ok == p.out.ok
      && (dry ==> q.a == p.a && q.b == p.b)
  {
    hide Visit;
    if order != [] {
      var n := |order| - 1;
      LoopKeeps(job, ca, cb, dry, p, order[..n], replies);
      VisitKeeps(job, ca, cb, dry, VisitAll(job, ca, cb, dry, p, order[..n], replies), order[n],
          ReplyTo(replies, order[n]));
    }
  }
}
