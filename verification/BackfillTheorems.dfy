/** Whole runs of a backfill: worker steps, failures, cancellation, saves and restarts at any moment, with the tables
    that the chunks reconcile.
 */
module BackfillTheorems {
  import opened DatabaseSyncModel
  import opened DatabaseSyncTheorems
  import opened BackfillModel

  /** The worker between its steps; `Synced` holds a result that is not recorded yet. */
  datatype Worker = NoWorker | Ready | Cleared | Synced(result: Result)

  /** The service and the tables; as history, the chunks that succeeded since the last restart, in order, all that ever
      succeeded, and the chunk at which the last restart resumed. */
  datatype System = System(
    task: Task, saved: Task, worker: Worker, a: Table, b: Table, done: seq<nat>, ever: set<nat>, resumedAt: nat)

  datatype Step =
    | Start(jobExists: bool)
    | Check
    | Sync(run: Option<SyncRun>, result: Result, a: Table, b: Table)
    | Record
    | Save
    | RequestCancel
    | Restart

  /** A chunk either stops before its loop, failing and changing nothing, or is a run on its window. */
  ghost predicate SyncTakes(job: Job, w: Window, a: Table, b: Table, step: Step)
    requires step.Sync?
  {
    match step.run
    case None => !step.result.ok && step.a == a && step.b == b
    case Some(x) =>
      && x.before.a == a && x.before.b == b && x.after == Progress(step.result, step.a, step.b)
      && IsRun(job, w, false, x)
  }

  ghost predicate Enabled(job: Job, chunk: int, s: System, step: Step) {
    match step
    case Start(_) => s.task.status == Running && s.worker.NoWorker?
    case Check => s.worker.Ready?
    case Sync(_, _, _, _) => s.worker.Cleared? && SyncTakes(job, ChunkWindow(s.task, chunk), s.a, s.b, step)
    case Record => s.worker.Synced?
    case RequestCancel => s.task.status == Running
    case _ => true
  }

  function Next(chunk: int, s: System, step: Step): System {
    match step
    case Start(jobExists) => if jobExists then s.(worker := Ready) else s.(task := s.task.(status := TaskStatus.Failed))
    case Check => s.(task := Checked(s.task), worker := if Checked(s.task).status == Running then Cleared else NoWorker)
    case Sync(_, result, a, b) =>
      var t := s.(worker := Synced(result), a := a, b := b);
      if result.ok then t.(done := s.done + [s.task.chunks], ever := s.ever + {s.task.chunks}) else t
    case Record =>
      if !s.worker.Synced? then s
      else s.(task := Recorded(s.task, chunk, s.worker.result),
              worker := if s.worker.result.ok then Ready else NoWorker)
    case Save => s.(saved := s.task)
    case RequestCancel => s.(task := s.task.(cancelRequested := true))
    case Restart => s.(task := s.saved, worker := NoWorker, done := [], resumedAt := s.saved.chunks)
  }

  function Fresh(task: Task, a: Table, b: Table): System { System(task, task, NoWorker, a, b, [], {}, 0) }

  function Reached(chunk: int, first: System, steps: seq<Step>): System {
    if steps == [] then first else Next(chunk, Reached(chunk, first, steps[..|steps| - 1]), steps[|steps| - 1])
  }

  /** Every step of the run was possible when it was taken. */
  ghost predicate Possible(job: Job, chunk: int, first: System, steps: seq<Step>) {
    forall i :: 0 <= i < |steps| ==> Enabled(job, chunk, Reached(chunk, first, steps[..i]), steps[i])
  }

  // ---------------------------------------------------------------- tiles

  /** The k-th boundary of the range. */
  function Boundary(start: int, end: int, chunk: int, k: nat): int {
    Capped(start + k * chunk, end)
  }

  function Tile(start: int, end: int, chunk: int, k: nat): Window {
    Window(start + k * chunk, Some(Boundary(start, end, chunk, k + 1)))
  }

  predicate Within(w: Window, t: int) { w.start <= t && (w.end.Some? ==> t < w.end.value) }

  lemma TileOrder(chunk: int, i: nat, j: nat)
    requires chunk > 0 && i < j
    ensures (i + 1) * chunk == i * chunk + chunk && i * chunk + chunk <= j * chunk
  {
    assert (j - i - 1) * chunk >= 0;
    assert j * chunk == i * chunk + chunk + (j - i - 1) * chunk;
  }

  lemma TilesDisjoint(start: int, end: int, chunk: int, i: nat, j: nat, t: int)
    requires chunk > 0 && Within(Tile(start, end, chunk, i), t) && Within(Tile(start, end, chunk, j), t)
    ensures i == j
  {
    if i < j { TileOrder(chunk, i, j); }
    if j < i { TileOrder(chunk, j, i); }
  }

  lemma FirstBoundary(start: int, end: int, chunk: int)
    ensures Boundary(start, end, chunk, 0) <= start
  {
    assert 0 * chunk == 0;
  }

  lemma TileOf(start: int, end: int, chunk: int, n: nat, t: int) returns (k: nat)
    requires chunk > 0 && n > 0 && start <= t < Boundary(start, end, chunk, n)
    ensures k < n && Within(Tile(start, end, chunk, k), t)
    decreases n
  {
    if t >= start + (n - 1) * chunk {
      k := n - 1;
    } else {
      FirstBoundary(start, end, chunk);
      assert n == 1 ==> (n - 1) * chunk == 0;
      k := TileOf(start, end, chunk, n - 1, t);
    }
  }

  // ---------------------------------------------------------------- the invariant

  function Range(from: nat, to: nat): seq<nat>
  {
    if to <= from then [] else Range(from, to - 1) + [to - 1]
  }

  /** The chunks that have succeeded, counting the one that is not recorded yet. */
  function Succeeded(s: System): nat {
    if s.worker.Synced? && s.worker.result.ok then s.task.chunks + 1 else s.task.chunks
  }

  predicate TaskFits(start: int, end: int, chunk: int, t: Task) {
    && t.start == start && t.end == end && t.cursor == Boundary(start, end, chunk, t.chunks)
    && (t.status == Complete ==> t.cursor == end)
  }

  predicate Aligned(start: int, end: int, chunk: int, s: System) {
    && TaskFits(start, end, chunk, s.task) && TaskFits(start, end, chunk, s.saved)
    && s.resumedAt <= s.saved.chunks <= s.task.chunks
    && (!s.worker.NoWorker? ==> s.task.status == Running)
    && (s.worker.Cleared? || s.worker.Synced? ==> s.task.cursor < end)
  }

  ghost predicate Tiled(start: int, end: int, chunk: int, s: System) {
    && s.done == Range(s.resumedAt, Succeeded(s))
    && (forall k: nat :: k < Succeeded(s) ==> k in s.ever)
  }

  ghost predicate TileInSync(job: Job, start: int, end: int, chunk: int, k: nat, a: Table, b: Table) {
    InSync(job, Tile(start, end, chunk, k), a, b)
  }

  ghost predicate AllInSync(job: Job, start: int, end: int, chunk: int, s: System) {
    forall k: nat :: k in s.ever ==> TileInSync(job, start, end, chunk, k, s.a, s.b)
  }

  lemma CursorTile(start: int, end: int, chunk: int, t: Task)
    requires chunk > 0 && TaskFits(start, end, chunk, t) && t.cursor < end
    ensures ChunkWindow(t, chunk) == Tile(start, end, chunk, t.chunks)
    ensures ChunkEnd(t, chunk) == Boundary(start, end, chunk, t.chunks + 1)
  {
    TileOrder(chunk, t.chunks, t.chunks + 1);
  }

  lemma StepIsAligned(job: Job, start: int, end: int, chunk: int, s: System, step: Step)
    requires chunk > 0 && Aligned(start, end, chunk, s) && Enabled(job, chunk, s, step)
    ensures Aligned(start, end, chunk, Next(chunk, s, step))
  {
    hide SyncTakes;
    if s.worker.Synced? { CursorTile(start, end, chunk, s.task); }
    hide Boundary;
    BoundaryAtMost(start, end, chunk, s.task.chunks);
  }

  lemma BoundaryAtMost(start: int, end: int, chunk: int, k: nat)
    ensures Boundary(start, end, chunk, k) <= end
  {
  }

  lemma StepIsTiled(job: Job, start: int, end: int, chunk: int, s: System, step: Step)
    requires Aligned(start, end, chunk, s) && Tiled(start, end, chunk, s) && Enabled(job, chunk, s, step)
    ensures Tiled(start, end, chunk, Next(chunk, s, step))
  {
    hide SyncTakes, TaskFits, Plus, ChunkEnd;
  }

  // ---------------------------------------------------------------- what a chunk does to the tables

  /** Rows that a run adds lie in its window. */
  lemma RunAddsInScope(job: Job, w: Window, x: SyncRun, r: Row)
    requires IsRun(job, w, false, x)
    ensures r in x.after.a ==> r in x.before.a || InScope(job, w, r)
    ensures r in x.after.b ==> r in x.before.b || InScope(job, w, r)
  {
    hide VisitAll, KeyOf, InScope;
    assert forall k :: k in x.order ==> k in x.ca || k in x.cb;
    LoopOrigin(job, x.ca, x.cb, false, x.before, x.order, x.replies, r);
    forall k | k in x.cb ensures InScope(job, w, x.cb[k]) { assert InGroup(job, w, B, x.before.b, x.cb[k], k); }
    forall k | k in x.ca ensures InScope(job, w, x.ca[k]) { assert InGroup(job, w, A, x.before.a, x.ca[k], k); }
  }

  /** So a chunk does not change which keys are present in another window. */
  lemma OtherWindowKept(job: Job, w: Window, v: Window, side: Side, before: Table, after: Table, key: Key)
    requires before <= after && forall r :: r in after ==> r in before || InScope(job, w, r)
    requires forall t :: !(Within(w, t) && Within(v, t))
    ensures Has(job, v, side, before, key) <==> Has(job, v, side, after, key)
  {
    hide KeyOf;
    if Has(job, v, side, before, key) { HasStays(job, v, side, before, after, key); }
    if Has(job, v, side, after, key) {
      var r :| InGroup(job, v, side, after, r, key);
      assert !(Within(w, r.time) && Within(v, r.time));
      assert InGroup(job, v, side, before, r, key);
    }
  }

  lemma OtherTileKept(job: Job, start: int, end: int, chunk: int, n: nat, k: nat, before: Progress, after: Progress)
    requires chunk > 0 && k != n && before.a <= after.a && before.b <= after.b
    requires forall r :: r in after.a ==> r in before.a || InScope(job, Tile(start, end, chunk, n), r)
    requires forall r :: r in after.b ==> r in before.b || InScope(job, Tile(start, end, chunk, n), r)
    requires TileInSync(job, start, end, chunk, k, before.a, before.b)
    ensures TileInSync(job, start, end, chunk, k, after.a, after.b)
  {
    var w, v := Tile(start, end, chunk, n), Tile(start, end, chunk, k);
    forall t ensures !(Within(w, t) && Within(v, t)) {
      if Within(w, t) && Within(v, t) { TilesDisjoint(start, end, chunk, n, k, t); }
    }
    hide Has, Tile, Within, InScope;
    forall key
      ensures Has(job, v, A, before.a, key) <==> Has(job, v, A, after.a, key)
      ensures Has(job, v, B, before.b, key) <==> Has(job, v, B, after.b, key)
    {
      OtherWindowKept(job, w, v, A, before.a, after.a, key);
      OtherWindowKept(job, w, v, B, before.b, after.b, key);
    }
  }

  lemma SyncKeepsTiles(job: Job, start: int, end: int, chunk: int, s: System, step: Step)
    requires chunk > 0 && OneBucketing(job) && Aligned(start, end, chunk, s) && AllInSync(job, start, end, chunk, s)
    requires step.Sync? && step.run.Some? && Enabled(job, chunk, s, step)
    ensures AllInSync(job, start, end, chunk, Next(chunk, s, step))
    ensures s.a <= step.a && s.b <= step.b
  {
    var x := step.run.value;
    var n := s.task.chunks;
    CursorTile(start, end, chunk, s.task);
    var w := Tile(start, end, chunk, n);
    RunPreserves(job, w, false, x);
    hide InSync, OneBucketing, IsRun, Boundary, InScope, Tile;
    forall r
      ensures r in x.after.a ==> r in x.before.a || InScope(job, w, r)
      ensures r in x.after.b ==> r in x.before.b || InScope(job, w, r)
    {
      RunAddsInScope(job, w, x, r);
    }
    if step.result.ok { SuccessIsInSync(job, w, x); }
    forall k: nat | k in s.ever ensures TileInSync(job, start, end, chunk, k, step.a, step.b) {
      assert TileInSync(job, start, end, chunk, k, s.a, s.b);
      TileKept(job, start, end, chunk, n, k, x);
    }
    if step.result.ok { assert TileInSync(job, start, end, chunk, n, step.a, step.b); }
  }

  /** A run on one tile keeps every tile in sync that was. */
  lemma TileKept(job: Job, start: int, end: int, chunk: int, n: nat, k: nat, x: SyncRun)
    requires chunk > 0 && TileInSync(job, start, end, chunk, k, x.before.a, x.before.b)
    requires IsRun(job, Tile(start, end, chunk, n), false, x)
    requires x.before.a <= x.after.a && x.before.b <= x.after.b
    requires forall r :: r in x.after.a ==> r in x.before.a || InScope(job, Tile(start, end, chunk, n), r)
    requires forall r :: r in x.after.b ==> r in x.before.b || InScope(job, Tile(start, end, chunk, n), r)
    ensures TileInSync(job, start, end, chunk, k, x.after.a, x.after.b)
  {
    hide IsRun, InSync, InScope, Tile;
    if k == n {
      InSyncChangesNothing(job, Tile(start, end, chunk, n), false, x);
    } else {
      OtherTileKept(job, start, end, chunk, n, k, x.before, x.after);
    }
  }

  lemma StepKeepsTables(job: Job, start: int, end: int, chunk: int, s: System, step: Step)
    requires chunk > 0 && OneBucketing(job) && Aligned(start, end, chunk, s) && AllInSync(job, start, end, chunk, s)
    requires Enabled(job, chunk, s, step)
    ensures AllInSync(job, start, end, chunk, Next(chunk, s, step))
    ensures s.a <= Next(chunk, s, step).a && s.b <= Next(chunk, s, step).b
  {
    if step.Sync? && step.run.Some? {
      hide IsRun, TileInSync, Aligned, OneBucketing;
      SyncKeepsTiles(job, start, end, chunk, s, step);
    } else {
      hide IsRun, TileInSync, Aligned, OneBucketing, Checked, Recorded;
    }
  }

  lemma ShorterIsPossible(job: Job, chunk: int, first: System, steps: seq<Step>)
    requires Possible(job, chunk, first, steps) && steps != []
    ensures
      var n := |steps| - 1;
      Possible(job, chunk, first, steps[..n]) && Enabled(job, chunk, Reached(chunk, first, steps[..n]), steps[n])
  {
    hide Enabled, Reached;
    var n := |steps| - 1;
    assert forall i | 0 <= i < n :: steps[..n][..i] == steps[..i] && steps[..n][i] == steps[i];
  }

  lemma {:induction false} RunIsTiled(job: Job, interval: nat, task: Task, a: Table, b: Table, steps: seq<Step>)
    requires NewTask(task.start, task.end, false) == Some(task)
    requires Possible(job, ChunkMs(interval), Fresh(task, a, b), steps)
    ensures
      var s := Reached(ChunkMs(interval), Fresh(task, a, b), steps);
      && Aligned(task.start, task.end, ChunkMs(interval), s)
      && Tiled(task.start, task.end, ChunkMs(interval), s)
  {
    var chunk, first := ChunkMs(interval), Fresh(task, a, b);
    hide Aligned, Tiled, Enabled, Next, Possible;
    if steps == [] {
      FreshIsFine(job, chunk, task, a, b);
    } else {
      var n := |steps| - 1;
      ShorterIsPossible(job, chunk, first, steps);
      RunIsTiled(job, interval, task, a, b, steps[..n]);
      var s := Reached(chunk, first, steps[..n]);
      StepIsAligned(job, task.start, task.end, chunk, s, steps[n]);
      StepIsTiled(job, task.start, task.end, chunk, s, steps[n]);
    }
  }

  lemma {:induction false} RunKeepsTables(job: Job, interval: nat, task: Task, a: Table, b: Table, steps: seq<Step>)
    requires NewTask(task.start, task.end, false) == Some(task) && OneBucketing(job)
    requires Possible(job, ChunkMs(interval), Fresh(task, a, b), steps)
    ensures
      var s := Reached(ChunkMs(interval), Fresh(task, a, b), steps);
      AllInSync(job, task.start, task.end, ChunkMs(interval), s) && a <= s.a && b <= s.b
  {
    var chunk, first := ChunkMs(interval), Fresh(task, a, b);
    hide Aligned, Tiled, AllInSync, Enabled, Next, Possible, OneBucketing;
    if steps == [] {
      FreshIsFine(job, chunk, task, a, b);
    } else {
      var n := |steps| - 1;
      ShorterIsPossible(job, chunk, first, steps);
      RunKeepsTables(job, interval, task, a, b, steps[..n]);
      RunIsTiled(job, interval, task, a, b, steps[..n]);
      StepKeepsTables(job, task.start, task.end, chunk, Reached(chunk, first, steps[..n]), steps[n]);
    }
  }

  lemma FreshIsFine(job: Job, chunk: int, task: Task, a: Table, b: Table)
    requires NewTask(task.start, task.end, false) == Some(task) && chunk > 0
    ensures
      var s := Fresh(task, a, b);
      && Aligned(task.start, task.end, chunk, s) && Tiled(task.start, task.end, chunk, s)
      && AllInSync(job, task.start, task.end, chunk, s)
  {
    assert task.start + 0 * chunk == task.start;
  }

  // ---------------------------------------------------------------- what a run promises

  /** Tiling: since the last restart the successful chunks are consecutive tiles, each once, from the saved cursor on,
      so only chunks from there on can repeat; and at any moment every instant before the cursor lies in a tile that
      has succeeded. No instant lies in two tiles (TilesDisjoint). */
  lemma ChunksTile(job: Job, interval: nat, task: Task, a: Table, b: Table, steps: seq<Step>, t: int)
    requires NewTask(task.start, task.end, false) == Some(task)
    requires Possible(job, ChunkMs(interval), Fresh(task, a, b), steps)
    ensures
      var s := Reached(ChunkMs(interval), Fresh(task, a, b), steps);
      && s.resumedAt <= s.saved.chunks && s.saved.cursor <= s.task.cursor
      && s.done == Range(s.resumedAt, Succeeded(s))
      && (task.start <= t < s.task.cursor ==>
            exists k: nat :: k in s.ever && Within(Tile(task.start, task.end, ChunkMs(interval), k), t))
  {
    hide *;
    var chunk := ChunkMs(interval);
    var s := Reached(chunk, Fresh(task, a, b), steps);
    RunIsTiled(job, interval, task, a, b, steps);
    TilingMeans(task.start, task.end, chunk, s, t);
  }

  lemma TilingMeans(start: int, end: int, chunk: int, s: System, t: int)
    requires chunk > 0 && Aligned(start, end, chunk, s) && Tiled(start, end, chunk, s)
    ensures s.resumedAt <= s.saved.chunks && s.saved.cursor <= s.task.cursor
    ensures s.done == Range(s.resumedAt, Succeeded(s))
    ensures start <= t < s.task.cursor ==> exists k: nat :: k in s.ever && Within(Tile(start, end, chunk, k), t)
  {
    hide Range;
    BoundaryGrows(start, end, chunk, s.saved.chunks, s.task.chunks);
    if start <= t < s.task.cursor {
      FirstBoundary(start, end, chunk);
      var k := TileOf(start, end, chunk, s.task.chunks, t);
    }
  }

  lemma BoundaryGrows(start: int, end: int, chunk: int, i: nat, j: nat)
    requires chunk > 0 && i <= j
    ensures Boundary(start, end, chunk, i) <= Boundary(start, end, chunk, j)
  {
    if i < j { TileOrder(chunk, i, j); }
  }

  /** The next chunk to be tried begins at the cursor and, if it succeeded before, that was before the last restart. */
  lemma OnlyAfterSavedRepeats(job: Job, interval: nat, task: Task, a: Table, b: Table, steps: seq<Step>)
    requires NewTask(task.start, task.end, false) == Some(task)
    requires Possible(job, ChunkMs(interval), Fresh(task, a, b), steps)
    requires Reached(ChunkMs(interval), Fresh(task, a, b), steps).worker.Cleared?
    ensures
      var s := Reached(ChunkMs(interval), Fresh(task, a, b), steps);
      && ChunkWindow(s.task, ChunkMs(interval)) == Tile(task.start, task.end, ChunkMs(interval), s.task.chunks)
      && s.task.chunks >= s.resumedAt && s.task.chunks !in s.done
  {
    var s := Reached(ChunkMs(interval), Fresh(task, a, b), steps);
    RunIsTiled(job, interval, task, a, b, steps);
    CursorTile(task.start, task.end, ChunkMs(interval), s.task);
    RangeHas(s.resumedAt, Succeeded(s), s.task.chunks);
  }

  lemma {:induction false} RangeHas(from: nat, to: nat, k: nat)
    ensures k in Range(from, to) <==> from <= k < to
  {
    if from < to { RangeHas(from, to - 1, k); }
  }

  /** Completion: the whole range is covered, no row is lost, every key of the range that the job copies is on both
      sides, and so one more run over the whole range, dry or not, changes nothing. */
  lemma CompleteIsInSync(job: Job, interval: nat, task: Task, a: Table, b: Table, steps: seq<Step>)
    requires NewTask(task.start, task.end, false) == Some(task) && OneBucketing(job)
    requires Possible(job, ChunkMs(interval), Fresh(task, a, b), steps)
    requires Reached(ChunkMs(interval), Fresh(task, a, b), steps).task.status == Complete
    ensures
      var s := Reached(ChunkMs(interval), Fresh(task, a, b), steps);
      s.task.cursor == task.end && a <= s.a && b <= s.b && InSync(job, Window(task.start, Some(task.end)), s.a, s.b)
  {
    var chunk := ChunkMs(interval);
    var s := Reached(chunk, Fresh(task, a, b), steps);
    RunIsTiled(job, interval, task, a, b, steps);
    RunKeepsTables(job, interval, task, a, b, steps);
    var full := Window(task.start, Some(task.end));
    hide Reached, Possible, Has, OneBucketing, Boundary, Fresh, NewTask, ChunkMs;
    forall key
      ensures Has(job, full, A, s.a, key) ==> Has(job, full, B, s.b, key)
      ensures job.bidirectional && Has(job, full, B, s.b, key) ==> Has(job, full, A, s.a, key)
    {
      if Has(job, full, A, s.a, key) {
        var k := TileHas(job, task.start, task.end, chunk, s.task.chunks, A, s.a, key);
        assert TileInSync(job, task.start, task.end, chunk, k, s.a, s.b);
        RangeHasTile(job, task.start, task.end, chunk, k, B, s.b, key);
      }
      if job.bidirectional && Has(job, full, B, s.b, key) {
        var k := TileHas(job, task.start, task.end, chunk, s.task.chunks, B, s.b, key);
        assert TileInSync(job, task.start, task.end, chunk, k, s.a, s.b);
        RangeHasTile(job, task.start, task.end, chunk, k, A, s.a, key);
      }
    }
  }

  lemma TileHas(job: Job, start: int, end: int, chunk: int, n: nat, side: Side, table: Table, key: Key) returns (k: nat)
    requires chunk > 0 && Boundary(start, end, chunk, n) == end && Has(job, Window(start, Some(end)), side, table, key)
    ensures k < n && Has(job, Tile(start, end, chunk, k), side, table, key)
  {
    var r :| InGroup(job, Window(start, Some(end)), side, table, r, key);
    FirstBoundary(start, end, chunk);
    k := TileOf(start, end, chunk, n, r.time);
    hide KeyOf;
    assert InGroup(job, Tile(start, end, chunk, k), side, table, r, key);
  }

  lemma RangeHasTile(job: Job, start: int, end: int, chunk: int, k: nat, side: Side, table: Table, key: Key)
    requires chunk > 0 && Has(job, Tile(start, end, chunk, k), side, table, key)
    ensures Has(job, Window(start, Some(end)), side, table, key)
  {
    var r :| InGroup(job, Tile(start, end, chunk, k), side, table, r, key);
    BoundaryAtMost(start, end, chunk, k + 1);
    assert k * chunk >= 0;
    hide KeyOf;
    assert InGroup(job, Window(start, Some(end)), side, table, r, key);
  }

  /** After completion, one more run over the whole range changes nothing. */
  lemma NothingLeftToDo(job: Job, interval: nat, task: Task, a: Table, b: Table, steps: seq<Step>, dry: bool,
      x: SyncRun)
    requires NewTask(task.start, task.end, false) == Some(task) && OneBucketing(job)
    requires Possible(job, ChunkMs(interval), Fresh(task, a, b), steps)
    requires
      var s := Reached(ChunkMs(interval), Fresh(task, a, b), steps);
      && s.task.status == Complete && x.before.a == s.a && x.before.b == s.b
      && IsRun(job, Window(task.start, Some(task.end)), dry, x)
    ensures x.after.a == x.before.a && x.after.b == x.before.b && x.after.out.inserted == 0
  {
    CompleteIsInSync(job, interval, task, a, b, steps);
    hide IsRun, InSync, Possible;
    InSyncChangesNothing(job, Window(task.start, Some(task.end)), dry, x);
  }
}
