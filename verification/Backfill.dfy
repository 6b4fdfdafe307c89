/** A historical backfill: a range of time reconciled chunk by chunk, with a cursor that survives restarts. */
module BackfillModel {
  import opened DatabaseSyncModel

  datatype TaskStatus = Running | Cancelled | Complete | Failed

  /** Totals over the chunks recorded so far. */
  datatype Totals = Totals(examined: int, selected: int, inserted: int, skipped: int, failed: int, aToB: int, bToA: int)

  datatype Task = Task(
    start: int, end: int, cursor: int, status: TaskStatus, cancelRequested: bool, chunks: nat, totals: Totals)

  const HOUR := 3_600_000
  const DAY := 24 * HOUR

  /** Six hours up to a one-minute interval, a week for hourly matching, a month for any other. */
  function ChunkMs(interval: nat): (ms: int)
    ensures ms > 0
  {
    if interval <= 1 then 6 * HOUR else if interval == 60 then 7 * DAY else 31 * DAY
  }

  /** A new task; refused for an empty range or while another one runs for the same job. */
  function NewTask(start: int, end: int, anotherRuns: bool): Option<Task> {
    if end <= start || anotherRuns then None
    else Some(Task(start, end, start, Running, false, 0, Totals(0, 0, 0, 0, 0, 0, 0)))
  }

  function Capped(t: int, end: int): int { if t < end then t else end }

  function ChunkEnd(task: Task, chunk: int): int { Capped(task.cursor + chunk, task.end) }

  /** The window the next chunk covers. */
  function ChunkWindow(task: Task, chunk: int): Window { Window(task.cursor, Some(ChunkEnd(task, chunk))) }

  function Plus(t: Totals, r: Result): Totals {
    Totals(t.examined + r.examined, t.selected + r.selected, t.inserted + r.inserted, t.skipped + r.skipped,
      t.failed + r.failed, t.aToB + r.aToB, t.bToA + r.bToA)
  }

  /** The top of the worker's loop: cancelled, complete, or on with the next chunk. */
  function Checked(task: Task): Task {
    if task.cancelRequested then task.(status := Cancelled)
    else if task.cursor >= task.end then task.(status := Complete)
    else task
  }

  /** The result of a chunk is recorded; the cursor moves only on success. */
  function Recorded(task: Task, chunk: int, r: Result): Task {
    var t := task.(totals := Plus(task.totals, r));
    if r.ok then t.(cursor := ChunkEnd(task, chunk), chunks := task.chunks + 1) else t.(status := TaskStatus.Failed)
  }

  /** The chunk windows from one cursor up to another. */
  function Windows(start: int, end: int, chunk: int, count: nat): seq<Window>
    requires chunk > 0
  {
    if count == 0 then []
    else
      var last := start + (count - 1) * chunk;
      Windows(start, end, chunk, count - 1) + [Window(last, Some(Capped(last + chunk, end)))]
  }

  /** What each pass of the loop meets: whether cancellation has been requested by then, and the result of its chunk. */
  datatype Meeting = Meeting(cancelled: nat -> bool, result: nat -> Result)

  predicate CancelledAt(m: Meeting, pass: nat) { m.cancelled(pass) }
  function ResultAt(m: Meeting, pass: nat): Result { m.result(pass) }

  function TotalsAfter(before: Totals, m: Meeting, passes: nat): Totals {
    if passes == 0 then before else Plus(TotalsAfter(before, m, passes - 1), ResultAt(m, passes - 1))
  }

  class BackfillService {
    const chunk: int
    var task: Task
    var workerRunning: bool
    /** The task as last written to disk. */
    var saved: Task

    constructor (task: Task, interval: nat)
      ensures this.task == task && saved == task && !workerRunning && chunk == ChunkMs(interval)
    {
      this.task, saved, workerRunning, chunk := task, task, false, ChunkMs(interval);
    }

    method Save()
      modifies this`saved
      ensures saved == task
    {
      saved := task;
    }

    /** The process ends at any point; what is on disk is what there is after the restart. */
    method Restart()
      modifies this
      ensures task == saved == old(saved) && !workerRunning
    {
      task, workerRunning := saved, false;
    }

    method Cancel() returns (ok: bool)
      modifies this
      ensures ok == (old(task).status == Running)
      ensures if ok then task == old(task).(cancelRequested := true) && saved == task
        else task == old(task) && saved == old(saved)
      ensures workerRunning == old(workerRunning)
    {
      if task.status != Running { return false; }
      task := task.(cancelRequested := true);
      Save();
      ok := true;
    }

    /** Starts the worker of a running task that has none; a task whose job is gone fails. */
    method Start(jobExists: bool) returns (started: bool)
      modifies this
      ensures started == (old(task).status == Running && !old(workerRunning) && jobExists)
      ensures workerRunning == (old(workerRunning) || started)
      ensures saved == old(saved)
      ensures
        var orphaned := old(task).status == Running && !old(workerRunning) && !jobExists;
        task == if orphaned then old(task).(status := TaskStatus.Failed) else old(task)
    {
      if task.status != Running || workerRunning { return false; }
      if !jobExists {
        task := task.(status := TaskStatus.Failed);
        return false;
      }
      workerRunning := true;
      started := true;
    }

    /** The top of the loop. */
    method CheckTask()
      modifies this`task, this`workerRunning
      ensures task == Checked(old(task))
      ensures workerRunning == (old(workerRunning) && !(old(task).cancelRequested || old(task).cursor >= old(task).end))
    {
      if task.cancelRequested {
        task, workerRunning := task.(status := Cancelled), false;
      } else if task.cursor >= task.end {
        task, workerRunning := task.(status := Complete), false;
      }
    }

    /** The worker. It always ends; it leaves the task cancelled, complete or failed, and on disk; the windows it
        handed to the sync are consecutive from the cursor on, and the cursor passed exactly those that succeeded. */
    method Work(m: Meeting) returns (windows: seq<Window>)
      requires workerRunning && task.status == Running && task.cursor <= task.end && chunk > 0
      modifies this
      ensures !workerRunning && saved == task && task.status != Running
      ensures task.start == old(task).start && task.end == old(task).end
      ensures old(task).chunks <= task.chunks
      ensures
        var done := task.chunks - old(task).chunks;
        && task.cursor == Capped(old(task).cursor + done * chunk, task.end)
        && (forall i: nat :: i < done ==> ResultAt(m, i).ok)
        && (task.status == TaskStatus.Failed ==> !ResultAt(m, done).ok)
        && windows
             == Windows(old(task).cursor, task.end, chunk, if task.status == TaskStatus.Failed then done + 1 else done)
        && task.totals == TotalsAfter(old(task).totals, m, |windows|)
      ensures task.status == Complete ==> task.cursor == task.end
      ensures task.status == Cancelled ==> task.cancelRequested
    {
      windows := [];
      ghost var first := task;
      assert first.cursor + 0 * chunk == first.cursor;
      while task.status == Running
        invariant workerRunning && task.start == first.start && task.end == first.end && task.cursor <= task.end
        invariant first.chunks <= task.chunks && |windows| == task.chunks - first.chunks
        invariant task.status == Running
        invariant task.cursor == Capped(first.cursor + |windows| * chunk, task.end)
        invariant forall i: nat :: i < |windows| ==> ResultAt(m, i).ok
        invariant windows == Windows(first.cursor, first.end, chunk, |windows|)
        invariant task.totals == TotalsAfter(first.totals, m, |windows|)
        decreases task.end - task.cursor
      {
        hide ResultAt, CancelledAt;
        if CancelledAt(m, |windows|) { task := task.(cancelRequested := true); }
        CheckTask();
        if task.status != Running { break; }
        var result := ResultAt(m, |windows|);
        OneWindowMore(first.cursor, first.end, chunk, |windows|);
        assert ChunkWindow(task, chunk) ==
          Window(first.cursor + |windows| * chunk, Some(Capped(first.cursor + |windows| * chunk + chunk, task.end)));
        windows := windows + [ChunkWindow(task, chunk)];
        task := Recorded(task, chunk, result);
        if !result.ok { workerRunning := false; }
        Save();
        if !result.ok { break; }
      }
      Save();
    }
  }

  lemma OneWindowMore(start: int, end: int, chunk: int, n: nat)
    requires chunk > 0
    ensures (n + 1) * chunk == n * chunk + chunk
    ensures |Windows(start, end, chunk, n + 1)| == |Windows(start, end, chunk, n)| + 1
    ensures Windows(start, end, chunk, n + 1) == Windows(start, end, chunk, n)
      + [Window(start + n * chunk, Some(Capped(start + n * chunk + chunk, end)))]
  {
    assert (n + 1 - 1) * chunk == n * chunk;
  }
}
