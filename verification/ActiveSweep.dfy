/** How long one connection takes to read all of its active tags once: sweeps between boundaries, the samples kept of
    them, and the averages reported.
 */
module ActiveSweepModel {
  datatype Option<+T> = None | Some(value: T)

  /** A completed sweep: when it finished and how long it took, in milliseconds. */
  datatype Sample = Sample(finish: int, ms: int)

  datatype State = State(
    active: set<string>, seen: set<string>, epoch: nat, cycles: nat, primed: bool, lastMs: int,
    boundary: int, latest: int, samplesLast: int, samples: seq<Sample>)

  datatype Event =
    | Configure(names: set<string>, epoch: nat, now: int)
    | SetActive(name: string, active: bool, epoch: nat, now: int)
    | Completed(name: string, epoch: nat, started: int, finished: int)

  const KEEP_MS := 60_000

  const FRESH := State({}, {}, 0, 0, false, 0, 0, 0, 0, [])

  // ---------------------------------------------------------------- transitions

  function Reset(s: State, now: int): State {
    s.(boundary := now, latest := now, seen := {}, samples := [], primed := false, cycles := 0, lastMs := 0)
  }

  function Recent(samples: seq<Sample>, now: int): seq<Sample> {
    if samples != [] && now - samples[0].finish > KEEP_MS then Recent(samples[1..], now) else samples
  }

  /** Every active name has been seen: the sweep counts, unless it is the priming one. */
  function Closed(s: State): State {
    var ms := s.latest - s.boundary;
    var t :=
      if s.primed then
        s.(lastMs := ms, samples := s.samples + [Sample(s.latest, ms)], samplesLast := s.latest, cycles := s.cycles + 1)
      else s;
    t.(primed := true, boundary := s.latest, seen := {}, samples := Recent(t.samples, s.latest))
  }

  predicate Accepts(s: State, e: Event) {
    e.Completed? && e.epoch == s.epoch && e.name in s.active && s.boundary <= e.started <= e.finished
  }

  function Noted(s: State, e: Event): State
    requires Accepts(s, e)
  {
    s.(latest := if e.finished > s.latest then e.finished else s.latest, seen := s.seen + {e.name})
  }

  function Step(s: State, e: Event): State {
    match e
    case Configure(names, epoch, now) => Reset(s.(epoch := epoch, active := names), now)
    case SetActive(name, active, epoch, now) =>
      if epoch != s.epoch || active == (name in s.active) then s
      else Reset(s.(active := if active then s.active + {name} else s.active - {name}), now)
    case Completed(_, _, _, _) =>
      if !Accepts(s, e) then s
      else if |Noted(s, e).seen| != |s.active| then Noted(s, e)
      else Closed(Noted(s, e))
  }

  // ---------------------------------------------------------------- averages

  function Sum(samples: seq<Sample>): int {
    if samples == [] then 0 else Sum(samples[..|samples| - 1]) + samples[|samples| - 1].ms
  }

  /** The samples not older than the window. */
  function Within(samples: seq<Sample>, now: int, window: nat): seq<Sample> {
    if samples == [] then []
    else
      var last := samples[|samples| - 1];
      Within(samples[..|samples| - 1], now, window) + (if now - last.finish <= window then [last] else [])
  }

  function Average(samples: seq<Sample>, now: int, window: nat): Option<real> {
    var kept := Within(samples, now, window);
    if kept == [] then None else Some(Sum(kept) as real / |kept| as real)
  }

  method ComputeAverage(samples: seq<Sample>, now: int, window: nat) returns (r: Option<real>)
    ensures r == Average(samples, now, window)
  {
    var sum, count := 0, 0;
    ghost var kept := [];
    for i := 0 to |samples|
      invariant kept == Within(samples[..i], now, window) && sum == Sum(kept) && count == |kept|
    {
      assert samples[..i + 1][..i] == samples[..i];
      if now - samples[i].finish <= window {
        assert (kept + [samples[i]])[..|kept|] == kept;
        sum, count, kept := sum + samples[i].ms, count + 1, kept + [samples[i]];
      }
    }
    assert samples[..|samples|] == samples;
    r := if count == 0 then None else Some(sum as real / count as real);
  }

  // ---------------------------------------------------------------- the class

  datatype Snapshot = Snapshot(
    state: string, msLast: Option<int>, average10: Option<real>, average60: Option<real>, age: Option<int>,
    completed: nat, work: nat, seen: nat)

  class ActiveSweep {
    var active: set<string>
    var seen: set<string>
    var epoch: nat
    var cycles: nat
    var primed: bool
    var lastMs: int
    var boundary: int
    var latest: int
    var samplesLast: int
    var samples: seq<Sample>

    constructor ()
      ensures Current() == FRESH
    {
      active, seen, epoch, cycles, primed, lastMs := {}, {}, 0, 0, false, 0;
      boundary, latest, samplesLast, samples := 0, 0, 0, [];
    }

    function Current(): State
      reads this
    {
      State(active, seen, epoch, cycles, primed, lastMs, boundary, latest, samplesLast, samples)
    }

    method ResetAt(now: int)
      modifies this
      ensures Current() == Reset(old(Current()), now)
    {
      boundary, latest, seen, samples, primed, cycles, lastMs := now, now, {}, [], false, 0, 0;
    }

    method Configure(names: set<string>, epoch: nat, now: int)
      modifies this
      ensures Current() == Step(old(Current()), Event.Configure(names, epoch, now))
    {
      this.epoch, active := epoch, names;
      ResetAt(now);
    }

    method SetActive(name: string, active: bool, epoch: nat, now: int)
      modifies this
      ensures Current() == Step(old(Current()), Event.SetActive(name, active, epoch, now))
    {
      if epoch != this.epoch { return; }
      var changed := active != (name in this.active);
      this.active := if active then this.active + {name} else this.active - {name};
      if changed { ResetAt(now); }
      else { assert this.active == old(this.active); }
    }

    method Completed(name: string, epoch: nat, started: int, finished: int)
      modifies this
      ensures Current() == Step(old(Current()), Event.Completed(name, epoch, started, finished))
    {
      if epoch != this.epoch || name !in active || started < boundary || finished < started { return; }
      if finished > latest { latest := finished; }
      seen := seen + {name};
      if |seen| != |active| { return; }
      CloseSweep();
    }

    method CloseSweep()
      modifies this
      ensures Current() == Closed(old(Current()))
    {
      if primed {
        lastMs := latest - boundary;
        samples, samplesLast, cycles := samples + [Sample(latest, lastMs)], latest, cycles + 1;
      }
      primed, boundary, seen := true, latest, {};
      ghost var all := samples;
      assert Current().(samples := Recent(all, latest)) == Closed(old(Current()));
      while samples != [] && latest - samples[0].finish > KEEP_MS
        invariant Current().(samples := Recent(all, latest)) == Closed(old(Current()))
        invariant Recent(samples, latest) == Recent(all, latest)
      {
        hide Closed;
        samples := samples[1..];
      }
    }

    method TakeSnapshot(now: int) returns (r: Snapshot)
      ensures r.average10 == Average(samples, now, 10_000) && r.average60 == Average(samples, now, 60_000)
      ensures r.state == if active == {} then "idle" else if cycles > 0 then "measuring" else "warming_up"
      ensures if cycles == 0 then r.msLast == None && r.age == None
              else r.msLast == Some(lastMs) && r.age == Some(now - samplesLast)
      ensures r.completed == cycles && r.work == |active| && r.seen == |seen|
    {
      var average10 := ComputeAverage(samples, now, 10_000);
      var average60 := ComputeAverage(samples, now, 60_000);
      r := Snapshot(if active == {} then "idle" else if cycles > 0 then "measuring" else "warming_up",
        if cycles > 0 then Some(lastMs) else None, average10, average60,
        if cycles > 0 then Some(now - samplesLast) else None, cycles, |active|, |seen|);
    }
  }

  // ---------------------------------------------------------------- whole runs

  function Reached(h: seq<Event>): State {
    if h == [] then FRESH else Step(Reached(h[..|h| - 1]), h[|h| - 1])
  }

  predicate Resets(s: State, e: Event) {
    e.Configure? || (e.SetActive? && e.epoch == s.epoch && e.active != (e.name in s.active))
  }

  /** This event ends a sweep: it is the read that makes every active name seen. */
  predicate Closes(s: State, e: Event) {
    Accepts(s, e) && s.seen + {e.name} == s.active
  }

  function LogNext(s: State, e: Event, log: seq<Sample>): seq<Sample> {
    if Resets(s, e) then []
    else if Closes(s, e) && s.primed then log + [Sample(Noted(s, e).latest, Noted(s, e).latest - s.boundary)]
    else log
  }

  function PrimedNext(s: State, e: Event, primedAt: Option<int>): Option<int> {
    if Resets(s, e) then None
    else if Closes(s, e) && !s.primed then Some(Noted(s, e).latest)
    else primedAt
  }

  /** All samples since the last reset, none dropped. */
  function Log(h: seq<Event>): seq<Sample> {
    if h == [] then [] else LogNext(Reached(h[..|h| - 1]), h[|h| - 1], Log(h[..|h| - 1]))
  }

  /** The boundary set by the priming sweep since the last reset. */
  function PrimedAt(h: seq<Event>): Option<int> {
    if h == [] then None else PrimedNext(Reached(h[..|h| - 1]), h[|h| - 1], PrimedAt(h[..|h| - 1]))
  }

  lemma Subsets<T>(a: set<T>, b: set<T>)
    requires a <= b
    ensures |a| <= |b| && (|a| == |b| <==> a == b)
  {
    assert b == a + (b - a);
    if a != b { assert b - a != {}; }
  }

  /** What holds between calls: comparing sizes compares sets, and nothing is left half done. */
  predicate Consistent(s: State) {
    && s.seen <= s.active
    && (s.active != {} ==> s.seen != s.active)
    && s.boundary <= s.latest
  }

  lemma StepIsConsistent(s: State, e: Event)
    requires Consistent(s)
    ensures Consistent(Step(s, e))
    ensures Accepts(s, e) ==> (|Noted(s, e).seen| == |s.active| <==> Closes(s, e))
  {
    if Accepts(s, e) { Subsets(Noted(s, e).seen, s.active); }
  }

  lemma {:induction false} RunIsConsistent(h: seq<Event>)
    ensures Consistent(Reached(h))
  {
    if h != [] {
      RunIsConsistent(h[..|h| - 1]);
      StepIsConsistent(Reached(h[..|h| - 1]), h[|h| - 1]);
    }
  }

  /** Somewhere in the run this name was read, within the current boundary. */
  ghost predicate ReadInSweep(h: seq<Event>, name: string, s: State) {
    exists j :: 0 <= j < |h| && h[j].Completed? && h[j].name == name && h[j].epoch == s.epoch
      && s.boundary <= h[j].started <= h[j].finished <= s.latest
  }

  lemma ReadStays(h: seq<Event>, e: Event, name: string, s: State, t: State)
    requires ReadInSweep(h, name, s) && t.epoch == s.epoch && t.boundary == s.boundary && s.latest <= t.latest
    ensures ReadInSweep(h + [e], name, t)
  {
    var j :| 0 <= j < |h| && h[j].Completed? && h[j].name == name && h[j].epoch == s.epoch
      && s.boundary <= h[j].started <= h[j].finished <= s.latest;
    assert (h + [e])[j] == h[j];
  }

  lemma {:induction false} SeenWereRead(h: seq<Event>)
    ensures forall name | name in Reached(h).seen :: ReadInSweep(h, name, Reached(h))
  {
    if h != [] {
      var g, e := h[..|h| - 1], h[|h| - 1];
      var s, t := Reached(g), Reached(h);
      SeenWereRead(g);
      RunIsConsistent(g);
      forall name | name in t.seen ensures ReadInSweep(h, name, t) {
        assert h == g + [e];
        if name in s.seen { ReadStays(g, e, name, s, t); }
        else { assert h[|h| - 1].name == name; }
      }
    }
  }

  /** A sweep that ends holds a read of every active name, started at or after the boundary the sweep began with and
      finished by the boundary it ends with; no read from before can complete it. */
  lemma SweepReadsEverything(h: seq<Event>, e: Event, name: string)
    requires Closes(Reached(h), e) && name in Reached(h).active
    ensures
      var s, t := Reached(h), Reached(h + [e]);
      t.boundary >= s.boundary && ReadInSweep(h + [e], name, s.(latest := t.boundary))
  {
    var s := Reached(h);
    assert (h + [e])[..|h|] == h;
    RunIsConsistent(h);
    StepIsConsistent(s, e);
    SeenWereRead(h);
    var t := Reached(h + [e]);
    assert t == Closed(Noted(s, e));
    if name in s.seen { ReadStays(h, e, name, s, s.(latest := t.boundary)); }
    else { assert (h + [e])[|h|].name == name; }
  }

  /** Ordered by finish, no negative duration. */
  predicate Chronological(log: seq<Sample>, last: int) {
    && (forall i, j :: 0 <= i <= j < |log| ==> log[i].finish <= log[j].finish <= last)
    && (forall i :: 0 <= i < |log| ==> log[i].ms >= 0)
  }

  /** The samples kept are the log without its first d, which are too old. */
  predicate KeepsFrom(samples: seq<Sample>, log: seq<Sample>, boundary: int, d: nat) {
    d <= |log| && samples == log[d..] && forall i :: 0 <= i < d ==> boundary - log[i].finish > KEEP_MS
  }

  ghost predicate KeepsEnd(samples: seq<Sample>, log: seq<Sample>, boundary: int) {
    exists d: nat :: KeepsFrom(samples, log, boundary, d)
  }

  ghost predicate Recorded(s: State, log: seq<Sample>, primedAt: Option<int>) {
    && Chronological(log, s.boundary)
    && s.cycles == |log|
    && (log != [] ==> s.lastMs == log[|log| - 1].ms && s.samplesLast == log[|log| - 1].finish == s.boundary)
    && (s.primed <==> primedAt.Some?)
    && (if s.primed then Sum(log) == s.boundary - primedAt.value else log == [])
    && KeepsEnd(s.samples, log, s.boundary)
  }

  lemma NothingKept(boundary: int)
    ensures KeepsEnd([], [], boundary)
  {
    assert KeepsFrom([], [], boundary, 0);
  }

  lemma {:induction false} RecentKeepsEnd(samples: seq<Sample>, log: seq<Sample>, boundary: int, d: nat)
    requires KeepsFrom(samples, log, boundary, d)
    ensures KeepsEnd(Recent(samples, boundary), log, boundary)
    decreases |samples|
  {
    if samples != [] && boundary - samples[0].finish > KEEP_MS {
      assert samples[1..] == log[d + 1..];
      RecentKeepsEnd(samples[1..], log, boundary, d + 1);
    }
  }

  /** A later boundary and one more sample. */
  lemma CloseKeepsEnd(samples: seq<Sample>, log: seq<Sample>, boundary: int, later: int, more: seq<Sample>)
    requires KeepsEnd(samples, log, boundary) && boundary <= later
    ensures KeepsEnd(Recent(samples + more, later), log + more, later)
  {
    var d: nat :| KeepsFrom(samples, log, boundary, d);
    assert samples + more == (log + more)[d..];
    assert forall i | 0 <= i < d :: (log + more)[i] == log[i];
    RecentKeepsEnd(samples + more, log + more, later, d);
  }

  lemma OneMoreIsChronological(log: seq<Sample>, boundary: int, later: int)
    requires Chronological(log, boundary) && boundary <= later
    ensures Chronological(log, later)
    ensures
      var all := log + [Sample(later, later - boundary)];
      Chronological(all, later) && Sum(all) == Sum(log) + later - boundary
  {
    var all := log + [Sample(later, later - boundary)];
    assert all[..|log|] == log;
  }

  lemma ClosedIsRecorded(s: State, log: seq<Sample>, primedAt: Option<int>)
    requires Recorded(s, log, primedAt) && s.boundary <= s.latest
    ensures
      var t := Closed(s);
      if s.primed then Recorded(t, log + [Sample(s.latest, s.latest - s.boundary)], primedAt)
      else Recorded(t, log, Some(s.latest))
  {
    hide Chronological, KeepsEnd, Recent;
    OneMoreIsChronological(log, s.boundary, s.latest);
    CloseKeepsEnd(s.samples, log, s.boundary, s.latest,
                  if s.primed then [Sample(s.latest, s.latest - s.boundary)] else []);
    assert s.samples + [] == s.samples && log + [] == log;
  }

  lemma StepIsRecorded(s: State, e: Event, log: seq<Sample>, primedAt: Option<int>)
    requires Recorded(s, log, primedAt) && Consistent(s)
    ensures Recorded(Step(s, e), LogNext(s, e, log), PrimedNext(s, e, primedAt))
  {
    hide Chronological, KeepsEnd, Sum;
    StepIsConsistent(s, e);
    if Resets(s, e) {
      NothingKept(e.now);
      NothingRecorded(e.now);
    } else if Closes(s, e) {
      ClosedIsRecorded(Noted(s, e), log, primedAt);
      hide Closed, Recorded;
    }
  }

  lemma NothingRecorded(now: int)
    ensures Chronological([], now)
  {
  }

  lemma {:induction false} RunIsRecorded(h: seq<Event>)
    ensures Recorded(Reached(h), Log(h), PrimedAt(h))
  {
    if h == [] {
      NothingKept(0);
    } else {
      hide Recorded, Step, LogNext, PrimedNext;
      RunIsRecorded(h[..|h| - 1]);
      RunIsConsistent(h[..|h| - 1]);
      StepIsRecorded(Reached(h[..|h| - 1]), h[|h| - 1], Log(h[..|h| - 1]), PrimedAt(h[..|h| - 1]));
    }
  }

  /** Durations are never negative, and together they fill the time from the priming instant to the boundary. */
  lemma SweepsTelescope(h: seq<Event>)
    requires PrimedAt(h).Some?
    ensures Sum(Log(h)) == Reached(h).boundary - PrimedAt(h).value
    ensures forall i :: 0 <= i < |Log(h)| ==> Log(h)[i].ms >= 0
    ensures Reached(h).cycles == |Log(h)|
  {
    RunIsRecorded(h);
  }

  lemma {:induction false} WithinOfEnd(log: seq<Sample>, d: nat, now: int, window: nat)
    requires d <= |log| && forall i :: 0 <= i < d ==> now - log[i].finish > window
    ensures Within(log[d..], now, window) == Within(log, now, window)
    decreases |log|
  {
    if log != [] {
      var n := |log| - 1;
      if d <= n {
        WithinOfEnd(log[..n], d, now, window);
        assert log[d..][..n - d] == log[..n][d..];
      } else {
        WithinOfEnd(log[..n], n, now, window);
        assert log[..n][n..] == [] && log[d..] == [];
      }
    }
  }

  /** Dropping old samples never shows: for any instant not before the last sample, an average over at most the kept
      minute equals the one over all samples since the last reset. */
  lemma PruningNeverShows(h: seq<Event>, now: int, window: nat)
    requires now >= Reached(h).boundary && window <= KEEP_MS
    ensures Average(Reached(h).samples, now, window) == Average(Log(h), now, window)
  {
    RunIsRecorded(h);
    var s, log := Reached(h), Log(h);
    var d: nat :| KeepsFrom(s.samples, log, s.boundary, d);
    WithinOfEnd(log, d, now, window);
  }
}
