/** The retry intervals that failed syncs use up one by one. */
module Retries {
  import opened Wrappers

  // What is left for each profile whose retries have begun, in minutes.
  type RetriesInfo = map<string, seq<nat>>

  const UINT32 := 0x1_0000_0000

  function Add(m: RetriesInfo, name: string, intervals: seq<nat>): RetriesInfo {
    if intervals != [] && name !in m then m[name := intervals] else m
  }

  // The delay in seconds is computed in 32 bits.
  function Next(m: RetriesInfo, name: string): (RetriesInfo, Option<nat>) {
    if name in m && m[name] != [] then (m[name := m[name][1..]], Some(m[name][0] * 60 % UINT32)) else (m, None)
  }

  function Done(m: RetriesInfo, name: string): RetriesInfo {
    m - {name}
  }

  datatype Outcome = Succeeded | Failed(schedulerUp: bool) | OtherEnd

  datatype Event = Started(name: string) | Ended(name: string, outcome: Outcome)

  // Without a scheduler, as during a backup, the interval is used up all the same.
  function Finish(m: RetriesInfo, name: string, outcome: Outcome): (RetriesInfo, Option<nat>) {
    match outcome
    case Succeeded => (Done(m, name), None)
    case OtherEnd => (m, None)
    case Failed(schedulerUp) =>
      var (m1, next) := Next(m, name);
      if next.None? then (Done(m1, name), None) else (m1, if schedulerUp then next else None)
  }

  function Step(m: RetriesInfo, e: Event, intervals: string -> seq<nat>): (RetriesInfo, Option<nat>) {
    match e
    case Started(name) => (Add(m, name, intervals(name)), None)
    case Ended(name, outcome) => Finish(m, name, outcome)
  }

  // The table after the run, from an empty one.
  function After(run: seq<Event>, intervals: string -> seq<nat>): RetriesInfo {
    if run == [] then map[] else Step(After(run[..|run| - 1], intervals), run[|run| - 1], intervals).0
  }

  function FailuresSinceSuccess(run: seq<Event>, name: string): nat {
    if run == [] then 0
    else
      var e, before := run[|run| - 1], FailuresSinceSuccess(run[..|run| - 1], name);
      if e.Ended? && e.name == name then
        (match e.outcome
         case Succeeded => 0
         case Failed(_) => before + 1
         case OtherEnd => before)
      else before
  }

  // Started and not ended since.
  predicate Running(run: seq<Event>, name: string) {
    run != [] &&
    var e := run[|run| - 1];
    if e.name == name then e.Started? else Running(run[..|run| - 1], name)
  }

  // Only what runs can end.
  ghost predicate Possible(run: seq<Event>) {
    run != [] ==>
      var e, before := run[|run| - 1], run[..|run| - 1];
      Possible(before) && (e.Ended? ==> Running(before, e.name))
  }

  function Position(failures: nat, n: nat): nat {
    failures % (n + 1)
  }

  // Where the profile stands in its sequence of intervals, by counting failures alone.
  ghost predicate InStep(m: RetriesInfo, run: seq<Event>, name: string, intervals: seq<nat>) {
    var at := Position(FailuresSinceSuccess(run, name), |intervals|);
    && (name in m ==> intervals != [] && m[name] == intervals[at..])
    && (name !in m ==> at == 0 && (Running(run, name) ==> intervals == []))
  }

  lemma NothingFailedYet(name: string, list: seq<nat>)
    ensures InStep(map[], [], name, list)
  {}

  lemma MultipleIsFar(n: int, k: int)
    requires n > 0
    ensures k >= 1 ==> n * k >= n
    ensures k <= -1 ==> n * k <= -n
  {
    if k >= 1 {
      assert n * k >= n * 1;
    } else if k <= -1 {
      assert n * k <= n * -1;
    }
  }

  lemma RemainderIs(x: nat, n: nat, q: int, r: nat)
    requires n > 0 && x == n * q + r && r < n
    ensures x % n == r
  {
    assert x == n * (x / n) + x % n;
    assert n * (q - x / n) == n * q - n * (x / n);
    MultipleIsFar(n, q - x / n);
  }

  lemma NextPosition(j: nat, n: nat)
    ensures Position(j + 1, n) == if Position(j, n) < n then Position(j, n) + 1 else 0
    ensures Position(j, n) <= n && Position(0, n) == 0
  {
    var q, r := j / (n + 1), j % (n + 1);
    assert j == (n + 1) * q + r;
    if r < n {
      RemainderIs(j + 1, n + 1, q, r + 1);
    } else {
      assert (n + 1) * (q + 1) == (n + 1) * q + (n + 1);
      RemainderIs(j + 1, n + 1, q + 1, 0);
    }
  }

  lemma OneMoreEvent(m: RetriesInfo, run: seq<Event>, name: string, intervals: string -> seq<nat>)
    requires run != [] && Possible(run) && InStep(m, run[..|run| - 1], name, intervals(name))
    ensures InStep(Step(m, run[|run| - 1], intervals).0, run, name, intervals(name))
  {
    hide Position;
    var before, e := run[..|run| - 1], run[|run| - 1];
    NextPosition(0, |intervals(name)|);
    if e.Ended? && e.name == name && e.outcome.Failed? {
      NextPosition(FailuresSinceSuccess(before, name), |intervals(name)|);
    }
  }

  lemma {:induction false} TableFollowsFailures(run: seq<Event>, name: string, intervals: string -> seq<nat>)
    requires Possible(run)
    ensures InStep(After(run, intervals), run, name, intervals(name))
  {
    hide InStep, Step;
    if run == [] {
      NothingFailedYet(name, intervals(name));
    } else {
      TableFollowsFailures(run[..|run| - 1], name, intervals);
      OneMoreEvent(After(run[..|run| - 1], intervals), run, name, intervals);
    }
  }

  /** The j-th failure since the last success, counting from 0, retries after interval number
      j mod (n + 1) where there is one, and not at all where there is none, which starts the
      sequence over. Ends that are neither failure nor success leave it where it was. */
  lemma JthFailureRetries(run: seq<Event>, name: string, schedulerUp: bool, intervals: string -> seq<nat>)
    requires Possible(run) && Running(run, name)
    ensures var list := intervals(name);
            var at := FailuresSinceSuccess(run, name) % (|list| + 1);
            var (m, scheduled) := Step(After(run, intervals), Ended(name, Failed(schedulerUp)), intervals);
            && scheduled == (if at < |list| && schedulerUp then Some(list[at] * 60 % 4294967296) else None)
            && (at == |list| ==> name !in m)
  {
    TableFollowsFailures(run, name, intervals);
  }
}
