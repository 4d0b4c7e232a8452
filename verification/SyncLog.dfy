/** The log of a profile's sync results: a window of the latest ones, the last success, and the DOM
    form in which both are kept. */
module SyncLogs {
  import opened Wrappers

  // A null time has no milliseconds; what targets report is taken as one piece each.
  datatype Results = Results(
    time: Option<int>,
    major: int,
    minor: int,
    scheduled: bool,
    targets: seq<string>,
    targetId: string)

  datatype Log = Log(name: string, window: seq<Results>, lastSuccess: Option<Results>)

  const MAX_LOG_ENTRIES := 5
  const SYNC_RESULT_SUCCESS := 0
  const NO_ERROR := 0

  // The order of a null time is that of the epoch.
  function Millis(r: Results): int {
    if r.time.Some? then r.time.value else 0
  }

  predicate Successful(r: Results) {
    r.major == SYNC_RESULT_SUCCESS && r.minor == NO_ERROR && r.time.Some?
  }

  function Update(last: Option<Results>, r: Results): Option<Results> {
    if Successful(r) && (last.None? || Millis(last.value) < Millis(r)) then Some(r) else last
  }

  function Add(log: Log, r: Results): Log {
    Log(log.name,
        (if |log.window| >= MAX_LOG_ENTRIES then log.window[1..] else log.window) + [r],
        Update(log.lastSuccess, r))
  }

  // The log after these results, from an empty one.
  function FromHistory(name: string, history: seq<Results>): Log {
    if history == [] then Log(name, [], None)
    else Add(FromHistory(name, history[..|history| - 1]), history[|history| - 1])
  }

  // The earliest added among the latest successes.
  ghost predicate IsLastSuccess(history: seq<Results>, i: nat) {
    && i < |history| && Successful(history[i])
    && (forall j | 0 <= j < |history| && Successful(history[j]) :: Millis(history[j]) <= Millis(history[i]))
    && (forall j | 0 <= j < i && Successful(history[j]) :: Millis(history[j]) < Millis(history[i]))
  }

  function LatestFive(history: seq<Results>): seq<Results> {
    if |history| <= MAX_LOG_ENTRIES then history else history[|history| - MAX_LOG_ENTRIES..]
  }

  lemma NoneYet()
    ensures LatestFive([]) == []
  {}

  lemma OneMoreInWindow(history: seq<Results>, r: Results)
    ensures var w := LatestFive(history);
            LatestFive(history + [r]) == (if |w| >= MAX_LOG_ENTRIES then w[1..] else w) + [r]
  {
    var n := |history|;
    var all := history + [r];
    if n >= MAX_LOG_ENTRIES {
      assert all[n - 4..] == history[n - 4..] + [r];
      assert history[n - 5..][1..] == history[n - 4..];
    }
  }

  lemma {:induction false} WindowFollows(name: string, history: seq<Results>)
    ensures FromHistory(name, history).window == LatestFive(history) && FromHistory(name, history).name == name
  {
    hide Update, LatestFive;
    if history == [] {
      assert LatestFive(history) == [] by { NoneYet(); }
    } else {
      var n := |history| - 1;
      WindowFollows(name, history[..n]);
      OneMoreInWindow(history[..n], history[n]);
      assert history == history[..n] + [history[n]];
    }
  }

  ghost predicate NoSuccess(history: seq<Results>) {
    forall j | 0 <= j < |history| :: !Successful(history[j])
  }

  lemma OneMoreResult(before: seq<Results>, last: Option<Results>, i: nat, r: Results) returns (k: nat)
    requires if last.None? then NoSuccess(before) else IsLastSuccess(before, i) && last.value == before[i]
    ensures var history, now := before + [r], Update(last, r);
            if now.None? then NoSuccess(history) else IsLastSuccess(history, k) && now.value == history[k]
  {
    hide Successful, Millis;
    k := if Update(last, r) == Some(r) && Update(last, r) != last then |before| else i;
    var history := before + [r];
    assert forall j | 0 <= j < |before| :: history[j] == before[j];
  }

  lemma {:induction false} LastSuccessFollows(name: string, history: seq<Results>) returns (i: nat)
    ensures var last := FromHistory(name, history).lastSuccess;
            if last.None? then NoSuccess(history) else IsLastSuccess(history, i) && last.value == history[i]
  {
    hide Update, IsLastSuccess;
    i := 0;
    if history != [] {
      var n := |history| - 1;
      i := LastSuccessFollows(name, history[..n]);
      i := OneMoreResult(history[..n], FromHistory(name, history[..n]).lastSuccess, i, history[n]);
      assert history == history[..n] + [history[n]];
    }
  }

  lemma LastSuccessIsUnique(history: seq<Results>, i: nat, j: nat)
    requires IsLastSuccess(history, i) && IsLastSuccess(history, j)
    ensures i == j
  {}

  /** The bounded log agrees with the unbounded history. */
  lemma LogFollowsHistory(name: string, history: seq<Results>)
    ensures var log := FromHistory(name, history);
            && log.window == LatestFive(history)
            && (log.lastSuccess.None? <==> NoSuccess(history))
            && (forall i: nat | IsLastSuccess(history, i) :: log.lastSuccess == Some(history[i]))
            && (log.lastSuccess.Some? ==> exists i: nat :: IsLastSuccess(history, i))
    ensures FromHistory(name, history).window == history[if |history| <= 5 then 0 else |history| - 5..]
  {
    hide FromHistory;
    WindowFollows(name, history);
    var k := LastSuccessFollows(name, history);
    forall i: nat | IsLastSuccess(history, i)
      ensures i < |history| && FromHistory(name, history).lastSuccess == Some(history[i])
    {
      if FromHistory(name, history).lastSuccess.Some? {
        LastSuccessIsUnique(history, i, k);
      }
    }
  }

  // In the codes of results: a success has both codes zero and a time, and none in the whole history
  // is later than the last one kept.
  lemma LastSuccessIs(name: string, history: seq<Results>, r: Results)
    ensures var last := FromHistory(name, history).lastSuccess;
            && (last.Some? ==> last.value in history && last.value.major == 0 && last.value.minor == 0
                               && last.value.time.Some?)
            && (r in history && r.major == 0 && r.minor == 0 && r.time.Some? ==>
                  last.Some? && r.time.value <= last.value.time.value)
  {
    hide FromHistory;
    LogFollowsHistory(name, history);
    if r in history {
      var j :| 0 <= j < |history| && history[j] == r;
    }
  }

  // The DOM form. Times are written to the second, and the target id is not written.

  datatype ResultNode = ResultNode(time: Option<int>, major: int, minor: int, scheduled: bool, targets: seq<string>)

  datatype LogNode = LogNode(name: string, children: seq<ResultNode>)

  function PrintResults(r: Results): ResultNode {
    ResultNode(if r.time.Some? then Some(r.time.value / 1000) else None, r.major, r.minor, r.scheduled, r.targets)
  }

  function ParseResults(n: ResultNode): Results {
    Results(if n.time.Some? then Some(n.time.value * 1000) else None, n.major, n.minor, n.scheduled, n.targets, "")
  }

  // An entry and its element.
  ghost predicate Prints(r: Results, n: ResultNode) {
    && n.major == r.major && n.minor == r.minor && n.scheduled == r.scheduled && n.targets == r.targets
    && n.time == if r.time.Some? then Some(r.time.value / 1000) else None
  }

  ghost predicate Reads(n: ResultNode, r: Results) {
    r == Results(if n.time.Some? then Some(n.time.value * 1000) else None, n.major, n.minor, n.scheduled, n.targets, "")
  }

  // What is left of results once written.
  function Cut(r: Results): Results {
    ParseResults(PrintResults(r))
  }

  // What a result is after writing and reading, field by field.
  ghost predicate Kept(r: Results, r1: Results) {
    && (r1.time.Some? <==> r.time.Some?)
    && (r.time.Some? ==> r1.time.value == r.time.value - r.time.value % 1000)
    && r1.major == r.major && r1.minor == r.minor && r1.scheduled == r.scheduled && r1.targets == r.targets
    && r1.targetId == ""
  }

  lemma CutIsKept(r: Results)
    ensures Kept(r, Cut(r))
  {}

  function CutAll(rs: seq<Results>): seq<Results> {
    seq(|rs|, i requires 0 <= i < |rs| => Cut(rs[i]))
  }

  function CutLog(log: Log): Log {
    Log(log.name, CutAll(log.window), if log.lastSuccess.Some? then Some(Cut(log.lastSuccess.value)) else None)
  }

  // The last success is written in front if it seems to have left the window.
  predicate LeadsWithSuccess(log: Log) {
    log.lastSuccess.Some? && (log.window == [] || Millis(log.lastSuccess.value) < Millis(log.window[0]))
  }

  function Written(log: Log): seq<Results> {
    (if LeadsWithSuccess(log) then [log.lastSuccess.value] else []) + log.window
  }

  function ToXml(log: Log): LogNode {
    var rs := Written(log);
    LogNode(log.name, seq(|rs|, i requires 0 <= i < |rs| => PrintResults(rs[i])))
  }

  function Parse(n: LogNode): Log {
    FromHistory(n.name, seq(|n.children|, i requires 0 <= i < |n.children| => ParseResults(n.children[i])))
  }

  function Reread(log: Log): Log {
    Parse(ToXml(log))
  }

  lemma RereadIsHistory(log: Log)
    ensures Reread(log) == FromHistory(log.name, CutAll(Written(log)))
  {
    var n := ToXml(log);
    assert seq(|n.children|, i requires 0 <= i < |n.children| => ParseResults(n.children[i])) == CutAll(Written(log));
  }

  /** Reading a written log restores its window exactly if the window is full or no extra entry leads it. */
  lemma WindowRestoredIff(log: Log)
    requires |log.window| <= MAX_LOG_ENTRIES
    ensures Reread(log).window == CutAll(log.window) <==> !LeadsWithSuccess(log) || |log.window| == MAX_LOG_ENTRIES
  {
    hide FromHistory;
    RereadIsHistory(log);
    var cut := CutAll(Written(log));
    WindowFollows(log.name, cut);
    if LeadsWithSuccess(log) {
      assert cut == [Cut(log.lastSuccess.value)] + CutAll(log.window);
      assert |log.window| < MAX_LOG_ENTRIES ==> |LatestFive(cut)| == |log.window| + 1;
    } else {
      assert cut == CutAll(log.window);
    }
  }

  /** A failure and then a success of earlier time: the log is not full, and reading it back puts the
      success in twice. */
  lemma ShortWindowGrows()
    ensures var a := Results(Some(2000), 1, 0, false, ["first"], "");
            var b := Results(Some(1000), 0, 0, false, ["second"], "");
            var log := FromHistory("p", [a, b]);
            && log == Log("p", [a, b], Some(b)) && LeadsWithSuccess(log)
            && Reread(log).window == [Cut(b), Cut(a), Cut(b)] && Reread(log).window != CutAll(log.window)
  {
    var a := Results(Some(2000), 1, 0, false, ["first"], "");
    var b := Results(Some(1000), 0, 0, false, ["second"], "");
    assert [a, b][..1] == [a];
    var log := FromHistory("p", [a, b]);
    assert FromHistory("p", [a]) == Log("p", [a], None);
    assert Written(log) == [b, a, b];
    RereadIsHistory(log);
    var cut := CutAll(Written(log));
    assert cut == [Cut(b), Cut(a), Cut(b)];
    WindowFollows("p", cut);
  }

  function Second(r: Results): int {
    Millis(r) / 1000
  }

  // The first of the written successes in the second of the last success looks like it.
  ghost predicate FirstInItsSecond(log: Log) {
    log.lastSuccess.Some? ==>
      var rs, s := Written(log), log.lastSuccess.value;
      exists i | 0 <= i < |rs| ::
        && Successful(rs[i]) && Cut(rs[i]) == Cut(s)
        && forall j | 0 <= j < i && Successful(rs[j]) :: Second(rs[j]) != Second(s)
  }

  // No success of the window is later than the cached one.
  ghost predicate Consistent(log: Log) {
    && |log.window| <= MAX_LOG_ENTRIES
    && (log.lastSuccess.None? ==> forall r | r in log.window :: !Successful(r))
    && (log.lastSuccess.Some? ==>
          && Successful(log.lastSuccess.value)
          && forall r | r in log.window && Successful(r) :: Millis(r) <= Millis(log.lastSuccess.value))
  }

  lemma InWindow(history: seq<Results>)
    ensures forall r | r in LatestFive(history) :: exists j :: 0 <= j < |history| && history[j] == r
  {}

  lemma HistoryIsConsistent(name: string, history: seq<Results>)
    ensures Consistent(FromHistory(name, history))
  {
    hide FromHistory, Successful, Millis;
    WindowFollows(name, history);
    var i := LastSuccessFollows(name, history);
    InWindow(history);
  }

  lemma CutKeepsSuccess(r: Results)
    ensures Successful(Cut(r)) == Successful(r) && Millis(Cut(r)) == Second(r) * 1000
    ensures Cut(Cut(r)) == Cut(r)
  {}

  lemma LaterSecond(a: Results, b: Results)
    requires Millis(a) <= Millis(b)
    ensures Second(a) <= Second(b)
  {}

  lemma WrittenIsNotLater(log: Log)
    requires Consistent(log) && log.lastSuccess.Some?
    ensures forall r | r in Written(log) && Successful(r) :: Second(r) <= Second(log.lastSuccess.value)
  {
    forall r | r in Written(log) && Successful(r) ensures Second(r) <= Second(log.lastSuccess.value) {
      LaterSecond(r, log.lastSuccess.value);
    }
  }

  // The first written success in the latest second is what a reader keeps.
  lemma FirstIsKept(log: Log, i: nat)
    requires Consistent(log) && log.lastSuccess.Some? && i < |Written(log)|
    requires var rs := Written(log);
             && Successful(rs[i]) && Second(rs[i]) == Second(log.lastSuccess.value)
             && forall j | 0 <= j < i && Successful(rs[j]) :: Second(rs[j]) != Second(log.lastSuccess.value)
    ensures Reread(log).lastSuccess == Some(Cut(Written(log)[i]))
  {
    hide FromHistory, Written, Consistent, Cut, Second;
    var rs := Written(log);
    var cut := CutAll(rs);
    RereadIsHistory(log);
    WrittenIsNotLater(log);
    forall j | 0 <= j < |rs|
      ensures cut[j] == Cut(rs[j]) && Successful(cut[j]) == Successful(rs[j]) && Millis(cut[j]) == Second(rs[j]) * 1000
    {
      CutKeepsSuccess(rs[j]);
    }
    assert forall j | 0 <= j < |rs| :: rs[j] in rs;
    assert IsLastSuccess(cut, i);
    var k := LastSuccessFollows(log.name, cut);
    LastSuccessIsUnique(cut, i, k);
  }

  // If the last success is not among the first, no written one stands in for it.
  lemma KeptIsFirst(log: Log)
    requires Consistent(log) && log.lastSuccess.Some?
    requires Reread(log).lastSuccess == Some(Cut(log.lastSuccess.value))
    ensures FirstInItsSecond(log)
  {
    hide FromHistory, Written, Cut, Second;
    var rs, s := Written(log), log.lastSuccess.value;
    var cut := CutAll(rs);
    RereadIsHistory(log);
    var i := LastSuccessFollows(log.name, cut);
    CutKeepsSuccess(s);
    CutKeepsSuccess(rs[i]);
    assert Cut(rs[i]) == Cut(s);
    forall j | 0 <= j < i && Successful(rs[j]) ensures Second(rs[j]) != Second(s) {
      CutKeepsSuccess(rs[j]);
      assert cut[j] == Cut(rs[j]);
    }
  }

  lemma NoSuccessStaysNone(log: Log)
    requires Consistent(log) && log.lastSuccess.None?
    ensures Reread(log).lastSuccess.None?
  {
    hide FromHistory, Cut;
    RereadIsHistory(log);
    var cut := CutAll(Written(log));
    var i := LastSuccessFollows(log.name, cut);
    forall j | 0 <= j < |cut| ensures !Successful(cut[j]) {
      assert log.window[j] in log.window;
      CutKeepsSuccess(log.window[j]);
    }
  }

  /** Reading a written log restores the last success exactly if, among what was written, it is the first
      success of its second. */
  lemma LastSuccessRestoredIff(log: Log)
    requires Consistent(log)
    ensures Reread(log).lastSuccess == CutLog(log).lastSuccess <==> FirstInItsSecond(log)
  {
    hide FromHistory, Written, Cut, Second, Reread;
    if log.lastSuccess.None? {
      NoSuccessStaysNone(log);
    } else if FirstInItsSecond(log) {
      var rs, s := Written(log), log.lastSuccess.value;
      var i :| 0 <= i < |rs| && Successful(rs[i]) && Cut(rs[i]) == Cut(s)
               && forall j | 0 <= j < i && Successful(rs[j]) :: Second(rs[j]) != Second(s);
      CutKeepsSuccess(rs[i]);
      CutKeepsSuccess(s);
      FirstIsKept(log, i);
    } else if Reread(log).lastSuccess == CutLog(log).lastSuccess {
      KeptIsFirst(log);
    }
  }

  ghost predicate Increasing(history: seq<Results>) {
    && (forall i | 0 <= i < |history| :: history[i].time.Some?)
    && (forall i, j | 0 <= i < j < |history| :: Millis(history[i]) < Millis(history[j]))
  }

  ghost predicate IncreasingSeconds(history: seq<Results>) {
    && (forall i | 0 <= i < |history| :: history[i].time.Some?)
    && (forall i, j | 0 <= i < j < |history| :: Second(history[i]) < Second(history[j]))
  }

  // Evicted or not, the last success is written, and nothing of it stands before it.
  lemma SuccessIsWritten(name: string, history: seq<Results>) returns (i: nat)
    requires Increasing(history) && FromHistory(name, history).lastSuccess.Some?
    ensures var log := FromHistory(name, history);
            i < |Written(log)| && Written(log)[i] == log.lastSuccess.value
    ensures Written(FromHistory(name, history)) == LatestFive(history)
            || (|history| > MAX_LOG_ENTRIES && i == 0)
  {
    hide FromHistory;
    WindowFollows(name, history);
    var k := LastSuccessFollows(name, history);
    var log := FromHistory(name, history);
    var evicted := |history| - |log.window|;
    if k < evicted {
      assert log.window[0] == history[evicted];
      i := 0;
    } else {
      i := k - evicted;
      assert log.window[i] == history[k] && log.window[0] == history[evicted];
      assert Written(log) == log.window;
    }
  }

  lemma CutAllAt(rs: seq<Results>)
    ensures |CutAll(rs)| == |rs| && forall i | 0 <= i < |rs| :: Kept(rs[i], CutAll(rs)[i])
  {
    hide Cut, Kept;
    forall i | 0 <= i < |rs| ensures Kept(rs[i], CutAll(rs)[i]) {
      CutIsKept(rs[i]);
    }
  }

  /** With results added in increasing time the window survives, even when a sixth entry leads it. */
  lemma WindowSurvives(name: string, history: seq<Results>)
    requires Increasing(history)
    ensures Reread(FromHistory(name, history)).window == CutAll(LatestFive(history))
    ensures var again, n := Reread(FromHistory(name, history)).window, if |history| <= 5 then |history| else 5;
            |again| == n && forall i | 0 <= i < n :: Kept(history[|history| - n + i], again[i])
  {
    hide FromHistory, Reread, CutAll;
    var log := FromHistory(name, history);
    WindowFollows(name, history);
    WindowRestoredIff(log);
    var k := LastSuccessFollows(name, history);
    CutAllAt(LatestFive(history));
  }

  lemma RereadKeepsName(log: Log)
    ensures Reread(log).name == log.name
  {
    hide FromHistory;
    RereadIsHistory(log);
    WindowFollows(log.name, CutAll(Written(log)));
  }

  lemma SecondsIncrease(history: seq<Results>)
    requires IncreasingSeconds(history)
    ensures Increasing(history)
  {
    forall i, j | 0 <= i < j < |history| ensures Millis(history[i]) < Millis(history[j]) {
      if Millis(history[j]) <= Millis(history[i]) {
        LaterSecond(history[j], history[i]);
      }
    }
  }

  lemma LatestAt(history: seq<Results>, j: nat)
    requires j < |LatestFive(history)|
    ensures |LatestFive(history)| <= |history|
    ensures LatestFive(history)[j] == history[|history| - |LatestFive(history)| + j]
  {}

  lemma SuccessIsFirst(name: string, history: seq<Results>)
    requires IncreasingSeconds(history) && FromHistory(name, history).lastSuccess.Some?
    ensures FirstInItsSecond(FromHistory(name, history))
  {
    hide FromHistory, Written, Second, Cut, LatestFive, Increasing;
    var log := FromHistory(name, history);
    SecondsIncrease(history);
    var i := SuccessIsWritten(name, history);
    var k := LastSuccessFollows(name, history);
    var rs := Written(log);
    forall j | 0 <= j < i ensures Second(rs[j]) != Second(log.lastSuccess.value) {
      LatestAt(history, j);
      LatestAt(history, i);
    }
  }

  /** With results added in increasing seconds the whole log survives, up to the milliseconds and the
      target id that are not written. */
  lemma LogSurvives(name: string, history: seq<Results>)
    requires IncreasingSeconds(history)
    ensures Reread(FromHistory(name, history)) == CutLog(FromHistory(name, history))
    ensures var (log, again) := (FromHistory(name, history), Reread(FromHistory(name, history)));
            && again.name == name
            && |again.window| == |log.window|
            && (forall i | 0 <= i < |log.window| :: Kept(log.window[i], again.window[i]))
            && (again.lastSuccess.Some? <==> log.lastSuccess.Some?)
            && (log.lastSuccess.Some? ==> Kept(log.lastSuccess.value, again.lastSuccess.value))
  {
    hide FromHistory, Reread, CutAll, Cut, Kept;
    var log := FromHistory(name, history);
    CutAllAt(log.window);
    SecondsIncrease(history);
    WindowSurvives(name, history);
    WindowFollows(name, history);
    HistoryIsConsistent(name, history);
    LastSuccessRestoredIff(log);
    RereadKeepsName(log);
    if log.lastSuccess.Some? {
      SuccessIsFirst(name, history);
      CutIsKept(log.lastSuccess.value);
    }
  }

  /** Two successes within a second: the reader keeps the first. */
  lemma SameSecondForgetsLast()
    ensures var a := Results(Some(1000), 0, 0, false, ["first"], "");
            var b := Results(Some(1500), 0, 0, false, ["second"], "");
            var log := FromHistory("p", [a, b]);
            && Increasing([a, b]) && log.lastSuccess == Some(b)
            && Reread(log).lastSuccess == Some(Cut(a)) && Cut(a) != Cut(b)
  {
    var a := Results(Some(1000), 0, 0, false, ["first"], "");
    var b := Results(Some(1500), 0, 0, false, ["second"], "");
    assert [a, b][..1] == [a];
    var log := FromHistory("p", [a, b]);
    assert FromHistory("p", [a]) == Log("p", [a], Some(a));
    assert Written(log) == [a, b];
    HistoryIsConsistent("p", [a, b]);
    FirstIsKept(log, 0);
  }
}
