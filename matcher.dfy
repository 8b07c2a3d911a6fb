/** `match_log_to_pa`: greedy nearest-date pairing of log files with PA
    lines. */
module Matcher {
  import opened Wrappers
  import opened Records
  import opened Search
  import opened Runs

  /** A line is accepted when it is strictly less than 11 minutes away. */
  const Tolerance: int := 11 * Minute

  /** The dates of the log files, in order. */
  function LogDates(logs: seq<LogFile>): (r: seq<int>)
    reads logs`date
    ensures |r| == |logs| && forall i :: 0 <= i < |logs| ==> r[i] == logs[i].date
  {
    if |logs| == 0 then [] else LogDates(logs[..|logs| - 1]) + [logs[|logs| - 1].date]
  }

  /** `[line.date for line in NmhcLines]`. */
  function LineDates(lines: seq<NmhcLine>): (r: seq<int>)
    reads lines`date
    ensures |r| == |lines| && forall i :: 0 <= i < |lines| ==> r[i] == lines[i].date
  {
    if |lines| == 0 then [] else LineDates(lines[..|lines| - 1]) + [lines[|lines| - 1].date]
  }

  /** The line a log with date `logDate` is paired with: the first line
      carrying the date nearest to `logDate`, provided that date is within
      the tolerance. Its properties are `MatchedLineSpec`. */
  function MatchedLine(logDate: int, lineDates: seq<int>): (r: Option<nat>)
    ensures r.Some? ==> r.value < |lineDates|
  {
    match FindClosestDate(logDate, lineDates)
    case Failure(_) => None
    case Success((m, diff)) =>
      if Abs(diff) < Tolerance then FirstIndexOf(lineDates, m) else None
  }

  /** A log is matched exactly when some line is strictly less than 11
      minutes away; the line it gets is at minimal distance, and the first
      such line. */
  lemma MatchedLineSpec(logDate: int, lineDates: seq<int>)
    ensures var r := MatchedLine(logDate, lineDates);
      r.Some? <==> exists j :: 0 <= j < |lineDates| && Abs(lineDates[j] - logDate) < Tolerance
    ensures var r := MatchedLine(logDate, lineDates);
      r.Some? ==>
      && r.value < |lineDates|
      && Abs(lineDates[r.value] - logDate) < Tolerance
      && (forall j :: 0 <= j < |lineDates| ==> Abs(lineDates[r.value] - logDate) <= Abs(lineDates[j] - logDate))
      && (forall j :: 0 <= j < r.value ==> Abs(lineDates[r.value] - logDate) < Abs(lineDates[j] - logDate))
  {
    if |lineDates| > 0 {
      FirstIndexOfClosest(logDate, lineDates);
    }
  }

  /** One run to create: the positions of its log file and its PA line. */
  datatype Pairing = Pairing(log: nat, line: nat)

  /** The line each log would be paired with, in log order. */
  function Matches(logDates: seq<int>, lineDates: seq<int>): (ms: seq<Option<nat>>)
    ensures |ms| == |logDates|
    ensures forall i :: 0 <= i < |ms| && ms[i].Some? ==> ms[i].value < |lineDates|
  {
    seq(|logDates|, i requires 0 <= i < |logDates| => MatchedLine(logDates[i], lineDates))
  }

  /** The run created for the log at position `i` with match `m`, if any. */
  function PlanStep(i: nat, m: Option<nat>): seq<Pairing>
  {
    match m
    case None => []
    case Some(j) => [Pairing(i, j)]
  }

  /** The runs `match_log_to_pa` creates for the first `n` logs, given each
      log's match, as positions: one per log that has a match, in log order. */
  function PlanUpTo(ms: seq<Option<nat>>, n: nat): seq<Pairing>
    requires n <= |ms|
  {
    if n == 0 then []
    else PlanUpTo(ms, n - 1) + PlanStep(n - 1, ms[n - 1])
  }

  /** The runs `match_log_to_pa` creates for all the logs. */
  function Plan(logDates: seq<int>, lineDates: seq<int>): (r: seq<Pairing>)
    ensures forall k :: 0 <= k < |r| ==> r[k].log < |logDates| && r[k].line < |lineDates|
  {
    var ms := Matches(logDates, lineDates);
    PlanSound(ms, |ms|);
    PlanUpTo(ms, |ms|)
  }

  /** Every pairing of the plan is an earlier log with its own match. */
  lemma {:induction false} PlanSound(ms: seq<Option<nat>>, n: nat)
    requires n <= |ms|
    ensures forall k :: 0 <= k < |PlanUpTo(ms, n)| ==>
      PlanUpTo(ms, n)[k].log < n && ms[PlanUpTo(ms, n)[k].log] == Some(PlanUpTo(ms, n)[k].line)
  {
    if n > 0 {
      PlanSound(ms, n - 1);
    }
  }

  /** Every log that has a match is paired with it. */
  lemma {:induction false} PlanCovers(ms: seq<Option<nat>>, n: nat, i: nat)
    requires i < n <= |ms| && ms[i].Some?
    ensures exists k :: 0 <= k < |PlanUpTo(ms, n)| && PlanUpTo(ms, n)[k] == Pairing(i, ms[i].value)
  {
    var p := PlanUpTo(ms, n - 1);
    var q := PlanUpTo(ms, n);
    if i < n - 1 {
      PlanCovers(ms, n - 1, i);
      var k :| 0 <= k < |p| && p[k] == Pairing(i, ms[i].value);
      assert q[k] == p[k];
    } else {
      assert q[|p|] == Pairing(i, ms[i].value);
    }
  }

  /** Runs come in log order, so every log is paired at most once. */
  lemma {:induction false} PlanInLogOrder(ms: seq<Option<nat>>, n: nat)
    requires n <= |ms|
    ensures forall k, l :: 0 <= k < l < |PlanUpTo(ms, n)| ==> PlanUpTo(ms, n)[k].log < PlanUpTo(ms, n)[l].log
  {
    if n > 0 {
      PlanInLogOrder(ms, n - 1);
      PlanSound(ms, n - 1);
    }
  }

  /** A log is paired exactly when some line is less than 11 minutes from
      it, and then with the first line at minimal distance. */
  lemma PlanPairsIff(logDates: seq<int>, lineDates: seq<int>, i: nat)
    requires i < |logDates|
    ensures var p := Plan(logDates, lineDates);
      (exists k :: 0 <= k < |p| && p[k].log == i)
      <==> (exists j :: 0 <= j < |lineDates| && Abs(lineDates[j] - logDates[i]) < Tolerance)
    ensures var p := Plan(logDates, lineDates);
      forall k :: 0 <= k < |p| && p[k].log == i ==>
        && p[k].line < |lineDates|
        && Abs(lineDates[p[k].line] - logDates[i]) < Tolerance
        && (forall j :: 0 <= j < |lineDates| ==> Abs(lineDates[p[k].line] - logDates[i]) <= Abs(lineDates[j] - logDates[i]))
        && (forall j :: 0 <= j < p[k].line ==> Abs(lineDates[p[k].line] - logDates[i]) < Abs(lineDates[j] - logDates[i]))
  {
    var ms := Matches(logDates, lineDates);
    assert ms[i] == MatchedLine(logDates[i], lineDates);
    PlanSound(ms, |ms|);
    MatchedLineSpec(logDates[i], lineDates);
    if ms[i].Some? {
      PlanCovers(ms, |ms|, i);
    }
  }

  /** The pool is not consumed: two logs near the same line are both paired
      with it, in one call. */
  lemma PlanReusesLines()
    ensures Plan([0, 60], [30]) == [Pairing(0, 0), Pairing(1, 0)]
  {
    var ms := Matches([0, 60], [30]);
    assert MatchedLine(0, [30]) == Some(0);
    assert MatchedLine(60, [30]) == Some(0);
    assert PlanUpTo(ms, 1) == [Pairing(0, 0)];
  }

  /** The log files the runs pair. */
  function RunLogs(runs: seq<GcRun>): set<LogFile>
  {
    if |runs| == 0 then {} else RunLogs(runs[..|runs| - 1]) + {runs[|runs| - 1].log}
  }

  /** The PA lines the runs pair. */
  function RunLines(runs: seq<GcRun>): set<NmhcLine>
  {
    if |runs| == 0 then {} else RunLines(runs[..|runs| - 1]) + {runs[|runs| - 1].line}
  }

  /** The body of a successful match: a new run of `log` and `line`, both
      records now married. */
  method Marry(log: LogFile, line: NmhcLine) returns (run: GcRun)
    modifies log`status, line`status
    ensures fresh(run) && run.log == log && run.line == line && run.crfs == None
    ensures log.status == Married && line.status == Married
  {
    run := new GcRun(log, line);
    log.status := Married;
    line.status := Married;
  }

  /** Run `k` pairs the log and the line named by pairing `k`. */
  ghost predicate PairedBy(runs: seq<GcRun>, plan: seq<Pairing>, logs: seq<LogFile>, lines: seq<NmhcLine>)
  {
    && |runs| == |plan|
    && forall k :: 0 <= k < |runs| ==>
         && plan[k].log < |logs| && plan[k].line < |lines|
         && runs[k].log == logs[plan[k].log] && runs[k].line == lines[plan[k].line]
  }

  /** Appending a run and its pairing keeps them in correspondence. */
  lemma PairedByAppend(runs: seq<GcRun>, plan: seq<Pairing>, logs: seq<LogFile>, lines: seq<NmhcLine>,
                       run: GcRun, p: Pairing)
    requires PairedBy(runs, plan, logs, lines)
    requires p.log < |logs| && p.line < |lines| && run.log == logs[p.log] && run.line == lines[p.line]
    ensures PairedBy(runs + [run], plan + [p], logs, lines)
  {
  }

  /** The statuses of the log files, in order. */
  function LogStatuses(logs: seq<LogFile>): (r: seq<Status>)
    reads logs`status
    ensures |r| == |logs| && forall i :: 0 <= i < |logs| ==> r[i] == logs[i].status
  {
    if |logs| == 0 then [] else LogStatuses(logs[..|logs| - 1]) + [logs[|logs| - 1].status]
  }

  /** The statuses of the PA lines, in order. */
  function LineStatuses(lines: seq<NmhcLine>): (r: seq<Status>)
    reads lines`status
    ensures |r| == |lines| && forall i :: 0 <= i < |lines| ==> r[i] == lines[i].status
  {
    if |lines| == 0 then [] else LineStatuses(lines[..|lines| - 1]) + [lines[|lines| - 1].status]
  }

  /** Every record that some run pairs is married; every other record keeps
      the status it had (`logStatus`, `lineStatus`). */
  ghost predicate MarriedExactly(logs: seq<LogFile>, lines: seq<NmhcLine>, runs: seq<GcRun>,
                                 logStatus: seq<Status>, lineStatus: seq<Status>)
    requires |logStatus| == |logs| && |lineStatus| == |lines|
    reads logs`status, lines`status
  {
    && (forall k :: 0 <= k < |logs| ==>
          logs[k].status == if logs[k] in RunLogs(runs) then Married else logStatus[k])
    && (forall k :: 0 <= k < |lines| ==>
          lines[k].status == if lines[k] in RunLines(runs) then Married else lineStatus[k])
  }

  /** What the marrying loop keeps after its first `n` logs. */
  ghost predicate MarryLoopState(logs: seq<LogFile>, lines: seq<NmhcLine>, ms: seq<Option<nat>>,
                                 logStatus: seq<Status>, lineStatus: seq<Status>,
                                 n: nat, runs: seq<GcRun>, plan: seq<Pairing>)
    reads logs`status, lines`status
  {
    && n <= |logs| == |ms| == |logStatus| && |lineStatus| == |lines|
    && (forall i :: 0 <= i < |ms| && ms[i].Some? ==> ms[i].value < |lines|)
    && plan == PlanUpTo(ms, n)
    && PairedBy(runs, plan, logs, lines)
    && MarriedExactly(logs, lines, runs, logStatus, lineStatus)
  }

  /** One pass of the marrying loop, over the log at `i`. */
  method MarryNext(logs: seq<LogFile>, lines: seq<NmhcLine>, ms: seq<Option<nat>>,
                   ghost logStatus: seq<Status>, ghost lineStatus: seq<Status>,
                   i: nat, runs: seq<GcRun>, ghost plan: seq<Pairing>)
    returns (created: seq<GcRun>, ghost plan': seq<Pairing>)
    requires i < |logs| && MarryLoopState(logs, lines, ms, logStatus, lineStatus, i, runs, plan)
    modifies logs`status, lines`status
    ensures MarryLoopState(logs, lines, ms, logStatus, lineStatus, i + 1, runs + created, plan')
    ensures forall run :: run in created ==> fresh(run) && run.crfs == None
  {
    created, plan' := [], plan;
    var matchedAt := ms[i];
    if matchedAt.Some? {
      var run := Marry(logs[i], lines[matchedAt.value]);
      PairedByAppend(runs, plan, logs, lines, run, Pairing(i, matchedAt.value));
      assert (runs + [run])[..|runs|] == runs;
      created := [run];
      plan' := plan + [Pairing(i, matchedAt.value)];
    } else {
      assert PlanUpTo(ms, i) + [] == PlanUpTo(ms, i);
      assert runs + [] == runs;
    }
  }

  /** The marrying half of the loop of `match_log_to_pa`, given each log's
      match `ms`: pairs every log that has a match with its line. */
  method MarryMatched(logs: seq<LogFile>, lines: seq<NmhcLine>, ms: seq<Option<nat>>)
    returns (runs: seq<GcRun>)
    requires |logs| == |ms|
    requires forall i :: 0 <= i < |ms| && ms[i].Some? ==> ms[i].value < |lines|
    modifies logs`status, lines`status
    ensures PairedBy(runs, PlanUpTo(ms, |ms|), logs, lines)
    ensures MarriedExactly(logs, lines, runs, old(LogStatuses(logs)), old(LineStatuses(lines)))
    ensures forall run :: run in runs ==> fresh(run) && run.crfs == None
  {
    runs := [];
    ghost var plan: seq<Pairing> := [];
    ghost var logStatus, lineStatus := LogStatuses(logs), LineStatuses(lines);
    assert MarriedExactly(logs, lines, runs, logStatus, lineStatus);
    var i := 0;
    while i < |logs|
      invariant MarryLoopState(logs, lines, ms, logStatus, lineStatus, i, runs, plan)
      invariant forall run :: run in runs ==> fresh(run) && run.crfs == None
    {
      var created;
      created, plan := MarryNext(logs, lines, ms, logStatus, lineStatus, i, runs, plan);
      runs := runs + created;
      i := i + 1;
    }
  }

  /** `match_log_to_pa(logs, lines)`: creates one run per log that has a line
      within the tolerance, pairing it with the first line at the nearest
      date, and marks both records married. With logs but no lines, `min`
      raises before anything changes. */
  method MatchLogToPa(logs: seq<LogFile>, lines: seq<NmhcLine>) returns (r: Result<seq<GcRun>>)
    modifies logs`status, lines`status
    ensures r.Failure? <==> |logs| > 0 && |lines| == 0
    ensures r.Failure? ==> forall l :: l in logs ==> l.status == old(l.status)
    ensures r.Success? ==>
      && PairedBy(r.value, Plan(LogDates(logs), LineDates(lines)), logs, lines)
      && MarriedExactly(logs, lines, r.value, old(LogStatuses(logs)), old(LineStatuses(lines)))
      && forall run :: run in r.value ==> fresh(run) && run.crfs == None
  {
    if |logs| > 0 && |lines| == 0 {
      // `find_closest_date` calls `min` on the empty list of line dates.
      var closest := FindClosestDate(logs[0].date, []);
      return Failure(closest.error);
    }
    // Marrying changes only statuses, never a date, so every log's match
    // can be found before the first marriage: the source finds each one at
    // the top of its iteration, from the same dates.
    var logDates, lineDates := LogDates(logs), LineDates(lines);
    var ms := Matches(logDates, lineDates);
    forall i | 0 <= i < |ms| && ms[i].Some?
      ensures ms[i].value < |lines|
    {
      assert ms[i] == MatchedLine(logDates[i], lineDates);
    }
    var runs := MarryMatched(logs, lines, ms);
    assert LogDates(logs) == logDates && LineDates(lines) == lineDates;
    assert Plan(logDates, lineDates) == PlanUpTo(ms, |ms|);
    r := Success(runs);
  }
}
