/** The de-duplication loops of the loader tasks: which new log files are
    read, and which PA lines, runs, calibration records and data are merged
    into the database. Each loop visits the freshly built objects in order
    and merges one only when its key date is not in a seen list, which it
    then extends; the log file names are filtered against the stored names
    alone. */
module Loading {
  import opened Wrappers
  import opened Records
  import opened Runs
  import opened C4
  import opened Dedup

  /** The key of every PA line: its date. */
  function LineKeys(lines: seq<NmhcLine>): (r: seq<Option<int>>)
    reads lines`date
    ensures |r| == |lines| && forall i :: 0 <= i < |lines| ==> r[i] == Some(lines[i].date)
  {
    if |lines| == 0 then [] else LineKeys(lines[..|lines| - 1]) + [Some(lines[|lines| - 1].date)]
  }

  /** The key of every run: `date_end`, the date of its PA line. */
  function RunKeys(runs: seq<GcRun>): (r: seq<Option<int>>)
    reads (set run | run in runs :: run.line)`date
    ensures |r| == |runs| && forall i :: 0 <= i < |runs| ==> r[i] == Some(runs[i].line.date)
  {
    if |runs| == 0 then [] else RunKeys(runs[..|runs| - 1]) + [Some(runs[|runs| - 1].line.date)]
  }

  /** The key of every calibration record: its `date_start`. */
  function CrfKeys(crfs: seq<Crf>): (r: seq<Option<int>>)
    ensures |r| == |crfs| && forall i :: 0 <= i < |crfs| ==> r[i] == Some(crfs[i].dateStart)
  {
    seq(|crfs|, i requires 0 <= i < |crfs| => Some(crfs[i].dateStart))
  }

  /** The key of every datum: its `date_end`; a `None` datum has none. */
  function DataKeys(data: seq<Datum?>): (r: seq<Option<int>>)
    reads (set d | d in data && d != null :: d.run.line)`date
    ensures |r| == |data|
    ensures forall i :: 0 <= i < |data| ==> r[i] == if data[i] == null then None else Some(data[i].run.line.date)
  {
    if |data| == 0 then []
    else
      var d := data[|data| - 1];
      DataKeys(data[..|data| - 1]) + [if d == null then None else Some(d.run.line.date)]
  }

  /** `logs_to_load`: the names of `logfns` that are not among the stored
      names, in order. */
  method LogsToLoad(logfns: seq<string>, logsInDb: seq<string>) returns (logsToLoad: seq<string>)
    ensures logsToLoad == NotIn(logfns, logsInDb)
  {
    logsToLoad := [];
    var i := 0;
    while i < |logfns|
      invariant i <= |logfns|
      invariant logsToLoad == NotIn(logfns[..i], logsInDb)
    {
      var log := logfns[i];
      if log !in logsInDb {
        logsToLoad := logsToLoad + [log];
      }
      assert logfns[..i + 1][..i] == logfns[..i];
      i := i + 1;
    }
    assert logfns[..i] == logfns;
  }

  /** The PA-line loop: `merged` lists the lines passed to `session.merge`,
      and `dates` is `line_dates` afterwards. */
  method MergeLines(newLines: seq<NmhcLine>, lineDates: seq<int>) returns (merged: seq<NmhcLine>, dates: seq<int>)
    ensures merged == Pick(newLines, Merged(LineKeys(newLines), lineDates))
    ensures dates == SeenAfter(LineKeys(newLines), lineDates)
  {
    ghost var keys := LineKeys(newLines);
    ghost var pos: seq<nat> := [];
    merged, dates := [], lineDates;
    LoopStart(newLines, keys, lineDates);
    var i := 0;
    while i < |newLines|
      invariant LoopState(newLines, keys, lineDates, i, merged, dates, pos)
    {
      LoopStep(newLines, keys, lineDates, i, merged, dates, pos);
      var item := newLines[i];
      if item.date !in dates {
        dates := dates + [item.date];
        merged := merged + [item];
        pos := pos + [i];
      }
      i := i + 1;
    }
  }

  /** The calibration loop: `merged` lists the records passed to
      `session.merge`, and `dates` is `crf_dates` afterwards. */
  method MergeCrfs(crfs: seq<Crf>, crfDates: seq<int>) returns (merged: seq<Crf>, dates: seq<int>)
    ensures merged == Pick(crfs, Merged(CrfKeys(crfs), crfDates))
    ensures dates == SeenAfter(CrfKeys(crfs), crfDates)
  {
    ghost var keys := CrfKeys(crfs);
    ghost var pos: seq<nat> := [];
    merged, dates := [], crfDates;
    LoopStart(crfs, keys, crfDates);
    var i := 0;
    while i < |crfs|
      invariant LoopState(crfs, keys, crfDates, i, merged, dates, pos)
    {
      LoopStep(crfs, keys, crfDates, i, merged, dates, pos);
      var rf := crfs[i];
      if rf.dateStart !in dates {
        dates := dates + [rf.dateStart];
        merged := merged + [rf];
        pos := pos + [i];
      }
      i := i + 1;
    }
  }

  /** The data loop: `None` data are skipped; `merged` lists the data passed
      to `session.merge`, and `dates` is `data_dates` afterwards. */
  method MergeData(data: seq<Datum?>, dataDates: seq<int>) returns (merged: seq<Datum?>, dates: seq<int>)
    ensures merged == Pick(data, Merged(DataKeys(data), dataDates))
    ensures dates == SeenAfter(DataKeys(data), dataDates)
  {
    ghost var keys := DataKeys(data);
    ghost var pos: seq<nat> := [];
    merged, dates := [], dataDates;
    LoopStart(data, keys, dataDates);
    var i := 0;
    while i < |data|
      invariant LoopState(data, keys, dataDates, i, merged, dates, pos)
    {
      LoopStep(data, keys, dataDates, i, merged, dates, pos);
      var datum := data[i];
      if datum != null && datum.DateEnd() !in dates {
        dates := dates + [datum.DateEnd()];
        merged := merged + [datum];
        pos := pos + [i];
      }
      i := i + 1;
    }
  }

  /** The lines of the given runs. */
  function LineSet(runs: seq<GcRun>): (r: set<NmhcLine>)
    ensures forall run :: run in runs ==> run.line in r
  {
    set run | run in runs :: run.line
  }

  /** One more run adds its line. */
  lemma LineSetAppend(runs: seq<GcRun>, run: GcRun)
    ensures LineSet(runs + [run]) == LineSet(runs) + {run.line}
  {
  }

  /** The peak list of every run's line. */
  function PeakLists(runs: seq<GcRun>): (r: seq<seq<Peak>>)
    reads (set run | run in runs :: run.line)`peaklist
    ensures |r| == |runs| && forall i :: 0 <= i < |runs| ==> r[i] == runs[i].line.peaklist
  {
    if |runs| == 0 then [] else PeakLists(runs[..|runs| - 1]) + [runs[|runs| - 1].line.peaklist]
  }

  /** The lines in `done` hold their corrected peak lists, all others their
      original ones. */
  predicate CorrectedExactly(runs: seq<GcRun>, orig: seq<seq<Peak>>, done: set<NmhcLine>)
    requires |orig| == |runs|
    reads (set run | run in runs :: run.line)`peaklist
  {
    forall k :: 0 <= k < |runs| ==>
      runs[k].line.peaklist == if runs[k].line in done then C4Corrected(orig[k]) else orig[k]
  }

  /** What the run loop keeps after its first `n` runs: the dedup state
      of `Dedup`, and the lines of the merged runs, whose dates are all seen,
      are corrected while every other line is as it was. */
  ghost predicate RunLoopState(runs: seq<GcRun>, runDates: seq<int>, keys: seq<Option<int>>, orig: seq<seq<Peak>>,
                         n: nat, merged: seq<GcRun>, dates: seq<int>, pos: seq<nat>, done: set<NmhcLine>)
    reads (set run | run in runs :: run.line)`peaklist, (set run | run in runs :: run.line)`date
  {
    && LoopState(runs, keys, runDates, n, merged, dates, pos)
    && keys == RunKeys(runs) && |orig| == |runs|
    && done == LineSet(merged)
    && (forall k :: 0 <= k < |runs| && runs[k].line in done ==> runs[k].line.date in dates)
    && CorrectedExactly(runs, orig, done)
  }

  /** `run = check_c4_rts(run)` for the run at `i`, whose line is not yet
      corrected. */
  method CorrectRun(runs: seq<GcRun>, i: nat, ghost orig: seq<seq<Peak>>, ghost done: set<NmhcLine>)
    requires i < |runs| == |orig| && runs[i].line !in done
    requires CorrectedExactly(runs, orig, done)
    modifies runs[i].line`peaklist
    ensures CorrectedExactly(runs, orig, done + {runs[i].line})
  {
    var run := CheckC4Rts(runs[i]);
  }

  /** One pass of the run loop, over the run at `i`. */
  method MergeRun(runs: seq<GcRun>, runDates: seq<int>, ghost keys: seq<Option<int>>, ghost orig: seq<seq<Peak>>,
                  i: nat, merged: seq<GcRun>, dates: seq<int>, ghost pos: seq<nat>, ghost done: set<NmhcLine>)
    returns (merged': seq<GcRun>, dates': seq<int>, ghost pos': seq<nat>, ghost done': set<NmhcLine>)
    requires i < |runs| && RunLoopState(runs, runDates, keys, orig, i, merged, dates, pos, done)
    modifies runs[i].line`peaklist
    ensures RunLoopState(runs, runDates, keys, orig, i + 1, merged', dates', pos', done')
  {
    merged', dates', pos', done' := merged, dates, pos, done;
    LoopStep(runs, keys, runDates, i, merged, dates, pos);
    var run := runs[i];
    if run.DateEnd() !in dates {
      dates' := dates + [run.DateEnd()];
      LineSetAppend(merged, run);
      CorrectRun(runs, i, orig, done);
      merged' := merged + [run];
      done' := done + {run.line};
      pos' := pos + [i];
    }
  }

  /** The run loop: a run whose `date_end` is unseen has its C4 labels
      checked and is merged. `merged` lists the runs passed to
      `session.merge` and `dates` is `run_dates` afterwards; the line of
      every merged run is corrected once, every other line is untouched. */
  method MergeRuns(runs: seq<GcRun>, runDates: seq<int>) returns (merged: seq<GcRun>, dates: seq<int>)
    modifies (set run | run in runs :: run.line)`peaklist
    ensures merged == Pick(runs, Merged(old(RunKeys(runs)), runDates))
    ensures dates == SeenAfter(old(RunKeys(runs)), runDates)
    ensures CorrectedExactly(runs, old(PeakLists(runs)), LineSet(merged))
  {
    ghost var keys := RunKeys(runs);
    ghost var orig := PeakLists(runs);
    ghost var pos: seq<nat> := [];
    ghost var done: set<NmhcLine> := {};
    merged, dates := [], runDates;
    LoopStart(runs, keys, runDates);
    assert LineSet(merged) == {};
    var i := 0;
    while i < |runs|
      invariant RunLoopState(runs, runDates, keys, orig, i, merged, dates, pos, done)
    {
      merged, dates, pos, done := MergeRun(runs, runDates, keys, orig, i, merged, dates, pos, done);
      i := i + 1;
    }
  }
}
