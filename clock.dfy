/** `fix_off_dates`: dates recorded on daylight time during a stretch of
    2017 are moved back one hour. The log files and the PA lines were
    recorded wrongly for windows of different lengths, both opening when
    daylight time began. */
module Clock {
  import opened Wrappers
  import opened Records
  import opened Runs

  /** 2017-03-12 02:00, when daylight time began (`CutoffDates`). */
  const DstStart: int := 1489284000
  /** The log files are correct from 2017-04-11 13:00 on. */
  const LogCutoff: int := 1491915600
  /** The PA lines are correct from 2017-04-27 15:05 on. */
  const LineCutoff: int := 1493305500

  /** The three instants as civil dates and times. */
  lemma CutoffDates()
    ensures DstStart == Timestamp(2017, 3, 12, 2, 0, 0)
    ensures LogCutoff == Timestamp(2017, 4, 11, 13, 0, 0)
    ensures LineCutoff == Timestamp(2017, 4, 27, 15, 5, 0)
  {
    assert DaysFromCivil(2017, 3, 12) == 17237;
    assert DaysFromCivil(2017, 4, 11) == 17267;
    assert DaysFromCivil(2017, 4, 27) == 17283;
  }

  /** One pass of the correction over a date: strictly inside the window
      ending at `cutoff` it moves back an hour. */
  function Fixed(date: int, cutoff: int): int
  {
    if DstStart < date < cutoff then date - Hour else date
  }

  /** `n` passes over the same date, which is what happens to an object that
      is listed `n` times. */
  function FixedTimes(date: int, cutoff: int, n: nat): int
  {
    if n == 0 then date else Fixed(FixedTimes(date, cutoff, n - 1), cutoff)
  }

  /** One pass moves a date back by exactly an hour inside the window and
      leaves it alone outside. */
  lemma FixedShift(date: int, cutoff: int)
    ensures DstStart < date < cutoff <==> Fixed(date, cutoff) == date - Hour
    ensures !(DstStart < date < cutoff) <==> Fixed(date, cutoff) == date
  {
  }

  /** A date outside the window is never touched, however often its object
      is listed. */
  lemma {:induction false} FixedTimesOutside(date: int, cutoff: int, n: nat)
    requires !(DstStart < date < cutoff)
    ensures FixedTimes(date, cutoff, n) == date
  {
    if n > 0 {
      FixedTimesOutside(date, cutoff, n - 1);
    }
  }

  /** Repeated passes only move a date back, by at most an hour each. */
  lemma {:induction false} FixedTimesBounds(date: int, cutoff: int, n: nat)
    ensures date - n * Hour <= FixedTimes(date, cutoff, n) <= date
  {
    if n > 0 {
      FixedTimesBounds(date, cutoff, n - 1);
    }
  }

  /** Worked cases: a log of 2017-03-15 08:00 becomes 07:00; a PA line of
      2017-04-20 12:00 becomes 11:00 although a log of that time is already
      correct; 2017-05-01 is outside both windows. */
  lemma FixedExamples()
    ensures Fixed(Timestamp(2017, 3, 15, 8, 0, 0), LogCutoff) == Timestamp(2017, 3, 15, 7, 0, 0)
    ensures Fixed(Timestamp(2017, 4, 20, 12, 0, 0), LineCutoff) == Timestamp(2017, 4, 20, 11, 0, 0)
    ensures Fixed(Timestamp(2017, 4, 20, 12, 0, 0), LogCutoff) == Timestamp(2017, 4, 20, 12, 0, 0)
    ensures Fixed(Timestamp(2017, 5, 1, 12, 0, 0), LineCutoff) == Timestamp(2017, 5, 1, 12, 0, 0)
  {
  }

  /** The correction is not idempotent: a second call on the same objects
      moves a date that is still inside the window back once more. */
  lemma FixedTwiceShiftsTwice()
    ensures FixedTimes(Timestamp(2017, 3, 15, 8, 0, 0), LogCutoff, 2) == Timestamp(2017, 3, 15, 6, 0, 0)
  {
  }

  /** The first loop of `fix_off_dates`, over the log files. */
  method FixLogDates(logs: seq<LogFile>)
    modifies logs`date
    ensures forall l :: l in logs ==> l.date == FixedTimes(old(l.date), LogCutoff, multiset(logs)[l])
  {
    var i := 0;
    while i < |logs|
      invariant i <= |logs|
      invariant forall l :: l in logs ==> l.date == FixedTimes(old(l.date), LogCutoff, multiset(logs[..i])[l])
    {
      var log := logs[i];
      if DstStart < log.date < LogCutoff {
        log.date := log.date - Hour;
      }
      assert logs[..i + 1] == logs[..i] + [log];
      i := i + 1;
    }
    assert logs[..i] == logs;
  }

  /** The second loop of `fix_off_dates`, over the PA lines. */
  method FixLineDates(lines: seq<NmhcLine>)
    modifies lines`date
    ensures forall l :: l in lines ==> l.date == FixedTimes(old(l.date), LineCutoff, multiset(lines)[l])
  {
    var j := 0;
    while j < |lines|
      invariant j <= |lines|
      invariant forall l :: l in lines ==> l.date == FixedTimes(old(l.date), LineCutoff, multiset(lines[..j])[l])
    {
      var line := lines[j];
      if DstStart < line.date < LineCutoff {
        line.date := line.date - Hour;
      }
      assert lines[..j + 1] == lines[..j] + [line];
      j := j + 1;
    }
    assert lines[..j] == lines;
  }

  /** `fix_off_dates(LogFiles, NmhcLines)`: every listed object's date is
      corrected once per time it is listed; nothing else changes. */
  method FixOffDates(logs: seq<LogFile>, lines: seq<NmhcLine>)
    modifies logs`date, lines`date
    ensures forall l :: l in logs ==> l.date == FixedTimes(old(l.date), LogCutoff, multiset(logs)[l])
    ensures forall l :: l in lines ==> l.date == FixedTimes(old(l.date), LineCutoff, multiset(lines)[l])
  {
    FixLogDates(logs);
    FixLineDates(lines);
  }

  /** The first loop of `fix_off_dates` as written, on a list that may hold
      None: it stops (`ok` false) at the first None, whose `.date` raises. */
  method FixLogDatesAsWritten(logs: seq<LogFile?>) returns (ok: bool)
    modifies logs`date
    ensures ok <==> null !in logs
    ensures ok ==> forall l :: l in logs && l != null ==> l.date == FixedTimes(old(l.date), LogCutoff, multiset(logs)[l])
  {
    var i := 0;
    while i < |logs|
      invariant i <= |logs| && null !in logs[..i]
      invariant forall l :: l in logs && l != null ==>
        l.date == FixedTimes(old(l.date), LogCutoff, multiset(logs[..i])[l])
    {
      var log := logs[i];
      if log == null {
        return false;
      }
      if DstStart < log.date < LogCutoff {
        log.date := log.date - Hour;
      }
      assert logs[..i + 1] == logs[..i] + [log];
      i := i + 1;
    }
    assert logs[..i] == logs;
    return true;
  }

  /** The second loop of `fix_off_dates` as written, on a list that may hold
      None. */
  method FixLineDatesAsWritten(lines: seq<NmhcLine?>) returns (ok: bool)
    modifies lines`date
    ensures ok <==> null !in lines
    ensures ok ==> forall l :: l in lines && l != null ==> l.date == FixedTimes(old(l.date), LineCutoff, multiset(lines)[l])
  {
    var j := 0;
    while j < |lines|
      invariant j <= |lines| && null !in lines[..j]
      invariant forall l :: l in lines && l != null ==>
        l.date == FixedTimes(old(l.date), LineCutoff, multiset(lines[..j])[l])
    {
      var line := lines[j];
      if line == null {
        return false;
      }
      if DstStart < line.date < LineCutoff {
        line.date := line.date - Hour;
      }
      assert lines[..j + 1] == lines[..j] + [line];
      j := j + 1;
    }
    assert lines[..j] == lines;
    return true;
  }

  /** `fix_off_dates` as written, on lists that may hold None, which is what
      the loader passes when a reader returns None for a file or line: both
      loops read `.date` of every entry, so a None raises an AttributeError.
      A None among the logs stops the task before any line date is touched;
      a log list without None is corrected in full even when the line list
      then fails. */
  method FixOffDatesAsWritten(logs: seq<LogFile?>, lines: seq<NmhcLine?>) returns (r: Result<()>)
    modifies logs`date, lines`date
    ensures r.Failure? <==> null in logs || null in lines
    ensures r.Failure? ==> r.error == NoneAttribute
    ensures null !in logs ==>
      forall l :: l in logs && l != null ==> l.date == FixedTimes(old(l.date), LogCutoff, multiset(logs)[l])
    ensures null in logs ==> forall l :: l in lines && l != null ==> l.date == old(l.date)
    ensures r.Success? ==>
      forall l :: l in lines && l != null ==> l.date == FixedTimes(old(l.date), LineCutoff, multiset(lines)[l])
  {
    var ok := FixLogDatesAsWritten(logs);
    if !ok {
      return Failure(NoneAttribute);
    }
    ok := FixLineDatesAsWritten(lines);
    if !ok {
      return Failure(NoneAttribute);
    }
    r := Success(());
  }
}
