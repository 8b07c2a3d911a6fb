# boulder_reservoir NMHC core, in Dafny

A model of the record-reconciliation and calibration logic of the Boulder
reservoir non-methane hydrocarbon (NMHC) pipeline, with proofs about it. The
pipeline pairs the log files of the sampling VI with lines of the
PeakSimple `NMHC_PA.LOG` to form GC runs. It then checks the acetylene and
n-butane labels of a run against i-butane, and integrates each run with the
calibration record (CRF) valid at its time. Before every database merge,
the loader drops records whose key date has already been seen.

Modules, one per part of the core:

- `Wrappers`: `Option`, `Result` and the error kinds (`min` on an empty list, a
  missing field, an unparsable date).
- `Records`: the timestamp encoding (whole seconds), the constant tables
  `sample_types`, `compound_list` and `compound_ecns`, the `Peak` value with
  its constructor, and the `Crf` value.
- `Search`: `search_for_attr_value` and `find_closest_date`.
- `Calibration`: `find_crf`.
- `Integration`: the mixing-ratio formula of `GcRun.integrate`, on values.
- `Runs`:
  - the classes `LogFile`, `NmhcLine`, `GcRun` and `Datum`, whose fields
    the core assigns in place;
  - `get_rt`;
  - `GcRun.integrate`, as a method with a loop over the peak list.
- `Matcher`: `match_log_to_pa`.
- `C4`: `check_c4_rts`.
- `Clock`: `fix_off_dates`.
- `PaLine`: `read_pa_line`, with `str.split` and `str.strip` written out;
  `str.lower` is the ASCII lower-casing of `Records`.
- `Dedup`: the "merge if the key is not yet seen" filter of
  `reservoir_loop.py` on its own, with its guarantees.
- `Loading`: the five filter loops of `reservoir_loop.py` over the
  records themselves. The run loop also corrects the C4 labels of every
  run it merges.

Timestamps are integers in seconds: the tolerance is 660 s and the clock
shift 3600 s. Peak areas, retention times, response factors and mixing
ratios are `real`.

Behaviour of the code worth knowing:

- The retention-time windows of `check_c4_rts` are open intervals,
  `.3 < d < .4` and `.42 < d < .46` (reservoir_nmhc.py:966, 975, 983, 992).
- The integration formula gives 1000 / (2 × 2 × 10 × 20) × 600 = 750 for
  area 1000, factor 2, carbon number 2, sample time 10 and flow 20
  (`Integration.MixingRatioWorkedCase`).
- `match_log_to_pa` does not take a line out of the pool once it is
  married (reservoir_nmhc.py:738). Two logs near the same line both get it
  (`Matcher.PlanReusesLines`).
- `check_c4_rts` checks only the first peak labelled n-butane and the first
  labelled acetylene. A second n-butane peak outside the window keeps its
  name (`C4.C4KeepsLaterMisplacedNButane`).
- The PA-line correction window of `fix_off_dates` closes at 2017-04-27
  15:05, as the code says; the function's comment says 15:45.

## Model

| member | source | states |
|---|---|---|
| Records.SampleTypeOf | reservoir_nmhc.py:63 | `sample_types.get(code, None)`: exactly the codes 0, 1, 2, 3 and 5 map to zero, alt_standard, standard, alt_not_sure and ambient; every other code gives None |
| Records.EveryCompoundHasEcn | reservoir_nmhc.py:66-74 | every compound of `compound_list` has an entry in `compound_ecns`, and that entry is positive |
| Records.CompoundHasEcn | reservoir_nmhc.py:473-477 | the lookup `compound_ecns.get(peak.name)` that integration makes for a listed compound finds a positive carbon number |
| Records.Lower | reservoir_nmhc.py:143 | `name.lower()` as ASCII lower-casing: keeps the length, maps every ASCII capital to its small letter and leaves no ASCII capital behind |
| Records.LowerIdempotent | reservoir_nmhc.py:143 | lower-casing twice equals lower-casing once |
| Records.NewPeak | reservoir_nmhc.py:142-148 | `Peak(name, pa, rt)` has the lower-cased name and the given area and retention time, no mixing ratio, revision 0 and qc 0 |
| Runs.LogFile.constructor | reservoir_nmhc.py:343-379 | a new log file keeps its filename, date and parameters and starts with status single |
| Runs.NmhcLine.constructor | reservoir_nmhc.py:203-206 | a new PA line holds the date and peaks it is given and starts with status single |
| Runs.GcRun.constructor | reservoir_nmhc.py:438-443 | a new run refers to its log file and its line and has no CRF |
| Runs.Datum.constructor | reservoir_nmhc.py:518-522 | a new datum refers to its run and has revision 0, qc 0 and no notes |
| Search.FirstIndexOf | reservoir_nmhc.py:709-714 | `search_for_attr_value` gives None exactly when no element matches; otherwise it gives the first matching position |
| Search.ClosestIndex | reservoir_nmhc.py:703 | `min(dates, key=abs(x - date))` picks a date at minimal distance, and the first of equally near dates |
| Search.FindClosestDate | reservoir_nmhc.py:698-706 | fails (as `min` raises) exactly on an empty list; otherwise gives a listed date at minimal distance, the first such date in list order, and `delta = match - date` |
| Search.FirstIndexOfClosest | reservoir_nmhc.py:703-714 | looking up the closest date by value finds the very element `min` chose |
| Runs.GcRun.RunType | reservoir_nmhc.py:443 | `sample_types.get(self.sampletype, None)`: None exactly for codes other than 0, 1, 2, 3 and 5; ambient exactly for 5 and zero exactly for 0 |
| Runs.GcRun.DateEnd | reservoir_nmhc.py:422 | `date_end` is the date of the run's PA line (definition; used as the run's key) |
| Runs.Datum.DateEnd | reservoir_nmhc.py:514-515 | a datum's `date_end` is its run's, hence its run's line date (definition; used as the datum's key) |
| Runs.GcRun.GetRt | reservoir_nmhc.py:457-458 | `get_rt` on the run's line's peaks, as the `PeakRt` row says (definition) |
| Runs.GcRun.Integrates | reservoir_nmhc.py:469-471 | `integrate` produces a datum exactly with a CRF and an ambient or zero sample (definition; used by `Integrate`'s contract) |
| Runs.PeakRt | reservoir_nmhc.py:457-458 | `get_rt(name)` is None exactly when no peak has the name; otherwise it is the retention time of the first peak with that name |
| Calibration.Covers | reservoir_nmhc.py:554 | `date_start <= t < date_end` (definition; `FindCrfEdges` states its edges) |
| Calibration.FindCrf | reservoir_nmhc.py:546-554 | None exactly when no CRF has `date_start <= t < date_end`; otherwise the first CRF in list order whose interval contains `t` |
| Calibration.FindCrfUnique | reservoir_nmhc.py:554 | with non-overlapping intervals, the CRF returned is the one that contains `t`, wherever it is in the list |
| Calibration.FindCrfEdges | reservoir_nmhc.py:554 | the start instant of an interval is covered and the end instant is not |
| Integration.MixingRatio | reservoir_nmhc.py:476-478 | mixing ratio × (crf × ecn × sampletime × sampleflow1) equals peak area × 600 |
| Integration.MixingRatioWorkedCase | reservoir_nmhc.py:476-481 | area 1000, crf 2, ecn 2, sample time 10 and flow 20 give 750 |
| Integration.IntegratePeak | reservoir_nmhc.py:472-478 | integrating a peak changes only its mixing ratio. A named, calibrated peak gets the formula's ratio; any other peak keeps its ratio |
| Integration.IntegratePeaks | reservoir_nmhc.py:472-478 | integrating a peak list keeps its length and changes only mixing ratios. Every calibrated peak gets the formula's ratio, and every other peak keeps its own |
| Runs.GcRun.Integrate | reservoir_nmhc.py:468-485 | without a CRF, or for a sample that is neither ambient nor zero, returns None and changes nothing. Otherwise every peak's ratio is set as the formula says and a fresh datum of this run is returned, with revision 0, qc 0 and no notes |
| Matcher.LogDates | reservoir_nmhc.py:729-734 | the dates of the logs, position by position |
| Matcher.LineDates | reservoir_nmhc.py:732 | `[line.date for line in NmhcLines]`: the dates of the lines, position by position |
| Matcher.LogStatuses | reservoir_nmhc.py:741 | the statuses of the logs, position by position |
| Matcher.LineStatuses | reservoir_nmhc.py:742 | the statuses of the lines, position by position |
| Matcher.MatchedLine | reservoir_nmhc.py:732-738 | the line a log is paired with is a valid position in the line list |
| Matcher.MatchedLineSpec | reservoir_nmhc.py:732-738 | a log gets a line exactly when some line date is strictly less than 11 minutes away; that line is at minimal distance, and it is the first such line |
| Matcher.Matches | reservoir_nmhc.py:729-738 | one match per log, and every match is a valid position in the line list |
| Matcher.PlanUpTo | reservoir_nmhc.py:729-744 | the runs created for the first n logs, in log order (definition; the `Plan*` rows state its properties) |
| Matcher.Plan | reservoir_nmhc.py:729-744 | every planned run pairs a valid log position with a valid line position |
| Matcher.PlanSound | reservoir_nmhc.py:729-744 | every run created pairs a log with that log's own match |
| Matcher.PlanCovers | reservoir_nmhc.py:729-744 | every log that has a match gets a run with that match |
| Matcher.PlanInLogOrder | reservoir_nmhc.py:729-744 | runs are created in log order, so there is at most one run per log |
| Matcher.PlanPairsIff | reservoir_nmhc.py:729-744 | a log gets a run exactly when some line is strictly less than 11 minutes from it. The run's line is then a first line at minimal distance |
| Matcher.PlanReusesLines | reservoir_nmhc.py:729-744 | lines already married in the same call are not skipped: two logs near one line both get a run with it |
| Matcher.Marry | reservoir_nmhc.py:740-742 | a fresh run pairs the log with the line and has no CRF, and both records become married |
| Matcher.PairedByAppend | reservoir_nmhc.py:740 | appending a run and its pairing keeps runs and pairings in step |
| Matcher.MarryNext | reservoir_nmhc.py:729-744 | one loop iteration keeps the pairing of runs with logs and lines, and the married/unchanged status of every record; the run it may create is fresh and has no CRF |
| Matcher.MarryMatched | reservoir_nmhc.py:727-746 | given each log's match, the runs pair exactly the matched logs with their lines, in log order. Every paired record is married and every other one keeps its status; every run is fresh and has no CRF |
| Matcher.MatchLogToPa | reservoir_nmhc.py:717-746 | fails exactly when there are logs but no lines (`min` of an empty list), changing no status. Otherwise the runs are the plan of nearest-date matches, each a fresh run without CRF; paired records are married and the others unchanged |
| C4.NamesDistinct | reservoir_nmhc.py:956-998 | the names i-butane, n-butane, acetylene and "-" are pairwise distinct |
| C4.WindowsDisjoint | reservoir_nmhc.py:966-975 | no offset lies in both the acetylene window and the n-butane window |
| C4.Rename | reservoir_nmhc.py:971 | `peak.name = x` changes only that peak's name |
| C4.RenameAllowed | reservoir_nmhc.py:963-998 | the changes `check_c4_rts` may make to one peak: only its name, and only to "-" from a C4 label or to a compound whose window holds the peak (definition; used by the `RenamesOnly` rows) |
| C4.LargestUpTo | reservoir_nmhc.py:983-988 | a candidate of the `max` scan is a peak whose offset lies inside the window |
| C4.LargestUpToIsMax | reservoir_nmhc.py:982-998 | the pool is empty exactly when no peak is in the window; otherwise `max(pool, key=pa)` is a peak of largest area, and the first one |
| C4.LargestUpToIgnoresNames | reservoir_nmhc.py:982-998 | renaming peaks never changes which peak `max` picks from a pool |
| C4.LargestInWindow | reservoir_nmhc.py:982-998 | `max(pool, key=pa)` over the whole peak list, None for an empty pool (definition; `LargestUpToIsMax` states its properties) |
| C4.Unlabel | reservoir_nmhc.py:963-980 | an out-of-window label renames only a peak of that name, and only to "-"; an in-window or absent label changes nothing; only names change |
| C4.UnlabelFirst | reservoir_nmhc.py:970-979 | the peak renamed "-" is the first peak carrying the label |
| C4.Relabel | reservoir_nmhc.py:982-998 | the largest in-window peak takes the name; only in-window peaks can change; an empty pool changes nothing; only names change |
| C4.CorrectedFrom | reservoir_nmhc.py:963-998 | the body under `if ibut_rt is not None`: un-label n-butane, un-label acetylene, search acetylene, search n-butane, in that order (definition; the `CorrectedFrom*` lemmas state its properties) |
| C4.C4Corrected | reservoir_nmhc.py:956-998 | no i-butane peak: the peaks unchanged; otherwise `CorrectedFrom` with the first i-butane, n-butane and acetylene times (definition; the `C4*` lemmas state its properties) |
| C4.CorrectedFromRenamesOnly | reservoir_nmhc.py:963-998 | once i-butane is found, the length and every area and retention time are kept. A name changes only to "-" from a C4 label, or to a compound whose window holds the peak |
| C4.C4RenamesOnly | reservoir_nmhc.py:953-1000 | without an i-butane peak nothing changes. Otherwise the peak list keeps its length and every peak changes at most as the previous row says |
| C4.CorrectedFromNButane | reservoir_nmhc.py:964-971 | the first n-butane peak keeps its label inside the window and loses it outside |
| C4.CorrectedFromAcetylene | reservoir_nmhc.py:973-980 | the first acetylene peak keeps its label inside the window and loses it outside |
| C4.C4ChecksNButane | reservoir_nmhc.py:956-971 | after the correction, the first n-butane peak still carries the name exactly when its offset is inside (0.42, 0.46) |
| C4.C4ChecksAcetylene | reservoir_nmhc.py:956-980 | after the correction, the first acetylene peak still carries the name exactly when its offset is inside (0.3, 0.4) |
| C4.CorrectedFromFindsNButane | reservoir_nmhc.py:991-998 | when n-butane is missing or was un-labelled, the first largest peak of its window is named n-butane |
| C4.CorrectedFromFindsAcetylene | reservoir_nmhc.py:982-998 | when acetylene is missing or was un-labelled, the first largest peak of its window is named acetylene, and the n-butane search does not take it back |
| C4.C4FindsNButane | reservoir_nmhc.py:956-998 | with i-butane present and n-butane missing or misplaced, the first largest-area peak inside (0.42, 0.46) ends up named n-butane |
| C4.C4FindsAcetylene | reservoir_nmhc.py:956-989 | with i-butane present and acetylene missing or misplaced, the first largest-area peak inside (0.3, 0.4) ends up named acetylene |
| C4.CorrectedFromKeepsPlacedLabels | reservoir_nmhc.py:963-998 | when the n-butane and acetylene labels both lie in their windows, nothing changes |
| C4.CorrectedFromNButaneOnlyWhenMissing | reservoir_nmhc.py:991-998 | with the n-butane label inside its window, no new peak is named n-butane and the length is kept |
| C4.CorrectedFromAcetyleneOnlyWhenMissing | reservoir_nmhc.py:982-989 | with the acetylene label inside its window, no new peak is named acetylene and the length is kept |
| C4.C4KeepsPlacedLabels | reservoir_nmhc.py:956-998 | with i-butane present and both the first n-butane and the first acetylene peak inside their windows, the peak list is unchanged |
| C4.C4NButaneOnlyWhenMissing | reservoir_nmhc.py:956-998 | with i-butane present and the first n-butane peak inside its window, every peak named n-butane afterwards was named so before |
| C4.C4AcetyleneOnlyWhenMissing | reservoir_nmhc.py:956-989 | with i-butane present and the first acetylene peak inside its window, every peak named acetylene afterwards was named so before |
| C4.C4KeepsLaterMisplacedNButane | reservoir_nmhc.py:964-971 | only the first n-butane label is checked: in a list with a well-placed first n-butane peak, a second one outside the window keeps its name and nothing changes |
| C4.UnlabelStep | reservoir_nmhc.py:963-980 | the un-labelling branch for one compound leaves the line's peaks as `Unlabel` says, and sets `find_x` exactly when the label lies outside its window |
| C4.RelabelStep | reservoir_nmhc.py:982-998 | the search for one compound leaves the line's peaks as `Relabel` says |
| C4.CorrectFrom | reservoir_nmhc.py:963-998 | the body under `if ibut_rt is not None` leaves the peaks as `CorrectedFrom` says |
| C4.CorrectC4 | reservoir_nmhc.py:956-998 | the correction in place leaves the line's peaks as `C4Corrected` says, the function the lemmas above describe |
| C4.CheckC4Rts | reservoir_nmhc.py:945-1000 | None gives None. Otherwise the same run is returned, with its line's peaks corrected in place |
| Clock.CutoffDates | reservoir_nmhc.py:794-800 | the three instants are 2017-03-12 02:00, 2017-04-11 13:00 and 2017-04-27 15:05 |
| Clock.Fixed | reservoir_nmhc.py:795-800 | one pass of the window test and shift for one date (definition; `FixedShift` states it) |
| Clock.FixedTimes | reservoir_nmhc.py:794-800 | the date after as many passes as the record is listed (definition; the `FixedTimes*` rows state its properties) |
| Clock.FixedShift | reservoir_nmhc.py:794-800 | one pass moves a date back by exactly one hour iff the date is strictly inside the window, and leaves it alone iff it is not |
| Clock.FixedTimesOutside | reservoir_nmhc.py:794-800 | a date outside the window is never changed, however often its record is listed |
| Clock.FixedTimesBounds | reservoir_nmhc.py:794-800 | repeated passes move a date back by at most one hour each, never forward |
| Clock.FixedExamples | reservoir_nmhc.py:794-800 | a log of 2017-03-15 08:00 becomes 07:00. A line of 2017-04-20 12:00 is shifted, while a log of that time is not. A line of 2017-05-01 12:00 is left alone |
| Clock.FixedTwiceShiftsTwice | reservoir_nmhc.py:772-800 | the correction is not idempotent: calling it again shifts a date still in the window once more |
| Clock.FixLogDates | reservoir_nmhc.py:794-796 | every listed log's date is corrected once per listing; only log dates change |
| Clock.FixLineDates | reservoir_nmhc.py:798-800 | every listed line's date is corrected once per listing; only line dates change |
| Clock.FixOffDates | reservoir_nmhc.py:772-800 | both loops together: log dates with the 2017-04-11 13:00 window, line dates with the 2017-04-27 15:05 window |
| Clock.FixLogDatesAsWritten | reservoir_nmhc.py:794-796 | over a list that may hold None: succeeds exactly when it holds none, and then corrects every log date as `FixLogDates` does |
| Clock.FixLineDatesAsWritten | reservoir_nmhc.py:798-800 | the same for PA lines |
| Clock.FixOffDatesAsWritten | reservoir_nmhc.py:772-800 | fails with the `AttributeError` of `None.date` exactly when either list holds a None. A log list without None is corrected in full even if the lines then fail; a None among the logs leaves every line date untouched; on success the lines are corrected too, as `FixOffDates` does |
| PaLine.Split | reservoir_nmhc.py:663 | `line.split('\t')` gives at least one piece, and no piece contains a tab |
| PaLine.Join | reservoir_nmhc.py:663 | `'\t'.join(pieces)`, the inverse `JoinSplit` and `SplitJoin` speak of (definition) |
| PaLine.JoinSplit | reservoir_nmhc.py:663 | joining the pieces with tabs gives the line back |
| PaLine.SplitJoin | reservoir_nmhc.py:663 | splitting tab-free pieces joined by tabs gives the pieces back |
| PaLine.LeadCount | reservoir_nmhc.py:676 | the leading run of quotes, and where it ends |
| PaLine.TrailCount | reservoir_nmhc.py:676 | the trailing run of quotes, and where it starts |
| PaLine.Strip | reservoir_nmhc.py:676 | `item.strip('"')` is the middle of the item with the leading run cut off. Every cut character is a quote, and the result neither starts nor ends with one |
| PaLine.StripIdempotent | reservoir_nmhc.py:676 | stripping twice equals stripping once |
| PaLine.StripExample | reservoir_nmhc.py:676 | `'"X"'.strip('"')` is `X` |
| PaLine.PeakAt | reservoir_nmhc.py:674-688 | a field yields a peak exactly when it contains a quote and the next two fields parse; the peak's name is the field stripped of quotes and lower-cased, its retention time the next field and its area the one after |
| PaLine.PeaksUpTo | reservoir_nmhc.py:668-688 | the peaks of the fields from 3 to n, at most one per field |
| PaLine.PeaksOf | reservoir_nmhc.py:668-693 | a line of fewer than three fields has no peak, and there are never more peaks than fields |
| PaLine.PeaksUpToMembers | reservoir_nmhc.py:668-688 | a peak is collected exactly when some field from 3 on, containing a quote, yields it with parsable next two fields |
| PaLine.PeaksOfEmpty | reservoir_nmhc.py:690-693 | no peak is collected exactly when no field from 3 on yields one |
| PaLine.PeakAtClean | reservoir_nmhc.py:674-688 | a field's peak has a lower-case name without surrounding quotes, no mixing ratio, revision 0 and qc 0 |
| PaLine.PeaksUpToClean | reservoir_nmhc.py:668-688 | every collected peak is clean in the sense of the previous row |
| PaLine.ExampleFields | reservoir_nmhc.py:668-688 | on the worked line, field 3 yields peak X and fields 4 to 7 yield nothing ("Y" lacks its area field) |
| PaLine.PeaksOfExample | reservoir_nmhc.py:663-695 | the worked line gives exactly one peak, named `x`, with retention time 1 and area 2 |
| PaLine.CollectPeaks | reservoir_nmhc.py:668-688 | the loop collects exactly the peaks of the fields from 3 on, in field order |
| PaLine.ReadPaLine | reservoir_nmhc.py:654-695 | fewer than three fields raise (missing field), and an unparsable date raises. Otherwise the result is None exactly when no peak survives, and else a fresh line with the parsed date, the collected peaks and status single |
| Dedup.Pick | reservoir_loop.py:120-123 | the merged items are the items at the merged positions, in that order |
| Dedup.KeysAt | reservoir_loop.py:121-122 | the keys appended to the seen list are the keys of the merged items |
| Dedup.MergedUpTo | reservoir_loop.py:120-123 | the merged positions carry a key and lie among the items visited so far |
| Dedup.PickAppend | reservoir_loop.py:122-123 | merging one more item appends it, and its key, once |
| Dedup.Merged | reservoir_loop.py:120-123 | the positions a whole pass merges all carry a key |
| Dedup.SeenAfter | reservoir_loop.py:120-123 | the seen list after a pass extends the one before by exactly one key per merged item |
| Dedup.LoopStart | reservoir_loop.py:199-201 | before the loop nothing is merged and the seen list is the one read from the database |
| Dedup.LoopStep | reservoir_loop.py:120-123 | an item with a key not in the seen list is merged and its key appended; any other item is passed over |
| Dedup.MergedUpToIff | reservoir_loop.py:120-123 | an item is merged iff it has a key that is not in the original seen list and that no earlier item carries |
| Dedup.FirstOccurrenceMerged | reservoir_loop.py:120-123 | the first item carrying a new key is merged, or an earlier item with that key was |
| Dedup.MergedUpToOrdered | reservoir_loop.py:120-123 | merged items keep their original order |
| Dedup.PassGuarantees | reservoir_loop.py:120-123 | merged keys are pairwise distinct and none was seen before. The seen list only grows, by exactly the merged keys, and afterwards holds every item's key |
| Dedup.SecondPassMergesNothing | reservoir_loop.py:120-123 | a second pass over the same items, with the seen list the first pass left, merges nothing |
| Dedup.NotIn | reservoir_loop.py:43-46 | `logs_to_load`: no longer than the listed names, and none of the kept names is stored |
| Dedup.NotInExact | reservoir_loop.py:43-46 | a filename is kept iff it is not stored, and then as often as it occurs |
| Dedup.NotInAppend | reservoir_loop.py:43-46 | the filter of a concatenation is the concatenation of the filtered parts, so the kept names stay in their original order |
| Dedup.NotInIdempotent | reservoir_loop.py:43-46 | filtering again changes nothing; with the kept names added to the stored ones, nothing is kept |
| Dedup.NotInKeepsFree | reservoir_loop.py:43-46 | a list without stored names passes unchanged |
| Dedup.NotInAllStored | reservoir_loop.py:43-46 | a list of stored names is dropped entirely |
| Loading.LineKeys | reservoir_loop.py:121 | the key of each PA line is its date |
| Loading.RunKeys | reservoir_loop.py:172 | the key of each run is its `date_end`, its line's date |
| Loading.CrfKeys | reservoir_loop.py:202 | the key of each CRF is its `date_start` |
| Loading.DataKeys | reservoir_loop.py:250 | a None datum has no key; any other datum's key is its `date_end` |
| Loading.LogsToLoad | reservoir_loop.py:43-46 | `logs_to_load` is the filenames not among the stored ones, in order |
| Loading.MergeLines | reservoir_loop.py:120-123 | the merged lines and the final `line_dates` are those of the filter on line dates |
| Loading.MergeCrfs | reservoir_loop.py:201-204 | the merged CRFs and the final `crf_dates` are those of the filter on start dates |
| Loading.MergeData | reservoir_loop.py:249-253 | None data are skipped; the merged data and the final `data_dates` are those of the filter on end dates |
| Loading.LineSet | reservoir_loop.py:171-178 | the line of every given run is in the set |
| Loading.LineSetAppend | reservoir_loop.py:171-178 | one more merged run adds its line |
| Loading.PeakLists | reservoir_loop.py:176 | the peak list of every run's line, in order |
| Loading.CorrectRun | reservoir_loop.py:176 | `run = check_c4_rts(run)` corrects that run's line and leaves every other line as it was |
| Loading.MergeRun | reservoir_loop.py:171-178 | one iteration of the run loop keeps the filter state and the corrected/untouched state of every line |
| Loading.MergeRuns | reservoir_loop.py:171-178 | the merged runs and the final `run_dates` are those of the filter on `date_end`. The line of every merged run is C4-corrected, and every other line is untouched |

## Left out

- The SQLAlchemy mapping (tables, relationships, association proxies,
  JSON column types), sessions, commits and `session.merge`. The model
  states which items the loops pass to `session.merge`, not what the
  database does with them.
- `read_log_file`, `read_crf_data`, `connect_to_reservoir_db`, `TempDir`,
  `check_filesize`, `get_dates_mrs`, `get_peak_data` and the plotting
  functions: file, database and matplotlib work outside the core.
- The asyncio tasks, sleeps and event-loop wiring of `reservoir_loop.py`, and
  everything in its tasks besides the five filter loops.
- `datetime.strptime` and `float()` are parameters of `PaLine.ReadPaLine`
  that return an option; their formats are not modelled.
- Floating point is modelled as exact `real` arithmetic, and integration
  requires non-zero sample time, flow and response factors, where the source
  would raise or produce infinities.
- `compound_list` is a set, since the core only tests membership.
- Log parameters other than `sampletime`, `sampleflow1` and `sampletype` are
  one opaque map. `get_pa`, `get_mr`, `get_unnamed_peaks`, `get_crf` and the
  `__str__`/`__repr__` methods are not modelled.
- Matcher.MatchLogToPa: every log's match is computed before the first
  marriage, whereas the source computes it at the top of each iteration.
  This is the same result, because marrying changes only statuses and never
  a date.
- Loading.MergeRuns: the run loop calls `check_c4_rts` through
  `Loading.CorrectRun`, one run per iteration; a run can never be None there.
- Loading.MergeLines: the lines must not be None. A None from
  `read_pa_line` stops the task earlier, in `fix_off_dates` (see
  "## Findings"), so it never gets to this loop.
- Records.Lower: ASCII lower-casing only. Compound names are ASCII, and
  Unicode case mapping (non-ASCII capitals, length-changing mappings such
  as 'İ') is not modelled.
- The `id` and foreign-key columns, `NmhcCorrection`, and the `flag`/`unit`
  attributes of a datum are not part of this model.

## Findings

| source | as written | input that shows it | evidently intended | confidence | as-written member | corrected member |
|---|---|---|---|---|---|---|
| reservoir_loop.py:104-113 | `read_pa_line` returns None for a line without a quoted peak, the None is appended to `new_lines`, and `fix_off_dates([], new_lines)` reads `line.date` on it (reservoir_nmhc.py:799), raising `AttributeError` and ending the task; the log task does the same with a None from `read_log_file` (reservoir_loop.py:56-62) | the tab-separated line `0`, `04/20/2017`, `12:00:00`, `x`, `1.0`, `2.0`: its date parses and no field from index 3 on holds a quote | None results are dropped before `fix_off_dates` and the merge loops, as the data loop does with `datum is not None` (reservoir_loop.py:250) | not executed | Clock.FixOffDatesAsWritten | Clock.FixOffDates |
