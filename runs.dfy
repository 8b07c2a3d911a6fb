/** The records the core updates in place: log files, PA lines, runs and
    data, with the run's accessors and its integration step. */
module Runs {
  import opened Wrappers
  import opened Records
  import opened Search
  import opened Integration

  /** One log file of the sampling VI: the start of a ten-minute sampling
      window and its instrument parameters. Only `date` (clock correction)
      and `status` (matching) are ever assigned after construction. */
  class LogFile {
    const filename: string
    var date: int
    const sampletime: real
    const sampleflow1: real
    const sampletype: int
    /** The remaining instrument parameters, by name; the core never reads them. */
    const params: map<string, real>
    var status: Status

    constructor (filename: string, date: int, sampletime: real, sampleflow1: real,
                 sampletype: int, params: map<string, real>)
      ensures this.filename == filename && this.date == date
      ensures this.sampletime == sampletime && this.sampleflow1 == sampleflow1
      ensures this.sampletype == sampletype && this.params == params
      ensures status == Single
    {
      this.filename := filename;
      this.date := date;
      this.sampletime := sampletime;
      this.sampleflow1 := sampleflow1;
      this.sampletype := sampletype;
      this.params := params;
      status := Single;
    }
  }

  /** One line of the PA log: a date and its peaks. */
  class NmhcLine {
    var date: int
    var peaklist: seq<Peak>
    var status: Status

    constructor (date: int, peaks: seq<Peak>)
      ensures this.date == date && peaklist == peaks && status == Single
    {
      this.date := date;
      peaklist := peaks;
      status := Single;
    }
  }

  /** The names of a peak list, in order. */
  function Names(peaks: seq<Peak>): (r: seq<string>)
    ensures |r| == |peaks| && forall i :: 0 <= i < |peaks| ==> r[i] == peaks[i].name
  {
    seq(|peaks|, i requires 0 <= i < |peaks| => peaks[i].name)
  }

  /** `get_rt(name)`: the retention time of the first peak with that name. */
  function PeakRt(peaks: seq<Peak>, name: string): (r: Option<real>)
    ensures r.None? <==> forall i :: 0 <= i < |peaks| ==> peaks[i].name != name
    ensures r.Some? ==> exists i :: 0 <= i < |peaks| && peaks[i].name == name && r.value == peaks[i].rt
                                   && forall j :: 0 <= j < i ==> peaks[j].name != name
  {
    match FirstIndexOf(Names(peaks), name)
    case None => None
    case Some(i) =>
      assert forall j :: 0 <= j < i ==> peaks[j].name != name by {
        forall j | 0 <= j < i ensures peaks[j].name != name {
          assert Names(peaks)[..i][j] == peaks[j].name;
        }
      }
      Some(peaks[i].rt)
  }

  /** A log file paired with a PA line. The peaks, `date_end` and every log
      parameter are read through the two records it refers to. */
  class GcRun {
    const log: LogFile
    const line: NmhcLine
    var crfs: Option<Crf>

    constructor (log: LogFile, line: NmhcLine)
      ensures this.log == log && this.line == line && crfs == None
    {
      this.log := log;
      this.line := line;
      crfs := None;
    }

    /** `type`: the category of the log's sample-type code, if it has one;
        the code is fixed, so the attribute set at construction never
        differs from this. */
    function RunType(): (r: Option<SampleType>)
      ensures r.None? <==> log.sampletype !in {0, 1, 2, 3, 5}
      ensures r == Some(Ambient) <==> log.sampletype == 5
      ensures r == Some(Zero) <==> log.sampletype == 0
    {
      SampleTypeOf(log.sampletype)
    }

    function DateEnd(): int
      reads line
    {
      line.date
    }

    function GetRt(name: string): Option<real>
      reads line
    {
      PeakRt(line.peaklist, name)
    }

    /** Whether `integrate` produces a datum for this run. */
    predicate Integrates()
      reads this
    {
      crfs.Some? && (RunType() == Some(Ambient) || RunType() == Some(Zero))
    }

    /** `integrate()`: with a calibration record and an ambient or zero
        sample, sets the mixing ratio of every calibrated peak and wraps the
        run in a fresh datum; otherwise changes nothing and returns None. */
    method Integrate() returns (d: Datum?)
      requires Integrates() ==> Integrable(line.peaklist, crfs.value, log.sampletime, log.sampleflow1)
      modifies line`peaklist
      ensures !Integrates() ==> d == null && line.peaklist == old(line.peaklist)
      ensures Integrates() ==>
        && d != null && fresh(d)
        && d.run == this && d.revision == 0 && d.qc == 0 && d.notes == None
        && line.peaklist == IntegratePeaks(old(line.peaklist), crfs.value, log.sampletime, log.sampleflow1)
    {
      if crfs.None? {
        return null;
      } else if RunType() == Some(Ambient) || RunType() == Some(Zero) {
        var crf := crfs.value;
        var i := 0;
        while i < |line.peaklist|
          invariant 0 <= i <= |line.peaklist| == |old(line.peaklist)|
          invariant forall k :: 0 <= k < i ==>
            line.peaklist[k] == IntegratePeak(old(line.peaklist)[k], crf, log.sampletime, log.sampleflow1)
          invariant forall k :: i <= k < |line.peaklist| ==> line.peaklist[k] == old(line.peaklist)[k]
        {
          var peak := line.peaklist[i];
          if peak.name in CompoundList && peak.name in crf.compounds {
            var f := crf.compounds[peak.name];
            CompoundHasEcn(peak.name);
            var ecn := CompoundEcns[peak.name];
            assert f * ecn != 0.0;
            assert f * ecn * log.sampletime != 0.0;
            var integrated := peak.(mr := Some(MixingRatio(peak.pa, f, ecn, log.sampletime, log.sampleflow1)));
            assert integrated == IntegratePeak(peak, crf, log.sampletime, log.sampleflow1);
            line.peaklist := line.peaklist[i := integrated];
          } else {
            assert peak == IntegratePeak(peak, crf, log.sampletime, log.sampleflow1);
          }
          i := i + 1;
        }
        d := new Datum(this);
      } else {
        return null;
      }
    }
  }

  /** An integrated run, with its review state. */
  class Datum {
    const run: GcRun
    const revision: int
    const qc: int
    const notes: Option<string>

    constructor (run: GcRun)
      ensures this.run == run && revision == 0 && qc == 0 && notes == None
    {
      this.run := run;
      revision := 0;
      qc := 0;
      notes := None;
    }

    function DateEnd(): int
      reads run.line
    {
      run.line.date
    }
  }
}
