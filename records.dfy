/** The records of the sampling apparatus that the core reads as values, the
    constant tables of the NMHC module, and the timestamp encoding.

    Timestamps are whole seconds counted from 1970-01-01 00:00:00 of the
    instrument's (naive, zone-less) clock. */
module Records {
  import opened Wrappers

  // ---------------------------------------------------------------------------
  // Timestamps
  // ---------------------------------------------------------------------------

  const Minute: int := 60
  const Hour: int := 3600

  /** Days from 1970-01-01 to the given proleptic Gregorian date (days-from-civil). */
  function DaysFromCivil(y: int, m: int, d: int): int
    requires 1 <= m <= 12 && 1 <= d <= 31 && y >= 1
  {
    var y' := if m <= 2 then y - 1 else y;
    var era := y' / 400;
    var yoe := y' - era * 400;
    var mp := if m > 2 then m - 3 else m + 9;
    var doy := (153 * mp + 2) / 5 + d - 1;
    var doe := yoe * 365 + yoe / 4 - yoe / 100 + doy;
    era * 146097 + doe - 719468
  }

  /** The timestamp of a civil date and time, like `datetime(y, m, d, h, mi, s)`. */
  function Timestamp(y: int, m: int, d: int, h: int, mi: int, s: int): int
    requires 1 <= m <= 12 && 1 <= d <= 31 && y >= 1
  {
    DaysFromCivil(y, m, d) * 86400 + h * Hour + mi * Minute + s
  }

  // ---------------------------------------------------------------------------
  // Constant tables
  // ---------------------------------------------------------------------------

  /** The categories a log's sample-type code names. */
  datatype SampleType = Zero | AltStandard | Standard | AltNotSure | Ambient

  /** `sample_types`: sample-type codes of the log files and the category each names. */
  const SampleTypes: map<int, SampleType> :=
    map[0 := Zero, 1 := AltStandard, 2 := Standard, 3 := AltNotSure, 5 := Ambient]

  /** `compound_list`: the quantified compounds. The core only ever asks
      whether a name is in it, so it is a set here. */
  const CompoundList: set<string> :=
    {"ethane", "ethene", "propane", "propene", "i-butane", "acetylene",
     "n-butane", "i-pentane", "n-pentane", "hexane", "isoprene", "benzene",
     "toluene", "ethyl-benzene", "m&p xylene", "o-xylene"}

  /** Expected carbon number of each quantified compound. */
  const CompoundEcns: map<string, real> :=
    map["ethane" := 2.0, "ethene" := 1.9, "propane" := 3.0, "propene" := 2.9,
        "i-butane" := 4.0, "acetylene" := 1.8, "n-butane" := 4.0, "i-pentane" := 5.0,
        "n-pentane" := 5.0, "hexane" := 6.0, "isoprene" := 4.8, "benzene" := 5.7,
        "toluene" := 6.7, "ethyl-benzene" := 7.7, "m&p xylene" := 7.7,
        "o-xylene" := 7.7]

  /** `sample_types.get(code, None)`: the category of a sample-type code, or
      None for a code the table does not list. */
  function SampleTypeOf(code: int): (r: Option<SampleType>)
    ensures r.None? <==> code !in {0, 1, 2, 3, 5}
    ensures r == Some(Zero) <==> code == 0
    ensures r == Some(AltStandard) <==> code == 1
    ensures r == Some(Standard) <==> code == 2
    ensures r == Some(AltNotSure) <==> code == 3
    ensures r == Some(Ambient) <==> code == 5
  {
    if code in SampleTypes then Some(SampleTypes[code]) else None
  }

  /** Every quantified compound has a positive expected carbon number, so the
      integration formula never looks one up in vain. */
  lemma EveryCompoundHasEcn()
    ensures forall c :: c in CompoundList ==> c in CompoundEcns && CompoundEcns[c] > 0.0
  {
  }

  /** `EveryCompoundHasEcn` for one name. */
  lemma CompoundHasEcn(name: string)
    requires name in CompoundList
    ensures name in CompoundEcns && CompoundEcns[name] > 0.0
  {
    EveryCompoundHasEcn();
  }

  // ---------------------------------------------------------------------------
  // Peaks
  // ---------------------------------------------------------------------------

  /** Matching status of a log file or a PA line. */
  datatype Status = Single | Married

  /** One integrated signal peak: compound name, peak area, retention time
      (minutes), mixing ratio once integrated, revision count and QC status. */
  datatype Peak = Peak(name: string, pa: real, rt: real, mr: Option<real>, rev: int, qc: int)

  function LowerChar(c: char): (r: char)
    ensures r == c || ('A' <= c <= 'Z' && r as int == c as int + 32)
    ensures !('A' <= r <= 'Z')
  {
    if 'A' <= c <= 'Z' then (c as int + 32) as char else c
  }

  /** ASCII lower-casing, as `str.lower()` acts on ASCII names. */
  function Lower(s: string): (r: string)
    ensures |r| == |s|
    ensures forall i :: 0 <= i < |s| ==> r[i] == LowerChar(s[i])
    ensures forall i :: 0 <= i < |r| ==> !('A' <= r[i] <= 'Z')
  {
    seq(|s|, i requires 0 <= i < |s| => LowerChar(s[i]))
  }

  /** Lower-casing twice is lower-casing once. */
  lemma LowerIdempotent(s: string)
    ensures Lower(Lower(s)) == Lower(s)
  {
  }

  /** `Peak(name, pa, rt)`: a fresh, unintegrated, unreviewed peak with a lower-cased name. */
  function NewPeak(name: string, pa: real, rt: real): (p: Peak)
    ensures p.name == Lower(name) && p.pa == pa && p.rt == rt
    ensures p.mr == None && p.rev == 0 && p.qc == 0
  {
    Peak(Lower(name), pa, rt, None, 0, 0)
  }

  // ---------------------------------------------------------------------------
  // Calibration records
  // ---------------------------------------------------------------------------

  /** A set of carbon response factors for a standard, valid on
      [dateStart, dateEnd). */
  datatype Crf = Crf(dateStart: int, dateEnd: int, dateRevision: int,
                     compounds: map<string, real>, standard: string)
}
