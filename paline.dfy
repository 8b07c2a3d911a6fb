/** `read_pa_line`: one tab-separated line of the PA log becomes a dated
    list of peaks. Fields 1 and 2 hold the date and the time; from field 3
    on, every field that contains a double quote names a peak whose
    retention time and area are the next two fields. The text-to-date and
    text-to-number conversions are parameters. */
module PaLine {
  import opened Wrappers
  import opened Records
  import opened Runs

  const Tab: char := '\t'
  const Quote: char := '"'

  // ---------------------------------------------------------------------------
  // Splitting and stripping
  // ---------------------------------------------------------------------------

  /** `s.split(sep)`: the pieces between separators, empty pieces included. */
  function Split(s: string, sep: char): (r: seq<string>)
    ensures |r| >= 1
    ensures forall i :: 0 <= i < |r| ==> sep !in r[i]
  {
    if |s| == 0 then [""]
    else
      var rest := Split(s[1..], sep);
      if s[0] == sep then [""] + rest
      else [[s[0]] + rest[0]] + rest[1..]
  }

  /** `sep.join(pieces)`. */
  function Join(pieces: seq<string>, sep: char): string
    requires |pieces| >= 1
  {
    if |pieces| == 1 then pieces[0] else pieces[0] + [sep] + Join(pieces[1..], sep)
  }

  /** Splitting loses nothing: joining the pieces gives the line back. */
  lemma {:induction false} JoinSplit(s: string, sep: char)
    ensures Join(Split(s, sep), sep) == s
  {
    if |s| > 0 {
      var rest := Split(s[1..], sep);
      JoinSplit(s[1..], sep);
      if s[0] != sep {
        if |rest| == 1 {
          assert Split(s, sep) == [[s[0]] + rest[0]];
        } else {
          assert Split(s, sep)[1..] == rest[1..];
          assert rest == [rest[0]] + rest[1..];
        }
      }
      assert s == [s[0]] + s[1..];
    }
  }

  /** Joining separator-free pieces and splitting again gives the pieces. */
  lemma {:induction false} SplitJoin(pieces: seq<string>, sep: char)
    requires |pieces| >= 1
    requires forall i :: 0 <= i < |pieces| ==> sep !in pieces[i]
    ensures Split(Join(pieces, sep), sep) == pieces
  {
    if |pieces| == 1 {
      SplitPiece(pieces[0], [], sep);
      assert pieces[0] + [] == pieces[0];
    } else {
      SplitJoin(pieces[1..], sep);
      var tail := Join(pieces[1..], sep);
      assert Split([sep] + tail, sep) == [""] + pieces[1..] by {
        assert ([sep] + tail)[1..] == tail;
      }
      SplitPiece(pieces[0], pieces[1..], sep);
      assert pieces[0] + ([sep] + tail) == pieces[0] + [sep] + tail;
      assert pieces == [pieces[0]] + pieces[1..];
    }
  }

  /** A separator-free piece in front of a split glues onto its first piece. */
  lemma {:induction false} SplitPiece(piece: string, rest: seq<string>, sep: char)
    requires sep !in piece
    requires rest == [] || Split([sep] + Join(rest, sep), sep) == [""] + rest
    ensures rest == [] ==> Split(piece, sep) == [piece]
    ensures rest != [] ==> Split(piece + ([sep] + Join(rest, sep)), sep) == [piece] + rest
  {
    if |piece| > 0 {
      SplitPiece(piece[1..], rest, sep);
      if rest == [] {
        assert Split(piece, sep) == [[piece[0]] + piece[1..]];
        assert [piece[0]] + piece[1..] == piece;
      } else {
        var s := piece + ([sep] + Join(rest, sep));
        assert s[1..] == piece[1..] + ([sep] + Join(rest, sep));
        assert [piece[0]] + piece[1..] == piece;
      }
    } else {
      if rest != [] {
        assert piece + ([sep] + Join(rest, sep)) == [sep] + Join(rest, sep);
      }
    }
  }

  /** How many copies of `c` open `s`. */
  function LeadCount(s: string, c: char): (k: nat)
    ensures k <= |s| && (k == |s| || s[k] != c)
    ensures forall i :: 0 <= i < k ==> s[i] == c
  {
    if |s| == 0 || s[0] != c then 0 else 1 + LeadCount(s[1..], c)
  }

  /** How many copies of `c` close `s`. */
  function TrailCount(s: string, c: char): (t: nat)
    ensures t <= |s| && (t == |s| || s[|s| - 1 - t] != c)
    ensures forall i :: |s| - t <= i < |s| ==> s[i] == c
  {
    if |s| == 0 || s[|s| - 1] != c then 0 else 1 + TrailCount(s[..|s| - 1], c)
  }

  /** `s.strip(c)`: `s` without the copies of `c` at either end. The result
      is the part of `s` after its leading run of `c`, every character cut
      from either end is `c`, and the result neither starts nor ends with
      `c`. */
  function Strip(s: string, c: char): (r: string)
    ensures LeadCount(s, c) + |r| <= |s| && r == s[LeadCount(s, c)..LeadCount(s, c) + |r|]
    ensures forall i :: 0 <= i < LeadCount(s, c) || LeadCount(s, c) + |r| <= i < |s| ==> s[i] == c
    ensures r == [] || (r[0] != c && r[|r| - 1] != c)
  {
    var k := LeadCount(s, c);
    var rest := s[k..];
    rest[..|rest| - TrailCount(rest, c)]
  }

  /** Stripping twice is stripping once. */
  lemma StripIdempotent(s: string, c: char)
    ensures Strip(Strip(s, c), c) == Strip(s, c)
  {
    var r := Strip(s, c);
    if r != [] {
      assert LeadCount(r, c) == 0;
      assert TrailCount(r, c) == 0;
      assert r[0..] == r;
    }
  }

  // ---------------------------------------------------------------------------
  // The peaks of a line
  // ---------------------------------------------------------------------------

  /** The peak field `ind` of the split line yields: a field containing a
      quote names a peak; its retention time and area are the next two
      fields, and a number that is missing or does not parse drops it. */
  function PeakAt(ls: seq<string>, ind: nat, parseReal: string -> Option<real>): (r: Option<Peak>)
    requires ind < |ls|
    ensures r.Some? <==>
      Quote in ls[ind] && ind + 2 < |ls| && parseReal(ls[ind + 1]).Some? && parseReal(ls[ind + 2]).Some?
    ensures r.Some? ==>
      && r.value.name == Lower(Strip(ls[ind], Quote))
      && parseReal(ls[ind + 1]) == Some(r.value.rt) && parseReal(ls[ind + 2]) == Some(r.value.pa)
  {
    if Quote !in ls[ind] then None
    else
      var rt := if ind + 1 < |ls| then parseReal(ls[ind + 1]) else None;
      var pa := if ind + 2 < |ls| then parseReal(ls[ind + 2]) else None;
      if rt.Some? && pa.Some? then Some(NewPeak(Strip(ls[ind], Quote), pa.value, rt.value)) else None
  }

  /** The peaks of fields 3 up to `n`, in field order. */
  function PeaksUpTo(ls: seq<string>, parseReal: string -> Option<real>, n: nat): (r: seq<Peak>)
    requires 3 <= n <= |ls|
    ensures |r| <= n - 3
  {
    if n == 3 then []
    else
      var p := PeakAt(ls, n - 1, parseReal);
      PeaksUpTo(ls, parseReal, n - 1) + (if p.Some? then [p.value] else [])
  }

  /** `line_peaks` once the loop is done. */
  function PeaksOf(ls: seq<string>, parseReal: string -> Option<real>): (r: seq<Peak>)
    ensures |ls| < 3 ==> r == []
    ensures |r| <= |ls|
  {
    if |ls| < 3 then [] else PeaksUpTo(ls, parseReal, |ls|)
  }

  /** A peak is collected exactly when some field from 3 on yields it. */
  lemma {:induction false} PeaksUpToMembers(ls: seq<string>, parseReal: string -> Option<real>, n: nat)
    requires 3 <= n <= |ls|
    ensures forall p :: p in PeaksUpTo(ls, parseReal, n) <==>
      exists ind :: 3 <= ind < n && PeakAt(ls, ind, parseReal) == Some(p)
  {
    if n > 3 {
      PeaksUpToMembers(ls, parseReal, n - 1);
    }
  }

  /** `read_pa_line` returns None exactly when no field yields a peak. */
  lemma PeaksOfEmpty(ls: seq<string>, parseReal: string -> Option<real>)
    requires |ls| >= 3
    ensures PeaksOf(ls, parseReal) == [] <==> forall ind :: 3 <= ind < |ls| ==> PeakAt(ls, ind, parseReal).None?
  {
    PeaksUpToMembers(ls, parseReal, |ls|);
    if PeaksOf(ls, parseReal) != [] {
      assert PeaksOf(ls, parseReal)[0] in PeaksOf(ls, parseReal);
    }
  }

  /** What every peak of a line satisfies: new, unintegrated and unreviewed,
      with a lower-case name that neither starts nor ends with a quote. */
  predicate CleanPeak(p: Peak) {
    && p.mr == None && p.rev == 0 && p.qc == 0
    && (forall i :: 0 <= i < |p.name| ==> !('A' <= p.name[i] <= 'Z'))
    && (p.name == [] || (p.name[0] != Quote && p.name[|p.name| - 1] != Quote))
  }

  /** A field's peak is clean. */
  lemma PeakAtClean(ls: seq<string>, ind: nat, parseReal: string -> Option<real>)
    requires ind < |ls| && PeakAt(ls, ind, parseReal).Some?
    ensures CleanPeak(PeakAt(ls, ind, parseReal).value)
  {
    var p := PeakAt(ls, ind, parseReal).value;
    var stripped := Strip(ls[ind], Quote);
    assert p.name == Lower(stripped);
    if stripped != [] {
      assert p.name[0] == LowerChar(stripped[0]);
      assert p.name[|p.name| - 1] == LowerChar(stripped[|stripped| - 1]);
    }
  }

  /** Every collected peak is clean. */
  lemma {:induction false} PeaksUpToClean(ls: seq<string>, parseReal: string -> Option<real>, n: nat)
    requires 3 <= n <= |ls|
    ensures forall p :: p in PeaksUpTo(ls, parseReal, n) ==> CleanPeak(p)
  {
    if n > 3 {
      PeaksUpToClean(ls, parseReal, n - 1);
      if PeakAt(ls, n - 1, parseReal).Some? {
        PeakAtClean(ls, n - 1, parseReal);
      }
    }
  }

  /** `'"X"'.strip('"')` is `'X'`. */
  lemma StripExample()
    ensures Strip("\"X\"", Quote) == "X"
  {
    assert LeadCount("\"X\"", Quote) == 1;
    assert TrailCount("\"X\""[1..], Quote) == 1;
  }

  /** The fields of the worked line below, one by one. */
  lemma ExampleFields(parseReal: string -> Option<real>)
    requires parseReal("1") == Some(1.0) && parseReal("2") == Some(2.0) && parseReal("3") == Some(3.0)
    ensures var ls := ["0", "d", "t", "\"X\"", "1", "2", "\"Y\"", "3"];
      && PeakAt(ls, 3, parseReal) == Some(NewPeak("X", 2.0, 1.0))
      && PeakAt(ls, 4, parseReal) == None && PeakAt(ls, 5, parseReal) == None
      && PeakAt(ls, 6, parseReal) == None && PeakAt(ls, 7, parseReal) == None
  {
    var ls := ["0", "d", "t", "\"X\"", "1", "2", "\"Y\"", "3"];
    assert Quote !in ls[4] && Quote !in ls[5] && Quote !in ls[7];
    StripExample();
  }

  /** A worked line: the quoted field "X" followed by numbers 1 and 2 is a
      peak named "x" with retention time 1 and area 2; the quoted field "Y"
      is dropped because its area field is missing. */
  lemma PeaksOfExample(parseReal: string -> Option<real>)
    requires parseReal("1") == Some(1.0) && parseReal("2") == Some(2.0) && parseReal("3") == Some(3.0)
    ensures PeaksOf(["0", "d", "t", "\"X\"", "1", "2", "\"Y\"", "3"], parseReal) == [NewPeak("X", 2.0, 1.0)]
    ensures NewPeak("X", 2.0, 1.0).name == "x"
  {
    var ls := ["0", "d", "t", "\"X\"", "1", "2", "\"Y\"", "3"];
    ExampleFields(parseReal);
    var x := NewPeak("X", 2.0, 1.0);
    assert PeaksUpTo(ls, parseReal, 4) == [x];
    assert PeaksUpTo(ls, parseReal, 5) == [x];
    assert PeaksUpTo(ls, parseReal, 6) == [x];
    assert PeaksUpTo(ls, parseReal, 7) == [x];
    assert PeaksUpTo(ls, parseReal, 8) == [x];
    assert LowerChar('X') == 'x';
    assert Lower("X") == "x";
  }

  // ---------------------------------------------------------------------------
  // The parser
  // ---------------------------------------------------------------------------

  /** The loop of `read_pa_line` over the fields from 3 on. */
  method CollectPeaks(ls: seq<string>, parseReal: string -> Option<real>) returns (linePeaks: seq<Peak>)
    requires |ls| >= 3
    ensures linePeaks == PeaksOf(ls, parseReal)
  {
    linePeaks := [];
    var ind := 3;
    while ind < |ls|
      invariant 3 <= ind <= |ls|
      invariant linePeaks == PeaksUpTo(ls, parseReal, ind)
    {
      ghost var found := PeakAt(ls, ind, parseReal);
      var item := ls[ind];
      if Quote in item {
        var name := Strip(item, Quote);
        var rt := if ind + 1 < |ls| then parseReal(ls[ind + 1]) else None;
        var pa := if ind + 2 < |ls| then parseReal(ls[ind + 2]) else None;
        if rt.Some? && pa.Some? {
          linePeaks := linePeaks + [NewPeak(name, pa.value, rt.value)];
        }
      }
      assert linePeaks == PeaksUpTo(ls, parseReal, ind) + (if found.Some? then [found.value] else []);
      ind := ind + 1;
    }
  }

  /** `read_pa_line(line)`: a missing date or time field raises an index
      error and an unparsable date a value error, before any peak is read.
      Otherwise the result is None when no peak survives and else a new,
      unmatched line with the parsed date and the collected peaks. */
  method ReadPaLine(text: string, parseDate: string -> Option<int>, parseReal: string -> Option<real>)
    returns (r: Result<NmhcLine?>)
    ensures |Split(text, Tab)| < 3 <==> r == Failure(MissingField)
    ensures r == Failure(BadDate) <==>
      |Split(text, Tab)| >= 3 && parseDate(Split(text, Tab)[1] + " " + Split(text, Tab)[2]).None?
    ensures r.Success? ==> (r.value == null <==> PeaksOf(Split(text, Tab), parseReal) == [])
    ensures r.Success? && r.value != null ==>
      && fresh(r.value)
      && Some(r.value.date) == parseDate(Split(text, Tab)[1] + " " + Split(text, Tab)[2])
      && r.value.peaklist == PeaksOf(Split(text, Tab), parseReal)
      && r.value.status == Single
  {
    var ls := Split(text, Tab);
    if |ls| < 3 {
      return Failure(MissingField);
    }
    var lineDate := parseDate(ls[1] + " " + ls[2]);
    if lineDate.None? {
      return Failure(BadDate);
    }
    var linePeaks := CollectPeaks(ls, parseReal);
    if |linePeaks| == 0 {
      return Success(null);
    }
    var line := new NmhcLine(lineDate.value, linePeaks);
    return Success(line);
  }
}
