/** `check_c4_rts`: acetylene and n-butane labels checked against the
    retention time of i-butane. A label whose offset from i-butane falls
    outside its open window is removed (renamed "-"); a compound that is
    missing or was just un-labelled goes to the first peak of largest area
    whose offset lies inside its window. */
module C4 {
  import opened Wrappers
  import opened Records
  import opened Search
  import opened Runs

  const IButane: string := "i-butane"
  const NButane: string := "n-butane"
  const Acetylene: string := "acetylene"
  /** The null name an un-labelled peak is given. */
  const Unnamed: string := "-"

  /** The four names differ, so a rename to one never produces another. */
  lemma NamesDistinct()
    ensures NButane != Acetylene && NButane != Unnamed && Acetylene != Unnamed
    ensures IButane != NButane && IButane != Acetylene && IButane != Unnamed
  {
    assert |NButane| == 8 && |Acetylene| == 9 && |Unnamed| == 1 && |IButane| == 8;
    assert IButane[0] != NButane[0];
  }

  /** An open interval of retention-time offsets from i-butane. */
  datatype Window = Window(lo: real, hi: real)

  const AcetyleneWindow: Window := Window(0.3, 0.4)
  const NButaneWindow: Window := Window(0.42, 0.46)

  predicate InWindow(offset: real, w: Window) {
    w.lo < offset < w.hi
  }

  /** The two windows do not overlap: no peak is a candidate for both. */
  lemma WindowsDisjoint(offset: real)
    ensures !(InWindow(offset, AcetyleneWindow) && InWindow(offset, NButaneWindow))
  {
  }

  /** `peaks[i].name = name`. */
  function Rename(peaks: seq<Peak>, i: nat, name: string): (r: seq<Peak>)
    requires i < |peaks|
    ensures |r| == |peaks| && r[i] == peaks[i].(name := name)
    ensures forall j :: 0 <= j < |peaks| && j != i ==> r[j] == peaks[j]
  {
    peaks[i := peaks[i].(name := name)]
  }

  /** `max` over the peaks of the first `n` whose offset is inside `w`, by
      area, as a position: the scan replaces its candidate only on a
      strictly larger area, so the first of equal areas wins
      (`LargestUpToIsMax`). */
  function LargestUpTo(peaks: seq<Peak>, ibut: real, w: Window, n: nat): (r: Option<nat>)
    requires n <= |peaks|
    ensures r.Some? ==> r.value < n && InWindow(peaks[r.value].rt - ibut, w)
  {
    if n == 0 then None
    else
      var best := LargestUpTo(peaks, ibut, w, n - 1);
      if !InWindow(peaks[n - 1].rt - ibut, w) then best
      else if best.None? || peaks[best.value].pa < peaks[n - 1].pa then Some(n - 1)
      else best
  }

  /** The scan finds nothing exactly when no peak lies in the window, and
      otherwise the first peak of largest area among those that do. */
  lemma {:induction false} LargestUpToIsMax(peaks: seq<Peak>, ibut: real, w: Window, n: nat)
    requires n <= |peaks|
    ensures LargestUpTo(peaks, ibut, w, n).None? <==> forall j :: 0 <= j < n ==> !InWindow(peaks[j].rt - ibut, w)
    ensures LargestUpTo(peaks, ibut, w, n).Some? ==>
      var k := LargestUpTo(peaks, ibut, w, n).value;
      && (forall j :: 0 <= j < n && InWindow(peaks[j].rt - ibut, w) ==> peaks[j].pa <= peaks[k].pa)
      && (forall j :: 0 <= j < k && InWindow(peaks[j].rt - ibut, w) ==> peaks[j].pa < peaks[k].pa)
  {
    if n > 0 {
      LargestUpToIsMax(peaks, ibut, w, n - 1);
    }
  }

  /** `max([p for p in peaks if w.lo < p.rt - ibut < w.hi], key=pa)`, as a
      position; None for an empty pool. */
  function LargestInWindow(peaks: seq<Peak>, ibut: real, w: Window): Option<nat>
  {
    LargestUpTo(peaks, ibut, w, |peaks|)
  }

  /** Two peak lists that differ at most in names. */
  predicate SameButNames(a: seq<Peak>, b: seq<Peak>) {
    |a| == |b| && forall i :: 0 <= i < |a| ==> b[i] == a[i].(name := b[i].name)
  }

  /** The pool and its largest peak depend on areas and retention times
      only, so renaming peaks never changes which peak `max` picks. */
  lemma {:induction false} LargestUpToIgnoresNames(a: seq<Peak>, b: seq<Peak>, ibut: real, w: Window, n: nat)
    requires SameButNames(a, b) && n <= |a|
    ensures LargestUpTo(a, ibut, w, n) == LargestUpTo(b, ibut, w, n)
  {
    if n > 0 {
      LargestUpToIgnoresNames(a, b, ibut, w, n - 1);
      assert a[n - 1].rt == b[n - 1].rt && a[n - 1].pa == b[n - 1].pa;
      var best := LargestUpTo(a, ibut, w, n - 1);
      if best.Some? {
        assert a[best.value].pa == b[best.value].pa;
      }
    }
  }

  /** The first step for one compound: when its first peak lies outside its
      window (`rt`, read before any rename, is that peak's retention time),
      that peak is renamed "-". Only a peak of that name can change. */
  function Unlabel(peaks: seq<Peak>, ibut: real, rt: Option<real>, name: string, w: Window): (r: seq<Peak>)
    ensures |r| == |peaks|
    ensures forall i :: 0 <= i < |peaks| ==>
      r[i] == peaks[i] || (peaks[i].name == name && r[i] == peaks[i].(name := Unnamed))
    ensures !(rt.Some? && !InWindow(rt.value - ibut, w)) ==> r == peaks
    ensures SameButNames(peaks, r)
  {
    if rt.Some? && !InWindow(rt.value - ibut, w) then
      match FirstIndexOf(Names(peaks), name)
      case Some(k) => Rename(peaks, k, Unnamed)
      case None => peaks
    else peaks
  }

  /** When the label is out of its window, the first peak carrying it is the
      one renamed "-". */
  lemma UnlabelFirst(peaks: seq<Peak>, ibut: real, rt: Option<real>, name: string, w: Window, k: nat)
    requires rt.Some? && !InWindow(rt.value - ibut, w)
    requires k < |peaks| && peaks[k].name == name && forall j :: 0 <= j < k ==> peaks[j].name != name
    ensures Unlabel(peaks, ibut, rt, name, w)[k].name == Unnamed
  {
    var names := Names(peaks);
    assert names[k] == name;
    assert forall j :: 0 <= j < k ==> names[j] != name;
    var first := FirstIndexOf(names, name);
    assert first.Some?;
    assert first.value == k;
  }

  /** `x_rt is None or find_x`: the compound is missing or was un-labelled. */
  predicate Missing(rt: Option<real>, ibut: real, w: Window) {
    rt.None? || !InWindow(rt.value - ibut, w)
  }

  /** The second step for one compound: the largest peak of its window, if
      any, takes its name; with an empty window nothing changes. */
  function Relabel(peaks: seq<Peak>, ibut: real, name: string, w: Window): (r: seq<Peak>)
    ensures |r| == |peaks|
    ensures forall i :: 0 <= i < |peaks| ==>
      r[i] == peaks[i] || (InWindow(peaks[i].rt - ibut, w) && r[i] == peaks[i].(name := name))
    ensures forall k :: LargestInWindow(peaks, ibut, w) == Some(k) ==> k < |r| && r[k].name == name
    ensures LargestInWindow(peaks, ibut, w).None? ==> r == peaks
    ensures SameButNames(peaks, r)
  {
    match LargestInWindow(peaks, ibut, w)
    case None => peaks
    case Some(k) => Rename(peaks, k, name)
  }

  /** The corrections once i-butane is found at `ibut`, given the retention
      times n-butane and acetylene had on entry. */
  function CorrectedFrom(peaks: seq<Peak>, ibut: real, nbut: Option<real>, acet: Option<real>): seq<Peak>
  {
    var p1 := Unlabel(peaks, ibut, nbut, NButane, NButaneWindow);
    var p2 := Unlabel(p1, ibut, acet, Acetylene, AcetyleneWindow);
    var p3 := if Missing(acet, ibut, AcetyleneWindow) then Relabel(p2, ibut, Acetylene, AcetyleneWindow) else p2;
    if Missing(nbut, ibut, NButaneWindow) then Relabel(p3, ibut, NButane, NButaneWindow) else p3
  }

  /** The peak list `check_c4_rts` leaves behind. */
  function C4Corrected(peaks: seq<Peak>): seq<Peak>
  {
    match PeakRt(peaks, IButane)
    case None => peaks
    case Some(ibut) => CorrectedFrom(peaks, ibut, PeakRt(peaks, NButane), PeakRt(peaks, Acetylene))
  }

  /** How `check_c4_rts` may change one peak, i-butane being at `ibut`:
      only its name, and only to "-" from a C4 label, or to a compound's
      label when the peak lies in that compound's window. */
  predicate RenameAllowed(before: Peak, after: Peak, ibut: real) {
    && after == before.(name := after.name)
    && (|| after.name == before.name
        || (after.name == Unnamed && (before.name == NButane || before.name == Acetylene))
        || (after.name == Acetylene && InWindow(before.rt - ibut, AcetyleneWindow))
        || (after.name == NButane && InWindow(before.rt - ibut, NButaneWindow)))
  }

  /** Once i-butane is found, every peak changes at most as
      `RenameAllowed` says, whatever the entry retention times were. */
  lemma CorrectedFromRenamesOnly(peaks: seq<Peak>, ibut: real, nbut: Option<real>, acet: Option<real>)
    ensures |CorrectedFrom(peaks, ibut, nbut, acet)| == |peaks|
    ensures forall i :: 0 <= i < |peaks| ==> RenameAllowed(peaks[i], CorrectedFrom(peaks, ibut, nbut, acet)[i], ibut)
  {
    var p1 := Unlabel(peaks, ibut, nbut, NButane, NButaneWindow);
    var p2 := Unlabel(p1, ibut, acet, Acetylene, AcetyleneWindow);
    var p3 := if Missing(acet, ibut, AcetyleneWindow) then Relabel(p2, ibut, Acetylene, AcetyleneWindow) else p2;
    var r := if Missing(nbut, ibut, NButaneWindow) then Relabel(p3, ibut, NButane, NButaneWindow) else p3;
    assert r == CorrectedFrom(peaks, ibut, nbut, acet);
    forall i | 0 <= i < |peaks|
      ensures RenameAllowed(peaks[i], p2[i], ibut)
    {
    }
    forall i | 0 <= i < |peaks|
      ensures RenameAllowed(peaks[i], r[i], ibut)
    {
      assert RenameAllowed(peaks[i], p2[i], ibut);
      assert p3[i] == p2[i] || (InWindow(peaks[i].rt - ibut, AcetyleneWindow) && p3[i] == p2[i].(name := Acetylene));
      assert r[i] == p3[i] || (InWindow(peaks[i].rt - ibut, NButaneWindow) && r[i] == p3[i].(name := NButane));
    }
  }

  /** Without i-butane the peaks are left alone; with it, the list keeps its
      length and every peak changes at most as `RenameAllowed` says. */
  lemma C4RenamesOnly(peaks: seq<Peak>)
    ensures PeakRt(peaks, IButane).None? ==> C4Corrected(peaks) == peaks
    ensures |C4Corrected(peaks)| == |peaks|
    ensures PeakRt(peaks, IButane).Some? ==>
      forall i :: 0 <= i < |peaks| ==> RenameAllowed(peaks[i], C4Corrected(peaks)[i], PeakRt(peaks, IButane).value)
  {
    match PeakRt(peaks, IButane)
    case None =>
    case Some(ibut) =>
      CorrectedFromRenamesOnly(peaks, ibut, PeakRt(peaks, NButane), PeakRt(peaks, Acetylene));
  }

  /** The n-butane label at `k`, read on entry, after the corrections. */
  lemma CorrectedFromNButane(peaks: seq<Peak>, ibut: real, nbut: Option<real>, acet: Option<real>, k: nat)
    requires k < |peaks| && peaks[k].name == NButane && forall j :: 0 <= j < k ==> peaks[j].name != NButane
    requires nbut == Some(peaks[k].rt)
    ensures InWindow(peaks[k].rt - ibut, NButaneWindow) ==> CorrectedFrom(peaks, ibut, nbut, acet)[k].name == NButane
    ensures !InWindow(peaks[k].rt - ibut, NButaneWindow) ==> CorrectedFrom(peaks, ibut, nbut, acet)[k].name != NButane
  {
    NamesDistinct();
    WindowsDisjoint(peaks[k].rt - ibut);
    var p1 := Unlabel(peaks, ibut, nbut, NButane, NButaneWindow);
    if InWindow(peaks[k].rt - ibut, NButaneWindow) {
      assert p1 == peaks;
      var p2 := Unlabel(p1, ibut, acet, Acetylene, AcetyleneWindow);
      assert p2[k] == peaks[k];
      var p3 := if Missing(acet, ibut, AcetyleneWindow) then Relabel(p2, ibut, Acetylene, AcetyleneWindow) else p2;
      assert p3[k] == peaks[k];
      assert CorrectedFrom(peaks, ibut, nbut, acet) == p3;
    } else {
      UnlabelFirst(peaks, ibut, nbut, NButane, NButaneWindow, k);
      var p2 := Unlabel(p1, ibut, acet, Acetylene, AcetyleneWindow);
      assert p2[k] == p1[k];
      var p3 := if Missing(acet, ibut, AcetyleneWindow) then Relabel(p2, ibut, Acetylene, AcetyleneWindow) else p2;
      assert p3[k].rt == peaks[k].rt && p3[k].name != NButane;
      assert CorrectedFrom(peaks, ibut, nbut, acet) == Relabel(p3, ibut, NButane, NButaneWindow);
    }
  }

  /** The acetylene label at `k`, read on entry, after the corrections. */
  lemma CorrectedFromAcetylene(peaks: seq<Peak>, ibut: real, nbut: Option<real>, acet: Option<real>, k: nat)
    requires k < |peaks| && peaks[k].name == Acetylene && forall j :: 0 <= j < k ==> peaks[j].name != Acetylene
    requires acet == Some(peaks[k].rt)
    ensures InWindow(peaks[k].rt - ibut, AcetyleneWindow) ==> CorrectedFrom(peaks, ibut, nbut, acet)[k].name == Acetylene
    ensures !InWindow(peaks[k].rt - ibut, AcetyleneWindow) ==> CorrectedFrom(peaks, ibut, nbut, acet)[k].name != Acetylene
  {
    NamesDistinct();
    WindowsDisjoint(peaks[k].rt - ibut);
    var p1 := Unlabel(peaks, ibut, nbut, NButane, NButaneWindow);
    assert p1[k] == peaks[k];
    var p2 := Unlabel(p1, ibut, acet, Acetylene, AcetyleneWindow);
    if InWindow(peaks[k].rt - ibut, AcetyleneWindow) {
      assert p2 == p1;
      var p3 := p2;
      assert p3[k].name == Acetylene && p3[k].rt == peaks[k].rt;
      assert CorrectedFrom(peaks, ibut, nbut, acet) == if Missing(nbut, ibut, NButaneWindow) then Relabel(p3, ibut, NButane, NButaneWindow) else p3;
    } else {
      UnlabelFirst(p1, ibut, acet, Acetylene, AcetyleneWindow, k);
      var p3 := Relabel(p2, ibut, Acetylene, AcetyleneWindow);
      assert p3[k] == p2[k];
      assert p3[k].rt == peaks[k].rt && p3[k].name == Unnamed;
      assert CorrectedFrom(peaks, ibut, nbut, acet) == if Missing(nbut, ibut, NButaneWindow) then Relabel(p3, ibut, NButane, NButaneWindow) else p3;
    }
  }

  /** `check_c4_rts` keeps a first n-butane label inside its window and
      removes one outside it for good (renamed "-" and, lying outside the
      window, never picked again). */
  lemma C4ChecksNButane(peaks: seq<Peak>, ibut: real, k: nat)
    requires PeakRt(peaks, IButane) == Some(ibut)
    requires k < |peaks| && peaks[k].name == NButane && forall j :: 0 <= j < k ==> peaks[j].name != NButane
    ensures k < |C4Corrected(peaks)|
    ensures C4Corrected(peaks)[k].name == NButane <==> InWindow(peaks[k].rt - ibut, NButaneWindow)
  {
    var nbut, acet := PeakRt(peaks, NButane), PeakRt(peaks, Acetylene);
    assert nbut == Some(peaks[k].rt);
    CorrectedFromRenamesOnly(peaks, ibut, nbut, acet);
    CorrectedFromNButane(peaks, ibut, nbut, acet, k);
  }

  /** `check_c4_rts` keeps a first acetylene label inside its window and
      removes one outside it for good. */
  lemma C4ChecksAcetylene(peaks: seq<Peak>, ibut: real, k: nat)
    requires PeakRt(peaks, IButane) == Some(ibut)
    requires k < |peaks| && peaks[k].name == Acetylene && forall j :: 0 <= j < k ==> peaks[j].name != Acetylene
    ensures k < |C4Corrected(peaks)|
    ensures C4Corrected(peaks)[k].name == Acetylene <==> InWindow(peaks[k].rt - ibut, AcetyleneWindow)
  {
    var nbut, acet := PeakRt(peaks, NButane), PeakRt(peaks, Acetylene);
    assert acet == Some(peaks[k].rt);
    CorrectedFromRenamesOnly(peaks, ibut, nbut, acet);
    CorrectedFromAcetylene(peaks, ibut, nbut, acet, k);
  }

  /** A search for n-butane names the first largest peak of its window. */
  lemma CorrectedFromFindsNButane(peaks: seq<Peak>, ibut: real, nbut: Option<real>, acet: Option<real>, k: nat)
    requires Missing(nbut, ibut, NButaneWindow)
    requires LargestInWindow(peaks, ibut, NButaneWindow) == Some(k)
    ensures k < |CorrectedFrom(peaks, ibut, nbut, acet)| && CorrectedFrom(peaks, ibut, nbut, acet)[k].name == NButane
  {
    var p1 := Unlabel(peaks, ibut, nbut, NButane, NButaneWindow);
    var p2 := Unlabel(p1, ibut, acet, Acetylene, AcetyleneWindow);
    var p3 := if Missing(acet, ibut, AcetyleneWindow) then Relabel(p2, ibut, Acetylene, AcetyleneWindow) else p2;
    LargestUpToIgnoresNames(peaks, p1, ibut, NButaneWindow, |peaks|);
    LargestUpToIgnoresNames(p1, p2, ibut, NButaneWindow, |peaks|);
    LargestUpToIgnoresNames(p2, p3, ibut, NButaneWindow, |peaks|);
    assert LargestInWindow(p3, ibut, NButaneWindow) == Some(k);
  }

  /** A search for acetylene names the first largest peak of its window; the
      later n-butane search cannot take it, the windows being disjoint. */
  lemma CorrectedFromFindsAcetylene(peaks: seq<Peak>, ibut: real, nbut: Option<real>, acet: Option<real>, k: nat)
    requires Missing(acet, ibut, AcetyleneWindow)
    requires LargestInWindow(peaks, ibut, AcetyleneWindow) == Some(k)
    ensures k < |CorrectedFrom(peaks, ibut, nbut, acet)| && CorrectedFrom(peaks, ibut, nbut, acet)[k].name == Acetylene
  {
    NamesDistinct();
    var p1 := Unlabel(peaks, ibut, nbut, NButane, NButaneWindow);
    var p2 := Unlabel(p1, ibut, acet, Acetylene, AcetyleneWindow);
    LargestUpToIgnoresNames(peaks, p1, ibut, AcetyleneWindow, |peaks|);
    LargestUpToIgnoresNames(p1, p2, ibut, AcetyleneWindow, |peaks|);
    var p3 := Relabel(p2, ibut, Acetylene, AcetyleneWindow);
    assert p3[k].name == Acetylene && p3[k].rt == peaks[k].rt;
    WindowsDisjoint(peaks[k].rt - ibut);
  }

  /** When n-butane is missing or misplaced, the first peak of largest area
      in its window (of the list as it came in) ends up named n-butane. */
  lemma C4FindsNButane(peaks: seq<Peak>, ibut: real, k: nat)
    requires PeakRt(peaks, IButane) == Some(ibut)
    requires Missing(PeakRt(peaks, NButane), ibut, NButaneWindow)
    requires LargestInWindow(peaks, ibut, NButaneWindow) == Some(k)
    ensures k < |C4Corrected(peaks)| && C4Corrected(peaks)[k].name == NButane
  {
    CorrectedFromFindsNButane(peaks, ibut, PeakRt(peaks, NButane), PeakRt(peaks, Acetylene), k);
  }

  /** When acetylene is missing or misplaced, the first peak of largest area
      in its window ends up named acetylene. */
  lemma C4FindsAcetylene(peaks: seq<Peak>, ibut: real, k: nat)
    requires PeakRt(peaks, IButane) == Some(ibut)
    requires Missing(PeakRt(peaks, Acetylene), ibut, AcetyleneWindow)
    requires LargestInWindow(peaks, ibut, AcetyleneWindow) == Some(k)
    ensures k < |C4Corrected(peaks)| && C4Corrected(peaks)[k].name == Acetylene
  {
    CorrectedFromFindsAcetylene(peaks, ibut, PeakRt(peaks, NButane), PeakRt(peaks, Acetylene), k);
  }

  /** With both labels inside their windows nothing is un-labelled and
      nothing is searched for, so the peaks are left as they are. */
  lemma CorrectedFromKeepsPlacedLabels(peaks: seq<Peak>, ibut: real, nbut: real, acet: real)
    requires InWindow(nbut - ibut, NButaneWindow) && InWindow(acet - ibut, AcetyleneWindow)
    ensures CorrectedFrom(peaks, ibut, Some(nbut), Some(acet)) == peaks
  {
  }

  /** A search for n-butane happens only when its label is missing or
      misplaced: with its first label inside the window, no peak that was
      not n-butane becomes n-butane. */
  lemma CorrectedFromNButaneOnlyWhenMissing(peaks: seq<Peak>, ibut: real, nbut: real, acet: Option<real>)
    requires InWindow(nbut - ibut, NButaneWindow)
    ensures |CorrectedFrom(peaks, ibut, Some(nbut), acet)| == |peaks|
    ensures forall i :: 0 <= i < |peaks| && CorrectedFrom(peaks, ibut, Some(nbut), acet)[i].name == NButane ==>
      peaks[i].name == NButane
  {
    NamesDistinct();
    var p2 := Unlabel(peaks, ibut, acet, Acetylene, AcetyleneWindow);
    assert Unlabel(peaks, ibut, Some(nbut), NButane, NButaneWindow) == peaks;
    var p3 := if Missing(acet, ibut, AcetyleneWindow) then Relabel(p2, ibut, Acetylene, AcetyleneWindow) else p2;
    assert CorrectedFrom(peaks, ibut, Some(nbut), acet) == p3;
  }

  /** A search for acetylene happens only when its label is missing or
      misplaced: with its first label inside the window, no peak that was
      not acetylene becomes acetylene. */
  lemma CorrectedFromAcetyleneOnlyWhenMissing(peaks: seq<Peak>, ibut: real, nbut: Option<real>, acet: real)
    requires InWindow(acet - ibut, AcetyleneWindow)
    ensures |CorrectedFrom(peaks, ibut, nbut, Some(acet))| == |peaks|
    ensures forall i :: 0 <= i < |peaks| && CorrectedFrom(peaks, ibut, nbut, Some(acet))[i].name == Acetylene ==>
      peaks[i].name == Acetylene
  {
    NamesDistinct();
    var p1 := Unlabel(peaks, ibut, nbut, NButane, NButaneWindow);
    assert Unlabel(p1, ibut, Some(acet), Acetylene, AcetyleneWindow) == p1;
    assert CorrectedFrom(peaks, ibut, nbut, Some(acet))
        == if Missing(nbut, ibut, NButaneWindow) then Relabel(p1, ibut, NButane, NButaneWindow) else p1;
  }

  /** `check_c4_rts` changes nothing when both first labels are placed. */
  lemma C4KeepsPlacedLabels(peaks: seq<Peak>, ibut: real)
    requires PeakRt(peaks, IButane) == Some(ibut)
    requires PeakRt(peaks, NButane).Some? && InWindow(PeakRt(peaks, NButane).value - ibut, NButaneWindow)
    requires PeakRt(peaks, Acetylene).Some? && InWindow(PeakRt(peaks, Acetylene).value - ibut, AcetyleneWindow)
    ensures C4Corrected(peaks) == peaks
  {
    CorrectedFromKeepsPlacedLabels(peaks, ibut, PeakRt(peaks, NButane).value, PeakRt(peaks, Acetylene).value);
  }

  /** `check_c4_rts` names a new n-butane peak only when the first n-butane
      label is missing or outside its window. */
  lemma C4NButaneOnlyWhenMissing(peaks: seq<Peak>, ibut: real)
    requires PeakRt(peaks, IButane) == Some(ibut)
    requires PeakRt(peaks, NButane).Some? && InWindow(PeakRt(peaks, NButane).value - ibut, NButaneWindow)
    ensures |C4Corrected(peaks)| == |peaks|
    ensures forall i :: 0 <= i < |peaks| && C4Corrected(peaks)[i].name == NButane ==> peaks[i].name == NButane
  {
    CorrectedFromNButaneOnlyWhenMissing(peaks, ibut, PeakRt(peaks, NButane).value, PeakRt(peaks, Acetylene));
  }

  /** `check_c4_rts` names a new acetylene peak only when the first
      acetylene label is missing or outside its window. */
  lemma C4AcetyleneOnlyWhenMissing(peaks: seq<Peak>, ibut: real)
    requires PeakRt(peaks, IButane) == Some(ibut)
    requires PeakRt(peaks, Acetylene).Some? && InWindow(PeakRt(peaks, Acetylene).value - ibut, AcetyleneWindow)
    ensures |C4Corrected(peaks)| == |peaks|
    ensures forall i :: 0 <= i < |peaks| && C4Corrected(peaks)[i].name == Acetylene ==> peaks[i].name == Acetylene
  {
    CorrectedFromAcetyleneOnlyWhenMissing(peaks, ibut, PeakRt(peaks, NButane), PeakRt(peaks, Acetylene).value);
  }

  /** Only the FIRST label of each compound is checked: with i-butane at 5,
      a first n-butane at 5.44 (inside the window) and a second at 7 (far
      outside it), both keep the name n-butane. */
  lemma C4KeepsLaterMisplacedNButane()
    ensures var peaks := [Peak(IButane, 1.0, 5.0, None, 0, 0), Peak(NButane, 1.0, 5.44, None, 0, 0),
                          Peak(NButane, 1.0, 7.0, None, 0, 0)];
      && !InWindow(peaks[2].rt - 5.0, NButaneWindow)
      && C4Corrected(peaks) == peaks
      && C4Corrected(peaks)[2].name == NButane
  {
    var peaks := [Peak(IButane, 1.0, 5.0, None, 0, 0), Peak(NButane, 1.0, 5.44, None, 0, 0),
                  Peak(NButane, 1.0, 7.0, None, 0, 0)];
    NamesDistinct();
    assert peaks[0].name == IButane && peaks[1].name == NButane;
    assert PeakRt(peaks, IButane) == Some(5.0);
    assert PeakRt(peaks, NButane) == Some(5.44);
    assert PeakRt(peaks, Acetylene) == None;
    LargestUpToIsMax(peaks, 5.0, AcetyleneWindow, |peaks|);
    assert LargestInWindow(peaks, 5.0, AcetyleneWindow) == None;
    assert Unlabel(peaks, 5.0, Some(5.44), NButane, NButaneWindow) == peaks;
  }

  /** One compound's label check: if its first peak (at `rt`) lies outside
      the window, that peak is renamed "-" and the compound must be found. */
  method UnlabelStep(line: NmhcLine, ibut: real, rt: Option<real>, name: string, w: Window) returns (find: bool)
    modifies line`peaklist
    ensures line.peaklist == Unlabel(old(line.peaklist), ibut, rt, name, w)
    ensures find <==> rt.Some? && !InWindow(rt.value - ibut, w)
  {
    find := false;
    if rt.Some? {
      if !InWindow(rt.value - ibut, w) {
        find := true;
        var pseudo := FirstIndexOf(Names(line.peaklist), name);
        if pseudo.Some? {
          line.peaklist := Rename(line.peaklist, pseudo.value, Unnamed);
        }
      }
    }
  }

  /** One compound's search: the largest peak of its window takes its name. */
  method RelabelStep(line: NmhcLine, ibut: real, name: string, w: Window)
    modifies line`peaklist
    ensures line.peaklist == Relabel(old(line.peaklist), ibut, name, w)
  {
    var best := LargestInWindow(line.peaklist, ibut, w);
    if best.Some? {
      line.peaklist := Rename(line.peaklist, best.value, name);
    }
  }

  /** The body of `check_c4_rts` under `if ibut_rt is not None`. */
  method CorrectFrom(line: NmhcLine, ibut: real, nbutRt: Option<real>, acetRt: Option<real>)
    modifies line`peaklist
    ensures line.peaklist == CorrectedFrom(old(line.peaklist), ibut, nbutRt, acetRt)
  {
    var findNbut := UnlabelStep(line, ibut, nbutRt, NButane, NButaneWindow);
    var findAcet := UnlabelStep(line, ibut, acetRt, Acetylene, AcetyleneWindow);
    if acetRt.None? || findAcet {
      RelabelStep(line, ibut, Acetylene, AcetyleneWindow);
    }
    if nbutRt.None? || findNbut {
      RelabelStep(line, ibut, NButane, NButaneWindow);
    }
  }

  /** `check_c4_rts` on the peaks of one PA line, renaming in place. */
  method CorrectC4(line: NmhcLine)
    modifies line`peaklist
    ensures line.peaklist == C4Corrected(old(line.peaklist))
  {
    var ibutRt := PeakRt(line.peaklist, IButane);
    var nbutRt := PeakRt(line.peaklist, NButane);
    var acetRt := PeakRt(line.peaklist, Acetylene);
    if ibutRt.Some? {
      CorrectFrom(line, ibutRt.value, nbutRt, acetRt);
    }
  }

  /** `check_c4_rts(run)`: None for None; otherwise the same run, its line's
      peaks corrected in place. */
  method CheckC4Rts(run: GcRun?) returns (r: GcRun?)
    modifies (if run != null then {run.line} else {})`peaklist
    ensures r == run
    ensures run != null ==> run.line.peaklist == C4Corrected(old(run.line.peaklist))
  {
    if run == null {
      return null;
    }
    CorrectC4(run.line);
    return run;
  }
}
