/** The mixing-ratio formula of `GcRun.integrate`, stated on values. */
module Integration {
  import opened Wrappers
  import opened Records

  /** The sample volume, in seconds, every mixing ratio is normalised to. */
  const NormalizationVolume: real := 600.0

  /** A peak is integrated when its name is a quantified compound AND the
      calibration record has a response factor for it. */
  predicate Calibrated(name: string, crf: Crf) {
    name in CompoundList && name in crf.compounds
  }

  /** `(pa / (crf * ecn * sampletime * sampleflow1)) * 600 * 1`. The
      formula is calibration inverted: scaling the mixing ratio back by the
      response factor, carbon number, sample time and flow gives the peak
      area times the normalisation volume. */
  function MixingRatio(pa: real, crf: real, ecn: real, sampletime: real, sampleflow1: real): (r: real)
    requires crf * ecn * sampletime * sampleflow1 != 0.0
    ensures r * (crf * ecn * sampletime * sampleflow1) == pa * NormalizationVolume
  {
    var den := crf * ecn * sampletime * sampleflow1;
    assert (pa / den) * den == pa;
    assert (pa / den) * NormalizationVolume * 1.0 * den == (pa / den) * den * NormalizationVolume;
    (pa / den) * NormalizationVolume * 1.0
  }

  /** The worked case: area 1000, factor 2, carbon number 2, sample time 10
      and flow 20 give 1000 / 800 * 600, a mixing ratio of 750. */
  lemma MixingRatioWorkedCase()
    ensures MixingRatio(1000.0, 2.0, 2.0, 10.0, 20.0) == 750.0
  {
    assert 2.0 * 2.0 * 10.0 * 20.0 == 800.0;
    assert 1000.0 / 800.0 == 1.25;
  }

  /** What integration needs of its inputs so that no division is by zero. */
  predicate Integrable(peaks: seq<Peak>, crf: Crf, sampletime: real, sampleflow1: real) {
    && sampletime != 0.0
    && sampleflow1 != 0.0
    && forall i :: 0 <= i < |peaks| && Calibrated(peaks[i].name, crf) ==> crf.compounds[peaks[i].name] != 0.0
  }

  /** The new value of one peak after integration: only its mixing ratio
      changes. A calibrated peak gets the ratio of the formula; any other
      peak keeps its ratio. */
  function IntegratePeak(p: Peak, crf: Crf, sampletime: real, sampleflow1: real): (q: Peak)
    requires sampletime != 0.0 && sampleflow1 != 0.0
    requires Calibrated(p.name, crf) ==> crf.compounds[p.name] != 0.0
    ensures q == p.(mr := q.mr)
    ensures !Calibrated(p.name, crf) ==> q.mr == p.mr
    ensures Calibrated(p.name, crf) ==>
      && p.name in CompoundEcns
      && crf.compounds[p.name] * CompoundEcns[p.name] * sampletime * sampleflow1 != 0.0
      && q.mr == Some(MixingRatio(p.pa, crf.compounds[p.name], CompoundEcns[p.name], sampletime, sampleflow1))
  {
    if Calibrated(p.name, crf) then
      CompoundHasEcn(p.name);
      var f := crf.compounds[p.name];
      var ecn := CompoundEcns[p.name];
      assert f * ecn != 0.0;
      assert f * ecn * sampletime != 0.0;
      p.(mr := Some(MixingRatio(p.pa, f, ecn, sampletime, sampleflow1)))
    else p
  }

  /** The peak list after integration, peak by peak: same length, and only
      mixing ratios change. Every calibrated peak gets the ratio of the
      formula and every other peak keeps its own. */
  function IntegratePeaks(peaks: seq<Peak>, crf: Crf, sampletime: real, sampleflow1: real): (r: seq<Peak>)
    requires Integrable(peaks, crf, sampletime, sampleflow1)
    ensures |r| == |peaks|
    ensures forall i :: 0 <= i < |peaks| ==>
      && r[i] == peaks[i].(mr := r[i].mr)
      && (!Calibrated(peaks[i].name, crf) ==> r[i].mr == peaks[i].mr)
      && (Calibrated(peaks[i].name, crf) ==>
            && peaks[i].name in CompoundEcns
            && r[i].mr == Some(MixingRatio(peaks[i].pa, crf.compounds[peaks[i].name], CompoundEcns[peaks[i].name],
                                           sampletime, sampleflow1)))
  {
    seq(|peaks|, i requires 0 <= i < |peaks| => IntegratePeak(peaks[i], crf, sampletime, sampleflow1))
  }
}
