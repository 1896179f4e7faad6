/** The mono filter chain as the response curve sees it: three positions
    (LowCut, Peak, HighCut), each with a bypass flag, the two cut positions
    holding a cascade of four second-order stages with a bypass flag each.
    Filter coefficients are identified by the design call that produced them;
    their numbers are not modelled. */
module Chain {

  /** Index of a cut slope choice: 0..3 for 12, 24, 36 and 48 dB/oct. */
  type SlopeIndex = i: nat | i < 4

  /** Number of second-order stages in each cut cascade. */
  const CutStages: nat := 4

  /** A snapshot of the parameter values the chain is built from. */
  datatype ChainSettings = ChainSettings(
    lowCutFreq: real, highCutFreq: real,
    peakFreq: real, peakGainDb: real, peakQ: real,
    lowCutSlope: SlopeIndex, highCutSlope: SlopeIndex,
    lowCutBypass: bool, highCutBypass: bool, peakBypass: bool, analyzerBypass: bool)

  datatype Design = PeakDesign | LowCutDesign | HighCutDesign

  /** The coefficients installed in one stage: a pass-through set, or the set
      a coefficient factory computed for that stage from a snapshot and a
      sample rate. */
  datatype Coefficients =
    | PassThrough
    | Designed(design: Design, stage: nat, settings: ChainSettings, sampleRate: real)

  datatype CutFilter = CutFilter(stageBypassed: seq<bool>, stageCoefficients: seq<Coefficients>)

  datatype MonoChain = MonoChain(
    lowCutBypassed: bool, peakBypassed: bool, highCutBypassed: bool,
    lowCut: CutFilter, peak: Coefficients, highCut: CutFilter)

  predicate ValidCut(c: CutFilter)
  {
    |c.stageBypassed| == CutStages && |c.stageCoefficients| == CutStages
  }

  predicate ValidChain(chain: MonoChain)
  {
    ValidCut(chain.lowCut) && ValidCut(chain.highCut)
  }

  /** A cut cascade set for a slope: the first `slope + 1` stages are
      engaged with the designed coefficients, the others are bypassed with
      pass-through coefficients. */
  function CutFilterFor(design: Design, slope: SlopeIndex, settings: ChainSettings, sampleRate: real): (c: CutFilter)
    ensures ValidCut(c)
    ensures forall i :: 0 <= i < CutStages ==> (c.stageBypassed[i] <==> i > slope)
    ensures forall i :: 0 <= i < CutStages ==>
      c.stageCoefficients[i] == if i <= slope then Designed(design, i, settings, sampleRate) else PassThrough
  {
    CutFilter(
      seq(CutStages, i requires 0 <= i < CutStages => i > slope),
      seq(CutStages, i requires 0 <= i < CutStages =>
        if i <= slope then Designed(design, i, settings, sampleRate) else PassThrough))
  }

  /** The chain after updateChain: bypass flags copied from the snapshot,
      peak and cut coefficients recomputed for it. */
  function UpdatedChain(settings: ChainSettings, sampleRate: real): (chain: MonoChain)
    ensures ValidChain(chain)
    ensures chain.lowCutBypassed == settings.lowCutBypass
    ensures chain.highCutBypassed == settings.highCutBypass
    ensures chain.peakBypassed == settings.peakBypass
  {
    MonoChain(
      settings.lowCutBypass, settings.peakBypass, settings.highCutBypass,
      CutFilterFor(LowCutDesign, settings.lowCutSlope, settings, sampleRate),
      Designed(PeakDesign, 0, settings, sampleRate),
      CutFilterFor(HighCutDesign, settings.highCutSlope, settings, sampleRate))
  }

  datatype CutPosition = LowCut | HighCut

  /** A stage whose gain the response curve may multiply in. */
  datatype Stage = PeakStage | CutStage(position: CutPosition, index: nat)

  function CutOf(chain: MonoChain, position: CutPosition): CutFilter
  {
    if position == LowCut then chain.lowCut else chain.highCut
  }

  function CutBypassed(chain: MonoChain, position: CutPosition): bool
  {
    if position == LowCut then chain.lowCutBypassed else chain.highCutBypassed
  }

  /** Indices below `k` of the stages not bypassed, in ascending order. */
  function EngagedBelow(bypassed: seq<bool>, k: nat): (idx: seq<nat>)
    requires k <= |bypassed|
    ensures forall i: nat :: i in idx <==> i < k && !bypassed[i]
  {
    if k == 0 then []
    else EngagedBelow(bypassed, k - 1) + (if bypassed[k - 1] then [] else [k - 1])
  }

  /** The stages of one cascade with the given indices. */
  function CascadeStages(position: CutPosition, idx: seq<nat>): seq<Stage>
  {
    seq(|idx|, j requires 0 <= j < |idx| => CutStage(position, idx[j]))
  }

  lemma CascadeStagesMembers(position: CutPosition, idx: seq<nat>)
    ensures forall i: nat :: CutStage(position, i) in CascadeStages(position, idx) <==> i in idx
    ensures forall s :: s in CascadeStages(position, idx) ==> s.CutStage? && s.position == position && s.index in idx
  {
    var stages := CascadeStages(position, idx);
    forall i: nat | i in idx ensures CutStage(position, i) in stages {
      var j :| 0 <= j < |idx| && idx[j] == i;
      assert stages[j] == CutStage(position, i);
    }
  }

  lemma CascadeStagesAppend(position: CutPosition, idx: seq<nat>, k: nat)
    ensures CascadeStages(position, idx + [k]) == CascadeStages(position, idx) + [CutStage(position, k)]
  {
  }

  function PeakPart(chain: MonoChain): seq<Stage>
  {
    if chain.peakBypassed then [] else [PeakStage]
  }

  function CutPart(chain: MonoChain, position: CutPosition): seq<Stage>
    requires ValidChain(chain)
  {
    if CutBypassed(chain, position) then []
    else CascadeStages(position, EngagedBelow(CutOf(chain, position).stageBypassed, CutStages))
  }

  /** The stages whose gain the response curve multiplies in, in the order
      it multiplies them: Peak, then LowCut stages 0..3, then HighCut
      stages 0..3. */
  function ContributingStages(chain: MonoChain): seq<Stage>
    requires ValidChain(chain)
  {
    PeakPart(chain) + CutPart(chain, LowCut) + CutPart(chain, HighCut)
  }

  /** A stage contributes exactly when neither it nor its position is
      bypassed, and only the four stages of each cascade exist. */
  lemma ContributingStagesMembers(chain: MonoChain)
    requires ValidChain(chain)
    ensures PeakStage in ContributingStages(chain) <==> !chain.peakBypassed
    ensures forall p: CutPosition, i :: 0 <= i < CutStages ==>
      (CutStage(p, i) in ContributingStages(chain) <==>
         !CutBypassed(chain, p) && !CutOf(chain, p).stageBypassed[i])
    ensures forall s :: s in ContributingStages(chain) ==> s.CutStage? ==> s.index < CutStages
  {
    var low := EngagedBelow(chain.lowCut.stageBypassed, CutStages);
    var high := EngagedBelow(chain.highCut.stageBypassed, CutStages);
    CascadeStagesMembers(LowCut, low);
    CascadeStagesMembers(HighCut, high);
  }

  /** A cascade set for slope `slope` engages exactly stages 0..slope. */
  lemma {:induction false} EngagedPrefix(design: Design, slope: SlopeIndex, settings: ChainSettings, sampleRate: real, k: nat)
    requires k <= CutStages
    ensures EngagedBelow(CutFilterFor(design, slope, settings, sampleRate).stageBypassed, k)
            == seq(if k <= slope then k else slope + 1, i requires 0 <= i => i)
  {
    var c := CutFilterFor(design, slope, settings, sampleRate);
    if k > 0 {
      EngagedPrefix(design, slope, settings, sampleRate, k - 1);
    }
  }

  /** After updateChain, the response multiplies in the peak stage unless the
      snapshot bypasses it, and stages 0..slope of each cut unless the
      snapshot bypasses that cut: one stage per 12 dB/oct of slope. */
  lemma StagesAfterUpdate(settings: ChainSettings, sampleRate: real)
    ensures ContributingStages(UpdatedChain(settings, sampleRate)) ==
      (if settings.peakBypass then [] else [PeakStage]) +
      (if settings.lowCutBypass then [] else seq(settings.lowCutSlope + 1, i requires 0 <= i => CutStage(LowCut, i))) +
      (if settings.highCutBypass then [] else seq(settings.highCutSlope + 1, i requires 0 <= i => CutStage(HighCut, i)))
    ensures |ContributingStages(UpdatedChain(settings, sampleRate))| ==
      (if settings.peakBypass then 0 else 1) +
      (if settings.lowCutBypass then 0 else settings.lowCutSlope + 1) +
      (if settings.highCutBypass then 0 else settings.highCutSlope + 1)
  {
    var chain := UpdatedChain(settings, sampleRate);
    EngagedPrefix(LowCutDesign, settings.lowCutSlope, settings, sampleRate, CutStages);
    EngagedPrefix(HighCutDesign, settings.highCutSlope, settings, sampleRate, CutStages);
    assert CutPart(chain, LowCut) == (if settings.lowCutBypass then [] else seq(settings.lowCutSlope + 1, i requires 0 <= i => CutStage(LowCut, i)));
    assert CutPart(chain, HighCut) == (if settings.highCutBypass then [] else seq(settings.highCutSlope + 1, i requires 0 <= i => CutStage(HighCut, i)));
  }

  /** Multiplication of gains. Naming it lets products of stage gains be
      compared factor by factor. */
  function Times(a: real, b: real): real { a * b }

  /** The response at one pixel: unity gain times the gain of each
      contributing stage, multiplied in order. */
  function Product(stages: seq<Stage>, gain: (Stage, nat) -> real, pixel: nat): real
  {
    if stages == [] then 1.0
    else Times(Product(stages[..|stages| - 1], gain, pixel), gain(stages[|stages| - 1], pixel))
  }

  /** With every position bypassed nothing is multiplied in, so the response
      stays at the unity start value at every pixel. */
  lemma AllBypassedIsUnity(chain: MonoChain, gain: (Stage, nat) -> real, pixel: nat)
    requires ValidChain(chain)
    requires chain.peakBypassed && chain.lowCutBypassed && chain.highCutBypassed
    ensures ContributingStages(chain) == []
    ensures Product(ContributingStages(chain), gain, pixel) == 1.0
  {
  }
}
