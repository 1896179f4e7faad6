/** The response-curve component's control logic: a "parameters changed"
    flag raised by parameter listeners and consumed by a 60 Hz timer, the
    timer's analyser step, the rebuild of the component's own mono chain
    from a parameter snapshot, and the per-pixel selection of the stages
    whose gains make up the drawn response. */
module Response {
  import opened Geometry
  import opened Chain
  import opened Analyzer

  /** What happens to the component, one event at a time. */
  datatype Event = ParameterChange | TimerTick

  /** The flag after the events: raised by a change, lowered by a tick. */
  function FlagAfter(flag: bool, events: seq<Event>): bool
  {
    if events == [] then flag
    else events[|events| - 1] == ParameterChange
  }

  /** How many times the chain is rebuilt during the events: once for each
      tick that finds the flag raised. */
  function UpdatesDuring(flag: bool, events: seq<Event>): nat
  {
    if events == [] then 0
    else
      var init := events[..|events| - 1];
      UpdatesDuring(flag, init)
        + (if events[|events| - 1] == TimerTick && FlagAfter(flag, init) then 1 else 0)
  }

  function Ticks(events: seq<Event>): nat
  {
    if events == [] then 0
    else Ticks(events[..|events| - 1]) + (if events[|events| - 1] == TimerTick then 1 else 0)
  }

  function Changes(n: nat): seq<Event>
  {
    seq(n, _ => ParameterChange)
  }

  /** Appending events continues from the flag the first part left. */
  lemma {:induction false} UpdatesAppend(flag: bool, a: seq<Event>, b: seq<Event>)
    ensures UpdatesDuring(flag, a + b) == UpdatesDuring(flag, a) + UpdatesDuring(FlagAfter(flag, a), b)
    ensures FlagAfter(flag, a + b) == FlagAfter(FlagAfter(flag, a), b)
    decreases |b|
  {
    if b != [] {
      var b0 := b[..|b| - 1];
      assert (a + b)[..|a + b| - 1] == a + b0;
      UpdatesAppend(flag, a, b0);
    } else {
      assert a + b == a;
    }
  }

  lemma {:induction false} ChangesRaiseFlag(flag: bool, n: nat)
    ensures UpdatesDuring(flag, Changes(n)) == 0
    ensures n > 0 ==> FlagAfter(flag, Changes(n))
  {
    if n > 0 {
      assert Changes(n)[..n - 1] == Changes(n - 1);
      ChangesRaiseFlag(flag, n - 1);
    }
  }

  /** Any number (at least one) of parameter changes between two ticks
      rebuild the chain exactly once, at the tick, and leave the flag down. */
  lemma ChangesThenTickUpdateOnce(flag: bool, n: nat)
    requires n > 0
    ensures UpdatesDuring(flag, Changes(n) + [TimerTick]) == 1
    ensures !FlagAfter(flag, Changes(n) + [TimerTick])
  {
    ChangesRaiseFlag(flag, n);
    UpdatesAppend(flag, Changes(n), [TimerTick]);
    assert [TimerTick][..0] == [];
  }

  /** A tick with the flag down rebuilds nothing. */
  lemma IdleTickUpdatesNothing()
    ensures UpdatesDuring(false, [TimerTick]) == 0
    ensures !FlagAfter(false, [TimerTick])
  {
    assert [TimerTick][..0] == [];
  }

  /** No change is lost: a change followed later by a tick always causes a
      rebuild after the change. */
  lemma {:induction false} ChangeIsNotLost(flag: bool, before: seq<Event>, after: seq<Event>)
    requires TimerTick in after
    ensures UpdatesDuring(flag, before + [ParameterChange] + after) > UpdatesDuring(flag, before)
  {
    var prefix := before + [ParameterChange];
    UpdatesAppend(flag, prefix, after);
    UpdatesAppend(flag, before, [ParameterChange]);
    assert [ParameterChange][..0] == [];
    FirstTickUpdates(after);
  }

  lemma {:induction false} FirstTickUpdates(events: seq<Event>)
    requires TimerTick in events
    ensures UpdatesDuring(true, events) >= 1
    decreases |events|
  {
    var init := events[..|events| - 1];
    if TimerTick in init {
      FirstTickUpdates(init);
    } else {
      assert events == init + [events[|events| - 1]];
      NoTickKeepsFlag(init);
    }
  }

  lemma {:induction false} NoTickKeepsFlag(events: seq<Event>)
    requires TimerTick !in events
    ensures FlagAfter(true, events)
  {
  }

  /** Rebuilds never outnumber ticks. */
  lemma {:induction false} UpdatesAtMostTicks(flag: bool, events: seq<Event>)
    ensures UpdatesDuring(flag, events) <= Ticks(events)
  {
    if events != [] {
      UpdatesAtMostTicks(flag, events[..|events| - 1]);
    }
  }

  /** Multiplying one more stage into a product. */
  lemma ProductAppend(stages: seq<Stage>, s: Stage, gain: (Stage, nat) -> real, pixel: nat)
    ensures Product(stages + [s], gain, pixel) == Times(Product(stages, gain, pixel), gain(s, pixel))
  {
    assert (stages + [s])[..|stages|] == stages;
  }

  /** The response before conversion to decibels, one value per pixel of
      the analysis area's width. */
  method Magnitudes(chain: MonoChain, w: nat, gain: (Stage, nat) -> real) returns (magnitudes: seq<real>)
    requires ValidChain(chain)
    ensures |magnitudes| == w
    ensures forall i :: 0 <= i < |magnitudes| ==>
      magnitudes[i] == Product(ContributingStages(chain), gain, i)
  {
    ghost var stages := ContributingStages(chain);
    magnitudes := [];
    var i := 0;
    while i < w
      invariant 0 <= i <= w && |magnitudes| == i
      invariant forall p :: 0 <= p < i ==> magnitudes[p] == Product(stages, gain, p)
    {
      var m := PixelMagnitude(chain, gain, i);
      magnitudes := magnitudes + [m];
      i := i + 1;
    }
  }

  /** One pixel's response: unity gain, times the peak stage's gain unless
      Peak is bypassed, then the low-cut and the high-cut cascades. */
  method PixelMagnitude(chain: MonoChain, gain: (Stage, nat) -> real, pixel: nat) returns (m: real)
    requires ValidChain(chain)
    ensures m == Product(ContributingStages(chain), gain, pixel)
  {
    m := 1.0;
    if !chain.peakBypassed {
      ProductAppend([], PeakStage, gain, pixel);
      m := Times(m, gain(PeakStage, pixel));
    }
    m := MultiplyCascade(chain, LowCut, m, PeakPart(chain), gain, pixel);
    m := MultiplyCascade(chain, HighCut, m, PeakPart(chain) + CutPart(chain, LowCut), gain, pixel);
  }

  /** Multiplying in one more engaged stage of a cascade. */
  lemma CascadeStep(done: seq<Stage>, position: CutPosition, idx: seq<nat>, k: nat,
                    gain: (Stage, nat) -> real, pixel: nat)
    ensures Product(done + CascadeStages(position, idx + [k]), gain, pixel) ==
      Times(Product(done + CascadeStages(position, idx), gain, pixel), gain(CutStage(position, k), pixel))
  {
    CascadeStagesAppend(position, idx, k);
    assert done + CascadeStages(position, idx + [k]) == (done + CascadeStages(position, idx)) + [CutStage(position, k)];
    ProductAppend(done + CascadeStages(position, idx), CutStage(position, k), gain, pixel);
  }

  /** One cascade's share of a pixel's response: nothing when the position
      is bypassed, otherwise its engaged stages' gains. `done` is what the
      response so far has multiplied in. */
  method MultiplyCascade(chain: MonoChain, position: CutPosition, m0: real, ghost done: seq<Stage>,
                         gain: (Stage, nat) -> real, pixel: nat) returns (m: real)
    requires ValidChain(chain)
    requires m0 == Product(done, gain, pixel)
    ensures m == Product(done + CutPart(chain, position), gain, pixel)
  {
    if CutBypassed(chain, position) {
      assert done + CutPart(chain, position) == done;
      m := m0;
    } else {
      m := MultiplyEngaged(CutOf(chain, position).stageBypassed, position, m0, done, gain, pixel);
    }
  }

  /** The four guarded multiplications of one cascade, stage 0 to stage 3. */
  method MultiplyEngaged(bypassed: seq<bool>, position: CutPosition, m0: real, ghost done: seq<Stage>,
                         gain: (Stage, nat) -> real, pixel: nat) returns (m: real)
    requires |bypassed| == CutStages
    requires m0 == Product(done, gain, pixel)
    ensures m == Product(done + CascadeStages(position, EngagedBelow(bypassed, CutStages)), gain, pixel)
  {
    assert done + CascadeStages(position, []) == done;
    m := MultiplyStage(bypassed, position, 0, m0, done, gain, pixel);
    m := MultiplyStage(bypassed, position, 1, m, done, gain, pixel);
    m := MultiplyStage(bypassed, position, 2, m, done, gain, pixel);
    m := MultiplyStage(bypassed, position, 3, m, done, gain, pixel);
  }

  /** Stage k's gain is multiplied in unless stage k is bypassed. */
  method MultiplyStage(bypassed: seq<bool>, position: CutPosition, k: nat, m0: real, ghost done: seq<Stage>,
                       gain: (Stage, nat) -> real, pixel: nat) returns (m: real)
    requires k < |bypassed|
    requires m0 == Product(done + CascadeStages(position, EngagedBelow(bypassed, k)), gain, pixel)
    ensures m == Product(done + CascadeStages(position, EngagedBelow(bypassed, k + 1)), gain, pixel)
  {
    m := m0;
    ghost var idx := EngagedBelow(bypassed, k);
    if !bypassed[k] {
      assert EngagedBelow(bypassed, k + 1) == idx + [k];
      CascadeStep(done, position, idx, k, gain, pixel);
      m := Times(m, gain(CutStage(position, k), pixel));
    } else {
      assert EngagedBelow(bypassed, k + 1) == idx;
    }
  }

  /** The response-curve component. `width` and `height` are its size; the
      two path generators analyse the left and right channel. */
  class ResponseCurve {
    var parametersChanged: bool
    var isFFTAnalysisEnabled: bool
    var monoChain: MonoChain
    var width: nat
    var height: nat
    const leftChannelPathGenerator: PathGenerator
    const rightChannelPathGenerator: PathGenerator
    /** How many times the mono chain has been rebuilt. */
    ghost var chainUpdates: nat

    ghost predicate Valid()
      reads this, leftChannelPathGenerator, rightChannelPathGenerator
    {
      && ValidChain(monoChain)
      && leftChannelPathGenerator != rightChannelPathGenerator
      && leftChannelPathGenerator.monoBuffer != rightChannelPathGenerator.monoBuffer
      && leftChannelPathGenerator.Valid()
      && rightChannelPathGenerator.Valid()
    }

    /** Builds the chain once from the current snapshot; the flag starts down. */
    constructor(fftSize: nat, analysisEnabled: bool, settings: ChainSettings, sampleRate: real)
      requires fftSize > 0
      ensures Valid()
      ensures fresh(leftChannelPathGenerator) && fresh(rightChannelPathGenerator)
      ensures !parametersChanged && isFFTAnalysisEnabled == analysisEnabled
      ensures monoChain == UpdatedChain(settings, sampleRate) && chainUpdates == 1
      ensures width == 0 && height == 0
    {
      leftChannelPathGenerator := new PathGenerator(fftSize);
      rightChannelPathGenerator := new PathGenerator(fftSize);
      parametersChanged := false;
      isFFTAnalysisEnabled := analysisEnabled;
      monoChain := UpdatedChain(settings, sampleRate);
      width, height := 0, 0;
      chainUpdates := 1;
    }

    /** parameterValueChanged: raises the flag and nothing else. */
    method ParameterValueChanged(parameterIndex: int, newValue: real)
      requires Valid()
      modifies this
      ensures Valid()
      ensures parametersChanged
      ensures monoChain == old(monoChain) && chainUpdates == old(chainUpdates)
      ensures isFFTAnalysisEnabled == old(isFFTAnalysisEnabled)
      ensures width == old(width) && height == old(height)
    {
      parametersChanged := true;
    }

    /** setFFTAnalysisEnabled: switches the analyser on or off and nothing else. */
    method SetFFTAnalysisEnabled(enabled: bool)
      requires Valid()
      modifies this
      ensures Valid()
      ensures isFFTAnalysisEnabled == enabled
      ensures parametersChanged == old(parametersChanged)
      ensures monoChain == old(monoChain) && chainUpdates == old(chainUpdates)
      ensures width == old(width) && height == old(height)
    {
      isFFTAnalysisEnabled := enabled;
    }

    /** updateChain: copies the snapshot's three bypass flags into the chain
        and installs coefficients designed for the snapshot. */
    method UpdateChain(settings: ChainSettings, sampleRate: real)
      requires Valid()
      modifies this
      ensures Valid()
      ensures monoChain == UpdatedChain(settings, sampleRate)
      ensures chainUpdates == old(chainUpdates) + 1
      ensures parametersChanged == old(parametersChanged)
      ensures isFFTAnalysisEnabled == old(isFFTAnalysisEnabled)
      ensures width == old(width) && height == old(height)
    {
      monoChain := monoChain.(lowCutBypassed := settings.lowCutBypass);
      monoChain := monoChain.(highCutBypassed := settings.highCutBypass);
      monoChain := monoChain.(peakBypassed := settings.peakBypass);
      monoChain := monoChain.(peak := Designed(PeakDesign, 0, settings, sampleRate));
      monoChain := monoChain.(lowCut := CutFilterFor(LowCutDesign, settings.lowCutSlope, settings, sampleRate));
      monoChain := monoChain.(highCut := CutFilterFor(HighCutDesign, settings.highCutSlope, settings, sampleRate));
      chainUpdates := chainUpdates + 1;
    }

    /** timerCallback: when analysis is enabled, both path generators run
        over the analysis area; then, exactly when the flag was raised, the
        flag is lowered and the chain rebuilt. `settings` and `sampleRate`
        are what the processor reports at this tick. */
    method TimerCallback(settings: ChainSettings, sampleRate: real)
      requires Valid()
      modifies this, leftChannelPathGenerator, rightChannelPathGenerator
      modifies leftChannelPathGenerator.monoBuffer, rightChannelPathGenerator.monoBuffer
      ensures Valid()
      ensures !parametersChanged
      ensures old(parametersChanged) ==>
        monoChain == UpdatedChain(settings, sampleRate) && chainUpdates == old(chainUpdates) + 1
      ensures !old(parametersChanged) ==>
        monoChain == old(monoChain) && chainUpdates == old(chainUpdates)
      ensures isFFTAnalysisEnabled == old(isFFTAnalysisEnabled)
      ensures width == old(width) && height == old(height)
      ensures old(isFFTAnalysisEnabled) ==>
        leftChannelPathGenerator.ProcessedFrom(AnalysisArea(width, height), sampleRate) &&
        rightChannelPathGenerator.ProcessedFrom(AnalysisArea(width, height), sampleRate)
      ensures !old(isFFTAnalysisEnabled) ==>
        unchanged(leftChannelPathGenerator, rightChannelPathGenerator) &&
        unchanged(leftChannelPathGenerator.monoBuffer, rightChannelPathGenerator.monoBuffer)
    {
      if isFFTAnalysisEnabled {
        var fftBounds := AnalysisArea(width, height);
        leftChannelPathGenerator.Process(fftBounds, sampleRate);
        rightChannelPathGenerator.Process(fftBounds, sampleRate);
      }
      if parametersChanged {
        parametersChanged := false;
        UpdateChain(settings, sampleRate);
      }
    }
    /** The component living through a sequence of events: each parameter
        change calls the listener, each tick the timer callback, with the
        processor reporting `settings` and `sampleRate` throughout. The flag
        and the number of rebuilds follow the event model above, and the
        chain ends up rebuilt from the snapshot as soon as one tick found
        the flag raised. */
    method Run(events: seq<Event>, settings: ChainSettings, sampleRate: real)
      requires Valid()
      modifies this, leftChannelPathGenerator, rightChannelPathGenerator
      modifies leftChannelPathGenerator.monoBuffer, rightChannelPathGenerator.monoBuffer
      ensures Valid()
      ensures parametersChanged == FlagAfter(old(parametersChanged), events)
      ensures chainUpdates == old(chainUpdates) + UpdatesDuring(old(parametersChanged), events)
      ensures UpdatesDuring(old(parametersChanged), events) > 0 ==> monoChain == UpdatedChain(settings, sampleRate)
      ensures UpdatesDuring(old(parametersChanged), events) == 0 ==> monoChain == old(monoChain)
      ensures isFFTAnalysisEnabled == old(isFFTAnalysisEnabled)
      ensures width == old(width) && height == old(height)
    {
      ghost var flag0 := parametersChanged;
      for i := 0 to |events|
        invariant Valid()
        invariant parametersChanged == FlagAfter(flag0, events[..i])
        invariant chainUpdates == old(chainUpdates) + UpdatesDuring(flag0, events[..i])
        invariant UpdatesDuring(flag0, events[..i]) > 0 ==> monoChain == UpdatedChain(settings, sampleRate)
        invariant UpdatesDuring(flag0, events[..i]) == 0 ==> monoChain == old(monoChain)
        invariant isFFTAnalysisEnabled == old(isFFTAnalysisEnabled)
        invariant width == old(width) && height == old(height)
      {
        assert events[..i + 1][..i] == events[..i];
        match events[i]
        case ParameterChange => ParameterValueChanged(i, 0.0);
        case TimerTick => TimerCallback(settings, sampleRate);
      }
      assert events[..|events|] == events;
    }

    /** paint's response loop over the current chain and the analysis area's width. */
    method ResponseMagnitudes(gain: (Stage, nat) -> real) returns (magnitudes: seq<real>)
      requires Valid()
      ensures |magnitudes| == AnalysisArea(width, height).w
      ensures forall i :: 0 <= i < |magnitudes| ==>
        magnitudes[i] == Product(ContributingStages(monoChain), gain, i)
    {
      magnitudes := Magnitudes(monoChain, AnalysisArea(width, height).w, gain);
    }
  }
}
