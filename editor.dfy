/** The editor's bypass buttons. Each band's button, when clicked, enables
    that band's sliders exactly when the button is not toggled on (a
    toggled bypass greys out the band's controls); the analyser button
    instead switches the analyser on exactly when it is toggled on. A
    handler touches nothing but its own band. */
module EditorControls {
  import opened Response

  class Editor {
    const responseCurve: ResponseCurve

    var lowCutBypassToggle: bool
    var highCutBypassToggle: bool
    var peakBypassToggle: bool
    var analyzerBypassToggle: bool

    var peakFreqEnabled: bool
    var peakGainEnabled: bool
    var peakQEnabled: bool
    var lowCutFreqEnabled: bool
    var lowCutSlopeEnabled: bool
    var highCutFreqEnabled: bool
    var highCutSlopeEnabled: bool

    /** The low-cut sliders are enabled exactly when the band is not bypassed. */
    predicate LowCutFollowsButton()
      reads this
    {
      lowCutFreqEnabled == !lowCutBypassToggle && lowCutSlopeEnabled == !lowCutBypassToggle
    }

    predicate HighCutFollowsButton()
      reads this
    {
      highCutFreqEnabled == !highCutBypassToggle && highCutSlopeEnabled == !highCutBypassToggle
    }

    predicate PeakFollowsButton()
      reads this
    {
      peakFreqEnabled == !peakBypassToggle && peakGainEnabled == !peakBypassToggle
        && peakQEnabled == !peakBypassToggle
    }

    /** The analyser runs exactly when its button is on. */
    predicate AnalyzerFollowsButton()
      reads this, responseCurve
    {
      responseCurve.isFFTAnalysisEnabled == analyzerBypassToggle
    }

    /** Every control agrees with its button. */
    predicate ControlsFollowButtons()
      reads this, responseCurve
    {
      LowCutFollowsButton() && HighCutFollowsButton() && PeakFollowsButton() && AnalyzerFollowsButton()
    }

    /** Buttons start off and sliders enabled; the analyser state is the
        response curve's. */
    constructor(curve: ResponseCurve)
      ensures responseCurve == curve
      ensures !lowCutBypassToggle && !highCutBypassToggle && !peakBypassToggle && !analyzerBypassToggle
      ensures LowCutFollowsButton() && HighCutFollowsButton() && PeakFollowsButton()
    {
      responseCurve := curve;
      lowCutBypassToggle, highCutBypassToggle, peakBypassToggle, analyzerBypassToggle := false, false, false, false;
      peakFreqEnabled, peakGainEnabled, peakQEnabled := true, true, true;
      lowCutFreqEnabled, lowCutSlopeEnabled := true, true;
      highCutFreqEnabled, highCutSlopeEnabled := true, true;
    }

    /** lowCutBypassButton.onClick */
    method LowCutBypassClicked()
      modifies this
      ensures LowCutFollowsButton()
      ensures lowCutBypassToggle == old(lowCutBypassToggle)
      ensures highCutBypassToggle == old(highCutBypassToggle) && peakBypassToggle == old(peakBypassToggle)
      ensures analyzerBypassToggle == old(analyzerBypassToggle)
      ensures highCutFreqEnabled == old(highCutFreqEnabled) && highCutSlopeEnabled == old(highCutSlopeEnabled)
      ensures peakFreqEnabled == old(peakFreqEnabled) && peakGainEnabled == old(peakGainEnabled)
      ensures peakQEnabled == old(peakQEnabled)
    {
      var bypassed := lowCutBypassToggle;
      lowCutFreqEnabled := !bypassed;
      lowCutSlopeEnabled := !bypassed;
    }

    /** highCutBypassButton.onClick */
    method HighCutBypassClicked()
      modifies this
      ensures HighCutFollowsButton()
      ensures highCutBypassToggle == old(highCutBypassToggle)
      ensures lowCutBypassToggle == old(lowCutBypassToggle) && peakBypassToggle == old(peakBypassToggle)
      ensures analyzerBypassToggle == old(analyzerBypassToggle)
      ensures lowCutFreqEnabled == old(lowCutFreqEnabled) && lowCutSlopeEnabled == old(lowCutSlopeEnabled)
      ensures peakFreqEnabled == old(peakFreqEnabled) && peakGainEnabled == old(peakGainEnabled)
      ensures peakQEnabled == old(peakQEnabled)
    {
      var bypassed := highCutBypassToggle;
      highCutFreqEnabled := !bypassed;
      highCutSlopeEnabled := !bypassed;
    }

    /** peakBypassButton.onClick */
    method PeakBypassClicked()
      modifies this
      ensures PeakFollowsButton()
      ensures peakBypassToggle == old(peakBypassToggle)
      ensures lowCutBypassToggle == old(lowCutBypassToggle) && highCutBypassToggle == old(highCutBypassToggle)
      ensures analyzerBypassToggle == old(analyzerBypassToggle)
      ensures lowCutFreqEnabled == old(lowCutFreqEnabled) && lowCutSlopeEnabled == old(lowCutSlopeEnabled)
      ensures highCutFreqEnabled == old(highCutFreqEnabled) && highCutSlopeEnabled == old(highCutSlopeEnabled)
    {
      var bypassed := peakBypassToggle;
      peakFreqEnabled := !bypassed;
      peakGainEnabled := !bypassed;
      peakQEnabled := !bypassed;
    }

    /** analyzerBypassButton.onClick: the toggle state is passed on as the
        analyser's enabled state, the opposite sense of the band buttons. */
    method AnalyzerBypassClicked()
      requires responseCurve.Valid()
      modifies responseCurve
      ensures responseCurve.Valid()
      ensures AnalyzerFollowsButton()
      ensures responseCurve.parametersChanged == old(responseCurve.parametersChanged)
      ensures responseCurve.monoChain == old(responseCurve.monoChain)
      ensures responseCurve.width == old(responseCurve.width) && responseCurve.height == old(responseCurve.height)
    {
      var enabled := analyzerBypassToggle;
      responseCurve.SetFFTAnalysisEnabled(enabled);
    }
  }
}
