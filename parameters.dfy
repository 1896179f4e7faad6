/** The plugin's automatable parameters as createParameterLayout declares
    them, and the parameter IDs the editor attaches its controls to. */
module Parameters {
  import opened Text
  import opened Chain

  /** A normalisable range: bounds, step interval and skew factor. */
  datatype Range = Range(start: real, end: real, interval: real, skew: real)

  datatype Parameter =
    | FloatParameter(id: string, name: string, range: Range, default: real)
    | ChoiceParameter(id: string, name: string, choices: seq<string>, defaultIndex: nat)
    | BoolParameter(id: string, name: string, defaultValue: bool)

  /** The choices offered for both cut slopes: 12, 24, 36 and 48 dB per octave. */
  function SlopeChoices(): (choices: seq<string>)
    ensures choices == ["12 dB/oct", "24 dB/oct", "36 dB/oct", "48 dB/oct"]
  {
    var r := seq(4, i requires 0 <= i < 4 => NatToString(12 + i * 12) + " dB/oct");
    assert r[0] == "12 dB/oct" by { assert NatToString(12) == "12"; }
    assert r[1] == "24 dB/oct" by { assert NatToString(24) == "24"; }
    assert r[2] == "36 dB/oct" by { assert NatToString(36) == "36"; }
    assert r[3] == "48 dB/oct" by { assert NatToString(48) == "48"; }
    r
  }

  /** The slope a cut's choice names is 12 dB/oct per stage that the
      response curve's chain engages for it: choice i, once the chain is
      updated, engages i + 1 stages of that cut. */
  lemma SlopeLabelCountsStages(settings: ChainSettings, sampleRate: real)
    ensures !settings.lowCutBypass ==>
      SlopeChoices()[settings.lowCutSlope] ==
        NatToString(12 * |CutPart(UpdatedChain(settings, sampleRate), LowCut)|) + " dB/oct"
    ensures !settings.highCutBypass ==>
      SlopeChoices()[settings.highCutSlope] ==
        NatToString(12 * |CutPart(UpdatedChain(settings, sampleRate), HighCut)|) + " dB/oct"
  {
    EngagedPrefix(LowCutDesign, settings.lowCutSlope, settings, sampleRate, CutStages);
    EngagedPrefix(HighCutDesign, settings.highCutSlope, settings, sampleRate, CutStages);
    SlopeLabelOfStages(settings.lowCutSlope);
    SlopeLabelOfStages(settings.highCutSlope);
  }

  /** Choice i reads 12 (i + 1) dB/oct. */
  lemma SlopeLabelOfStages(i: SlopeIndex)
    ensures SlopeChoices()[i] == NatToString(12 * (i + 1)) + " dB/oct"
  {
  }

  const FrequencyRange: Range := Range(20.0, 20000.0, 1.0, 1.0)

  /** createParameterLayout, as written: seven parameters, none of them an
      on/off switch. */
  function ParameterLayout(): (layout: seq<Parameter>)
    ensures |layout| == 7
    ensures forall i :: 0 <= i < |layout| ==> !layout[i].BoolParameter?
  {
    [ FloatParameter("LowCut_Freq", "LowCut_Freq", FrequencyRange, 20.0),
      ChoiceParameter("LowCut_Slope", "LowCut_Slope", SlopeChoices(), 0),
      FloatParameter("HighCut_Freq", "HighCut_Freq", FrequencyRange, 20000.0),
      ChoiceParameter("HighCut_Slope", "HighCut_Slope", SlopeChoices(), 0),
      FloatParameter("Peak_Freq", "Peak_Freq", FrequencyRange, 750.0),
      FloatParameter("Peak_Gain", "Peak_Gain", Range(-24.0, 24.0, 0.5, 1.0), 0.0),
      FloatParameter("Peak_Q", "Peak_Q", Range(0.1, 10.0, 0.05, 1.0), 1.0) ]
  }

  /** A parameter's default is one of the values it can take. */
  predicate DefaultInRange(p: Parameter)
  {
    match p
    case FloatParameter(_, _, r, d) => r.start <= d <= r.end && r.start < r.end && r.interval > 0.0
    case ChoiceParameter(_, _, cs, d) => d < |cs|
    case BoolParameter(_, _, _) => true
  }

  /** What the parameter tree needs of a layout: unique IDs and valid defaults. */
  predicate WellFormed(layout: seq<Parameter>)
  {
    (forall i, j :: 0 <= i < j < |layout| ==> layout[i].id != layout[j].id) &&
    (forall i :: 0 <= i < |layout| ==> DefaultInRange(layout[i]))
  }

  function Lookup(layout: seq<Parameter>, id: string): (p: Option<Parameter>)
    ensures p.Some? <==> exists i :: 0 <= i < |layout| && layout[i].id == id
    ensures p.Some? ==> p.value in layout && p.value.id == id
  {
    if layout == [] then None
    else if layout[0].id == id then Some(layout[0])
    else
      var p := Lookup(layout[1..], id);
      assert forall i :: 1 <= i < |layout| ==> layout[i] == layout[1..][i - 1];
      p
  }

  lemma LayoutIdsDistinct()
    ensures forall i, j :: 0 <= i < j < |ParameterLayout()| ==> ParameterLayout()[i].id != ParameterLayout()[j].id
  {
    var l := ParameterLayout();
    assert l[0].id != l[1].id && l[1].id != l[3].id && l[4].id != l[5].id && l[5].id != l[6].id;
  }

  /** Every default lies within its range, the slope choices default to the
      first (12 dB/oct) option, and the seven IDs are distinct. */
  lemma ParameterLayoutWellFormed()
    ensures WellFormed(ParameterLayout())
    ensures |ParameterLayout()| == 7
    ensures Lookup(ParameterLayout(), "LowCut_Slope") == Some(ChoiceParameter("LowCut_Slope", "LowCut_Slope", SlopeChoices(), 0))
    ensures Lookup(ParameterLayout(), "HighCut_Slope") == Some(ChoiceParameter("HighCut_Slope", "HighCut_Slope", SlopeChoices(), 0))
  {
    LayoutIdsDistinct();
  }

  /** The IDs the editor's sliders and buttons attach to. */
  const EditorAttachmentIds: seq<string> := [
    "Peak_Freq", "Peak_Gain", "Peak_Q", "LowCut_Freq", "LowCut_Slope",
    "HighCut_Freq", "HighCut_Slope",
    "LowCut_Bypass", "HighCut_Bypass", "Peak_Bypass", "Analyzer_Bypass"]

  /** As written, the four bypass buttons attach to IDs the layout never
      declares, so looking them up finds nothing. */
  lemma BypassAttachmentsUnresolved()
    ensures forall k :: 7 <= k < |EditorAttachmentIds| ==>
      Lookup(ParameterLayout(), EditorAttachmentIds[k]).None?
    ensures forall k :: 0 <= k < 7 ==> Lookup(ParameterLayout(), EditorAttachmentIds[k]).Some?
  {
    var l := ParameterLayout();
    LayoutIdsLackBypassSuffix();
    ButtonIdsEndWithBypass();
    forall k | 7 <= k < |EditorAttachmentIds|
      ensures Lookup(l, EditorAttachmentIds[k]).None?
    {
      var id := EditorAttachmentIds[k];
      forall i | 0 <= i < |l| ensures l[i].id != id {
        assert !EndsWithBypass(l[i].id) && EndsWithBypass(id);
      }
    }
    SliderAttachmentsResolve();
  }

  lemma ButtonIdsEndWithBypass()
    ensures forall k :: 7 <= k < |EditorAttachmentIds| ==> EndsWithBypass(EditorAttachmentIds[k])
  {
  }

  /** The seven sliders' IDs are all declared. */
  lemma SliderAttachmentsResolve()
    ensures forall k :: 0 <= k < 7 ==> Lookup(ParameterLayout(), EditorAttachmentIds[k]).Some?
  {
    var l := ParameterLayout();
    forall k | 0 <= k < 7 ensures Lookup(l, EditorAttachmentIds[k]).Some? {
      var idx := [4, 5, 6, 0, 1, 2, 3][k];
      assert l[idx].id == EditorAttachmentIds[k];
    }
  }

  /** The four on/off switches the editor's buttons expect, all off by default. */
  const BypassSwitches: seq<Parameter> := [
    BoolParameter("LowCut_Bypass", "LowCut_Bypass", false),
    BoolParameter("HighCut_Bypass", "HighCut_Bypass", false),
    BoolParameter("Peak_Bypass", "Peak_Bypass", false),
    BoolParameter("Analyzer_Bypass", "Analyzer_Bypass", false)]

  /** The layout with the bypass switches declared after the seven parameters. */
  function ParameterLayoutWithBypass(): seq<Parameter>
  {
    ParameterLayout() + BypassSwitches
  }

  lemma WellFormedAppend(a: seq<Parameter>, b: seq<Parameter>)
    requires WellFormed(a) && WellFormed(b)
    requires forall i, j :: 0 <= i < |a| && 0 <= j < |b| ==> a[i].id != b[j].id
    ensures WellFormed(a + b)
  {
    var ab := a + b;
    forall i, j | 0 <= i < j < |ab| ensures ab[i].id != ab[j].id {
      if j < |a| { assert ab[i] == a[i] && ab[j] == a[j]; }
      else if i < |a| { assert ab[i] == a[i] && ab[j] == b[j - |a|]; }
      else { assert ab[i] == b[i - |a|] && ab[j] == b[j - |a|]; }
    }
    forall i | 0 <= i < |ab| ensures DefaultInRange(ab[i]) {
      if i < |a| { assert ab[i] == a[i]; } else { assert ab[i] == b[i - |a|]; }
    }
  }

  predicate EndsWithBypass(s: string) { |s| >= 6 && s[|s| - 6..] == "Bypass" }

  /** The switches' IDs have four different lengths, so they are distinct. */
  lemma BypassSwitchesWellFormed()
    ensures WellFormed(BypassSwitches)
  {
    var b := BypassSwitches;
    assert |b[0].id| == 13 && |b[1].id| == 14 && |b[2].id| == 11 && |b[3].id| == 15;
  }

  lemma BypassSwitchesEndWithBypass()
    ensures forall j :: 0 <= j < |BypassSwitches| ==> EndsWithBypass(BypassSwitches[j].id)
  {
  }

  lemma LayoutIdsLackBypassSuffix()
    ensures forall i :: 0 <= i < |ParameterLayout()| ==> !EndsWithBypass(ParameterLayout()[i].id)
  {
  }

  /** Adding the switches keeps every ID unique and every default valid. */
  lemma ParameterLayoutWithBypassWellFormed()
    ensures WellFormed(ParameterLayoutWithBypass())
  {
    ParameterLayoutWellFormed();
    BypassSwitchesWellFormed();
    BypassSwitchesEndWithBypass();
    LayoutIdsLackBypassSuffix();
    var a, b := ParameterLayout(), BypassSwitches;
    forall i, j | 0 <= i < |a| && 0 <= j < |b| ensures a[i].id != b[j].id {
      assert EndsWithBypass(b[j].id);
      assert !EndsWithBypass(a[i].id);
    }
    WellFormedAppend(a, b);
  }

  /** With the bypass switches declared, every control the editor builds
      finds its parameter. */
  lemma EditorAttachmentsResolve()
    ensures forall k :: 0 <= k < |EditorAttachmentIds| ==>
      Lookup(ParameterLayoutWithBypass(), EditorAttachmentIds[k]).Some?
  {
    var l := ParameterLayoutWithBypass();
    forall k | 0 <= k < |EditorAttachmentIds|
      ensures Lookup(l, EditorAttachmentIds[k]).Some?
    {
      var idx := [4, 5, 6, 0, 1, 2, 3, 7, 8, 9, 10][k];
      assert l[idx].id == EditorAttachmentIds[k];
    }
  }
}
