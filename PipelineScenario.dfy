/** Scenario presets for stage probabilities (lib/pipeline-scenario.ts): every
    stage's percentage is shifted by the preset's amount and pulled back into
    [0, 100]. The record of stage defaults is a map from stage name to percent. */
module PipelineScenario {
  import opened Numbers

  datatype ScenarioPreset = Conservative | Current | Aggressive

  /** presetShift */
  function PresetShift(preset: ScenarioPreset): (r: real)
    ensures preset == Conservative ==> r == -8.0
    ensures preset == Current ==> r == 0.0
    ensures preset == Aggressive ==> r == 8.0
  {
    match preset
    case Conservative => -8.0
    case Current => 0.0
    case Aggressive => 8.0
  }

  /** applyScenarioPreset: the same stages, each value shifted and clamped to [0, 100]. */
  function ApplyScenarioPreset(stageDefaults: map<string, real>, preset: ScenarioPreset): (r: map<string, real>)
    ensures r.Keys == stageDefaults.Keys
    ensures forall stage :: stage in r ==> 0.0 <= r[stage] <= 100.0
  {
    map stage | stage in stageDefaults :: Clamp(stageDefaults[stage] + PresetShift(preset), 0.0, 100.0)
  }

  /** Where the clamp is not reached, a stage moves by exactly the preset's shift; where it is,
      the stage sits at the bound it crossed. */
  lemma ShiftOrClamp(stageDefaults: map<string, real>, preset: ScenarioPreset, stage: string)
    requires stage in stageDefaults
    ensures var v := stageDefaults[stage] + PresetShift(preset);
      var r := ApplyScenarioPreset(stageDefaults, preset)[stage];
      && (0.0 <= v <= 100.0 ==> r == v)
      && (v < 0.0 ==> r == 0.0)
      && (v > 100.0 ==> r == 100.0)
  {
  }

  /** "current" leaves values already in [0, 100] unchanged. */
  lemma CurrentIsIdentity(stageDefaults: map<string, real>)
    requires forall stage :: stage in stageDefaults ==> 0.0 <= stageDefaults[stage] <= 100.0
    ensures ApplyScenarioPreset(stageDefaults, Current) == stageDefaults
  {
  }

  /** Per stage, conservative <= current <= aggressive, and each differs from current by at most 8. */
  lemma PresetsOrdered(stageDefaults: map<string, real>, stage: string)
    requires stage in stageDefaults
    ensures var c := ApplyScenarioPreset(stageDefaults, Conservative)[stage];
      var n := ApplyScenarioPreset(stageDefaults, Current)[stage];
      var a := ApplyScenarioPreset(stageDefaults, Aggressive)[stage];
      c <= n <= a && n - c <= 8.0 && a - n <= 8.0
  {
    var v := stageDefaults[stage];
    ClampMonotone(v - 8.0, v, 0.0, 100.0);
    ClampMonotone(v, v + 8.0, 0.0, 100.0);
  }

  /** The examples of the unit tests. */
  lemma PresetExamples()
    ensures var d := map["PROSPECT" := 20.0, "LEGAL" := 85.0];
      && ApplyScenarioPreset(d, Conservative)["PROSPECT"] == 12.0
      && ApplyScenarioPreset(d, Aggressive)["PROSPECT"] == 28.0
      && ApplyScenarioPreset(d, Conservative)["LEGAL"] == 77.0
      && ApplyScenarioPreset(d, Aggressive)["LEGAL"] == 93.0
    ensures var low := map["PROSPECT" := 2.0, "LEGAL" := 99.0];
      && ApplyScenarioPreset(low, Conservative)["PROSPECT"] == 0.0
      && ApplyScenarioPreset(low, Aggressive)["LEGAL"] == 100.0
  {
  }
}
