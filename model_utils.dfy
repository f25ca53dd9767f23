/** The on-vehicle side of the models: the sensor structs, the three feature
    extractors that fill the caller's feature buffer in place, and the functions
    that turn a predicted class index into its display text. */
module ModelUtils {
  import opened Rounding
  import SafetyData
  import HealthData
  import DriverData

  /** Raw inputs of the safety model. */
  datatype SafetySensors = SafetySensors(
    packVoltage: real, packCurrent: real, cellMaxV: real, cellMinV: real, packTemp: real,
    inverterTemp: real, ambientTemp: real, coolantFlow: real, isoResistance: real, gasPpm: real)

  /** Raw inputs of the health model. */
  datatype HealthSensors = HealthSensors(
    soc: real, internalRes: real, cycleCount: real, dod: real, cellImbalance: real,
    coulombicEff: real, polVoltage: real, stressIndex: real)

  /** Raw inputs of the driver model. */
  datatype DriverSensors = DriverSensors(
    speedAvg: real, brakeFreq: real, brakeIntensity: real, throttleVar: real,
    energyConsumption: real, rangeEst: real)

  const SafetyFeatureCount: nat := 13
  const HealthFeatureCount: nat := 8
  const DriverFeatureCount: nat := 6

  /** Derating of the state of power for a hot pack: 2 per degree above 45 C. */
  function TempDerating(packTemp: real): (r: real)
    ensures 0.0 <= r
    ensures packTemp <= 45.0 ==> r == 0.0
    ensures 45.0 <= packTemp ==> r == (packTemp - 45.0) * 2.0
  {
    Max(0.0, (packTemp - 45.0) * 2.0)
  }

  /** The state-of-power estimate: 150 less the derating, never below 0. */
  function SopEstimate(packTemp: real): (r: real)
    ensures 0.0 <= r <= 150.0
  {
    Max(0.0, 150.0 - TempDerating(packTemp))
  }

  /** Full power up to 45 C, a linear fall of 2 per degree up to 120 C, none beyond. */
  lemma SopPiecewise(packTemp: real)
    ensures packTemp <= 45.0 ==> SopEstimate(packTemp) == 150.0
    ensures 45.0 <= packTemp <= 120.0 ==> SopEstimate(packTemp) == 150.0 - 2.0 * (packTemp - 45.0)
    ensures 120.0 <= packTemp ==> SopEstimate(packTemp) == 0.0
  {
    if 45.0 <= packTemp <= 120.0 {
      assert TempDerating(packTemp) == (packTemp - 45.0) * 2.0 <= 150.0;
    }
  }

  /** A hotter pack never gets more power. */
  lemma SopNonIncreasing(t1: real, t2: real)
    requires t1 <= t2
    ensures SopEstimate(t2) <= SopEstimate(t1)
  {
    assert TempDerating(t1) <= TempDerating(t2);
  }

  /** The thirteen safety features, in the order the safety model expects them. */
  function SafetyFeatureVector(s: SafetySensors): (v: seq<real>)
    ensures |v| == SafetyFeatureCount
  {
    [s.packVoltage, s.packCurrent, (s.packVoltage * s.packCurrent) / 1000.0,
     s.cellMaxV, s.cellMinV, s.packTemp, (s.cellMaxV - s.cellMinV) * 5.0,
     s.inverterTemp, s.ambientTemp, s.coolantFlow, s.isoResistance, s.gasPpm,
     SopEstimate(s.packTemp)]
  }

  /** The eight health features, in declared order. */
  function HealthFeatureVector(s: HealthSensors): (v: seq<real>)
    ensures |v| == HealthFeatureCount
  {
    [s.soc, s.internalRes, s.cycleCount, s.dod, s.cellImbalance, s.coulombicEff,
     s.polVoltage, s.stressIndex]
  }

  /** The six driver features, in declared order. */
  function DriverFeatureVector(s: DriverSensors): (v: seq<real>)
    ensures |v| == DriverFeatureCount
  {
    [s.speedAvg, s.brakeFreq, s.brakeIntensity, s.throttleVar, s.energyConsumption, s.rangeEst]
  }

  /** extract_safety_features: the buffer must hold at least thirteen values; exactly
      the first thirteen are written and the rest of the buffer is unchanged. */
  method ExtractSafetyFeatures(data: SafetySensors, features: array<real>)
    requires features.Length >= SafetyFeatureCount
    modifies features
    ensures features[..SafetyFeatureCount] == SafetyFeatureVector(data)
    ensures features[SafetyFeatureCount..] == old(features[SafetyFeatureCount..])
    ensures features[2] == data.packVoltage * data.packCurrent / 1000.0
    ensures features[6] == (data.cellMaxV - data.cellMinV) * 5.0
    ensures 0.0 <= features[12] <= 150.0
  {
    features[0] := data.packVoltage;
    features[1] := data.packCurrent;
    features[2] := (data.packVoltage * data.packCurrent) / 1000.0;
    features[3] := data.cellMaxV;
    features[4] := data.cellMinV;
    features[5] := data.packTemp;
    features[6] := (data.cellMaxV - data.cellMinV) * 5.0;
    features[7] := data.inverterTemp;
    features[8] := data.ambientTemp;
    features[9] := data.coolantFlow;
    features[10] := data.isoResistance;
    features[11] := data.gasPpm;
    var tempDerating := Max(0.0, (data.packTemp - 45.0) * 2.0);
    features[12] := Max(0.0, 150.0 - tempDerating);
    assert tempDerating == TempDerating(data.packTemp);
    assert features[..SafetyFeatureCount] == SafetyFeatureVector(data) by {
      forall i | 0 <= i < SafetyFeatureCount
        ensures features[i] == SafetyFeatureVector(data)[i]
      {
        if i == 0 {} else if i == 1 {} else if i == 2 {} else if i == 3 {} else if i == 4 {}
        else if i == 5 {} else if i == 6 {} else if i == 7 {} else if i == 8 {} else if i == 9 {}
        else if i == 10 {} else if i == 11 {}
      }
    }
  }

  /** extract_health_features: the first eight cells, nothing else. */
  method ExtractHealthFeatures(data: HealthSensors, features: array<real>)
    requires features.Length >= HealthFeatureCount
    modifies features
    ensures features[..HealthFeatureCount] == HealthFeatureVector(data)
    ensures features[HealthFeatureCount..] == old(features[HealthFeatureCount..])
  {
    features[0] := data.soc;
    features[1] := data.internalRes;
    features[2] := data.cycleCount;
    features[3] := data.dod;
    features[4] := data.cellImbalance;
    features[5] := data.coulombicEff;
    features[6] := data.polVoltage;
    features[7] := data.stressIndex;
  }

  /** extract_driver_features: the first six cells, nothing else. */
  method ExtractDriverFeatures(data: DriverSensors, features: array<real>)
    requires features.Length >= DriverFeatureCount
    modifies features
    ensures features[..DriverFeatureCount] == DriverFeatureVector(data)
    ensures features[DriverFeatureCount..] == old(features[DriverFeatureCount..])
  {
    features[0] := data.speedAvg;
    features[1] := data.brakeFreq;
    features[2] := data.brakeIntensity;
    features[3] := data.throttleVar;
    features[4] := data.energyConsumption;
    features[5] := data.rangeEst;
  }

  /** The feature columns of a generated table row, in the table's column order. */
  function SafetyRowColumns(row: SafetyData.SafetyRow): (v: seq<real>)
    ensures |v| == SafetyFeatureCount
  {
    [row.packVoltage, row.packCurrent, row.instantPower, row.cellMax, row.cellMin,
     row.packTemp, row.thermalGrad, row.inverterTemp, row.ambientTemp, row.coolantFlow,
     row.isoResistance, row.gasPpm, row.sop]
  }

  function HealthRowColumns(row: HealthData.HealthRow): (v: seq<real>)
    ensures |v| == HealthFeatureCount
  {
    [row.soc, row.internalRes, row.cycleCount as real, row.dod, row.cellImbalance,
     row.coulombicEff, row.polVoltage, row.stressIndex]
  }

  function DriverRowColumns(row: DriverData.DriverRow): (v: seq<real>)
    ensures |v| == DriverFeatureCount
  {
    [row.speedAvg, row.brakeFrequency, row.brakeIntensity, row.throttleVariance,
     row.energyConsumption, row.rangeEst]
  }

  /** The sensors whose readings are the measured columns of a safety row. */
  function SafetySensorsOf(row: SafetyData.SafetyRow): SafetySensors
  {
    SafetySensors(row.packVoltage, row.packCurrent, row.cellMax, row.cellMin, row.packTemp,
                  row.inverterTemp, row.ambientTemp, row.coolantFlow, row.isoResistance, row.gasPpm)
  }

  /** The safety extractor puts each measured reading at the index of the training
      column of the same name; only Instant_Power, Thermal_Grad and SoP are
      recomputed on the vehicle. */
  lemma SafetyFeaturesMatchColumns(row: SafetyData.SafetyRow)
    ensures var v, c := SafetyFeatureVector(SafetySensorsOf(row)), SafetyRowColumns(row);
            forall i :: 0 <= i < SafetyFeatureCount && i !in {2, 6, 12} ==> v[i] == c[i]
  {
    var v, c := SafetyFeatureVector(SafetySensorsOf(row)), SafetyRowColumns(row);
    forall i | 0 <= i < SafetyFeatureCount && i !in {2, 6, 12}
      ensures v[i] == c[i]
    {
      if i == 0 {} else if i == 1 {} else if i == 3 {} else if i == 4 {} else if i == 5 {}
      else if i == 7 {} else if i == 8 {} else if i == 9 {} else if i == 10 {} else if i == 11 {}
    }
  }

  /** Health and driver readings taken in the training table's column order are
      passed to the model unchanged and in that order. */
  lemma HealthFeaturesMatchColumns(row: HealthData.HealthRow)
    ensures HealthFeatureVector(HealthSensors(row.soc, row.internalRes, row.cycleCount as real, row.dod,
              row.cellImbalance, row.coulombicEff, row.polVoltage, row.stressIndex)) == HealthRowColumns(row)
  {
  }

  lemma DriverFeaturesMatchColumns(row: DriverData.DriverRow)
    ensures DriverFeatureVector(DriverSensors(row.speedAvg, row.brakeFrequency, row.brakeIntensity,
              row.throttleVariance, row.energyConsumption, row.rangeEst)) == DriverRowColumns(row)
  {
  }

  const Unknown := "UNKNOWN"

  /** get_safety_label */
  function SafetyLabelText(classIdx: int): (text: string)
    ensures text == "NORMAL" <==> classIdx == 0
    ensures text == "WARNING (Thermal/Elec Risk)" <==> classIdx == 1
    ensures text == "CRITICAL FAILURE" <==> classIdx == 2
    ensures text == Unknown <==> !(0 <= classIdx <= 2)
  {
    match classIdx
    case 0 => "NORMAL"
    case 1 => "WARNING (Thermal/Elec Risk)"
    case 2 => "CRITICAL FAILURE"
    case _ => Unknown
  }

  /** get_health_label: only 0 is Good; every other index, negative ones and ones
      above 1 included, reads as Bad. */
  function HealthLabelText(classIdx: int): (text: string)
    ensures text == "GOOD" <==> classIdx == 0
    ensures text == "BAD (Replace/Service)" <==> classIdx != 0
  {
    if classIdx == 0 then "GOOD" else "BAD (Replace/Service)"
  }

  /** get_driver_label */
  function DriverLabelText(classIdx: int): (text: string)
    ensures text == "CITY (Stop-and-Go)" <==> classIdx == 0
    ensures text == "HIGHWAY (Steady)" <==> classIdx == 1
    ensures text == "EMERGENCY (Panic)" <==> classIdx == 2
    ensures text == Unknown <==> !(0 <= classIdx <= 2)
  {
    match classIdx
    case 0 => "CITY (Stop-and-Go)"
    case 1 => "HIGHWAY (Steady)"
    case 2 => "EMERGENCY (Panic)"
    case _ => Unknown
  }

  /** Every label of a generated safety or driver table has its own text, and
      every generated health label is Good (0) or Bad (1). */
  lemma GeneratedLabelsHaveText(n: nat, d: nat -> real, at: nat, probGood: real -> real, i: nat)
    requires i < n
    ensures SafetyLabelText(SafetyData.SafetyDataset(n, d, at).value[i].labelSafety) != Unknown
    ensures DriverLabelText(DriverData.DriverDataset(n, d, at).value[i].labelDriver) != Unknown
    ensures var cls := HealthData.HealthDataset(probGood, n, d, at).value[i].labelHealth;
            cls == 0 || cls == 1
  {
    SafetyData.SafetyDatasetValid(n, d, at);
    DriverData.DriverDatasetValid(n, d, at);
    HealthData.HealthDatasetFacts(probGood, n, d, at);
  }
}
