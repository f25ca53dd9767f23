/** generate_health_data: n independent records, one per loop iteration. A record
    draws a latent state of health and labels it Good (0) or Bad (1) by comparing a
    unit draw with the sigmoid of that state of health. Six columns are derived from
    the state of health with noise and a clip: Cycle_Count is the floor of its
    clipped value, the other five are rounded. SoC and DoD are independent uniform
    draws, rounded but not clipped. Every record reads exactly ten draws. */
module HealthData {
  import opened Rounding
  import opened Draws
  import opened Dataset

  /** One row of the health table; the fields follow its column order. */
  datatype HealthRow = HealthRow(
    soc: real, internalRes: real, cycleCount: int, dod: real, cellImbalance: real,
    coulombicEff: real, polVoltage: real, stressIndex: real, labelHealth: int)

  /** The number of draws one record reads. */
  const HealthRecordWidth: nat := 10

  /** The label: Good (0) when the unit draw u is below the probability of a good
      battery, Bad (1) otherwise. */
  function HealthLabel(u: real, probGood: real): (cls: int)
    ensures cls == 0 || cls == 1
    ensures cls == 0 <==> u < probGood
  {
    if u < probGood then 0 else 1
  }

  /** int(max(0, x)): the integer part of the clipped value. */
  function CycleCount(raw: real): (count: int)
    ensures 0 <= count
    ensures count as real <= Max(0.0, raw) < count as real + 1.0
  {
    Max(0.0, raw).Floor
  }

  /** The columns from the latent state of health, the label and the eight values
      drawn after the label: the cycle-count noise, the resistance noise, the depth
      of discharge, the state of charge and the noises of imbalance, efficiency,
      polarisation and stress. */
  function HealthRowOf(soh: real, cls: int, cycleNoise: real, resNoise: real, dod: real,
                       soc: real, imbalanceNoise: real, effNoise: real, polNoise: real,
                       stressNoise: real): (row: HealthRow)
    ensures row.labelHealth == cls
  {
    var cycleCount := CycleCount((100.0 - soh) * 50.0 + cycleNoise);
    var internalRes := Max(50.0, (150.0 - soh) + resNoise);
    HealthRow(
      Round(soc, 1),
      Round(internalRes, 1),
      cycleCount,
      Round(dod, 2),
      Round(Max(0.0, (100.0 - soh) / 500.0 + imbalanceNoise), 3),
      Round(Min(100.0, 95.0 + soh / 25.0 + effNoise), 2),
      Round(Max(0.0, (100.0 - soh) / 200.0 + polNoise), 2),
      Round(Max(0.0, cycleCount as real / 1000.0 + stressNoise), 2),
      cls)
  }

  /** The latent state of health of the record that starts at `at`. */
  function LatentSoh(d: nat -> real, at: nat): real
  {
    Sample(Uniform(60.0, 100.0), d(at))
  }

  /** One record, reading the draws from index `at`; `probGood` is the sigmoid that
      maps a state of health to the probability of the label Good. */
  function HealthRecord(probGood: real -> real, d: nat -> real, at: nat): (r: Drawn<HealthRow>)
    ensures r.next == at + HealthRecordWidth
  {
    var soh := LatentSoh(d, at);
    Drawn(HealthRowOf(soh, HealthLabel(d(at + 1), probGood(soh)),
            Sample(Normal(0.0, 500.0), d(at + 2)), Sample(Normal(0.0, 20.0), d(at + 3)),
            Sample(Uniform(10.0, 90.0), d(at + 4)), Sample(Uniform(10.0, 100.0), d(at + 5)),
            Sample(Normal(0.0, 0.05), d(at + 6)), Sample(Normal(0.0, 1.0), d(at + 7)),
            Sample(Normal(0.0, 0.05), d(at + 8)), Sample(Normal(0.0, 0.5), d(at + 9))),
          at + HealthRecordWidth)
  }

  /** The clipping floors and ceilings of the health columns. */
  predicate HealthRowClipped(row: HealthRow)
  {
    0 <= row.cycleCount && 50.0 <= row.internalRes && row.coulombicEff <= 100.0 &&
    0.0 <= row.cellImbalance && 0.0 <= row.polVoltage && 0.0 <= row.stressIndex
  }

  predicate HealthRowValid(row: HealthRow)
  {
    HealthRowClipped(row) && (row.labelHealth == 0 || row.labelHealth == 1)
  }

  lemma FiftyAndHundredHaveDecimals()
    ensures HasDecimals(50.0, 1) && HasDecimals(100.0, 2)
  {
    assert HasDecimals(500.0, 0);
    assert HasDecimals(1000.0, 1) by { assert HasDecimals(10000.0, 0); }
  }

  /** A floor of 50 or a ceiling of 100 survives rounding, and the cycle count is a
      non-negative integer, whatever the draws. */
  lemma HealthRowClippedAlways(soh: real, cls: int, cycleNoise: real, resNoise: real, dod: real,
                               soc: real, imbalanceNoise: real, effNoise: real, polNoise: real,
                               stressNoise: real)
    ensures HealthRowClipped(HealthRowOf(soh, cls, cycleNoise, resNoise, dod, soc,
                                         imbalanceNoise, effNoise, polNoise, stressNoise))
  {
    FiftyAndHundredHaveDecimals();
    RoundAtLeast(Max(50.0, (150.0 - soh) + resNoise), 50.0, 1);
    RoundAtMost(Min(100.0, 95.0 + soh / 25.0 + effNoise), 100.0, 2);
  }

  /** Every record is clipped, its label is Good or Bad, and it is Good exactly when
      the second draw is below the probability of a good battery at the drawn state
      of health. */
  lemma HealthRecordFacts(probGood: real -> real, d: nat -> real, at: nat)
    ensures HealthRowValid(HealthRecord(probGood, d, at).value)
    ensures HealthRecord(probGood, d, at).value.labelHealth == 0 <==> d(at + 1) < probGood(LatentSoh(d, at))
  {
    var soh := LatentSoh(d, at);
    HealthRowClippedAlways(soh, HealthLabel(d(at + 1), probGood(soh)),
      Sample(Normal(0.0, 500.0), d(at + 2)), Sample(Normal(0.0, 20.0), d(at + 3)),
      Sample(Uniform(10.0, 90.0), d(at + 4)), Sample(Uniform(10.0, 100.0), d(at + 5)),
      Sample(Normal(0.0, 0.05), d(at + 6)), Sample(Normal(0.0, 1.0), d(at + 7)),
      Sample(Normal(0.0, 0.05), d(at + 8)), Sample(Normal(0.0, 0.5), d(at + 9)));
  }

  /** For unit draws the latent state of health lies in [60, 100]. */
  lemma LatentSohWithin(d: nat -> real, at: nat)
    requires 0.0 <= d(at) < 1.0
    ensures 60.0 <= LatentSoh(d, at) <= 100.0
  {
    UniformSampleWithin(60.0, 100.0, d(at));
  }

  /** The record synthesizer, as the dataset builder calls it. */
  function HealthStep(probGood: real -> real, d: nat -> real): nat -> Drawn<HealthRow>
  {
    (at: nat) => HealthRecord(probGood, d, at)
  }

  /** generate_health_data(n): n records, one per iteration. */
  function HealthDataset(probGood: real -> real, n: nat, d: nat -> real, at: nat): Drawn<seq<HealthRow>>
  {
    RowsN(HealthStep(probGood, d), n, at)
  }

  /** The dataset has exactly n valid rows; row i is the record read from draw
      at + 10 i on, and the whole dataset reads 10 n draws. */
  lemma HealthDatasetFacts(probGood: real -> real, n: nat, d: nat -> real, at: nat)
    ensures |HealthDataset(probGood, n, d, at).value| == n
    ensures HealthDataset(probGood, n, d, at).next == at + HealthRecordWidth * n
    ensures forall i :: 0 <= i < n ==>
              HealthDataset(probGood, n, d, at).value[i] == HealthRecord(probGood, d, at + HealthRecordWidth * i).value
    ensures forall i :: 0 <= i < n ==> HealthRowValid(HealthDataset(probGood, n, d, at).value[i])
  {
    var step := HealthStep(probGood, d);
    RowsNFixedWidth(step, HealthRecordWidth, n, at);
    forall p: nat
      ensures HealthRowValid(step(p).value)
    {
      HealthRecordFacts(probGood, d, p);
    }
    RowsNAll(step, n, at, HealthRowValid);
  }

  /** The loop body of generate_health_data on the shared stream. */
  method SynthesizeHealthRecord(probGood: real -> real, rng: Stream) returns (row: HealthRow)
    modifies rng
    ensures Drawn(row, rng.cursor) == HealthRecord(probGood, rng.source, old(rng.cursor))
  {
    ghost var start := rng.cursor;
    var soh := rng.Draw(Uniform(60.0, 100.0));
    var pGood := probGood(soh);
    var u := rng.Next();
    var cls := if u < pGood then 0 else 1;
    var cycleNoise := rng.Draw(Normal(0.0, 500.0));
    var resNoise := rng.Draw(Normal(0.0, 20.0));
    var dod := rng.Draw(Uniform(10.0, 90.0));
    var soc := rng.Draw(Uniform(10.0, 100.0));
    var imbalanceNoise := rng.Draw(Normal(0.0, 0.05));
    var effNoise := rng.Draw(Normal(0.0, 1.0));
    var polNoise := rng.Draw(Normal(0.0, 0.05));
    var stressNoise := rng.Draw(Normal(0.0, 0.5));
    assert rng.cursor == start + HealthRecordWidth;
    assert cls == HealthLabel(rng.source(start + 1), probGood(LatentSoh(rng.source, start)));
    row := HealthRowOf(soh, cls, cycleNoise, resNoise, dod, soc, imbalanceNoise, effNoise,
                       polNoise, stressNoise);
  }

  /** generate_health_data(n_samples) on the shared stream. */
  method GenerateHealthData(probGood: real -> real, nSamples: nat, rng: Stream) returns (data: seq<HealthRow>)
    modifies rng
    ensures Drawn(data, rng.cursor) == HealthDataset(probGood, nSamples, rng.source, old(rng.cursor))
    ensures |data| == nSamples && rng.cursor == old(rng.cursor) + HealthRecordWidth * nSamples
    ensures forall i :: 0 <= i < |data| ==> HealthRowValid(data[i])
  {
    ghost var start := rng.cursor;
    data := [];
    for i := 0 to nSamples
      invariant Drawn(data, rng.cursor) == RowsN(HealthStep(probGood, rng.source), i, start)
    {
      var row := SynthesizeHealthRecord(probGood, rng);
      data := data + [row];
    }
    HealthDatasetFacts(probGood, nSamples, rng.source, start);
  }
}
