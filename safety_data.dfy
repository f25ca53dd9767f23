/** generate_safety_data: n labels drawn uniformly from {0, 1, 2} (0 Normal,
    1 Warning, 2 Critical), then one record per label, in label order. A record
    samples five base features from the label's class profile, may add a
    +30/-30 glitch to the pack temperature, may replace the label, and then
    draws, derives, clips and rounds the thirteen feature columns. */
module SafetyData {
  import opened Rounding
  import opened Draws
  import opened Noise
  import opened Dataset

  /** One row of the safety table; the fields follow its column order. */
  datatype SafetyRow = SafetyRow(
    packVoltage: real, packCurrent: real, instantPower: real,
    cellMax: real, cellMin: real, packTemp: real, thermalGrad: real,
    inverterTemp: real, ambientTemp: real, coolantFlow: real,
    isoResistance: real, gasPpm: real, sop: real, labelSafety: int)

  /** The distributions of the five base features for one class. */
  datatype SafetyProfile = SafetyProfile(
    packTemp: Dist, isoRes: Dist, gasPpm: Dist, cellDelta: Dist, coolantFlow: Dist)

  const NormalProfile := SafetyProfile(
    Normal(35.0, 12.0), Normal(420.0, 120.0), Exponential(10.0), Normal(0.03, 0.03), Normal(8.0, 3.0))
  const WarningProfile := SafetyProfile(
    Normal(50.0, 15.0), Normal(350.0, 140.0), Normal(30.0, 25.0), Normal(0.08, 0.06), Normal(6.0, 4.0))
  const CriticalProfile := SafetyProfile(
    Normal(75.0, 25.0), Normal(100.0, 100.0), Normal(150.0, 100.0), Normal(0.35, 0.20), Normal(3.0, 4.0))

  const GlitchRate := 0.10
  /** np.random.choice([-30, 30]) */
  const GlitchOffsets: seq<real> := [-30.0, 30.0]
  const LabelNoiseRate := 0.10

  /** The profile the base features are drawn from: Normal for 0, Warning for 1,
      and the final `else`, Critical, for every other label. */
  function ProfileFor(cls: int): (p: SafetyProfile)
    ensures p == NormalProfile <==> cls == 0
    ensures p == WarningProfile <==> cls == 1
    ensures p == CriticalProfile <==> cls != 0 && cls != 1
  {
    if cls == 0 then NormalProfile
    else if cls == 1 then WarningProfile
    else CriticalProfile
  }

  /** The profiles overlap but are ordered: from Normal to Warning to Critical the
      mean pack temperature, gas reading and cell spread rise, and the mean
      isolation resistance and coolant flow fall. */
  lemma ProfilesOrdered()
    ensures Mean(NormalProfile.packTemp) < Mean(WarningProfile.packTemp) < Mean(CriticalProfile.packTemp)
    ensures Mean(NormalProfile.gasPpm) < Mean(WarningProfile.gasPpm) < Mean(CriticalProfile.gasPpm)
    ensures Mean(NormalProfile.cellDelta) < Mean(WarningProfile.cellDelta) < Mean(CriticalProfile.cellDelta)
    ensures Mean(NormalProfile.isoRes) > Mean(WarningProfile.isoRes) > Mean(CriticalProfile.isoRes)
    ensures Mean(NormalProfile.coolantFlow) > Mean(WarningProfile.coolantFlow) > Mean(CriticalProfile.coolantFlow)
  {
  }

  /** The base features of one record. */
  datatype SafetyBase = SafetyBase(
    packTemp: real, isoRes: real, gasPpm: real, cellDelta: real, coolantFlow: real)

  /** Step 1: the five base draws, in the source's order. */
  function SampleBase(p: SafetyProfile, d: nat -> real, at: nat): (r: Drawn<SafetyBase>)
    ensures r.next == at + 5
  {
    Drawn(SafetyBase(
            Sample(p.packTemp, d(at)), Sample(p.isoRes, d(at + 1)), Sample(p.gasPpm, d(at + 2)),
            Sample(p.cellDelta, d(at + 3)), Sample(p.coolantFlow, d(at + 4))),
          at + 5)
  }

  /** Step 2, the sensor glitch: the pack temperature alone moves, by exactly 30
      either way, and only when the glitch draw is below the rate; the sign draw
      is consumed only then. */
  function Glitch(b: SafetyBase, d: nat -> real, at: nat): (r: Drawn<SafetyBase>)
    ensures r.value == b.(packTemp := r.value.packTemp)
    ensures d(at) < GlitchRate ==> Abs(r.value.packTemp - b.packTemp) == 30.0 && r.next == at + 2
    ensures GlitchRate <= d(at) ==> r.value == b && r.next == at + 1
  {
    if d(at) < GlitchRate then
      Drawn(b.(packTemp := b.packTemp + GlitchOffsets[UniformIndex(2, d(at + 1))]), at + 2)
    else
      Drawn(b, at + 1)
  }

  /** A sign draw in the lower half gives -30, one in the upper half +30. */
  lemma GlitchSign(b: SafetyBase, d: nat -> real, at: nat)
    requires d(at) < GlitchRate && 0.0 <= d(at + 1) < 1.0
    ensures d(at + 1) < 0.5 ==> Glitch(b, d, at).value.packTemp == b.packTemp - 30.0
    ensures 0.5 <= d(at + 1) ==> Glitch(b, d, at).value.packTemp == b.packTemp + 30.0
  {
    if d(at + 1) < 0.5 {
      UniformIndexInverse(2, 0, d(at + 1));
    } else {
      UniformIndexInverse(2, 1, d(at + 1));
    }
  }

  /** The thirteen feature columns (and the label) from the glitched base features,
      the final label and the nine values drawn after label noise: pack voltage and
      current, the raw draw of the power noise, the two cell deviations, the
      gradient noise, the inverter offset, the ambient temperature and the SoP noise. */
  function SafetyColumnsOf(b: SafetyBase, cls: int, packVoltage: real, packCurrent: real, powerZ: real,
                           cellMaxDev: real, cellMinDev: real, gradNoise: real, inverterOffset: real,
                           ambient: real, sopNoise: real): (row: SafetyRow)
    ensures row.labelSafety == cls
  {
    SafetyRow(
      Round(Abs(packVoltage), 2),
      Round(Abs(packCurrent), 2),
      Round(Abs(AddNoise(packVoltage * packCurrent / 1000.0, 0.2, powerZ)), 2),
      Round(4.2 - Abs(cellMaxDev), 2),
      Round(4.2 - Abs(cellMinDev) - Abs(b.cellDelta), 2),
      Round(Max(0.0, b.packTemp), 2),
      Round(Max(0.0, Abs(b.cellDelta * 5.0) + gradNoise), 2),
      Round(Max(0.0, b.packTemp + inverterOffset), 2),
      Round(ambient, 2),
      Round(Max(0.0, b.coolantFlow), 2),
      Round(Max(0.0, b.isoRes), 2),
      Round(Max(0.0, b.gasPpm), 1),
      Round(Max(0.0, 150.0 - b.packTemp * 0.8 + sopNoise), 1),
      cls)
  }

  /** The nine draws after label noise, in the order the row's dict evaluates them. */
  function SafetyColumns(b: SafetyBase, cls: int, d: nat -> real, at: nat): (r: Drawn<SafetyRow>)
    ensures r.next == at + 9 && r.value.labelSafety == cls
  {
    Drawn(SafetyColumnsOf(b, cls,
            Sample(Normal(350.0, 15.0), d(at)), Sample(Normal(60.0, 40.0), d(at + 1)), d(at + 2),
            Sample(Normal(0.0, 0.05), d(at + 3)), Sample(Normal(0.0, 0.05), d(at + 4)),
            Sample(Normal(0.0, 1.0), d(at + 5)), Sample(Normal(5.0, 5.0), d(at + 6)),
            Sample(Normal(25.0, 10.0), d(at + 7)), Sample(Normal(0.0, 10.0), d(at + 8))),
          at + 9)
  }

  /** One record for the drawn label `cls`, reading the draws from index `at`. */
  function SafetyRecord(cls: int, d: nat -> real, at: nat): Drawn<SafetyRow>
  {
    var base := SampleBase(ProfileFor(cls), d, at);
    var glitched := Glitch(base.value, d, base.next);
    var relabelled := LabelNoise(cls, LabelNoiseRate, d, glitched.next);
    SafetyColumns(glitched.value, relabelled.value, d, relabelled.next)
  }

  /** The index of the label-noise draw of the record that starts at `at`. */
  function LabelNoiseDraw(cls: int, d: nat -> real, at: nat): nat
  {
    Glitch(SampleBase(ProfileFor(cls), d, at).value, d, at + 5).next
  }

  /** The clipping floors and ceilings of every column; Ambient_Temp has none. */
  predicate SafetyRowClipped(row: SafetyRow)
  {
    0.0 <= row.packVoltage && 0.0 <= row.packCurrent && 0.0 <= row.instantPower &&
    row.cellMax <= 4.2 && row.cellMin <= 4.2 &&
    0.0 <= row.packTemp && 0.0 <= row.thermalGrad && 0.0 <= row.inverterTemp &&
    0.0 <= row.coolantFlow && 0.0 <= row.isoResistance && 0.0 <= row.gasPpm && 0.0 <= row.sop
  }

  /** The clipping floors and ceilings hold whatever the draws: a floor of 0 or a
      ceiling of 4.2 survives rounding because both have two decimals. */
  lemma SafetyColumnsClipped(b: SafetyBase, cls: int, packVoltage: real, packCurrent: real, powerZ: real,
                             cellMaxDev: real, cellMinDev: real, gradNoise: real, inverterOffset: real,
                             ambient: real, sopNoise: real)
    ensures SafetyRowClipped(SafetyColumnsOf(b, cls, packVoltage, packCurrent, powerZ, cellMaxDev,
                                             cellMinDev, gradNoise, inverterOffset, ambient, sopNoise))
  {
    RoundAtMost(4.2 - Abs(cellMaxDev), 4.2, 2);
    RoundAtMost(4.2 - Abs(cellMinDev) - Abs(b.cellDelta), 4.2, 2);
  }

  /** Cell_Max has a ceiling but no floor: a cell deviation of 4.3 or more in
      magnitude makes it negative. */
  lemma CellMaxHasNoFloor(b: SafetyBase, cls: int, packVoltage: real, packCurrent: real, powerZ: real,
                          cellMaxDev: real, cellMinDev: real, gradNoise: real, inverterOffset: real,
                          ambient: real, sopNoise: real)
    requires 4.3 <= Abs(cellMaxDev)
    ensures SafetyColumnsOf(b, cls, packVoltage, packCurrent, powerZ, cellMaxDev, cellMinDev,
                            gradNoise, inverterOffset, ambient, sopNoise).cellMax < 0.0
  {
    RoundNear(4.2 - Abs(cellMaxDev), 2);
    assert Pow10(2) == 100.0;
  }

  lemma SafetyColumnsDrawnClipped(b: SafetyBase, cls: int, d: nat -> real, at: nat)
    ensures SafetyRowClipped(SafetyColumns(b, cls, d, at).value)
  {
    SafetyColumnsClipped(b, cls,
      Sample(Normal(350.0, 15.0), d(at)), Sample(Normal(60.0, 40.0), d(at + 1)), d(at + 2),
      Sample(Normal(0.0, 0.05), d(at + 3)), Sample(Normal(0.0, 0.05), d(at + 4)),
      Sample(Normal(0.0, 1.0), d(at + 5)), Sample(Normal(5.0, 5.0), d(at + 6)),
      Sample(Normal(25.0, 10.0), d(at + 7)), Sample(Normal(0.0, 10.0), d(at + 8)));
  }

  /** Every record is clipped; its label is the drawn one unless the label-noise
      draw is below the rate, and it stays in {0, 1, 2} when the drawn one is. */
  lemma SafetyRecordFacts(cls: int, d: nat -> real, at: nat)
    ensures SafetyRowClipped(SafetyRecord(cls, d, at).value)
    ensures LabelNoiseRate <= d(LabelNoiseDraw(cls, d, at)) ==> SafetyRecord(cls, d, at).value.labelSafety == cls
    ensures ClassInRange(cls) ==> ClassInRange(SafetyRecord(cls, d, at).value.labelSafety)
  {
    var base := SampleBase(ProfileFor(cls), d, at);
    var glitched := Glitch(base.value, d, base.next);
    var relabelled := LabelNoise(cls, LabelNoiseRate, d, glitched.next);
    SafetyColumnsDrawnClipped(glitched.value, relabelled.value, d, relabelled.next);
  }

  /** The base features come from the profile of the drawn (pre-noise) label:
      the isolation, gas and coolant columns are the clipped draws of that
      profile, and the pack temperature column is its draw shifted by 0, -30 or +30. */
  lemma SafetyBaseFromDrawnLabel(cls: int, d: nat -> real, at: nat)
    ensures var row, p := SafetyRecord(cls, d, at).value, ProfileFor(cls);
            var t := Sample(p.packTemp, d(at));
            row.isoResistance == Round(Max(0.0, Sample(p.isoRes, d(at + 1))), 2) &&
            row.gasPpm == Round(Max(0.0, Sample(p.gasPpm, d(at + 2))), 1) &&
            row.coolantFlow == Round(Max(0.0, Sample(p.coolantFlow, d(at + 4))), 2) &&
            row.packTemp in {Round(Max(0.0, t), 2), Round(Max(0.0, t - 30.0), 2), Round(Max(0.0, t + 30.0), 2)}
  {
    var base := SampleBase(ProfileFor(cls), d, at);
    var glitched := Glitch(base.value, d, base.next);
    var g := glitched.value.packTemp;
    assert g == base.value.packTemp || g == base.value.packTemp - 30.0 || g == base.value.packTemp + 30.0;
  }

  /** Label noise acts after the base features are fixed: when it fires, the label
      it picks changes nothing but the label. Two draw streams that differ only in
      the replacement-label draw give rows equal in every feature column. */
  lemma RelabelOnlyTouchesLabel(cls: int, d: nat -> real, e: nat -> real, at: nat)
    requires d(LabelNoiseDraw(cls, d, at)) < LabelNoiseRate
    requires forall i: nat :: i != LabelNoiseDraw(cls, d, at) + 1 ==> d(i) == e(i)
    ensures SafetyRecord(cls, d, at).value.(labelSafety := 0) == SafetyRecord(cls, e, at).value.(labelSafety := 0)
  {
    var base := SampleBase(ProfileFor(cls), d, at);
    var glitched := Glitch(base.value, d, base.next);
    var p := glitched.next;
    BaseAgrees(ProfileFor(cls), d, e, at);
    GlitchAgrees(base.value, d, e, base.next);
    assert d(p) == e(p);
    var rd, re := LabelNoise(cls, LabelNoiseRate, d, p), LabelNoise(cls, LabelNoiseRate, e, p);
    assert rd.next == re.next == p + 2;
    ColumnsAgree(glitched.value, re.value, d, e, rd.next);
    ColumnsIgnoreLabel(glitched.value, rd.value, re.value, d, rd.next);
  }

  /** The label passes through the columns untouched. */
  lemma ColumnsIgnoreLabel(b: SafetyBase, c1: int, c2: int, d: nat -> real, at: nat)
    ensures SafetyColumns(b, c1, d, at).value.(labelSafety := 0) == SafetyColumns(b, c2, d, at).value.(labelSafety := 0)
  {
  }

  /** Streams that agree on a record stage's draws give that stage the same result. */
  lemma BaseAgrees(pr: SafetyProfile, d: nat -> real, e: nat -> real, at: nat)
    requires forall i: nat :: at <= i < at + 5 ==> d(i) == e(i)
    ensures SampleBase(pr, d, at) == SampleBase(pr, e, at)
  {
    assert d(at) == e(at) && d(at + 1) == e(at + 1) && d(at + 2) == e(at + 2);
    assert d(at + 3) == e(at + 3) && d(at + 4) == e(at + 4);
  }

  lemma GlitchAgrees(b: SafetyBase, d: nat -> real, e: nat -> real, at: nat)
    requires d(at) == e(at) && d(at + 1) == e(at + 1)
    ensures Glitch(b, d, at) == Glitch(b, e, at)
  {
  }

  lemma ColumnsAgree(b: SafetyBase, cls: int, d: nat -> real, e: nat -> real, at: nat)
    requires forall i: nat :: at <= i < at + 9 ==> d(i) == e(i)
    ensures SafetyColumns(b, cls, d, at) == SafetyColumns(b, cls, e, at)
  {
    assert d(at) == e(at) && d(at + 1) == e(at + 1) && d(at + 2) == e(at + 2);
    assert d(at + 3) == e(at + 3) && d(at + 4) == e(at + 4) && d(at + 5) == e(at + 5);
    assert d(at + 6) == e(at + 6) && d(at + 7) == e(at + 7) && d(at + 8) == e(at + 8);
  }

  /** The record synthesizer, as the dataset builder calls it. */
  function SafetyStep(d: nat -> real): (int, nat) -> Drawn<SafetyRow>
  {
    (cls: int, at: nat) => SafetyRecord(cls, d, at)
  }

  /** np.random.choice([0, 1, 2], n) for the draws us. */
  function SafetyLabels(us: seq<real>): (labels: seq<int>)
    ensures |labels| == |us|
    ensures forall i :: 0 <= i < |us| ==> 0 <= labels[i] <= 2
  {
    seq(|us|, i requires 0 <= i < |us| => UniformIndex(3, us[i]) as int)
  }

  /** generate_safety_data(n): the n labels first, then one record per label. */
  function SafetyDataset(n: nat, d: nat -> real, at: nat): Drawn<seq<SafetyRow>>
  {
    var us := Window(d, at, n);
    RowsFor(SafetyStep(d), SafetyLabels(us.value), us.next)
  }

  predicate SafetyRowValid(row: SafetyRow)
  {
    SafetyRowClipped(row) && ClassInRange(row.labelSafety)
  }

  /** Every record the dataset builder can call is valid when its label is. */
  lemma SafetyStepValid(d: nat -> real)
    ensures forall c: int, p: nat :: ClassInRange(c) ==> SafetyRowValid(SafetyStep(d)(c, p).value)
  {
    forall c: int, p: nat | ClassInRange(c)
      ensures SafetyRowValid(SafetyStep(d)(c, p).value)
    {
      SafetyRecordFacts(c, d, p);
    }
  }

  /** The dataset has exactly n rows, every one clipped and labelled in {0, 1, 2}. */
  lemma SafetyDatasetValid(n: nat, d: nat -> real, at: nat)
    ensures |SafetyDataset(n, d, at).value| == n
    ensures forall i :: 0 <= i < n ==> SafetyRowValid(SafetyDataset(n, d, at).value[i])
  {
    var us := Window(d, at, n);
    SafetyStepValid(d);
    RowsForAll(SafetyStep(d), SafetyLabels(us.value), us.next, ClassInRange, SafetyRowValid);
  }

  /** Row i is the record of the i-th drawn label, read from where the first i records stopped. */
  lemma SafetyDatasetInOrder(n: nat, d: nat -> real, at: nat, i: nat)
    requires i < n
    ensures var us := Window(d, at, n);
            var labels := SafetyLabels(us.value);
            SafetyDataset(n, d, at).value[i] == SafetyRecord(labels[i], d, RowsFor(SafetyStep(d), labels[..i], us.next).next).value
  {
    var us := Window(d, at, n);
    RowsForInOrder(SafetyStep(d), SafetyLabels(us.value), us.next, i);
  }

  /** Step 1 of the record body: the base physics, drawn from the class profile. */
  method DrawBase(cls: int, rng: Stream) returns (base: SafetyBase)
    modifies rng
    ensures Drawn(base, rng.cursor) == SampleBase(ProfileFor(cls), rng.source, old(rng.cursor))
  {
    var profile := ProfileFor(cls);
    var packTemp := rng.Draw(profile.packTemp);
    var isoRes := rng.Draw(profile.isoRes);
    var gasPpm := rng.Draw(profile.gasPpm);
    var cellDelta := rng.Draw(profile.cellDelta);
    var coolantFlow := rng.Draw(profile.coolantFlow);
    base := SafetyBase(packTemp, isoRes, gasPpm, cellDelta, coolantFlow);
  }

  /** Step 2: the sensor glitch on the pack temperature. */
  method ApplyGlitch(base: SafetyBase, rng: Stream) returns (glitched: SafetyBase)
    modifies rng
    ensures Drawn(glitched, rng.cursor) == Glitch(base, rng.source, old(rng.cursor))
  {
    var packTemp := base.packTemp;
    var u := rng.Next();
    if u < GlitchRate {
      var sign := rng.Choice(2);
      packTemp := packTemp + GlitchOffsets[sign];
    }
    glitched := base.(packTemp := packTemp);
  }

  /** Feature engineering and the row itself. */
  method DrawColumns(b: SafetyBase, cls: int, rng: Stream) returns (row: SafetyRow)
    modifies rng
    ensures Drawn(row, rng.cursor) == SafetyColumns(b, cls, rng.source, old(rng.cursor))
  {
    var packVoltage := rng.Draw(Normal(350.0, 15.0));
    var packCurrent := rng.Draw(Normal(60.0, 40.0));
    var powerZ := rng.Next();
    var cellMaxDev := rng.Draw(Normal(0.0, 0.05));
    var cellMinDev := rng.Draw(Normal(0.0, 0.05));
    var gradNoise := rng.Draw(Normal(0.0, 1.0));
    var inverterOffset := rng.Draw(Normal(5.0, 5.0));
    var ambient := rng.Draw(Normal(25.0, 10.0));
    var sopNoise := rng.Draw(Normal(0.0, 10.0));
    row := SafetyColumnsOf(b, cls, packVoltage, packCurrent, powerZ, cellMaxDev, cellMinDev,
                           gradNoise, inverterOffset, ambient, sopNoise);
  }

  /** The per-record body of generate_safety_data on the shared stream. */
  method SynthesizeSafetyRecord(drawnLabel: int, rng: Stream) returns (row: SafetyRow)
    modifies rng
    ensures Drawn(row, rng.cursor) == SafetyRecord(drawnLabel, rng.source, old(rng.cursor))
    ensures SafetyRowClipped(row)
    ensures ClassInRange(drawnLabel) ==> ClassInRange(row.labelSafety)
  {
    var base := DrawBase(drawnLabel, rng);
    base := ApplyGlitch(base, rng);
    var cls := ApplyLabelNoise(drawnLabel, LabelNoiseRate, rng);
    row := DrawColumns(base, cls, rng);
    SafetyRecordFacts(drawnLabel, rng.source, old(rng.cursor));
  }

  /** The record loop of generate_safety_data: one record per label, in label order. */
  method SynthesizeSafetyRecords(labels: seq<int>, rng: Stream) returns (data: seq<SafetyRow>)
    modifies rng
    ensures Drawn(data, rng.cursor) == RowsFor(SafetyStep(rng.source), labels, old(rng.cursor))
  {
    ghost var start := rng.cursor;
    data := [];
    for i := 0 to |labels|
      invariant Drawn(data, rng.cursor) == RowsFor(SafetyStep(rng.source), labels[..i], start)
    {
      ghost var before := rng.cursor;
      var row := SynthesizeSafetyRecord(labels[i], rng);
      assert SafetyStep(rng.source)(labels[i], before) == Drawn(row, rng.cursor);
      RowsForSnoc(SafetyStep(rng.source), labels, start, i);
      data := data + [row];
    }
    assert labels[..|labels|] == labels;
  }

  /** generate_safety_data(n_samples) on the shared stream. */
  method GenerateSafetyData(nSamples: nat, rng: Stream) returns (data: seq<SafetyRow>)
    modifies rng
    ensures Drawn(data, rng.cursor) == SafetyDataset(nSamples, rng.source, old(rng.cursor))
    ensures |data| == nSamples
    ensures forall i :: 0 <= i < |data| ==> SafetyRowValid(data[i])
  {
    ghost var start := rng.cursor;
    var us := rng.NextMany(nSamples);
    var labels := SafetyLabels(us);
    data := SynthesizeSafetyRecords(labels, rng);
    SafetyDatasetValid(nSamples, rng.source, start);
  }
}
