/** generate_driver_data: n labels drawn from the prior p = [0.5, 0.4, 0.1]
    (0 City, 1 Highway, 2 Emergency), then one record per label, in label order.
    A record first decides the scenario overlaps (a Highway traffic jam, an empty
    night-time city road, aggressive city braking), each with a draw taken only
    when the label matches; then samples speed, brake frequency, throttle variance
    and brake intensity from the scenario's profile, adds proportional noise to
    the speed, may replace the label, and draws energy use and range last. */
module DriverData {
  import opened Rounding
  import opened Draws
  import opened Noise
  import opened Dataset

  /** One row of the driver table; the fields follow its column order. */
  datatype DriverRow = DriverRow(
    speedAvg: real, brakeFrequency: real, brakeIntensity: real, throttleVariance: real,
    energyConsumption: real, rangeEst: real, labelDriver: int)

  const TrafficJamRate := 0.15
  const EmptyCityRate := 0.10
  const PanicCityRate := 0.05
  const SpeedNoiseLevel := 0.1
  const DriverLabelNoiseRate := 0.05

  /** np.random.choice([0, 1, 2], p=[0.5, 0.4, 0.1]) for the unit draw u: the number
      of cumulative probabilities 0.5, 0.9, 1.0 that are at most u (a right-sided
      search of the cumulative distribution), clamped to the last class. */
  function DriverPrior(u: real): (cls: int)
    ensures 0 <= cls <= 2
    ensures cls == 0 <==> u < 0.5
    ensures cls == 1 <==> 0.5 <= u < 0.9
    ensures cls == 2 <==> 0.9 <= u
  {
    var below := (if 0.5 <= u then 1 else 0) + (if 0.9 <= u then 1 else 0) + (if 1.0 <= u then 1 else 0);
    if below > 2 then 2 else below
  }

  /** `guard and np.random.random() < rate`: Python evaluates the draw only when the
      guard holds, so only then is a draw consumed. */
  function GuardedFlag(guard: bool, rate: real, d: nat -> real, at: nat): (r: Drawn<bool>)
    ensures r.value ==> guard
    ensures guard ==> r.next == at + 1 && (r.value <==> d(at) < rate)
    ensures !guard ==> r.next == at && !r.value
  {
    if guard then Drawn(d(at) < rate, at + 1) else Drawn(false, at)
  }

  /** The three scenario-overlap flags. */
  datatype DriverFlags = DriverFlags(trafficJam: bool, emptyCity: bool, panicCity: bool)

  /** The flags in the source's order: traffic jam, empty city, panic city. */
  function DrawFlags(cls: int, d: nat -> real, at: nat): Drawn<DriverFlags>
  {
    var jam := GuardedFlag(cls == 1, TrafficJamRate, d, at);
    var empty := GuardedFlag(cls == 0, EmptyCityRate, d, jam.next);
    var panic := GuardedFlag(cls == 0, PanicCityRate, d, empty.next);
    Drawn(DriverFlags(jam.value, empty.value, panic.value), panic.next)
  }

  /** A traffic jam is possible only on a Highway record and the two city overlaps
      only on a City record; a City record reads two flag draws (empty city, then
      panic), a Highway record one, an Emergency record none. */
  lemma DrawFlagsFacts(cls: int, d: nat -> real, at: nat)
    ensures var r := DrawFlags(cls, d, at);
            (r.value.trafficJam ==> cls == 1) &&
            (r.value.emptyCity || r.value.panicCity ==> cls == 0) &&
            (cls == 0 ==> r.next == at + 2 && (r.value.emptyCity <==> d(at) < EmptyCityRate)
                          && (r.value.panicCity <==> d(at + 1) < PanicCityRate)) &&
            (cls == 1 ==> r.next == at + 1 && (r.value.trafficJam <==> d(at) < TrafficJamRate)) &&
            (cls != 0 && cls != 1 ==> r.next == at && r.value == DriverFlags(false, false, false))
  {
    var jam := GuardedFlag(cls == 1, TrafficJamRate, d, at);
    var empty := GuardedFlag(cls == 0, EmptyCityRate, d, jam.next);
    assert cls == 0 ==> jam.next == at;
  }

  /** The branch of the record body that samples the driving features. */
  datatype Scenario = EmptyCity | PanicCity | City | TrafficJam | Highway | Emergency

  predicate IsCityScenario(s: Scenario)
  {
    s == EmptyCity || s == PanicCity || s == City
  }

  predicate IsHighwayScenario(s: Scenario)
  {
    s == TrafficJam || s == Highway
  }

  /** The if/elif chain: the label decides the outer branch, and inside City the
      empty-city flag is tested before the panic flag. */
  function ScenarioOf(cls: int, flags: DriverFlags): Scenario
  {
    if cls == 0 then
      if flags.emptyCity then EmptyCity else if flags.panicCity then PanicCity else City
    else if cls == 1 then
      if flags.trafficJam then TrafficJam else Highway
    else Emergency
  }

  /** The label alone picks the City, Highway or Emergency branch; inside City the
      empty-city profile wins when both city flags hold, and the panic profile is
      used only without the empty-city flag. */
  lemma ScenarioPrecedence(cls: int, flags: DriverFlags)
    ensures var s := ScenarioOf(cls, flags);
            (IsCityScenario(s) <==> cls == 0) &&
            (IsHighwayScenario(s) <==> cls == 1) &&
            (s == Emergency <==> cls != 0 && cls != 1) &&
            (cls == 0 && flags.emptyCity ==> s == EmptyCity) &&
            (s == PanicCity <==> cls == 0 && !flags.emptyCity && flags.panicCity) &&
            (s == TrafficJam <==> cls == 1 && flags.trafficJam)
  {
  }

  /** The distributions of speed, brake frequency, throttle variance and brake
      intensity for one scenario. */
  datatype DriverProfile = DriverProfile(speed: Dist, brakeFreq: Dist, throttle: Dist, intensity: Dist)

  function ScenarioProfile(s: Scenario): DriverProfile
  {
    match s
    case EmptyCity => DriverProfile(Normal(60.0, 10.0), Normal(5.0, 3.0), Normal(20.0, 10.0), Normal(35.0, 15.0))
    case PanicCity => DriverProfile(Normal(30.0, 10.0), Normal(20.0, 5.0), Normal(20.0, 10.0), Normal(35.0, 15.0))
    case City => DriverProfile(Normal(30.0, 15.0), Normal(15.0, 8.0), Normal(20.0, 10.0), Normal(35.0, 15.0))
    case TrafficJam => DriverProfile(Normal(20.0, 10.0), Normal(12.0, 5.0), Normal(10.0, 5.0), Normal(15.0, 10.0))
    case Highway => DriverProfile(Normal(65.0, 20.0), Normal(3.0, 3.0), Normal(10.0, 5.0), Normal(15.0, 10.0))
    case Emergency => DriverProfile(Uniform(10.0, 100.0), Normal(5.0, 5.0), Normal(50.0, 20.0), Normal(85.0, 15.0))
  }

  /** The overlaps are what their names say: an empty city road is faster on average
      than ordinary city driving and brakes less often, a traffic jam is slower than
      city driving and brakes more often than the open highway, and panic braking has
      the highest mean brake frequency of all six scenarios. */
  lemma ScenarioOverlaps()
    ensures Mean(ScenarioProfile(EmptyCity).speed) > Mean(ScenarioProfile(City).speed)
    ensures Mean(ScenarioProfile(EmptyCity).brakeFreq) < Mean(ScenarioProfile(City).brakeFreq)
    ensures Mean(ScenarioProfile(TrafficJam).speed) < Mean(ScenarioProfile(City).speed)
    ensures Mean(ScenarioProfile(TrafficJam).brakeFreq) > Mean(ScenarioProfile(Highway).brakeFreq)
    ensures forall s: Scenario :: Mean(ScenarioProfile(s).brakeFreq) <= Mean(ScenarioProfile(PanicCity).brakeFreq)
  {
    forall s: Scenario
      ensures Mean(ScenarioProfile(s).brakeFreq) <= Mean(ScenarioProfile(PanicCity).brakeFreq)
    {
      match s
      case EmptyCity =>
      case PanicCity =>
      case City =>
      case TrafficJam =>
      case Highway =>
      case Emergency =>
    }
  }

  /** The four scenario features of one record. */
  datatype DriverBase = DriverBase(speed: real, brakeFreq: real, throttle: real, intensity: real)

  function SampleDriverBase(p: DriverProfile, d: nat -> real, at: nat): (r: Drawn<DriverBase>)
    ensures r.next == at + 4
  {
    Drawn(DriverBase(Sample(p.speed, d(at)), Sample(p.brakeFreq, d(at + 1)),
                     Sample(p.throttle, d(at + 2)), Sample(p.intensity, d(at + 3))),
          at + 4)
  }

  /** The columns from the noisy speed, the other scenario features, the final
      label and the two last draws. */
  function DriverRowOf(speed: real, b: DriverBase, cls: int, energy: real, range: real): (row: DriverRow)
    ensures row.labelDriver == cls
  {
    DriverRow(
      Round(Max(0.0, speed), 1),
      Round(Max(0.0, b.brakeFreq), 1),
      Round(Max(0.0, Min(100.0, b.intensity)), 1),
      Round(Max(0.0, b.throttle), 2),
      Round(Max(0.0, energy), 3),
      Round(Max(0.0, range), 1),
      cls)
  }

  /** One record for the drawn label `cls`, reading the draws from index `at`. */
  function DriverRecord(cls: int, d: nat -> real, at: nat): Drawn<DriverRow>
  {
    var flags := DrawFlags(cls, d, at);
    var base := SampleDriverBase(ScenarioProfile(ScenarioOf(cls, flags.value)), d, flags.next);
    DriverTail(base.value, cls, d, base.next)
  }

  /** After the scenario features: the speed noise, label noise, then energy use and range. */
  function DriverTail(b: DriverBase, cls: int, d: nat -> real, at: nat): Drawn<DriverRow>
  {
    var speed := AddNoise(b.speed, SpeedNoiseLevel, d(at));
    var relabelled := LabelNoise(cls, DriverLabelNoiseRate, d, at + 1);
    var tail := relabelled.next;
    Drawn(DriverRowOf(speed, b, relabelled.value,
                      Sample(Normal(0.15, 0.05), d(tail)), Sample(Normal(150.0, 40.0), d(tail + 1))),
          tail + 2)
  }

  /** The index of the label-noise draw of the record that starts at `at`. */
  function DriverLabelNoiseDraw(cls: int, d: nat -> real, at: nat): nat
  {
    DrawFlags(cls, d, at).next + 5
  }

  predicate DriverRowClipped(row: DriverRow)
  {
    0.0 <= row.speedAvg && 0.0 <= row.brakeFrequency &&
    0.0 <= row.brakeIntensity <= 100.0 && 0.0 <= row.throttleVariance &&
    0.0 <= row.energyConsumption && 0.0 <= row.rangeEst
  }

  predicate DriverRowValid(row: DriverRow)
  {
    DriverRowClipped(row) && ClassInRange(row.labelDriver)
  }

  /** The clipping floors hold whatever the draws, and the brake intensity stays at
      most 100 because 100 has one decimal. */
  lemma DriverRowClippedAlways(speed: real, b: DriverBase, cls: int, energy: real, range: real)
    ensures DriverRowClipped(DriverRowOf(speed, b, cls, energy, range))
  {
    assert HasDecimals(100.0, 1) by { assert HasDecimals(1000.0, 0); }
    RoundAtMost(Max(0.0, Min(100.0, b.intensity)), 100.0, 1);
  }

  /** Every record is clipped; its label is the drawn one unless the label-noise draw
      is below 5%, and it stays in {0, 1, 2} when the drawn one is. */
  lemma DriverRecordFacts(cls: int, d: nat -> real, at: nat)
    ensures DriverRowClipped(DriverRecord(cls, d, at).value)
    ensures DriverLabelNoiseRate <= d(DriverLabelNoiseDraw(cls, d, at)) ==> DriverRecord(cls, d, at).value.labelDriver == cls
    ensures ClassInRange(cls) ==> ClassInRange(DriverRecord(cls, d, at).value.labelDriver)
  {
    var flags := DrawFlags(cls, d, at);
    var base := SampleDriverBase(ScenarioProfile(ScenarioOf(cls, flags.value)), d, flags.next);
    var at' := base.next;
    var speed := AddNoise(base.value.speed, SpeedNoiseLevel, d(at'));
    var relabelled := LabelNoise(cls, DriverLabelNoiseRate, d, at' + 1);
    var tail := relabelled.next;
    DriverRowClippedAlways(speed, base.value, relabelled.value,
                           Sample(Normal(0.15, 0.05), d(tail)), Sample(Normal(150.0, 40.0), d(tail + 1)));
  }

  /** The scenario the features are drawn from is decided by the drawn (pre-noise)
      label and the flag draws alone; a City record with both overlap flags set uses
      the empty-city profile. */
  lemma DriverScenarioFromDrawnLabel(cls: int, d: nat -> real, at: nat)
    ensures var flags := DrawFlags(cls, d, at);
            var s := ScenarioOf(cls, flags.value);
            DriverRecord(cls, d, at).value.brakeFrequency
              == Round(Max(0.0, Sample(ScenarioProfile(s).brakeFreq, d(flags.next + 1))), 1) &&
            (cls == 0 && d(at) < EmptyCityRate ==> s == EmptyCity) &&
            (cls == 1 && d(at) < TrafficJamRate ==> s == TrafficJam) &&
            (cls != 0 && cls != 1 ==> s == Emergency && flags.next == at)
  {
  }

  /** The record synthesizer, as the dataset builder calls it. */
  function DriverStep(d: nat -> real): (int, nat) -> Drawn<DriverRow>
  {
    (cls: int, at: nat) => DriverRecord(cls, d, at)
  }

  /** np.random.choice([0, 1, 2], n, p=[0.5, 0.4, 0.1]) for the draws us. */
  function DriverLabels(us: seq<real>): (labels: seq<int>)
    ensures |labels| == |us|
    ensures forall i :: 0 <= i < |us| ==> 0 <= labels[i] <= 2
  {
    seq(|us|, i requires 0 <= i < |us| => DriverPrior(us[i]))
  }

  /** generate_driver_data(n): the n labels first, then one record per label. */
  function DriverDataset(n: nat, d: nat -> real, at: nat): Drawn<seq<DriverRow>>
  {
    var us := Window(d, at, n);
    RowsFor(DriverStep(d), DriverLabels(us.value), us.next)
  }

  lemma DriverStepValid(d: nat -> real)
    ensures forall c: int, p: nat :: ClassInRange(c) ==> DriverRowValid(DriverStep(d)(c, p).value)
  {
    forall c: int, p: nat | ClassInRange(c)
      ensures DriverRowValid(DriverStep(d)(c, p).value)
    {
      DriverRecordFacts(c, d, p);
    }
  }

  /** The dataset has exactly n rows, every one clipped and labelled in {0, 1, 2}. */
  lemma DriverDatasetValid(n: nat, d: nat -> real, at: nat)
    ensures |DriverDataset(n, d, at).value| == n
    ensures forall i :: 0 <= i < n ==> DriverRowValid(DriverDataset(n, d, at).value[i])
  {
    var us := Window(d, at, n);
    DriverStepValid(d);
    RowsForAll(DriverStep(d), DriverLabels(us.value), us.next, ClassInRange, DriverRowValid);
  }

  /** Row i is the record of the i-th drawn label, read from where the first i records stopped. */
  lemma DriverDatasetInOrder(n: nat, d: nat -> real, at: nat, i: nat)
    requires i < n
    ensures var us := Window(d, at, n);
            var labels := DriverLabels(us.value);
            DriverDataset(n, d, at).value[i] == DriverRecord(labels[i], d, RowsFor(DriverStep(d), labels[..i], us.next).next).value
  {
    var us := Window(d, at, n);
    RowsForInOrder(DriverStep(d), DriverLabels(us.value), us.next, i);
  }

  /** The three overlap flags, each drawn only when the label matches. */
  method DrawDriverFlags(cls: int, rng: Stream) returns (flags: DriverFlags)
    modifies rng
    ensures Drawn(flags, rng.cursor) == DrawFlags(cls, rng.source, old(rng.cursor))
  {
    var trafficJam := false;
    if cls == 1 {
      var u := rng.Next();
      trafficJam := u < TrafficJamRate;
    }
    var emptyCity := false;
    if cls == 0 {
      var u := rng.Next();
      emptyCity := u < EmptyCityRate;
    }
    var panicCity := false;
    if cls == 0 {
      var u := rng.Next();
      panicCity := u < PanicCityRate;
    }
    flags := DriverFlags(trafficJam, emptyCity, panicCity);
  }

  /** The if/elif chain that samples the four scenario features. */
  method DrawScenarioFeatures(cls: int, flags: DriverFlags, rng: Stream) returns (base: DriverBase)
    modifies rng
    ensures Drawn(base, rng.cursor) == SampleDriverBase(ScenarioProfile(ScenarioOf(cls, flags)), rng.source, old(rng.cursor))
  {
    ghost var scenario := ScenarioOf(cls, flags);
    var speed, brakeFreq, throttle, intensity;
    if cls == 0 {
      if flags.emptyCity {
        assert scenario == EmptyCity;
        speed := rng.Draw(Normal(60.0, 10.0));
        brakeFreq := rng.Draw(Normal(5.0, 3.0));
      } else if flags.panicCity {
        assert scenario == PanicCity;
        speed := rng.Draw(Normal(30.0, 10.0));
        brakeFreq := rng.Draw(Normal(20.0, 5.0));
      } else {
        assert scenario == City;
        speed := rng.Draw(Normal(30.0, 15.0));
        brakeFreq := rng.Draw(Normal(15.0, 8.0));
      }
      throttle := rng.Draw(Normal(20.0, 10.0));
      intensity := rng.Draw(Normal(35.0, 15.0));
    } else if cls == 1 {
      if flags.trafficJam {
        assert scenario == TrafficJam;
        speed := rng.Draw(Normal(20.0, 10.0));
        brakeFreq := rng.Draw(Normal(12.0, 5.0));
      } else {
        assert scenario == Highway;
        speed := rng.Draw(Normal(65.0, 20.0));
        brakeFreq := rng.Draw(Normal(3.0, 3.0));
      }
      throttle := rng.Draw(Normal(10.0, 5.0));
      intensity := rng.Draw(Normal(15.0, 10.0));
    } else {
      assert scenario == Emergency;
      speed := rng.Draw(Uniform(10.0, 100.0));
      brakeFreq := rng.Draw(Normal(5.0, 5.0));
      throttle := rng.Draw(Normal(50.0, 20.0));
      intensity := rng.Draw(Normal(85.0, 15.0));
    }
    base := DriverBase(speed, brakeFreq, throttle, intensity);
  }

  /** The loop body of generate_driver_data on the shared stream. */
  method SynthesizeDriverRecord(drawnLabel: int, rng: Stream) returns (row: DriverRow)
    modifies rng
    ensures Drawn(row, rng.cursor) == DriverRecord(drawnLabel, rng.source, old(rng.cursor))
  {
    var flags := DrawDriverFlags(drawnLabel, rng);
    var base := DrawScenarioFeatures(drawnLabel, flags, rng);
    row := DrawDriverTail(base, drawnLabel, rng);
  }

  /** Speed noise, label noise and the last two draws, then the row itself. */
  method DrawDriverTail(base: DriverBase, drawnLabel: int, rng: Stream) returns (row: DriverRow)
    modifies rng
    ensures Drawn(row, rng.cursor) == DriverTail(base, drawnLabel, rng.source, old(rng.cursor))
  {
    var z := rng.Next();
    var speed := AddNoise(base.speed, SpeedNoiseLevel, z);
    var cls := ApplyLabelNoise(drawnLabel, DriverLabelNoiseRate, rng);
    var energy := rng.Draw(Normal(0.15, 0.05));
    var range := rng.Draw(Normal(150.0, 40.0));
    row := DriverRowOf(speed, base, cls, energy, range);
  }

  /** The record loop of generate_driver_data: one record per label, in label order. */
  method SynthesizeDriverRecords(labels: seq<int>, rng: Stream) returns (data: seq<DriverRow>)
    modifies rng
    ensures Drawn(data, rng.cursor) == RowsFor(DriverStep(rng.source), labels, old(rng.cursor))
  {
    ghost var start := rng.cursor;
    data := [];
    for i := 0 to |labels|
      invariant Drawn(data, rng.cursor) == RowsFor(DriverStep(rng.source), labels[..i], start)
    {
      ghost var before := rng.cursor;
      var row := SynthesizeDriverRecord(labels[i], rng);
      assert DriverStep(rng.source)(labels[i], before) == Drawn(row, rng.cursor);
      RowsForSnoc(DriverStep(rng.source), labels, start, i);
      data := data + [row];
    }
    assert labels[..|labels|] == labels;
  }

  /** generate_driver_data(n_samples) on the shared stream. */
  method GenerateDriverData(nSamples: nat, rng: Stream) returns (data: seq<DriverRow>)
    modifies rng
    ensures Drawn(data, rng.cursor) == DriverDataset(nSamples, rng.source, old(rng.cursor))
    ensures |data| == nSamples
    ensures forall i :: 0 <= i < |data| ==> DriverRowValid(data[i])
  {
    ghost var start := rng.cursor;
    var us := rng.NextMany(nSamples);
    var labels := DriverLabels(us);
    data := SynthesizeDriverRecords(labels, rng);
    DriverDatasetValid(nSamples, rng.source, start);
  }
}
