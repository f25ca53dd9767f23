# Battery-safety, battery-health and driver-style models: data synthesis and feature extraction

This project models two parts of an electric-vehicle monitoring system. The
system trains three random-forest classifiers off-board and runs them on an
ESP32 on the vehicle:

- **Safety**: Normal, Warning or Critical.
- **Health**: Good or Bad.
- **Driver**: City, Highway or Emergency.

The two modelled parts:

1. **The training-data synthesizer** (`ML_models/generate_data.py`).
   - `add_noise` adds proportional sensor noise.
   - `generate_safety_data` draws all class labels up front. For each label it
     samples five base features from that class's profile, may add a ±30 glitch
     to the pack temperature, and may replace the label (annotation noise). It
     then draws and derives the thirteen rounded columns. Ten have a floor at 0,
     Cell_Max and Cell_Min have a ceiling at 4.2, and Ambient_Temp has no bound.
   - `generate_health_data` draws a latent state of health per record. The
     record is labelled Good when a unit draw falls below the sigmoid of that
     state of health. Six columns are derived from the state of health with
     noise and a clip; Cycle_Count is the floor of its clipped value and the
     other five are rounded. SoC and DoD are independent uniform draws, rounded
     and not clipped.
   - `generate_driver_data` draws the labels from the prior [0.5, 0.4, 0.1].
     Each record then:
     - decides three scenario overlaps: Highway traffic jam, empty night-time
       city road, panic braking in the city;
     - samples four features from the chosen scenario profile;
     - adds speed noise, may replace the label, and draws energy use and range.

   Every `np.random` call takes the next value of a caller-supplied stream of
   raw draws. That stream is `Draws.Stream`: a class holding the draw sequence
   and a cursor. Each numpy call maps its raw draw to its distribution:
   - a normal takes loc + scale·z;
   - a uniform takes low + (high − low)·u;
   - an exponential takes scale·e;
   - `random()` returns u itself;
   - an unweighted `choice` picks option ⌊u·k⌋;
   - a weighted `choice` counts the cumulative probabilities at or below u.

   Each generator exists twice:
   - as pure functions over the draws (`SafetyRecord`, `SafetyDataset`,
     `HealthRecord`, `DriverRecord`, …), which return the value and the index of
     the next unread draw;
   - as methods that run the loop on the stream (`GenerateSafetyData`, …). Each
     method is proved to produce exactly the function's table and to leave the
     cursor exactly where the function says.

   The properties are lemmas about the functions:
   - which profile a label selects;
   - that each stage of a safety record reads only its own draws, so the
     replacement-label draw changes nothing but the label;
   - the clipping bounds of every clipped column;
   - the draw-consumption order of the short-circuit scenario flags;
   - one row per label, in draw order.

2. **The on-vehicle helpers** (`model_utils.h`).
   - Three extractors fill a caller's feature buffer in place (`array<real>`
     with `modifies`). Each is proved to write exactly the prefix the model
     reads and to leave the rest of the buffer unchanged.
   - The three label functions map a class index to its display text.

Most rounded columns are Python floats, so `round(x, k)` is Python's built-in
rounding. It rounds the exact binary value to the nearest multiple of 10^-k,
with ties to even. A column that has become a numpy float64 is rounded by numpy
instead: scale by 10^k, round half to even, scale back. An example is the safety
pack temperature once the glitch has added a numpy integer to it. On exact reals
the two agree. The model defines `Round` this way and proves that its result
has k decimals and lies within half a unit of the k-th decimal of x. The bounds 0, 4.2, 50 and 100 survive rounding
because rounding is monotone and fixes numbers that already have k decimals.

## Model

| member | source | states |
|---|---|---|
| Rounding.RoundHalfEven | ML_models/generate_data.py:72-84 | the integer chosen is within 0.5 of its argument |
| Rounding.Round | ML_models/generate_data.py:72-84 | rounding a non-negative value gives a non-negative value |
| Rounding.RoundHasDecimals | ML_models/generate_data.py:72-84 | round(x, k) has at most k decimals |
| Rounding.Pow10 | ML_models/generate_data.py:72-84 | helper for RoundNear: 10^k is at least 1 |
| Rounding.RoundNear | ML_models/generate_data.py:72-84 | round(x, k) lies within 0.5·10^-k of x |
| Rounding.RoundHalfEvenMonotone | ML_models/generate_data.py:72-84 | half-even rounding to an integer is monotone |
| Rounding.RoundMonotone | ML_models/generate_data.py:72-84 | round(x, k) is monotone in x at every precision k |
| Rounding.RoundFixes | ML_models/generate_data.py:72-84 | a value that already has k decimals is unchanged by round(·, k) |
| Rounding.RoundAtLeast | ML_models/generate_data.py:72-84 | a lower clip at a k-decimal bound survives round(·, k) |
| Rounding.RoundAtMost | ML_models/generate_data.py:72-84 | an upper clip at a k-decimal bound survives round(·, k) |
| Draws.Sample | ML_models/generate_data.py:35-53 | the value of one raw draw under its distribution: loc + scale·z for a normal, low + (high − low)·u for a uniform, scale·e for an exponential |
| Draws.UniformSampleWithin | ML_models/generate_data.py:107 | a uniform draw from [low, high) lies between low and high |
| Draws.UniformIndex | ML_models/generate_data.py:57 | an unweighted choice among k options returns an index below k |
| Draws.ScaledBounds | ML_models/generate_data.py:57 | helper for UniformIndexInverse: a unit draw in [i/k, (i+1)/k) scales to a value in [i, i+1) |
| Draws.UniformIndexInverse | ML_models/generate_data.py:57 | every option i is chosen exactly by the draws in [i/k, (i+1)/k) |
| Draws.Window | ML_models/generate_data.py:30 | n draws taken at once are the next n draws, in order, and the cursor then stands n further on |
| Draws.Stream.constructor | ML_models/generate_data.py:4 | a stream starts at the given draw of the given sequence |
| Draws.Stream.Next | ML_models/generate_data.py:56 | np.random.random() returns the next raw draw and advances the cursor by one |
| Draws.Stream.Draw | ML_models/generate_data.py:35 | a distribution call returns the next draw mapped by its parameters and advances the cursor by one |
| Draws.Stream.Choice | ML_models/generate_data.py:57 | an unweighted choice reads one draw and returns its option |
| Draws.Stream.NextMany | ML_models/generate_data.py:30 | a batch of n draws is exactly the window of the next n draws |
| Noise.AddNoise | ML_models/generate_data.py:14-17 | add_noise(v, lvl) for the standard-normal draw z is v + \|v·lvl\|·z |
| Noise.AddNoiseSpread | ML_models/generate_data.py:14-17 | add_noise moves the value by exactly \|value·level\|·\|z\|, so zero stays zero and a zero level changes nothing |
| Noise.LabelNoise | ML_models/generate_data.py:60-61 | below the rate the label is replaced by a value in {0, 1, 2} and two draws are read; otherwise the label is kept and one draw is read |
| Noise.LabelNoiseReaches | ML_models/generate_data.py:60-61 | each of 0, 1 and 2 can be the replacement label |
| Noise.ApplyLabelNoise | ML_models/generate_data.py:60-61 | the label-noise step on the stream is exactly LabelNoise |
| Dataset.RowsFor | ML_models/generate_data.py:32-88 | one row per label |
| Dataset.RowsForInOrder | ML_models/generate_data.py:32-88 | row i is the record of label i, started where the first i records stopped |
| Dataset.RowsForAll | ML_models/generate_data.py:32-88 | a property of every record for every allowed label holds of every row |
| Dataset.RowsN | ML_models/generate_data.py:105-135 | one row per loop iteration |
| Dataset.RowsNFixedWidth | ML_models/generate_data.py:105-135 | with records of fixed width w, row i starts at draw at + w·i and n rows read w·n draws |
| Dataset.RowsNAll | ML_models/generate_data.py:105-135 | a property of every record holds of every row |
| SafetyData.ProfileFor | ML_models/generate_data.py:34-53 | label 0 selects the Normal profile, 1 the Warning profile, and every other label the Critical profile (both directions) |
| SafetyData.ProfilesOrdered | ML_models/generate_data.py:34-53 | from Normal to Warning to Critical the mean temperature, gas reading and cell spread rise, and the mean isolation resistance and coolant flow fall |
| SafetyData.SampleBase | ML_models/generate_data.py:34-53 | the base features read five draws |
| SafetyData.Glitch | ML_models/generate_data.py:56-57 | the glitch changes only the pack temperature, by exactly 30 either way; the sign draw is read only when the glitch fires |
| SafetyData.GlitchSign | ML_models/generate_data.py:56-57 | a sign draw below one half gives −30, one above gives +30 |
| SafetyData.SafetyColumnsOf | ML_models/generate_data.py:64-86 | the row carries the final label |
| SafetyData.SafetyColumns | ML_models/generate_data.py:64-86 | the columns read nine draws and carry the final label |
| SafetyData.SafetyRecord | ML_models/generate_data.py:32-86 | one loop body: base features of the label's profile, then the glitch, then label noise, then the columns, each stage reading from where the last stopped |
| SafetyData.SafetyColumnsClipped | ML_models/generate_data.py:72-84 | Pack_Voltage, Pack_Current, Instant_Power, Pack_Temp, Thermal_Grad, Inverter_Temp, Coolant_Flow, Iso_Resistance, Gas_PPM and SoP are at least 0; Cell_Max and Cell_Min are at most 4.2 and have no floor; Ambient_Temp is unclipped; all whatever the values drawn |
| SafetyData.CellMaxHasNoFloor | ML_models/generate_data.py:75 | Cell_Max is not floored: a cell deviation of magnitude 4.3 or more makes it negative |
| SafetyData.SafetyColumnsDrawnClipped | ML_models/generate_data.py:64-86 | for any draw stream, the ten floors at 0 and the Cell_Max and Cell_Min ceilings at 4.2 hold; Cell_Max and Cell_Min have no floor and Ambient_Temp no bound |
| SafetyData.SafetyRecordFacts | ML_models/generate_data.py:32-86 | every record is clipped; its label is the drawn one unless the label-noise draw fires; a label in {0, 1, 2} stays in {0, 1, 2} |
| SafetyData.SafetyBaseFromDrawnLabel | ML_models/generate_data.py:34-57 | isolation, gas and coolant columns are the clipped draws of the pre-noise label's profile; the pack temperature is that draw shifted by 0, −30 or +30 |
| SafetyData.RelabelOnlyTouchesLabel | ML_models/generate_data.py:60-86 | streams differing only in the replacement-label draw give rows equal in every feature column |
| SafetyData.ColumnsIgnoreLabel | ML_models/generate_data.py:71-86 | the label does not influence any feature column |
| SafetyData.BaseAgrees | ML_models/generate_data.py:34-53 | the base features depend only on their five draws |
| SafetyData.GlitchAgrees | ML_models/generate_data.py:56-57 | the glitch depends only on its two draws |
| SafetyData.ColumnsAgree | ML_models/generate_data.py:64-86 | the columns depend only on their nine draws |
| SafetyData.SafetyDataset | ML_models/generate_data.py:25-88 | the n labels are read first, then one record per label from where the labels stopped |
| SafetyData.SafetyLabels | ML_models/generate_data.py:30 | n labels, each in {0, 1, 2} |
| SafetyData.SafetyStepValid | ML_models/generate_data.py:32-86 | every record of a label in {0, 1, 2} is a valid row |
| SafetyData.SafetyDatasetValid | ML_models/generate_data.py:25-88 | exactly n rows, each clipped and labelled in {0, 1, 2} |
| SafetyData.SafetyDatasetInOrder | ML_models/generate_data.py:30-88 | row i is the record of the i-th drawn label, read from where row i − 1 stopped |
| SafetyData.DrawBase | ML_models/generate_data.py:34-53 | the base draws on the stream are exactly SampleBase of the label's profile |
| SafetyData.ApplyGlitch | ML_models/generate_data.py:56-57 | the glitch on the stream is exactly Glitch |
| SafetyData.DrawColumns | ML_models/generate_data.py:64-86 | the feature engineering on the stream is exactly SafetyColumns |
| SafetyData.SynthesizeSafetyRecord | ML_models/generate_data.py:32-86 | the loop body on the stream is exactly SafetyRecord; its row is clipped and keeps a label in range |
| SafetyData.SynthesizeSafetyRecords | ML_models/generate_data.py:32-86 | the record loop on the stream returns exactly one SafetyRecord per label, each read from where the last stopped |
| SafetyData.GenerateSafetyData | ML_models/generate_data.py:25-88 | the method returns exactly SafetyDataset and leaves the cursor after its last draw: n rows, each valid |
| HealthData.HealthLabel | ML_models/generate_data.py:113-114 | the label is 0 or 1, and 0 exactly when the unit draw is below the probability of a good battery |
| HealthData.CycleCount | ML_models/generate_data.py:117 | int(max(0, x)) is a non-negative integer within one below the clipped value |
| HealthData.HealthRowOf | ML_models/generate_data.py:116-133 | the row carries the label |
| HealthData.LatentSoh | ML_models/generate_data.py:107 | the latent state of health is uniform(60, 100) of the record's first draw |
| HealthData.HealthRecord | ML_models/generate_data.py:105-133 | a record reads exactly ten draws |
| HealthData.FiftyAndHundredHaveDecimals | ML_models/generate_data.py:125-129 | helper for HealthRowClippedAlways: 50 has one decimal and 100 has two, so those clips survive rounding |
| HealthData.HealthRowClippedAlways | ML_models/generate_data.py:117-131 | Cycle_Count ≥ 0, Internal_Res ≥ 50, Coulombic_Eff ≤ 100, and Cell_Imbalance, Pol_Voltage, Stress_Index ≥ 0, whatever the values drawn |
| HealthData.HealthRecordFacts | ML_models/generate_data.py:107-133 | every record is clipped and labelled 0 or 1, and labelled 0 exactly when the second draw is below prob_good of the drawn state of health |
| HealthData.LatentSohWithin | ML_models/generate_data.py:107 | for a unit draw the latent state of health lies in [60, 100] |
| HealthData.HealthDataset | ML_models/generate_data.py:101-135 | n records, one per iteration, each reading from where the last stopped |
| HealthData.HealthDatasetFacts | ML_models/generate_data.py:101-135 | exactly n valid rows; row i is the record read from draw at + 10·i; the table reads 10·n draws |
| HealthData.SynthesizeHealthRecord | ML_models/generate_data.py:107-133 | the loop body on the stream is exactly HealthRecord |
| HealthData.GenerateHealthData | ML_models/generate_data.py:101-135 | the method returns exactly HealthDataset, reads 10·n draws, and every row is valid |
| DriverData.DriverPrior | ML_models/generate_data.py:152 | the weighted choice gives 0 exactly below 0.5, 1 exactly on [0.5, 0.9), 2 exactly from 0.9 on |
| DriverData.GuardedFlag | ML_models/generate_data.py:159-161 | `guard and random() < rate` reads a draw exactly when the guard holds and is true only then |
| DriverData.DrawFlags | ML_models/generate_data.py:159-161 | the three guarded flags in order traffic jam, empty city, panic city, each reading from where the last stopped |
| DriverData.DrawFlagsFacts | ML_models/generate_data.py:159-161 | traffic jam only for label 1, the city overlaps only for label 0; a City record reads two flag draws, a Highway record one, any other none |
| DriverData.ScenarioOf | ML_models/generate_data.py:163-193 | the if/elif chain: the label picks City, Highway or Emergency; inside City empty city is tested before panic, inside Highway the traffic jam |
| DriverData.ScenarioProfile | ML_models/generate_data.py:163-193 | the four distributions (speed, brake frequency, throttle, intensity) of each of the six branches |
| DriverData.ScenarioPrecedence | ML_models/generate_data.py:163-193 | the label alone picks the branch; with both city flags set the empty-city profile wins; panic is used only without empty-city |
| DriverData.ScenarioOverlaps | ML_models/generate_data.py:163-193 | empty city is faster and brakes less than city, a traffic jam is slower than city and brakes more than highway, and panic has the highest mean brake frequency |
| DriverData.SampleDriverBase | ML_models/generate_data.py:163-193 | the scenario features read four draws |
| DriverData.DriverRowOf | ML_models/generate_data.py:202-210 | the row carries the final label |
| DriverData.DriverRowClippedAlways | ML_models/generate_data.py:202-209 | Brake_Intensity lies in [0, 100] and every other feature column is at least 0, whatever the values drawn |
| DriverData.DriverRecord | ML_models/generate_data.py:157-210 | one loop body: the flags, then the scenario features, then the tail |
| DriverData.DriverTail | ML_models/generate_data.py:196-210 | speed noise, then label noise, then energy use and range, each reading from where the last stopped |
| DriverData.DriverRecordFacts | ML_models/generate_data.py:157-210 | every record is clipped; its label is the drawn one unless the 5% draw fires; a label in {0, 1, 2} stays in {0, 1, 2} |
| DriverData.DriverScenarioFromDrawnLabel | ML_models/generate_data.py:159-193 | the brake frequency comes from the profile chosen by the pre-noise label and the flags; a first flag draw below its rate forces the empty-city profile for label 0 and the traffic-jam profile for label 1; Emergency reads no flag draw |
| DriverData.DriverLabels | ML_models/generate_data.py:152 | n labels, each in {0, 1, 2} |
| DriverData.DriverDataset | ML_models/generate_data.py:148-212 | the n labels are read first, then one record per label from where the labels stopped |
| DriverData.DriverStepValid | ML_models/generate_data.py:157-210 | every record of a label in {0, 1, 2} is a valid row |
| DriverData.DriverDatasetValid | ML_models/generate_data.py:148-212 | exactly n rows, each clipped and labelled in {0, 1, 2} |
| DriverData.DriverDatasetInOrder | ML_models/generate_data.py:148-212 | row i is the record of the i-th drawn label, read from where row i − 1 stopped |
| DriverData.DrawDriverFlags | ML_models/generate_data.py:159-161 | the flag draws on the stream are exactly DrawFlags |
| DriverData.DrawScenarioFeatures | ML_models/generate_data.py:163-193 | the if/elif sampling on the stream is exactly SampleDriverBase of ScenarioProfile(ScenarioOf(label, flags)) |
| DriverData.DrawDriverTail | ML_models/generate_data.py:196-210 | speed noise, label noise and the last two draws on the stream are exactly DriverTail |
| DriverData.SynthesizeDriverRecord | ML_models/generate_data.py:157-210 | the loop body on the stream is exactly DriverRecord |
| DriverData.SynthesizeDriverRecords | ML_models/generate_data.py:152-210 | the record loop on the stream returns exactly one DriverRecord per label, each read from where the last stopped |
| DriverData.GenerateDriverData | ML_models/generate_data.py:148-212 | the method returns exactly DriverDataset: n rows, each valid |
| ModelUtils.TempDerating | model_utils.h:92 | the derating is 0 up to 45 C and 2·(t − 45) above |
| ModelUtils.SopEstimate | model_utils.h:92-93 | SoP lies in [0, 150] |
| ModelUtils.SopPiecewise | model_utils.h:92-93 | SoP is 150 up to 45 C, 150 − 2·(t − 45) up to 120 C, and 0 beyond |
| ModelUtils.SopNonIncreasing | model_utils.h:92-93 | SoP never rises with the pack temperature |
| ModelUtils.SafetyFeatureVector | model_utils.h:52-94 | the safety model reads thirteen features |
| ModelUtils.HealthFeatureVector | model_utils.h:101-110 | the health model reads eight features |
| ModelUtils.DriverFeatureVector | model_utils.h:117-124 | the driver model reads six features |
| ModelUtils.ExtractSafetyFeatures | model_utils.h:52-94 | cells 0..12 become the safety feature vector (power V·I/1000 at 2, (max − min)·5 at 6, SoP in [0, 150] at 12); every other cell is unchanged |
| ModelUtils.ExtractHealthFeatures | model_utils.h:101-110 | cells 0..7 receive the eight fields in declared order; every other cell is unchanged |
| ModelUtils.ExtractDriverFeatures | model_utils.h:117-124 | cells 0..5 receive the six fields in declared order; every other cell is unchanged |
| ModelUtils.SafetyRowColumns | ML_models/generate_data.py:71-85 | a safety row has thirteen feature columns |
| ModelUtils.HealthRowColumns | ML_models/generate_data.py:123-132 | a health row has eight feature columns |
| ModelUtils.DriverRowColumns | ML_models/generate_data.py:202-209 | a driver row has six feature columns |
| ModelUtils.SafetyFeaturesMatchColumns | model_utils.h:52-94 | every measured safety reading lands at the index of the training column of the same name; only indices 2, 6 and 12 are recomputed |
| ModelUtils.HealthFeaturesMatchColumns | model_utils.h:101-110 | the health features are the training columns in the training order |
| ModelUtils.DriverFeaturesMatchColumns | model_utils.h:117-124 | the driver features are the training columns in the training order |
| ModelUtils.SafetyLabelText | model_utils.h:130-137 | 0, 1, 2 map to their three texts, each in both directions, and every other index maps to "UNKNOWN" |
| ModelUtils.HealthLabelText | model_utils.h:139-141 | "GOOD" exactly for 0, "BAD (Replace/Service)" for every other index, negatives included |
| ModelUtils.DriverLabelText | model_utils.h:143-150 | 0, 1, 2 map to their three texts, each in both directions, and every other index maps to "UNKNOWN" |
| ModelUtils.GeneratedLabelsHaveText | model_utils.h:130-150 | no generated safety or driver label reads "UNKNOWN", and every generated health label is 0 or 1 |

## Notes on the model

- Not every safety feature is non-negative apart from Ambient_Temp.
  Cell_Max and Cell_Min are 4.2 minus absolute values of draws, so they are
  bounded above by 4.2 but can be negative; `CellMaxHasNoFloor` proves this for
  any cell deviation of magnitude 4.3 or more. `SafetyRowClipped` states only the
  bounds the code imposes.
- The on-vehicle SoP is `max(0, 150 − max(0, 2·(t − 45)))`. The training SoP
  column is `150 − 0.8·t` plus noise, taken at least 0. The two derivations
  differ; the model states each one exactly.
- Instant_Power and Thermal_Grad are recomputed on the vehicle from the raw
  readings. The training columns for them are drawn with noise.
  `SafetyFeaturesMatchColumns` therefore claims equality only at the other
  indices.
- Cell_Min and Cell_Max come from independent draws, so a generated Cell_Min can
  exceed Cell_Max. The model makes no claim on their order.

## Left out

- Distribution semantics: the model does not know that the draws are normal,
  uniform or exponential. A draw is any real supplied by the caller. Statistical
  claims (class priors, the 10% glitch and relabel rates, class means as
  frequencies) are not about a single run and are not stated.
- The sigmoid `1 / (1 + exp(−(soh − 80)/2))` is the parameter `probGood` of the
  health functions. `exp` is not modelled.
- Unweighted `np.random.choice` decides with an integer draw in numpy. The model
  uses ⌊u·k⌋ of a unit draw; which option comes out for a given seed is
  therefore not modelled.
- Floating point: the generator's float64 arithmetic and `round`, and the
  header's 32-bit `float` fields and arithmetic, are exact reals here. Binary
  representation effects of `round` are not modelled. For example, Python's
  `round(2.675, 2)` gives 2.67, because the stored double lies just below 2.675.
- The script around the generators is not modelled: `np.random.seed(42)`, the
  prints, the pandas `DataFrame` and `to_csv`, and the running of the three
  generators one after another on one global stream.
- Negative `n_samples` is not modelled; the count is a `nat`.
- Default arguments are not modelled: `noise_level=0.05` of `add_noise` and
  `n_samples=10000` of the three generators. Every call in the modelled code
  passes both explicitly.
- `ML_models/train_all_models.py`, `ML_models/convert_to_tinyml.py` and
  `ESP32_Sender/sim_config.h` are not part of this model. They hold library
  calls, file output and constants only.
- The Arduino `max` macro is modelled as the mathematical maximum. Its double
  evaluation of arguments has no effect here, because the arguments have no side
  effects.
- Undefined behaviour of the extractors on a buffer shorter than the model's
  feature count is excluded by their precondition.
