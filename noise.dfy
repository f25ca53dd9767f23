/** The noise helpers shared by the generators: proportional sensor noise
    (add_noise) and annotation noise on the class label. */
module Noise {
  import opened Rounding
  import opened Draws

  /** add_noise(value, noise_level) for the standard-normal draw z: the value plus
      a normal perturbation whose spread is |value * noise_level|. */
  function AddNoise(value: real, noiseLevel: real, z: real): real
  {
    value + Sample(Normal(0.0, Abs(value * noiseLevel)), z)
  }

  lemma AbsMul(a: real, b: real)
    ensures Abs(a * b) == Abs(a) * Abs(b)
  {
  }

  /** The perturbation is exactly z times the spread, so a zero value stays zero
      whatever the draw and whatever the noise level. */
  lemma AddNoiseSpread(value: real, noiseLevel: real, z: real)
    ensures Abs(AddNoise(value, noiseLevel, z) - value) == Abs(value * noiseLevel) * Abs(z)
    ensures value == 0.0 ==> AddNoise(value, noiseLevel, z) == 0.0
    ensures noiseLevel == 0.0 ==> AddNoise(value, noiseLevel, z) == value
  {
    AbsMul(Abs(value * noiseLevel), z);
  }

  /** The label-noise step: one unit draw decides whether the class label is replaced
      (draw below `rate`); a replacement is a second draw, np.random.choice([0, 1, 2]).
      Only when the first draw is below `rate` is the second draw consumed. */
  function LabelNoise(cls: int, rate: real, d: nat -> real, at: nat): (r: Drawn<int>)
    ensures d(at) < rate ==> r.next == at + 2 && 0 <= r.value <= 2
    ensures rate <= d(at) ==> r.next == at + 1 && r.value == cls
  {
    if d(at) < rate then Drawn(UniformIndex(3, d(at + 1)), at + 2)
    else Drawn(cls, at + 1)
  }

  /** Every value in {0, 1, 2} can be the replacement, so label noise can keep or
      change the class label. */
  lemma LabelNoiseReaches(cls: int, rate: real, d: nat -> real, at: nat, target: nat)
    requires d(at) < rate && target <= 2
    requires target as real / 3.0 <= d(at + 1) < (target + 1) as real / 3.0
    ensures LabelNoise(cls, rate, d, at) == Drawn(target as int, at + 2)
  {
    UniformIndexInverse(3, target, d(at + 1));
  }

  /** The label-noise step on the shared stream, as both generators that use it run it. */
  method ApplyLabelNoise(cls: int, rate: real, rng: Stream) returns (finalLabel: int)
    modifies rng
    ensures Drawn(finalLabel, rng.cursor) == LabelNoise(cls, rate, rng.source, old(rng.cursor))
  {
    finalLabel := cls;
    var u := rng.Next();
    if u < rate {
      finalLabel := rng.Choice(3);
    }
  }
}
