/**
 * A camera pixel of Pixel.h: its fixed coordinates and central ray, and a
 * colour that is either set outright or averaged sample by sample.
 */
module Pixel {
  import opened Integers
  import opened Colors
  import opened Vector3

  /**
   * One channel after AccumulateColorSample: the previous value counted n
   * times plus the new sample, divided by n + 1 and truncated.
   */
  function Mix(previous: Byte, sample: Byte, n: nat): (r: Byte)
    ensures Min(previous, sample) <= r <= Max(previous, sample)
    ensures n == 0 ==> r == sample
    ensures previous == sample ==> r == previous
  {
    var total := previous * n + sample;
    MixBetween(previous, sample, n);
    total / (n + 1)
  }

  /** The truncated mean lies between the old channel and the sample. */
  lemma MixBetween(previous: Byte, sample: Byte, n: nat)
    ensures Min(previous, sample) <= (previous * n + sample) / (n + 1) <= Max(previous, sample)
  {
    var lo := Min(previous, sample);
    var hi := Max(previous, sample);
    assert lo * n <= previous * n <= hi * n by {
      MulMonotone(lo, previous, n);
      MulMonotone(previous, hi, n);
    }
    assert lo * (n + 1) == lo * n + lo;
    assert hi * (n + 1) == hi * n + hi;
    DivBetween(previous * n + sample, n + 1, lo, hi);
  }

  /** Each channel of c averaged with the running colour. */
  function MixColor(previous: Color, sample: Color, n: nat): Color
  {
    Color(Mix(previous.R, sample.R, n), Mix(previous.G, sample.G, n),
          Mix(previous.B, sample.B, n), Mix(previous.A, sample.A, n))
  }

  /** With no previous samples the average is the sample itself. */
  lemma MixFirstSample(previous: Color, sample: Color)
    ensures MixColor(previous, sample, 0) == sample
  {
  }

  /** Averaging a colour with itself changes nothing, whatever the count. */
  lemma MixSameColor(c: Color, n: nat)
    ensures MixColor(c, c, n) == c
  {
  }

  class Pixel {
    var output: Color
    const origin: Vector3<real>
    const centralRayDirection: Vector3<real>
    var accumulatedSamples: nat
    const xCoordinate: nat
    const yCoordinate: nat
    const widthM: real
    const heightM: real

    /** A new pixel: default (white) output, no samples, the given place and ray. */
    constructor (origin: Vector3<real>, centralRayDirection: Vector3<real>, x: nat, y: nat, widthM: real, heightM: real)
      ensures output == White && accumulatedSamples == 0
      ensures xCoordinate == x && yCoordinate == y
      ensures this.origin == origin && this.centralRayDirection == centralRayDirection
      ensures this.widthM == widthM && this.heightM == heightM
    {
      output := White;
      this.origin := origin;
      this.centralRayDirection := centralRayDirection;
      accumulatedSamples := 0;
      xCoordinate := x;
      yCoordinate := y;
      this.widthM := widthM;
      this.heightM := heightM;
    }

    function OutputColor(): Color
      reads this
    {
      output
    }

    /** Sets the colour and counts it as the single sample. */
    method SetColor(color: Color)
      modifies this
      ensures output == color && accumulatedSamples == 1
    {
      accumulatedSamples := 1;
      output := color;
    }

    /** Folds one more sample into the running average. */
    method AccumulateColorSample(color: Color)
      modifies this
      ensures accumulatedSamples == old(accumulatedSamples) + 1
      ensures output == MixColor(old(output), color, old(accumulatedSamples))
    {
      var n := accumulatedSamples;
      var rAccumulated := output.R * n;
      var gAccumulated := output.G * n;
      var bAccumulated := output.B * n;
      var aAccumulated := output.A * n;

      rAccumulated := rAccumulated + color.R;
      gAccumulated := gAccumulated + color.G;
      bAccumulated := bAccumulated + color.B;
      aAccumulated := aAccumulated + color.A;

      accumulatedSamples := accumulatedSamples + 1;

      output := Color(rAccumulated / accumulatedSamples, gAccumulated / accumulatedSamples,
                      bAccumulated / accumulatedSamples, aAccumulated / accumulatedSamples)
        by { MixBetween(old(output).R, color.R, n); MixBetween(old(output).G, color.G, n);
             MixBetween(old(output).B, color.B, n); MixBetween(old(output).A, color.A, n); }
    }

    function XCoordinate(): nat
    {
      xCoordinate
    }

    function YCoordinate(): nat
    {
      yCoordinate
    }
  }
}
