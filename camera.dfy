/**
 * Camera.h: a pinhole camera that fixes its basis at construction and
 * enumerates one Pixel per image position, row by row.
 */
module Camera {
  import opened Integers
  import opened Vector3
  import opened Image
  import Pixel

  /** Millimetres per metre. */
  const MM_IN_M: real := 1000.0

  const Up: Vector3<real> := Vector3(0.0, 1.0, 0.0)
  const Down: Vector3<real> := Vector3(0.0, -1.0, 0.0)

  /** The offset factor (2i + 1)/n - 1 of the centre of cell i of n, across the sensor. */
  function HorizontalFactor(x: nat, n: nat): real
    requires n > 0
  {
    (2 * x + 1) as real / n as real - 1.0
  }

  /** The vertical factor -(2i + 1)/n + 1: the same offset, with the opposite sign. */
  function VerticalFactor(y: nat, n: nat): real
    requires n > 0
  {
    (-1 * (2 * y + 1)) as real / n as real + 1.0
  }

  /** Every cell centre lies strictly inside the sensor. */
  lemma HorizontalFactorInside(x: nat, n: nat)
    requires x < n
    ensures -1.0 < HorizontalFactor(x, n) < 1.0
  {
    var a := (2 * x + 1) as real;
    var m := n as real;
    DivPositive(a, m);
    DivSub(2.0 * m, a, m);
    DivPositive(2.0 * m - a, m);
  }

  /** Mirroring the cell across the centre negates the factor. */
  lemma HorizontalFactorMirror(x: nat, n: nat)
    requires x < n
    ensures HorizontalFactor(n - 1 - x, n) == -HorizontalFactor(x, n)
  {
    var a := (2 * x + 1) as real;
    var m := (2 * (n - 1 - x) + 1) as real;
    assert m == 2.0 * n as real - a;
    DivSub(2.0 * n as real, a, n as real);
  }

  lemma DivPositive(a: real, n: real)
    requires n > 0.0 && a > 0.0
    ensures a / n > 0.0
  {
  }

  lemma DivSub(a: real, b: real, n: real)
    requires n > 0.0
    ensures (a - b) / n == a / n - b / n
    ensures (2.0 * n) / n == 2.0
  {
  }

  /** The vertical factor is the horizontal one negated: row 0 is the top. */
  lemma VerticalFactorIsNegated(y: nat, n: nat)
    requires n > 0
    ensures VerticalFactor(y, n) == -HorizontalFactor(y, n)
  {
    var a := (2 * y + 1) as real;
    assert (-1 * (2 * y + 1)) as real == -a;
    assert (-a) / n as real == -(a / n as real);
  }

  class Camera {
    const resolution: ImageResolution
    const position: Vector3<real>
    const forwardVector: Vector3<real>
    const rightVector: Vector3<real>
    const upVector: Vector3<real>
    const focalLengthMM: real
    const sensorWidthMM: real

    /**
     * Fixes the camera basis. `normalize` and `cross` stand for the
     * floating-point Vector3<float>::Normalize and Cross. The stored forward
     * vector is normalised, but the vertical special cases test the argument
     * as given.
     */
    constructor (resolution: ImageResolution, position: Vector3<real>, forward: Vector3<real>,
                 focalLength: real, sensorWidthMM: real,
                 normalize: Vector3<real> -> Vector3<real>, cross: (Vector3<real>, Vector3<real>) -> Vector3<real>)
      ensures this.resolution == resolution && this.position == position
      ensures forwardVector == normalize(forward)
      ensures focalLengthMM == focalLength && this.sensorWidthMM == sensorWidthMM
      ensures forward == Up ==> rightVector == Vector3(0.0, 0.0, 1.0) && upVector == Vector3(-1.0, 0.0, 0.0)
      ensures forward == Down ==> rightVector == Vector3(0.0, 0.0, 1.0) && upVector == Vector3(1.0, 0.0, 0.0)
      ensures forward != Up && forward != Down ==>
        rightVector == normalize(cross(forward, Up)) && upVector == normalize(cross(rightVector, forward))
    {
      this.resolution := resolution;
      this.position := position;
      forwardVector := normalize(forward);
      focalLengthMM := focalLength;
      this.sensorWidthMM := sensorWidthMM;
      if forward == Up {
        rightVector := Vector3(0.0, 0.0, 1.0);
        upVector := Vector3(-1.0, 0.0, 0.0);
      } else if forward == Down {
        rightVector := Vector3(0.0, 0.0, 1.0);
        upVector := Vector3(1.0, 0.0, 0.0);
      } else {
        var right := normalize(cross(forward, Up));
        rightVector := right;
        upVector := normalize(cross(right, forward));
      }
    }

    function Position(): Vector3<real> { position }
    function ForwardVector(): Vector3<real> { forwardVector }
    function RightVector(): Vector3<real> { rightVector }
    function UpVector(): Vector3<real> { upVector }
    function Resolution(): ImageResolution { resolution }

    /** The sensor's width in metres. */
    function SensorWidthM(): real
    {
      sensorWidthMM / MM_IN_M
    }

    /** The sensor's height in metres: the width scaled by the aspect ratio Y/X. */
    function SensorHeightM(): real
      requires resolution.X > 0
    {
      sensorWidthMM * resolution.Y as real / MM_IN_M / resolution.X as real
    }

    /** The side of one pixel in metres. */
    function PixelSizeM(): real
      requires resolution.X > 0
    {
      sensorWidthMM / resolution.X as real / MM_IN_M
    }

    /** How far right of the sensor centre column x lies, in metres. */
    function HorizontalScalar(x: nat): real
      requires resolution.X > 0
    {
      HorizontalFactor(x, resolution.X) * SensorWidthM()
    }

    /** How far above the sensor centre row y lies, in metres. */
    function VerticalScalar(y: nat): real
      requires resolution.X > 0 && resolution.Y > 0
    {
      VerticalFactor(y, resolution.Y) * SensorHeightM()
    }

    /**
     * One Pixel per image position in row-major order: the pixel at index i
     * is column i % X of row i / X. `direction` stands for the floating-point
     * ray arithmetic (centre of the near clip plane, plus the right vector
     * scaled horizontally and the up vector scaled vertically, minus the
     * position).
     */
    method GetOutgoingPixels(direction: (real, real) -> Vector3<real>) returns (pixels: seq<Pixel.Pixel>)
      ensures |pixels| == resolution.X * resolution.Y
      ensures forall i :: 0 <= i < |pixels| ==>
        && pixels[i].xCoordinate == i % resolution.X
        && pixels[i].yCoordinate == i / resolution.X
        && pixels[i].origin == position
        && pixels[i].centralRayDirection == direction(HorizontalScalar(i % resolution.X), VerticalScalar(i / resolution.X))
        && pixels[i].widthM == PixelSizeM() && pixels[i].heightM == PixelSizeM()
        && pixels[i].output == Colors.White && pixels[i].accumulatedSamples == 0
    {
      pixels := [];
      var y := 0;
      while y < resolution.Y
        invariant 0 <= y <= resolution.Y
        invariant |pixels| == y * resolution.X
        invariant forall i :: 0 <= i < |pixels| ==> Produced(pixels[i], i, direction)
      {
        var x := 0;
        while x < resolution.X
          invariant 0 <= x <= resolution.X
          invariant |pixels| == y * resolution.X + x
          invariant forall i :: 0 <= i < |pixels| ==> Produced(pixels[i], i, direction)
        {
          RowMajor(x, y, resolution.X, resolution.Y);
          var ray := direction(HorizontalScalar(x), VerticalScalar(y));
          var pixel := new Pixel.Pixel(position, ray, x, y, PixelSizeM(), PixelSizeM());
          pixels := pixels + [pixel];
          x := x + 1;
        }
        y := y + 1;
      }
    }

    /** pixels[i] is the pixel the enumeration produces at index i. */
    ghost predicate Produced(p: Pixel.Pixel, i: nat, direction: (real, real) -> Vector3<real>)
      reads p
    {
      && resolution.X > 0 && resolution.Y > 0 && i < resolution.X * resolution.Y
      && p.xCoordinate == i % resolution.X
      && p.yCoordinate == i / resolution.X
      && p.origin == position
      && p.centralRayDirection == direction(HorizontalScalar(i % resolution.X), VerticalScalar(i / resolution.X))
      && p.widthM == PixelSizeM() && p.heightM == PixelSizeM()
      && p.output == Colors.White && p.accumulatedSamples == 0
    }
  }

  /** The pixel at index y·X + x has coordinates (x, y). */
  lemma PixelAtRowMajorIndex(camera: Camera, pixels: seq<Pixel.Pixel>, x: nat, y: nat)
    requires |pixels| == camera.resolution.X * camera.resolution.Y
    requires forall i :: 0 <= i < |pixels| ==>
      pixels[i].xCoordinate == i % camera.resolution.X && pixels[i].yCoordinate == i / camera.resolution.X
    requires x < camera.resolution.X && y < camera.resolution.Y
    ensures y * camera.resolution.X + x < |pixels|
    ensures pixels[y * camera.resolution.X + x].xCoordinate == x
    ensures pixels[y * camera.resolution.X + x].yCoordinate == y
  {
    RowMajor(x, y, camera.resolution.X, camera.resolution.Y);
  }
}
