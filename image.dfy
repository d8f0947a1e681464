/**
 * The RGBA image buffer of Image.h: Y rows of 4·X bytes, one byte per
 * channel, written pixel by pixel through a bounds-checked setter.
 */
module Image {
  import opened Integers
  import opened Colors

  /** Width X and height Y in pixels (both size_t). */
  datatype ImageResolution = ImageResolution(X: nat, Y: nat)

  /** rows has Y rows of 4·X bytes. */
  predicate Shaped(rows: seq<seq<Byte>>, resolution: ImageResolution)
  {
    |rows| == resolution.Y && forall y :: 0 <= y < |rows| ==> |rows[y]| == 4 * resolution.X
  }

  /** The colour stored for pixel (x, y): bytes 4x .. 4x+3 of row y. */
  function PixelAt(rows: seq<seq<Byte>>, resolution: ImageResolution, x: nat, y: nat): Color
    requires Shaped(rows, resolution) && x < resolution.X && y < resolution.Y
  {
    Color(rows[y][4 * x], rows[y][4 * x + 1], rows[y][4 * x + 2], rows[y][4 * x + 3])
  }

  /** The buffer after pixel (x, y) is written with c. */
  function WithPixel(rows: seq<seq<Byte>>, resolution: ImageResolution, x: nat, y: nat, c: Color): (r: seq<seq<Byte>>)
    requires Shaped(rows, resolution) && x < resolution.X && y < resolution.Y
    ensures Shaped(r, resolution)
    ensures r[y][4 * x] == c.R && r[y][4 * x + 1] == c.G && r[y][4 * x + 2] == c.B && r[y][4 * x + 3] == c.A
    ensures forall j :: 0 <= j < |r[y]| && !(4 * x <= j < 4 * x + 4) ==> r[y][j] == rows[y][j]
    ensures forall y' :: 0 <= y' < |r| && y' != y ==> r[y'] == rows[y']
  {
    var row: seq<Byte> := rows[y][4 * x := c.R][4 * x + 1 := c.G][4 * x + 2 := c.B][4 * x + 3 := c.A];
    rows[y := row]
  }

  /** After the write, pixel (x, y) reads back as c and every other pixel is as before. */
  lemma WithPixelReadsBack(rows: seq<seq<Byte>>, resolution: ImageResolution, x: nat, y: nat, c: Color)
    requires Shaped(rows, resolution) && x < resolution.X && y < resolution.Y
    ensures PixelAt(WithPixel(rows, resolution, x, y, c), resolution, x, y) == c
    ensures forall x': nat, y': nat :: x' < resolution.X && y' < resolution.Y && (x', y') != (x, y) ==>
      PixelAt(WithPixel(rows, resolution, x, y, c), resolution, x', y') == PixelAt(rows, resolution, x', y')
  {
    var r := WithPixel(rows, resolution, x, y, c);
    forall x': nat, y': nat | x' < resolution.X && y' < resolution.Y && (x', y') != (x, y)
      ensures PixelAt(r, resolution, x', y') == PixelAt(rows, resolution, x', y')
    {
      if y' == y {
        assert x' < x || x' > x;
      }
    }
  }

  /** The last write to a pixel wins. */
  lemma LastWriteWins(rows: seq<seq<Byte>>, resolution: ImageResolution, x: nat, y: nat, c1: Color, c2: Color)
    requires Shaped(rows, resolution) && x < resolution.X && y < resolution.Y
    ensures WithPixel(WithPixel(rows, resolution, x, y, c1), resolution, x, y, c2) == WithPixel(rows, resolution, x, y, c2)
  {
    var a := WithPixel(WithPixel(rows, resolution, x, y, c1), resolution, x, y, c2);
    var b := WithPixel(rows, resolution, x, y, c2);
    assert a[y] == b[y];
  }

  /** Writing the same colour twice is the same as writing it once. */
  lemma WriteIdempotent(rows: seq<seq<Byte>>, resolution: ImageResolution, x: nat, y: nat, c: Color)
    requires Shaped(rows, resolution) && x < resolution.X && y < resolution.Y
    ensures WithPixel(WithPixel(rows, resolution, x, y, c), resolution, x, y, c) == WithPixel(rows, resolution, x, y, c)
  {
    LastWriteWins(rows, resolution, x, y, c, c);
  }

  /** Writes to two different pixels commute. */
  lemma DistinctWritesCommute(rows: seq<seq<Byte>>, resolution: ImageResolution,
                              x1: nat, y1: nat, c1: Color, x2: nat, y2: nat, c2: Color)
    requires Shaped(rows, resolution)
    requires x1 < resolution.X && y1 < resolution.Y && x2 < resolution.X && y2 < resolution.Y
    requires (x1, y1) != (x2, y2)
    ensures WithPixel(WithPixel(rows, resolution, x1, y1, c1), resolution, x2, y2, c2)
         == WithPixel(WithPixel(rows, resolution, x2, y2, c2), resolution, x1, y1, c1)
  {
    var a := WithPixel(WithPixel(rows, resolution, x1, y1, c1), resolution, x2, y2, c2);
    var b := WithPixel(WithPixel(rows, resolution, x2, y2, c2), resolution, x1, y1, c1);
    forall y | 0 <= y < |a| ensures a[y] == b[y] {
      forall j | 0 <= j < |a[y]| ensures a[y][j] == b[y][j] {
      }
    }
  }

  class Image {
    const resolution: ImageResolution
    var colors: seq<seq<Byte>>

    ghost predicate Valid()
      reads this
    {
      Shaped(colors, resolution)
    }

    /** A new image: Y rows of 4·X bytes, every byte zero. */
    constructor (resolution: ImageResolution)
      ensures this.resolution == resolution
      ensures Valid()
      ensures forall y, j :: 0 <= y < |colors| && 0 <= j < |colors[y]| ==> colors[y][j] == 0
    {
      this.resolution := resolution;
      var rows: seq<seq<Byte>> := seq(resolution.Y, _ => []);
      var h := 0;
      while h < resolution.Y
        invariant 0 <= h <= resolution.Y
        invariant |rows| == resolution.Y
        invariant forall y :: 0 <= y < h ==> rows[y] == seq(4 * resolution.X, _ => 0)
      {
        rows := rows[h := seq(4 * resolution.X, _ => 0)];
        h := h + 1;
      }
      colors := rows;
    }

    /**
     * Writes the four channels of pixel (x, y) and answers true, or answers
     * false and changes nothing when the pixel is outside the image.
     */
    method SetPixelColor(x: nat, y: nat, value: Color) returns (written: bool)
      requires Valid()
      modifies this
      ensures Valid()
      ensures written <==> x < resolution.X && y < resolution.Y
      ensures written ==> colors == WithPixel(old(colors), resolution, x, y, value)
      ensures !written ==> colors == old(colors)
    {
      if x >= resolution.X || y >= resolution.Y {
        return false;
      }
      var row := colors[y];
      row := row[4 * x := value.R];
      row := row[4 * x + 1 := value.G];
      row := row[4 * x + 2 := value.B];
      row := row[4 * x + 3 := value.A];
      colors := colors[y := row];
      return true;
    }

    /** The live buffer. */
    function GetColorRGBAValues(): (rows: seq<seq<Byte>>)
      reads this
      requires Valid()
      ensures Shaped(rows, resolution)
    {
      colors
    }
  }

  /** A read of the live buffer after a successful write sees the written colour. */
  method WriteThenRead(image: Image, x: nat, y: nat, c: Color) returns (seen: Color)
    requires image.Valid() && x < image.resolution.X && y < image.resolution.Y
    modifies image
    ensures seen == c
  {
    var ok := image.SetPixelColor(x, y, c);
    WithPixelReadsBack(old(image.colors), image.resolution, x, y, c);
    seen := PixelAt(image.GetColorRGBAValues(), image.resolution, x, y);
  }
}
