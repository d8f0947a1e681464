/**
 * PixelRenderTask.cpp: the CPU path's per-pixel work. Each sample's ray is
 * traced through at most ten bounces; the colour it picks up is recorded as
 * the list of colour factors multiplied into it, in order.
 *
 * The scene's virtual calls are oracles for one scene: `intersect(r, k)` is
 * the depth at which object k is hit by ray r (IIntersectable::IntersectsRay),
 * `materialIndex(k)` is object k's IIntersectable::MaterialIndex, and
 * `resultant(r, k)` is the ray the hit material sends on, or None
 * (IMaterial::GetResultantRay). R is the ray type.
 */
module PixelRenderTask {
  import opened Wrappers
  import opened Colors
  import opened Materials
  import opened ClosestHit
  import Image
  import Pixel
  import Scene

  const MAX_BOUNCES: nat := 10

  /** Which material a hit uses: the static default one, or an entry of the scene's list. */
  datatype MaterialRef = DefaultMaterial | SceneMaterial(index: nat)

  /** A colour multiplied into the ray's colour. */
  datatype Factor<R> =
    | SurfaceColor(material: MaterialRef)  // the closest hit material's surface colour
    | WorldSurfaceColor(ray: R)            // the world's colour in the direction of a ray that escaped
    | AmbientColor                         // the world's ambient colour, at the bounce limit

  datatype Tracer<!R> = Tracer(
    objectCount: nat,
    materials: seq<Material>,
    intersect: (R, nat) -> Option<real>,
    materialIndex: nat -> int,
    resultant: (R, nat) -> Option<R>)

  /** A sample's colour: the colour it starts from and the factors multiplied into it. */
  datatype SampleColor<R> = SampleColor(start: Color, factors: seq<Factor<R>>)

  /** The default material for an index outside the list, otherwise that entry. */
  function GetMaterial(materials: seq<Material>, materialIndex: int): (r: MaterialRef)
    ensures r == DefaultMaterial <==> materialIndex < 0 || materialIndex >= |materials|
    ensures r.SceneMaterial? ==> r.index == materialIndex && r.index < |materials|
  {
    if materialIndex < 0 || materialIndex >= |materials| then DefaultMaterial
    else SceneMaterial(materialIndex)
  }

  /** The depth at which each object is hit by ray r. */
  function Depths<R>(t: Tracer<R>, r: R): (d: seq<Option<real>>)
    ensures |d| == t.objectCount
  {
    seq(t.objectCount, k requires 0 <= k => t.intersect(r, k))
  }

  /**
   * One bounce: the closest hit (earliest on ties) gives its material's
   * colour and the ray its material sends on; with no hit, the world's colour
   * and no further ray.
   */
  function Bounce<R>(t: Tracer<R>, r: R): (Factor<R>, Option<R>)
  {
    var best := Closest(Depths(t, r));
    if best.Some? then (SurfaceColor(GetMaterial(t.materials, t.materialIndex(best.value))), t.resultant(r, best.value))
    else (WorldSurfaceColor(r), None)
  }

  /** The factors applied from bounce number `bounces` on, until the ray is gone or the limit is reached. */
  function Trace<R>(t: Tracer<R>, ray: Option<R>, bounces: nat): seq<Factor<R>>
    requires bounces < MAX_BOUNCES
    decreases MAX_BOUNCES - bounces
  {
    if ray.None? then []
    else
      var (f, next) := Bounce(t, ray.value);
      if bounces + 1 == MAX_BOUNCES then [f, AmbientColor] else [f] + Trace(t, next, bounces + 1)
  }

  /** At most ten bounces, plus the ambient colour. */
  lemma {:induction false} TraceBounded<R>(t: Tracer<R>, ray: Option<R>, bounces: nat)
    requires bounces < MAX_BOUNCES
    ensures |Trace(t, ray, bounces)| <= MAX_BOUNCES - bounces + 1
    decreases MAX_BOUNCES - bounces
  {
    if ray.Some? && bounces + 1 < MAX_BOUNCES {
      TraceBounded(t, Bounce(t, ray.value).1, bounces + 1);
    }
  }

  /**
   * The ambient colour is applied exactly when the limit is reached: it is
   * the last factor, it occurs once, and only after MAX_BOUNCES bounces.
   */
  lemma {:induction false} AmbientOnlyAtLimit<R>(t: Tracer<R>, ray: Option<R>, bounces: nat)
    requires bounces < MAX_BOUNCES
    ensures var fs := Trace(t, ray, bounces);
      forall i :: 0 <= i < |fs| && fs[i].AmbientColor? ==> i == |fs| - 1 && i == MAX_BOUNCES - bounces
    ensures var fs := Trace(t, ray, bounces);
      |fs| == MAX_BOUNCES - bounces + 1 ==> fs[|fs| - 1].AmbientColor?
    decreases MAX_BOUNCES - bounces
  {
    if ray.Some? && bounces + 1 < MAX_BOUNCES {
      var (f, next) := Bounce(t, ray.value);
      AmbientOnlyAtLimit(t, next, bounces + 1);
      TraceBounded(t, next, bounces + 1);
      assert Trace(t, ray, bounces) == [f] + Trace(t, next, bounces + 1);
      assert !f.AmbientColor?;
    }
  }

  /** A world colour in fs is the last factor, or the last before the ambient colour. */
  predicate WorldColorLast<R>(fs: seq<Factor<R>>)
  {
    forall i :: 0 <= i < |fs| && fs[i].WorldSurfaceColor? ==>
      i == |fs| - 1 || (i == |fs| - 2 && fs[|fs| - 1].AmbientColor?)
  }

  /** The world's colour ends the trace. */
  lemma {:induction false} WorldColorEndsTrace<R>(t: Tracer<R>, ray: Option<R>, bounces: nat)
    requires bounces < MAX_BOUNCES
    ensures WorldColorLast(Trace(t, ray, bounces))
    decreases MAX_BOUNCES - bounces
  {
    if ray.Some? {
      var (f, next) := Bounce(t, ray.value);
      var fs := Trace(t, ray, bounces);
      if bounces + 1 == MAX_BOUNCES {
        assert fs == [f, AmbientColor];
      } else {
        WorldColorEndsTrace(t, next, bounces + 1);
        var rest := Trace(t, next, bounces + 1);
        assert fs == [f] + rest;
        if f.WorldSurfaceColor? {
          assert next.None?;
          assert fs == [f];
        }
        forall i | 0 <= i < |fs| && fs[i].WorldSurfaceColor?
          ensures i == |fs| - 1 || (i == |fs| - 2 && fs[|fs| - 1].AmbientColor?)
        {
          if i > 0 {
            assert fs[i] == rest[i - 1] && fs[|fs| - 1] == rest[|rest| - 1];
          } else {
            assert fs[0] == f;
          }
        }
      }
    }
  }

  /** A ray that hits nothing picks up the world's colour in its direction and stops. */
  lemma MissPicksUpWorldColor<R>(t: Tracer<R>, r: R, bounces: nat)
    requires bounces < MAX_BOUNCES
    requires forall k :: 0 <= k < t.objectCount ==> t.intersect(r, k).None?
    ensures Trace(t, Some(r), bounces) ==
      if bounces + 1 == MAX_BOUNCES then [WorldSurfaceColor(r), AmbientColor] else [WorldSurfaceColor(r)]
  {
    assert Closest(Depths(t, r)).None?;
  }

  /**
   * The object loop of one bounce: every object is tested, and a hit
   * replaces the best one only at a strictly smaller depth.
   */
  method IntersectObjects<R>(r: R, t: Tracer<R>) returns (atLeastOneIntersected: bool, minDepthColor: MaterialRef, reflected: Option<R>)
    ensures atLeastOneIntersected ==> Bounce(t, r) == (SurfaceColor(minDepthColor), reflected)
    ensures !atLeastOneIntersected ==> Bounce(t, r) == (WorldSurfaceColor(r), None)
  {
    var depths := Depths(t, r);
    atLeastOneIntersected := false;
    var minDepth: Option<real> := None;
    minDepthColor := DefaultMaterial;
    reflected := None;
    var best: Option<nat> := None;
    var k := 0;
    while k < t.objectCount
      invariant 0 <= k <= t.objectCount
      invariant best == Closest(depths[..k])
      invariant atLeastOneIntersected <==> best.Some?
      invariant minDepth == if best.Some? then depths[best.value] else None
      invariant best.Some? ==> minDepthColor == GetMaterial(t.materials, t.materialIndex(best.value))
      invariant best.Some? ==> reflected == t.resultant(r, best.value)
    {
      ClosestStep(depths, k);
      var intersection := t.intersect(r, k);
      if intersection.Some? {
        if minDepth.None? || intersection.value < minDepth.value {
          minDepth := intersection;
          minDepthColor := GetMaterial(t.materials, t.materialIndex(k));
          reflected := t.resultant(r, k);
          best := Some(k);
        }
        atLeastOneIntersected := true;
      }
      k := k + 1;
    }
    assert depths[..k] == depths;
  }

  /**
   * One bounce keeps the loop invariant of TraceRay: the factors so far and
   * the trace of what remains still make up the whole trace.
   */
  lemma TraceStep<R>(t: Tracer<R>, r: R, bounces: nat, before: seq<Factor<R>>, whole: seq<Factor<R>>)
    requires bounces < MAX_BOUNCES
    requires before + Trace(t, Some(r), bounces) == whole
    ensures bounces + 1 == MAX_BOUNCES ==> before + [Bounce(t, r).0] + [AmbientColor] == whole
    ensures bounces + 1 < MAX_BOUNCES ==> before + [Bounce(t, r).0] + Trace(t, Bounce(t, r).1, bounces + 1) == whole
  {
    var (f, next) := Bounce(t, r);
    if bounces + 1 == MAX_BOUNCES {
      assert Trace(t, Some(r), bounces) == [f, AmbientColor];
      assert before + [f] + [AmbientColor] == before + [f, AmbientColor];
    } else {
      assert Trace(t, Some(r), bounces) == [f] + Trace(t, next, bounces + 1);
      assert before + [f] + Trace(t, next, bounces + 1) == before + ([f] + Trace(t, next, bounces + 1));
    }
  }

  /**
   * TraceRay: follows the ray while one remains, taking the closest hit of
   * each bounce, and stops after MAX_BOUNCES bounces with the ambient colour.
   */
  method TraceRay<R>(ray: R, t: Tracer<R>) returns (factors: seq<Factor<R>>)
    ensures factors == Trace(t, Some(ray), 0)
  {
    factors := [];
    var totalBounces := 0;
    var traced: Option<R> := Some(ray);
    while traced.Some?
      invariant totalBounces < MAX_BOUNCES
      invariant factors + Trace(t, traced, totalBounces) == Trace(t, Some(ray), 0)
      decreases MAX_BOUNCES - totalBounces
    {
      var r := traced.value;
      var atLeastOneIntersected, minDepthColor, reflected := IntersectObjects(r, t);
      TraceStep(t, r, totalBounces, factors, Trace(t, Some(ray), 0));

      if atLeastOneIntersected {
        traced := reflected;
        factors := factors + [SurfaceColor(minDepthColor)];
      } else {
        factors := factors + [WorldSurfaceColor(r)];
        traced := None;
      }

      totalBounces := totalBounces + 1;
      if totalBounces == MAX_BOUNCES {
        factors := factors + [AmbientColor];
        break;
      }
    }
  }

  /**
   * Execute: traces `samples` rays, each starting from white, averages them
   * and writes the result at the pixel's own coordinates. `nextRay(i)` is
   * the i-th Pixel::GetNextRay (random jitter), and `average` is the colour
   * Pixel::Average leaves as the pixel's output colour.
   */
  method Execute<R>(pixel: Pixel.Pixel, samples: nat, scene: Scene.Scene, image: Image.Image,
                    nextRay: nat -> R, intersect: (R, nat) -> Option<real>, materialIndex: nat -> int,
                    resultant: (R, nat) -> Option<R>, average: seq<SampleColor<R>> -> Color)
    returns (colors: seq<SampleColor<R>>)
    requires image.Valid()
    modifies image
    ensures |colors| == samples
    ensures forall i :: 0 <= i < samples ==>
      colors[i] == SampleColor(White,
        Trace(Tracer(|scene.objects|, scene.materials, intersect, materialIndex, resultant), Some(nextRay(i)), 0))
    ensures image.Valid()
    ensures var x, y := pixel.xCoordinate, pixel.yCoordinate;
      if x < image.resolution.X && y < image.resolution.Y
      then image.colors == Image.WithPixel(old(image.colors), image.resolution, x, y, average(colors))
      else image.colors == old(image.colors)
  {
    var t := Tracer(|scene.objects|, scene.materials, intersect, materialIndex, resultant);
    colors := seq(samples, _ => SampleColor(White, []));
    var i := 0;
    while i < samples
      invariant 0 <= i <= samples
      invariant |colors| == samples
      invariant forall j :: 0 <= j < i ==> colors[j] == SampleColor(White, Trace(t, Some(nextRay(j)), 0))
      invariant forall j :: i <= j < samples ==> colors[j] == SampleColor(White, [])
      invariant image.Valid() && image.colors == old(image.colors)
    {
      var ray := nextRay(i);
      var factors := TraceRay(ray, t);
      colors := colors[i := SampleColor(colors[i].start, colors[i].factors + factors)];
      i := i + 1;
    }
    var written := image.SetPixelColor(pixel.XCoordinate(), pixel.YCoordinate(), average(colors));
  }
}
