/**
 * The logical zoom guard and the scroll arithmetic of panning, as pure
 * functions of the values the canvas holds.
 */
module Viewport {
  import opened Geometry

  const ZOOM_FACTOR: real := 1.15
  const MIN_ZOOM: real := 0.05
  const MAX_ZOOM: real := 50.0

  predicate InZoomRange(z: real)
  {
    MIN_ZOOM <= z <= MAX_ZOOM
  }

  /** Zoom in by ZOOM_FACTOR on a positive vertical wheel delta, otherwise zoom out. */
  function WheelFactor(angleDeltaY: int): real
  {
    if angleDeltaY > 0 then ZOOM_FACTOR else 1.0 / ZOOM_FACTOR
  }

  /**
   * The logical zoom after one wheel event with an image loaded: the scaled
   * value is taken only when it stays within [MIN_ZOOM, MAX_ZOOM]; otherwise
   * the event is rejected and the old value kept (never clamped to a bound).
   */
  function NextZoom(z: real, angleDeltaY: int): (r: real)
    ensures InZoomRange(z) ==> InZoomRange(r)
    ensures r == z || (r == z * WheelFactor(angleDeltaY) && InZoomRange(r))
    ensures r == z ==> !InZoomRange(z * WheelFactor(angleDeltaY))
    ensures 0.0 < z ==> (angleDeltaY > 0 ==> z <= r) && (angleDeltaY <= 0 ==> r <= z)
  {
    var candidate := z * WheelFactor(angleDeltaY);
    if MIN_ZOOM <= candidate <= MAX_ZOOM then candidate else z
  }

  /** The logical zoom after a sequence of wheel events, first event first. */
  function AfterWheels(z: real, deltas: seq<int>): (r: real)
    ensures InZoomRange(z) ==> InZoomRange(r)
    decreases |deltas|
  {
    if deltas == [] then z else AfterWheels(NextZoom(z, deltas[0]), deltas[1..])
  }

  /** `n` wheel events with the same delta. */
  function Repeat(delta: int, n: nat): (s: seq<int>)
  {
    if n == 0 then [] else [delta] + Repeat(delta, n - 1)
  }

  function Pow(b: real, n: nat): real
  {
    if n == 0 then 1.0 else b * Pow(b, n - 1)
  }

  lemma {:induction false} PowGrows(b: real, i: nat, j: nat)
    requires 1.0 <= b && i <= j
    ensures 1.0 <= Pow(b, i) <= Pow(b, j)
    decreases j
  {
    if 0 < j {
      PowGrows(b, if i < j then i else j - 1, j - 1);
      assert Pow(b, j - 1) <= b * Pow(b, j - 1);
    }
  }

  lemma {:induction false} PowShrinks(b: real, i: nat, j: nat)
    requires 0.0 < b <= 1.0 && i <= j
    ensures 0.0 < Pow(b, j) <= Pow(b, i) <= 1.0
    decreases j
  {
    if 0 < j {
      PowShrinks(b, if i < j then i else j - 1, j - 1);
      assert 0.0 < b * Pow(b, j - 1) <= Pow(b, j - 1);
    }
  }

  lemma {:induction false} PowAdd(b: real, i: nat, j: nat)
    ensures Pow(b, i + j) == Pow(b, i) * Pow(b, j)
    decreases i
  {
    if i > 0 {
      PowAdd(b, i - 1, j);
      assert Pow(b, i + j) == b * Pow(b, i - 1 + j);
    }
  }

  /** 27 zoom-in factors fit below MAX_ZOOM, 28 do not; 21 zoom-out factors stay above MIN_ZOOM, 22 do not. */
  lemma ZoomLimits()
    ensures Pow(ZOOM_FACTOR, 27) <= MAX_ZOOM < Pow(ZOOM_FACTOR, 28)
    ensures Pow(1.0 / ZOOM_FACTOR, 22) < MIN_ZOOM <= Pow(1.0 / ZOOM_FACTOR, 21)
  {
    PowAdd(ZOOM_FACTOR, 14, 13);
    PowAdd(ZOOM_FACTOR, 14, 14);
    PowAdd(1.0 / 1.15, 11, 10);
    PowAdd(1.0 / 1.15, 11, 11);
  }

  /**
   * Zooming in from 1.0: the k-th accepted step gives ZOOM_FACTOR^k, and the
   * steps stop being accepted after 27 of them (1.15^27 is about 43.5, and
   * 1.15^28, about 50.07, exceeds MAX_ZOOM).
   */
  lemma {:induction false} ZoomInFrom(k: nat, n: nat)
    requires k <= 27
    ensures AfterWheels(Pow(ZOOM_FACTOR, k), Repeat(1, n)) == Pow(ZOOM_FACTOR, if k + n <= 27 then k + n else 27)
    decreases n
  {
    if n > 0 {
      var z := Pow(ZOOM_FACTOR, k);
      PowGrows(ZOOM_FACTOR, k, 27);
      ZoomLimits();
      if k < 27 {
        PowGrows(ZOOM_FACTOR, k + 1, 27);
        assert NextZoom(z, 1) == Pow(ZOOM_FACTOR, k + 1);
        ZoomInFrom(k + 1, n - 1);
      } else {
        assert NextZoom(z, 1) == z;
        ZoomInFrom(k, n - 1);
      }
    }
  }

  lemma ZoomInFromOne(n: nat)
    ensures AfterWheels(1.0, Repeat(1, n)) == Pow(ZOOM_FACTOR, if n <= 27 then n else 27)
  {
    ZoomInFrom(0, n);
  }

  /**
   * Zooming out from 1.0: the k-th accepted step gives (1/ZOOM_FACTOR)^k, and
   * the steps stop being accepted after 21 of them.
   */
  lemma {:induction false} ZoomOutFrom(k: nat, n: nat)
    requires k <= 21
    ensures AfterWheels(Pow(1.0 / ZOOM_FACTOR, k), Repeat(-1, n)) == Pow(1.0 / ZOOM_FACTOR, if k + n <= 21 then k + n else 21)
    decreases n
  {
    if n > 0 {
      var z := Pow(1.0 / ZOOM_FACTOR, k);
      PowShrinks(1.0 / ZOOM_FACTOR, k, 21);
      ZoomLimits();
      if k < 21 {
        PowShrinks(1.0 / ZOOM_FACTOR, k + 1, 21);
        assert NextZoom(z, -1) == Pow(1.0 / ZOOM_FACTOR, k + 1);
        ZoomOutFrom(k + 1, n - 1);
      } else {
        assert NextZoom(z, -1) == z;
        ZoomOutFrom(k, n - 1);
      }
    }
  }

  lemma ZoomOutFromOne(n: nat)
    ensures AfterWheels(1.0, Repeat(-1, n)) == Pow(1.0 / ZOOM_FACTOR, if n <= 21 then n else 21)
  {
    ZoomOutFrom(0, n);
  }

  /**
   * The scroll offset after one pan move along one axis, from pointer
   * coordinate `from` to `to`: the offset moves against the pointer by the
   * pointer delta truncated toward zero, so it never overshoots the delta and
   * falls short of it by less than one pixel.
   */
  function PanScroll(offset: int, from: real, to: real): (r: int)
    ensures 0.0 <= to - from ==> r <= offset && offset as real - (to - from) < r as real + 1.0 && r as real >= offset as real - (to - from)
    ensures to - from < 0.0 ==> offset <= r && r as real <= offset as real - (to - from) && r as real - 1.0 < offset as real - (to - from)
  {
    offset - Trunc(to - from)
  }

  /** The scroll offset after a pan drag from `start` through the pointer coordinates `path`. */
  function DragScroll(offset: int, start: real, path: seq<real>): int
    decreases |path|
  {
    if path == [] then offset else DragScroll(PanScroll(offset, start, path[0]), path[0], path[1..])
  }

  predicate IsWhole(r: real)
  {
    r == r.Floor as real
  }

  lemma WholeDifference(a: real, b: real)
    requires IsWhole(a) && IsWhole(b)
    ensures Trunc(b - a) as real == b - a
  {
    var d := b.Floor - a.Floor;
    assert b - a == d as real;
    TruncOfWhole(d);
  }

  lemma TruncOfWhole(n: int)
    ensures Trunc(n as real) == n
  {
    if n < 0 {
      assert (-(n as real)).Floor == -n;
    }
  }

  /**
   * When the pointer only reports whole-pixel positions, a whole drag scrolls
   * the view by exactly minus the pointer's total displacement.
   */
  lemma {:induction false} WholePixelDrag(offset: int, start: real, path: seq<real>)
    requires IsWhole(start)
    requires forall i :: 0 <= i < |path| ==> IsWhole(path[i])
    ensures DragScroll(offset, start, path) as real
      == offset as real - ((if path == [] then start else path[|path| - 1]) - start)
    decreases |path|
  {
    if path != [] {
      var next := PanScroll(offset, start, path[0]);
      assert IsWhole(path[0]);
      WholeDifference(start, path[0]);
      WholePixelDrag(next, path[0], path[1..]);
      if |path| > 1 {
        assert path[1..][|path[1..]| - 1] == path[|path| - 1];
      }
    }
  }

  /**
   * Every move of a drag is truncated on its own: when each single move is
   * less than one pixel, the drag never scrolls, however far it goes in total.
   */
  lemma {:induction false} SubPixelDragsDoNotScroll(offset: int, start: real, path: seq<real>)
    requires path != [] ==> -1.0 < path[0] - start < 1.0
    requires forall i :: 0 < i < |path| ==> -1.0 < path[i] - path[i - 1] < 1.0
    ensures DragScroll(offset, start, path) == offset
    decreases |path|
  {
    if path != [] {
      assert PanScroll(offset, start, path[0]) == offset;
      forall i | 0 < i < |path[1..]|
        ensures -1.0 < path[1..][i] - path[1..][i - 1] < 1.0
      {
        assert path[1..][i] == path[i + 1] && path[1..][i - 1] == path[i];
      }
      if |path| > 1 {
        assert -1.0 < path[1] - path[0] < 1.0;
      }
      SubPixelDragsDoNotScroll(offset, path[0], path[1..]);
    }
  }

  /**
   * With fractional pointer positions every move is truncated on its own, so
   * sub-pixel motion is lost: a drag of two whole pixels in half-pixel moves
   * does not scroll at all.
   */
  lemma SubPixelDragIsLost()
    ensures DragScroll(0, 0.0, [0.5, 1.0, 1.5, 2.0]) == 0
  {
  }
}
