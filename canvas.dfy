/**
 * The image canvas state machine: the loaded image (abstracted to its pixel
 * size), the point markers, the logical zoom, the panning state with the
 * scroll offsets, and the visibility of the cursor coordinate overlay.
 * Handlers take the pointer's view position and the scene position it maps
 * to as inputs; drawing is not modelled.
 */
module Canvas {
  import opened Wrappers
  import opened Geometry
  import opened Viewport

  datatype Button = LeftButton | RightButton | MiddleButton | OtherButton

  /** The coordinates a point marker carries. */
  datatype PointMarker = PointMarker(imgX: int, imgY: int)

  /** The signals the canvas emits to its host. */
  datatype Signal = CoordChanged(x: int, y: int) | PointAdded(x: int, y: int) | PointsCleared

  /** A middle press, or a left press with Ctrl held, starts panning. */
  predicate StartsPan(button: Button, ctrl: bool)
  {
    button == MiddleButton || (button == LeftButton && ctrl)
  }

  predicate OnImage(size: Size, m: PointMarker)
  {
    InImage(size, Pixel(m.imgX, m.imgY))
  }

  /** The `(x, y)` pairs of a marker list, in list order. */
  function Coords(markers: seq<PointMarker>): seq<(int, int)>
  {
    seq(|markers|, i requires 0 <= i < |markers| => (markers[i].imgX, markers[i].imgY))
  }

  /** Appending a marker appends its coordinates: the reading keeps insertion order. */
  lemma CoordsAppend(markers: seq<PointMarker>, m: PointMarker)
    ensures Coords(markers + [m]) == Coords(markers) + [(m.imgX, m.imgY)]
  {
  }

  class ImageCanvas {
    var image: Option<Size>          // the pixmap item, abstracted to its size
    var hasImage: bool
    var markers: seq<PointMarker>
    var zoom: real
    var panning: bool
    var panStart: Point              // view position of the last pan press or move
    var hScroll: int
    var vScroll: int
    var overlayVisible: bool         // the coordinate overlay's background and text

    ghost predicate Valid()
      reads this
    {
      (hasImage <==> image.Some?)
      && InZoomRange(zoom)
      && (forall m :: m in markers ==> image.Some? && OnImage(image.value, m))
      && (overlayVisible ==> hasImage)
    }

    constructor ()
      ensures Valid()
      ensures image == None && !hasImage && markers == [] && zoom == 1.0
      ensures !panning && panStart == Point(0.0, 0.0) && hScroll == 0 && vScroll == 0
      ensures !overlayVisible
    {
      image := None;
      hasImage := false;
      markers := [];
      zoom := 1.0;
      panning := false;
      panStart := Point(0.0, 0.0);
      hScroll, vScroll := 0, 0;
      overlayVisible := false;
    }

    /** The marker coordinates in insertion order; each lies on the loaded image. */
    function GetPoints(): (r: seq<(int, int)>)
      reads this
      requires Valid()
      ensures |r| == |markers|
      ensures forall i :: 0 <= i < |r| ==> r[i] == (markers[i].imgX, markers[i].imgY)
      ensures forall i :: 0 <= i < |r| ==> image.Some? && InImage(image.value, Pixel(r[i].0, r[i].1))
      ensures !hasImage ==> r == []
    {
      var r := Coords(markers);
      assert forall i :: 0 <= i < |r| ==> r[i] == (markers[i].imgX, markers[i].imgY) && markers[i] in markers;
      assert |markers| > 0 ==> markers[0] in markers;
      r
    }

    function HasImage(): (r: bool)
      reads this
      requires Valid()
      ensures r <==> image.Some?
    {
      hasImage
    }

    /**
     * Loads a decoded image (`None` when decoding failed). On failure nothing
     * changes; on success the canvas is cleared and shows the new image at
     * logical zoom 1.0. The fitting transform Qt then applies is not modelled.
     */
    method LoadImage(decoded: Option<Size>) returns (ok: bool)
      requires Valid()
      modifies this
      ensures Valid()
      ensures ok <==> decoded.Some?
      ensures !ok ==>
        image == old(image) && hasImage == old(hasImage) && markers == old(markers)
        && zoom == old(zoom) && panning == old(panning) && panStart == old(panStart)
        && hScroll == old(hScroll) && vScroll == old(vScroll)
        && overlayVisible == old(overlayVisible)
      ensures ok ==>
        image == decoded && hasImage && markers == [] && zoom == 1.0 && !overlayVisible
        && panning == old(panning) && panStart == old(panStart)
    {
      if decoded.None? {
        return false;
      }
      ClearAll();
      image := decoded;
      hasImage := true;
      zoom := 1.0;
      ok := true;
    }

    /** Removes every marker and emits `points_cleared`; the image and view are kept. */
    method ClearPoints() returns (emitted: Option<Signal>)
      requires Valid()
      modifies this
      ensures Valid()
      ensures markers == [] && emitted == Some(PointsCleared)
      ensures image == old(image) && hasImage == old(hasImage) && zoom == old(zoom)
      ensures panning == old(panning) && panStart == old(panStart)
      ensures hScroll == old(hScroll) && vScroll == old(vScroll)
      ensures overlayVisible == old(overlayVisible)
    {
      markers := [];
      emitted := Some(PointsCleared);
    }

    /** Hides the overlay, removes every marker and the image, and resets the logical zoom. */
    method ClearAll()
      requires Valid()
      modifies this
      ensures Valid()
      ensures !overlayVisible && markers == [] && image == None && !hasImage && zoom == 1.0
      ensures panning == old(panning) && panStart == old(panStart)
    {
      overlayVisible := false;
      markers := [];
      image := None;
      hasImage := false;
      zoom := 1.0;
    }

    /**
     * Pointer motion to view position `pos`, which maps to scene position
     * `scene`. While panning it scrolls the view against the pointer's motion
     * and does nothing else; otherwise it shows the overlay and emits
     * `coord_changed` exactly when the cursor is over a pixel of the image.
     */
    method MouseMove(pos: Point, scene: Point) returns (emitted: Option<Signal>)
      requires Valid()
      modifies this
      ensures Valid()
      ensures old(panning) ==>
        panStart == pos
        && hScroll == PanScroll(old(hScroll), old(panStart).x, pos.x)
        && vScroll == PanScroll(old(vScroll), old(panStart).y, pos.y)
        && overlayVisible == old(overlayVisible) && emitted == None
      ensures !old(panning) ==>
        panStart == old(panStart) && hScroll == old(hScroll) && vScroll == old(vScroll)
        && (overlayVisible <==> PixelUnder(image, scene).Some?)
        && emitted == (if overlayVisible then Some(CoordChanged(Trunc(scene.x), Trunc(scene.y))) else None)
      ensures image == old(image) && hasImage == old(hasImage) && markers == old(markers)
      ensures zoom == old(zoom) && panning == old(panning)
    {
      if panning {
        var dx := pos.x - panStart.x;
        var dy := pos.y - panStart.y;
        panStart := pos;
        hScroll := hScroll - Trunc(dx);
        vScroll := vScroll - Trunc(dy);
        return None;
      }
      if !hasImage {
        overlayVisible := false;
        return None;
      }
      var imgX := Trunc(scene.x);
      var imgY := Trunc(scene.y);
      if 0 <= imgX < image.value.width && 0 <= imgY < image.value.height {
        overlayVisible := true;
        emitted := Some(CoordChanged(imgX, imgY));
      } else {
        overlayVisible := false;
        emitted := None;
      }
    }

    /**
     * A button press at view position `pos`, mapping to scene position
     * `scene`. A panning press records `pos` and adds nothing. A plain left
     * press with an image loaded appends one marker, and emits `point_added`,
     * exactly when the cursor is over a pixel of the image.
     */
    method MousePress(button: Button, ctrl: bool, pos: Point, scene: Point) returns (emitted: Option<Signal>)
      requires Valid()
      modifies this
      ensures Valid()
      ensures StartsPan(button, ctrl) ==>
        panning && panStart == pos && markers == old(markers) && emitted == None
      ensures !StartsPan(button, ctrl) ==> panning == old(panning) && panStart == old(panStart)
      ensures !StartsPan(button, ctrl) && button == LeftButton && PixelUnder(image, scene).Some? ==>
        markers == old(markers) + [PointMarker(Trunc(scene.x), Trunc(scene.y))]
        && emitted == Some(PointAdded(Trunc(scene.x), Trunc(scene.y)))
      ensures StartsPan(button, ctrl) || button != LeftButton || PixelUnder(image, scene).None? ==>
        markers == old(markers) && emitted == None
      ensures image == old(image) && hasImage == old(hasImage) && zoom == old(zoom)
      ensures hScroll == old(hScroll) && vScroll == old(vScroll)
      ensures overlayVisible == old(overlayVisible)
    {
      if button == MiddleButton || (button == LeftButton && ctrl) {
        panning := true;
        panStart := pos;
        return None;
      }
      if button != LeftButton || !hasImage {
        return None;
      }
      var imgX := Trunc(scene.x);
      var imgY := Trunc(scene.y);
      if 0 <= imgX < image.value.width && 0 <= imgY < image.value.height {
        markers := markers + [PointMarker(imgX, imgY)];
        emitted := Some(PointAdded(imgX, imgY));
      } else {
        emitted := None;
      }
    }

    /** Any button release ends panning; otherwise it changes nothing. */
    method MouseRelease()
      requires Valid()
      modifies this
      ensures Valid()
      ensures !panning
      ensures image == old(image) && hasImage == old(hasImage) && markers == old(markers)
      ensures zoom == old(zoom) && panStart == old(panStart)
      ensures hScroll == old(hScroll) && vScroll == old(vScroll)
      ensures overlayVisible == old(overlayVisible)
    {
      if panning {
        panning := false;
        return;
      }
    }

    /**
     * A left double-click with an image loaded resets the logical zoom to 1.0
     * (the view is fitted again); any other double-click changes nothing.
     */
    method MouseDoubleClick(button: Button)
      requires Valid()
      modifies this
      ensures Valid()
      ensures zoom == if old(hasImage) && button == LeftButton then 1.0 else old(zoom)
      ensures !(old(hasImage) && button == LeftButton) ==> hScroll == old(hScroll) && vScroll == old(vScroll)
      ensures image == old(image) && hasImage == old(hasImage) && markers == old(markers)
      ensures panning == old(panning) && panStart == old(panStart)
      ensures overlayVisible == old(overlayVisible)
    {
      if hasImage && button == LeftButton {
        zoom := 1.0;
      }
    }

    /**
     * A wheel event: with an image loaded the logical zoom takes one guarded
     * step (see NextZoom); with no image nothing changes.
     */
    method Wheel(angleDeltaY: int)
      requires Valid()
      modifies this
      ensures Valid()
      ensures zoom == if old(hasImage) then NextZoom(old(zoom), angleDeltaY) else old(zoom)
      ensures zoom == old(zoom) ==> hScroll == old(hScroll) && vScroll == old(vScroll)
      ensures image == old(image) && hasImage == old(hasImage) && markers == old(markers)
      ensures panning == old(panning) && panStart == old(panStart)
      ensures overlayVisible == old(overlayVisible)
    {
      if !hasImage {
        return;
      }
      var factor := WheelFactor(angleDeltaY);
      var newZoom := zoom * factor;
      if MIN_ZOOM <= newZoom <= MAX_ZOOM {
        zoom := newZoom;
      }
    }

    /** The pointer leaving the view always hides the overlay. */
    method Leave()
      requires Valid()
      modifies this
      ensures Valid()
      ensures !overlayVisible
      ensures image == old(image) && hasImage == old(hasImage) && markers == old(markers)
      ensures zoom == old(zoom) && panning == old(panning) && panStart == old(panStart)
      ensures hScroll == old(hScroll) && vScroll == old(vScroll)
    {
      overlayVisible := false;
    }
  }
}
