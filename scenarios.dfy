/** Client runs of the canvas, showing what its contracts let a host conclude. */
module Scenarios {
  import opened Wrappers
  import opened Geometry
  import opened Canvas

  /** On an 800x600 image, a left click over pixel (100, 50) records that one point. */
  method ClickRecordsPoint() returns (points: seq<(int, int)>)
    ensures points == [(100, 50)]
  {
    var c := new ImageCanvas();
    var ok := c.LoadImage(Some(Size(800, 600)));
    var e := c.MousePress(LeftButton, false, Point(310.0, 220.0), Point(100.4, 50.9));
    CoordsAppend([], PointMarker(100, 50));
    points := c.GetPoints();
  }

  /** A load that fails after points were recorded keeps the image, the points and the zoom. */
  method FailedLoadKeepsState() returns (loaded: bool, image: Option<Size>, points: seq<(int, int)>, zoom: real)
    ensures !loaded && image == Some(Size(800, 600)) && points == [(10, 10), (20, 20)] && zoom == 1.15
  {
    var c := new ImageCanvas();
    var ok := c.LoadImage(Some(Size(800, 600)));
    c.Wheel(120);
    var e := c.MousePress(LeftButton, false, Point(0.0, 0.0), Point(10.0, 10.0));
    CoordsAppend([], PointMarker(10, 10));
    e := c.MousePress(LeftButton, false, Point(0.0, 0.0), Point(20.0, 20.0));
    CoordsAppend([PointMarker(10, 10)], PointMarker(20, 20));
    loaded := c.LoadImage(None);
    image := c.image;
    points := c.GetPoints();
    zoom := c.zoom;
  }

  /**
   * Half a pixel left of the image still records a point in column 0, because
   * the conversion truncates toward zero; a whole pixel left records nothing.
   */
  method ClickLeftOfImage() returns (points: seq<(int, int)>)
    ensures points == [(0, 10)]
  {
    var c := new ImageCanvas();
    var ok := c.LoadImage(Some(Size(800, 600)));
    var e := c.MousePress(LeftButton, false, Point(0.0, 0.0), Point(-0.5, 10.0));
    CoordsAppend([], PointMarker(0, 10));
    e := c.MousePress(LeftButton, false, Point(0.0, 0.0), Point(-1.0, 10.0));
    points := c.GetPoints();
  }

  /**
   * A Ctrl+left press pans instead of marking; dragging the pointer 30 pixels
   * right and 12 up lowers the horizontal scroll offset by 30 and raises the
   * vertical one by 12; the release ends panning.
   */
  method CtrlDragPans() returns (points: seq<(int, int)>, h: int, v: int, panning: bool)
    ensures points == [] && h == -30 && v == 12 && !panning
  {
    var c := new ImageCanvas();
    var ok := c.LoadImage(Some(Size(800, 600)));
    var e := c.MousePress(LeftButton, true, Point(100.0, 100.0), Point(50.0, 50.0));
    var h0, v0 := c.hScroll, c.vScroll;
    e := c.MouseMove(Point(130.0, 88.0), Point(65.0, 44.0));
    c.MouseRelease();
    points := c.GetPoints();
    h, v, panning := c.hScroll - h0, c.vScroll - v0, c.panning;
  }
}
