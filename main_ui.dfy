/**
 * The control window (modules/main_ui.py): it sits directly above the image
 * overlay, 2 pixels apart and as wide as the overlay. Moving the control
 * window moves the overlay; moving or resizing the overlay moves and widens
 * the control window.
 *
 * Qt delivers a move or resize event after the geometry changed; here each
 * handler is a method the caller runs after the change it reacts to.
 */
module MainUi {
  import ImgView

  /** `VIEWER_Y_MARGIN`. */
  const ViewerYMargin := 2

  /** A window geometry: top-left corner and size. */
  datatype Geometry = Geometry(x: int, y: int, width: int, height: int)

  /** Where `moveEvent` puts the overlay for a control window at `win`. */
  function OverlayPosition(win: Geometry): (p: ImgView.Point)
    ensures p.x == win.x && p.y - win.y == win.height + ViewerYMargin
  {
    ImgView.Point(win.x, win.y + win.height + ViewerYMargin)
  }

  /** Where `_adapt_img_view_position` puts the control window for an overlay at `overlay`. */
  function AdaptedWindow(win: Geometry, overlay: Geometry): (r: Geometry)
    ensures r.x == overlay.x && overlay.y - r.y == win.height + ViewerYMargin
    ensures r.width == overlay.width && r.height == win.height
  {
    Geometry(overlay.x, overlay.y - win.height - ViewerYMargin, overlay.width, win.height)
  }

  /**
   * The two handlers undo each other: moving the control window and then
   * adapting to the overlay restores the window's corner, and adapting to the
   * overlay and then moving the window puts the overlay back where it was.
   */
  lemma CouplingRoundTrip(win: Geometry, overlay: Geometry)
    ensures var p := OverlayPosition(win);
            var back := AdaptedWindow(win, Geometry(p.x, p.y, overlay.width, overlay.height));
            back.x == win.x && back.y == win.y && back.height == win.height
    ensures OverlayPosition(AdaptedWindow(win, overlay)) == ImgView.Point(overlay.x, overlay.y)
  {
  }

  /** A target rectangle picked on the desktop: top-left corner and size. */
  datatype Rect = Rect(left: int, top: int, width: int, height: int)

  class ViewerWindow {
    var x: int
    var y: int
    var width: int
    var height: int
    const imgView: ImgView.ImageView

    constructor (imgView: ImgView.ImageView)
      ensures this.imgView == imgView
      ensures x == 0 && y == 0 && width == 1280 && height == 1
    {
      this.imgView := imgView;
      x, y, width, height := 0, 0, 1280, 1;
    }

    function Geom(): Geometry
      reads this
    {
      Geometry(x, y, width, height)
    }

    function OverlayGeom(): Geometry
      reads imgView
    {
      Geometry(imgView.x, imgView.y, imgView.width, imgView.height)
    }

    /** `moveEvent`: the overlay follows to just below the control window. */
    method MoveEvent()
      modifies imgView
      ensures imgView.Pos() == OverlayPosition(Geom())
      ensures imgView.width == old(imgView.width) && imgView.height == old(imgView.height)
      ensures imgView.zoomIndex == old(imgView.zoomIndex) && imgView.title == old(imgView.title)
    {
      imgView.x, imgView.y := x, y + height + ViewerYMargin;
    }

    /** `_adapt_img_view_position`: the control window moves to just above the overlay and takes its width. */
    method AdaptImgViewPosition()
      modifies this
      ensures Geom() == AdaptedWindow(old(Geom()), OverlayGeom())
    {
      x, y, width := imgView.x, imgView.y - height - ViewerYMargin, imgView.width;
    }

    /**
     * `_img_view_move_wrapper` and `_img_view_resize_wrapper` (the overlay's
     * `moveEvent` and `resizeEvent` run the same check): the overlay's own
     * handler runs first and may pull the overlay back onto the screen; then
     * the control window follows the overlay where it ended up. The event is
     * accepted either way.
     */
    method ImgViewGeometryWrapper(desk: ImgView.Desktop)
      modifies this, imgView
      ensures imgView.Pos() ==
                if ImgView.IsInsideLimit(ImgView.ScreenLimits(desk, imgView.width, imgView.height), old(imgView.Pos()))
                then old(imgView.Pos())
                else ImgView.ClampedIntoLimit(ImgView.ScreenLimits(desk, imgView.width, imgView.height), old(imgView.Pos()))
      ensures imgView.width == old(imgView.width) && imgView.height == old(imgView.height)
      ensures Geom() == AdaptedWindow(old(Geom()), OverlayGeom())
    {
      var accepted := imgView.MoveEvent(desk);
      AdaptImgViewPosition();
    }

    /** `_locate_win_result`: the overlay takes the size and the corner of the picked window. */
    method LocateWinResult(target: Rect)
      modifies imgView
      ensures OverlayGeom() == Geometry(target.left, target.top, target.width, target.height)
      ensures imgView.zoomIndex == old(imgView.zoomIndex) && imgView.title == old(imgView.title)
    {
      imgView.width, imgView.height := target.width, target.height;
      imgView.x, imgView.y := target.left, target.top;
    }
  }

  /**
   * Adapting depends only on the window's height and the overlay: adapting an
   * adapted window to the same overlay changes nothing, and two windows of one
   * height end in the same place.
   */
  lemma AdaptIdempotent(win: Geometry, other: Geometry, overlay: Geometry)
    ensures AdaptedWindow(AdaptedWindow(win, overlay), overlay) == AdaptedWindow(win, overlay)
    ensures other.height == win.height ==> AdaptedWindow(other, overlay) == AdaptedWindow(win, overlay)
  {
  }
}
