/**
 * The frameless image overlay (modules/img_view.py): keeping its top-left
 * corner inside limits derived from the desktop, clamping its size, moving the
 * zoom box index, shortening long titles, and the guard in front of the
 * DeltaGen sync toggle.
 *
 * Geometry is in integer pixels. The desktop, the background pixmap's size and
 * the centre position chosen by `place_in_screen_center` are parameters.
 */
module ImgView {
  import DeltaGenViewer
  import Widgets

  datatype Point = Point(x: int, y: int)

  /**
   * The QRect `calculate_screen_limits` builds. Its `width` and `height` fields
   * are used as the largest allowed x and y, not as extents.
   */
  datatype Limit = Limit(x: int, y: int, width: int, height: int)

  /** `desktop().x()`, `desktop().y()`, `desktop().width()` and `availableGeometry().height()`. */
  datatype Desktop = Desktop(x: int, y: int, width: int, availableHeight: int)

  const MinSize := 50
  const MaxSize := 4096
  const TitleLimit := 85
  const TitleHead := 65
  const TitleTail := 20

  /** The control window's title after `reset`: the application's name. */
  const AppName := "KnechtViewer"

  /** `is_inside_limit`: both coordinates lie between the limit's minimum and maximum, inclusive. */
  function IsInsideLimit(limit: Limit, pos: Point): (r: bool)
    ensures r <==> limit.x <= pos.x <= limit.width && limit.y <= pos.y <= limit.height
  {
    if pos.x < limit.x || pos.x > limit.width then false
    else if pos.y < limit.y || pos.y > limit.height then false
    else true
  }

  /** Python's `round(n / 2)`: halves are rounded to the even neighbour. */
  function HalfRound(n: int): (r: int)
    ensures n % 2 == 0 ==> 2 * r == n
    ensures n % 2 == 1 ==> (2 * r == n - 1 || 2 * r == n + 1) && r % 2 == 0
  {
    if n % 2 == 0 then n / 2
    else
      var q := (n - 1) / 2;
      if q % 2 == 0 then q else q + 1
  }

  /** `calculate_screen_limits` for an overlay of the given width and height. */
  function ScreenLimits(desk: Desktop, width: int, height: int): Limit
  {
    var wm := HalfRound(width);
    var hm := HalfRound(height);
    Limit(desk.x - wm, desk.y - hm, desk.x + desk.width - wm, desk.availableHeight - hm)
  }

  /**
   * The overlay's centre may reach every point of the desktop and no further:
   * the limits are the desktop's edges shifted by half the overlay's size, and
   * they are ordered whenever the desktop is.
   */
  lemma ScreenLimitsCentre(desk: Desktop, width: int, height: int)
    ensures var l := ScreenLimits(desk, width, height);
      && -1 <= 2 * (desk.x - l.x) - width <= 1
      && -1 <= 2 * (desk.y - l.y) - height <= 1
      && l.width - l.x == desk.width
      && l.height - l.y == desk.availableHeight - desk.y
      && (desk.width >= 0 && desk.availableHeight >= desk.y ==> l.x <= l.width && l.y <= l.height)
  {
  }

  function Clamp(lo: int, hi: int, v: int): int
  {
    if hi < (if lo < v then v else lo) then hi else if lo < v then v else lo
  }

  /** The corner `moved_out_of_limit` moves to: each coordinate clamped into the limit. */
  function ClampedIntoLimit(limit: Limit, pos: Point): (r: Point)
    ensures limit.x <= limit.width ==> limit.x <= r.x <= limit.width
    ensures limit.y <= limit.height ==> limit.y <= r.y <= limit.height
    ensures limit.x <= pos.x <= limit.width ==> r.x == pos.x
    ensures limit.y <= pos.y <= limit.height ==> r.y == pos.y
  {
    Point(Clamp(limit.x, limit.width, pos.x), Clamp(limit.y, limit.height, pos.y))
  }

  /**
   * Clamping puts an outside corner inside ordered limits, and a corner that
   * is already inside is a fixed point, so a second correction changes nothing.
   */
  lemma ClampedIsInside(limit: Limit, pos: Point)
    ensures limit.x <= limit.width && limit.y <= limit.height ==>
            IsInsideLimit(limit, ClampedIntoLimit(limit, pos))
    ensures IsInsideLimit(limit, pos) ==> ClampedIntoLimit(limit, pos) == pos
  {
  }

  /** `min(hi, max(lo, v))` for the size bounds of `resize_image_viewer`. */
  function ClampedSize(v: int): (r: int)
    ensures MinSize <= r <= MaxSize
    ensures MinSize <= v <= MaxSize ==> r == v
    ensures v > MaxSize ==> r == MaxSize
    ensures v < MinSize ==> r == MinSize
  {
    Clamp(MinSize, MaxSize, v)
  }

  /** `min(count - 1, max(current + add, 0))`. */
  function SizeBoxIndex(count: int, current: int, add: int): (r: int)
    ensures count >= 1 ==> 0 <= r < count
    ensures 0 <= current + add < count ==> r == current + add
    ensures count >= 1 && current + add < 0 ==> r == 0
    ensures current + add >= count ==> r == count - 1
  {
    Clamp(0, count - 1, current + add)
  }

  /** The window title for an image name: long names keep their first 65 and last 20 characters around `~`. */
  function TruncatedTitle(name: string): (r: string)
    ensures |name| < TitleLimit ==> r == name
    ensures |name| >= TitleLimit ==>
              && |r| == TitleHead + 1 + TitleTail
              && r[..TitleHead] == name[..TitleHead]
              && r[TitleHead] == '~'
              && r[TitleHead + 1..] == name[|name| - TitleTail..]
  {
    if |name| >= TitleLimit then name[..TitleHead] + "~" + name[|name| - TitleTail..] else name
  }

  /** Titles are never longer than 86 characters, and shortening a title again changes nothing. */
  lemma TruncatedTitleStable(name: string)
    ensures |TruncatedTitle(name)| <= TitleHead + 1 + TitleTail
    ensures TruncatedTitle(TruncatedTitle(name)) == TruncatedTitle(name)
  {
    var r := TruncatedTitle(name);
    if |name| >= TitleLimit {
      var r2 := TruncatedTitle(r);
      assert r2[..TitleHead] == r[..TitleHead];
      assert r2[TitleHead + 1..] == r[|r| - TitleTail..] == r[TitleHead + 1..];
      assert r2 == r2[..TitleHead] + [r2[TitleHead]] + r2[TitleHead + 1..];
      assert r == r[..TitleHead] + [r[TitleHead]] + r[TitleHead + 1..];
    }
  }

  /** `dg_toggle_sync` of the overlay: ignored while the sync button is disabled. */
  function ViewerSyncToggled(buttonEnabled: bool, c: DeltaGenViewer.ControllerState, focusChecked: bool,
                             alive: bool, en: DeltaGenViewer.Enumeration): (DeltaGenViewer.ControllerState, bool)
  {
    if !buttonEnabled then (c, false) else DeltaGenViewer.SyncToggled(c, focusChecked, alive, en)
  }

  /**
   * A disabled button changes nothing; an enabled one forwards exactly one
   * toggle, so a running thread flips sync on or off (on only when DeltaGen is
   * alive).
   */
  lemma ViewerToggleGuard(buttonEnabled: bool, c: DeltaGenViewer.ControllerState, focusChecked: bool,
                          alive: bool, en: DeltaGenViewer.Enumeration)
    ensures !buttonEnabled ==> ViewerSyncToggled(buttonEnabled, c, focusChecked, alive, en) == (c, false)
    ensures buttonEnabled && c.lifecycle == DeltaGenViewer.Running ==>
            var (d, raised) := ViewerSyncToggled(buttonEnabled, c, focusChecked, alive, en);
            !raised && d.lifecycle == DeltaGenViewer.Running &&
            d.thread.syncDg == (!c.thread.syncDg && alive)
  {
    if buttonEnabled && c.lifecycle == DeltaGenViewer.Running {
      DeltaGenViewer.ToggleAppends(c.thread, alive, en);
    }
  }

  class ImageView {
    var x: int
    var y: int
    var width: int
    var height: int
    var zoomIndex: int
    var zoomCount: int
    var title: string
    var syncBtnEnabled: bool
    var syncBtnChecked: bool
    const dgThread: DeltaGenViewer.SyncController

    /**
     * `__init__`: `set_default_image` takes the background pixmap's size
     * `bgWidth` x `bgHeight` at factor 1.0, resets the control window (the zoom
     * box on the 100 % entry, the title the application's name) and resizes
     * the overlay within the size bounds; `place_in_screen_center` then moves
     * it to `centre`. The sync button starts enabled and unchecked.
     */
    constructor (bgWidth: int, bgHeight: int, zoomItems: seq<Widgets.Item>, centre: Point,
                 dgThread: DeltaGenViewer.SyncController)
      ensures width == ClampedSize(bgWidth) && height == ClampedSize(bgHeight)
      ensures Pos() == centre
      ensures zoomCount == |zoomItems| && zoomIndex == Widgets.FindData(zoomItems, 1.0)
      ensures title == AppName && syncBtnEnabled && !syncBtnChecked
      ensures this.dgThread == dgThread
    {
      this.dgThread := dgThread;
      zoomCount := |zoomItems|;
      zoomIndex := Widgets.FindData(zoomItems, 1.0);
      title := AppName;
      width := ClampedSize(bgWidth);
      height := ClampedSize(bgHeight);
      x, y := centre.x, centre.y;
      syncBtnEnabled, syncBtnChecked := true, false;
    }

    function Pos(): Point
      reads this
    {
      Point(x, y)
    }

    /** `moved_out_of_limit`: an outside corner is clamped into the limits and reported. */
    method MovedOutOfLimit(desk: Desktop) returns (moved: bool)
      modifies this
      ensures moved <==> !IsInsideLimit(ScreenLimits(desk, width, height), old(Pos()))
      ensures Pos() == if moved then ClampedIntoLimit(ScreenLimits(desk, width, height), old(Pos())) else old(Pos())
      ensures width == old(width) && height == old(height) && zoomIndex == old(zoomIndex)
      ensures title == old(title) && syncBtnEnabled == old(syncBtnEnabled) && syncBtnChecked == old(syncBtnChecked)
    {
      var limit := ScreenLimits(desk, width, height);
      var pos := Pos();
      if !IsInsideLimit(limit, pos) {
        var p := ClampedIntoLimit(limit, pos);
        x, y := p.x, p.y;
        return true;
      }
      return false;
    }

    /** `moveEvent` and `resizeEvent`: the event is accepted iff no correction was needed. */
    method MoveEvent(desk: Desktop) returns (accepted: bool)
      modifies this
      ensures accepted <==> IsInsideLimit(ScreenLimits(desk, width, height), old(Pos()))
      ensures Pos() == if accepted then old(Pos()) else ClampedIntoLimit(ScreenLimits(desk, width, height), old(Pos()))
      ensures width == old(width) && height == old(height) && zoomIndex == old(zoomIndex)
      ensures title == old(title) && syncBtnEnabled == old(syncBtnEnabled) && syncBtnChecked == old(syncBtnChecked)
      ensures desk.width >= 0 && desk.availableHeight >= desk.y ==>
                IsInsideLimit(ScreenLimits(desk, width, height), Pos())
    {
      var moved := MovedOutOfLimit(desk);
      ScreenLimitsCentre(desk, width, height);
      ClampedIsInside(ScreenLimits(desk, width, height), old(Pos()));
      accepted := !moved;
    }

    /** `place_inside_screen`: `centre` is where `place_in_screen_center` would move the overlay. */
    method PlaceInsideScreen(desk: Desktop, centre: Point)
      modifies this
      ensures Pos() == if IsInsideLimit(ScreenLimits(desk, width, height), old(Pos())) then old(Pos()) else centre
      ensures width == old(width) && height == old(height) && zoomIndex == old(zoomIndex)
    {
      if !IsInsideLimit(ScreenLimits(desk, width, height), Pos()) {
        x, y := centre.x, centre.y;
      }
    }

    /** `resize_image_viewer`. */
    method ResizeImageViewer(newWidth: int, newHeight: int)
      modifies this
      ensures width == ClampedSize(newWidth) && height == ClampedSize(newHeight)
      ensures Pos() == old(Pos()) && zoomIndex == old(zoomIndex)
    {
      width := ClampedSize(newWidth);
      height := ClampedSize(newHeight);
    }

    /** `set_size_box_index`. */
    method SetSizeBoxIndex(add: int)
      modifies this
      ensures zoomIndex == SizeBoxIndex(zoomCount, old(zoomIndex), add)
      ensures Pos() == old(Pos()) && width == old(width) && height == old(height)
    {
      zoomIndex := SizeBoxIndex(zoomCount, zoomIndex, add);
    }

    /** The title part of `image_loaded`. */
    method SetImageTitle(name: string)
      modifies this
      ensures title == TruncatedTitle(name)
      ensures Pos() == old(Pos()) && zoomIndex == old(zoomIndex)
    {
      if |name| >= TitleLimit {
        title := name[..TitleHead] + "~" + name[|name| - TitleTail..];
      } else {
        title := name;
      }
    }

    /** `dg_toggle_btn`, called by the thread's signal. */
    method DgToggleBtn(enabled: bool)
      modifies this
      ensures syncBtnEnabled == enabled && syncBtnChecked == old(syncBtnChecked) && Pos() == old(Pos())
    {
      syncBtnEnabled := enabled;
    }

    /**
     * `dg_check_btn`, called by the thread's signal. When the checked state
     * changes, `toggled` fires into `dg_toggle_sync`, which forwards a toggle
     * only while the button is enabled; `focusChecked`, `alive` and `en` are
     * what that toggle would read.
     */
    method DgCheckBtn(checked: bool, focusChecked: bool, alive: bool, en: DeltaGenViewer.Enumeration)
      returns (raised: bool)
      modifies this, dgThread, dgThread.thread, dgThread.thread.winMgr
      ensures syncBtnChecked == checked && syncBtnEnabled == old(syncBtnEnabled) && Pos() == old(Pos())
      ensures width == old(width) && height == old(height) && zoomIndex == old(zoomIndex) && title == old(title)
      ensures (dgThread.State(), raised) ==
              if checked == old(syncBtnChecked) then (old(dgThread.State()), false)
              else ViewerSyncToggled(syncBtnEnabled, old(dgThread.State()), focusChecked, alive, en)
    {
      var changed := checked != syncBtnChecked;
      syncBtnChecked := checked;
      raised := false;
      if changed {
        raised := DgToggleSync(focusChecked, alive, en);
      }
    }

    /** `dg_toggle_pull`. */
    method DgTogglePull(focusChecked: bool)
      modifies dgThread.thread
      ensures dgThread.State() ==
              old(dgThread.State()).(thread := DeltaGenViewer.PullToggled(old(dgThread.State()).thread, focusChecked))
    {
      dgThread.TogglePull(focusChecked);
    }

    /** `dg_toggle_sync`. */
    method DgToggleSync(focusChecked: bool, alive: bool, en: DeltaGenViewer.Enumeration) returns (raised: bool)
      modifies dgThread, dgThread.thread, dgThread.thread.winMgr
      ensures (dgThread.State(), raised) ==
              ViewerSyncToggled(syncBtnEnabled, old(dgThread.State()), focusChecked, alive, en)
    {
      if !syncBtnEnabled {
        return false;
      }
      raised := dgThread.ToggleSync(focusChecked, alive, en);
    }

    /** The sync part of `closeEvent`. */
    method CloseEvent()
      modifies dgThread, dgThread.thread, dgThread.thread.winMgr
      ensures dgThread.State() == DeltaGenViewer.Exited(old(dgThread.State()))
    {
      dgThread.Exit();
    }
  }
}
