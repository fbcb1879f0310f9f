/**
 * Synchronisation of the image overlay with the DeltaGen viewer window
 * (modules/deltagen_viewer.py): the window-handle cache of `Win32WindowMgr`,
 * the toggle / sync / pull / teardown steps of `DgSyncThread` and the start and
 * exit guards of `SyncController`.
 *
 * The operating system, pywinauto and the `Ncat` socket are oracles: a liveness
 * flag, the list of windows `EnumWindows` reports, the viewer widget's rectangle
 * or a failed lookup. Everything the thread does to the outside world (socket
 * calls, Qt signals, timer starts, foreground requests) is appended, in order,
 * to one effect log.
 */
module DeltaGenViewer {
  import opened Wrappers
  import opened Text

  // ---------------------------------------------------------------------------
  // Win32WindowMgr
  // ---------------------------------------------------------------------------

  /** A top-level window as `EnumWindows` reports it. */
  datatype Window = Window(hwnd: int, title: string)

  /** `if self._handle:` holds for a handle that is set and not the null handle 0. */
  predicate IsSet(h: Option<int>)
  {
    h.Some? && h.value != 0
  }

  /** `re.match('DELTAGEN .*', title)`: the title starts with `DELTAGEN `. */
  predicate DeltaGenTitle(title: string)
  {
    StartsWith(title, "DELTAGEN ")
  }

  /** The handle the enumeration callback leaves behind: that of the last matching window. */
  function LastMatch(windows: seq<Window>, matches: string -> bool): Option<int>
  {
    if windows == [] then None
    else
      var last := windows[|windows| - 1];
      if matches(last.title) then Some(last.hwnd) else LastMatch(windows[..|windows| - 1], matches)
  }

  /**
   * No window matches iff there is no handle; otherwise the handle is that of a
   * matching window after which no window matches (later matches overwrite
   * earlier ones).
   */
  lemma {:induction false} LastMatchIsLast(windows: seq<Window>, matches: string -> bool)
    ensures LastMatch(windows, matches).None? <==>
            forall i :: 0 <= i < |windows| ==> !matches(windows[i].title)
    ensures LastMatch(windows, matches).Some? ==>
            exists i :: 0 <= i < |windows| && matches(windows[i].title) &&
              LastMatch(windows, matches) == Some(windows[i].hwnd) &&
              forall j :: i < j < |windows| ==> !matches(windows[j].title)
  {
    if windows != [] {
      var n := |windows| - 1;
      var init := windows[..n];
      LastMatchIsLast(init, matches);
      assert forall i :: 0 <= i < n ==> init[i] == windows[i];
      if !matches(windows[n].title) && LastMatch(init, matches).Some? {
        var i :| 0 <= i < n && matches(init[i].title) && LastMatch(init, matches) == Some(init[i].hwnd) &&
                 forall j :: i < j < n ==> !matches(init[j].title);
        assert matches(windows[i].title) && forall j :: i < j < |windows| ==> !matches(windows[j].title);
      }
    }
  }

  class Win32WindowMgr {
    /** `_handle`: None, or what the last lookup returned (0 when `FindWindow` found nothing). */
    var handle: Option<int>

    constructor ()
      ensures handle == None
    {
      handle := None;
    }

    /** `has_handle()`. */
    predicate HasHandle()
      reads this
    {
      IsSet(handle)
    }

    /** `handle()`: the handle when there is one, None otherwise. */
    function Handle(): (r: Option<int>)
      reads this
      ensures r.Some? <==> HasHandle()
      ensures r.Some? ==> r == handle && r.value != 0
    {
      if HasHandle() then handle else None
    }

    /** `clear_handle()`. */
    method ClearHandle()
      modifies this
      ensures handle == None && !HasHandle()
    {
      handle := None;
    }

    /** `find_window`: `found` is what `FindWindow` returned (0 when there is no such window). */
    method FindWindow(found: int)
      modifies this
      ensures handle == Some(found)
      ensures HasHandle() <==> found != 0
    {
      handle := Some(found);
    }

    /**
     * `find_window_wildcard`: the handle is cleared, then every enumerated
     * window whose title matches overwrites it. `windows` are the windows
     * enumerated (up to the point where `EnumWindows` raised, if it did).
     */
    method FindWindowWildcard(windows: seq<Window>, matches: string -> bool)
      modifies this
      ensures handle == LastMatch(windows, matches)
    {
      handle := None;
      var i := 0;
      while i < |windows|
        invariant 0 <= i <= |windows|
        invariant handle == LastMatch(windows[..i], matches)
      {
        assert windows[..i + 1][..i] == windows[..i];
        if matches(windows[i].title) {
          handle := Some(windows[i].hwnd);
        }
        i := i + 1;
      }
      assert windows[..i] == windows;
    }

    /** `set_foreground`: the window handed to `SetForegroundWindow`, None when it is not called. */
    method SetForeground() returns (requested: Option<int>)
      ensures requested.Some? <==> HasHandle()
      ensures requested.Some? ==> requested == handle
    {
      if HasHandle() {
        requested := handle;
      } else {
        requested := None;
      }
    }
  }

  // ---------------------------------------------------------------------------
  // DgSyncThread as a state machine
  // ---------------------------------------------------------------------------

  /** What the thread does to the outside world, in the order it does it. */
  datatype Effect =
    | ConnectionChecked               // ncat.check_connection()
    | Sent(command: string)           // ncat.send(command), also when it raised
    | Received                        // ncat.receive(...)
    | Closed                          // ncat.close()
    | BtnEnabled(enabled: bool)       // set_btn_enabled_signal
    | BtnChecked(checked: bool)       // set_btn_checked_signal
    | PositionViewer(x: int, y: int)  // position_img_viewer_signal
    | TimerStarted                    // dg_btn_timeout.start()
    | ForegroundRequested(hwnd: int)  // win32gui.SetForegroundWindow

  /** The fields `sync_dg`, `pull_viewer_foreground`, `pull_viewer_on_sync_start`, the cached handle and the log. */
  datatype SyncState = SyncState(syncDg: bool, pullForeground: bool, pullOnSyncStart: bool,
                                 handle: Option<int>, effects: seq<Effect>)

  /** What `EnumWindows` did: the windows it enumerated, and whether it raised after them. */
  datatype Enumeration = Enumeration(windows: seq<Window>, raised: bool)

  /** `rectangle()` of the DeltaGen viewer widget. */
  datatype Rect = Rect(left: int, top: int, right: int, bottom: int)

  /**
   * `find_deltagen_viewer_widget` raised (caught and logged), or it returned a
   * widget specification whose `rectangle()` raised (the specification is
   * resolved only there, outside the `try`), or the widget has this rectangle.
   */
  datatype WidgetLookup = LookupRaised | RectRaised | Widget(rect: Rect)

  /** The oracles of one pass of the run loop. */
  datatype Cycle = Cycle(width: int, height: int, sendRaised: bool, widget: WidgetLookup)

  const ResetCommand := "BORDERLESS VIEWER FALSE;"

  /** `UNFREEZE VIEWER;SIZE VIEWER <w> <h>;` for the overlay's current size. */
  function SizeCommand(width: int, height: int): string
  {
    "UNFREEZE VIEWER;SIZE VIEWER " + IntToString(width) + " " + IntToString(height) + ";"
  }

  const InitialSyncState := SyncState(false, false, true, None, [])

  function Emit(s: SyncState, e: seq<Effect>): SyncState
  {
    s.(effects := s.effects + e)
  }

  /** `dg_reset_viewer`. */
  function ViewerReset(s: SyncState): SyncState
  {
    Emit(s, [ConnectionChecked, Sent(ResetCommand), BtnEnabled(true)])
  }

  /** `find_dg_window`: the flag is set only when the enumeration did not raise. */
  function DgWindowFound(s: SyncState, en: Enumeration): SyncState
  {
    var s' := s.(handle := LastMatch(en.windows, DeltaGenTitle));
    if en.raised then s' else s'.(pullOnSyncStart := true)
  }

  /** `dg_toggle_sync`; turning on towards a target that is not alive toggles once more. */
  function Toggled(s: SyncState, alive: bool, en: Enumeration): SyncState
    decreases if s.syncDg then 0 else 1
  {
    var on := !s.syncDg;
    var t := Emit(s.(syncDg := on), [BtnEnabled(false), BtnChecked(on), TimerStarted]);
    if on then
      if alive then DgWindowFound(t, en).(pullOnSyncStart := true) else Toggled(t, alive, en)
    else
      ViewerReset(t)
  }

  /** `sync_window_position`; a raise of `rectangle()` leaves the state as it is and propagates. */
  function PositionSynced(s: SyncState, widget: WidgetLookup): SyncState
  {
    if !IsSet(s.handle) then s
    else
      match widget
      case LookupRaised => s
      case RectRaised => s
      case Widget(r) => Emit(s, [PositionViewer(r.left, r.top)])
  }

  /** `sync_window_position` raises: there is a handle and `rectangle()` raised. */
  predicate PositionRaises(s: SyncState, widget: WidgetLookup)
  {
    IsSet(s.handle) && widget.RectRaised?
  }

  /** `sync_img_viewer`: a failed send is only logged; positioning follows in any case. */
  function ImgViewerSynced(s: SyncState, c: Cycle): SyncState
  {
    var t := Emit(s, [ConnectionChecked, Sent(SizeCommand(c.width, c.height))] +
                     (if c.sendRaised then [] else [Received]));
    PositionSynced(t, c.widget)
  }

  /** `pull_dg_focus`: an exception of `SetForegroundWindow` is only logged. */
  function FocusPulled(s: SyncState): SyncState
  {
    if !s.pullForeground && !s.pullOnSyncStart then s
    else if !IsSet(s.handle) then s
    else Emit(s, [ForegroundRequested(s.handle.value)]).(pullOnSyncStart := false)
  }

  /** `viewer_toggle_pull(enabled)`. */
  function PullToggled(s: SyncState, enabled: bool): SyncState
  {
    s.(pullForeground := !enabled)
  }

  /** `dg_close_connection`. */
  function ConnectionClosed(s: SyncState): SyncState
  {
    if s.syncDg then Emit(ViewerReset(s).(handle := None), [Closed]) else s
  }

  /** One pass of the `run` loop raises: it syncs and the positioning raises. */
  predicate CycleRaises(s: SyncState, c: Cycle)
  {
    s.syncDg && PositionRaises(s, c.widget)
  }

  /** One pass of the `run` loop; when it raises, `pull_dg_focus` is not reached. */
  function Cycled(s: SyncState, c: Cycle): SyncState
  {
    if !s.syncDg then s
    else if CycleRaises(s, c) then ImgViewerSynced(s, c)
    else FocusPulled(ImgViewerSynced(s, c))
  }

  /** Some pass of the `run` loop raised, which ends `run` at once. */
  predicate RunRaises(s: SyncState, cycles: seq<Cycle>)
  {
    cycles != [] &&
    var init := cycles[..|cycles| - 1];
    RunRaises(s, init) || CycleRaises(CyclesRun(s, init), cycles[|cycles| - 1])
  }

  /** The passes of the `run` loop in order, up to and including one that raised. */
  function CyclesRun(s: SyncState, cycles: seq<Cycle>): SyncState
  {
    if cycles == [] then s
    else
      var init := cycles[..|cycles| - 1];
      if RunRaises(s, init) then CyclesRun(s, init) else Cycled(CyclesRun(s, init), cycles[|cycles| - 1])
  }

  // ---------------------------------------------------------------------------
  // Properties of the state machine
  // ---------------------------------------------------------------------------

  /** The commands sent, in order. */
  function SentCommands(effects: seq<Effect>): seq<string>
  {
    if effects == [] then []
    else
      var last := effects[|effects| - 1];
      SentCommands(effects[..|effects| - 1]) + (if last.Sent? then [last.command] else [])
  }

  lemma {:induction false} SentCommandsAppend(a: seq<Effect>, b: seq<Effect>)
    ensures SentCommands(a + b) == SentCommands(a) + SentCommands(b)
    decreases |b|
  {
    if b == [] {
      assert a + b == a;
    } else {
      var init := b[..|b| - 1];
      assert (a + b)[..|a + b| - 1] == a + init;
      assert (a + b)[|a + b| - 1] == b[|b| - 1];
      SentCommandsAppend(a, init);
    }
  }

  /** Every step only appends to the log. */
  predicate Extends(s: SyncState, r: SyncState)
  {
    |s.effects| <= |r.effects| && r.effects[..|s.effects|] == s.effects
  }

  /** What a step appended to the log. */
  function Appended(s: SyncState, r: SyncState): seq<Effect>
    requires Extends(s, r)
  {
    r.effects[|s.effects|..]
  }

  /**
   * Sync is on after a toggle iff it was off and DeltaGen is alive. Turning on
   * looks up the window and asks for the initial pull; it sends nothing and
   * leaves the button disabled (the timer re-enables it).
   */
  lemma ToggleOn(s: SyncState, en: Enumeration)
    requires !s.syncDg
    ensures Toggled(s, true, en) ==
            s.(syncDg := true, pullOnSyncStart := true, handle := LastMatch(en.windows, DeltaGenTitle),
               effects := s.effects + [BtnEnabled(false), BtnChecked(true), TimerStarted])
  {
  }

  /**
   * Turning on towards a dead target toggles straight back: every flag and the
   * handle are as before, and the log shows both toggles and one reset.
   */
  lemma ToggleOnDead(s: SyncState, en: Enumeration)
    requires !s.syncDg
    ensures Toggled(s, false, en) ==
            s.(effects := s.effects + [BtnEnabled(false), BtnChecked(true), TimerStarted,
                                       BtnEnabled(false), BtnChecked(false), TimerStarted,
                                       ConnectionChecked, Sent(ResetCommand), BtnEnabled(true)])
  {
  }

  /** Turning off resets the viewer once and re-enables the button; the handle stays cached. */
  lemma ToggleOff(s: SyncState, alive: bool, en: Enumeration)
    requires s.syncDg
    ensures Toggled(s, alive, en) ==
            s.(syncDg := false,
               effects := s.effects + [BtnEnabled(false), BtnChecked(false), TimerStarted,
                                       ConnectionChecked, Sent(ResetCommand), BtnEnabled(true)])
  {
  }

  /** The signals of one flip of the flag: disable the button, show the new state, start the timer. */
  function FlipLog(on: bool): seq<Effect>
  {
    [BtnEnabled(false), BtnChecked(on), TimerStarted]
  }

  const ResetLog := [ConnectionChecked, Sent(ResetCommand), BtnEnabled(true)]

  /** What a toggle appends to the log, given whether sync was on and whether DeltaGen is alive. */
  function ToggleLog(wasOn: bool, alive: bool): seq<Effect>
  {
    if wasOn then FlipLog(false) + ResetLog
    else if alive then FlipLog(true)
    else FlipLog(true) + FlipLog(false) + ResetLog
  }

  /** Sync is on after a toggle iff it was off and DeltaGen is alive; the log only grows. */
  lemma ToggleAppends(s: SyncState, alive: bool, en: Enumeration)
    ensures var r := Toggled(s, alive, en);
      && r.syncDg == (!s.syncDg && alive)
      && Extends(s, r)
      && Appended(s, r) == ToggleLog(s.syncDg, alive)
  {
    var r := Toggled(s, alive, en);
    if s.syncDg {
      ToggleOff(s, alive, en);
    } else if alive {
      ToggleOn(s, en);
    } else {
      ToggleOnDead(s, en);
    }
    assert r.effects == s.effects + ToggleLog(s.syncDg, alive);
  }

  lemma {:induction false} SentNone(e: seq<Effect>)
    requires forall i :: 0 <= i < |e| ==> !e[i].Sent?
    ensures SentCommands(e) == []
  {
    if e != [] {
      SentNone(e[..|e| - 1]);
    }
  }

  lemma ResetLogSends()
    ensures SentCommands(ResetLog) == [ResetCommand]
  {
    var a, b, c := [ConnectionChecked], [Sent(ResetCommand)], [BtnEnabled(true)];
    assert ResetLog == a + b + c;
    SentCommandsAppend(a + b, c);
    SentCommandsAppend(a, b);
    SentNone(a);
    SentNone(c);
    assert b[..0] == [];
  }

  /**
   * A toggle sends exactly one reset and nothing else, unless it turns sync on
   * (then it sends nothing); it never sends a size command, and when sync ends
   * up off the last signal re-enables the button.
   */
  lemma ToggleSends(s: SyncState, alive: bool, en: Enumeration)
    ensures var r := Toggled(s, alive, en);
      && Extends(s, r)
      && SentCommands(Appended(s, r)) == (if r.syncDg then [] else [ResetCommand])
      && (!r.syncDg ==> r.effects[|r.effects| - 1] == BtnEnabled(true))
  {
    ToggleAppends(s, alive, en);
    SentNone(FlipLog(true));
    SentNone(FlipLog(false));
    ResetLogSends();
    if s.syncDg {
      SentCommandsAppend(FlipLog(false), ResetLog);
    } else if !alive {
      SentCommandsAppend(FlipLog(true), FlipLog(false));
      SentCommandsAppend(FlipLog(true) + FlipLog(false), ResetLog);
    }
  }

  /** The state of the sync button's enabled flag after the signals in `effects`. */
  function ButtonEnabled(initial: bool, effects: seq<Effect>): bool
  {
    if effects == [] then initial
    else
      var last := effects[|effects| - 1];
      if last.BtnEnabled? then last.enabled else ButtonEnabled(initial, effects[..|effects| - 1])
  }

  /**
   * Every checked-state signal a toggle emits arrives while the button is
   * disabled, so the button's own `toggled` echo is dropped by the overlay's
   * guard and cannot toggle sync again.
   */
  lemma ToggleCheckedWhileDisabled(s: SyncState, alive: bool, en: Enumeration, initial: bool)
    ensures var r := Toggled(s, alive, en);
      Extends(s, r) &&
      forall i :: 0 <= i < |Appended(s, r)| && Appended(s, r)[i].BtnChecked? ==>
        !ButtonEnabled(initial, Appended(s, r)[..i])
  {
    ToggleAppends(s, alive, en);
    var a := ToggleLog(s.syncDg, alive);
    forall i | 0 <= i < |a| && a[i].BtnChecked? ensures !ButtonEnabled(initial, a[..i]) {
      assert i == 1 || i == 4;
      assert a[..i][i - 1] == BtnEnabled(false);
    }
  }

  /** A log with one send in it sends exactly that command. */
  lemma SentOnly(a: seq<Effect>, command: string, d: seq<Effect>)
    requires forall i :: 0 <= i < |a| ==> !a[i].Sent?
    requires forall i :: 0 <= i < |d| ==> !d[i].Sent?
    ensures SentCommands(a + [Sent(command)] + d) == [command]
  {
    var b := [Sent(command)];
    SentNone(a);
    SentNone(d);
    assert b[..0] == [];
    SentCommandsAppend(a + b, d);
    SentCommandsAppend(a, b);
  }

  /** `sync_img_viewer` sends exactly the size command, whether or not sending raised. */
  lemma SyncSendsSize(s: SyncState, c: Cycle)
    ensures var r := ImgViewerSynced(s, c);
      Extends(s, r) && SentCommands(Appended(s, r)) == [SizeCommand(c.width, c.height)]
  {
    var r := ImgViewerSynced(s, c);
    var cmd := SizeCommand(c.width, c.height);
    var d: seq<Effect> := if c.sendRaised then [] else [Received];
    var t := Emit(s, [ConnectionChecked, Sent(cmd)] + d);
    PositionEffects(t, c.widget);
    var p := Appended(t, r);
    assert Appended(s, r) == [ConnectionChecked] + [Sent(cmd)] + (d + p);
    SentOnly([ConnectionChecked], cmd, d + p);
  }

  /**
   * `sync_window_position` emits nothing without a handle or when the widget
   * lookup raised, and otherwise exactly the widget's top-left corner; it
   * changes nothing else.
   */
  lemma PositionEffects(s: SyncState, widget: WidgetLookup)
    ensures var r := PositionSynced(s, widget);
      && (PositionRaises(s, widget) ==> r == s)
      && Extends(s, r)
      && r.(effects := s.effects) == s
      && Appended(s, r) ==
         (if IsSet(s.handle) && widget.Widget? then [PositionViewer(widget.rect.left, widget.rect.top)] else [])
  {
    var r := PositionSynced(s, widget);
    assert r.effects[..|s.effects|] == s.effects;
  }

  /**
   * `pull_dg_focus` does nothing unless a pull is wanted and a handle is
   * cached; otherwise it asks for the foreground once and clears the initial
   * pull request.
   */
  lemma PullRules(s: SyncState)
    ensures var r := FocusPulled(s);
      && Extends(s, r)
      && (!s.pullForeground && !s.pullOnSyncStart ==> r == s)
      && (!IsSet(s.handle) ==> r == s)
      && ((s.pullForeground || s.pullOnSyncStart) && IsSet(s.handle) ==>
            && !r.pullOnSyncStart
            && Appended(s, r) == [ForegroundRequested(s.handle.value)]
            && r.(effects := s.effects, pullOnSyncStart := s.pullOnSyncStart) == s)
  {
    var r := FocusPulled(s);
    assert r.effects[..|s.effects|] == s.effects;
  }

  /** Without `pull_viewer_foreground`, the viewer is pulled to the front at most once per sync start. */
  lemma PullOnceWithoutForegroundFlag(s: SyncState)
    requires !s.pullForeground
    ensures FocusPulled(FocusPulled(s)) == FocusPulled(s)
  {
  }

  /**
   * `dg_close_connection` does nothing while sync is off; with sync on it
   * resets the viewer once, clears the handle and closes the socket last.
   */
  lemma CloseRules(s: SyncState)
    ensures var r := ConnectionClosed(s);
      && Extends(s, r)
      && (!s.syncDg ==> r == s)
      && (s.syncDg ==>
            && r.handle == None
            && SentCommands(Appended(s, r)) == [ResetCommand]
            && r.effects[|r.effects| - 1] == Closed
            && r.(effects := s.effects, handle := s.handle) == s)
  {
    var r := ConnectionClosed(s);
    if s.syncDg {
      assert r.effects == s.effects + ResetLog + [Closed];
      assert Appended(s, r) == ResetLog + [Closed];
      ResetLogSends();
      SentNone([Closed]);
      SentCommandsAppend(ResetLog, [Closed]);
    }
  }

  /** A log extension of a log extension is one. */
  lemma ExtendsTransitive(a: SyncState, b: SyncState, c: SyncState)
    requires Extends(a, b) && Extends(b, c)
    ensures Extends(a, c)
  {
    assert c.effects[..|a.effects|] == c.effects[..|b.effects|][..|a.effects|];
  }

  /** One pass of the run loop keeps the flags and the handle and only appends to the log. */
  lemma CycleKeepsFlags(s: SyncState, c: Cycle)
    ensures var r := Cycled(s, c);
      r.syncDg == s.syncDg && r.pullForeground == s.pullForeground && r.handle == s.handle &&
      Extends(s, r)
  {
    if s.syncDg {
      var t := Emit(s, [ConnectionChecked, Sent(SizeCommand(c.width, c.height))] +
                       (if c.sendRaised then [] else [Received]));
      PositionEffects(t, c.widget);
      var m := ImgViewerSynced(s, c);
      SyncSendsSize(s, c);
      if !CycleRaises(s, c) {
        PullRules(m);
        ExtendsTransitive(s, m, FocusPulled(m));
      }
    }
  }

  /** The run loop never changes the sync flag, the pull-foreground flag or the cached handle. */
  lemma {:induction false} CyclesKeepFlags(s: SyncState, cycles: seq<Cycle>)
    ensures var r := CyclesRun(s, cycles);
      r.syncDg == s.syncDg && r.pullForeground == s.pullForeground && r.handle == s.handle &&
      Extends(s, r)
  {
    if cycles != [] {
      var init := cycles[..|cycles| - 1];
      var prev := CyclesRun(s, init);
      CyclesKeepFlags(s, init);
      if !RunRaises(s, init) {
        CycleKeepsFlags(prev, cycles[|cycles| - 1]);
        ExtendsTransitive(s, prev, CyclesRun(s, cycles));
      }
    }
  }

  /** Once a pass has raised, later passes never happen: the run stays raised and its state stays put. */
  lemma {:induction false} RaisedStays(s: SyncState, cycles: seq<Cycle>, k: nat)
    requires k <= |cycles| && RunRaises(s, cycles[..k])
    ensures RunRaises(s, cycles) && CyclesRun(s, cycles) == CyclesRun(s, cycles[..k])
    decreases |cycles| - k
  {
    if k < |cycles| {
      var init := cycles[..|cycles| - 1];
      assert init[..k] == cycles[..k];
      RaisedStays(s, init, k);
    } else {
      assert cycles[..k] == cycles;
    }
  }

  /**
   * A widget whose `rectangle()` raises while syncing with a cached handle
   * ends `run` in that pass: the later passes never happen, and sync stays on
   * with the handle still cached.
   */
  lemma RectRaiseEndsRun(s: SyncState, c: Cycle, later: seq<Cycle>)
    requires s.syncDg && IsSet(s.handle) && c.widget == RectRaised
    ensures RunRaises(s, [c] + later)
    ensures CyclesRun(s, [c] + later) == ImgViewerSynced(s, c)
    ensures CyclesRun(s, [c] + later).syncDg && CyclesRun(s, [c] + later).handle == s.handle
  {
    var cycles := [c] + later;
    assert cycles[..1] == [c] && [c][..0] == [];
    RaisedStays(s, cycles, 1);
  }

  /** While sync is off the run loop does nothing at all. */
  lemma {:induction false} IdleCycles(s: SyncState, cycles: seq<Cycle>)
    requires !s.syncDg
    ensures CyclesRun(s, cycles) == s && !RunRaises(s, cycles)
  {
    if cycles != [] {
      IdleCycles(s, cycles[..|cycles| - 1]);
    }
  }

  // ---------------------------------------------------------------------------
  // The thread object
  // ---------------------------------------------------------------------------

  class DgSyncThread {
    var syncDg: bool
    var pullViewerForeground: bool
    var pullViewerOnSyncStart: bool
    var effects: seq<Effect>
    const winMgr: Win32WindowMgr

    function State(): SyncState
      reads this, winMgr
    {
      SyncState(syncDg, pullViewerForeground, pullViewerOnSyncStart, winMgr.handle, effects)
    }

    constructor ()
      ensures State() == InitialSyncState
      ensures fresh(winMgr)
    {
      winMgr := new Win32WindowMgr();
      syncDg := false;
      pullViewerForeground := false;
      pullViewerOnSyncStart := true;
      effects := [];
    }

    /** `dg_reset_btn`. */
    method DgResetBtn()
      modifies this
      ensures State() == Emit(old(State()), [BtnEnabled(true)])
    {
      effects := effects + [BtnEnabled(true)];
    }

    /** `dg_reset_viewer`. */
    method DgResetViewer()
      modifies this
      ensures State() == ViewerReset(old(State()))
    {
      effects := effects + [ConnectionChecked, Sent(ResetCommand)];
      DgResetBtn();
    }

    /** `find_dg_window`. */
    method FindDgWindow(en: Enumeration)
      modifies this, winMgr
      ensures State() == DgWindowFound(old(State()), en)
    {
      winMgr.FindWindowWildcard(en.windows, DeltaGenTitle);
      if !en.raised {
        pullViewerOnSyncStart := true;
      }
    }

    /** `dg_toggle_sync`. */
    method DgToggleSync(alive: bool, en: Enumeration)
      modifies this, winMgr
      ensures State() == Toggled(old(State()), alive, en)
      decreases if syncDg then 0 else 1
    {
      syncDg := !syncDg;
      effects := effects + [BtnEnabled(false), BtnChecked(syncDg), TimerStarted];
      if syncDg {
        if alive {
          FindDgWindow(en);
          pullViewerOnSyncStart := true;
        } else {
          DgToggleSync(alive, en);
        }
      } else {
        DgResetViewer();
      }
    }

    /** `sync_window_position`; `raised` reports the exception of `rectangle()`, which escapes it. */
    method SyncWindowPosition(widget: WidgetLookup) returns (raised: bool)
      modifies this
      ensures State() == PositionSynced(old(State()), widget)
      ensures raised == PositionRaises(old(State()), widget)
    {
      raised := false;
      if !winMgr.HasHandle() {
        return;
      }
      match widget
      case LookupRaised =>
      case RectRaised =>
        raised := true;
      case Widget(r) =>
        effects := effects + [PositionViewer(r.left, r.top)];
    }

    /** `sync_img_viewer`; `raised` reports the exception escaping `sync_window_position`. */
    method SyncImgViewer(c: Cycle) returns (raised: bool)
      modifies this
      ensures State() == ImgViewerSynced(old(State()), c)
      ensures raised == PositionRaises(old(State()), c.widget)
    {
      var exchange := [ConnectionChecked, Sent(SizeCommand(c.width, c.height))] +
                      (if c.sendRaised then [] else [Received]);
      effects := effects + exchange;
      raised := SyncWindowPosition(c.widget);
    }

    /** `pull_dg_focus`. */
    method PullDgFocus()
      modifies this
      ensures State() == FocusPulled(old(State()))
    {
      if !pullViewerForeground && !pullViewerOnSyncStart {
        return;
      }
      if !winMgr.HasHandle() {
        return;
      }
      var requested := winMgr.SetForeground();
      effects := effects + [ForegroundRequested(requested.value)];
      pullViewerOnSyncStart := false;
    }

    /** `viewer_toggle_pull`. */
    method ViewerTogglePull(enabled: bool)
      modifies this
      ensures State() == PullToggled(old(State()), enabled)
    {
      pullViewerForeground := !enabled;
    }

    /** `dg_close_connection`. */
    method DgCloseConnection()
      modifies this, winMgr
      ensures State() == ConnectionClosed(old(State()))
    {
      if syncDg {
        DgResetViewer();
        winMgr.ClearHandle();
        effects := effects + [Closed];
      }
    }

    /**
     * `run`: one pass per element of `cycles` (the passes before the exit
     * event is seen), then the connection is closed. An exception escaping a
     * pass ends `run` there (`raised`), and the connection is never closed.
     */
    method Run(cycles: seq<Cycle>) returns (raised: bool)
      modifies this, winMgr
      ensures raised == RunRaises(old(State()), cycles)
      ensures State() == if raised then CyclesRun(old(State()), cycles)
                         else ConnectionClosed(CyclesRun(old(State()), cycles))
    {
      raised := false;
      var i := 0;
      while i < |cycles|
        invariant 0 <= i <= |cycles|
        invariant State() == CyclesRun(old(State()), cycles[..i])
        invariant !RunRaises(old(State()), cycles[..i])
      {
        assert cycles[..i + 1][..i] == cycles[..i];
        if syncDg {
          raised := SyncImgViewer(cycles[i]);
          if raised {
            RaisedStays(old(State()), cycles, i + 1);
            return;
          }
          PullDgFocus();
        }
        i := i + 1;
      }
      assert cycles[..i] == cycles;
      DgCloseConnection();
    }
  }

  // ---------------------------------------------------------------------------
  // SyncController
  // ---------------------------------------------------------------------------

  /** The lifetime of a Python thread: `start()` may be called once. */
  datatype Lifecycle = NotStarted | Running | Finished

  datatype ControllerState = ControllerState(lifecycle: Lifecycle, thread: SyncState)

  /**
   * `start`: when the thread is not alive, the pull flag is taken from the
   * focus button and the thread is started; starting a finished thread raises
   * (the second component).
   */
  function Started(c: ControllerState, focusChecked: bool): (ControllerState, bool)
  {
    if c.lifecycle == Running then (c, false)
    else
      var t := c.thread.(pullForeground := focusChecked);
      if c.lifecycle == NotStarted then (ControllerState(Running, t), false)
      else (ControllerState(Finished, t), true)
  }

  /** `toggle_sync`: start, then toggle; the toggle is not reached when start raised. */
  function SyncToggled(c: ControllerState, focusChecked: bool, alive: bool, en: Enumeration): (ControllerState, bool)
  {
    var (d, raised) := Started(c, focusChecked);
    if raised then (d, true) else (d.(thread := Toggled(d.thread, alive, en)), false)
  }

  /** `exit`: a running thread sees the exit event, closes its connection and ends. */
  function Exited(c: ControllerState): ControllerState
  {
    if c.lifecycle == Running then ControllerState(Finished, ConnectionClosed(c.thread)) else c
  }

  /**
   * Starting a running thread changes nothing; a fresh thread runs afterwards
   * with the pull flag of the focus button; only a finished thread raises.
   */
  lemma StartRules(c: ControllerState, focusChecked: bool)
    ensures var (d, raised) := Started(c, focusChecked);
      && (raised <==> c.lifecycle == Finished)
      && (c.lifecycle == Running ==> d == c)
      && (c.lifecycle == NotStarted ==> d.lifecycle == Running && d.thread.pullForeground == focusChecked)
      && d.thread.(pullForeground := c.thread.pullForeground) == c.thread
      && (Started(d, focusChecked).0 == d || raised)
  {
  }

  /** After `exit` the thread is not running, and a second `exit` does nothing. */
  lemma ExitRules(c: ControllerState)
    ensures Exited(c).lifecycle != Running
    ensures Exited(Exited(c)) == Exited(c)
    ensures c.lifecycle != Running ==> Exited(c) == c
    ensures c.lifecycle == Running && c.thread.syncDg ==> Exited(c).thread.handle == None
  {
  }

  /** Once exited, toggling sync raises and changes nothing but the pull flag. */
  lemma ToggleAfterExit(c: ControllerState, focusChecked: bool, alive: bool, en: Enumeration)
    requires c.lifecycle != NotStarted
    ensures var e := Exited(c);
      var (d, raised) := SyncToggled(e, focusChecked, alive, en);
      raised && d.lifecycle == Finished && d.thread == e.thread.(pullForeground := focusChecked)
  {
  }

  /**
   * `toggle_pull` with the focus button's state `focusChecked`, then a pass's
   * `pull_dg_focus` with a cached handle: the window is brought forward iff
   * the button was unchecked or the initial pull is still pending, the pending
   * pull is done afterwards, and the window keeps being brought forward on
   * every later pass iff the button was unchecked.
   */
  lemma PullFollowsButton(s: SyncState, focusChecked: bool)
    requires IsSet(s.handle)
    ensures var t := PullToggled(s, focusChecked);
      var r := FocusPulled(t);
      && Extends(t, r)
      && (Appended(t, r) == [ForegroundRequested(s.handle.value)] <==> !focusChecked || s.pullOnSyncStart)
      && (Appended(t, r) == [] <==> focusChecked && !s.pullOnSyncStart)
      && !r.pullOnSyncStart
      && (FocusPulled(r) != r <==> !focusChecked)
  {
    var t := PullToggled(s, focusChecked);
    PullRules(t);
    PullRules(FocusPulled(t));
  }

  /**
   * The passes the thread makes while it runs: a pass that raises ends the
   * thread (it is no longer alive) without closing the connection.
   */
  function Ran(c: ControllerState, cycles: seq<Cycle>): ControllerState
  {
    if c.lifecycle != Running then c
    else if RunRaises(c.thread, cycles) then ControllerState(Finished, CyclesRun(c.thread, cycles))
    else c.(thread := CyclesRun(c.thread, cycles))
  }

  /**
   * When a pass of a syncing thread raises, `exit` finds the thread dead and
   * does nothing: the viewer is never reset, the handle stays cached and sync
   * stays on, while a thread whose passes did not raise is closed by `exit`.
   */
  lemma CrashSkipsClose(c: ControllerState, cycles: seq<Cycle>)
    requires c.lifecycle == Running && c.thread.syncDg
    ensures var d := Ran(c, cycles);
      && (RunRaises(c.thread, cycles) ==>
            Exited(d) == d && d.lifecycle == Finished && d.thread.syncDg && d.thread.handle == c.thread.handle)
      && (!RunRaises(c.thread, cycles) ==>
            Exited(d).lifecycle == Finished && Exited(d).thread.handle == None)
  {
    CyclesKeepFlags(c.thread, cycles);
  }

  class SyncController {
    const thread: DgSyncThread
    var lifecycle: Lifecycle

    function State(): ControllerState
      reads this, thread, thread.winMgr
    {
      ControllerState(lifecycle, thread.State())
    }

    constructor ()
      ensures State() == ControllerState(NotStarted, InitialSyncState)
      ensures fresh(thread) && fresh(thread.winMgr)
    {
      thread := new DgSyncThread();
      lifecycle := NotStarted;
    }

    /** `start`; `raised` reports the RuntimeError of starting a thread twice. */
    method Start(focusChecked: bool) returns (raised: bool)
      modifies this, thread
      ensures (State(), raised) == Started(old(State()), focusChecked)
    {
      raised := false;
      if lifecycle != Running {
        thread.pullViewerForeground := focusChecked;
        if lifecycle == NotStarted {
          lifecycle := Running;
        } else {
          raised := true;
        }
      }
    }

    /** `toggle_sync`. */
    method ToggleSync(focusChecked: bool, alive: bool, en: Enumeration) returns (raised: bool)
      modifies this, thread, thread.winMgr
      ensures (State(), raised) == SyncToggled(old(State()), focusChecked, alive, en)
    {
      raised := Start(focusChecked);
      if raised {
        return;
      }
      thread.DgToggleSync(alive, en);
    }

    /** `toggle_pull`: `focusChecked` is `focus_btn.isChecked()` when the signal fires. */
    method TogglePull(focusChecked: bool)
      modifies thread
      ensures State() == old(State()).(thread := PullToggled(old(State()).thread, focusChecked))
    {
      thread.ViewerTogglePull(focusChecked);
    }

    /** `exit`. */
    method Exit()
      modifies this, thread, thread.winMgr
      ensures State() == Exited(old(State()))
    {
      if lifecycle == Running {
        thread.DgCloseConnection();
        lifecycle := Finished;
      }
    }
  }
}
