# KnechtViewer core, modelled in Dafny

KnechtViewer shows an image as a frameless overlay on top of the viewport of
the 3D application DeltaGen. A small control window sits above the overlay.
When sync is on, a background thread keeps DeltaGen's viewer the same size
as the overlay and the overlay on top of it, talking to DeltaGen over a
text socket. The viewer steps through the images of a folder and reads the
camera stored in a DeltaGen PNG, so it can send that camera back to DeltaGen
as socket commands. Settings and a most-recent-first list of files persist
between sessions.

This project models the sequential logic underneath:

- the camera-info codec: the metadata tag filter, the orientation rewrite, the
  offset check and the command string (`camera_info.dfy`, with the example
  camera in `camera_example.dfy`);
- the sync state machine: the window-handle cache, the sync, pull and
  teardown flags and the exact commands and signals it emits
  (`deltagen_viewer.dfy`);
- overlay geometry: the screen limits, clamping back onto the screen, the
  size and zoom-index clamps, title truncation and the control-window
  coupling (`img_view.dfy`, `main_ui.dfy`);
- image-list navigation with its single-loader gate (`img_loader.dfy`);
- settings maintenance: save filtering, loading, the default merge, the
  recent-file pruning and the recent list (`settings.dfy`);
- the zoom-factor list of the size combo box (`widgets.dfy`);
- small helpers: file-safe names, pixel-format dispatch, drag and drop, the
  idle and double-click event filters, and progress step counting
  (`img_utils.dfy`, `gui_utils.dfy`).

Three helper modules support the rest. `Wrappers` holds `Option`. `Text`
holds Python's `startswith`, `replace`, `split`, `join` and `str(int)`.
`OrderedDict` models a Python dict as its items in insertion order.

Objects whose fields the program updates are classes. Each such class has a
`State()` function, and each method is proved to move `State()` exactly as
a pure transition function says. The properties are proved about those
transition functions as lemmas. Everything outside the process is a
parameter of the operation that consults it:

- the operating system: whether DeltaGen is alive, the window enumeration,
  the viewer widget's rectangle, whether a path exists or is a file, and a
  folder's listing;
- the socket, modelled as an append-only log of effects;
- the clock, as `now` readings;
- the radians-to-degrees text, as a function `string -> Option<string>`;
- OpenImageIO's answers, as booleans.

A Qt event handler is a method that the caller runs after the change it
reacts to.

## Model

| member | source | states |
|---|---|---|
| CameraInfo.Format | modules/utils/camera_info.py:164-168 | `str.format` yields a value exactly when every field index has an argument; otherwise Python raises |
| CameraInfo.FormatSurplusIgnored | modules/utils/camera_info.py:164-165 | arguments beyond the ones the template uses do not change the formatted command |
| CameraInfo.CommandStringTerminated | modules/utils/camera_info.py:156-170 | the command string is empty or ends with `;` |
| CameraInfo.CommandStringAppend | modules/utils/camera_info.py:159-169 | commands follow `camera_info` insertion order: the commands of a split dict are the two parts' commands concatenated |
| CameraInfo.NonCommandTagsIgnored | modules/utils/camera_info.py:160-162 | entries whose tag has no command template contribute nothing |
| CameraInfo.CommandEntryFormatted | modules/utils/camera_info.py:159-169 | an entry with enough pieces gives its template filled positionally with the space-free comma pieces, then `;` |
| CameraInfo.SingleFieldCommands | modules/utils/camera_info.py:159-169 | FOV and both clip planes use the first space-free piece and ignore the others |
| CameraInfo.PositionCommand | modules/utils/camera_info.py:159-169 | a position `x, y, z` becomes `POS CAMERA x y z;` |
| CameraInfo.OrientationCommand | modules/utils/camera_info.py:159-169 | an orientation `x, y, z, a` becomes `ORIENT CAMERA x y z a;` |
| CameraInfo.ShortPositionKeepsTemplate | modules/utils/camera_info.py:164-169 | a position with fewer than three pieces sends the unformatted template `POS CAMERA {0} {1} {2};` |
| CameraInfo.SingleEntry | modules/utils/camera_info.py:159-169 | a one-entry dict gives that entry's command |
| CameraInfo.ArgumentsOfListText | modules/utils/camera_info.py:124-133 | a value written as `", ".join` of space- and comma-free pieces is read back as exactly those pieces |
| CameraInfo.FormatAppend | modules/utils/camera_info.py:164-165 | formatting a template in two parts formats each part; either part failing fails the whole |
| CameraInfo.AbsorbGet | modules/utils/camera_info.py:99-102 | after the filter loop a key has a value iff it came from the metadata with an allowed prefix (with the metadata's value) or was present before; nothing else is added |
| CameraInfo.AbsorbFromEmpty | modules/utils/camera_info.py:99-102 | from an empty `camera_info` the kept entries are exactly the allow-listed metadata entries, in metadata order |
| CameraInfo.KeptKeys | modules/utils/camera_info.py:99-102 | the kept keys are exactly the allow-listed metadata keys |
| CameraInfo.FilterCameraTags | modules/utils/camera_info.py:99-102 | the loop assigns every allow-listed metadata item into the dict and nothing else |
| CameraInfo.AssignOnPrefix | modules/utils/camera_info.py:100-102 | the inner loop over the prefixes assigns the item exactly when some prefix starts its key, and a repeated match leaves the same dict as one assignment |
| CameraInfo.ConvertedOrientationEffect | modules/utils/camera_info.py:120-133 | the orientation entry changes only for a four-piece value, and then becomes `x, y, z, <degrees>` from the stripped pieces; other entries and the key set are unchanged, and an absent tag is not created |
| CameraInfo.ConvertedOrientationCommand | modules/utils/camera_info.py:120-133 | the rewritten orientation reaches DeltaGen as the three axis pieces and the converted angle |
| CameraInfo.OffsetWarningsEmptyIffValid | modules/utils/camera_info.py:140-154 | no warning line is produced iff every present default-tracked tag equals its default; an absent tag never fails |
| CameraInfo.ReadImageFailures | modules/utils/camera_info.py:85-110 | `read_image` returns False with `info_is_valid` untouched for a missing path (then `file_is_valid` is untouched too), a raising or empty metadata read, no kept key, or no kept command tag; in each case but the missing path `file_is_valid` is True |
| CameraInfo.ReadImageSuccess | modules/utils/camera_info.py:85-118 | a True result means the path exists, the metadata is not empty, the file and the info are valid, a kept tag has a command, `camera_info` holds exactly the kept keys plus those it held before, and a changed warning means some offset differs |
| CameraInfo.ImageCameraInfo.constructor | modules/utils/camera_info.py:76-83 | a new reader has an empty `camera_info`, both validity flags False and the no-offset warning text |
| CameraInfo.ImageCameraInfo.Valid | modules/utils/camera_info.py:135-138 | `is_valid` holds iff the file and the info are valid and `camera_info` is not empty |
| CameraInfo.ImageCameraInfo.ReadImage | modules/utils/camera_info.py:85-118 | the object's new state and result are those of the `read_image` transition |
| CameraInfo.ImageCameraInfo.ConvertAndValidate | modules/utils/camera_info.py:112-118 | the orientation rewrite, then the offset check, as the transition function states |
| CameraInfo.ImageCameraInfo.ConvertOrientation | modules/utils/camera_info.py:120-133 | `camera_info` becomes the rewritten dict, or the call raises for an angle `float()` rejects |
| CameraInfo.ImageCameraInfo.ValidateOffsets | modules/utils/camera_info.py:140-154 | valid iff no mismatch line is produced; on failure the warning becomes the `tag: <default><br />` lines of the mismatching tags in table order, and on success it is untouched |
| CameraInfo.CollectOffsetWarnings | modules/utils/camera_info.py:141-151 | the loop produces one `tag: <default><br />` line per present tag that differs from its default, in table order, and reports valid exactly when there is none |
| CameraInfo.ImageCameraInfo.CreateDeltaGenCameraCmd | modules/utils/camera_info.py:156-170 | the result is the command string of `camera_info`; the loop accumulates each entry's command in order |
| CameraInfo.EntryText | modules/utils/camera_info.py:160-168 | one entry adds nothing for a tag without a command, else its formatted template (or the bare template when formatting fails) followed by `;` |
| CameraExample.ExampleCommandString | modules/utils/camera_info.py:61-74 | the example camera gives exactly `FOV CAMERA 38.8801;POS CAMERA -221.522 -143.877 88.475;ORIENT CAMERA 0.734806 -0.397707 -0.549444 89.13848193527295;CLIPPLANE_NEAR CAMERA 100.0;CLIPPLANE_FAR CAMERA 10000.0;` |
| CameraExample.ExampleCommandParts | modules/utils/camera_info.py:61-74 | in the example only the FOV, pose and clip-plane entries give commands |
| CameraExample.CommandTagsAre | modules/utils/camera_info.py:38-44 | the command table has exactly five tags |
| DeltaGenViewer.LastMatchIsLast | modules/deltagen_viewer.py:67-75 | the wildcard lookup ends with no handle iff no title matches, and otherwise with the handle of the last matching window |
| DeltaGenViewer.Win32WindowMgr.constructor | modules/deltagen_viewer.py:19-21 | a new manager has no handle |
| DeltaGenViewer.Win32WindowMgr.Handle | modules/deltagen_viewer.py:23-30 | `handle()` yields the handle iff `has_handle()`, which needs a set, non-zero handle |
| DeltaGenViewer.Win32WindowMgr.ClearHandle | modules/deltagen_viewer.py:32-33 | after clearing there is no handle |
| DeltaGenViewer.Win32WindowMgr.FindWindow | modules/deltagen_viewer.py:35-37 | the handle is what `FindWindow` returned; there is a handle iff that is not 0 |
| DeltaGenViewer.Win32WindowMgr.FindWindowWildcard | modules/deltagen_viewer.py:67-75 | the handle is cleared first and then ends as the last matching window's |
| DeltaGenViewer.Win32WindowMgr.SetForeground | modules/deltagen_viewer.py:77-80 | the window is brought forward iff there is a handle, and it is that handle |
| DeltaGenViewer.SentCommandsAppend | modules/deltagen_viewer.py:139-184 | the commands sent by consecutive effect logs are concatenated in order |
| DeltaGenViewer.ToggleOn | modules/deltagen_viewer.py:187-196 | turning on while DeltaGen is alive flips the flag, disables the button, checks it, looks up the window and sets `pull_viewer_on_sync_start` |
| DeltaGenViewer.ToggleOnDead | modules/deltagen_viewer.py:171-200 | turning on while DeltaGen is not alive toggles straight back off: sync ends False, the viewer is reset once and the button re-enabled |
| DeltaGenViewer.ToggleOff | modules/deltagen_viewer.py:171-200 | turning off resets the viewer once and re-enables the button; the handle stays cached |
| DeltaGenViewer.ToggleAppends | modules/deltagen_viewer.py:186-200 | after a toggle sync is on iff it was off and DeltaGen is alive; the log only grows, by the flip signals and, when ending off, the reset |
| DeltaGenViewer.ResetLogSends | modules/deltagen_viewer.py:171-178 | a viewer reset sends exactly `BORDERLESS VIEWER FALSE;` |
| DeltaGenViewer.ToggleSends | modules/deltagen_viewer.py:171-200 | a toggle ending off sends exactly one `BORDERLESS VIEWER FALSE;` and never a `SIZE VIEWER` command; a toggle ending on sends nothing |
| DeltaGenViewer.ToggleCheckedWhileDisabled | modules/deltagen_viewer.py:186-200 | every checked signal a toggle emits arrives while the button is disabled, so the button's own echo cannot toggle sync again |
| DeltaGenViewer.SentOnly | modules/deltagen_viewer.py:139-150 | a log with one send in it sends exactly that command |
| DeltaGenViewer.SyncSendsSize | modules/deltagen_viewer.py:139-150 | `sync_img_viewer` sends exactly `UNFREEZE VIEWER;SIZE VIEWER <w> <h>;` of the overlay's size, and positions the window even when the send raised |
| DeltaGenViewer.PositionEffects | modules/deltagen_viewer.py:152-169 | positioning emits nothing without a handle, when the widget lookup raises or when `rectangle()` raises (then it changes nothing at all), and otherwise exactly the rectangle's left and top |
| DeltaGenViewer.PullRules | modules/deltagen_viewer.py:216-231 | pulling is a no-op unless a pull flag is set or when there is no handle (keeping the sync-start flag); otherwise it brings the handle forward and clears the sync-start flag |
| DeltaGenViewer.PullOnceWithoutForegroundFlag | modules/deltagen_viewer.py:216-231 | without `pull_viewer_foreground` a second pull does nothing more than the first |
| DeltaGenViewer.CloseRules | modules/deltagen_viewer.py:180-184 | closing resets the viewer, clears the handle and closes the transport only while sync is on, and otherwise changes nothing |
| DeltaGenViewer.CyclesKeepFlags | modules/deltagen_viewer.py:124-134 | the run loop never changes the sync flag, the foreground flag or the cached handle |
| DeltaGenViewer.IdleCycles | modules/deltagen_viewer.py:124-134 | while sync is off the run loop changes nothing and never raises |
| DeltaGenViewer.RaisedStays | modules/deltagen_viewer.py:124-134 | once a pass raised, later passes never happen: the run stays raised and its state stays put |
| DeltaGenViewer.RectRaiseEndsRun | modules/deltagen_viewer.py:124-169 | a `rectangle()` that raises while syncing with a handle ends the run in that pass, leaving sync on and the handle cached |
| DeltaGenViewer.DgSyncThread.constructor | modules/deltagen_viewer.py:100-112 | a new thread starts with sync off, `pull_viewer_foreground` False, `pull_viewer_on_sync_start` True, no handle and an empty log |
| DeltaGenViewer.DgSyncThread.DgResetBtn | modules/deltagen_viewer.py:136-137 | emits button-enabled(True) and changes nothing else |
| DeltaGenViewer.DgSyncThread.DgResetViewer | modules/deltagen_viewer.py:171-178 | the state moves as the reset transition says |
| DeltaGenViewer.DgSyncThread.FindDgWindow | modules/deltagen_viewer.py:202-209 | the state moves as the window-lookup transition says |
| DeltaGenViewer.DgSyncThread.DgToggleSync | modules/deltagen_viewer.py:186-200 | the state moves as the toggle transition says, including the second toggle |
| DeltaGenViewer.DgSyncThread.SyncWindowPosition | modules/deltagen_viewer.py:152-169 | the state moves as the positioning transition says, and it raises iff there is a handle and `rectangle()` raised |
| DeltaGenViewer.DgSyncThread.SyncImgViewer | modules/deltagen_viewer.py:139-150 | the state moves as the size-sync transition says, and the positioning's exception escapes it |
| DeltaGenViewer.DgSyncThread.PullDgFocus | modules/deltagen_viewer.py:216-231 | the state moves as the pull transition says |
| DeltaGenViewer.DgSyncThread.ViewerTogglePull | modules/deltagen_viewer.py:211-214 | `pull_viewer_foreground` becomes `not enabled` |
| DeltaGenViewer.DgSyncThread.DgCloseConnection | modules/deltagen_viewer.py:180-184 | the state moves as the close transition says |
| DeltaGenViewer.DgSyncThread.Run | modules/deltagen_viewer.py:124-134 | the loop runs one cycle per pass while sync is on; it raises iff some pass raised, and then stops there without closing; otherwise it closes the connection when it ends |
| DeltaGenViewer.StartRules | modules/deltagen_viewer.py:256-259 | starting a running thread changes nothing; a new thread runs afterwards with the focus button's pull flag; only a finished thread raises; nothing but the pull flag changes |
| DeltaGenViewer.ExitRules | modules/deltagen_viewer.py:261-264 | after `exit` the thread is not running, a second `exit` does nothing, and a thread that was syncing has dropped its handle |
| DeltaGenViewer.ToggleAfterExit | modules/deltagen_viewer.py:248-264 | once exited, `toggle_sync` raises and the sync state does not change |
| DeltaGenViewer.CrashSkipsClose | modules/deltagen_viewer.py:124-134 | when a pass of a syncing thread raised, `exit` finds it dead and does nothing, so sync stays on and the handle cached; otherwise `exit` closes and drops the handle |
| DeltaGenViewer.PullFollowsButton | modules/deltagen_viewer.py:211-231 | after `toggle_pull` with a cached handle, a pass brings the window forward iff the focus button was unchecked or the initial pull is pending, the pending pull is then done, and later passes keep pulling iff the button was unchecked |
| DeltaGenViewer.SyncController.constructor | modules/deltagen_viewer.py:234-246 | a new controller holds a thread that has not started |
| DeltaGenViewer.SyncController.Start | modules/deltagen_viewer.py:256-259 | the state and the raise flag are those of the start transition |
| DeltaGenViewer.SyncController.ToggleSync | modules/deltagen_viewer.py:248-250 | the state and the raise flag are those of the toggle transition |
| DeltaGenViewer.SyncController.TogglePull | modules/deltagen_viewer.py:252-254 | only the thread's foreground flag changes, as `viewer_toggle_pull` says |
| DeltaGenViewer.SyncController.Exit | modules/deltagen_viewer.py:261-264 | the state moves as the exit transition says |
| ImgView.IsInsideLimit | modules/img_view.py:507-514 | inside iff `limit.x <= x <= limit.width` and `limit.y <= y <= limit.height` |
| ImgView.HalfRound | modules/img_view.py:480-481 | `round(n / 2)` is the nearest integer to half of n, ties to even |
| ImgView.ScreenLimitsCentre | modules/img_view.py:476-491 | the limits are the desktop's left, top, right and available-bottom edges minus half the overlay's size; they are ordered when the desktop is |
| ImgView.ClampedIntoLimit | modules/img_view.py:449-459 | each coordinate is moved into its limit interval and left alone when already inside |
| ImgView.ClampedIsInside | modules/img_view.py:449-459 | with ordered limits the clamped corner is inside, and a corner already inside is a fixed point |
| ImgView.ClampedSize | modules/img_view.py:350-355 | a size is clamped into [50, 4096], unchanged when already inside |
| ImgView.SizeBoxIndex | modules/img_view.py:326-329 | the new index is `current + add` clamped into `[0, count - 1]` |
| ImgView.TruncatedTitle | modules/img_view.py:305-309 | names shorter than 85 characters are kept; longer ones become the first 65, `~` and the last 20 characters |
| ImgView.TruncatedTitleStable | modules/img_view.py:305-309 | titles are at most 86 characters, and truncating a title again changes nothing |
| ImgView.ViewerToggleGuard | modules/img_view.py:244-248 | a disabled button changes nothing; an enabled one forwards exactly one toggle to the controller |
| ImgView.ImageView.constructor | modules/img_view.py:95-176 | a new overlay takes the background pixmap's size clamped to 50..4096, stands at the screen centre, the zoom box shows the 100 % entry, the control window is titled `KnechtViewer`, and the sync button is enabled and unchecked |
| ImgView.ImageView.MovedOutOfLimit | modules/img_view.py:449-459 | returns False without moving when the corner is inside the limits; otherwise moves it to the clamped corner and returns True |
| ImgView.ImageView.MoveEvent | modules/img_view.py:435-447 | the event is accepted iff no correction was needed; the position after it is the clamped one |
| ImgView.ImageView.PlaceInsideScreen | modules/img_view.py:461-466 | the overlay is re-centred only when its corner is outside the limits |
| ImgView.ImageView.ResizeImageViewer | modules/img_view.py:350-355 | both sides are clamped into [50, 4096]; position and title are unchanged |
| ImgView.ImageView.SetSizeBoxIndex | modules/img_view.py:326-329 | the zoom index is the clamped `current + add` |
| ImgView.ImageView.SetImageTitle | modules/img_view.py:305-309 | the title becomes the truncated image name |
| ImgView.ImageView.DgToggleBtn | modules/img_view.py:232-234 | only the sync button's enabled flag changes |
| ImgView.ImageView.DgCheckBtn | modules/img_view.py:236-248 | the checked flag takes the new value; when it changed, the `toggled` echo forwards one sync toggle iff the button is enabled, and otherwise the controller is untouched |
| ImgView.ImageView.DgTogglePull | modules/img_view.py:240-242 | forwards the focus button's state to the controller's `toggle_pull` |
| ImgView.ImageView.DgToggleSync | modules/img_view.py:244-248 | does nothing while the button is disabled, and otherwise runs the controller's `toggle_sync` once |
| ImgView.ImageView.CloseEvent | modules/img_view.py:493-496 | closing exits the sync controller |
| MainUi.OverlayPosition | modules/main_ui.py:170-173 | the overlay goes to `(x, y + h + 2)` of the control window |
| MainUi.AdaptedWindow | modules/main_ui.py:164-168 | the control window goes to the overlay's x, `overlay y - h - 2`, and the overlay's width, keeping its height |
| MainUi.CouplingRoundTrip | modules/main_ui.py:164-173 | moving the control window and then adapting restores its corner, and adapting and then moving puts the overlay back |
| MainUi.AdaptIdempotent | modules/main_ui.py:164-168 | adapting the control window twice to one overlay is adapting it once, and only the window's height matters |
| MainUi.ViewerWindow.constructor | modules/main_ui.py:45 | the control window starts 1280 x 1 |
| MainUi.ViewerWindow.MoveEvent | modules/main_ui.py:170-173 | the overlay moves below the control window; its size, zoom and title are unchanged |
| MainUi.ViewerWindow.AdaptImgViewPosition | modules/main_ui.py:164-168 | the control window's geometry becomes the adapted one |
| MainUi.ViewerWindow.ImgViewGeometryWrapper | modules/main_ui.py:154-162 | the overlay's own handler runs first (clamping it onto the screen), then the control window adapts to where the overlay ended |
| MainUi.ViewerWindow.LocateWinResult | modules/main_ui.py:130-132 | the overlay takes the target's size and top-left corner |
| ImgLoader.Parent | modules/utils/img_loader.py:70-72 | the parent drops the last path part, and `.` stays `.` |
| ImgLoader.Suffix | modules/utils/img_loader.py:82 | the suffix is from the last dot on, empty when the dot starts or ends the name |
| ImgLoader.SuffixOf | modules/utils/img_loader.py:82 | `stem.ext` has suffix `.ext` for a non-empty stem and a dot-free extension |
| ImgLoader.ImageFiles | modules/utils/img_loader.py:77-83 | keeps, in listing order, exactly the entries whose casefolded suffix is one of `FILE_TYPES` |
| ImgLoader.FirstIndex | modules/utils/img_loader.py:85-88 | `list.index` gives the first position of a listed element |
| ImgLoader.IteratedRules | modules/utils/img_loader.py:104-117 | an empty list only reports that no image was found; otherwise the index ends in range, a negative one wraps to the last, one past the end to 0, and that image is requested |
| ImgLoader.WrapAround | modules/utils/img_loader.py:90-117 | forward from the last image shows the first; back from the first shows the last |
| ImgLoader.BusyLoaderBlocksStepping | modules/utils/img_loader.py:90-102 | while a loader runs, stepping either way changes nothing |
| ImgLoader.StoppedLoaderDropsRequest | modules/utils/img_loader.py:122-138 | a stopped thread not yet finished lets the index move, but the load request is dropped |
| ImgLoader.ForwardThenBack | modules/utils/img_loader.py:90-117 | once the load finished, back undoes forward: same index and the same image requested |
| ImgLoader.ListedIndex | modules/utils/img_loader.py:77-88 | listing resets the index to the current file's first position when listed, otherwise 0 |
| ImgLoader.SetPathLoadsCurrent | modules/utils/img_loader.py:68-75 | setting a listed image file starts loading exactly that file |
| ImgLoader.KnechtLoadImageController.constructor | modules/utils/img_loader.py:55-60 | starts at `.` with an empty list, index 0 and no loader |
| ImgLoader.KnechtLoadImageController.SetImgPath | modules/utils/img_loader.py:68-75 | the directory is the file's parent for a file and the path otherwise; then the listing and a load follow |
| ImgLoader.KnechtLoadImageController.ListImgFiles | modules/utils/img_loader.py:77-88 | the loop leaves exactly the filtered image list and the index of the current file |
| ImgLoader.KnechtLoadImageController.ImageLoaderAvailable | modules/utils/img_loader.py:122-125 | available iff no thread is running |
| ImgLoader.KnechtLoadImageController.IterateFwd | modules/utils/img_loader.py:90-95 | the state moves as the forward transition says |
| ImgLoader.KnechtLoadImageController.IterateBck | modules/utils/img_loader.py:97-102 | the state moves as the back transition says |
| ImgLoader.KnechtLoadImageController.IterateImages | modules/utils/img_loader.py:104-117 | the state moves as the wrap-and-load transition says |
| ImgLoader.KnechtLoadImageController.CurrentImage | modules/utils/img_loader.py:119-120 | yields an image iff `-len <= index < len`, counting a negative index from the end; the image is from the list |
| ImgLoader.KnechtLoadImageController.CreateImageLoadThread | modules/utils/img_loader.py:127-138 | a load starts only when the slot is empty |
| ImgLoader.KnechtLoadImageController.LoaderThreadStopped | modules/utils/img_loader.py:27-41 | the running thread stops but keeps the slot |
| ImgLoader.KnechtLoadImageController.ImgLoaderFinished | modules/utils/img_loader.py:140-143 | finishing empties the loader slot |
| Settings.IsSerializable | modules/utils/settings.py:74-78 | serialisable iff the value is an int, str, float, bool, list, dict or tuple |
| Settings.SaveDictContents | modules/utils/settings.py:48-72 | exactly the attributes without a `__` prefix and with a serialisable value are saved, each with its own value |
| Settings.LoadedContents | modules/utils/settings.py:29-38 | after loading, every loaded key has its loaded value and every other key keeps its own |
| Settings.SettingsLoadRules | modules/utils/settings.py:29-38 | an unreadable file leaves the object unchanged; a readable one sets every loaded key |
| Settings.Unpack | modules/utils/settings.py:173-175 | `a, b = v` succeeds exactly for a two-item iterable, giving its items |
| Settings.MergedDefaultsContents | modules/utils/settings.py:152-171 | loaded values take precedence; a default fills only a missing key; the keys are the union |
| Settings.CleanedRecentRules | modules/utils/settings.py:173-184 | pruning fails exactly on a malformed entry; otherwise its result is exactly the entries whose path exists, as tuples in their order, never more than before, and pruning again changes nothing |
| Settings.CleanedRecentSnoc | modules/utils/settings.py:173-184 | pruning a list with one more well-formed entry at the end keeps what it kept before plus that entry iff its path exists |
| Settings.CleanedRecentFilters | modules/utils/settings.py:173-184 | on well-formed entries pruning equals the independent back-to-front filter of existing paths |
| Settings.CleanedRecentKeepsExisting | modules/utils/settings.py:173-184 | when every path exists and the entries are tuples, pruning keeps them all |
| Settings.KnechtLoadRules | modules/utils/settings.py:141-187 | without a settings file nothing changes; after a load every pre-load `app` key is present, loaded values win, and `recent_files` keeps only existing entries in order, starting from `[('file.xml', 'xml')]` when the key is missing or empty |
| Settings.FirstEntry | modules/utils/settings.py:230-236 | the position of the first entry equal to `(file, type)`, with no equal entry before it, or -1 |
| Settings.RemovedFirstEntryIsFirst | modules/utils/settings.py:230-236 | only the first equal entry is removed, the others keep their order, and nothing is removed without one |
| Settings.RecentAddedRules | modules/utils/settings.py:223-242 | the new entry is first, the list has 1 to 10 entries, and the rest is the old list without its first equal entry, in order |
| Settings.AddRecentTwice | modules/utils/settings.py:223-242 | adding the same file twice is adding it once |
| Settings.AddRecentFileCreates | modules/utils/settings.py:224-238 | without `recent_files` the list is created holding only the new entry |
| Settings.Save | modules/utils/settings.py:48-72 | the loop builds exactly the filtered `save_dict` |
| Settings.LoadAttributes | modules/utils/settings.py:29-38 | the loop sets the attributes as the load transition says |
| Settings.MergeDefaults | modules/utils/settings.py:152-171 | the loop fills in exactly the merged defaults |
| Settings.CleanRecent | modules/utils/settings.py:173-184 | the loop builds exactly the pruned recent list, or fails where Python raises |
| Settings.RemoveFirstEntry | modules/utils/settings.py:230-236 | the loop pops the first equal entry and stops |
| Settings.KnechtSettings.constructor | modules/utils/settings.py:129-136 | holds the given class attributes |
| Settings.KnechtSettings.Load | modules/utils/settings.py:141-187 | the attributes and the outcome are those of the `load` transition |
| Settings.KnechtSettings.AddRecentFile | modules/utils/settings.py:223-242 | the attributes and the raise flag are those of the `add_recent_file` transition |
| Widgets.StepLabelValue | modules/widgets.py:33 | a step label reads back as its percentage: two or more digits, then `%` |
| Widgets.StepsShape | modules/widgets.py:23-27 | `range(25, 275, 25)` is 25, 50, ..., 250, ascending, and contains 100 |
| Widgets.BelowCount | modules/widgets.py:28-29 | the popped extras are the longest prefix below the bound; the next one, if any, is not below it |
| Widgets.BuiltPartition | modules/widgets.py:27-33 | every step appears once, in order, and the extras taken followed by those left are the list as it was |
| Widgets.NoExtrasOnlySteps | modules/widgets.py:27-33 | with a consumed extras list the box shows only the steps |
| Widgets.BuiltIncreasing | modules/widgets.py:27-33 | with ascending steps and ascending extras that lie above a bound and never equal a step's factor, the item data is strictly increasing and stays above that bound |
| Widgets.SeparatedBoxes | modules/widgets.py:27-33 | for separated steps and extras that all lie below the last step, the first box rises strictly and takes every extra, and a second box gets none |
| Widgets.BuiltMembers | modules/widgets.py:27-33 | every item is a step item or an extra item from the inputs |
| Widgets.LargeExtrasStay | modules/widgets.py:27-33 | an extra not below the last step's factor is never added and stays in the list |
| Widgets.ExtrasConsumed | modules/widgets.py:27-33 | extras all below the last step's factor are all taken |
| Widgets.DefaultBoxes | modules/widgets.py:27-33 | the first box with the default extras (0.10, 0.15, 0.6666666, 1.3333333) has strictly increasing data and takes them all; a second box shows only the steps |
| Widgets.FindData | modules/widgets.py:37-38 | `findData` gives the first item with that data, or -1 |
| Widgets.ResetSelectsHundred | modules/widgets.py:35-38 | `reset` selects the 100 % step when 100 is a step and no extra is exactly 1.0 |
| Widgets.ViewerSizeBox.constructor | modules/widgets.py:18-33 | the items and the shared extras list are those the merge defines |
| Widgets.ViewerSizeBox.Reset | modules/widgets.py:35-38 | selects the index `findData(1.0)` gives |
| Widgets.AddSteps | modules/widgets.py:27-33 | the loop appends each step's smaller extras and then the step, consuming the extras from the front |
| Widgets.PopExtrasBelow | modules/widgets.py:28-29 | pops exactly the leading extras below the bound and leaves the rest |
| ImgUtils.CreateFileSafeName | modules/utils/img_utils.py:17-19 | length is kept, every output character is safe, and exactly the safe characters stay in place |
| ImgUtils.SafeNameFixedPoints | modules/utils/img_utils.py:17-19 | a name is unchanged iff it is already safe |
| ImgUtils.SafeNameIdempotent | modules/utils/img_utils.py:17-19 | sanitising twice is sanitising once |
| ImgUtils.GetNumpyOiioImgFormat | modules/utils/img_utils.py:47-53 | FLOAT iff the array is float32, UINT8 otherwise |
| ImgUtils.NpToImageBuf | modules/utils/img_utils.py:56-68 | fewer than three dimensions are rejected with no buffer; a buffer is made exactly for three, with height, width and channels from the shape |
| ImgUtils.WriteImage | modules/utils/img_utils.py:116-139 | nothing is written without an output or for fewer than three dimensions; a write needs a created and opened output and uses the array's spec |
| ImgUtils.WriteMatchesBuffer | modules/utils/img_utils.py:116-139 | a write happens only for an array that gets a buffer, with the same spec, and always does when the output opens |
| ImgUtils.QRgb | modules/utils/img_utils.py:175 | `qRgb` is opaque and holds its red, green and blue bytes |
| ImgUtils.GrayTable | modules/utils/img_utils.py:175 | entry i is the grey of level i |
| ImgUtils.NpToQImage | modules/utils/img_utils.py:178-192 | uint8 2-D gives Indexed8 with the grey table, 3-D with 3 or 4 channels gives RGB888 or ARGB32, anything else None; size and stride come from the array |
| ImgUtils.GrayColorTableEntries | modules/utils/img_utils.py:175 | the table has 256 opaque entries, entry i with all three channels i |
| GuiUtils.HandleDragEvent | modules/utils/gui_utils.py:31-39 | a drag is accepted, in the widget's rectangle, iff it carries URLs |
| GuiUtils.FirstLocalIndex | modules/utils/gui_utils.py:45-49 | the position of the first local-file URL, with none before it |
| GuiUtils.DroppedFile | modules/utils/gui_utils.py:42-51 | a file is dropped iff some URL is a local file, and it is the first one's |
| GuiUtils.HandleDropEvent | modules/utils/gui_utils.py:42-51 | accepted iff some URL is local; the callback then runs exactly once with the first local file, and otherwise not at all |
| GuiUtils.FirstLocalUnique | modules/utils/gui_utils.py:45-49 | the first local index is the only local index with no local one before it |
| GuiUtils.DropPrefersFirst | modules/utils/gui_utils.py:42-51 | an all-remote drop is ignored; a local file in front wins |
| GuiUtils.RoundDiv | modules/utils/gui_utils.py:128 | `int(round(a / b))` is the nearest integer to `a / b`, ties to even |
| GuiUtils.RoundDivExact | modules/utils/gui_utils.py:128 | an exact quotient rounds to itself |
| GuiUtils.PredictProgressTime.constructor | modules/utils/gui_utils.py:122-137 | `max_steps` is the rounded step count, with no step done, no duration measured and the step clock started now |
| GuiUtils.PredictProgressTime.PredictRemainingSteps | modules/utils/gui_utils.py:147-156 | one more step is done and its duration since the last reading appended; the result is `max_steps - progressed_steps`, one less than before |
| GuiUtils.PredictProgressTime.Update | modules/utils/gui_utils.py:142-145 | as written: raises `NameError` for the undefined `time_string` before anything is counted, leaving the state unchanged |
| GuiUtils.PredictProgressTime.UpdateCounted | modules/utils/gui_utils.py:142-156 | as evidently intended: the step is counted and timed, and the remaining step count is returned |
| GuiUtils.PredictedAllCounts | modules/utils/gui_utils.py:147-156 | counted updates at given times add one step each, drop the remaining count by one each, and record each time since the previous reading in order after the earlier durations |
| GuiUtils.GapsAt | modules/utils/gui_utils.py:147-156 | the duration recorded by the k-th counted update is the time since the reading before it (the constructor's for the first) |
| GuiUtils.UpdateNeverCounts | modules/utils/gui_utils.py:142-145 | from a fresh four-step predictor the as-written update leaves four steps remaining, while n counted updates leave 4 - n |
| GuiUtils.NewPredictProgressTime | modules/utils/gui_utils.py:122-126 | creation fails iff the step size is not an int or below 1 |
| GuiUtils.IdleFiltered | modules/utils/gui_utils.py:190-203 | a None object or event changes nothing; activity clears idle and stops the timer; any other event keeps idle and leaves the timer running |
| GuiUtils.TimedOut | modules/utils/gui_utils.py:174-188 | the timeout sets idle and stops the single-shot timer |
| GuiUtils.IdleRules | modules/utils/gui_utils.py:180-203 | activity always ends idleness; another event then the timeout makes the detector idle, and only activity ends that |
| GuiUtils.IdleDetection.constructor | modules/utils/gui_utils.py:163-178 | built as evidently intended (filter installed on `_parent`): not idle, with the timer stopped |
| GuiUtils.NewIdleDetection | modules/utils/gui_utils.py:163-178 | as written, `__init__` raises at `self.parent.installEventFilter`, so no detector is ever returned |
| GuiUtils.FreshDetectorStaysActive | modules/utils/gui_utils.py:163-203 | a detector built idle-free stays not idle through any events until its timer fires, and after an event the timer runs iff that event was not activity |
| GuiUtils.IdleDetection.IsActive | modules/utils/gui_utils.py:180-181 | reports the idle flag, so it is true when idle |
| GuiUtils.IdleDetection.SetActive | modules/utils/gui_utils.py:183-185 | clears idle and stops the timer |
| GuiUtils.IdleDetection.SetInactive | modules/utils/gui_utils.py:187-188 | sets idle and leaves the timer alone |
| GuiUtils.IdleDetection.Timeout | modules/utils/gui_utils.py:170-174 | the state moves as the timeout says |
| GuiUtils.IdleDetection.EventFilter | modules/utils/gui_utils.py:190-203 | the state moves as the filter says and the event is never consumed |
| GuiUtils.DblClickFiltered | modules/utils/gui_utils.py:222-232 | a double click is consumed with one call of the stored arguments; anything else, or None, is passed on with no call |
| GuiUtils.DblClickCalls | modules/utils/gui_utils.py:222-232 | each double click in a run of events makes one call with the stored arguments; other events make none |
| GuiUtils.DblClickCount | modules/utils/gui_utils.py:222-232 | the number of calls equals the number of double clicks |
| GuiUtils.MouseDblClickFilter.constructor | modules/utils/gui_utils.py:208-220 | stores the arguments and has made no calls |
| GuiUtils.MouseDblClickFilter.EventFilter | modules/utils/gui_utils.py:222-232 | appends the call and consumes the event exactly as the filter function says |
| Text.Split | modules/utils/camera_info.py:125 | `split` never yields an empty list and its pieces are free of the separator |
| Text.JoinSplit | modules/utils/camera_info.py:125-133 | joining the pieces of a split gives back the string |
| Text.SplitJoin | modules/utils/camera_info.py:124-133 | splitting a join of separator-free pieces gives back the pieces |
| Text.Remove | modules/utils/camera_info.py:125 | `replace(c, '')` drops every `c` and keeps the rest in order |
| Text.DecimalRoundTrip | modules/widgets.py:33 | `str(n)` is a digit string that reads back as n |
| OrderedDict.Get | modules/utils/settings.py:158-171 | `d.get(k)` is the value of the first item with key k, or None |
| OrderedDict.Put | modules/utils/settings.py:158-171 | `d[k] = v` overwrites in place an existing key and appends a new one |
| OrderedDict.PutOther | modules/utils/settings.py:158-171 | `d[k] = v` leaves every other key as it was |
| OrderedDict.PutKeys | modules/utils/settings.py:158-171 | `d[k] = v` adds k to the keys and nothing else, keeping them distinct |

## Left out

- Floating point: the radians-to-degrees conversion and its text are a parameter (`degrees`); the combo labels' `.2f` text, opacity, `change_viewer_size` factors and `PredictProgressTime`'s numpy mean are not modelled. Zoom factors are exact `real`s.
- Win32 and pywinauto (`FindWindow`, `EnumWindows`, `SetForegroundWindow`, `Application.connect`, the viewer widget's child-window descent, `rectangle()`): only their answers appear, as parameters. `modules/utils/find_desktop_window.py` is not part of this model.
- The socket transport (`modules/knecht_socket` is not part of this model): only the liveness flag and the log of sent commands and closes appear.
- Threads and timing: the run loop's 1.5 s wait, `exit_event`, `join`, the QTimer debounces and the QThread loader. The run loop is a sequence of cycles, each with its own oracle answers.
- ImgLoader: `kill_load_thread` is not modelled, because it depends on thread termination, and it calls `close` and `image_load_failed`, which the controller does not define.
- ImgView.ImageView.PlaceInsideScreen: `place_in_screen_center` is a parameter (`centre`), because it depends on the screen's geometry as Qt reports it.
- ImgView.ImageView.constructor: only the size, position, zoom index, title and buttons are modelled; widgets, icons, shortcuts and the info overlay are not. The background pixmap's size and the centre `place_in_screen_center` computes (with float division) are parameters, and the zoom factor 1.0 makes `change_viewer_size` round to the pixmap's own size.
- ImgView.ImageView.DgCheckBtn: the thread's signal reaches the slot through Qt's queue; the model runs the slot and its `toggled` echo at once, with what the echoed toggle would read passed in.
- Settings.KnechtSettings.AddRecentFile: the caller passes the file already in POSIX form; `Path(file).as_posix()` is not modelled.
- ImgView: `modules/img_view.py` imports `KnechtImageViewerSendController`, which `modules/deltagen_viewer.py` does not define; the model wires the overlay to `SyncController`, the class that file defines.
- ImgUtils.CreateFileSafeName: `\w` is taken as ASCII letters, digits and `_`; Python's Unicode word characters are not modelled.
- ImgLoader.Casefold: folds only ASCII letters; Unicode case folding is not modelled.
- Settings: file reading, JSON parsing, jsonpickle and zlib persistence (`pickle_save`, `pickle_load`, `load_from_bytes`), `setup_lang` and `load_ui_resources` are not modelled; what a read gives is a parameter. An attribute value that is neither scalar, list, dict nor tuple (`VObject`) is treated as not iterable.
- Settings.KnechtLoadRules: an `OSError` from `Path.exists` is folded into the existence answer, which is a parameter.
- OpenImageIO, numpy and QPixmap work (`read_image`, `read_img_metadata`, `premultiply_image`, `get_image_resolution`, `read_to_qpixmap`, `np_2_pixmap`, the pixel data itself): library wrappers, left out. Arrays are their element type, shape and first stride.
- ImgUtils.WriteImage: an exception while writing the pixels is caught and logged, so it ends like a completed write; the model does not tell the two apart.
- GuiUtils.PredictProgressTime.PredictRemainingSteps: requires the class invariant `Valid()` (one duration per counted step), which every constructor and method keeps; the remaining time itself (mean duration times remaining steps) is not modelled.
- GuiUtils: `MeasureExecTime`, `DragNDropHandler` installation, `replace_widget`, `SetupWidget`, `ConnectCall` and `KnechtExceptionHook` are Qt wiring and logging, left out.
- DeltaGenViewer.SyncController.TogglePull: the focus button's checked state is a parameter; whether Qt updates it before or after `pressed` fires is outside the model.
- Qt wiring, shortcuts, stylesheets, translation, logging, `dnd_example.py`, `main_app.py` and `viewer.py`: UI bootstrap with no logic to state.

## Findings

| source | as written | input that shows it | evidently intended | confidence | as-written member | corrected member |
|---|---|---|---|---|---|---|
| modules/utils/gui_utils.py:142-145 | `update` returns `time_string(self._predict_remaining_time())`, but the module neither defines nor imports `time_string`; the name is looked up before the argument is evaluated, so every call raises `NameError` and no step is ever counted | any call, e.g. on a fresh predictor of 4 steps: still 4 remaining after any number of calls | count the step and return the remaining estimate | high, not executed | GuiUtils.PredictProgressTime.Update, GuiUtils.UpdateNeverCounts | GuiUtils.PredictProgressTime.UpdateCounted, GuiUtils.PredictedAllCounts |
| modules/utils/gui_utils.py:163-178 | `__init__` ends with `self.parent.installEventFilter(self)`; `parent` is the method `QObject.parent`, the widget is stored as `self._parent`, so the attribute lookup raises `AttributeError` | any construction, e.g. `IdleDetection(widget)` | install the filter on `self._parent` and start not idle with the timer stopped | high, not executed | GuiUtils.NewIdleDetection | GuiUtils.IdleDetection.constructor, GuiUtils.FreshDetectorStaysActive |
