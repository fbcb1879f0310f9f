/**
 * GUI helpers (modules/utils/gui_utils.py): drag and drop of file URLs, the
 * progress step counter, the idle detector and the double-click filter.
 *
 * Qt events, timers and the clock are modelled by what the helpers read from
 * them: an event's type (or its absence), whether the idle timer runs, and
 * the current time passed in as a number.
 */
module GuiUtils {
  import opened Wrappers

  // ---------------------------------------------------------------- drag and drop

  /** A URL of a drop's mime data: whether it names a local file, and that file. */
  datatype Url = Url(isLocalFile: bool, localFile: string)

  /** A widget rectangle. */
  datatype Rect = Rect(x: int, y: int, width: int, height: int)

  /** How a drag event ends: accepted as a link inside the rectangle, or ignored. */
  datatype DragOutcome = LinkAccepted(rect: Rect) | DragIgnored

  /** `handle_drag_event`: any drag that carries URLs is accepted, inside the widget's rectangle. */
  function HandleDragEvent(hasUrls: bool, rect: Rect): (r: DragOutcome)
    ensures r.LinkAccepted? <==> hasUrls
    ensures r.LinkAccepted? ==> r.rect == rect
  {
    if hasUrls then LinkAccepted(rect) else DragIgnored
  }

  /** The position of the first local-file URL, if there is one. */
  function FirstLocalIndex(urls: seq<Url>): (r: Option<nat>)
    ensures r.Some? ==> r.value < |urls| && urls[r.value].isLocalFile &&
                        forall j :: 0 <= j < r.value ==> !urls[j].isLocalFile
    ensures r.None? <==> forall j :: 0 <= j < |urls| ==> !urls[j].isLocalFile
  {
    if urls == [] then None
    else if urls[0].isLocalFile then Some(0)
    else
      var r := FirstLocalIndex(urls[1..]);
      if r.None? then None
      else
        assert forall j :: 1 <= j <= r.value ==> urls[j] == urls[1..][j - 1];
        Some(r.value + 1)
  }

  /** The file a drop hands to the callback: that of the first local-file URL. */
  function DroppedFile(urls: seq<Url>): (r: Option<string>)
    ensures r.Some? <==> exists j :: 0 <= j < |urls| && urls[j].isLocalFile
  {
    var i := FirstLocalIndex(urls);
    if i.Some? then Some(urls[i.value].localFile) else None
  }

  /**
   * `handle_drop_event`: walks the URLs and, at the first local file, calls
   * the callback with it once and accepts; with no local file the event is
   * ignored and the callback is not called.
   */
  method HandleDropEvent(urls: seq<Url>) returns (calls: seq<string>, accepted: bool)
    ensures accepted <==> DroppedFile(urls).Some?
    ensures calls == if accepted then [DroppedFile(urls).value] else []
  {
    calls := [];
    var i := 0;
    while i < |urls|
      invariant 0 <= i <= |urls|
      invariant forall j :: 0 <= j < i ==> !urls[j].isLocalFile
    {
      if urls[i].isLocalFile {
        calls := calls + [urls[i].localFile];
        assert FirstLocalIndex(urls) == Some(i) by { FirstLocalUnique(urls, i); }
        return calls, true;
      }
      i := i + 1;
    }
    return calls, false;
  }

  /** The first local file is the only index with a local file and no local file before it. */
  lemma FirstLocalUnique(urls: seq<Url>, i: nat)
    requires i < |urls| && urls[i].isLocalFile
    requires forall j :: 0 <= j < i ==> !urls[j].isLocalFile
    ensures FirstLocalIndex(urls) == Some(i)
  {
    var r := FirstLocalIndex(urls);
    assert r.Some?;
    assert urls[r.value].isLocalFile;
  }

  /** A drop whose URLs are all remote is ignored whatever else it carries; putting a local file in front of any drop makes that file the dropped one. */
  lemma DropPrefersFirst(u: Url, urls: seq<Url>)
    requires u.isLocalFile
    ensures DroppedFile([u] + urls) == Some(u.localFile)
    ensures (forall j :: 0 <= j < |urls| ==> !urls[j].isLocalFile) ==> DroppedFile(urls) == None
  {
    FirstLocalUnique([u] + urls, 0);
  }

  // ---------------------------------------------------------------- progress

  /** A `step_size` argument: an `int`, or a value of another type. */
  datatype StepSizeArg = IntArg(n: int) | NonIntArg

  /** `int(round(a / b))` for a positive `b`: the nearest integer, ties to the even one. */
  function RoundDiv(a: int, b: int): (r: int)
    requires b >= 1
    ensures 2 * (a - b * r) <= b && -b <= 2 * (a - b * r)
    ensures 2 * (a - b * r) == b ==> r % 2 == 0
    ensures 2 * (a - b * r) == -b ==> r % 2 == 0
  {
    var q := a / b;
    var rem := a % b;
    assert a - b * q == rem && 0 <= rem < b;
    assert a - b * (q + 1) == rem - b;
    if 2 * rem < b then q
    else if 2 * rem > b then q + 1
    else if q % 2 == 0 then q
    else q + 1
  }

  /** A whole quotient is its own rounding. */
  lemma RoundDivExact(k: int, b: int)
    requires b >= 1
    ensures RoundDiv(k * b, b) == k
  {
    var r := RoundDiv(k * b, b);
    var d := k - r;
    assert k * b - b * r == b * d;
    assert -b <= 2 * (b * d) <= b;
    MulBounds(b, d);
  }

  /** A non-zero multiple of a positive number is at least that number away from 0. */
  lemma MulBounds(b: int, d: int)
    requires b >= 1
    ensures d >= 1 ==> b * d >= b
    ensures d <= -1 ==> b * d <= -b
  {
    if d >= 1 {
      assert b * d == b + b * (d - 1);
    } else if d <= -1 {
      assert b * d == -b + b * (d + 1);
    }
  }

  /** The fields of `PredictProgressTime`; `stepStartTime` is the last `time()` reading. */
  datatype Progress = Progress(maxSteps: int, progressedSteps: int, stepDurations: seq<real>, stepStartTime: real)

  /** One measured duration per counted step. */
  predicate ProgressValid(p: Progress)
  {
    p.progressedSteps >= 0 && |p.stepDurations| == p.progressedSteps
  }

  /** `_predict_remaining_time` at time `now`, without the mean: the step is counted and timed. */
  function Predicted(p: Progress, now: real): Progress
  {
    p.(progressedSteps := p.progressedSteps + 1, stepDurations := p.stepDurations + [now - p.stepStartTime],
       stepStartTime := now)
  }

  /** `max_steps - progressed_steps`. */
  function Remaining(p: Progress): int
  {
    p.maxSteps - p.progressedSteps
  }

  /** `_predict_remaining_time` called at each of `times` in turn. */
  function PredictedAll(p: Progress, times: seq<real>): Progress
  {
    if times == [] then p else Predicted(PredictedAll(p, times[..|times| - 1]), times[|times| - 1])
  }

  /** The last clock reading: `start`, or the last of `times`. */
  function LastTime(start: real, times: seq<real>): real
  {
    if times == [] then start else times[|times| - 1]
  }

  /** The time between consecutive readings, starting from `start`. */
  function Gaps(start: real, times: seq<real>): (r: seq<real>)
    ensures |r| == |times|
  {
    if times == [] then []
    else
      var init := times[..|times| - 1];
      Gaps(start, init) + [times[|times| - 1] - LastTime(start, init)]
  }

  /** Each gap is the time since the reading before it. */
  lemma {:induction false} GapsAt(start: real, times: seq<real>, i: int)
    requires 0 <= i < |times|
    ensures Gaps(start, times)[i] == times[i] - (if i == 0 then start else times[i - 1])
  {
    var init := times[..|times| - 1];
    if i < |init| {
      GapsAt(start, init, i);
    }
  }

  /**
   * Counted updates at the times `times`: every one counts one step, so the
   * remaining count drops by one each time, and each records the time since
   * the previous reading, in order, after the durations measured before.
   */
  lemma {:induction false} PredictedAllCounts(p: Progress, times: seq<real>)
    requires ProgressValid(p)
    ensures var r := PredictedAll(p, times);
      && ProgressValid(r)
      && r == p.(progressedSteps := p.progressedSteps + |times|,
                 stepDurations := p.stepDurations + Gaps(p.stepStartTime, times),
                 stepStartTime := LastTime(p.stepStartTime, times))
      && Remaining(r) == Remaining(p) - |times|
  {
    if times != [] {
      var init := times[..|times| - 1];
      PredictedAllCounts(p, init);
      var g := Gaps(p.stepStartTime, init);
      var d := times[|times| - 1] - LastTime(p.stepStartTime, init);
      assert p.stepDurations + g + [d] == p.stepDurations + (g + [d]);
    }
  }

  /**
   * `update` as written: the name `time_string` is looked up before its
   * argument is evaluated, and the module neither defines nor imports it, so
   * the call raises `NameError` with nothing counted.
   */
  function UpdatedAsWritten(p: Progress, now: real): (Progress, bool)
  {
    (p, true)
  }

  /**
   * The as-written `update` never counts a step: from a fresh predictor of
   * four steps, any number of calls leaves four steps remaining, where counted
   * updates leave one fewer per call.
   */
  lemma UpdateNeverCounts(now: real, times: seq<real>)
    ensures var start := Progress(4, 0, [], now);
      && UpdatedAsWritten(start, now) == (start, true)
      && Remaining(UpdatedAsWritten(start, now).0) == 4
      && Remaining(PredictedAll(start, times)) == 4 - |times|
  {
    PredictedAllCounts(Progress(4, 0, [], now), times);
  }

  class PredictProgressTime {
    var maxSteps: int
    var progressedSteps: int
    var stepDurations: seq<real>
    var stepStartTime: real

    function State(): Progress
      reads this
    {
      Progress(maxSteps, progressedSteps, stepDurations, stepStartTime)
    }

    /** `time()` readings taken so far match the step counter. */
    predicate Valid()
      reads this
    {
      ProgressValid(State())
    }

    constructor (numSteps: int, stepSize: int, now: real)
      requires stepSize >= 1
      ensures Valid()
      ensures State() == Progress(RoundDiv(numSteps, stepSize), 0, [], now)
    {
      maxSteps := RoundDiv(numSteps, stepSize);
      progressedSteps := 0;
      stepDurations := [];
      stepStartTime := now;
    }

    /** `_predict_remaining_time` without the mean: one more step done; what is left of `max_steps`. */
    method PredictRemainingSteps(now: real) returns (remainingSteps: int)
      requires Valid()
      modifies this
      ensures Valid()
      ensures State() == Predicted(old(State()), now)
      ensures remainingSteps == Remaining(State()) == Remaining(old(State())) - 1
    {
      progressedSteps := progressedSteps + 1;
      stepDurations := stepDurations + [now - stepStartTime];
      remainingSteps := maxSteps - progressedSteps;
      stepStartTime := now;
    }

    /** `update` as written: raises before anything is counted. */
    method Update(now: real) returns (raised: bool)
      requires Valid()
      modifies this
      ensures (State(), raised) == UpdatedAsWritten(old(State()), now)
    {
      raised := true;
    }

    /**
     * `update` as evidently intended, with the time formatting left out: the
     * step is counted and the remaining step count is returned.
     */
    method UpdateCounted(now: real) returns (remainingSteps: int)
      requires Valid()
      modifies this
      ensures Valid()
      ensures State() == Predicted(old(State()), now)
      ensures remainingSteps == Remaining(State())
    {
      remainingSteps := PredictRemainingSteps(now);
    }
  }

  /** The `__init__` check: a step size that is not an `int` or is below 1 raises. */
  method NewPredictProgressTime(numSteps: int, stepSize: StepSizeArg, now: real) returns (p: Option<PredictProgressTime>)
    ensures p.None? <==> stepSize.NonIntArg? || stepSize.n < 1
    ensures p.Some? ==> fresh(p.value) && p.value.Valid() &&
                        p.value.State() == Progress(RoundDiv(numSteps, stepSize.n), 0, [], now)
  {
    if stepSize.NonIntArg? || stepSize.n < 1 {
      return None;
    }
    var t := new PredictProgressTime(numSteps, stepSize.n, now);
    return Some(t);
  }

  // ---------------------------------------------------------------- event filters

  /** The event types the filters tell apart. */
  datatype EventType = KeyPress | MouseMove | MouseButtonPress | MouseButtonDblClick | OtherEvent(code: int)

  /** An event that counts as user activity. */
  predicate IsActivity(t: EventType)
  {
    t == KeyPress || t == MouseMove || t == MouseButtonPress
  }

  /** The idle detector's state: the `idle` flag and whether the single-shot timer runs. */
  datatype IdleState = IdleState(idle: bool, timerActive: bool)

  /** `IdleDetection.eventFilter` on the state; `ev` is None when the object or the event is None. */
  function IdleFiltered(s: IdleState, ev: Option<EventType>): (r: IdleState)
    ensures ev.None? ==> r == s
    ensures ev.Some? && IsActivity(ev.value) ==> !r.idle && !r.timerActive
    ensures ev.Some? && !IsActivity(ev.value) ==> r.idle == s.idle && r.timerActive
  {
    if ev.None? then s
    else if IsActivity(ev.value) then IdleState(false, false)
    else IdleState(s.idle, true)
  }

  /** The timer's timeout: `set_inactive`; a single-shot timer stops when it fires. */
  function TimedOut(s: IdleState): (r: IdleState)
    ensures r.idle && !r.timerActive
  {
    IdleState(true, false)
  }

  /**
   * Activity always ends idleness; any other event followed by the timeout
   * makes the detector idle, and only an activity event can end that.
   */
  lemma IdleRules(s: IdleState, t: EventType, u: EventType)
    ensures IsActivity(t) ==> !IdleFiltered(s, Some(t)).idle
    ensures !IsActivity(t) ==> TimedOut(IdleFiltered(s, Some(t))).idle
    ensures s.idle && !IsActivity(u) ==> IdleFiltered(s, Some(u)).idle
    ensures !IsActivity(t) && !IsActivity(u) ==>
              IdleFiltered(IdleFiltered(s, Some(t)), Some(u)) == IdleFiltered(s, Some(t))
  {
  }

  /** `eventFilter` applied to each of `evs` in turn. */
  function IdleAfterEvents(s: IdleState, evs: seq<Option<EventType>>): IdleState
  {
    if evs == [] then s else IdleFiltered(IdleAfterEvents(s, evs[..|evs| - 1]), evs[|evs| - 1])
  }

  /**
   * A detector built idle-free stays not idle whatever events reach it until
   * its timer fires, and after an event the timer runs iff that event was not
   * activity.
   */
  lemma {:induction false} FreshDetectorStaysActive(evs: seq<Option<EventType>>)
    ensures !IdleAfterEvents(IdleState(false, false), evs).idle
    ensures evs != [] && evs[|evs| - 1].Some? ==>
              (IdleAfterEvents(IdleState(false, false), evs).timerActive <==> !IsActivity(evs[|evs| - 1].value))
  {
    if evs != [] {
      FreshDetectorStaysActive(evs[..|evs| - 1]);
    }
  }

  /**
   * `IdleDetection(parent)` as written: `__init__` ends with
   * `self.parent.installEventFilter(self)`, but `parent` there is the method
   * inherited from `QObject` (the widget is stored as `_parent`), so the call
   * raises `AttributeError` and no detector is ever returned.
   */
  method NewIdleDetection() returns (d: Option<IdleDetection>)
    ensures d == None
  {
    d := None;
  }

  class IdleDetection {
    var idle: bool
    var timerActive: bool

    function State(): IdleState
      reads this
    {
      IdleState(idle, timerActive)
    }

    /**
     * `__init__` as evidently intended, installing the filter on the stored
     * widget `_parent`: not idle, with the timer stopped.
     */
    constructor ()
      ensures State() == IdleState(false, false)
    {
      idle, timerActive := false, false;
    }

    /** `is_active`: reports the idle flag, so it is true when the user is idle. */
    function IsActive(): (r: bool)
      reads this
      ensures r == State().idle
    {
      idle
    }

    method SetActive()
      modifies this
      ensures State() == IdleState(false, false)
    {
      idle := false;
      timerActive := false;
    }

    method SetInactive()
      modifies this
      ensures idle && timerActive == old(timerActive)
    {
      idle := true;
    }

    /** The single-shot timer fires. */
    method Timeout()
      modifies this
      ensures State() == TimedOut(old(State()))
    {
      timerActive := false;
      SetInactive();
    }

    /** `eventFilter`: never consumes the event. */
    method EventFilter(ev: Option<EventType>) returns (consumed: bool)
      modifies this
      ensures State() == IdleFiltered(old(State()), ev)
      ensures !consumed
    {
      if ev.None? {
        return false;
      }
      if IsActivity(ev.value) {
        SetActive();
        return false;
      }
      if !timerActive {
        timerActive := true;
      }
      return false;
    }
  }

  /** `MouseDblClickFilter.eventFilter`: whether the event is consumed, with the call it makes. */
  function DblClickFiltered(ev: Option<EventType>, args: seq<string>): (r: (bool, seq<seq<string>>))
    ensures r.0 <==> ev == Some(MouseButtonDblClick)
    ensures r.1 == if r.0 then [args] else []
  {
    if ev == Some(MouseButtonDblClick) then (true, [args]) else (false, [])
  }

  /** The positions of the double clicks in a run of events. */
  function DblClicks(evs: seq<Option<EventType>>): set<int>
  {
    set i | 0 <= i < |evs| && evs[i] == Some(MouseButtonDblClick)
  }

  /** Every double click calls the method once with the stored arguments; other events leave it alone. */
  lemma DblClickCalls(evs: seq<Option<EventType>>, args: seq<string>)
    ensures |DblClickRun(evs, args)| == |DblClicks(evs)|
    ensures forall k :: 0 <= k < |DblClickRun(evs, args)| ==> DblClickRun(evs, args)[k] == args
  {
    DblClickCount(evs, args);
  }

  /** The calls a run of events makes, in order. */
  function DblClickRun(evs: seq<Option<EventType>>, args: seq<string>): (calls: seq<seq<string>>)
    ensures forall k :: 0 <= k < |calls| ==> calls[k] == args
  {
    if evs == [] then [] else DblClickRun(evs[..|evs| - 1], args) + DblClickFiltered(evs[|evs| - 1], args).1
  }

  lemma {:induction false} DblClickCount(evs: seq<Option<EventType>>, args: seq<string>)
    ensures |DblClickRun(evs, args)| == |DblClicks(evs)|
  {
    if evs != [] {
      var n := |evs| - 1;
      DblClickCount(evs[..n], args);
      DblClicksStep(evs);
    }
  }

  /** One more event adds its position to the double clicks exactly when it is one. */
  lemma DblClicksStep(evs: seq<Option<EventType>>)
    requires evs != []
    ensures var n := |evs| - 1;
      |DblClicks(evs)| == |DblClicks(evs[..n])| + (if evs[n] == Some(MouseButtonDblClick) then 1 else 0)
  {
    var n := |evs| - 1;
    var front := evs[..n];
    var before := DblClicks(front);
    assert before == set i | 0 <= i < n && evs[i] == Some(MouseButtonDblClick);
    assert n !in before;
    if evs[n] == Some(MouseButtonDblClick) {
      assert DblClicks(evs) == before + {n};
    } else {
      assert DblClicks(evs) == before;
    }
  }

  class MouseDblClickFilter {
    const args: seq<string>
    var calls: seq<seq<string>>

    constructor (args: seq<string>)
      ensures this.args == args && calls == []
    {
      this.args := args;
      calls := [];
    }

    method EventFilter(ev: Option<EventType>) returns (consumed: bool)
      modifies this
      ensures (consumed, calls) == (DblClickFiltered(ev, args).0, old(calls) + DblClickFiltered(ev, args).1)
    {
      if ev.None? {
        assert calls + [] == calls;
        return false;
      }
      if ev.value == MouseButtonDblClick {
        calls := calls + [args];
        return true;
      }
      assert calls + [] == calls;
      return false;
    }
  }
}
