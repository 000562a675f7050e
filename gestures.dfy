/**
 * The pinch gesture detector: a click-versus-drag automaton over two flags, a recorded start time and a
 * recorded start position, fed once per frame.
 */
module Gestures {
  import opened Common

  /** A normalized 2-D landmark or fingertip position. */
  datatype Point = Point(x: real, y: real)

  /** The events a frame can produce besides "nothing" (`None`). */
  datatype Event = Click | DragStart | Dragging | DragEnd

  /** Landmark indices of the hand model. */
  const ThumbTip: nat := 4
  const IndexTip: nat := 8
  const MiddleTip: nat := 12

  /** The click-versus-drag thresholds: seconds and normalized distance. */
  datatype DragThresholds = DragThresholds(clickTime: real, dragDistance: real)

  /** The detector's mutable fields as a value. */
  datatype PinchState = PinchState(
    pinchActive: bool,
    pinchStartTime: Option<real>,
    pinchStartPos: Option<Point>,
    isDragging: bool)

  /** The state after construction and after every release or reset. */
  const Idle: PinchState := PinchState(false, None, None, false)

  /**
   * The reachable states: dragging only during a pinch, and a start time and a start position recorded
   * exactly while a pinch is active.
   */
  predicate Consistent(s: PinchState) {
    && (s.isDragging ==> s.pinchActive)
    && (s.pinchStartTime.Some? <==> s.pinchActive)
    && (s.pinchStartPos.Some? <==> s.pinchActive)
  }

  function SquaredDistance(a: Point, b: Point): real {
    SqNorm(a.x - b.x, a.y - b.y)
  }

  /** `sqrt(d2) < limit`, decided without the square root. */
  predicate Below(d2: real, limit: real) {
    0.0 < limit && d2 < limit * limit
  }

  /** `sqrt(d2) > limit`, decided without the square root. */
  predicate Exceeds(d2: real, limit: real) {
    limit < 0.0 || d2 > limit * limit
  }

  /** For the true distance `d`, the square-free comparisons agree with comparing `d` itself. */
  lemma CompareByDistance(d2: real, d: real, limit: real)
    requires d >= 0.0 && d * d == d2
    ensures Below(d2, limit) <==> d < limit
    ensures Exceeds(d2, limit) <==> d > limit
  {
    if 0.0 <= limit {
      CompareBySquare(d2, d, limit);
    }
  }

  /** Held long enough, or moved far enough since the pinch started, to count as a drag. */
  predicate ShouldDrag(c: DragThresholds, s: PinchState, pos: Point, now: real)
    requires s.pinchStartTime.Some?
  {
    var duration := now - s.pinchStartTime.value;
    var moved2 := if s.pinchStartPos.Some? then SquaredDistance(pos, s.pinchStartPos.value) else 0.0;
    duration > c.clickTime || Exceeds(moved2, c.dragDistance)
  }

  /** One frame: the new state and the event, given whether the fingers are pinched right now. */
  function PinchStep(c: DragThresholds, s: PinchState, pinched: bool, pos: Point, now: real)
    : (r: (PinchState, Option<Event>))
    requires s.pinchActive ==> s.pinchStartTime.Some?
    ensures Consistent(s) ==> Consistent(r.0)
    ensures r.0.pinchActive == pinched
    ensures r.1 == Some(DragStart) ==> !s.isDragging && r.0.isDragging
    ensures (r.1 == Some(Click) || r.1 == Some(DragEnd)) <==> s.pinchActive && !pinched
    ensures r.1 == Some(Dragging) ==> s.isDragging && r.0 == s
  {
    if pinched && !s.pinchActive then
      (PinchState(true, Some(now), Some(pos), false), None)
    else if pinched && s.pinchActive then
      if ShouldDrag(c, s, pos, now) && !s.isDragging then (s.(isDragging := true), Some(DragStart))
      else if s.isDragging then (s, Some(Dragging))
      else (s, None)
    else if !pinched && s.pinchActive then
      (Idle, Some(if s.isDragging then DragEnd else Click))
    else
      (s, None)
  }

  /** From idle, a pinch records the start time and position and reports nothing yet. */
  lemma PinchStartsFromIdle(c: DragThresholds, s: PinchState, pos: Point, now: real)
    requires !s.pinchActive
    ensures PinchStep(c, s, true, pos, now) == (PinchState(true, Some(now), Some(pos), false), None)
  {
  }

  /** A short, still hold is undecided: nothing is reported and nothing changes. */
  lemma StillHoldIsUndecided(c: DragThresholds, s: PinchState, pos: Point, now: real)
    requires Consistent(s) && s.pinchActive && !s.isDragging
    requires now - s.pinchStartTime.value <= c.clickTime
    requires c.dragDistance >= 0.0
    requires SquaredDistance(pos, s.pinchStartPos.value) <= c.dragDistance * c.dragDistance
    ensures PinchStep(c, s, true, pos, now) == (s, None)
  {
  }

  /** Once a drag has started, every held frame reports `Dragging`, whatever the thresholds say. */
  lemma DragPersists(c: DragThresholds, s: PinchState, pos: Point, now: real)
    requires s.pinchActive && s.isDragging && s.pinchStartTime.Some?
    ensures PinchStep(c, s, true, pos, now) == (s, Some(Dragging))
  {
  }

  /** A hold that passes a threshold starts the drag. */
  lemma ThresholdStartsDrag(c: DragThresholds, s: PinchState, pos: Point, now: real)
    requires s.pinchActive && !s.isDragging && s.pinchStartTime.Some?
    requires ShouldDrag(c, s, pos, now)
    ensures PinchStep(c, s, true, pos, now) == (s.(isDragging := true), Some(DragStart))
  {
  }

  /** A release ends a drag or is a click, and always returns to idle. */
  lemma ReleaseClassifies(c: DragThresholds, s: PinchState, pos: Point, now: real)
    requires s.pinchActive && s.pinchStartTime.Some?
    ensures PinchStep(c, s, false, pos, now) == (Idle, Some(if s.isDragging then DragEnd else Click))
  {
  }

  /** No pinch while idle reports nothing and changes nothing. */
  lemma IdleStaysIdle(c: DragThresholds, s: PinchState, pos: Point, now: real)
    requires !s.pinchActive
    ensures PinchStep(c, s, false, pos, now) == (s, None)
  {
  }

  /** One tracked frame as the detector sees it. */
  datatype Frame = Frame(pinched: bool, pos: Point, now: real)

  /** Feeding frames one by one: the final state and one event (or nothing) per frame. */
  function Run(c: DragThresholds, s: PinchState, frames: seq<Frame>): (r: (PinchState, seq<Option<Event>>))
    requires Consistent(s)
    ensures Consistent(r.0)
    ensures |r.1| == |frames|
    decreases |frames|
  {
    if frames == [] then (s, [])
    else
      var (s1, e) := PinchStep(c, s, frames[0].pinched, frames[0].pos, frames[0].now);
      var (sn, es) := Run(c, s1, frames[1..]);
      (sn, [e] + es)
  }

  /**
   * The button a consumer of the events holds down, after one event: `None` when the event makes no
   * sense in that position (a drag end or drag frame with the button up, a click or drag start with it down).
   */
  function Button(down: bool, e: Option<Event>): Option<bool> {
    match e
    case None => Some(down)
    case Some(Click) => if down then None else Some(false)
    case Some(DragStart) => if down then None else Some(true)
    case Some(Dragging) => if down then Some(true) else None
    case Some(DragEnd) => if down then Some(false) else None
  }

  /** The button after a whole event sequence, or `None` if some event is out of place. */
  function Buttons(down: bool, es: seq<Option<Event>>): Option<bool>
    decreases |es|
  {
    if es == [] then Some(down)
    else match Button(down, es[0])
      case None => None
      case Some(d) => Buttons(d, es[1..])
  }

  /**
   * Drag starts and drag ends pair up: over any run from a reachable state, every event is in place for
   * a button that is down exactly while the detector is dragging.
   */
  lemma {:induction false} RunPairsDrags(c: DragThresholds, s: PinchState, frames: seq<Frame>)
    requires Consistent(s)
    ensures Buttons(s.isDragging, Run(c, s, frames).1) == Some(Run(c, s, frames).0.isDragging)
    decreases |frames|
  {
    if frames != [] {
      var (s1, e) := PinchStep(c, s, frames[0].pinched, frames[0].pos, frames[0].now);
      assert Button(s.isDragging, e) == Some(s1.isDragging);
      RunPairsDrags(c, s1, frames[1..]);
      var (sn, es) := Run(c, s1, frames[1..]);
      assert Run(c, s, frames) == (sn, [e] + es);
      assert ([e] + es)[1..] == es;
    }
  }

  function CountOf(e: Event, es: seq<Option<Event>>): nat
    decreases |es|
  {
    if es == [] then 0 else (if es[0] == Some(e) then 1 else 0) + CountOf(e, es[1..])
  }

  /** While the fingers stay pinched, at most one drag start is reported, and none once dragging. */
  lemma {:induction false} OneDragStartPerHold(c: DragThresholds, s: PinchState, frames: seq<Frame>)
    requires Consistent(s)
    requires forall i :: 0 <= i < |frames| ==> frames[i].pinched
    ensures CountOf(DragStart, Run(c, s, frames).1) <= (if s.isDragging then 0 else 1)
    ensures s.isDragging ==> Run(c, s, frames).0.isDragging
    decreases |frames|
  {
    if frames != [] {
      var (s1, e) := PinchStep(c, s, frames[0].pinched, frames[0].pos, frames[0].now);
      OneDragStartPerHold(c, s1, frames[1..]);
      var (sn, es) := Run(c, s1, frames[1..]);
      assert Run(c, s, frames) == (sn, [e] + es);
      assert ([e] + es)[1..] == es;
    }
  }

  /** The pinch detector, updated in place once per frame. */
  class GestureDetector {
    const pinchThreshold: real
    const clickTimeThreshold: real
    const dragDistanceThreshold: real

    var pinchActive: bool
    var pinchStartTime: Option<real>
    var pinchStartPos: Option<Point>
    var isDragging: bool

    function Thresholds(): DragThresholds {
      DragThresholds(clickTimeThreshold, dragDistanceThreshold)
    }

    ghost function State(): PinchState
      reads this
    {
      PinchState(pinchActive, pinchStartTime, pinchStartPos, isDragging)
    }

    ghost predicate Valid()
      reads this
    {
      Consistent(State())
    }

    constructor (pinchThreshold: real, clickTimeThreshold: real, dragDistanceThreshold: real)
      ensures Valid() && State() == Idle
      ensures this.pinchThreshold == pinchThreshold
      ensures Thresholds() == DragThresholds(clickTimeThreshold, dragDistanceThreshold)
    {
      this.pinchThreshold := pinchThreshold;
      this.clickTimeThreshold := clickTimeThreshold;
      this.dragDistanceThreshold := dragDistanceThreshold;
      pinchActive := false;
      pinchStartTime := None;
      pinchStartPos := None;
      isDragging := false;
    }

    /** Thumb and middle fingertip closer than the pinch threshold. */
    function DetectPinch(landmarks: seq<Point>): bool
      requires |landmarks| > MiddleTip
    {
      Below(SquaredDistance(landmarks[ThumbTip], landmarks[MiddleTip]), pinchThreshold)
    }

    /** `DetectPinch` is the Euclidean distance of thumb tip and middle tip compared with the threshold. */
    lemma DetectPinchIsEuclidean(landmarks: seq<Point>, d: real)
      requires |landmarks| > MiddleTip
      requires d >= 0.0 && d * d == SquaredDistance(landmarks[ThumbTip], landmarks[MiddleTip])
      ensures DetectPinch(landmarks) <==> d < pinchThreshold
    {
      CompareByDistance(SquaredDistance(landmarks[ThumbTip], landmarks[MiddleTip]), d, pinchThreshold);
    }

    method UpdatePinchState(landmarks: seq<Point>, currentFingerPos: Point, now: real)
      returns (event: Option<Event>)
      requires |landmarks| > MiddleTip
      requires pinchActive ==> pinchStartTime.Some?
      modifies this
      ensures old(Valid()) ==> Valid()
      ensures (State(), event) == PinchStep(Thresholds(), old(State()), DetectPinch(landmarks), currentFingerPos, now)
    {
      var currentlyPinched := DetectPinch(landmarks);
      if currentlyPinched && !pinchActive {
        pinchActive := true;
        pinchStartTime := Some(now);
        pinchStartPos := Some(currentFingerPos);
        isDragging := false;
        return None;
      } else if currentlyPinched && pinchActive {
        var pinchDuration := now - pinchStartTime.value;
        var moved2 := 0.0;
        if pinchStartPos.Some? {
          moved2 := SquaredDistance(currentFingerPos, pinchStartPos.value);
        }
        var shouldDrag := pinchDuration > clickTimeThreshold || Exceeds(moved2, dragDistanceThreshold);
        if shouldDrag && !isDragging {
          isDragging := true;
          return Some(DragStart);
        } else if isDragging {
          return Some(Dragging);
        } else {
          return None;
        }
      } else if !currentlyPinched && pinchActive {
        var wasDragging := isDragging;
        pinchActive := false;
        pinchStartTime := None;
        pinchStartPos := None;
        isDragging := false;
        if wasDragging {
          return Some(DragEnd);
        } else {
          return Some(Click);
        }
      }
      return None;
    }

    method ResetPinch()
      modifies this
      ensures Valid() && State() == Idle
    {
      pinchActive := false;
      pinchStartTime := None;
      pinchStartPos := None;
      isDragging := false;
    }

    /** The normalized position of the index fingertip. */
    function GetIndexPosition(landmarks: seq<Point>): Point
      requires |landmarks| > IndexTip
    {
      landmarks[IndexTip]
    }
  }

  /** Scenario: a 0.1 s pinch without movement, thresholds 0.2 s and 0.01, is a click. */
  lemma QuickPinchIsClick(pos: Point, now: real)
    ensures var c := DragThresholds(0.2, 0.01);
      Run(c, Idle, [Frame(true, pos, now), Frame(false, pos, now + 0.1)]).1 == [None, Some(Click)]
  {
    var c := DragThresholds(0.2, 0.01);
    var fs := [Frame(true, pos, now), Frame(false, pos, now + 0.1)];
    var s1 := PinchStep(c, Idle, true, pos, now).0;
    assert fs[1..] == [Frame(false, pos, now + 0.1)];
    assert fs[1..][1..] == [];
    assert Run(c, s1, fs[1..]).1 == [Some(Click)];
  }

  /** Scenario: a still hold past 0.2 s starts a drag, keeps dragging, and ends the drag on release. */
  lemma LongHoldIsDrag(pos: Point)
    ensures var c := DragThresholds(0.2, 0.01);
      Run(c, Idle, [Frame(true, pos, 0.0), Frame(true, pos, 0.1), Frame(true, pos, 0.25),
                    Frame(true, pos, 0.3), Frame(false, pos, 0.35)]).1
      == [None, None, Some(DragStart), Some(Dragging), Some(DragEnd)]
  {
    var c := DragThresholds(0.2, 0.01);
    var f4 := [Frame(false, pos, 0.35)];
    var f3 := [Frame(true, pos, 0.3)] + f4;
    var f2 := [Frame(true, pos, 0.25)] + f3;
    var f1 := [Frame(true, pos, 0.1)] + f2;
    var f0 := [Frame(true, pos, 0.0)] + f1;
    var held := PinchState(true, Some(0.0), Some(pos), false);
    var dragging := held.(isDragging := true);
    assert SquaredDistance(pos, pos) == 0.0;
    assert Run(c, dragging, f4).1 == [Some(DragEnd)] by { assert f4[1..] == []; }
    assert Run(c, dragging, f3).1 == [Some(Dragging), Some(DragEnd)] by { assert f3[1..] == f4; }
    assert Run(c, held, f2).1 == [Some(DragStart), Some(Dragging), Some(DragEnd)] by { assert f2[1..] == f3; }
    assert Run(c, held, f1).1 == [None, Some(DragStart), Some(Dragging), Some(DragEnd)] by { assert f1[1..] == f2; }
    assert f0[1..] == f1;
    assert f0 == [Frame(true, pos, 0.0), Frame(true, pos, 0.1), Frame(true, pos, 0.25),
                  Frame(true, pos, 0.3), Frame(false, pos, 0.35)];
  }

  /** Scenario: moving 0.02 within 0.05 s starts the drag before the time threshold would. */
  lemma QuickMoveIsDrag()
    ensures var c := DragThresholds(0.2, 0.01);
      Run(c, Idle, [Frame(true, Point(0.5, 0.5), 0.0), Frame(true, Point(0.52, 0.5), 0.05)]).1
      == [None, Some(DragStart)]
  {
    var c := DragThresholds(0.2, 0.01);
    var fs := [Frame(true, Point(0.5, 0.5), 0.0), Frame(true, Point(0.52, 0.5), 0.05)];
    var held := PinchState(true, Some(0.0), Some(Point(0.5, 0.5)), false);
    assert SquaredDistance(Point(0.52, 0.5), Point(0.5, 0.5)) == 0.0004;
    assert fs[1..] == [Frame(true, Point(0.52, 0.5), 0.05)];
    assert fs[1..][1..] == [];
    assert Run(c, held, fs[1..]).1 == [Some(DragStart)];
  }

  /**
   * A reset in the middle of a drag forgets it: the release that would have ended the drag reports
   * nothing after the reset.
   */
  lemma ResetSuppressesDragEnd(c: DragThresholds, s: PinchState, pos: Point, now: real)
    requires Consistent(s) && s.isDragging
    ensures PinchStep(c, s, false, pos, now).1 == Some(DragEnd)
    ensures PinchStep(c, Idle, false, pos, now) == (Idle, None)
  {
  }
}
