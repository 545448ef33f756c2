/** The interaction controller: the press, move and release handlers, the
    spin and snap flows with their deferred completions, and the state they
    update. Each handler is a step function on a Snapshot of the state; the
    class CubeController holds that state in fields and its methods perform
    the steps in place. */
module Controller {
  import opened Types
  import opened Catalogue
  import opened Orientation

  /** A release closer than this to the press point, in pixels, is a click. */
  const ClickRadius: real := 5.0

  /** Spin duration and timer delay of a snap. */
  const SnapDuration: real := 0.6
  const SnapDelayMs: real := 600.0

  function SquaredDistance(a: Point, b: Point): real
  {
    (b.x - a.x) * (b.x - a.x) + (b.y - a.y) * (b.y - a.y)
  }

  /** The release is a click when it is less than ClickRadius away from the
      press, compared on squared distances. */
  predicate IsClick(start: Point, release: Point)
  {
    SquaredDistance(start, release) < ClickRadius * ClickRadius
  }

  /** The squared comparison agrees with comparing the Euclidean distance `d`
      itself with ClickRadius. */
  lemma ClickIffWithinRadius(start: Point, release: Point, d: real)
    requires 0.0 <= d && d * d == SquaredDistance(start, release)
    ensures IsClick(start, release) <==> d < ClickRadius
  {
    if d >= ClickRadius {
      MulMonotone(ClickRadius, d, ClickRadius);
      MulMonotone(ClickRadius, d, d);
    } else {
      MulMonotone(d, ClickRadius, d);
    }
  }

  /** A release exactly 5 px away is a drag; one 4.99 px away is a click. */
  lemma ClickBoundary()
    ensures !IsClick(Point(0.0, 0.0), Point(3.0, 4.0))
    ensures IsClick(Point(0.0, 0.0), Point(0.0, 4.99))
  {
  }

  /** A scheduled `setTimeout` completion: after `delayMs` it shows `wisdom`
      and clears the spinning flag. */
  datatype Commit = Commit(wisdom: Option<Wisdom>, delayMs: real)

  /** The state of the application component. */
  datatype Snapshot = Snapshot(
    rotation: Rotation,
    isSpinning: bool,
    spinDuration: real,
    activeWisdom: Option<Wisdom>,
    isDragging: bool,
    lastMousePos: Point,
    dragStartPos: Point,
    pending: seq<Commit>)

  /** The state at first render: a slight tilt, nothing shown yet. */
  const Initial: Snapshot :=
    Snapshot(Rotation(-15.0, -25.0), false, 1.2, None, false, Point(0.0, 0.0), Point(0.0, 0.0), [])

  /** The values the random draws of a spin can take: an index into the
      catalogue, 0 or 1 extra pitch turn and 1 or 2 extra yaw turns. */
  predicate RandomDraw(randomIndex: nat, extraX: int, extraY: int)
  {
    randomIndex < |WisdomData| && 0 <= extraX <= 1 && 1 <= extraY <= 2
  }

  /** The one-time effect after mounting: show the first catalogue entry. */
  function MountStep(s: Snapshot): (r: Snapshot)
    ensures r.activeWisdom.Some? && r.activeWisdom.value.face == Front
  {
    s.(activeWisdom := Some(WisdomData[0]))
  }

  /** Pointer press on the cube: ignored while spinning, otherwise begins a
      drag at `p`. */
  function PressStep(s: Snapshot, p: Point): (r: Snapshot)
    ensures r.rotation == s.rotation && r.activeWisdom == s.activeWisdom && r.pending == s.pending
    ensures s.isSpinning ==> r == s
    ensures !s.isSpinning ==> r.isDragging && r.lastMousePos == p && r.dragStartPos == p
  {
    if s.isSpinning then s
    else s.(isDragging := true, lastMousePos := p, dragStartPos := p)
  }

  /** Pointer move to `p`: ignored unless dragging, otherwise applies the drag
      from the last pointer position. */
  function MoveStep(s: Snapshot, p: Point): (r: Snapshot)
    ensures r.activeWisdom == s.activeWisdom && r.isSpinning == s.isSpinning && r.pending == s.pending
    ensures !s.isDragging ==> r == s
  {
    if !s.isDragging then s
    else s.(rotation := ApplyDrag(s.rotation, s.lastMousePos, p), lastMousePos := p)
  }

  /** The moves through `path`, in order. */
  function MoveAlong(s: Snapshot, path: seq<Point>): (r: Snapshot)
    ensures !s.isDragging ==> r == s
    ensures r.isDragging == s.isDragging && r.isSpinning == s.isSpinning
    ensures r.activeWisdom == s.activeWisdom && r.pending == s.pending
    ensures r.dragStartPos == s.dragStartPos && r.spinDuration == s.spinDuration
    decreases |path|
  {
    if path == [] then s else MoveAlong(MoveStep(s, path[0]), path[1..])
  }

  /** During a drag, a run of pointer moves leaves the orientation where one
      move from the first to the last position would, and remembers the last
      position. */
  lemma {:induction false} MoveAlongIsOneDrag(s: Snapshot, path: seq<Point>)
    requires s.isDragging && path != []
    ensures MoveAlong(s, path).rotation == DragAlong(s.rotation, s.lastMousePos, path)
    ensures MoveAlong(s, path).lastMousePos == path[|path| - 1]
    ensures MoveAlong(s, path).isDragging
    decreases |path|
  {
    if |path| > 1 {
      MoveAlongIsOneDrag(MoveStep(s, path[0]), path[1..]);
    }
  }

  /** The random-spin flow: ignored while spinning; otherwise turns forward
      to the drawn entry's face with the drawn extra turns and schedules the
      commit of that entry after the spin's duration. */
  function SpinStep(s: Snapshot, randomIndex: nat, extraX: int, extraY: int): (r: Snapshot)
    requires RandomDraw(randomIndex, extraX, extraY)
    ensures s.isSpinning ==> r == s
    ensures !s.isSpinning ==>
      && r.isSpinning && r.activeWisdom == s.activeWisdom && r.isDragging == s.isDragging
      && Shows(r.rotation, WisdomData[randomIndex].face)
      && 360.0 * extraX as real <= r.rotation.x - s.rotation.x < 360.0 * extraX as real + 360.0
      && 360.0 * extraY as real <= r.rotation.y - s.rotation.y < 360.0 * extraY as real + 360.0
      && 1.05 <= r.spinDuration <= 1.5
      && r.pending == s.pending + [Commit(Some(WisdomData[randomIndex]), r.spinDuration * 1000.0)]
  {
    if s.isSpinning then s
    else
      var selected := WisdomData[randomIndex];
      var plan := PlanSpin(s.rotation, selected.face, extraX, extraY);
      RandomSpinDuration(s.rotation, selected.face, extraX, extraY);
      s.(isSpinning := true, spinDuration := plan.duration, rotation := plan.target,
         pending := s.pending + [Commit(Some(selected), plan.duration * 1000.0)])
  }

  /** The snap flow: settles on the nearest face by the shortest turn on each
      axis and schedules the commit of that face's entry after 600 ms. It has
      no guard of its own. */
  function SnapStep(s: Snapshot, t: Trig): (r: Snapshot)
    ensures r.isSpinning && r.spinDuration == SnapDuration
    ensures r.activeWisdom == s.activeWisdom && r.isDragging == s.isDragging
    ensures Shows(r.rotation, Nearest(t))
    ensures Abs(r.rotation.x - s.rotation.x) <= 180.0 && Abs(r.rotation.y - s.rotation.y) <= 180.0
    ensures r.pending == s.pending + [Commit(Some(WisdomData[Index(Nearest(t))]), SnapDelayMs)]
  {
    var best := Nearest(t);
    FindByFaceSucceeds(best);
    s.(isSpinning := true, spinDuration := SnapDuration, rotation := SnapTarget(s.rotation, best),
       pending := s.pending + [Commit(FindByFace(best), SnapDelayMs)])
  }

  /** Pointer release at `p`: ignored unless dragging; otherwise ends the drag
      and runs the spin flow for a click and the snap flow for a drag. */
  function ReleaseStep(s: Snapshot, p: Point, t: Trig, randomIndex: nat, extraX: int, extraY: int): (r: Snapshot)
    requires RandomDraw(randomIndex, extraX, extraY)
    ensures !s.isDragging ==> r == s
    ensures s.isDragging ==> !r.isDragging && r.activeWisdom == s.activeWisdom
    ensures s.isDragging && !IsClick(s.dragStartPos, p) ==>
      r.isSpinning && r.spinDuration == SnapDuration && Shows(r.rotation, Nearest(t))
    ensures s.isDragging && IsClick(s.dragStartPos, p) && !s.isSpinning ==>
      r.isSpinning && Shows(r.rotation, WisdomData[randomIndex].face) && 1.05 <= r.spinDuration
    ensures s.isDragging && IsClick(s.dragStartPos, p) && s.isSpinning ==> r == s.(isDragging := false)
  {
    if !s.isDragging then s
    else
      var released := s.(isDragging := false);
      if IsClick(s.dragStartPos, p) then SpinStep(released, randomIndex, extraX, extraY)
      else SnapStep(released, t)
  }

  /** The `i`-th scheduled completion fires: it shows its entry, clears the
      spinning flag and is removed from the schedule. */
  function CompleteStep(s: Snapshot, i: nat): (r: Snapshot)
    requires i < |s.pending|
    ensures r.activeWisdom == s.pending[i].wisdom && !r.isSpinning
    ensures r.rotation == s.rotation && r.isDragging == s.isDragging
    ensures multiset(r.pending) + multiset{s.pending[i]} == multiset(s.pending)
  {
    assert s.pending == s.pending[..i] + [s.pending[i]] + s.pending[i + 1..];
    s.(activeWisdom := s.pending[i].wisdom, isSpinning := false,
       pending := s.pending[..i] + s.pending[i + 1..])
  }

  /** Facts that hold in every reachable state: what is shown or scheduled
      is a catalogue entry, and durations and delays stay within the snap and
      spin ranges. */
  ghost predicate Consistent(s: Snapshot)
  {
    && (s.activeWisdom.Some? ==> s.activeWisdom.value in WisdomData)
    && 0.6 <= s.spinDuration <= 1.5
    && (forall i :: 0 <= i < |s.pending| ==>
          s.pending[i].wisdom.Some? && s.pending[i].wisdom.value in WisdomData
          && 600.0 <= s.pending[i].delayMs <= 1500.0)
  }

  lemma InitialIsConsistent()
    ensures Consistent(Initial) && Consistent(MountStep(Initial))
  {
  }

  /** The mount effect and the press and move handlers keep the state
      consistent. */
  lemma GesturesKeepConsistent(s: Snapshot, p: Point)
    requires Consistent(s)
    ensures Consistent(MountStep(s)) && Consistent(PressStep(s, p)) && Consistent(MoveStep(s, p))
  {
  }

  /** The release handler keeps the state consistent. */
  lemma ReleaseKeepsConsistent(s: Snapshot, p: Point, t: Trig, randomIndex: nat, extraX: int, extraY: int)
    requires Consistent(s) && RandomDraw(randomIndex, extraX, extraY)
    ensures Consistent(ReleaseStep(s, p, t, randomIndex, extraX, extraY))
  {
    if s.isDragging {
      var released := s.(isDragging := false);
      if IsClick(s.dragStartPos, p) {
        SpinKeepsConsistent(released, randomIndex, extraX, extraY);
      } else {
        SnapKeepsConsistent(released, t);
      }
    }
  }

  lemma SpinKeepsConsistent(s: Snapshot, randomIndex: nat, extraX: int, extraY: int)
    requires Consistent(s) && RandomDraw(randomIndex, extraX, extraY)
    ensures Consistent(SpinStep(s, randomIndex, extraX, extraY))
  {
  }

  lemma SnapKeepsConsistent(s: Snapshot, t: Trig)
    requires Consistent(s)
    ensures Consistent(SnapStep(s, t))
  {
  }

  lemma CompleteKeepsConsistent(s: Snapshot, i: nat)
    requires Consistent(s) && i < |s.pending|
    ensures Consistent(CompleteStep(s, i))
    ensures CompleteStep(s, i).activeWisdom.Some?
  {
  }

  /** Drag and spin never own the orientation at once, at most one completion
      is scheduled, one is scheduled exactly while spinning, and it commits the
      face the cube was turned to. */
  ghost predicate Exclusive(s: Snapshot)
  {
    && !(s.isDragging && s.isSpinning)
    && |s.pending| <= 1
    && (s.isSpinning <==> |s.pending| == 1)
    && (|s.pending| == 1 ==>
          s.pending[0].wisdom.Some? && Shows(s.rotation, s.pending[0].wisdom.value.face))
  }

  /** In an exclusive state with a completion scheduled, the orientation
      shows the committed face and no other. */
  lemma ExclusiveShowsOnlyCommitted(s: Snapshot, g: Face)
    requires Exclusive(s) && |s.pending| == 1
    ensures Shows(s.rotation, g) <==> g == s.pending[0].wisdom.value.face
  {
    ShowsAtMostOneFace(s.rotation, g, s.pending[0].wisdom.value.face);
  }

  lemma InitialIsExclusive()
    ensures Exclusive(Initial) && Exclusive(MountStep(Initial))
  {
  }

  /** The pointer gestures and the timers keep the state exclusive, and so
      does a spin started while no drag is in progress. */
  lemma GesturesKeepExclusive(s: Snapshot, p: Point, t: Trig, randomIndex: nat, extraX: int, extraY: int)
    requires Exclusive(s) && RandomDraw(randomIndex, extraX, extraY)
    ensures Exclusive(MountStep(s)) && Exclusive(PressStep(s, p)) && Exclusive(MoveStep(s, p))
    ensures Exclusive(ReleaseStep(s, p, t, randomIndex, extraX, extraY))
    ensures !s.isDragging ==> Exclusive(SpinStep(s, randomIndex, extraX, extraY))
  {
  }

  /** In an exclusive state the one scheduled completion, when it fires,
      leaves the shown entry matching the orientation, idle. */
  lemma CompleteSettles(s: Snapshot, i: nat)
    requires Exclusive(s) && i < |s.pending|
    ensures Exclusive(CompleteStep(s, i))
    ensures var r := CompleteStep(s, i);
      !r.isSpinning && !r.isDragging && r.pending == []
      && r.activeWisdom.Some? && Shows(r.rotation, r.activeWisdom.value.face)
    ensures var r := CompleteStep(s, i);
      forall g :: Shows(r.rotation, g) ==> g == r.activeWisdom.value.face
  {
    var r := CompleteStep(s, i);
    forall g | Shows(r.rotation, g)
      ensures g == r.activeWisdom.value.face
    {
      ShowsAtMostOneFace(r.rotation, g, r.activeWisdom.value.face);
    }
  }

  /** The spin button has the spinning guard only, so pressing it during a
      drag spins while the drag continues; releasing that drag away from its
      start then snaps without a guard, and two completions are pending. */
  lemma ButtonDuringDragOverlaps(t: Trig)
    ensures var pressed := PressStep(MountStep(Initial), Point(0.0, 0.0));
      var spun := SpinStep(pressed, 1, 0, 1);
      var released := ReleaseStep(spun, Point(100.0, 0.0), t, 1, 0, 1);
      && spun.isDragging && spun.isSpinning
      && !released.isDragging && |released.pending| == 2
      && !CompleteStep(released, 0).isSpinning && |CompleteStep(released, 0).pending| == 1
  {
  }

  /** The application component's state, updated in place. */
  class CubeController {
    var rotation: Rotation
    var isSpinning: bool
    var spinDuration: real
    var activeWisdom: Option<Wisdom>
    var isDragging: bool
    var lastMousePos: Point
    var dragStartPos: Point
    var pending: seq<Commit>

    function View(): Snapshot
      reads this
    {
      Snapshot(rotation, isSpinning, spinDuration, activeWisdom, isDragging, lastMousePos, dragStartPos, pending)
    }

    ghost predicate Valid()
      reads this
    {
      Consistent(View())
    }

    constructor ()
      ensures Valid() && View() == Initial
    {
      rotation := Rotation(-15.0, -25.0);
      isSpinning := false;
      spinDuration := 1.2;
      activeWisdom := None;
      isDragging := false;
      lastMousePos := Point(0.0, 0.0);
      dragStartPos := Point(0.0, 0.0);
      pending := [];
    }

    /** The mount effect. */
    method Mount()
      requires Valid()
      modifies this
      ensures Valid() && View() == MountStep(old(View()))
    {
      activeWisdom := Some(WisdomData[0]);
    }

    /** `handleMouseDown`. */
    method Press(p: Point)
      requires Valid()
      modifies this
      ensures Valid() && View() == PressStep(old(View()), p)
    {
      if isSpinning {
        return;
      }
      isDragging := true;
      lastMousePos := p;
      dragStartPos := p;
    }

    /** `handleMove`. */
    method Move(p: Point)
      requires Valid()
      modifies this
      ensures Valid() && View() == MoveStep(old(View()), p)
    {
      if !isDragging {
        return;
      }
      rotation := ApplyDrag(rotation, lastMousePos, p);
      lastMousePos := p;
    }

    /** `spinCube`, run by the spin button and by a click on the cube. */
    method SpinCube(randomIndex: nat, extraX: int, extraY: int)
      requires Valid() && RandomDraw(randomIndex, extraX, extraY)
      modifies this
      ensures Valid() && View() == SpinStep(old(View()), randomIndex, extraX, extraY)
    {
      SpinKeepsConsistent(View(), randomIndex, extraX, extraY);
      if isSpinning {
        return;
      }
      var selected := WisdomData[randomIndex];
      var plan := PlanSpin(rotation, selected.face, extraX, extraY);
      isSpinning := true;
      spinDuration := plan.duration;
      rotation := plan.target;
      pending := pending + [Commit(Some(selected), plan.duration * 1000.0)];
    }

    /** `snapToNearestFace`, with the cosines and sines of the current
        orientation in `t`. */
    method SnapToNearestFace(t: Trig)
      requires Valid()
      modifies this
      ensures Valid() && View() == SnapStep(old(View()), t)
    {
      ghost var before := View();
      SnapKeepsConsistent(before, t);
      var best := NearestFace(t);
      isSpinning := true;
      spinDuration := SnapDuration;
      rotation := SnapTarget(rotation, best);
      pending := pending + [Commit(FindByFace(best), SnapDelayMs)];
      assert View().pending == SnapStep(before, t).pending;
      assert View().rotation == SnapStep(before, t).rotation;
      assert View() == SnapStep(before, t);
    }

    /** `handleUp`. */
    method Release(p: Point, t: Trig, randomIndex: nat, extraX: int, extraY: int)
      requires Valid() && RandomDraw(randomIndex, extraX, extraY)
      modifies this
      ensures Valid() && View() == ReleaseStep(old(View()), p, t, randomIndex, extraX, extraY)
    {
      ReleaseKeepsConsistent(View(), p, t, randomIndex, extraX, extraY);
      if !isDragging {
        return;
      }
      isDragging := false;
      ghost var released := View();
      assert released == old(View()).(isDragging := false);
      if IsClick(dragStartPos, p) {
        SpinCube(randomIndex, extraX, extraY);
        assert View() == SpinStep(released, randomIndex, extraX, extraY);
      } else {
        SnapToNearestFace(t);
        assert View() == SnapStep(released, t);
      }
    }

    /** The `i`-th scheduled timer fires. */
    method Complete(i: nat)
      requires Valid() && i < |pending|
      modifies this
      ensures Valid() && View() == CompleteStep(old(View()), i)
    {
      CompleteKeepsConsistent(View(), i);
      activeWisdom := pending[i].wisdom;
      isSpinning := false;
      pending := pending[..i] + pending[i + 1..];
    }
  }
}
