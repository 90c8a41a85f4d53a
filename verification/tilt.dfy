/** The tilt card: a pointer move over the card is mapped to two rotation angles and a
    spotlight position, and applied on the next animation frame; leaving the card resets
    the rotation. Only the latest move before a frame is ever applied. */
module Tilt {
  import opened Wrappers

  /** The largest rotation, in degrees, about either axis. */
  const MaxAngle: real := 10.0

  /** The card's bounding box in client coordinates. */
  datatype Rect = Rect(left: real, top: real, width: real, height: real)

  /** What one move computes and its scheduled frame later writes: the pointer's position
      normalised to the box (`px`, `py`) and the two angles (`rx`, `ry`), in degrees. */
  datatype Sample = Sample(px: real, py: real, rx: real, ry: real)

  /** The inline `transform`: `perspective(900px) rotateX(..) rotateY(..)`, followed by
      `translateZ(0)` when `translateZ` holds. */
  datatype Transform = Transform(rotateX: real, rotateY: real, translateZ: bool)

  /** The card's observable state: the scheduled frame (at most one), the inline transform
      and the `--mx`/`--my` custom properties, in percent. `None` is "never set": the
      gradient then falls back to 50%. */
  datatype Card = Card(pending: Option<Sample>, transform: Option<Transform>, mx: Option<real>, my: Option<real>)

  /** The events the card reacts to. A teardown removes the listeners and cancels the
      scheduled frame; `Frame` is the browser running the scheduled callback. */
  datatype Event = Move(clientX: real, clientY: real, box: Rect) | Leave | Frame | Teardown

  // ---------------------------------------------------------------- the mapping

  /** Rotation about the X axis for the normalised vertical position. */
  function RotateX(py: real): (rx: real)
    ensures py == 0.5 ==> rx == 0.0
    ensures py == 0.0 ==> rx == MaxAngle
    ensures 0.0 <= py <= 1.0 ==> -MaxAngle <= rx <= MaxAngle
    ensures py < 0.5 <==> rx > 0.0
  {
    (py - 0.5) * -2.0 * MaxAngle
  }

  /** Rotation about the Y axis for the normalised horizontal position. */
  function RotateY(px: real): (ry: real)
    ensures px == 0.5 ==> ry == 0.0
    ensures px == 0.0 ==> ry == -MaxAngle
    ensures 0.0 <= px <= 1.0 ==> -MaxAngle <= ry <= MaxAngle
    ensures px > 0.5 <==> ry > 0.0
  {
    (px - 0.5) * 2.0 * MaxAngle
  }

  /** Mirroring the pointer vertically negates the X rotation; horizontally, the Y rotation. */
  lemma RotationMirror(p: real)
    ensures RotateX(1.0 - p) == -RotateX(p)
    ensures RotateY(1.0 - p) == -RotateY(p)
  {
  }

  /** A box the mapping can divide by. */
  predicate NonEmpty(box: Rect)
  {
    box.width > 0.0 && box.height > 0.0
  }

  /** What `onMove` computes for a pointer at (`clientX`, `clientY`) over `box`. */
  function SampleAt(clientX: real, clientY: real, box: Rect): (s: Sample)
    requires NonEmpty(box)
    ensures s.px * box.width == clientX - box.left && s.py * box.height == clientY - box.top
    ensures s.rx == RotateX(s.py) && s.ry == RotateY(s.px)
    ensures box.left <= clientX <= box.left + box.width ==> 0.0 <= s.px <= 1.0
    ensures box.top <= clientY <= box.top + box.height ==> 0.0 <= s.py <= 1.0
    ensures clientX == box.left + box.width / 2.0 && clientY == box.top + box.height / 2.0 ==>
              s.rx == 0.0 && s.ry == 0.0
  {
    var px := (clientX - box.left) / box.width;
    var py := (clientY - box.top) / box.height;
    HalfOfSide(box.width);
    HalfOfSide(box.height);
    UnitRatio(clientX - box.left, box.width);
    UnitRatio(clientY - box.top, box.height);
    Sample(px, py, RotateX(py), RotateY(px))
  }

  /** Half a side, normalised by the side, is one half. */
  lemma HalfOfSide(side: real)
    requires side > 0.0
    ensures (side / 2.0) / side == 0.5
  {
  }

  /** A distance within a side, normalised by the side, lies in [0, 1]. */
  lemma UnitRatio(d: real, side: real)
    requires side > 0.0
    ensures 0.0 <= d <= side ==> 0.0 <= d / side <= 1.0
  {
    var r := d / side;
    assert r * side == d;
    if r < 0.0 { assert r * side < 0.0; }
    if r > 1.0 { assert r * side > 1.0 * side; }
  }

  // ---------------------------------------------------------------- the event semantics

  /** An event the card can receive: a move always comes with a box it can divide by. */
  predicate WellFormed(e: Event)
  {
    e.Move? ==> NonEmpty(e.box)
  }

  /** The card after one event. */
  function Apply(c: Card, e: Event): Card
    requires WellFormed(e)
  {
    match e
    case Move(x, y, box) => c.(pending := Some(SampleAt(x, y, box)))
    case Leave => c.(transform := Some(Transform(0.0, 0.0, false)))
    case Frame =>
      (match c.pending
       case None => c
       case Some(s) => Card(None, Some(Transform(s.rx, s.ry, true)), Some(s.px * 100.0), Some(s.py * 100.0)))
    case Teardown => c.(pending := None)
  }

  /** The card after a sequence of events, in order. */
  function Run(c: Card, es: seq<Event>): Card
    requires forall i :: 0 <= i < |es| ==> WellFormed(es[i])
    decreases |es|
  {
    if es == [] then c else Run(Apply(c, es[0]), es[1..])
  }

  /** The card as mounted: nothing scheduled, no inline transform, no spotlight set. */
  const Mounted: Card := Card(None, None, None, None)

  /** Any number of moves between two frames leave exactly one scheduled update, the one
      of the latest move, and touch nothing the user sees. */
  lemma {:induction false} MovesCoalesce(c: Card, es: seq<Event>)
    requires es != [] && forall i :: 0 <= i < |es| ==> es[i].Move? && WellFormed(es[i])
    ensures var last := es[|es| - 1];
            Run(c, es) == c.(pending := Some(SampleAt(last.clientX, last.clientY, last.box)))
    decreases |es|
  {
    if |es| > 1 {
      MovesCoalesce(Apply(c, es[0]), es[1..]);
    }
  }

  /** The frame writes the scheduled move's rotation and its spotlight position, in
      percent, and leaves nothing scheduled; with nothing scheduled no frame runs. */
  lemma FrameApplies(c: Card)
    ensures var d := Apply(c, Frame);
            match c.pending
            case Some(s) =>
              d.transform == Some(Transform(s.rx, s.ry, true)) && d.pending.None? &&
              d.mx == Some(100.0 * s.px) && d.my == Some(100.0 * s.py)
            case None => d == c
  {
  }

  /** A move, then leaving the card, then the frame: the move's rotation ends up applied,
      because leaving does not cancel the scheduled frame. */
  lemma MoveLeaveFrame(c: Card, x: real, y: real, box: Rect)
    requires NonEmpty(box)
    ensures var s := SampleAt(x, y, box);
            var d := Run(c, [Move(x, y, box), Leave, Frame]);
            d.transform == Some(Transform(s.rx, s.ry, true)) && d.pending == None &&
            d.mx == Some(s.px * 100.0) && d.my == Some(s.py * 100.0)
  {
    var es := [Move(x, y, box), Leave, Frame];
    var c1 := Apply(c, es[0]);
    var c2 := Apply(c1, Leave);
    assert es[1..] == [Leave, Frame] && es[1..][1..] == [Frame] && [Frame][1..] == [];
    assert Run(c, es) == Run(c1, [Leave, Frame]) == Run(c2, [Frame]) == Apply(c2, Frame);
  }

  /** A move then a frame, with the pointer at the centre of the box, leaves the card flat. */
  lemma CentreIsFlat(c: Card, box: Rect)
    requires NonEmpty(box)
    ensures var d := Run(c, [Move(box.left + box.width / 2.0, box.top + box.height / 2.0, box), Frame]);
            d.transform == Some(Transform(0.0, 0.0, true)) && d.mx == Some(50.0) && d.my == Some(50.0)
  {
    var x, y := box.left + box.width / 2.0, box.top + box.height / 2.0;
    var es := [Move(x, y, box), Frame];
    assert es[1..] == [Frame] && [Frame][1..] == [];
    var s := SampleAt(x, y, box);
    HalfOfSide(box.width);
    HalfOfSide(box.height);
    assert Run(c, es) == Apply(Apply(c, es[0]), Frame);
  }

  /** Leaving the card zeroes the rotation whatever came before, and keeps the spotlight
      and the scheduled frame. */
  lemma LeaveResetsRotationOnly(c: Card)
    ensures Apply(c, Leave).transform == Some(Transform(0.0, 0.0, false))
    ensures Apply(c, Leave).mx == c.mx && Apply(c, Leave).my == c.my
    ensures Apply(c, Leave).pending == c.pending
  {
  }

  /** After a teardown the frame that was scheduled never lands. */
  lemma TeardownCancels(c: Card)
    ensures Run(c, [Teardown, Frame]) == c.(pending := None)
  {
    var es := [Teardown, Frame];
    assert es[1..] == [Frame] && [Frame][1..] == [];
  }

  // ---------------------------------------------------------------- the component

  /** The mounted card: `frame` and the element's style, updated in place by the handlers. */
  class TiltCard {
    var pending: Option<Sample>
    var transform: Option<Transform>
    var mx: Option<real>
    var my: Option<real>

    /** The state as a value. */
    function State(): Card
      reads this
    {
      Card(pending, transform, mx, my)
    }

    constructor ()
      ensures State() == Mounted
    {
      pending, transform, mx, my := None, None, None, None;
    }

    /** `onMove`: cancel the scheduled frame and schedule one for this move. */
    method OnMove(clientX: real, clientY: real, box: Rect)
      requires NonEmpty(box)
      modifies this
      ensures State() == Apply(old(State()), Move(clientX, clientY, box))
    {
      var px := (clientX - box.left) / box.width;
      var py := (clientY - box.top) / box.height;
      var rx := (py - 0.5) * -2.0 * MaxAngle;
      var ry := (px - 0.5) * 2.0 * MaxAngle;
      pending := Some(Sample(px, py, rx, ry));
    }

    /** The scheduled callback: write the transform and the spotlight. */
    method OnFrame()
      modifies this
      ensures State() == Apply(old(State()), Frame)
    {
      match pending {
        case None =>
        case Some(s) =>
          transform := Some(Transform(s.rx, s.ry, true));
          mx := Some(s.px * 100.0);
          my := Some(s.py * 100.0);
          pending := None;
      }
    }

    /** `reset`, on `mouseleave`: zero the rotation; the scheduled frame stays. */
    method OnLeave()
      modifies this
      ensures State() == Apply(old(State()), Leave)
    {
      transform := Some(Transform(0.0, 0.0, false));
    }

    /** The effect's cleanup: cancel the scheduled frame. */
    method Teardown()
      modifies this
      ensures State() == Apply(old(State()), Event.Teardown)
    {
      pending := None;
    }
  }
}
