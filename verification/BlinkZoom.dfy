/**
  Zoom and pan of `BlinkViewer`, over real numbers, for a canvas and a fitted image of fixed size.
  An axis at a time: the picture of width `render` is drawn centred on the canvas, shifted by the pan.
 */
module BlinkZoom {
  import opened Common

  datatype Point = Point(x: real, y: real)

  /** The canvas and, once a picture was drawn, its size at zoom 1. */
  datatype View = View(canvas: Point, image: Option<Point>)

  datatype State = State(zoom: real, pan: Point, panning: bool, lastMouse: Point)

  datatype Event =
    | Wheel(mouse: Point, towards: bool)
    | ZoomIn
    | ZoomOut
    | ResetZoom
    | MouseDown(at: Point, leftButton: bool)
    | MouseMove(to: Point)
    | MouseUp

  const MAX_ZOOM := 20.0
  const INITIAL := State(1.0, Point(0.0, 0.0), false, Point(0.0, 0.0))

  function MinReal(a: real, b: real): real {
    if a <= b then a else b
  }

  function MaxReal(a: real, b: real): real {
    if a >= b then a else b
  }

  // ---------------------------------------------------------------- the clamp

  function Margin(canvas: real, render: real): real {
    MaxReal(0.0, (render - canvas) / 2.0 + canvas * 0.1)
  }

  /** The size of the picture on the canvas. */
  function Scaled(size: real, zoom: real): real {
    size * zoom
  }

  function Clamp(canvas: real, render: real, p: real): real {
    MaxReal(-Margin(canvas, render), MinReal(Margin(canvas, render), p))
  }

  /** `constrainPan`. */
  function ConstrainPan(v: View, zoom: real, p: Point): Point {
    if v.image.None? then p
    else if zoom <= 1.0 then Point(0.0, 0.0)
    else Point(Clamp(v.canvas.x, Scaled(v.image.value.x, zoom), p.x), Clamp(v.canvas.y, Scaled(v.image.value.y, zoom), p.y))
  }

  // ---------------------------------------------------------------- the handlers

  function WheelZoom(zoom: real, towards: bool): real {
    MaxReal(1.0, MinReal(MAX_ZOOM, zoom * if towards then 1.1 else 1.0 / 1.1))
  }

  /** The cursor relative to the canvas centre. */
  function FromCentre(v: View, mouse: Point): Point {
    Point(mouse.x - v.canvas.x / 2.0, mouse.y - v.canvas.y / 2.0)
  }

  /** The pan that keeps the image point under the cursor, before the clamp. */
  function Follow(offset: Point, pan: Point, ratio: real): Point {
    Point(offset.x - (offset.x - pan.x) * ratio, offset.y - (offset.y - pan.y) * ratio)
  }

  function WheelStep(v: View, s: State, mouse: Point, towards: bool): State
    requires s.zoom > 0.0
  {
    var newZoom := WheelZoom(s.zoom, towards);
    if newZoom == s.zoom then s
    else s.(zoom := newZoom, pan := ConstrainPan(v, newZoom, Follow(FromCentre(v, mouse), s.pan, newZoom / s.zoom)))
  }

  function ZoomTo(v: View, s: State, newZoom: real): State {
    if newZoom == s.zoom then s else s.(zoom := newZoom, pan := ConstrainPan(v, newZoom, s.pan))
  }

  function Step(v: View, s: State, e: Event): State
    requires s.zoom > 0.0
  {
    match e
    case Wheel(mouse, towards) => WheelStep(v, s, mouse, towards)
    case ZoomIn => ZoomTo(v, s, MinReal(MAX_ZOOM, s.zoom * 1.25))
    case ZoomOut => ZoomTo(v, s, MaxReal(1.0, s.zoom / 1.25))
    case ResetZoom => s.(zoom := 1.0, pan := Point(0.0, 0.0))
    case MouseDown(at, leftButton) => if s.zoom <= 1.0 || !leftButton then s else s.(panning := true, lastMouse := at)
    case MouseMove(to) =>
      if !s.panning then s
      else
        var moved := Point(s.pan.x + (to.x - s.lastMouse.x), s.pan.y + (to.y - s.lastMouse.y));
        s.(lastMouse := to, pan := ConstrainPan(v, s.zoom, moved))
    case MouseUp => s.(panning := false)
  }

  // ---------------------------------------------------------------- what every run keeps

  predicate WithinMargin(canvas: real, render: real, p: real) {
    -Margin(canvas, render) <= p <= Margin(canvas, render)
  }

  ghost predicate Inv(v: View, s: State)
    requires v.image.Some?
  {
    && 1.0 <= s.zoom <= MAX_ZOOM
    && (s.zoom == 1.0 ==> s.pan == Point(0.0, 0.0))
    && WithinMargin(v.canvas.x, Scaled(v.image.value.x, s.zoom), s.pan.x)
    && WithinMargin(v.canvas.y, Scaled(v.image.value.y, s.zoom), s.pan.y)
  }

  lemma ClampIsWithin(canvas: real, render: real, p: real)
    ensures WithinMargin(canvas, render, Clamp(canvas, render, p))
    ensures WithinMargin(canvas, render, 0.0)
    ensures Clamp(canvas, render, p) == p <==> WithinMargin(canvas, render, p)
  {
  }

  lemma ConstrainedIsOk(v: View, s: State, zoom: real, p: Point)
    requires v.image.Some? && 1.0 <= zoom <= MAX_ZOOM
    ensures Inv(v, s.(zoom := zoom, pan := ConstrainPan(v, zoom, p)))
  {
    ClampIsWithin(v.canvas.x, Scaled(v.image.value.x, zoom), p.x);
    ClampIsWithin(v.canvas.y, Scaled(v.image.value.y, zoom), p.y);
  }

  lemma WheelZoomRange(zoom: real, towards: bool)
    requires zoom > 0.0
    ensures 1.0 <= WheelZoom(zoom, towards) <= MAX_ZOOM
  {
  }

  lemma WheelKeeps(v: View, s: State, mouse: Point, towards: bool)
    requires v.image.Some? && Inv(v, s)
    ensures Inv(v, WheelStep(v, s, mouse, towards))
  {
    var newZoom := WheelZoom(s.zoom, towards);
    WheelZoomRange(s.zoom, towards);
    var asked := Follow(FromCentre(v, mouse), s.pan, newZoom / s.zoom);
    ConstrainedIsOk(v, s, newZoom, asked);
  }

  lemma ZoomToKeeps(v: View, s: State, newZoom: real)
    requires v.image.Some? && Inv(v, s) && 1.0 <= newZoom <= MAX_ZOOM
    ensures Inv(v, ZoomTo(v, s, newZoom))
  {
    ConstrainedIsOk(v, s, newZoom, s.pan);
  }

  lemma MoveKeeps(v: View, s: State, to: Point)
    requires v.image.Some? && Inv(v, s)
    ensures Inv(v, Step(v, s, MouseMove(to)))
  {
    var moved := Point(s.pan.x + (to.x - s.lastMouse.x), s.pan.y + (to.y - s.lastMouse.y));
    ConstrainedIsOk(v, s.(lastMouse := to), s.zoom, moved);
  }

  lemma StepKeeps(v: View, s: State, e: Event)
    requires v.image.Some? && Inv(v, s)
    ensures Inv(v, Step(v, s, e))
  {
    match e
    case Wheel(mouse, towards) => WheelKeeps(v, s, mouse, towards);
    case ZoomIn => ZoomToKeeps(v, s, MinReal(MAX_ZOOM, s.zoom * 1.25));
    case ZoomOut => ZoomToKeeps(v, s, MaxReal(1.0, s.zoom / 1.25));
    case ResetZoom => ConstrainedIsOk(v, s, 1.0, Point(0.0, 0.0));
    case MouseMove(to) => MoveKeeps(v, s, to);
    case MouseDown(_, _) =>
    case MouseUp =>
  }

  lemma ZoomStaysPositive(v: View, s: State, e: Event)
    requires s.zoom > 0.0
    ensures Step(v, s, e).zoom > 0.0
  {
  }

  function Exec(v: View, s: State, es: seq<Event>): State
    requires s.zoom > 0.0
    decreases |es|
  {
    if es == [] then s
    else
      ZoomStaysPositive(v, s, es[0]);
      Exec(v, Step(v, s, es[0]), es[1..])
  }

  lemma {:induction false} ExecKeeps(v: View, s: State, es: seq<Event>)
    requires v.image.Some? && Inv(v, s)
    ensures Inv(v, Exec(v, s, es))
    decreases |es|
  {
    if es != [] {
      StepKeeps(v, s, es[0]);
      ExecKeeps(v, Step(v, s, es[0]), es[1..]);
    }
  }

  // ---------------------------------------------------------------- what the user sees

  /** Where the picture starts along one axis. */
  function Offset(canvas: real, render: real, pan: real): real {
    canvas / 2.0 + pan - render / 2.0
  }

  /** The blank stripe before and after the picture. */
  function GapBefore(canvas: real, render: real, pan: real): real {
    MaxReal(0.0, Offset(canvas, render, pan))
  }

  function GapAfter(canvas: real, render: real, pan: real): real {
    MaxReal(0.0, canvas - (Offset(canvas, render, pan) + render))
  }

  /** The larger of a tenth of the canvas and the stripe a centred picture leaves. */
  function AllowedGap(canvas: real, render: real): real {
    MaxReal(canvas * 0.1, (canvas - render) / 2.0)
  }

  /** The margin of the pan is exactly what keeps both stripes within the allowed gap. */
  lemma MarginBoundsGap(canvas: real, render: real, pan: real)
    requires canvas >= 0.0
    ensures WithinMargin(canvas, render, pan) <==>
      GapBefore(canvas, render, pan) <= AllowedGap(canvas, render) && GapAfter(canvas, render, pan) <= AllowedGap(canvas, render)
  {
  }

  /** How far the picture may leave the canvas on each side. */
  predicate InView(v: View, s: State)
    requires v.image.Some?
  {
    var w := Scaled(v.image.value.x, s.zoom);
    var h := Scaled(v.image.value.y, s.zoom);
    && GapBefore(v.canvas.x, w, s.pan.x) <= AllowedGap(v.canvas.x, w)
    && GapAfter(v.canvas.x, w, s.pan.x) <= AllowedGap(v.canvas.x, w)
    && GapBefore(v.canvas.y, h, s.pan.y) <= AllowedGap(v.canvas.y, h)
    && GapAfter(v.canvas.y, h, s.pan.y) <= AllowedGap(v.canvas.y, h)
  }

  lemma InvIsInView(v: View, s: State)
    requires v.image.Some? && Inv(v, s) && v.canvas.x >= 0.0 && v.canvas.y >= 0.0
    ensures InView(v, s)
  {
    MarginBoundsGap(v.canvas.x, Scaled(v.image.value.x, s.zoom), s.pan.x);
    MarginBoundsGap(v.canvas.y, Scaled(v.image.value.y, s.zoom), s.pan.y);
  }

  lemma InitialOk(v: View)
    requires v.image.Some?
    ensures Inv(v, INITIAL)
  {
    ClampIsWithin(v.canvas.x, Scaled(v.image.value.x, 1.0), 0.0);
    ClampIsWithin(v.canvas.y, Scaled(v.image.value.y, 1.0), 0.0);
  }

  /** After any sequence of wheel, drag, key and reset events, for any canvas and picture. */
  lemma PictureStaysInView(v: View, es: seq<Event>)
    requires v.image.Some? && v.canvas.x >= 0.0 && v.canvas.y >= 0.0
    ensures var s := Exec(v, INITIAL, es);
      && 1.0 <= s.zoom <= 20.0
      && (s.zoom == 1.0 ==> s.pan == Point(0.0, 0.0))
      && InView(v, s)
  {
    InitialOk(v);
    ExecKeeps(v, INITIAL, es);
    InvIsInView(v, Exec(v, INITIAL, es));
  }

  lemma StepKeepsZoom(v: View, s: State, e: Event)
    requires 1.0 <= s.zoom <= MAX_ZOOM
    ensures 1.0 <= Step(v, s, e).zoom <= MAX_ZOOM
  {
  }

  lemma {:induction false} ExecKeepsZoom(v: View, s: State, es: seq<Event>)
    requires 1.0 <= s.zoom <= MAX_ZOOM
    ensures 1.0 <= Exec(v, s, es).zoom <= MAX_ZOOM
    decreases |es|
  {
    if es != [] {
      StepKeepsZoom(v, s, es[0]);
      ExecKeepsZoom(v, Step(v, s, es[0]), es[1..]);
    }
  }

  /** The zoom stays in its range whether or not a picture was drawn. */
  lemma ZoomStaysInRange(v: View, es: seq<Event>)
    ensures 1.0 <= Exec(v, INITIAL, es).zoom <= 20.0
  {
    ExecKeepsZoom(v, INITIAL, es);
  }

  /** Whatever the user does, zoom 1 shows the picture centred. */
  ghost predicate RestsCentred(v: View) {
    forall es :: Exec(v, INITIAL, es).zoom == 1.0 ==> Exec(v, INITIAL, es).pan == Point(0.0, 0.0)
  }

  /** That holds exactly once a picture was drawn: before, a pan is never clamped. */
  lemma RestsCentredOncePictured(v: View)
    ensures RestsCentred(v) <==> v.image.Some?
  {
    if v.image.Some? {
      forall es
        ensures Exec(v, INITIAL, es).zoom == 1.0 ==> Exec(v, INITIAL, es).pan == Point(0.0, 0.0)
      {
        InitialOk(v);
        ExecKeeps(v, INITIAL, es);
      }
    } else {
      var es := WanderingRun(v);
      assert Exec(v, INITIAL, es).zoom == 1.0 && Exec(v, INITIAL, es).pan != Point(0.0, 0.0);
    }
  }

  /** Without a picture: zoom in beside the centre, then out at the centre. */
  lemma WanderingRun(v: View) returns (es: seq<Event>)
    requires v.image.None?
    ensures Exec(v, INITIAL, es).zoom == 1.0 && Exec(v, INITIAL, es).pan.x == -10.0
  {
    var centre := Point(v.canvas.x / 2.0, v.canvas.y / 2.0);
    var inwards, outwards := Wheel(Point(centre.x + 110.0, centre.y), true), Wheel(centre, false);
    es := [inwards, outwards];
    var s1 := Step(v, INITIAL, inwards);
    assert s1.zoom == 1.1 && s1.pan == Point(-11.0, 0.0);
    var s2 := Step(v, s1, outwards);
    assert s2.zoom == 1.0 && s2.pan.x == -10.0;
    assert es[1..] == [outwards] && [outwards][1..] == [];
    assert Exec(v, INITIAL, es) == Exec(v, s1, [outwards]) == Exec(v, s2, []);
  }

  /** The image coordinate under a canvas position, measured from the image centre at zoom 1. */
  function Under(offset: real, pan: real, zoom: real): real
    requires zoom > 0.0
  {
    (offset - pan) / zoom
  }

  lemma FollowKeepsPoint(offset: real, pan: real, zoom: real, newZoom: real)
    requires zoom > 0.0 && newZoom > 0.0
    ensures Under(offset, offset - (offset - pan) * (newZoom / zoom), newZoom) == Under(offset, pan, zoom)
  {
    var d := offset - pan;
    var q := newZoom / zoom;
    assert q * zoom == newZoom;
    assert Under(offset, offset - d * q, newZoom) == (d * q) / newZoom;
    assert (d / zoom) * newZoom == (d / zoom) * (q * zoom) == d * q;
    assert (d * q) / newZoom == d / zoom;
  }

  lemma UnderIsInjective(offset: real, a: real, b: real, zoom: real)
    requires zoom > 0.0
    ensures Under(offset, a, zoom) == Under(offset, b, zoom) <==> a == b
  {
    assert Under(offset, a, zoom) * zoom == offset - a;
    assert Under(offset, b, zoom) * zoom == offset - b;
  }

  lemma OnlyFollowKeepsPoint(offset: real, pan: real, zoom: real, newZoom: real, got: real)
    requires zoom > 0.0 && newZoom > 0.0
    ensures Under(offset, got, newZoom) == Under(offset, pan, zoom)
       <==> got == offset - (offset - pan) * (newZoom / zoom)
  {
    FollowKeepsPoint(offset, pan, zoom, newZoom);
    UnderIsInjective(offset, got, offset - (offset - pan) * (newZoom / zoom), newZoom);
  }

  /** Whether the clamp lets an asked pan through on one axis. */
  predicate LetsThrough(canvas: real, size: real, zoom: real, asked: real) {
    if zoom <= 1.0 then asked == 0.0 else WithinMargin(canvas, Scaled(size, zoom), asked)
  }

  lemma ConstrainedWhenWithin(v: View, zoom: real, p: Point)
    requires v.image.Some?
    ensures ConstrainPan(v, zoom, p).x == p.x <==> LetsThrough(v.canvas.x, v.image.value.x, zoom, p.x)
    ensures ConstrainPan(v, zoom, p).y == p.y <==> LetsThrough(v.canvas.y, v.image.value.y, zoom, p.y)
  {
    ClampIsWithin(v.canvas.x, Scaled(v.image.value.x, zoom), p.x);
    ClampIsWithin(v.canvas.y, Scaled(v.image.value.y, zoom), p.y);
  }

  /** The pan a wheel step to zoom `z` asks for. */
  function Asked(v: View, s: State, mouse: Point, z: real): Point
    requires s.zoom > 0.0
  {
    Follow(FromCentre(v, mouse), s.pan, z / s.zoom)
  }

  /** The same image point lies `offset` from the canvas centre under either pan. */
  predicate SamePoint(offset: real, pan: real, zoom: real, newPan: real, newZoom: real) {
    zoom > 0.0 && newZoom > 0.0 && Under(offset, newPan, newZoom) == Under(offset, pan, zoom)
  }

  lemma FollowedIsKept(v: View, s: State, mouse: Point, z: real, got: Point)
    requires s.zoom > 0.0 && z > 0.0
    ensures var c := FromCentre(v, mouse);
      && (SamePoint(c.x, s.pan.x, s.zoom, got.x, z) <==> got.x == Asked(v, s, mouse, z).x)
      && (SamePoint(c.y, s.pan.y, s.zoom, got.y, z) <==> got.y == Asked(v, s, mouse, z).y)
  {
    var c := FromCentre(v, mouse);
    OnlyFollowKeepsPoint(c.x, s.pan.x, s.zoom, z, got.x);
    OnlyFollowKeepsPoint(c.y, s.pan.y, s.zoom, z, got.y);
  }

  /** What a wheel step does, before any arithmetic. */
  lemma WheelOutcome(v: View, s: State, mouse: Point, towards: bool)
    requires s.zoom > 0.0
    ensures var z := WheelZoom(s.zoom, towards);
      WheelStep(v, s, mouse, towards) ==
        if z == s.zoom then s else s.(zoom := z, pan := ConstrainPan(v, z, Asked(v, s, mouse, z)))
  {
  }

  /** Whether the pan a wheel step asks for stands on one axis: the zoom stays, no picture was drawn yet, or the clamp lets it through. */
  predicate Free(zoom: real, z: real, canvas: real, size: Option<real>, asked: real) {
    z == zoom || size.None? || LetsThrough(canvas, size.value, z, asked)
  }

  function Width(v: View): Option<real> {
    if v.image.Some? then Some(v.image.value.x) else None
  }

  function Height(v: View): Option<real> {
    if v.image.Some? then Some(v.image.value.y) else None
  }

  lemma ConstrainedWhenFree(v: View, zoom: real, z: real, p: Point)
    requires z != zoom
    ensures ConstrainPan(v, z, p).x == p.x <==> Free(zoom, z, v.canvas.x, Width(v), p.x)
    ensures ConstrainPan(v, z, p).y == p.y <==> Free(zoom, z, v.canvas.y, Height(v), p.y)
  {
    if v.image.Some? {
      ConstrainedWhenWithin(v, z, p);
    }
  }

  /**
    A wheel step keeps the image point under the cursor, on each axis, exactly when the zoom stays as it
    is, no picture was drawn yet, or the pan that follows the point lies within the margin of the new zoom.
   */
  lemma WheelKeepsPointUnlessClamped(v: View, s: State, mouse: Point, towards: bool)
    requires s.zoom > 0.0
    ensures var s' := WheelStep(v, s, mouse, towards);
      var z := WheelZoom(s.zoom, towards);
      var c, asked := FromCentre(v, mouse), Asked(v, s, mouse, z);
      && (SamePoint(c.x, s.pan.x, s.zoom, s'.pan.x, s'.zoom) <==> Free(s.zoom, z, v.canvas.x, Width(v), asked.x))
      && (SamePoint(c.y, s.pan.y, s.zoom, s'.pan.y, s'.zoom) <==> Free(s.zoom, z, v.canvas.y, Height(v), asked.y))
  {
    var s' := WheelStep(v, s, mouse, towards);
    var z := WheelZoom(s.zoom, towards);
    WheelOutcome(v, s, mouse, towards);
    WheelZoomRange(s.zoom, towards);
    if z != s.zoom {
      FollowedIsKept(v, s, mouse, z, s'.pan);
      ConstrainedWhenFree(v, s.zoom, z, Asked(v, s, mouse, z));
    }
  }

  // ---------------------------------------------------------------- what keys, wheel and drag do

  /** A fitted picture has a size. */
  predicate Sized(v: View) {
    v.image.Some? ==> v.image.value.x >= 0.0 && v.image.value.y >= 0.0
  }

  /** What a run keeps, with or without a picture. */
  ghost predicate Sound(v: View, s: State) {
    1.0 <= s.zoom <= MAX_ZOOM && (v.image.Some? ==> Inv(v, s))
  }

  lemma ExecKeepsSound(v: View, s: State, es: seq<Event>)
    requires Sound(v, s)
    ensures Sound(v, Exec(v, s, es))
  {
    ExecKeepsZoom(v, s, es);
    if v.image.Some? {
      ExecKeeps(v, s, es);
    }
  }

  lemma InitialSound(v: View)
    ensures Sound(v, INITIAL)
  {
    if v.image.Some? {
      InitialOk(v);
    }
  }

  lemma {:induction false} ExecConcat(v: View, s: State, a: seq<Event>, b: seq<Event>)
    requires s.zoom > 0.0
    ensures Exec(v, s, a).zoom > 0.0
    ensures Exec(v, s, a + b) == Exec(v, Exec(v, s, a), b)
    decreases |a|
  {
    if a == [] {
      assert a + b == b;
    } else {
      assert (a + b)[1..] == a[1..] + b;
      ZoomStaysPositive(v, s, a[0]);
      ExecConcat(v, Step(v, s, a[0]), a[1..], b);
    }
  }

  lemma ExecOne(v: View, s: State, e: Event)
    requires s.zoom > 0.0
    ensures Exec(v, s, [e]) == Step(v, s, e)
  {
    assert [e][1..] == [];
    ZoomStaysPositive(v, s, e);
  }

  lemma MarginGrows(canvas: real, size: real, zoom: real, newZoom: real)
    requires size >= 0.0 && zoom <= newZoom
    ensures Margin(canvas, Scaled(size, zoom)) <= Margin(canvas, Scaled(size, newZoom))
  {
    assert size * (newZoom - zoom) >= 0.0;
    assert Scaled(size, newZoom) == Scaled(size, zoom) + size * (newZoom - zoom);
  }

  /** A pan that is allowed stays as it is when the picture grows. */
  lemma AllowedStays(v: View, s: State, newZoom: real)
    requires Sized(v) && Sound(v, s) && s.zoom <= newZoom
    ensures ConstrainPan(v, newZoom, s.pan) == s.pan
  {
    if v.image.Some? && newZoom > 1.0 {
      MarginGrows(v.canvas.x, v.image.value.x, s.zoom, newZoom);
      MarginGrows(v.canvas.y, v.image.value.y, s.zoom, newZoom);
    }
  }

  /** Zooming in by key enlarges by a quarter, up to 20, and never moves the picture. */
  lemma ZoomInEnlarges(v: View, es: seq<Event>)
    requires Sized(v)
    ensures var s, s' := Exec(v, INITIAL, es), Exec(v, INITIAL, es + [ZoomIn]);
      && (if s.zoom <= 16.0 then 4.0 * s'.zoom == 5.0 * s.zoom else s'.zoom == 20.0)
      && s' == s.(zoom := s'.zoom)
  {
    var s := Exec(v, INITIAL, es);
    InitialSound(v);
    ExecKeepsSound(v, INITIAL, es);
    ExecConcat(v, INITIAL, es, [ZoomIn]);
    ExecOne(v, s, ZoomIn);
    AllowedStays(v, s, MinReal(MAX_ZOOM, s.zoom * 1.25));
  }

  lemma OutAfterIn(v: View, s: State)
    requires Sized(v) && Sound(v, s)
    ensures Step(v, Step(v, s, ZoomIn), ZoomOut) == s <==> s.zoom <= 16.0
  {
    var s1 := Step(v, s, ZoomIn);
    AllowedStays(v, s, MinReal(MAX_ZOOM, s.zoom * 1.25));
    if s.zoom <= 16.0 {
      assert s1 == s.(zoom := s.zoom * 1.25);
      AllowedStays(v, s, s.zoom);
    } else {
      assert s1.zoom == MAX_ZOOM;
    }
  }

  /** Zooming out undoes zooming in, pan included, exactly when the picture was not enlarged beyond 16. */
  lemma ZoomOutUndoesZoomIn(v: View, es: seq<Event>)
    requires Sized(v)
    ensures var s := Exec(v, INITIAL, es);
      Exec(v, INITIAL, es + [ZoomIn, ZoomOut]) == s <==> s.zoom <= 16.0
  {
    var s := Exec(v, INITIAL, es);
    InitialSound(v);
    ExecKeepsSound(v, INITIAL, es);
    ExecConcat(v, INITIAL, es, [ZoomIn, ZoomOut]);
    assert [ZoomIn, ZoomOut] == [ZoomIn] + [ZoomOut];
    ExecConcat(v, s, [ZoomIn], [ZoomOut]);
    ExecOne(v, s, ZoomIn);
    ExecOne(v, Step(v, s, ZoomIn), ZoomOut);
    OutAfterIn(v, s);
  }

  /** Turning the wheel back restores the zoom exactly when the first turn did not run into the limit. */
  lemma WheelBackRestoresZoom(v: View, s: State, there: Point, back: Point)
    requires 1.0 <= s.zoom <= MAX_ZOOM
    ensures var s1 := Step(v, s, Wheel(there, true));
      && (s.zoom < 20.0 ==> s1.zoom > s.zoom)
      && s1.zoom > 0.0
      && (Step(v, s1, Wheel(back, false)).zoom == s.zoom <==> 11.0 * s.zoom <= 200.0)
  {
  }

  /** After a reset the whole picture is shown, centred. */
  lemma ResetShowsAll(v: View, es: seq<Event>)
    ensures var s := Exec(v, INITIAL, es + [ResetZoom]); s.zoom == 1.0 && s.pan == Point(0.0, 0.0)
  {
    ExecConcat(v, INITIAL, es, [ResetZoom]);
    ExecOne(v, Exec(v, INITIAL, es), ResetZoom);
  }

  function Distance(a: real, b: real): real {
    MaxReal(a - b, b - a)
  }

  /** An enlarged picture may be panned to exactly the places from which it stays in view. */
  lemma AllowedIsInView(v: View, s: State)
    requires v.image.Some? && s.zoom > 1.0 && v.canvas.x >= 0.0 && v.canvas.y >= 0.0
    ensures Allows(v, s.zoom, s.pan) <==> InView(v, s)
  {
    MarginBoundsGap(v.canvas.x, Scaled(v.image.value.x, s.zoom), s.pan.x);
    MarginBoundsGap(v.canvas.y, Scaled(v.image.value.y, s.zoom), s.pan.y);
  }

  /** The clamp moves a pan no farther than it must. */
  lemma ClampIsNearest(canvas: real, render: real, p: real, q: real)
    requires WithinMargin(canvas, render, q)
    ensures Distance(Clamp(canvas, render, p), p) <= Distance(q, p)
  {
  }

  /** Whether a pan is allowed with a picture at this zoom; without one everything is. */
  predicate Allows(v: View, zoom: real, p: Point) {
    v.image.Some? ==> LetsThrough(v.canvas.x, v.image.value.x, zoom, p.x) && LetsThrough(v.canvas.y, v.image.value.y, zoom, p.y)
  }

  /** A pan is allowed exactly when the clamp leaves it, and otherwise the clamp takes the nearest allowed one on each axis. */
  lemma ConstrainedIsNearest(v: View, zoom: real, p: Point, q: Point)
    ensures Allows(v, zoom, p) <==> ConstrainPan(v, zoom, p) == p
    ensures Allows(v, zoom, ConstrainPan(v, zoom, p))
    ensures Allows(v, zoom, q) ==>
      && Distance(ConstrainPan(v, zoom, p).x, p.x) <= Distance(q.x, p.x)
      && Distance(ConstrainPan(v, zoom, p).y, p.y) <= Distance(q.y, p.y)
  {
    if v.image.Some? {
      ConstrainedWhenWithin(v, zoom, p);
      ClampIsWithin(v.canvas.x, Scaled(v.image.value.x, zoom), p.x);
      ClampIsWithin(v.canvas.y, Scaled(v.image.value.y, zoom), p.y);
      if Allows(v, zoom, q) && zoom > 1.0 {
        ClampIsNearest(v.canvas.x, Scaled(v.image.value.x, zoom), p.x, q.x);
        ClampIsNearest(v.canvas.y, Scaled(v.image.value.y, zoom), p.y, q.y);
      }
    }
  }

  /** Where the pan would be if the picture simply followed the mouse from `from` to `to`. */
  function Followed(pan: Point, from: Point, to: Point): Point {
    Point(pan.x + to.x - from.x, pan.y + to.y - from.y)
  }

  /** While the button is held the picture follows the mouse, as far as the clamp allows; the zoom stays. */
  lemma MoveFollowsTheMouse(v: View, s: State, to: Point, q: Point)
    requires s.zoom > 0.0 && s.panning
    ensures var s' := Step(v, s, MouseMove(to));
      var asked := Followed(s.pan, s.lastMouse, to);
      && s'.zoom == s.zoom && s'.panning && s'.lastMouse == to
      && (Allows(v, s.zoom, asked) ==> s'.pan == asked)
      && Allows(v, s.zoom, s'.pan)
      && (Allows(v, s.zoom, q) ==>
            Distance(s'.pan.x, asked.x) <= Distance(q.x, asked.x) && Distance(s'.pan.y, asked.y) <= Distance(q.y, asked.y))
  {
    ConstrainedIsNearest(v, s.zoom, Followed(s.pan, s.lastMouse, to), q);
  }

  /** The mouse moves along a path. */
  function Moves(path: seq<Point>): seq<Event> {
    seq(|path|, i requires 0 <= i < |path| => MouseMove(path[i]))
  }

  lemma {:induction false} PathFollowsTheMouse(v: View, s: State, path: seq<Point>)
    requires s.zoom > 0.0 && s.panning
    requires forall i :: 0 <= i < |path| ==> Allows(v, s.zoom, Followed(s.pan, s.lastMouse, path[i]))
    ensures var s' := Exec(v, s, Moves(path));
      && s'.zoom == s.zoom && s'.panning
      && (path != [] ==> s'.pan == Followed(s.pan, s.lastMouse, path[|path| - 1]))
      && (path == [] ==> s' == s)
    decreases |path|
  {
    if path != [] {
      var s1 := Step(v, s, MouseMove(path[0]));
      MoveFollowsTheMouse(v, s, path[0], s.pan);
      assert Moves(path)[1..] == Moves(path[1..]);
      forall p: Point
        ensures Followed(s1.pan, s1.lastMouse, p) == Followed(s.pan, s.lastMouse, p)
      {
      }
      PathFollowsTheMouse(v, s1, path[1..]);
    }
  }

  /** A whole drag of an enlarged picture, inside the margin all along, moves it exactly as far as the mouse. */
  lemma DragMovesThePicture(v: View, es: seq<Event>, at: Point, path: seq<Point>)
    requires path != [] && Exec(v, INITIAL, es).zoom > 1.0
    requires forall i :: 0 <= i < |path| ==>
      Allows(v, Exec(v, INITIAL, es).zoom, Followed(Exec(v, INITIAL, es).pan, at, path[i]))
    ensures var s := Exec(v, INITIAL, es);
      var s' := Exec(v, INITIAL, es + ([MouseDown(at, true)] + Moves(path) + [MouseUp]));
      && s'.zoom == s.zoom && !s'.panning
      && s'.pan == Followed(s.pan, at, path[|path| - 1])
  {
    var s := Exec(v, INITIAL, es);
    var s1 := Step(v, s, MouseDown(at, true));
    ExecConcat(v, INITIAL, es, [MouseDown(at, true)] + Moves(path) + [MouseUp]);
    ExecConcat(v, s, [MouseDown(at, true)] + Moves(path), [MouseUp]);
    ExecConcat(v, s, [MouseDown(at, true)], Moves(path));
    ExecOne(v, s, MouseDown(at, true));
    PathFollowsTheMouse(v, s1, path);
    ExecOne(v, Exec(v, s1, Moves(path)), MouseUp);
  }

  /** An event that neither zooms nor starts a drag: only the left button on an enlarged picture does. */
  predicate StartsNothing(e: Event, zoom: real) {
    e.MouseMove? || e.MouseUp? || (e.MouseDown? && (!e.leftButton || zoom <= 1.0))
  }

  /** Without a drag the mouse moves nothing. */
  lemma {:induction false} OnlyADragPans(v: View, s: State, es: seq<Event>)
    requires s.zoom > 0.0 && !s.panning
    requires forall i :: 0 <= i < |es| ==> StartsNothing(es[i], s.zoom)
    ensures Exec(v, s, es) == s
    decreases |es|
  {
    if es != [] {
      assert StartsNothing(es[0], s.zoom);
      OnlyADragPans(v, Step(v, s, es[0]), es[1..]);
    }
  }

  // ---------------------------------------------------------------- the refs themselves

  /** The zoom and pan refs, updated step by step by the handlers. */
  class ZoomRefs {
    const view: View
    var zoom: real
    var pan: Point
    var isPanning: bool
    var lastMousePos: Point

    function Snapshot(): State
      reads this
    {
      State(zoom, pan, isPanning, lastMousePos)
    }

    constructor (view: View)
      ensures this.view == view && Snapshot() == INITIAL
    {
      this.view := view;
      zoom, pan, isPanning, lastMousePos := 1.0, Point(0.0, 0.0), false, Point(0.0, 0.0);
    }

    method OnWheel(mouse: Point, towards: bool)
      requires zoom > 0.0
      modifies this
      ensures Snapshot() == Step(view, old(Snapshot()), Wheel(mouse, towards))
    {
      var cursor := FromCentre(view, mouse);
      var newZoom := WheelZoom(zoom, towards);
      if newZoom == zoom {
        return;
      }
      var ratio := newZoom / zoom;
      var asked := Point(cursor.x - (cursor.x - pan.x) * ratio, cursor.y - (cursor.y - pan.y) * ratio);
      assert asked == Follow(cursor, pan, ratio);
      zoom := newZoom;
      pan := ConstrainPan(view, newZoom, asked);
    }

    method OnZoomKey(inwards: bool)
      requires zoom > 0.0
      modifies this
      ensures Snapshot() == Step(view, old(Snapshot()), if inwards then ZoomIn else ZoomOut)
    {
      var newZoom := if inwards then MinReal(MAX_ZOOM, zoom * 1.25) else MaxReal(1.0, zoom / 1.25);
      if newZoom == zoom {
        return;
      }
      zoom := newZoom;
      pan := ConstrainPan(view, zoom, pan);
    }

    method OnMouseDown(at: Point, leftButton: bool)
      requires zoom > 0.0
      modifies this
      ensures Snapshot() == Step(view, old(Snapshot()), MouseDown(at, leftButton))
    {
      if zoom <= 1.0 || !leftButton {
        return;
      }
      isPanning := true;
      lastMousePos := at;
    }

    method OnMouseMove(to: Point)
      requires zoom > 0.0
      modifies this
      ensures Snapshot() == Step(view, old(Snapshot()), MouseMove(to))
    {
      if !isPanning {
        return;
      }
      var deltaX := to.x - lastMousePos.x;
      var deltaY := to.y - lastMousePos.y;
      lastMousePos := to;
      pan := ConstrainPan(view, zoom, Point(pan.x + deltaX, pan.y + deltaY));
    }
  }
}
