/**
 * The pan/zoom compositing editor (src/edit.jsx): gesture handlers that move
 * and zoom the photo inside the frame preview, and the export that replays the
 * same pan and zoom onto a fixed-size canvas under the frame overlay.
 */
module Editor {
  import opened Common
  import opened Crop
  import opened Frames
  import opened Canvas

  const SCALE_MIN := 0.5
  const SCALE_MAX := 4.0
  /** Zoom change per wheel notch. */
  const WHEEL_STEP := 0.1
  /** Background colour painted before the photo. */
  const BACKDROP := "#000"
  /** The only facing mode whose export is mirrored. */
  const FRONT_CAMERA := "user"
  /** The facing mode the editor assumes when its parent passes none. */
  const BACK_CAMERA := "environment"

  /** `Math.max(0.5, Math.min(v, 4))`: the zoom limits. */
  function ClampScale(v: real): (r: real)
    ensures SCALE_MIN <= r <= SCALE_MAX
    ensures SCALE_MIN <= v <= SCALE_MAX ==> r == v
    ensures v < SCALE_MIN ==> r == SCALE_MIN
    ensures v > SCALE_MAX ==> r == SCALE_MAX
  {
    var m := if v < 4.0 then v else 4.0;
    if 0.5 > m then 0.5 else m
  }

  lemma ClampIdempotent(v: real)
    ensures ClampScale(ClampScale(v)) == ClampScale(v)
  {
  }

  lemma ClampMonotone(u: real, v: real)
    requires u <= v
    ensures ClampScale(u) <= ClampScale(v)
  {
  }

  /** The zoom change of one wheel notch: scrolling down (positive deltaY) zooms out. */
  function WheelDelta(deltaY: real): (r: real)
    ensures deltaY > 0.0 ==> r == -WHEEL_STEP
    ensures deltaY <= 0.0 ==> r == WHEEL_STEP
  {
    if deltaY > 0.0 then -0.1 else 0.1
  }

  /** The zoom after `n` wheel notches in one direction, each clamped as it happens. */
  function Notches(s: real, n: nat, zoomIn: bool): real
  {
    if n == 0 then s
    else ClampScale(Notches(s, n - 1, zoomIn) + (if zoomIn then WHEEL_STEP else -WHEEL_STEP))
  }

  /** Clamping each notch is the same as clamping once at the end: the limits absorb any excess. */
  lemma {:induction false} NotchesClampOnce(s: real, n: nat, zoomIn: bool)
    requires SCALE_MIN <= s <= SCALE_MAX
    ensures zoomIn ==> Notches(s, n, zoomIn) == ClampScale(s + WHEEL_STEP * (n as real))
    ensures !zoomIn ==> Notches(s, n, zoomIn) == ClampScale(s - WHEEL_STEP * (n as real))
  {
    if n > 0 {
      NotchesClampOnce(s, n - 1, zoomIn);
      assert WHEEL_STEP * (n as real) == WHEEL_STEP * ((n - 1) as real) + WHEEL_STEP;
    }
  }

  /** A pinch move zooms the scale recorded at pinch start by the ratio of finger distances. */
  function PinchScale(baseline: real, startSpread: real, spread: real): (r: real)
    requires startSpread > 0.0
    ensures SCALE_MIN <= r <= SCALE_MAX
    ensures SCALE_MIN <= baseline <= SCALE_MAX && spread == startSpread ==> r == baseline
    ensures spread >= startSpread && baseline >= 0.0 ==> r >= ClampScale(baseline)
    ensures 0.0 <= spread <= startSpread && baseline >= 0.0 ==> r <= ClampScale(baseline)
  {
    var factor := spread / startSpread;
    RatioBounds(spread, startSpread);
    if baseline >= 0.0 && spread >= startSpread then
      MulNonNegative(baseline, factor - 1.0);
      assert baseline * factor - baseline == baseline * (factor - 1.0);
      ClampMonotone(baseline, baseline * factor);
      ClampScale(baseline * factor)
    else if baseline >= 0.0 && 0.0 <= spread <= startSpread then
      MulNonNegative(baseline, 1.0 - factor);
      assert baseline - baseline * factor == baseline * (1.0 - factor);
      ClampMonotone(baseline * factor, baseline);
      ClampScale(baseline * factor)
    else
      ClampScale(baseline * factor)
  }

  lemma RatioBounds(spread: real, startSpread: real)
    requires startSpread > 0.0
    ensures spread == startSpread ==> spread / startSpread == 1.0
    ensures spread >= startSpread ==> spread / startSpread >= 1.0
    ensures 0.0 <= spread <= startSpread ==> 0.0 <= spread / startSpread <= 1.0
  {
    var f := spread / startSpread;
    assert f * startSpread == spread;
    assert (f - 1.0) * startSpread == spread - startSpread;
  }

  lemma MulNonNegative(a: real, b: real)
    requires a >= 0.0 && b >= 0.0
    ensures a * b >= 0.0
  {
  }

  /**
   * The transform calls the export issues around the photo: the optional
   * mirror about the canvas' vertical centre line, the pan offset converted
   * from preview pixels by `k`, and the zoom about the canvas centre.
   */
  function PhotoOps(offset: Point, scale: real, k: real, mirrored: bool, w: real, h: real): (r: seq<Op>)
    ensures TransformOnly(r)
  {
    (if mirrored then [Translate(w, 0.0), Scale(-1.0, 1.0)] else [])
    + [Translate(offset.x * k, offset.y * k), Translate(w / 2.0, h / 2.0), Scale(scale, scale), Translate(-w / 2.0, -h / 2.0)]
  }

  /**
   * Where a point of the full-frame photo lands on the canvas: zoomed by
   * `scale` about the centre c = (w/2, h/2), moved by k times the pan offset,
   * and then, when mirrored, reflected to w - x.
   */
  function PhotoPoint(p: Point, offset: Point, scale: real, k: real, mirrored: bool, w: real, h: real): Point
  {
    var x := w / 2.0 + scale * (p.x - w / 2.0) + k * offset.x;
    var y := h / 2.0 + scale * (p.y - h / 2.0) + k * offset.y;
    if mirrored then Point(w - x, y) else Point(x, y)
  }

  /** The transform calls of the export place every photo point where PhotoPoint says. */
  lemma PhotoOpsMeaning(offset: Point, scale: real, k: real, mirrored: bool, w: real, h: real, p: Point)
    ensures MapThrough(PhotoOps(offset, scale, k, mirrored, w, h), p) == PhotoPoint(p, offset, scale, k, mirrored, w, h)
  {
    var pan, centre, zoom, back := Translate(offset.x * k, offset.y * k), Translate(w / 2.0, h / 2.0),
                                   Scale(scale, scale), Translate(-w / 2.0, -h / 2.0);
    var tail := [zoom] + [back];
    var body := [centre] + tail;
    var all := [pan] + body;
    MapThroughSingle(back, p);
    MapThroughSingle(zoom, MapThrough([back], p));
    MapThroughAppend([zoom], [back], p);
    MapThroughSingle(centre, MapThrough(tail, p));
    MapThroughAppend([centre], tail, p);
    MapThroughSingle(pan, MapThrough(body, p));
    MapThroughAppend([pan], body, p);
    var q := MapThrough(all, p);
    assert q.x == w / 2.0 + scale * (p.x - w / 2.0) + k * offset.x;
    assert q.y == h / 2.0 + scale * (p.y - h / 2.0) + k * offset.y;
    var ops := PhotoOps(offset, scale, k, mirrored, w, h);
    if mirrored {
      var flip, turn := Translate(w, 0.0), Scale(-1.0, 1.0);
      assert |ops| == 6 && ops[0] == flip && ops[1] == turn && ops[2] == pan && ops[3] == centre && ops[4] == zoom && ops[5] == back;
      assert ops == [flip] + ([turn] + all);
      MapThroughSingle(turn, q);
      MapThroughAppend([turn], all, p);
      MapThroughSingle(flip, MapThrough([turn] + all, p));
      MapThroughAppend([flip], [turn] + all, p);
    } else {
      assert |ops| == 4 && ops[0] == pan && ops[1] == centre && ops[2] == zoom && ops[3] == back;
      assert ops == all;
    }
  }

  /** At the rest state (no pan, zoom 1, no mirror) the photo is drawn exactly over the canvas. */
  lemma PhotoAtRestIsIdentity(k: real, w: real, h: real, p: Point)
    ensures MapThrough(PhotoOps(Point(0.0, 0.0), 1.0, k, false, w, h), p) == p
  {
    PhotoOpsMeaning(Point(0.0, 0.0), 1.0, k, false, w, h, p);
  }

  /** The front-camera export is the horizontal mirror of the back-camera export of the same state. */
  lemma MirroredIsReflection(offset: Point, scale: real, k: real, w: real, h: real, p: Point)
    ensures MapThrough(PhotoOps(offset, scale, k, true, w, h), p).x == w - MapThrough(PhotoOps(offset, scale, k, false, w, h), p).x
    ensures MapThrough(PhotoOps(offset, scale, k, true, w, h), p).y == MapThrough(PhotoOps(offset, scale, k, false, w, h), p).y
  {
    PhotoOpsMeaning(offset, scale, k, true, w, h, p);
    PhotoOpsMeaning(offset, scale, k, false, w, h, p);
  }

  /**
   * The preview's CSS `translate(ox, oy) scale(s)`, with the default
   * transform origin at the centre of a `boxW` x `boxH` box.
   */
  function PreviewPoint(q: Point, offset: Point, scale: real, boxW: real, boxH: real): Point
  {
    Point(boxW / 2.0 + offset.x + scale * (q.x - boxW / 2.0), boxH / 2.0 + offset.y + scale * (q.y - boxH / 2.0))
  }

  /** Conversion factor from preview pixels to canvas pixels. */
  function EditorToCanvasScale(frameW: real, editorW: real): (k: real)
    requires editorW > 0.0
    ensures k * editorW == frameW
  {
    frameW / editorW
  }

  /**
   * What you see is what you get: when the preview box is the canvas shrunk
   * by k, the unmirrored export puts each photo point exactly k times as far
   * from the origin as the preview does.
   */
  lemma PreviewMatchesExport(offset: Point, scale: real, k: real, boxW: real, boxH: real, w: real, h: real, q: Point)
    requires k * boxW == w && k * boxH == h
    ensures var pv := PreviewPoint(q, offset, scale, boxW, boxH);
            MapThrough(PhotoOps(offset, scale, k, false, w, h), Point(k * q.x, k * q.y)) == Point(k * pv.x, k * pv.y)
  {
    PhotoOpsMeaning(offset, scale, k, false, w, h, Point(k * q.x, k * q.y));
    var pv := PreviewPoint(q, offset, scale, boxW, boxH);
    ZoomCommutesWithScaling(k, boxW / 2.0, w / 2.0, offset.x, scale, q.x, pv.x);
    ZoomCommutesWithScaling(k, boxH / 2.0, h / 2.0, offset.y, scale, q.y, pv.y);
  }

  /** The preview box: `editorW` wide with the frame's aspect ratio is the canvas shrunk by the conversion factor. */
  lemma PreviewBoxIsShrunkCanvas(editorW: real, w: real, h: real)
    requires editorW > 0.0 && w > 0.0
    ensures EditorToCanvasScale(w, editorW) * editorW == w
    ensures EditorToCanvasScale(w, editorW) * (editorW * h / w) == h
  {
    var k := EditorToCanvasScale(w, editorW);
    var boxH := editorW * h / w;
    assert boxH * w == editorW * h;
    assert k * boxH * w == (k * editorW) * h;
  }

  /** Scaling by k after a zoom about c and a pan by o is the zoom about k c after a pan by k o. */
  lemma ZoomCommutesWithScaling(k: real, c: real, kc: real, o: real, s: real, q: real, v: real)
    requires k * c == kc && v == c + o + s * (q - c)
    ensures k * v == kc + s * (k * q - kc) + k * o
  {
    assert k * (s * (q - c)) == s * (k * q - k * c);
  }

  /** A 50 pixel pan in a 400 pixel wide preview moves the photo 135 canvas pixels. */
  lemma PanConversionExample()
    ensures Point(50.0, 50.0).x * EditorToCanvasScale(1080.0, 400.0) == 135.0
  {
    assert EditorToCanvasScale(1080.0, 400.0) == 2.7;
  }

  /** `window.devicePixelRatio || 1`: an unreported (zero) ratio counts as 1. */
  function EffectiveDpr(reported: real): (r: real)
    requires reported >= 0.0
    ensures r > 0.0
    ensures reported > 0.0 ==> r == reported
  {
    if reported == 0.0 then 1.0 else reported
  }

  /** The defaults of the canvas's `width` and `height` attributes. */
  const CANVAS_DEFAULT_WIDTH := 300
  const CANVAS_DEFAULT_HEIGHT := 150

  /**
   * A value assigned to `canvas.width` or `canvas.height`, a reflected
   * unsigned long: the fraction is dropped and the rest taken modulo 2^32,
   * and a result above 2^31 - 1 is replaced by the attribute's default.
   */
  function CanvasDimension(v: real, default: int): (n: int)
    requires v >= 0.0 && 0 <= default < 0x8000_0000
    ensures 0 <= n < 0x8000_0000
    ensures v < 0x8000_0000 as real ==> n as real <= v < n as real + 1.0
    ensures 0x8000_0000 as real <= v < 0x1_0000_0000 as real ==> n == default
  {
    var m := v.Floor % 0x1_0000_0000;
    if m < 0x8000_0000 then m else default
  }

  /** A post frame at a device pixel ratio of 1.25 gets a 1350 x 1687 canvas: 1687.5 rows are truncated. */
  lemma CanvasDimensionTruncates()
    ensures CanvasDimension(1080.0 * 1.25, CANVAS_DEFAULT_WIDTH) == 1350
    ensures CanvasDimension(1350.0 * 1.25, CANVAS_DEFAULT_HEIGHT) == 1687
  {
  }

  /** A width of 1080 x 2000000 pixels is over 2^31 - 1, so the canvas keeps its default width of 300. */
  lemma CanvasDimensionFallsBack()
    ensures CanvasDimension(1080.0 * 2000000.0, CANVAS_DEFAULT_WIDTH) == 300
  {
  }

  /** Every call the export makes on its canvas, in order. */
  function ExportProgram(spec: Spec, dpr: real, k: real, offset: Point, scale: real, mirrored: bool, crop: Rect): seq<Op>
  {
    ExportHead(spec, dpr) + PhotoOps(offset, scale, k, mirrored, spec.width, spec.height) + ExportTail(spec, crop)
  }

  /** Device pixel ratio scaling, the backdrop, and the `save` before the photo's transform. */
  function ExportHead(spec: Spec, dpr: real): seq<Op>
  {
    [Scale(dpr, dpr)] + ([Draw(Fill(BACKDROP), FullFrame(spec))] + [Save])
  }

  /** The photo, the `restore` that drops its transform, and the overlay on top. */
  function ExportTail(spec: Spec, crop: Rect): seq<Op>
  {
    [Draw(Photo(crop), FullFrame(spec))] + ([Restore] + [Draw(Overlay(spec.overlay), FullFrame(spec))])
  }

  /**
   * What an export canvas shows: exactly three draws, each over the whole
   * frame. First the backdrop and last the overlay, both placed only by the
   * device pixel ratio; between them the cropped photo, placed by the
   * device pixel ratio applied after PhotoPoint. Nothing stays saved.
   */
  ghost predicate ExportMeaning(ops: seq<Op>, spec: Spec, dpr: real, k: real, offset: Point, scale: real, mirrored: bool, crop: Rect)
  {
    var t := Run(ops, Blank());
    |t.draws| == 3 && t.final.saved == []
    && t.draws[0].paint == Fill(BACKDROP) && t.draws[1].paint == Photo(crop) && t.draws[2].paint == Overlay(spec.overlay)
    && t.draws[0].dest == t.draws[1].dest == t.draws[2].dest == FullFrame(spec)
    && t.draws[2].transform == t.draws[0].transform
    && (forall p :: Apply(t.draws[0].transform, p) == Point(dpr * p.x, dpr * p.y))
    && (forall p :: Apply(t.draws[1].transform, p) ==
          Point(dpr * PhotoPoint(p, offset, scale, k, mirrored, spec.width, spec.height).x,
                dpr * PhotoPoint(p, offset, scale, k, mirrored, spec.width, spec.height).y))
  }

  lemma ExportHeadRun(spec: Spec, dpr: real)
    ensures var d := Step(Scale(dpr, dpr), Blank()).matrix;
            Run(ExportHead(spec, dpr), Blank()) == Trace([Drawn(Fill(BACKDROP), d, FullFrame(spec))], State(d, [d]))
  {
    var zoom, fill := Scale(dpr, dpr), Draw(Fill(BACKDROP), FullFrame(spec));
    var s1 := Step(zoom, Blank());
    RunSingle(zoom, Blank());
    RunSingle(fill, s1);
    RunSingle(Save, s1);
    RunAppend([fill], [Save], s1);
    RunAppend([zoom], [fill] + [Save], Blank());
  }

  lemma ExportTailRun(spec: Spec, crop: Rect, m: Affine, d: Affine)
    ensures Run(ExportTail(spec, crop), State(m, [d])) ==
            Trace([Drawn(Photo(crop), m, FullFrame(spec)), Drawn(Overlay(spec.overlay), d, FullFrame(spec))], State(d, []))
  {
    var photo, overlay := Draw(Photo(crop), FullFrame(spec)), Draw(Overlay(spec.overlay), FullFrame(spec));
    var s := State(m, [d]);
    RunSingle(photo, s);
    RunSingle(Restore, s);
    assert Step(Restore, s) == State(d, []);
    RunSingle(overlay, State(d, []));
    RunAppend([Restore], [overlay], s);
    RunAppend([photo], [Restore] + [overlay], s);
  }

  lemma ExportDraws(spec: Spec, dpr: real, k: real, offset: Point, scale: real, mirrored: bool, crop: Rect)
    ensures ExportMeaning(ExportProgram(spec, dpr, k, offset, scale, mirrored, crop), spec, dpr, k, offset, scale, mirrored, crop)
  {
    var head, tail := ExportHead(spec, dpr), ExportTail(spec, crop);
    var mid := PhotoOps(offset, scale, k, mirrored, spec.width, spec.height);
    var d := Step(Scale(dpr, dpr), Blank()).matrix;
    ExportHeadRun(spec, dpr);
    RunTransforms(mid, State(d, [d]));
    var s2 := Run(mid, State(d, [d])).final;
    ExportTailRun(spec, crop, s2.matrix, d);
    RunAppend(head, mid, Blank());
    RunAppend(head + mid, tail, Blank());
    var t := Run(ExportProgram(spec, dpr, k, offset, scale, mirrored, crop), Blank());
    assert t.draws == [Drawn(Fill(BACKDROP), d, FullFrame(spec)), Drawn(Photo(crop), s2.matrix, FullFrame(spec)), Drawn(Overlay(spec.overlay), d, FullFrame(spec))];
    assert t.final.saved == [];
    forall p ensures Apply(d, p) == Point(dpr * p.x, dpr * p.y) {
    }
    forall p ensures Apply(s2.matrix, p) == Point(dpr * PhotoPoint(p, offset, scale, k, mirrored, spec.width, spec.height).x,
                                                   dpr * PhotoPoint(p, offset, scale, k, mirrored, spec.width, spec.height).y)
    {
      PhotoOpsMeaning(offset, scale, k, mirrored, spec.width, spec.height, p);
    }
  }

  /** What a download hands to the browser: the frame, the canvas size, the conversion factor and the calls. */
  datatype Export = Export(spec: Spec, canvas: Size, editorToCanvas: real, program: seq<Op>)

  /** Every state field and ref of the editor, and its two props. */
  datatype View = View(
    imageSrc: Option<string>, facingMode: string,
    offset: Point, dragging: bool, startPos: Point,
    editable: bool, finished: bool, currentFrame: string,
    scale: real, isPinching: bool, initialPinchDistance: real, initialScale: real)

  class PhotoMaskEditor {
    // props
    var imageSrc: Option<string>
    var facingMode: string
    // state
    var offset: Point
    var dragging: bool
    var startPos: Point
    var editable: bool
    var finished: bool
    var currentFrame: string
    var scale: real
    var isPinching: bool
    // refs
    var initialPinchDistance: real
    var initialScale: real

    function Snapshot(): View
      reads this
    {
      View(imageSrc, facingMode, offset, dragging, startPos, editable, finished, currentFrame,
           scale, isPinching, initialPinchDistance, initialScale)
    }

    /** Both zoom values stay in the limits, a pinch has a positive baseline, a finished editor is locked. */
    ghost predicate Valid()
      reads this
    {
      SCALE_MIN <= scale <= SCALE_MAX && SCALE_MIN <= initialScale <= SCALE_MAX
      && (isPinching ==> initialPinchDistance > 0.0)
      && (finished ==> !editable)
    }

    /**
     * Mounting: initial state, then the image source effect for the first
     * `imageSrc`. An omitted `facingMode` prop (`None`) defaults to the back camera.
     */
    constructor (src: Option<string>, facing: Option<string>)
      ensures Valid()
      ensures Snapshot() == View(src, if facing.Some? then facing.value else BACK_CAMERA,
                                 Point(0.0, 0.0), false, Point(0.0, 0.0),
                                 Present(src), false, POST_ID, 1.0, false, 0.0, 1.0)
    {
      imageSrc := src;
      facingMode := if facing.Some? then facing.value else BACK_CAMERA;
      offset, dragging, startPos := Point(0.0, 0.0), false, Point(0.0, 0.0);
      editable, finished, currentFrame := false, false, POST_ID;
      scale, isPinching := 1.0, false;
      initialPinchDistance, initialScale := 0.0, 1.0;
      if Present(src) {
        editable := true;
      }
    }

    /**
     * A new `imageSrc` prop. The effect runs only when the value differs from
     * the previous one, and resets the transform only for a present source.
     */
    method SetImageSource(src: Option<string>)
      requires Valid()
      modifies this
      ensures Valid()
      ensures src != old(imageSrc) && Present(src) ==>
                Snapshot() == old(Snapshot()).(imageSrc := src, editable := true, finished := false,
                                               offset := Point(0.0, 0.0), scale := 1.0, initialScale := 1.0)
      ensures !(src != old(imageSrc) && Present(src)) ==> Snapshot() == old(Snapshot()).(imageSrc := src)
    {
      var changed := src != imageSrc;
      imageSrc := src;
      if changed && Present(src) {
        editable, finished := true, false;
        offset, scale := Point(0.0, 0.0), 1.0;
        initialScale := 1.0;
      }
    }

    /** Mouse press: start dragging, anchored at the pointer minus the current offset. */
    method MouseDown(client: Point)
      requires Valid()
      modifies this
      ensures Valid()
      ensures old(editable) ==> Snapshot() == old(Snapshot()).(dragging := true,
                                  startPos := Point(client.x - old(offset).x, client.y - old(offset).y))
      ensures !old(editable) ==> Snapshot() == old(Snapshot())
    {
      if !editable {
        return;
      }
      dragging := true;
      startPos := Point(client.x - offset.x, client.y - offset.y);
    }

    /** Mouse move while dragging: the offset follows the pointer, relative to the anchor. */
    method MouseMove(client: Point)
      requires Valid()
      modifies this
      ensures Valid()
      ensures old(dragging) && old(editable) ==>
                Snapshot() == old(Snapshot()).(offset := Point(client.x - old(startPos).x, client.y - old(startPos).y))
      ensures !(old(dragging) && old(editable)) ==> Snapshot() == old(Snapshot())
    {
      if !dragging || !editable {
        return;
      }
      offset := Point(client.x - startPos.x, client.y - startPos.y);
    }

    /** Mouse release or the pointer leaving the editor. */
    method MouseUp()
      requires Valid()
      modifies this
      ensures Valid()
      ensures Snapshot() == old(Snapshot()).(dragging := false)
    {
      dragging := false;
    }

    /** One wheel notch: zoom out on positive deltaY, in otherwise, within the limits. */
    method Wheel(deltaY: real)
      requires Valid()
      modifies this
      ensures Valid()
      ensures old(editable) && deltaY > 0.0 ==> Snapshot() == old(Snapshot()).(scale := ClampScale(old(scale) - WHEEL_STEP))
      ensures old(editable) && deltaY <= 0.0 ==> Snapshot() == old(Snapshot()).(scale := ClampScale(old(scale) + WHEEL_STEP))
      ensures !old(editable) ==> Snapshot() == old(Snapshot())
    {
      if !editable {
        return;
      }
      scale := ClampScale(scale + WheelDelta(deltaY));
    }

    /**
     * Touch start with `count` fingers, the first at `first`, the first two
     * `spread` apart. Two fingers start a pinch (cancelling any drag), one
     * finger starts a drag; other counts change nothing.
     */
    method TouchStart(count: nat, first: Point, spread: real)
      requires Valid()
      requires count == 2 ==> spread > 0.0
      modifies this
      ensures Valid()
      ensures old(editable) && count == 2 ==>
                Snapshot() == old(Snapshot()).(isPinching := true, dragging := false,
                                               initialPinchDistance := spread, initialScale := old(scale))
      ensures old(editable) && count == 1 ==>
                Snapshot() == old(Snapshot()).(dragging := true, isPinching := false,
                                               startPos := Point(first.x - old(offset).x, first.y - old(offset).y))
      ensures !old(editable) || (count != 1 && count != 2) ==> Snapshot() == old(Snapshot())
    {
      if !editable {
        return;
      }
      if count == 2 {
        isPinching, dragging := true, false;
        initialPinchDistance := spread;
        initialScale := scale;
      } else if count == 1 {
        dragging, isPinching := true, false;
        startPos := Point(first.x - offset.x, first.y - offset.y);
      }
    }

    /** Touch move: a two-finger pinch rescales from the pinch baseline; a one-finger drag pans. */
    method TouchMove(count: nat, first: Point, spread: real)
      requires Valid()
      modifies this
      ensures Valid()
      ensures old(editable) && old(isPinching) && count == 2 ==>
                Snapshot() == old(Snapshot()).(scale := PinchScale(old(initialScale), old(initialPinchDistance), spread))
      ensures old(editable) && !(old(isPinching) && count == 2) && old(dragging) && count == 1 ==>
                Snapshot() == old(Snapshot()).(offset := Point(first.x - old(startPos).x, first.y - old(startPos).y))
      ensures !old(editable) || (!(old(isPinching) && count == 2) && !(old(dragging) && count == 1)) ==>
                Snapshot() == old(Snapshot())
    {
      if !editable {
        return;
      }
      if isPinching && count == 2 {
        scale := PinchScale(initialScale, initialPinchDistance, spread);
      } else if dragging && count == 1 {
        offset := Point(first.x - startPos.x, first.y - startPos.y);
      }
    }

    /** Touch end: no drag and no pinch survive it; the current zoom becomes the next pinch baseline. */
    method TouchEnd()
      requires Valid()
      modifies this
      ensures Valid()
      ensures Snapshot() == old(Snapshot()).(dragging := false, isPinching := false, initialScale := old(scale))
    {
      dragging, isPinching := false, false;
      initialScale := scale;
    }

    /** The "Feed" and "Story" buttons: switch the frame variant, keeping the pan and zoom. */
    method SelectFrame(id: string)
      requires Valid()
      modifies this
      ensures Valid()
      ensures Snapshot() == old(Snapshot()).(currentFrame := id)
    {
      currentFrame := id;
    }

    /** The "Selesai" button: editing ends and the download becomes available. */
    method Finish()
      requires Valid()
      modifies this
      ensures Valid()
      ensures Snapshot() == old(Snapshot()).(editable := false, finished := true)
    {
      editable, finished := false, true;
    }

    /**
     * The download: nothing without an image source. Otherwise the canvas is
     * the frame size times the device pixel ratio, the pan is converted by
     * frame width over preview width, and the calls draw backdrop, the
     * cover-cropped photo under pan, zoom and (front camera) mirror, and the
     * untransformed overlay. `editorWidth` is the measured preview width,
     * `photoW` x `photoH` the decoded photo's natural size.
     */
    method Download(editorWidth: real, photoW: real, photoH: real, reportedDpr: real) returns (out: Option<Export>)
      requires editorWidth > 0.0 && photoW > 0.0 && photoH > 0.0 && reportedDpr >= 0.0
      ensures out.Some? <==> Present(imageSrc)
      ensures out.Some? ==>
                var spec := FrameSpec(currentFrame);
                var dpr := EffectiveDpr(reportedDpr);
                out.value.spec == spec
                && out.value.canvas == Size(CanvasDimension(spec.width * dpr, CANVAS_DEFAULT_WIDTH) as real,
                                            CanvasDimension(spec.height * dpr, CANVAS_DEFAULT_HEIGHT) as real)
                && out.value.editorToCanvas * editorWidth == spec.width
                && ExportMeaning(out.value.program, spec, dpr, out.value.editorToCanvas, offset, scale,
                                 facingMode == FRONT_CAMERA, CoverCrop(photoW, photoH, spec.width, spec.height))
    {
      if !Present(imageSrc) {
        return None;
      }
      var spec := FrameSpec(currentFrame);
      var dpr := EffectiveDpr(reportedDpr);
      var k := EditorToCanvasScale(spec.width, editorWidth);
      var crop := CoverCrop(photoW, photoH, spec.width, spec.height);
      var mirrored := facingMode == FRONT_CAMERA;
      var program := ExportProgram(spec, dpr, k, offset, scale, mirrored, crop);
      assert ExportMeaning(program, spec, dpr, k, offset, scale, mirrored, crop) by {
        ExportDraws(spec, dpr, k, offset, scale, mirrored, crop);
      }
      var canvas := Size(CanvasDimension(spec.width * dpr, CANVAS_DEFAULT_WIDTH) as real,
                         CanvasDimension(spec.height * dpr, CANVAS_DEFAULT_HEIGHT) as real);
      out := Some(Export(spec, canvas, k, program));
    }
  }

  /** Pressing, moving away and moving back to the press point restores the offset from before the press. */
  method DragThereAndBack(e: PhotoMaskEditor, press: Point, away: Point)
    requires e.Valid() && e.editable
    modifies e
  {
    var before := e.offset;
    e.MouseDown(press);
    e.MouseMove(away);
    e.MouseMove(press);
    assert e.offset == before;
    e.MouseUp();
    assert !e.dragging && e.offset == before;
  }

  /** Two fingers down, then released: the editor is neither pinching nor dragging afterwards. */
  method PinchRelease(e: PhotoMaskEditor, first: Point, spread: real, later: real)
    requires e.Valid() && e.editable && spread > 0.0
    modifies e
  {
    e.TouchStart(2, first, spread);
    e.TouchMove(2, first, later);
    assert SCALE_MIN <= e.scale <= SCALE_MAX;
    e.TouchEnd();
    assert !e.isPinching && !e.dragging && e.initialScale == e.scale;
    e.TouchMove(1, first, 0.0);
    assert !e.dragging;
  }

  /** After "Selesai" no gesture moves or zooms the photo. */
  method FinishLocks(e: PhotoMaskEditor, p: Point, deltaY: real)
    requires e.Valid()
    modifies e
  {
    e.Finish();
    var offset, scale := e.offset, e.scale;
    e.MouseDown(p);
    e.MouseMove(p);
    e.Wheel(deltaY);
    e.TouchStart(1, p, 0.0);
    e.TouchMove(1, p, 0.0);
    assert e.offset == offset && e.scale == scale && !e.editable;
  }
}
