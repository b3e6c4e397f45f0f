/**
 * The part of the browser's 2D drawing context that the export code relies on:
 * a current transformation matrix, a stack of saved matrices, and draw calls
 * that are placed through the matrix current at the time of the call.
 */
module Canvas {
  import opened Common
  import opened Crop

  /** The matrix [a c e; b d f; 0 0 1], as the 2D context stores it. */
  datatype Affine = Affine(a: real, b: real, c: real, d: real, e: real, f: real)

  function Apply(m: Affine, p: Point): Point
  {
    Point(m.a * p.x + m.c * p.y + m.e, m.b * p.x + m.d * p.y + m.f)
  }

  function Identity(): (r: Affine)
    ensures forall p :: Apply(r, p) == p
  {
    Affine(1.0, 0.0, 0.0, 1.0, 0.0, 0.0)
  }

  /** The product m * n: n is applied first, then m. */
  function Then(m: Affine, n: Affine): (r: Affine)
    ensures forall p :: Apply(r, p) == Apply(m, Apply(n, p))
  {
    Affine(m.a * n.a + m.c * n.b, m.b * n.a + m.d * n.b,
           m.a * n.c + m.c * n.d, m.b * n.c + m.d * n.d,
           m.a * n.e + m.c * n.f + m.e, m.b * n.e + m.d * n.f + m.f)
  }

  /** What gets painted by a draw call. */
  datatype Paint =
    | Fill(color: string)     // fillRect with the given fillStyle
    | Photo(crop: Rect)       // drawImage of the user's photo, source rectangle `crop`
    | Overlay(src: string)    // drawImage of the frame graphic loaded from `src`

  datatype Op =
    | Save
    | Restore
    | Translate(tx: real, ty: real)
    | Scale(sx: real, sy: real)
    | Draw(paint: Paint, dest: Rect)

  datatype State = State(matrix: Affine, saved: seq<Affine>)

  /** A fresh context: identity matrix, nothing saved. */
  function Blank(): State
  {
    State(Identity(), [])
  }

  /** A draw call as it lands on the surface: what, through which matrix, where. */
  datatype Drawn = Drawn(paint: Paint, transform: Affine, dest: Rect)

  datatype Trace = Trace(draws: seq<Drawn>, final: State)

  /** Translation and scaling post-multiply the current matrix; `restore` with nothing saved does nothing. */
  function Step(op: Op, s: State): State
  {
    match op
    case Save => State(s.matrix, [s.matrix] + s.saved)
    case Restore => if s.saved == [] then s else State(s.saved[0], s.saved[1..])
    case Translate(tx, ty) => State(Then(s.matrix, Affine(1.0, 0.0, 0.0, 1.0, tx, ty)), s.saved)
    case Scale(sx, sy) => State(Then(s.matrix, Affine(sx, 0.0, 0.0, sy, 0.0, 0.0)), s.saved)
    case Draw(_, _) => s
  }

  function Emit(op: Op, s: State): seq<Drawn>
  {
    if op.Draw? then [Drawn(op.paint, s.matrix, op.dest)] else []
  }

  /** Runs the calls in order, collecting what is drawn. */
  function Run(ops: seq<Op>, s: State): Trace
    decreases |ops|
  {
    if ops == [] then Trace([], s)
    else
      var t := Run(ops[1..], Step(ops[0], s));
      Trace(Emit(ops[0], s) + t.draws, t.final)
  }

  /** Running two call lists one after the other is running their concatenation. */
  lemma {:induction false} RunAppend(a: seq<Op>, b: seq<Op>, s: State)
    ensures Run(a + b, s).draws == Run(a, s).draws + Run(b, Run(a, s).final).draws
    ensures Run(a + b, s).final == Run(b, Run(a, s).final).final
    decreases |a|
  {
    if a == [] {
      assert a + b == b;
    } else {
      assert (a + b)[1..] == a[1..] + b;
      RunAppend(a[1..], b, Step(a[0], s));
    }
  }

  predicate TransformOnly(ops: seq<Op>)
  {
    forall i :: 0 <= i < |ops| ==> ops[i].Translate? || ops[i].Scale?
  }

  /** A point under one translation or scaling call. */
  function OpPoint(op: Op, q: Point): Point
    requires op.Translate? || op.Scale?
  {
    match op
    case Translate(tx, ty) => Point(q.x + tx, q.y + ty)
    case Scale(sx, sy) => Point(sx * q.x, sy * q.y)
  }

  /**
   * Where a point given in the coordinates of the last call ends up in the
   * coordinates before the first call: the calls act on it last to first.
   */
  function MapThrough(ops: seq<Op>, p: Point): Point
    requires TransformOnly(ops)
    decreases |ops|
  {
    if ops == [] then p else OpPoint(ops[0], MapThrough(ops[1..], p))
  }

  lemma MapThroughSingle(op: Op, p: Point)
    requires op.Translate? || op.Scale?
    ensures TransformOnly([op]) && MapThrough([op], p) == OpPoint(op, p)
  {
    assert [op][1..] == [];
  }

  /** A block of transform calls acts on a point after the block that follows it. */
  lemma {:induction false} MapThroughAppend(a: seq<Op>, b: seq<Op>, p: Point)
    requires TransformOnly(a) && TransformOnly(b)
    ensures TransformOnly(a + b)
    ensures MapThrough(a + b, p) == MapThrough(a, MapThrough(b, p))
    decreases |a|
  {
    assert TransformOnly(a + b) by {
      forall i | 0 <= i < |a + b| ensures (a + b)[i].Translate? || (a + b)[i].Scale? {
        if i < |a| { assert (a + b)[i] == a[i]; } else { assert (a + b)[i] == b[i - |a|]; }
      }
    }
    if a == [] {
      assert a + b == b;
    } else {
      assert (a + b)[1..] == a[1..] + b;
      assert TransformOnly(a[1..]) by {
        forall i | 0 <= i < |a[1..]| ensures a[1..][i].Translate? || a[1..][i].Scale? {
          assert a[1..][i] == a[i + 1];
        }
      }
      MapThroughAppend(a[1..], b, p);
    }
  }

  lemma RunSingle(op: Op, s: State)
    ensures Run([op], s) == Trace(Emit(op, s), Step(op, s))
  {
    assert [op][1..] == [];
  }

  /** Transform calls draw nothing, leave the saved stack alone, and compose onto the current matrix. */
  lemma {:induction false} RunTransforms(ops: seq<Op>, s: State)
    requires TransformOnly(ops)
    ensures Run(ops, s).draws == []
    ensures Run(ops, s).final.saved == s.saved
    ensures forall p :: Apply(Run(ops, s).final.matrix, p) == Apply(s.matrix, MapThrough(ops, p))
    decreases |ops|
  {
    if ops != [] {
      assert TransformOnly(ops[1..]) by {
        forall i | 0 <= i < |ops[1..]| ensures ops[1..][i].Translate? || ops[1..][i].Scale? {
          assert ops[1..][i] == ops[i + 1];
        }
      }
      var s' := Step(ops[0], s);
      RunTransforms(ops[1..], s');
      forall p ensures Apply(Run(ops, s).final.matrix, p) == Apply(s.matrix, MapThrough(ops, p)) {
        var q := MapThrough(ops[1..], p);
        assert Apply(Run(ops, s).final.matrix, p) == Apply(s'.matrix, q);
        StepMatrix(ops[0], s, q);
      }
    }
  }

  /** One translation or scaling call moves points as OpPoint says, before the matrix already current. */
  lemma StepMatrix(op: Op, s: State, q: Point)
    requires op.Translate? || op.Scale?
    ensures Apply(Step(op, s).matrix, q) == Apply(s.matrix, OpPoint(op, q))
  {
    match op
    case Translate(tx, ty) =>
      assert Apply(Affine(1.0, 0.0, 0.0, 1.0, tx, ty), q) == OpPoint(op, q);
    case Scale(sx, sy) =>
      assert Apply(Affine(sx, 0.0, 0.0, sy, 0.0, 0.0), q) == OpPoint(op, q);
  }

  /** `save`, then transform calls, then `restore` brings back the matrix from before the `save`. */
  lemma SaveTransformsRestore(ops: seq<Op>, s: State)
    requires TransformOnly(ops)
    ensures Run([Save] + ops + [Restore], s) == Trace([], s)
  {
    var s1 := Step(Save, s);
    RunAppend([Save], ops, s);
    RunAppend([Save] + ops, [Restore], s);
    RunTransforms(ops, s1);
    assert Run([Save], s).final == s1;
  }
}
