/** A model of the parts of an HTML canvas and its 2D context that label
    rendering uses: the element's size, the drawing state (fill colour, font
    size, alignment, baseline, current transform), the stack that `save` and
    `restore` work on, and the list of drawing commands issued since the
    bitmap was last cleared. Pixels themselves are not modelled. */
module Canvas {

  datatype Colour = Black | White
  datatype TextAlign = Start | Center
  datatype TextBaseline = Alphabetic | Middle

  datatype Point = Point(x: real, y: real)

  /** A current transformation matrix made of a rotation by a whole number of
      quarter turns (clockwise on the y-down canvas) followed by a translation.
      Translations and quarter-turn rotations keep a matrix of this form. */
  datatype Transform = Transform(quarterTurns: int, dx: real, dy: real)

  const Identity: Transform := Transform(0, 0.0, 0.0)

  /** `p` rotated clockwise by `k` quarter turns about the origin. */
  function Turn(p: Point, k: int): Point {
    var r := k % 4;
    if r == 0 then p
    else if r == 1 then Point(-p.y, p.x)
    else if r == 2 then Point(-p.x, -p.y)
    else Point(p.y, -p.x)
  }

  /** Where the point `p` of user space lands on the bitmap under `m`. */
  function Apply(m: Transform, p: Point): Point {
    var q := Turn(p, m.quarterTurns);
    Point(q.x + m.dx, q.y + m.dy)
  }

  /** The matrix after `translate(x, y)`. */
  function Translated(m: Transform, x: real, y: real): Transform {
    var o := Apply(m, Point(x, y));
    Transform(m.quarterTurns, o.x, o.y)
  }

  /** The matrix after a rotation by `q` quarter turns. */
  function Rotated(m: Transform, q: int): Transform {
    Transform(m.quarterTurns + q, m.dx, m.dy)
  }

  /** Quarter turns add up. */
  lemma TurnCompose(p: Point, k: int, q: int)
    ensures Turn(Turn(p, q), k) == Turn(p, k + q)
  {
    var a, b := k % 4, q % 4;
    assert k == 4 * (k / 4) + a && q == 4 * (q / 4) + b;
    assert (k + q) % 4 == (a + b) % 4 by {
      assert k + q == 4 * (k / 4 + q / 4) + (a + b);
    }
  }

  /** The identity matrix moves nothing. */
  lemma ApplyIdentity(p: Point)
    ensures Apply(Identity, p) == p
  {
  }

  /** `translate(x, y)` shifts user space by `(x, y)` before the old matrix. */
  lemma ApplyTranslated(m: Transform, x: real, y: real, p: Point)
    ensures Apply(Translated(m, x, y), p) == Apply(m, Point(p.x + x, p.y + y))
  {
  }

  /** A rotation by `q` quarter turns turns user space before the old matrix. */
  lemma ApplyRotated(m: Transform, q: int, p: Point)
    ensures Apply(Rotated(m, q), p) == Apply(m, Turn(p, q))
  {
    TurnCompose(p, m.quarterTurns, q);
  }

  /** The part of the context state that `save` pushes and `restore` pops. */
  datatype DrawState = DrawState(
    fill: Colour,
    fontPx: int,
    align: TextAlign,
    baseline: TextBaseline,
    transform: Transform)

  /** A freshly acquired or reset context: black fill, a 10px font, `start`
      alignment, `alphabetic` baseline and the identity matrix. */
  const DefaultState: DrawState := DrawState(Black, 10, Start, Alphabetic, Identity)

  /** A drawing command with everything that decides what it paints. */
  datatype DrawOp =
    | PaintRect(x: real, y: real, w: real, h: real, colour: Colour, matrix: Transform)
    | PaintText(text: string, x: real, y: real, state: DrawState)

  /** What `toDataURL` encodes: the size and the commands painted so far. */
  datatype Bitmap = Bitmap(width: int, height: int, ops: seq<DrawOp>)

  /** An HTML canvas element together with its 2D context, when the host
      provides one. */
  class Canvas {
    const hasContext: bool
    var width: int
    var height: int
    var ops: seq<DrawOp>
    var state: DrawState
    var stack: seq<DrawState>

    function Snapshot(): Bitmap
      reads this
    {
      Bitmap(width, height, ops)
    }

    /** `document.createElement('canvas')`: 300 by 150, empty, default state.
        `hasContext` says whether `getContext('2d')` will succeed. */
    constructor (hasContext: bool)
      ensures this.hasContext == hasContext
      ensures width == 300 && height == 150
      ensures ops == [] && state == DefaultState && stack == []
    {
      this.hasContext := hasContext;
      width, height := 300, 150;
      ops, state, stack := [], DefaultState, [];
    }

    /** Assigning `width` clears the bitmap and resets the context state,
        including the save stack, even when the value is unchanged. */
    method SetWidth(w: int)
      modifies this
      ensures width == w && height == old(height)
      ensures ops == [] && state == DefaultState && stack == []
    {
      width := w;
      ops, state, stack := [], DefaultState, [];
    }

    /** Assigning `height` behaves like assigning `width`. */
    method SetHeight(h: int)
      modifies this
      ensures height == h && width == old(width)
      ensures ops == [] && state == DefaultState && stack == []
    {
      height := h;
      ops, state, stack := [], DefaultState, [];
    }

    method SetFillStyle(c: Colour)
      requires hasContext
      modifies this`state
      ensures state == old(state).(fill := c)
    {
      state := state.(fill := c);
    }

    method SetFont(px: int)
      requires hasContext
      modifies this`state
      ensures state == old(state).(fontPx := px)
    {
      state := state.(fontPx := px);
    }

    method SetTextAlign(a: TextAlign)
      requires hasContext
      modifies this`state
      ensures state == old(state).(align := a)
    {
      state := state.(align := a);
    }

    method SetTextBaseline(b: TextBaseline)
      requires hasContext
      modifies this`state
      ensures state == old(state).(baseline := b)
    {
      state := state.(baseline := b);
    }

    method FillRect(x: real, y: real, w: real, h: real)
      requires hasContext
      modifies this`ops
      ensures ops == old(ops) + [PaintRect(x, y, w, h, state.fill, state.transform)]
    {
      ops := ops + [PaintRect(x, y, w, h, state.fill, state.transform)];
    }

    method FillText(text: string, x: real, y: real)
      requires hasContext
      modifies this`ops
      ensures ops == old(ops) + [PaintText(text, x, y, state)]
    {
      ops := ops + [PaintText(text, x, y, state)];
    }

    /** `save()`: push the whole drawing state. */
    method Save()
      requires hasContext
      modifies this`stack
      ensures stack == old(stack) + [state]
    {
      stack := stack + [state];
    }

    /** `restore()`: pop the most recently saved state; with nothing saved it
        does nothing. */
    method Restore()
      requires hasContext
      modifies this`stack, this`state
      ensures old(stack) == [] ==> stack == [] && state == old(state)
      ensures old(stack) != [] ==>
        stack == old(stack)[..|old(stack)| - 1] && state == old(stack)[|old(stack)| - 1]
    {
      if stack != [] {
        state := stack[|stack| - 1];
        stack := stack[..|stack| - 1];
      }
    }

    method Translate(x: real, y: real)
      requires hasContext
      modifies this`state
      ensures state == old(state).(transform := Translated(old(state).transform, x, y))
    {
      state := state.(transform := Translated(state.transform, x, y));
    }

    /** `rotate(k * Math.PI / 2)`. */
    method RotateQuarterTurns(k: int)
      requires hasContext
      modifies this`state
      ensures state == old(state).(transform := Rotated(old(state).transform, k))
    {
      state := state.(transform := Rotated(state.transform, k));
    }
  }
}
