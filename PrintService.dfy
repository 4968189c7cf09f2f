/** services/printService.ts: the label renderer `generatePrintImage` and the
    dispatcher `sendToRawBT`. The renderer draws on the canvas model of
    module Canvas; the encoding of the finished bitmap (`toDataURL`) is an
    uninterpreted function supplied by the caller. The dispatcher's effects on
    the host (navigating to a `rawbt:` URL, waiting on a timer) are recorded
    as events on a trace. */
module PrintService {
  import opened Wrappers
  import opened Settings
  import opened Canvas

  /** Raster width of a 58 mm thermal roll, in device pixels. */
  const RollWidth: int := 384
  /** Canvas height used for vertical labels. */
  const VerticalHeight: int := 400
  /** Pixels of margin setting per padding space. */
  const MarginPerSpace: int := 5
  /** Pause after a hand-off when several copies are printed, in ms. */
  const PacingMs: int := 1200

  // ---------------------------------------------------------------------
  // Layout decisions
  // ---------------------------------------------------------------------

  /** `Math.max(0, Math.floor(marginHorizontal / 5))`. */
  function PadLength(margin: int): (n: nat)
    ensures margin >= 0 ==> MarginPerSpace * n <= margin < MarginPerSpace * (n + 1)
    ensures margin < MarginPerSpace ==> n == 0
  {
    var q := margin / MarginPerSpace;
    if q < 0 then 0 else q
  }

  /** `" ".repeat(n)`. */
  function Spaces(n: nat): (r: string)
    ensures |r| == n
    ensures forall i :: 0 <= i < n ==> r[i] == ' '
  {
    seq(n, _ => ' ')
  }

  /** The text actually drawn: the same run of spaces on both sides. */
  function PaddedText(text: string, margin: int): (r: string)
    ensures |r| == |text| + 2 * PadLength(margin)
    ensures r[PadLength(margin)..PadLength(margin) + |text|] == text
    ensures forall i :: 0 <= i < PadLength(margin) ==> r[i] == ' '
    ensures forall i :: |r| - PadLength(margin) <= i < |r| ==> r[i] == ' '
  {
    var pad := Spaces(PadLength(margin));
    pad + text + pad
  }

  /** Canvas height for an orientation. */
  function CanvasHeight(s: PrintSettings): int {
    if s.orientation == Horizontal then s.canvasHeight else VerticalHeight
  }

  /** The drawing state in force when the label text is drawn on a freshly
      sized canvas: black, centred, middle baseline, the configured size. */
  function TextStyle(s: PrintSettings): DrawState {
    DefaultState.(fill := Black, align := Center, baseline := Middle, fontPx := s.fontSize)
  }

  /** The matrix of the vertical branch: move to the centre, then a quarter turn. */
  function VerticalMatrix(m: Transform, w: int, h: int): Transform {
    Rotated(Translated(m, w as real / 2.0, h as real / 2.0), 1)
  }

  /** What `generatePrintImage` leaves on the canvas before encoding it. */
  function LabelImage(text: string, s: PrintSettings): Bitmap {
    var w, h := RollWidth, CanvasHeight(s);
    var padded := PaddedText(text, s.marginHorizontal);
    var textOp :=
      if s.orientation == Horizontal then
        PaintText(padded, w as real / 2.0, h as real / 2.0 + s.verticalOffset as real, TextStyle(s))
      else
        PaintText(padded, 0.0, s.verticalOffset as real,
                  TextStyle(s).(transform := VerticalMatrix(Identity, w, h)));
    Bitmap(w, h, [PaintRect(0.0, 0.0, w as real, h as real, White, Identity), textOp])
  }

  /** Where on the bitmap a text command is anchored. */
  function Anchor(op: DrawOp): Point
    requires op.PaintText?
  {
    Apply(op.state.transform, Point(op.x, op.y))
  }

  /** The label's layout: canvas size per orientation; a white rectangle
      covering the whole canvas painted before anything else; then the padded
      text, in black, centred on its anchor, anchored at the centre shifted
      down by the offset (horizontal) or, turned a quarter turn clockwise, at
      the centre shifted left by the offset (vertical). */
  lemma LabelLayout(text: string, s: PrintSettings)
    ensures var b := LabelImage(text, s);
      && b.width == RollWidth
      && (s.orientation == Horizontal ==> b.height == s.canvasHeight)
      && (s.orientation == Vertical ==> b.height == VerticalHeight)
      && |b.ops| == 2
      && b.ops[0] == PaintRect(0.0, 0.0, b.width as real, b.height as real, White, Identity)
      && b.ops[1].PaintText?
      && b.ops[1].text == PaddedText(text, s.marginHorizontal)
      && b.ops[1].state.fill == Black && b.ops[1].state.fontPx == s.fontSize
      && b.ops[1].state.align == Center && b.ops[1].state.baseline == Middle
      && (s.orientation == Horizontal ==>
            && b.ops[1].state.transform.quarterTurns % 4 == 0
            && Anchor(b.ops[1]) == Point(b.width as real / 2.0, b.height as real / 2.0 + s.verticalOffset as real))
      && (s.orientation == Vertical ==>
            && b.ops[1].state.transform.quarterTurns % 4 == 1
            && Anchor(b.ops[1]) == Point(b.width as real / 2.0 - s.verticalOffset as real, b.height as real / 2.0))
  {
    var b := LabelImage(text, s);
    var p := Point(b.ops[1].x, b.ops[1].y);
    if s.orientation == Horizontal {
      ApplyIdentity(p);
    } else {
      var w, h := b.width as real, b.height as real;
      ApplyRotated(Translated(Identity, w / 2.0, h / 2.0), 1, p);
      ApplyTranslated(Identity, w / 2.0, h / 2.0, Turn(p, 1));
      ApplyIdentity(Point(Turn(p, 1).x + w / 2.0, Turn(p, 1).y + h / 2.0));
    }
  }

  /** The vertical branch: `save`, `translate` to the centre, `rotate` a
      quarter turn, draw at `(0, offset)`, `restore`. The save stack and the
      drawing state, current matrix included, are exactly as on entry. */
  method DrawRotated(canvas: Canvas, text: string, offset: int)
    requires canvas.hasContext
    modifies canvas
    ensures canvas.state == old(canvas.state) && canvas.stack == old(canvas.stack)
    ensures canvas.width == old(canvas.width) && canvas.height == old(canvas.height)
    ensures canvas.ops == old(canvas.ops) +
      [PaintText(text, 0.0, offset as real,
                 old(canvas.state).(transform := VerticalMatrix(old(canvas.state).transform, canvas.width, canvas.height)))]
  {
    canvas.Save();
    canvas.Translate(canvas.width as real / 2.0, canvas.height as real / 2.0);
    canvas.RotateQuarterTurns(1);
    canvas.FillText(text, 0.0, offset as real);
    canvas.Restore();
  }

  /** The renderer's result: the encoding of the label bitmap, or the empty
      string when no drawing context is available. */
  function RenderedImage(text: string, settings: PrintSettings, hasContext: bool, encode: Bitmap -> string): string {
    if hasContext then encode(LabelImage(text, settings)) else ""
  }

  /** `generatePrintImage`. It creates its own canvas; `hasContext` says
      whether the host hands out a 2D context for it. Without one the result
      is empty and nothing is drawn. With one, the canvas holds exactly
      `LabelImage(text, settings)` and no transform or saved state is left
      behind. The result is `RenderedImage`, a function of the inputs, so
      equal inputs give equal images. */
  method GeneratePrintImage(text: string, settings: PrintSettings, hasContext: bool, encode: Bitmap -> string)
    returns (image: string, canvas: Canvas)
    ensures fresh(canvas) && canvas.hasContext == hasContext
    ensures image == RenderedImage(text, settings, hasContext, encode)
    ensures !hasContext ==> canvas.ops == []
    ensures hasContext ==> canvas.Snapshot() == LabelImage(text, settings)
    ensures hasContext ==> canvas.stack == [] && canvas.state.transform == Identity
  {
    canvas := new Canvas(hasContext);
    if !canvas.hasContext {
      image := "";
      return;
    }
    if settings.orientation == Horizontal {
      canvas.SetWidth(RollWidth);
      canvas.SetHeight(settings.canvasHeight);
    } else {
      canvas.SetWidth(RollWidth);
      canvas.SetHeight(VerticalHeight);
    }
    canvas.SetFillStyle(White);
    canvas.FillRect(0.0, 0.0, canvas.width as real, canvas.height as real);

    var finalText := PaddedText(text, settings.marginHorizontal);
    canvas.SetFillStyle(Black);
    canvas.SetTextAlign(Center);
    canvas.SetTextBaseline(Middle);
    canvas.SetFont(settings.fontSize);

    if settings.orientation == Horizontal {
      canvas.FillText(finalText, canvas.width as real / 2.0,
                      canvas.height as real / 2.0 + settings.verticalOffset as real);
    } else {
      DrawRotated(canvas, finalText, settings.verticalOffset);
    }
    assert canvas.Snapshot() == LabelImage(text, settings);
    image := encode(canvas.Snapshot());
  }

  // ---------------------------------------------------------------------
  // Payload extraction
  // ---------------------------------------------------------------------

  /** `s.split(',')`: the fields between commas, one more than there are commas. */
  function SplitOnComma(s: string): (r: seq<string>)
    ensures |r| >= 1
    ensures forall i :: 0 <= i < |r| ==> ',' !in r[i]
  {
    if s == [] then [""]
    else
      var rest := SplitOnComma(s[1..]);
      if s[0] == ',' then [""] + rest else [[s[0]] + rest[0]] + rest[1..]
  }

  /** `fields.join(',')`. */
  function JoinWithComma(fields: seq<string>): string
    requires |fields| >= 1
  {
    if |fields| == 1 then fields[0] else fields[0] + "," + JoinWithComma(fields[1..])
  }

  /** Splitting loses nothing: joining the fields again gives the string back. */
  lemma {:induction false} JoinSplit(s: string)
    ensures JoinWithComma(SplitOnComma(s)) == s
  {
    if s != [] {
      var rest := SplitOnComma(s[1..]);
      JoinSplit(s[1..]);
      if s[0] == ',' {
        assert SplitOnComma(s)[1..] == rest;
      } else {
        var r := SplitOnComma(s);
        assert r[1..] == rest[1..];
        if |rest| > 1 {
          assert JoinWithComma(rest) == rest[0] + "," + JoinWithComma(rest[1..]);
        }
      }
    }
  }

  /** Splitting a join of comma-free fields gives the fields back. */
  lemma {:induction false} SplitJoin(fields: seq<string>)
    requires |fields| >= 1
    requires forall i :: 0 <= i < |fields| ==> ',' !in fields[i]
    ensures SplitOnComma(JoinWithComma(fields)) == fields
  {
    if |fields| == 1 {
      SplitCommaFree(fields[0]);
    } else {
      SplitJoin(fields[1..]);
      SplitFieldThenComma(fields[0], JoinWithComma(fields[1..]));
      assert [fields[0]] + fields[1..] == fields;
    }
  }

  /** A string without a comma is a single field. */
  lemma {:induction false} SplitCommaFree(s: string)
    requires ',' !in s
    ensures SplitOnComma(s) == [s]
  {
    if s != [] {
      assert s[0] in s && ',' !in s[1..];
      SplitCommaFree(s[1..]);
      assert [s[0]] + s[1..] == s;
    }
  }

  lemma {:induction false} SplitFieldThenComma(f: string, t: string)
    requires ',' !in f
    ensures SplitOnComma(f + "," + t) == [f] + SplitOnComma(t)
  {
    if f == [] {
      assert f + "," + t == [','] + t;
      assert ([','] + t)[1..] == t;
    } else {
      assert (f + "," + t)[1..] == f[1..] + "," + t;
      assert ',' !in f[1..];
      SplitFieldThenComma(f[1..], t);
      assert [f[0]] + f[1..] == f;
    }
  }

  /** `base64Image.split(',')[1]` placed in a template literal: the second
      field, or the text "undefined" when there is no comma. */
  function Payload(image: string): (r: string)
    ensures ',' !in r
  {
    var fields := SplitOnComma(image);
    if |fields| >= 2 then fields[1] else "undefined"
  }

  /** The URL handed to the print-intent handler. */
  function RawBtUrl(image: string): (r: string)
    ensures |r| >= 6 && r[..6] == "rawbt:" && ',' !in r
  {
    "rawbt:" + Payload(image)
  }

  /** For a data URL `header,data` the payload is exactly the data. */
  lemma DataUrlPayload(header: string, data: string)
    requires ',' !in header && ',' !in data
    ensures Payload(header + "," + data) == data
    ensures RawBtUrl(header + "," + data) == "rawbt:" + data
  {
    SplitFieldThenComma(header, data);
    SplitCommaFree(data);
  }

  /** An image without a comma, the empty failure result of the renderer
      among them, yields the URL `rawbt:undefined`. */
  lemma CommaFreeImageUrl(image: string)
    requires ',' !in image
    ensures RawBtUrl(image) == "rawbt:undefined"
    ensures RawBtUrl("") == "rawbt:undefined"
  {
    SplitCommaFree(image);
    SplitCommaFree("");
  }

  // ---------------------------------------------------------------------
  // Dispatch
  // ---------------------------------------------------------------------

  /** Effects on the host, in the order they happen. */
  datatype Event = Handoff(url: string) | Wait(ms: int) | Alert(message: string)

  /** How a dispatch ended: every copy handed off, or the host threw on the
      hand-off with index `sent`, after `sent` successful ones. */
  datatype DispatchResult = Completed | HostRejected(sent: nat)

  /** The host environment: URL navigation, timers and alerts. */
  class Host {
    var trace: seq<Event>

    constructor ()
      ensures trace == []
    {
      trace := [];
    }

    /** `window.location.href = url`; when the host refuses the scheme the
        assignment throws and nothing is handed off. */
    method Navigate(url: string, rejects: bool) returns (ok: bool)
      modifies this
      ensures ok == !rejects
      ensures trace == old(trace) + (if rejects then [] else [Handoff(url)])
    {
      ok := !rejects;
      if ok {
        trace := trace + [Handoff(url)];
      }
    }

    /** `await new Promise(r => setTimeout(r, ms))`. */
    method Sleep(ms: int)
      modifies this
      ensures trace == old(trace) + [Wait(ms)]
    {
      trace := trace + [Wait(ms)];
    }

    method ShowAlert(message: string)
      modifies this
      ensures trace == old(trace) + [Alert(message)]
    {
      trace := trace + [Alert(message)];
    }
  }

  /** Number of iterations of `for (let i = 0; i < copies; i++)`. */
  function Iterations(copies: int): nat {
    if copies > 0 then copies else 0
  }

  /** Hand-offs that succeed when the host throws on hand-off `rejectAt`. */
  function Sent(copies: int, rejectAt: Option<nat>): nat {
    if rejectAt.Some? && rejectAt.value < Iterations(copies) then rejectAt.value else Iterations(copies)
  }

  /** The events of one loop iteration: the hand-off, then the pause when more
      than one copy was asked for (after the last copy too). */
  function CopyEvents(url: string, copies: int): seq<Event> {
    [Handoff(url)] + (if copies > 1 then [Wait(PacingMs)] else [])
  }

  /** The events of the first `n` iterations. */
  function DispatchEvents(url: string, copies: int, n: nat): seq<Event> {
    if n == 0 then [] else DispatchEvents(url, copies, n - 1) + CopyEvents(url, copies)
  }

  /** `sendToRawBT`. `rejectAt` names the hand-off, if any, at which the host
      throws. */
  method SendToRawBT(host: Host, image: string, copies: int, rejectAt: Option<nat>)
    returns (result: DispatchResult)
    modifies host
    ensures host.trace == old(host.trace) + DispatchEvents(RawBtUrl(image), copies, Sent(copies, rejectAt))
    ensures result == if Sent(copies, rejectAt) < Iterations(copies) then HostRejected(Sent(copies, rejectAt)) else Completed
  {
    var pureBase64 := Payload(image);
    var i := 0;
    while i < copies
      invariant 0 <= i <= Iterations(copies)
      invariant rejectAt.Some? ==> i <= rejectAt.value
      invariant host.trace == old(host.trace) + DispatchEvents(RawBtUrl(image), copies, i)
    {
      var rawbtUrl := "rawbt:" + pureBase64;
      var ok := host.Navigate(rawbtUrl, rejectAt == Some(i));
      if !ok {
        return HostRejected(i);
      }
      if copies > 1 {
        host.Sleep(PacingMs);
      }
      i := i + 1;
    }
    result := Completed;
  }

  /** The trace of `n` iterations, position by position: with more than one
      copy it alternates a hand-off of `url` and a 1200 ms wait, ending on a
      wait; with one copy it is hand-offs only. */
  lemma {:induction false} DispatchShape(url: string, copies: int, n: nat)
    ensures var t := DispatchEvents(url, copies, n);
      && (copies > 1 ==>
            && |t| == 2 * n
            && forall k :: 0 <= k < n ==> t[2 * k] == Handoff(url) && t[2 * k + 1] == Wait(PacingMs))
      && (copies <= 1 ==> |t| == n && forall k :: 0 <= k < n ==> t[k] == Handoff(url))
  {
    if n > 0 {
      DispatchShape(url, copies, n - 1);
    }
  }

  function CountHandoffs(t: seq<Event>): nat {
    if t == [] then 0 else CountHandoffs(t[..|t| - 1]) + (if t[|t| - 1].Handoff? then 1 else 0)
  }

  function CountWaits(t: seq<Event>): nat {
    if t == [] then 0 else CountWaits(t[..|t| - 1]) + (if t[|t| - 1].Wait? then 1 else 0)
  }

  lemma {:induction false} CountsAppend(t: seq<Event>, u: seq<Event>)
    ensures CountHandoffs(t + u) == CountHandoffs(t) + CountHandoffs(u)
    ensures CountWaits(t + u) == CountWaits(t) + CountWaits(u)
  {
    if u != [] {
      assert (t + u)[..|t + u| - 1] == t + u[..|u| - 1];
      CountsAppend(t, u[..|u| - 1]);
    } else {
      assert t + u == t;
    }
  }

  /** `n` iterations hand off `n` times, every time to `url`, and wait `n`
      times when more than one copy was asked for, never otherwise. */
  lemma {:induction false} DispatchCounts(url: string, copies: int, n: nat)
    ensures CountHandoffs(DispatchEvents(url, copies, n)) == n
    ensures CountWaits(DispatchEvents(url, copies, n)) == if copies > 1 then n else 0
    ensures forall e :: e in DispatchEvents(url, copies, n) ==> e == Handoff(url) || e == Wait(PacingMs)
  {
    if n > 0 {
      DispatchCounts(url, copies, n - 1);
      var c := CopyEvents(url, copies);
      CountsAppend(DispatchEvents(url, copies, n - 1), c);
      var one: seq<Event> := [Handoff(url)];
      assert one[..0] == [];
      assert CountHandoffs(one) == 1 && CountWaits(one) == 0;
      if copies > 1 {
        assert c == one + [Wait(PacingMs)];
        assert c[..1] == one;
      } else {
        assert c == one;
      }
    }
  }
}
