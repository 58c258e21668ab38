/** The freehand drawing page: an ordered collection of strokes that a drag gesture
    starts and extends, a colour and a width selection that apply to strokes created
    afterwards, and a Clear button. */
module Doodling {
  import opened Graphics

  /** A stroke width the width slider can produce: 1 to 10 in steps of 1. */
  type Width = w: int | 1 <= w <= 10 witness 5

  /** One stroke. Swift's `Line` is a value type: popping it, appending a point and
      pushing it back changes only `points`. */
  datatype Line = Line(points: seq<Point>, color: Color, lineWidth: Width)

  /** Every stroke has at least one point and a colour from the picker. */
  predicate WellFormed(lines: seq<Line>)
  {
    forall i :: 0 <= i < |lines| ==> |lines[i].points| > 0 && lines[i].color in Palette()
  }

  /** `after` keeps every stroke of `before` at its place, with the same colour and width,
      and with the points it had as a prefix of its points now. */
  predicate Extends(before: seq<Line>, after: seq<Line>)
  {
    |before| <= |after| &&
    forall i :: 0 <= i < |before| ==>
      after[i].color == before[i].color &&
      after[i].lineWidth == before[i].lineWidth &&
      before[i].points <= after[i].points
  }

  lemma ExtendsTransitive(a: seq<Line>, b: seq<Line>, c: seq<Line>)
    requires Extends(a, b) && Extends(b, c)
    ensures Extends(a, c)
  {
    forall i | 0 <= i < |a|
      ensures c[i].color == a[i].color && c[i].lineWidth == a[i].lineWidth && a[i].points <= c[i].points
    {
      assert a[i].points <= b[i].points && b[i].points <= c[i].points;
    }
  }

  /** The drag handler: a sample whose cumulative translation is zero starts a new stroke
      at its location in the selected colour and width; any other sample appends its
      location to the last stroke, and is dropped when there is no stroke. */
  function Drag(lines: seq<Line>, color: Color, width: Width, location: Point, translation: Size): (r: seq<Line>)
    ensures translation == Zero ==>
      |r| == |lines| + 1 && r[..|lines|] == lines &&
      r[|lines|].points == [location] && r[|lines|].color == color && r[|lines|].lineWidth == width
    ensures translation != Zero && lines == [] ==> r == []
    ensures translation != Zero && lines != [] ==>
      |r| == |lines| && r[..|lines| - 1] == lines[..|lines| - 1] &&
      r[|lines| - 1].points == lines[|lines| - 1].points + [location] &&
      r[|lines| - 1].color == lines[|lines| - 1].color &&
      r[|lines| - 1].lineWidth == lines[|lines| - 1].lineWidth
    ensures Extends(lines, r)
    ensures WellFormed(lines) && color in Palette() ==> WellFormed(r)
  {
    if translation == Zero then
      lines + [Line([location], color, width)]
    else if lines == [] then
      lines
    else
      var last := lines[|lines| - 1];
      lines[..|lines| - 1] + [last.(points := last.points + [location])]
  }

  /** What the page holds: the strokes and the current selections. */
  datatype Canvas = Canvas(lines: seq<Line>, selectedColor: Color, lineWidth: Width)

  /** The page as it is first shown: no strokes, black, width 5. */
  const Initial: Canvas := Canvas([], Black, 5)

  predicate ValidCanvas(c: Canvas)
  {
    c.selectedColor in Palette() && WellFormed(c.lines)
  }

  /** The inputs of the page: a drag sample, a swatch tap, a slider move, the Clear button. */
  datatype CanvasEvent =
    | DragChanged(location: Point, translation: Size)
    | ColorTapped(color: Color)
    | WidthChanged(width: Width)
    | ClearTapped

  /** The picker only offers colours of the palette. */
  predicate Allowed(e: CanvasEvent)
  {
    e.ColorTapped? ==> e.color in Palette()
  }

  /** One input applied to the page. */
  function Step(c: Canvas, e: CanvasEvent): (r: Canvas)
    ensures ValidCanvas(c) && Allowed(e) ==> ValidCanvas(r)
    ensures e.ClearTapped? ==> r.lines == []
    ensures !e.ClearTapped? ==> Extends(c.lines, r.lines)
    ensures e.ColorTapped? || e.WidthChanged? ==> r.lines == c.lines
    ensures e.DragChanged? || e.ClearTapped? ==>
      r.selectedColor == c.selectedColor && r.lineWidth == c.lineWidth
    ensures e.ColorTapped? ==> r == c.(selectedColor := e.color)
    ensures e.WidthChanged? ==> r == c.(lineWidth := e.width)
  {
    match e
    case DragChanged(location, translation) =>
      c.(lines := Drag(c.lines, c.selectedColor, c.lineWidth, location, translation))
    case ColorTapped(color) => c.(selectedColor := color)
    case WidthChanged(width) => c.(lineWidth := width)
    case ClearTapped => c.(lines := [])
  }

  /** A sequence of inputs applied in arrival order. */
  function Run(c: Canvas, events: seq<CanvasEvent>): Canvas
    decreases |events|
  {
    if events == [] then c else Run(Step(c, events[0]), events[1..])
  }

  /** The number of drag samples with zero translation. Each starts a stroke: the first
      sample of every drag, and any later sample that lies exactly on its drag's origin. */
  function Starts(events: seq<CanvasEvent>): nat
  {
    if events == [] then 0
    else (if events[0].DragChanged? && events[0].translation == Zero then 1 else 0) + Starts(events[1..])
  }

  /** The locations of the drag samples, in order. */
  function Locations(events: seq<CanvasEvent>): seq<Point>
  {
    if events == [] then []
    else (if events[0].DragChanged? then [events[0].location] else []) + Locations(events[1..])
  }

  /** A sample with non-zero translation, which extends the last stroke. */
  predicate IsMove(e: CanvasEvent)
  {
    e.DragChanged? && e.translation != Zero
  }

  predicate NoClear(events: seq<CanvasEvent>)
  {
    forall i :: 0 <= i < |events| ==> !events[i].ClearTapped?
  }

  /** Whatever the inputs, every stroke keeps at least one point and a palette colour,
      and the selected colour stays in the palette. */
  lemma {:induction false} RunPreservesValid(c: Canvas, events: seq<CanvasEvent>)
    requires ValidCanvas(c)
    requires forall i :: 0 <= i < |events| ==> Allowed(events[i])
    ensures ValidCanvas(Run(c, events))
    decreases |events|
  {
    if events != [] {
      RunPreservesValid(Step(c, events[0]), events[1..]);
    }
  }

  /** Without Clear, no stroke is removed or reordered, no stroke's colour or width ever
      changes whatever the selection does, and a stroke's points only grow at the end. */
  lemma {:induction false} RunExtends(c: Canvas, events: seq<CanvasEvent>)
    requires NoClear(events)
    ensures Extends(c.lines, Run(c, events).lines)
    decreases |events|
  {
    if events == [] {
      assert Extends(c.lines, c.lines);
    } else {
      var next := Step(c, events[0]);
      RunExtends(next, events[1..]);
      ExtendsTransitive(c.lines, next.lines, Run(next, events[1..]).lines);
    }
  }

  /** Without Clear, the number of strokes grows by exactly the number of zero-translation
      samples. */
  lemma {:induction false} RunCountsStrokes(c: Canvas, events: seq<CanvasEvent>)
    requires NoClear(events)
    ensures |Run(c, events).lines| == |c.lines| + Starts(events)
    decreases |events|
  {
    if events != [] {
      RunCountsStrokes(Step(c, events[0]), events[1..]);
    }
  }

  /** The last stroke of `lines` with `extra` appended to its points. */
  function GrowLast(lines: seq<Line>, extra: seq<Point>): seq<Line>
    requires lines != []
  {
    var last := lines[|lines| - 1];
    lines[..|lines| - 1] + [last.(points := last.points + extra)]
  }

  lemma MoveStep(c: Canvas, e: CanvasEvent)
    requires c.lines != [] && IsMove(e)
    ensures Step(c, e) == c.(lines := GrowLast(c.lines, [e.location]))
  {
  }

  lemma GrowLastTwice(lines: seq<Line>, a: seq<Point>, b: seq<Point>)
    requires lines != []
    ensures GrowLast(GrowLast(lines, a), b) == GrowLast(lines, a + b)
  {
    var n := |lines|;
    var once := GrowLast(lines, a);
    assert once[..n - 1] == lines[..n - 1];
    assert once[n - 1].points + b == lines[n - 1].points + (a + b);
  }

  /** Non-zero-translation samples grow only the last stroke, by their locations in order, and
      leave every earlier stroke and the selection unchanged. */
  lemma {:induction false} MovesExtendLastStroke(c: Canvas, moves: seq<CanvasEvent>)
    requires c.lines != []
    requires forall i :: 0 <= i < |moves| ==> IsMove(moves[i])
    ensures Run(c, moves) == c.(lines := GrowLast(c.lines, Locations(moves)))
    decreases |moves|
  {
    if moves == [] {
      var n := |c.lines|;
      assert c.lines[n - 1].points + [] == c.lines[n - 1].points;
      assert c.lines[..n - 1] + [c.lines[n - 1]] == c.lines;
    } else {
      var next := Step(c, moves[0]);
      MoveStep(c, moves[0]);
      MovesExtendLastStroke(next, moves[1..]);
      GrowLastTwice(c.lines, [moves[0].location], Locations(moves[1..]));
      assert Locations(moves) == [moves[0].location] + Locations(moves[1..]);
    }
  }

  /** A zero-translation sample followed by non-zero-translation samples adds exactly
      one stroke: its points are the samples' locations in order and it carries the
      selection of the moment; the earlier strokes are untouched. */
  lemma StrokeOfOneDrag(c: Canvas, start: Point, moves: seq<CanvasEvent>)
    requires forall i :: 0 <= i < |moves| ==> IsMove(moves[i])
    ensures Run(c, [DragChanged(start, Zero)] + moves) ==
      c.(lines := c.lines + [Line([start] + Locations(moves), c.selectedColor, c.lineWidth)])
  {
    var events := [DragChanged(start, Zero)] + moves;
    var next := c.(lines := c.lines + [Line([start], c.selectedColor, c.lineWidth)]);
    assert Step(c, events[0]) == next;
    assert events[1..] == moves;
    MovesExtendLastStroke(next, moves);
    assert next.lines[..|next.lines| - 1] == c.lines;
  }

  /** Non-zero-translation samples that arrive while there is no stroke are all dropped. */
  lemma {:induction false} MovesOnEmptyAreDropped(c: Canvas, moves: seq<CanvasEvent>)
    requires c.lines == []
    requires forall i :: 0 <= i < |moves| ==> IsMove(moves[i])
    ensures Run(c, moves) == c
    decreases |moves|
  {
    if moves != [] {
      MovesOnEmptyAreDropped(Step(c, moves[0]), moves[1..]);
    }
  }

  /** Clear empties the page whatever it held, so clearing twice is clearing once, and
      the next zero-translation sample leaves exactly one stroke. */
  lemma ClearThenDraw(c: Canvas, p: Point)
    ensures Run(c, [ClearTapped, ClearTapped]) == Run(c, [ClearTapped]) == c.(lines := [])
    ensures Run(c, [ClearTapped, DragChanged(p, Zero)]).lines == [Line([p], c.selectedColor, c.lineWidth)]
  {
    assert [ClearTapped, ClearTapped][1..] == [ClearTapped];
    var cleared := c.(lines := []);
    assert [ClearTapped, DragChanged(p, Zero)][1..] == [DragChanged(p, Zero)];
    assert Run(c, [ClearTapped, DragChanged(p, Zero)]) == Run(cleared, [DragChanged(p, Zero)]);
    assert [DragChanged(p, Zero)][1..] == [];
    assert Run(cleared, [DragChanged(p, Zero)]) == Step(cleared, DragChanged(p, Zero));
    assert Step(cleared, DragChanged(p, Zero)).lines == [Line([p], c.selectedColor, c.lineWidth)];
  }

  /** A width and a colour chosen before a stroke is started decide the new stroke's attributes
      (for instance width 3, red, then samples at (10, 10), (12, 11), (15, 9) give one red
      stroke of width 3 through the three points); the strokes already there keep theirs. */
  lemma SelectThenDraw(c: Canvas, width: Width, color: Color, start: Point, moves: seq<CanvasEvent>)
    requires forall i :: 0 <= i < |moves| ==> IsMove(moves[i])
    ensures Run(c, [WidthChanged(width), ColorTapped(color)] + ([DragChanged(start, Zero)] + moves)) ==
      Canvas(c.lines + [Line([start] + Locations(moves), color, width)], color, width)
  {
    var select := [WidthChanged(width), ColorTapped(color)];
    var selected := Canvas(c.lines, color, width);
    RunSplit(c, select, [DragChanged(start, Zero)] + moves);
    assert Run(c, select) == selected by {
      assert select[1..] == [ColorTapped(color)];
      assert Run(c, select) == Run(c.(lineWidth := width), [ColorTapped(color)]);
      assert [ColorTapped(color)][1..] == [];
    }
    StrokeOfOneDrag(selected, start, moves);
  }

  /** Four zero-translation samples make four one-point strokes; Clear then empties the
      page and one more zero-translation sample leaves a single stroke. */
  lemma ClearAfterFourStrokesScenario(c: Canvas, p: seq<Point>, q: Point)
    requires c.lines == [] && |p| == 4
    ensures var events := [DragChanged(p[0], Zero), DragChanged(p[1], Zero), DragChanged(p[2], Zero),
                           DragChanged(p[3], Zero)];
      |Run(c, events).lines| == 4 &&
      Run(c, events + [ClearTapped]).lines == [] &&
      |Run(c, events + [ClearTapped, DragChanged(q, Zero)]).lines| == 1
  {
    var events := [DragChanged(p[0], Zero), DragChanged(p[1], Zero), DragChanged(p[2], Zero),
                   DragChanged(p[3], Zero)];
    assert NoClear(events);
    RunCountsStrokes(c, events);
    assert Starts(events) == 4 by {
      assert Starts(events[3..]) == 1;
      assert Starts(events[2..]) == 1 + Starts(events[2..][1..]);
      assert events[2..][1..] == events[3..];
      assert events[1..][1..] == events[2..];
      assert events[1..] == [events[1]] + events[2..];
    }
    RunSplit(c, events, [ClearTapped]);
    RunSplit(c, events, [ClearTapped, DragChanged(q, Zero)]);
    ClearThenDraw(Run(c, events), q);
  }

  /** A drag that comes back exactly to its starting point reports zero translation
      there, so one drag can leave two strokes: the second starts at the return. */
  lemma ReturnToOriginStartsStroke(c: Canvas, p: Point, q: Point, t: Size)
    requires t != Zero
    ensures var events := [DragChanged(p, Zero), DragChanged(q, t), DragChanged(p, Zero)];
      Run(c, events).lines == c.lines + [Line([p, q], c.selectedColor, c.lineWidth), Line([p], c.selectedColor, c.lineWidth)]
  {
    var events := [DragChanged(p, Zero), DragChanged(q, t), DragChanged(p, Zero)];
    var started := c.(lines := c.lines + [Line([p], c.selectedColor, c.lineWidth)]);
    var moved := c.(lines := c.lines + [Line([p, q], c.selectedColor, c.lineWidth)]);
    assert Step(c, events[0]) == started;
    MoveStep(started, events[1]);
    assert GrowLast(started.lines, [q]) == moved.lines by {
      var n := |started.lines|;
      assert started.lines[..n - 1] == c.lines;
      assert started.lines[n - 1] == Line([p], c.selectedColor, c.lineWidth);
      assert [p] + [q] == [p, q];
    }
    assert events[1..] == [events[1], events[2]] && [events[1], events[2]][1..] == [events[2]];
    assert Run(c, events) == Run(moved, [events[2]]);
    RunOne(moved, events[2]);
  }

  lemma RunOne(c: Canvas, e: CanvasEvent)
    ensures Run(c, [e]) == Step(c, e)
  {
    assert [e][1..] == [];
  }

  lemma {:induction false} RunSplit(c: Canvas, first: seq<CanvasEvent>, rest: seq<CanvasEvent>)
    ensures Run(c, first + rest) == Run(Run(c, first), rest)
    decreases |first|
  {
    if first != [] {
      var next := Step(c, first[0]);
      calc {
        Run(c, first + rest);
        { assert (first + rest)[0] == first[0] && (first + rest)[1..] == first[1..] + rest; }
        Run(next, first[1..] + rest);
        { RunSplit(next, first[1..], rest); }
        Run(Run(next, first[1..]), rest);
      }
      assert Run(c, first) == Run(next, first[1..]);
    } else {
      assert first + rest == rest;
    }
  }

  /** The page's state as the view holds it. */
  class DoodlingPage {
    var lines: seq<Line>
    var selectedColor: Color
    var lineWidth: Width

    ghost predicate Valid()
      reads this
    {
      ValidCanvas(State())
    }

    function State(): Canvas
      reads this
    {
      Canvas(lines, selectedColor, lineWidth)
    }

    constructor ()
      ensures Valid() && State() == Initial
    {
      lines := [];
      selectedColor := Black;
      lineWidth := 5;
    }

    /** The drag gesture's `onChanged` handler. */
    method OnDragChanged(location: Point, translation: Size)
      requires Valid()
      modifies this`lines
      ensures Valid()
      ensures lines == Drag(old(lines), selectedColor, lineWidth, location, translation)
      ensures State() == Step(old(State()), DragChanged(location, translation))
    {
      if translation == Zero {
        lines := lines + [Line([location], selectedColor, lineWidth)];
      } else {
        if lines == [] {
          return;
        }
        var lastLine := lines[|lines| - 1];
        lines := lines[..|lines| - 1];
        lastLine := lastLine.(points := lastLine.points + [location]);
        lines := lines + [lastLine];
      }
    }

    /** A tap on a swatch of the colour picker. */
    method SelectColor(color: Color)
      requires Valid() && color in Palette()
      modifies this`selectedColor
      ensures Valid() && selectedColor == color
      ensures State() == Step(old(State()), ColorTapped(color))
    {
      selectedColor := color;
    }

    /** A move of the width slider. */
    method SetLineWidth(width: Width)
      requires Valid()
      modifies this`lineWidth
      ensures Valid() && lineWidth == width
      ensures State() == Step(old(State()), WidthChanged(width))
    {
      lineWidth := width;
    }

    /** The Clear button. */
    method Clear()
      requires Valid()
      modifies this`lines
      ensures Valid() && lines == []
      ensures State() == Step(old(State()), ClearTapped)
    {
      lines := [];
    }
  }
}
