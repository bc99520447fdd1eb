/**
 * The geometry engine of src/components/canvas/Canvas.jsx: strict rectangle
 * overlap, the bounded raster search for a free position, and the
 * self-excluding overlap check.
 */
module Geometry {
  import opened Store

  datatype Rect = Rect(x: int, y: int, width: int, height: int)
  datatype Pos = Pos(x: int, y: int)

  const GridSize := 20
  const MaxAttempts := 1000
  const DefaultCanvasWidth := 1200
  const DefaultCanvasHeight := 800

  function RectOf(w: Widget): Rect {
    Rect(w.x, w.y, w.width, w.height)
  }

  function Min(a: int, b: int): int { if a <= b then a else b }
  function Max(a: int, b: int): int { if a <= b then b else a }

  /** The half-open intervals [a0, a1) and [b0, b1) share a stretch of positive length. */
  predicate SpansIntersect(a0: int, a1: int, b0: int, b1: int) {
    Max(a0, b0) < Min(a1, b1)
  }

  /**
   * `doRectanglesOverlap`: not separated along either axis. For rectangles of
   * positive size this is exactly "the intersection has positive area", so
   * rectangles that only share an edge do not overlap.
   */
  function RectanglesOverlap(a: Rect, b: Rect): (r: bool)
    ensures a.width > 0 && a.height > 0 && b.width > 0 && b.height > 0 ==>
              (r <==> SpansIntersect(a.x, a.x + a.width, b.x, b.x + b.width) &&
                      SpansIntersect(a.y, a.y + a.height, b.y, b.y + b.height))
  {
    !(a.x + a.width <= b.x || a.x >= b.x + b.width || a.y + a.height <= b.y || a.y >= b.y + b.height)
  }

  lemma OverlapSymmetric(a: Rect, b: Rect)
    ensures RectanglesOverlap(a, b) == RectanglesOverlap(b, a)
  {
  }

  lemma OverlapReflexive(a: Rect)
    requires a.width > 0 && a.height > 0
    ensures RectanglesOverlap(a, a)
  {
  }

  /** Rectangles that only touch along a vertical or horizontal edge do not overlap. */
  lemma TouchingDoNotOverlap(a: Rect, b: Rect)
    requires a.x + a.width == b.x || a.y + a.height == b.y
    ensures !RectanglesOverlap(a, b) && !RectanglesOverlap(b, a)
  {
  }

  /** `widgets.some(w => doRectanglesOverlap(rect, w))` */
  function AnyOverlap(rect: Rect, ws: seq<Widget>): (r: bool)
    ensures r <==> exists i :: 0 <= i < |ws| && RectanglesOverlap(rect, RectOf(ws[i]))
  {
    if ws == [] then false
    else
      var init := ws[..|ws| - 1];
      var found := AnyOverlap(rect, init) || RectanglesOverlap(rect, RectOf(ws[|ws| - 1]));
      assert found ==> exists i :: 0 <= i < |ws| && RectanglesOverlap(rect, RectOf(ws[i])) by {
        if AnyOverlap(rect, init) {
          var i :| 0 <= i < |init| && RectanglesOverlap(rect, RectOf(init[i]));
          assert ws[i] == init[i];
        }
      }
      assert (exists i :: 0 <= i < |ws| && RectanglesOverlap(rect, RectOf(ws[i]))) ==> found by {
        if i :| 0 <= i < |ws| && RectanglesOverlap(rect, RectOf(ws[i])) {
          if i < |init| { assert init[i] == ws[i]; }
        }
      }
      found
  }

  /**
   * `checkForOverlaps(id, x, y, w, h, all)`: does the proposed rectangle
   * overlap a widget other than the one being moved?
   */
  function CheckForOverlaps(id: Id, rect: Rect, ws: seq<Widget>): (r: bool)
    ensures r <==> exists i :: 0 <= i < |ws| && ws[i].id != id && RectanglesOverlap(rect, RectOf(ws[i]))
  {
    var others := RemoveAll(ws, id);
    assert AnyOverlap(rect, others) ==>
             exists i :: 0 <= i < |ws| && ws[i].id != id && RectanglesOverlap(rect, RectOf(ws[i])) by {
      if AnyOverlap(rect, others) {
        var j :| 0 <= j < |others| && RectanglesOverlap(rect, RectOf(others[j]));
        assert others[j] in others;
        var i :| 0 <= i < |ws| && ws[i] == others[j];
      }
    }
    assert (exists i :: 0 <= i < |ws| && ws[i].id != id && RectanglesOverlap(rect, RectOf(ws[i]))) ==>
             AnyOverlap(rect, others) by {
      if i :| 0 <= i < |ws| && ws[i].id != id && RectanglesOverlap(rect, RectOf(ws[i])) {
        assert ws[i] in others;
        var j :| 0 <= j < |others| && others[j] == ws[i];
      }
    }
    AnyOverlap(rect, others)
  }

  /**
   * A widget never blocks its own move: adding it to the canvas does not change
   * the verdict, however the others lie, and alone it is never reported.
   */
  lemma NeverOverlapsItself(w: Widget, rect: Rect, ws: seq<Widget>)
    ensures CheckForOverlaps(w.id, rect, ws + [w]) == CheckForOverlaps(w.id, rect, ws)
    ensures !CheckForOverlaps(w.id, rect, [w])
  {
    var all := ws + [w];
    assert forall i :: 0 <= i < |ws| ==> all[i] == ws[i];
    assert all[|ws|] == w;
    if CheckForOverlaps(w.id, rect, all) {
      var i :| 0 <= i < |all| && all[i].id != w.id && RectanglesOverlap(rect, RectOf(all[i]));
      assert i < |ws|;
    }
  }

  // ---------------------------------------------------------------------------
  // findNonOverlappingPosition

  /** The probe lies inside the canvas: `testX >= 0`, `testY >= 0` and the far edges fit. */
  predicate InBounds(p: Pos, width: int, height: int, canvasWidth: int, canvasHeight: int) {
    !(p.x < 0 || p.y < 0 || p.x + width > canvasWidth || p.y + height > canvasHeight)
  }

  /** A probe the search accepts: inside the canvas and clear of every existing widget. */
  predicate Acceptable(p: Pos, c: Rect, ws: seq<Widget>, canvasWidth: int, canvasHeight: int) {
    InBounds(p, c.width, c.height, canvasWidth, canvasHeight) &&
    !AnyOverlap(Rect(p.x, p.y, c.width, c.height), ws)
  }

  /** One probe step: 20px right; past `canvasWidth - width`, back to x = 0 on the next row. */
  function Step(p: Pos, width: int, canvasWidth: int): (q: Pos)
    ensures q.x == 0 || q.x == p.x + GridSize
    ensures q.y == p.y || q.y == p.y + GridSize
    ensures q.y == p.y + GridSize <==> p.x + GridSize > canvasWidth - width
    ensures q.y == p.y + GridSize ==> q.x == 0
  {
    var nx := p.x + GridSize;
    if nx > canvasWidth - width then Pos(0, p.y + GridSize) else Pos(nx, p.y)
  }

  /** The k-th probe of a search that starts at `start`. */
  function ProbeAt(start: Pos, width: int, canvasWidth: int, k: nat): Pos {
    if k == 0 then start else Step(ProbeAt(start, width, canvasWidth, k - 1), width, canvasWidth)
  }

  /** Probe k is accepted and no earlier probe was. */
  predicate FirstFit(c: Rect, ws: seq<Widget>, canvasWidth: int, canvasHeight: int, k: nat) {
    var start := Pos(c.x, c.y);
    Acceptable(ProbeAt(start, c.width, canvasWidth, k), c, ws, canvasWidth, canvasHeight) &&
    forall j :: 0 <= j < k ==> !Acceptable(ProbeAt(start, c.width, canvasWidth, j), c, ws, canvasWidth, canvasHeight)
  }

  /** None of the first n probes is accepted. */
  predicate NoFit(c: Rect, ws: seq<Widget>, canvasWidth: int, canvasHeight: int, n: nat) {
    forall j :: 0 <= j < n ==>
      !Acceptable(ProbeAt(Pos(c.x, c.y), c.width, canvasWidth, j), c, ws, canvasWidth, canvasHeight)
  }

  /**
   * What the search may return: the first accepted of the first 1000 probes,
   * or, when none of them is accepted, the candidate's own position.
   */
  predicate SearchOutcome(c: Rect, ws: seq<Widget>, canvasWidth: int, canvasHeight: int, p: Pos) {
    (exists k :: 0 <= k < MaxAttempts && FirstFit(c, ws, canvasWidth, canvasHeight, k) &&
                 p == ProbeAt(Pos(c.x, c.y), c.width, canvasWidth, k))
    || (NoFit(c, ws, canvasWidth, canvasHeight, MaxAttempts) && p == Pos(c.x, c.y))
  }

  /**
   * `findNonOverlappingPosition(candidate, existing, canvasWidth, canvasHeight)`:
   * the first of at most 1000 raster probes that lies in the canvas and
   * overlaps nothing; when every probe fails, the candidate's own position,
   * which may overlap.
   */
  method FindNonOverlappingPosition(c: Rect, ws: seq<Widget>, canvasWidth: int, canvasHeight: int)
    returns (p: Pos)
    ensures SearchOutcome(c, ws, canvasWidth, canvasHeight, p)
  {
    var start := Pos(c.x, c.y);
    var attempts := 0;
    var test := start;
    while attempts < MaxAttempts
      invariant 0 <= attempts <= MaxAttempts
      invariant test == ProbeAt(start, c.width, canvasWidth, attempts)
      invariant NoFit(c, ws, canvasWidth, canvasHeight, attempts)
    {
      if !InBounds(test, c.width, c.height, canvasWidth, canvasHeight) {
        test := Step(test, c.width, canvasWidth);
        attempts := attempts + 1;
        continue;
      }
      var hasOverlap := AnyOverlap(Rect(test.x, test.y, c.width, c.height), ws);
      if !hasOverlap {
        assert FirstFit(c, ws, canvasWidth, canvasHeight, attempts);
        return test;
      }
      test := Step(test, c.width, canvasWidth);
      attempts := attempts + 1;
    }
    return start;
  }

  /**
   * Whatever the search returns is either a free in-canvas position or the
   * candidate's own, and the latter only when none of the 1000 probes fits.
   */
  lemma SearchResultIsSafeOrOriginal(c: Rect, ws: seq<Widget>, canvasWidth: int, canvasHeight: int, p: Pos)
    requires SearchOutcome(c, ws, canvasWidth, canvasHeight, p)
    ensures Acceptable(p, c, ws, canvasWidth, canvasHeight) ||
            (p == Pos(c.x, c.y) && NoFit(c, ws, canvasWidth, canvasHeight, MaxAttempts))
    ensures Acceptable(p, c, ws, canvasWidth, canvasHeight) ==>
              0 <= p.x <= canvasWidth - c.width && 0 <= p.y <= canvasHeight - c.height &&
              forall i :: 0 <= i < |ws| ==> !RectanglesOverlap(Rect(p.x, p.y, c.width, c.height), RectOf(ws[i]))
  {
    if k :| 0 <= k < MaxAttempts && FirstFit(c, ws, canvasWidth, canvasHeight, k) &&
            p == ProbeAt(Pos(c.x, c.y), c.width, canvasWidth, k) {
      FoundPositionIsSafe(c, ws, canvasWidth, canvasHeight, k);
    }
  }

  /** A position the search finds lies inside the canvas and overlaps no existing widget. */
  lemma FoundPositionIsSafe(c: Rect, ws: seq<Widget>, canvasWidth: int, canvasHeight: int, k: nat)
    requires FirstFit(c, ws, canvasWidth, canvasHeight, k)
    ensures var p := ProbeAt(Pos(c.x, c.y), c.width, canvasWidth, k);
            0 <= p.x <= canvasWidth - c.width && 0 <= p.y <= canvasHeight - c.height &&
            forall i :: 0 <= i < |ws| ==> !RectanglesOverlap(Rect(p.x, p.y, c.width, c.height), RectOf(ws[i]))
  {
  }

  /** A candidate that already fits is returned where it is: it is the first probe. */
  lemma FittingCandidateStays(c: Rect, ws: seq<Widget>, canvasWidth: int, canvasHeight: int, k: nat)
    requires Acceptable(Pos(c.x, c.y), c, ws, canvasWidth, canvasHeight)
    requires FirstFit(c, ws, canvasWidth, canvasHeight, k)
    ensures k == 0 && ProbeAt(Pos(c.x, c.y), c.width, canvasWidth, k) == Pos(c.x, c.y)
  {
    assert ProbeAt(Pos(c.x, c.y), c.width, canvasWidth, 0) == Pos(c.x, c.y);
  }

  /** A candidate that already fits is where the search leaves it. */
  lemma FittingCandidateReturned(c: Rect, ws: seq<Widget>, canvasWidth: int, canvasHeight: int, p: Pos)
    requires Acceptable(Pos(c.x, c.y), c, ws, canvasWidth, canvasHeight)
    requires SearchOutcome(c, ws, canvasWidth, canvasHeight, p)
    ensures p == Pos(c.x, c.y)
  {
    assert ProbeAt(Pos(c.x, c.y), c.width, canvasWidth, 0) == Pos(c.x, c.y);
    if k :| 0 <= k < MaxAttempts && FirstFit(c, ws, canvasWidth, canvasHeight, k) &&
            p == ProbeAt(Pos(c.x, c.y), c.width, canvasWidth, k) {
      FittingCandidateStays(c, ws, canvasWidth, canvasHeight, k);
    }
  }

  /** The first accepted probe is unique: two first fits are the same probe. */
  lemma FirstFitUnique(c: Rect, ws: seq<Widget>, canvasWidth: int, canvasHeight: int, k: nat, m: nat)
    requires FirstFit(c, ws, canvasWidth, canvasHeight, k) && FirstFit(c, ws, canvasWidth, canvasHeight, m)
    ensures k == m
  {
  }

  /** Along one row the probes advance by exactly 20px until the row is exhausted. */
  lemma {:induction false} ProbesAlongRow(start: Pos, width: int, canvasWidth: int, k: nat)
    requires start.x + GridSize * k <= canvasWidth - width
    ensures ProbeAt(start, width, canvasWidth, k) == Pos(start.x + GridSize * k, start.y)
  {
    if k > 0 {
      ProbesAlongRow(start, width, canvasWidth, k - 1);
    }
  }

  /**
   * The wrap goes back to x = 0, not to the starting x: from the last probe of a
   * row the next probe is at the left edge, one row down.
   */
  lemma WrapResetsToLeftEdge(start: Pos, width: int, canvasWidth: int, k: nat)
    requires start.x + GridSize * k <= canvasWidth - width < start.x + GridSize * (k + 1)
    ensures ProbeAt(start, width, canvasWidth, k + 1) == Pos(0, start.y + GridSize)
  {
    ProbesAlongRow(start, width, canvasWidth, k);
  }
}
