/**
 * The canvas controller of src/components/canvas/Canvas.jsx: the commit or
 * reject rule for drags and resizes with its transient set of overlapping
 * widgets, the delete path, the Delete key, selection, and drop-to-create.
 */
module CanvasController {
  import opened Wrappers
  import opened Values
  import opened Store
  import opened Geometry
  import opened Templates

  /** No two widgets of the layout overlap. */
  predicate Disjoint(ws: seq<Widget>) {
    forall i, j :: 0 <= i < |ws| && 0 <= j < |ws| && i != j ==> !RectanglesOverlap(RectOf(ws[i]), RectOf(ws[j]))
  }

  /**
   * The `data` object a drag or resize commits: exactly x, y, width and height.
   * Merged into any widget it moves the widget onto the rectangle and touches
   * nothing else.
   */
  function GeometryPatch(r: Rect): (p: Patch)
    ensures p.fields == map[]
    ensures forall w :: Merge(w, p) == w.(x := r.x, y := r.y, width := r.width, height := r.height)
    ensures forall w :: RectOf(Merge(w, p)) == r
  {
    Patch(Some(r.x), Some(r.y), Some(r.width), Some(r.height), map[])
  }

  /**
   * A committed move keeps a layout of uniquely identified widgets free of
   * overlaps: the moved widget avoids every other one, and the others stay put.
   */
  lemma CommitKeepsLayoutDisjoint(ws: seq<Widget>, id: Id, r: Rect)
    requires UniqueIds(ws) && Disjoint(ws)
    requires !CheckForOverlaps(id, r, ws)
    ensures Disjoint(UpdateAll(ws, id, GeometryPatch(r)))
  {
    var ws' := UpdateAll(ws, id, GeometryPatch(r));
    forall i, j | 0 <= i < |ws'| && 0 <= j < |ws'| && i != j
      ensures !RectanglesOverlap(RectOf(ws'[i]), RectOf(ws'[j]))
    {
      if ws[i].id == id {
        assert RectOf(ws'[i]) == r;
        assert ws[j].id != id;
        OverlapSymmetric(RectOf(ws'[j]), r);
      } else if ws[j].id == id {
        assert RectOf(ws'[j]) == r;
      }
    }
  }

  /** A widget placed where the search accepted it keeps the layout free of overlaps. */
  lemma PlacementKeepsLayoutDisjoint(ws: seq<Widget>, w: Widget)
    requires Disjoint(ws)
    requires !AnyOverlap(RectOf(w), ws)
    ensures Disjoint(ws + [w])
  {
    var ws' := ws + [w];
    forall i, j | 0 <= i < |ws'| && 0 <= j < |ws'| && i != j
      ensures !RectanglesOverlap(RectOf(ws'[i]), RectOf(ws'[j]))
    {
      if j == |ws| {
        OverlapSymmetric(RectOf(ws'[i]), RectOf(w));
      } else if i != |ws| {
        assert ws'[i] == ws[i] && ws'[j] == ws[j];
      }
    }
  }

  /**
   * The widget a drop creates: the drop table's template at the drop point,
   * moved to wherever the search puts it.
   */
  predicate DropResult(ws: seq<Widget>, kind: string, x: int, y: int, id: Id, w: Widget) {
    && DropTemplate(kind).Some?
    && var t := DropTemplate(kind).value;
    && w.id == id && w.kind == kind && w.width == t.width && w.height == t.height && w.payload == t.payload
    && SearchOutcome(Rect(x, y, t.width, t.height), ws, DefaultCanvasWidth, DefaultCanvasHeight, Pos(w.x, w.y))
  }

  class Canvas {
    /** The store's state as the canvas sees it. */
    var state: DashboardState
    /** Ids of widgets whose last drag or resize was rejected (transient, never persisted). */
    var overlapping: set<Id>
    /** Every action this controller has dispatched, in order. */
    var dispatched: seq<Action>

    constructor(initial: DashboardState)
      ensures state == initial && overlapping == {} && dispatched == []
    {
      state := initial;
      overlapping := {};
      dispatched := [];
    }

    /** `dispatch(action)`: the reducer computes the next state. */
    method Dispatch(a: Action)
      modifies this
      ensures state == Reduce(old(state), a)
      ensures dispatched == old(dispatched) + [a] && overlapping == old(overlapping)
    {
      state := Reduce(state, a);
      dispatched := dispatched + [a];
    }

    /**
     * `updateWidget(id, x, y, w, h)`, run when a drag or resize stops: a
     * rectangle that overlaps another widget is rejected and flagged; any
     * other is committed and unflagged.
     */
    method UpdateWidgetGeometry(id: Id, x: int, y: int, w: int, h: int)
      modifies this
      ensures var clash := CheckForOverlaps(id, Rect(x, y, w, h), old(state).widgets);
              && (clash ==> state == old(state) && dispatched == old(dispatched) &&
                            overlapping == old(overlapping) + {id})
              && (!clash ==> overlapping == old(overlapping) - {id} &&
                             dispatched == old(dispatched) + [UpdateWidget(id, GeometryPatch(Rect(x, y, w, h)))] &&
                             state == Reduce(old(state), UpdateWidget(id, GeometryPatch(Rect(x, y, w, h)))))
      ensures UniqueIds(old(state).widgets) && Disjoint(old(state).widgets) ==> Disjoint(state.widgets)
    {
      var rect := Rect(x, y, w, h);
      var wouldOverlap := CheckForOverlaps(id, rect, state.widgets);
      if wouldOverlap {
        overlapping := overlapping + {id};
        return;
      }
      overlapping := overlapping - {id};
      if UniqueIds(state.widgets) && Disjoint(state.widgets) {
        CommitKeepsLayoutDisjoint(state.widgets, id, rect);
      }
      Dispatch(UpdateWidget(id, GeometryPatch(rect)));
    }

    /**
     * `deleteWidget(id)`: DELETE_WIDGET, then a null selection, and the id
     * leaves the overlapping set.
     */
    method DeleteWidgetAndDeselect(id: Id)
      modifies this
      ensures dispatched == old(dispatched) + [DeleteWidget(id), SetSelectedWidget(None)]
      ensures state == Reduce(Reduce(old(state), DeleteWidget(id)), SetSelectedWidget(None))
      ensures state.widgets == RemoveAll(old(state).widgets, id) && !HasId(state.widgets, id)
      ensures state.selectedWidgetId == None
      ensures overlapping == old(overlapping) - {id}
    {
      Dispatch(DeleteWidget(id));
      Dispatch(SetSelectedWidget(None));
      overlapping := overlapping - {id};
      DeleteSemantics(old(state), id);
    }

    /** Clicking a widget selects it. */
    method SelectWidget(id: Id)
      modifies this
      ensures state == Reduce(old(state), SetSelectedWidget(Some(id))) && state.selectedWidgetId == Some(id)
      ensures dispatched == old(dispatched) + [SetSelectedWidget(Some(id))] && overlapping == old(overlapping)
    {
      Dispatch(SetSelectedWidget(Some(id)));
    }

    /** The Delete key deletes the selected widget, if there is a (non-empty) selection. */
    method HandleKeyDown(key: string)
      modifies this
      ensures var sel := old(state).selectedWidgetId;
              if key == "Delete" && sel.Some? && sel.value != "" then
                dispatched == old(dispatched) + [DeleteWidget(sel.value), SetSelectedWidget(None)] &&
                state.widgets == RemoveAll(old(state).widgets, sel.value) && state.selectedWidgetId == None &&
                overlapping == old(overlapping) - {sel.value}
              else
                state == old(state) && dispatched == old(dispatched) && overlapping == old(overlapping)
    {
      var sel := state.selectedWidgetId;
      if key == "Delete" && sel.Some? && sel.value != "" {
        DeleteWidgetAndDeselect(sel.value);
      }
    }

    /**
     * `handleDrop`: a payload whose tag the drop table knows becomes one
     * ADD_WIDGET of the type's default widget, placed by the search on the
     * default 1200x800 canvas; anything else dispatches nothing.
     */
    method HandleDrop(parsed: Option<Value>, x: int, y: int, freshId: Id)
      modifies this
      ensures overlapping == old(overlapping)
      ensures var kind := DroppedKind(parsed);
              if kind.Some? && DropTemplate(kind.value).Some? then
                |dispatched| == |old(dispatched)| + 1 && dispatched[..|old(dispatched)|] == old(dispatched) &&
                var a := dispatched[|old(dispatched)|];
                a.AddWidget? && DropResult(old(state).widgets, kind.value, x, y, freshId, a.widget) &&
                state == Reduce(old(state), a)
              else
                state == old(state) && dispatched == old(dispatched)
      ensures UniqueIds(old(state).widgets) && !HasId(old(state).widgets, freshId) ==> UniqueIds(state.widgets)
    {
      var kind := DroppedKind(parsed);
      if kind.None? {
        return;
      }
      var template := DropTemplate(kind.value);
      if template.None? {
        return;
      }
      var t := template.value;
      var w := Instantiate(freshId, kind.value, x, y, t);
      var p := FindNonOverlappingPosition(RectOf(w), state.widgets, DefaultCanvasWidth, DefaultCanvasHeight);
      w := w.(x := p.x, y := p.y);
      if UniqueIds(state.widgets) && !HasId(state.widgets, freshId) {
        ReduceKeepsUniqueIds(state, AddWidget(w));
      }
      Dispatch(AddWidget(w));
    }
  }

  /**
   * A drop placed by a successful search (rather than by the fallback) keeps
   * the layout free of overlaps.
   */
  lemma DropKeepsLayoutDisjoint(ws: seq<Widget>, kind: string, x: int, y: int, id: Id, w: Widget, k: nat)
    requires Disjoint(ws) && DropResult(ws, kind, x, y, id, w)
    requires var t := DropTemplate(kind).value;
             FirstFit(Rect(x, y, t.width, t.height), ws, DefaultCanvasWidth, DefaultCanvasHeight, k) &&
             Pos(w.x, w.y) == ProbeAt(Pos(x, y), t.width, DefaultCanvasWidth, k)
    ensures Disjoint(ws + [w])
  {
    PlacementKeepsLayoutDisjoint(ws, w);
  }

  /** A sidebar add never searches: two adds of the same type land on top of each other. */
  lemma SidebarAddsStack(s: DashboardState, kind: string, id1: Id, id2: Id)
    requires SidebarTemplate(kind).width > 0 && SidebarTemplate(kind).height > 0
    ensures var s2 := Reduce(Reduce(s, SidebarAdd(kind, id1)), SidebarAdd(kind, id2));
            var n := |s.widgets|;
            |s2.widgets| == n + 2 && RectanglesOverlap(RectOf(s2.widgets[n]), RectOf(s2.widgets[n + 1]))
  {
  }

  // ---------------------------------------------------------------------------
  // Drop scenarios on the default canvas

  /** A drop of a "text" tag at (50, 50) onto an empty canvas stays at (50, 50). */
  lemma TextDropOnEmptyCanvas(p: Pos)
    requires SearchOutcome(Rect(50, 50, 300, 150), [], DefaultCanvasWidth, DefaultCanvasHeight, p)
    ensures p == Pos(50, 50)
  {
    var c := Rect(50, 50, 300, 150);
    assert ProbeAt(Pos(50, 50), 300, DefaultCanvasWidth, 0) == Pos(50, 50);
    assert FirstFit(c, [], DefaultCanvasWidth, DefaultCanvasHeight, 0);
    if k :| 0 <= k < MaxAttempts && FirstFit(c, [], DefaultCanvasWidth, DefaultCanvasHeight, k) &&
            p == ProbeAt(Pos(c.x, c.y), c.width, DefaultCanvasWidth, k) {
      FirstFitUnique(c, [], DefaultCanvasWidth, DefaultCanvasHeight, k, 0);
    }
  }

  /**
   * A drop of a "text" tag at (50, 50) beside a widget occupying
   * {0, 0, 300, 150}: the probes (50, 50), (70, 50), ..., (290, 50) all hit it,
   * and the 14th probe, (310, 50), is the first free one.
   */
  lemma TextDropBesideOccupant(occupant: Widget, p: Pos)
    requires RectOf(occupant) == Rect(0, 0, 300, 150)
    requires SearchOutcome(Rect(50, 50, 300, 150), [occupant], DefaultCanvasWidth, DefaultCanvasHeight, p)
    ensures p == Pos(310, 50)
  {
    var c := Rect(50, 50, 300, 150);
    var ws := [occupant];
    var start := Pos(50, 50);
    forall j | 0 <= j < 13
      ensures !Acceptable(ProbeAt(start, 300, DefaultCanvasWidth, j), c, ws, DefaultCanvasWidth, DefaultCanvasHeight)
    {
      ProbesAlongRow(start, 300, DefaultCanvasWidth, j);
      assert RectanglesOverlap(Rect(50 + GridSize * j, 50, 300, 150), RectOf(ws[0]));
    }
    ProbesAlongRow(start, 300, DefaultCanvasWidth, 13);
    assert FirstFit(c, ws, DefaultCanvasWidth, DefaultCanvasHeight, 13);
    if k :| 0 <= k < MaxAttempts && FirstFit(c, ws, DefaultCanvasWidth, DefaultCanvasHeight, k) &&
            p == ProbeAt(start, c.width, DefaultCanvasWidth, k) {
      FirstFitUnique(c, ws, DefaultCanvasWidth, DefaultCanvasHeight, k, 13);
    }
  }

  /** The same scenario driven through the controller: one drop, one widget, placed at (310, 50). */
  method DropTextBesideOccupant() returns (placed: Widget)
    ensures placed.kind == "text" && placed.id == "dropped"
    ensures placed.x == 310 && placed.y == 50 && placed.width == 300 && placed.height == 150
  {
    var occupant := Widget("occupant", "text", 0, 0, 300, 150, map[]);
    var canvas := new Canvas(InitialState().(widgets := [occupant]));
    canvas.HandleDrop(Some(DragPayload("text")), 50, 50, "dropped");
    DragRoundTrip("text");
    var a := canvas.dispatched[0];
    TextDropBesideOccupant(occupant, Pos(a.widget.x, a.widget.y));
    placed := canvas.state.widgets[1];
  }
}
