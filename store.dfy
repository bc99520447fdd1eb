/**
 * The widget store: the dashboard state and the reducer that maps a state and
 * an intent to the next state (src/context/DashboardContext.jsx).
 */
module Store {
  import opened Wrappers
  import opened Values

  type Id = string

  /**
   * A widget: its identity, its type tag, its integer geometry and the
   * type-specific fields (heading, chartData, maxRating, ...) as a map.
   */
  datatype Widget = Widget(id: Id, kind: string, x: int, y: int, width: int, height: int,
                           payload: map<string, Value>)

  /**
   * The `data` object of an update: the geometry keys it carries and the other
   * keys, which are spread over the widget's own.
   */
  datatype Patch = Patch(x: Option<int>, y: Option<int>, width: Option<int>, height: Option<int>,
                         fields: map<string, Value>)

  const EmptyPatch := Patch(None, None, None, None, map[])

  datatype DashboardState = DashboardState(
    widgets: seq<Widget>,
    selectedWidgetId: Option<Id>,
    theme: string,
    activeUsers: seq<string>,
    lastModifiedBy: Option<string>,
    isLoading: bool)

  /** The closed set of intents; `Unrecognised` stands for any other action type. */
  datatype Action =
    | AddWidget(widget: Widget)
    | UpdateWidget(target: Id, data: Patch)
    | DeleteWidget(victim: Id)
    | SetTheme(newTheme: string)
    | SetWidgets(replacement: seq<Widget>)
    | SetSelectedWidget(selection: Option<Id>)
    | SetActiveUsers(users: seq<string>)
    | SetLastModifiedBy(writer: Option<string>)
    | SetLoading(loading: bool)
    | ClearCanvas
    | Unrecognised(tag: string)

  function InitialState(): (s: DashboardState)
    ensures s.widgets == [] && s.selectedWidgetId == None && s.activeUsers == []
    ensures s.theme == "light" && s.lastModifiedBy == None && s.isLoading
  {
    DashboardState([], None, "light", [], None, true)
  }

  // ---------------------------------------------------------------------------
  // Identifiers

  predicate HasId(ws: seq<Widget>, id: Id) {
    exists i :: 0 <= i < |ws| && ws[i].id == id
  }

  predicate UniqueIds(ws: seq<Widget>) {
    forall i, j :: 0 <= i < j < |ws| ==> ws[i].id != ws[j].id
  }

  /** How many widgets carry `id`. */
  function CountId(ws: seq<Widget>, id: Id): nat {
    if ws == [] then 0 else CountId(ws[..|ws| - 1], id) + (if ws[|ws| - 1].id == id then 1 else 0)
  }

  // ---------------------------------------------------------------------------
  // UPDATE_WIDGET: `{ ...w, ...data }` on every widget whose id matches

  /** Shallow merge: keys present in the patch win, every other key is kept. */
  function Merge(w: Widget, p: Patch): (r: Widget)
    ensures r.id == w.id && r.kind == w.kind
    ensures p.x.Some? ==> r.x == p.x.value
    ensures p.x.None? ==> r.x == w.x
    ensures p.y.Some? ==> r.y == p.y.value
    ensures p.y.None? ==> r.y == w.y
    ensures p.width.Some? ==> r.width == p.width.value
    ensures p.width.None? ==> r.width == w.width
    ensures p.height.Some? ==> r.height == p.height.value
    ensures p.height.None? ==> r.height == w.height
    ensures r.payload.Keys == w.payload.Keys + p.fields.Keys
    ensures forall k :: k in p.fields ==> r.payload[k] == p.fields[k]
    ensures forall k :: k in w.payload && k !in p.fields ==> r.payload[k] == w.payload[k]
  {
    w.(x := p.x.GetOr(w.x), y := p.y.GetOr(w.y), width := p.width.GetOr(w.width),
       height := p.height.GetOr(w.height), payload := w.payload + p.fields)
  }

  /** An empty `data` object leaves a widget exactly as it was. */
  lemma MergeEmpty(w: Widget)
    ensures Merge(w, EmptyPatch) == w
  {
    assert w.payload + map[] == w.payload;
  }

  /** `widgets.map(w => w.id === id ? { ...w, ...data } : w)` */
  function UpdateAll(ws: seq<Widget>, id: Id, p: Patch): (r: seq<Widget>)
    ensures |r| == |ws|
    ensures forall i :: 0 <= i < |ws| && ws[i].id == id ==> r[i] == Merge(ws[i], p)
    ensures forall i :: 0 <= i < |ws| && ws[i].id != id ==> r[i] == ws[i]
  {
    if ws == [] then []
    else
      var last := ws[|ws| - 1];
      UpdateAll(ws[..|ws| - 1], id, p) + [if last.id == id then Merge(last, p) else last]
  }

  /** Updating an id that no widget carries leaves the sequence unchanged. */
  lemma UpdateAbsent(ws: seq<Widget>, id: Id, p: Patch)
    requires !HasId(ws, id)
    ensures UpdateAll(ws, id, p) == ws
  {
  }

  /** Updating with an empty `data` object leaves the sequence unchanged. */
  lemma UpdateEmpty(ws: seq<Widget>, id: Id)
    ensures UpdateAll(ws, id, EmptyPatch) == ws
  {
    forall i | 0 <= i < |ws| && ws[i].id == id
      ensures UpdateAll(ws, id, EmptyPatch)[i] == ws[i]
    {
      MergeEmpty(ws[i]);
    }
  }

  // ---------------------------------------------------------------------------
  // DELETE_WIDGET: `widgets.filter(w => w.id !== id)`

  function RemoveAll(ws: seq<Widget>, id: Id): (r: seq<Widget>)
    ensures |r| <= |ws|
    ensures forall w :: w in r <==> w in ws && w.id != id
  {
    if ws == [] then []
    else
      var last := ws[|ws| - 1];
      RemoveAll(ws[..|ws| - 1], id) + (if last.id == id then [] else [last])
  }

  /**
   * Filtering distributes over concatenation: the survivors keep their
   * relative order, and together with `RemoveAll`'s own contract this pins the
   * result down completely.
   */
  lemma {:induction false} RemoveAllAppend(a: seq<Widget>, b: seq<Widget>, id: Id)
    ensures RemoveAll(a + b, id) == RemoveAll(a, id) + RemoveAll(b, id)
    decreases |b|
  {
    if b == [] {
      assert a + b == a;
    } else {
      var last := b[|b| - 1];
      assert (a + b)[..|a + b| - 1] == a + b[..|b| - 1];
      RemoveAllAppend(a, b[..|b| - 1], id);
    }
  }

  /** Deleting an id that no widget carries leaves the sequence unchanged. */
  lemma {:induction false} RemoveAbsent(ws: seq<Widget>, id: Id)
    requires !HasId(ws, id)
    ensures RemoveAll(ws, id) == ws
  {
    if ws != [] {
      var init := ws[..|ws| - 1];
      var last := ws[|ws| - 1];
      assert last.id != id;
      assert !HasId(init, id) by {
        forall i | 0 <= i < |init| ensures init[i].id != id { assert init[i] == ws[i]; }
      }
      RemoveAbsent(init, id);
      assert RemoveAll(ws, id) == RemoveAll(init, id) + [last];
      assert ws == init + [last];
    }
  }

  /** Exactly the widgets carrying the id disappear. */
  lemma {:induction false} RemoveAllCount(ws: seq<Widget>, id: Id)
    ensures |RemoveAll(ws, id)| + CountId(ws, id) == |ws|
  {
    if ws != [] {
      RemoveAllCount(ws[..|ws| - 1], id);
    }
  }

  /** With unique ids, an id occurs at most once, and exactly once when present. */
  lemma {:induction false} CountIdUnique(ws: seq<Widget>, id: Id)
    requires UniqueIds(ws)
    ensures CountId(ws, id) == if HasId(ws, id) then 1 else 0
  {
    if ws != [] {
      var init, last := ws[..|ws| - 1], ws[|ws| - 1];
      assert UniqueIds(init);
      CountIdUnique(init, id);
      if last.id == id {
        assert !HasId(init, id) by {
          forall i | 0 <= i < |init| ensures init[i].id != id { assert init[i] == ws[i]; }
        }
      }
      assert HasId(ws, id) <==> HasId(init, id) || last.id == id by {
        if HasId(init, id) {
          var i :| 0 <= i < |init| && init[i].id == id;
          assert ws[i] == init[i];
        }
      }
    }
  }

  /** Deleting removes exactly one widget when the id is present, none otherwise. */
  lemma DeleteRemovesOne(ws: seq<Widget>, id: Id)
    requires UniqueIds(ws)
    ensures |RemoveAll(ws, id)| == if HasId(ws, id) then |ws| - 1 else |ws|
  {
    RemoveAllCount(ws, id);
    CountIdUnique(ws, id);
  }

  lemma {:induction false} RemoveAllKeepsUnique(ws: seq<Widget>, id: Id)
    requires UniqueIds(ws)
    ensures UniqueIds(RemoveAll(ws, id))
  {
    if ws != [] {
      var init, last := ws[..|ws| - 1], ws[|ws| - 1];
      assert UniqueIds(init);
      RemoveAllKeepsUnique(init, id);
      var r0 := RemoveAll(init, id);
      if last.id != id {
        forall w | w in r0 ensures w.id != last.id {
          assert w in init;
          var i :| 0 <= i < |init| && init[i] == w;
          assert ws[i] == w;
        }
      }
    }
  }

  // ---------------------------------------------------------------------------
  // The reducer

  /**
   * `reducer(state, action)`. Its contract is the frame of every field: each
   * field changes only under the intents that own it.
   */
  function Reduce(s: DashboardState, a: Action): (r: DashboardState)
    ensures !(a.AddWidget? || a.UpdateWidget? || a.DeleteWidget? || a.SetWidgets? || a.ClearCanvas?)
            ==> r.widgets == s.widgets
    ensures !(a.DeleteWidget? || a.SetSelectedWidget? || a.ClearCanvas?) ==> r.selectedWidgetId == s.selectedWidgetId
    ensures !a.SetTheme? ==> r.theme == s.theme
    ensures !a.SetActiveUsers? ==> r.activeUsers == s.activeUsers
    ensures !a.SetLastModifiedBy? ==> r.lastModifiedBy == s.lastModifiedBy
    ensures !a.SetLoading? ==> r.isLoading == s.isLoading
    ensures a.AddWidget? ==> r.widgets == s.widgets + [a.widget]
    ensures a.UpdateWidget? ==> r.widgets == UpdateAll(s.widgets, a.target, a.data)
    ensures a.DeleteWidget? ==> r.widgets == RemoveAll(s.widgets, a.victim) &&
                                (r.selectedWidgetId.None? <==> s.selectedWidgetId.None? || s.selectedWidgetId == Some(a.victim))
    ensures a.DeleteWidget? && s.selectedWidgetId != Some(a.victim) ==> r.selectedWidgetId == s.selectedWidgetId
    ensures a.SetTheme? ==> r.theme == a.newTheme
    ensures a.SetWidgets? ==> r.widgets == a.replacement
    ensures a.SetSelectedWidget? ==> r.selectedWidgetId == a.selection
    ensures a.SetActiveUsers? ==> r.activeUsers == a.users
    ensures a.SetLastModifiedBy? ==> r.lastModifiedBy == a.writer
    ensures a.SetLoading? ==> r.isLoading == a.loading
    ensures a.ClearCanvas? ==> r.widgets == [] && r.selectedWidgetId.None?
    ensures a.Unrecognised? ==> r == s
  {
    match a
    case AddWidget(w) => s.(widgets := s.widgets + [w])
    case UpdateWidget(id, p) => s.(widgets := UpdateAll(s.widgets, id, p))
    case DeleteWidget(id) =>
      s.(widgets := RemoveAll(s.widgets, id),
         selectedWidgetId := if s.selectedWidgetId == Some(id) then None else s.selectedWidgetId)
    case SetTheme(t) => s.(theme := t)
    case SetWidgets(ws) => s.(widgets := ws)
    case SetSelectedWidget(sel) => s.(selectedWidgetId := sel)
    case SetActiveUsers(us) => s.(activeUsers := us)
    case SetLastModifiedBy(m) => s.(lastModifiedBy := m)
    case SetLoading(b) => s.(isLoading := b)
    case ClearCanvas => s.(widgets := [], selectedWidgetId := None)
    case Unrecognised(_) => s
  }

  /** Dispatching a sequence of actions in order. */
  function ReduceAll(s: DashboardState, actions: seq<Action>): (r: DashboardState)
    ensures actions == [] ==> r == s
    ensures |actions| == 1 ==> r == Reduce(s, actions[0])
    ensures (forall i :: 0 <= i < |actions| ==> !actions[i].SetTheme?) ==> r.theme == s.theme
    ensures (forall i :: 0 <= i < |actions| ==> !actions[i].SetLoading?) ==> r.isLoading == s.isLoading
    ensures (forall i :: 0 <= i < |actions| ==> !actions[i].SetActiveUsers?) ==> r.activeUsers == s.activeUsers
    decreases |actions|
  {
    if actions == [] then s else ReduceAll(Reduce(s, actions[0]), actions[1..])
  }

  /** Dispatching a sequence of actions in two parts is dispatching it whole. */
  lemma {:induction false} ReduceAllAppend(s: DashboardState, a: seq<Action>, b: seq<Action>)
    ensures ReduceAll(s, a + b) == ReduceAll(ReduceAll(s, a), b)
    decreases |a|
  {
    if a == [] {
      assert a + b == b;
    } else {
      assert (a + b)[0] == a[0];
      assert (a + b)[1..] == a[1..] + b;
      ReduceAllAppend(Reduce(s, a[0]), a[1..], b);
    }
  }

  /** ADD_WIDGET appends the widget last, with no uniqueness check, and touches nothing else. */
  lemma AddAppends(s: DashboardState, w: Widget)
    ensures Reduce(s, AddWidget(w)).widgets == s.widgets + [w]
    ensures Reduce(s, AddWidget(w)).(widgets := s.widgets) == s
  {
  }

  /** UPDATE_WIDGET keeps the number, order and ids of the widgets. */
  lemma UpdateKeepsIds(s: DashboardState, id: Id, p: Patch)
    ensures var r := Reduce(s, UpdateWidget(id, p));
            |r.widgets| == |s.widgets| &&
            (forall i :: 0 <= i < |s.widgets| ==> r.widgets[i].id == s.widgets[i].id)
    ensures Reduce(s, UpdateWidget(id, p)).(widgets := s.widgets) == s
  {
  }

  /**
   * DELETE_WIDGET removes every widget carrying the id, keeps the rest, and
   * clears the selection exactly when it pointed at the deleted id.
   */
  lemma DeleteSemantics(s: DashboardState, id: Id)
    ensures var r := Reduce(s, DeleteWidget(id));
            && !HasId(r.widgets, id)
            && (forall w :: w in s.widgets && w.id != id ==> w in r.widgets)
            && (r.selectedWidgetId == None <==> s.selectedWidgetId == None || s.selectedWidgetId == Some(id))
            && (s.selectedWidgetId != Some(id) ==> r.selectedWidgetId == s.selectedWidgetId)
            && r.(widgets := s.widgets, selectedWidgetId := s.selectedWidgetId) == s
  {
  }

  /** Deleting an absent id returns a state equal to the old one when nothing was selected under it. */
  lemma DeleteAbsentIsNoOp(s: DashboardState, id: Id)
    requires !HasId(s.widgets, id) && s.selectedWidgetId != Some(id)
    ensures Reduce(s, DeleteWidget(id)) == s
  {
    RemoveAbsent(s.widgets, id);
  }

  /** CLEAR_CANVAS empties the canvas and the selection and keeps every other field. */
  lemma ClearKeepsRest(s: DashboardState)
    ensures var r := Reduce(s, ClearCanvas);
            r.widgets == [] && r.selectedWidgetId == None &&
            r.theme == s.theme && r.activeUsers == s.activeUsers &&
            r.lastModifiedBy == s.lastModifiedBy && r.isLoading == s.isLoading
  {
  }

  /** An unrecognised action type returns the state unchanged. */
  lemma UnrecognisedIsIdentity(s: DashboardState, tag: string)
    ensures Reduce(s, Unrecognised(tag)) == s
  {
  }

  /**
   * Every intent but SET_WIDGETS keeps the widget ids unique, provided an added
   * widget brings a fresh id (the store itself does not check this).
   */
  lemma ReduceKeepsUniqueIds(s: DashboardState, a: Action)
    requires UniqueIds(s.widgets)
    requires a.AddWidget? ==> !HasId(s.widgets, a.widget.id)
    requires a.SetWidgets? ==> UniqueIds(a.replacement)
    ensures UniqueIds(Reduce(s, a).widgets)
  {
    match a
    case AddWidget(w) =>
    case DeleteWidget(id) => RemoveAllKeepsUnique(s.widgets, id);
    case _ =>
  }

  /** Adding a widget whose id is already taken breaks uniqueness: the store does not guard it. */
  lemma AddDuplicateBreaksUniqueness(s: DashboardState, w: Widget)
    requires HasId(s.widgets, w.id)
    ensures !UniqueIds(Reduce(s, AddWidget(w)).widgets)
  {
    var i :| 0 <= i < |s.widgets| && s.widgets[i].id == w.id;
    var r := Reduce(s, AddWidget(w)).widgets;
    assert r[i].id == r[|r| - 1].id;
  }
}
