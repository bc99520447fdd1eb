# Collaborative dashboard core, modelled in Dafny

This project models the core of a collaborative React dashboard. Users place
widgets (text, charts, tables, calendars, ratings, sliders and more) on a
canvas. The layout and the theme are kept in a reducer-based store and are
synchronised through one shared remote document per dashboard.

The model covers:

- **Store** (`store.dfy`): the dashboard state, the closed set of intents and
  the reducer, including the shallow merge of UPDATE_WIDGET and the
  delete-with-deselect rule. It proves what each intent changes and what it
  leaves alone, and when the ids stay unique.
- **Geometry** (`geometry.dfy`): the overlap test on half-open rectangles, the
  "any other widget overlaps" check, and the grid search for a free spot. The
  search is a loop proved to return the first acceptable probe or, failing
  that, the original position.
- **Canvas controller** (`canvas.dfy`): a class holding the store state, the
  transient set of widgets whose move was rejected, and the dispatched
  actions. It covers the commit-or-reject rule for drags and resizes, delete,
  the Delete key, selection and drop-to-create. It proves that committed moves
  and successful placements keep a layout free of overlaps. It also works
  through the drop example on the default 1200×800 canvas.
- **Templates** (`templates.dfy`): the default widget per type tag, both as the
  sidebar creates it and as the drop handler creates it, and the drag payload.
- **Sync session** (`sync.dfy`): one client's session as a class whose events
  take an explicit clock. Its events are:
  - an inbound snapshot, with self-echo suppression and apply-if-different;
  - creation of a missing document;
  - a debounced local change;
  - a timer flush with fingerprint deduplication;
  - heartbeat and teardown.

  Remote calls come back as effects.
- **Presence** (`presence.dfy`): the deduplicated list of online users, and
  the stale-record sweep.
- **Renderer helpers** (`renderer.dfy`):
  - the mm:ss clock;
  - month navigation and the calendar grid;
  - rating stars;
  - falsy-value defaults;
  - fail-soft parsing of embedded JSON;
  - chart colour defaulting;
  - the weather icon.
- **Theme switcher** (`theme.dfy`): the toggle and the presence card.

`values.dfy` holds the JSON-like value type and JavaScript truthiness.
`text.dfy` holds decimal rendering and two-digit zero padding. `wrappers.dfy`
holds `Option`.

Nondeterministic inputs are parameters:

- `JSON.parse` is a function `string -> Option<Value>`, where `None` means it
  threw;
- the current time and `Date` results;
- fresh uuids;
- the pointer position of a drop;
- the random token of an anonymous writer id.

## Model

| member | source | states |
|---|---|---|
| Store.InitialState | src/context/DashboardContext.jsx:5-12 | no widgets, no selection, theme "light", no active users, no last writer, loading |
| Store.Merge | src/context/DashboardContext.jsx:22 | `{...w, ...data}`: id and type kept; each geometry key the patch carries wins, the others are kept; payload keys are the union, with the patch's values winning |
| Store.MergeEmpty | src/context/DashboardContext.jsx:22 | merging an empty patch leaves the widget unchanged |
| Store.UpdateAll | src/context/DashboardContext.jsx:18-24 | same length; each widget with the target id is merged, every other widget is unchanged |
| Store.UpdateAbsent | src/context/DashboardContext.jsx:18-24 | updating an id nobody has changes nothing |
| Store.UpdateEmpty | src/context/DashboardContext.jsx:18-24 | an empty patch changes nothing |
| Store.RemoveAll | src/context/DashboardContext.jsx:25-28 | a widget is kept iff it was present and has a different id; never longer than the input |
| Store.RemoveAbsent | src/context/DashboardContext.jsx:25-28 | filtering an absent id is the identity |
| Store.RemoveAllCount | src/context/DashboardContext.jsx:25-28 | the filter removes exactly the widgets carrying the id |
| Store.CountIdUnique | src/context/DashboardContext.jsx:25-28 | with unique ids, an id occurs once if present and never otherwise |
| Store.DeleteRemovesOne | src/context/DashboardContext.jsx:25-28 | with unique ids, deleting a present id removes exactly one widget |
| Store.RemoveAllKeepsUnique | src/context/DashboardContext.jsx:25-28 | filtering keeps ids unique |
| Store.Reduce | src/context/DashboardContext.jsx:14-62 | each state field changes only under the intents that own it; ADD_WIDGET appends, UPDATE_WIDGET merges into every widget with the id, DELETE_WIDGET removes them all and clears a selection of that id, every SET_* stores its payload in its field, CLEAR_CANVAS empties widgets and selection, an unknown type leaves the state as it is |
| Store.ReduceAll | src/context/DashboardContext.jsx:14-62 | no actions leave the state as it is, one action is one dispatch, and theme, loading flag and active users only change if the sequence holds an action that sets them |
| Store.ReduceAllAppend | src/context/DashboardContext.jsx:14-62 | dispatching a sequence in two parts equals dispatching it whole |
| Store.AddAppends | src/context/DashboardContext.jsx:16-17 | ADD_WIDGET appends last and touches nothing else |
| Store.UpdateKeepsIds | src/context/DashboardContext.jsx:18-24 | UPDATE_WIDGET keeps the number, order and ids of the widgets |
| Store.DeleteSemantics | src/context/DashboardContext.jsx:25-40 | after DELETE_WIDGET no widget has the id, every other widget survives, and the selection is cleared iff it was the deleted id |
| Store.DeleteAbsentIsNoOp | src/context/DashboardContext.jsx:25-40 | deleting an unknown, unselected id returns the same state |
| Store.ClearKeepsRest | src/context/DashboardContext.jsx:53-58 | CLEAR_CANVAS empties widgets and selection and keeps theme, users, last writer and loading |
| Store.UnrecognisedIsIdentity | src/context/DashboardContext.jsx:59-60 | an unknown action type returns the state unchanged |
| Store.ReduceKeepsUniqueIds | src/context/DashboardContext.jsx:14-62 | every intent keeps ids unique, given a fresh id for ADD_WIDGET and a unique list for SET_WIDGETS |
| Store.AddDuplicateBreaksUniqueness | src/context/DashboardContext.jsx:16-17 | the reducer itself does not check: adding a present id breaks uniqueness |
| Values.Or | src/components/canvas/WidgetRenderer.jsx:23-37 | `v \|\| d` yields the stored value iff it is truthy, else the default |
| Values.OrIdempotent | src/components/canvas/WidgetRenderer.jsx:23-37 | defaulting again with the same truthy default changes nothing |
| Text.NatToString | src/components/canvas/WidgetRenderer.jsx:60-62 | decimal digits, one digit iff below 10, two for 10..99 |
| Text.NatToStringRoundTrip | src/components/canvas/WidgetRenderer.jsx:60-62 | reading the decimal text back gives the number |
| Text.PadStart2 | src/components/canvas/WidgetRenderer.jsx:60-62 | `padStart(2, "0")`: short strings are left-padded with zeros to two characters, longer ones are kept |
| Text.PadStart2Value | src/components/canvas/WidgetRenderer.jsx:60-62 | zero padding keeps the value the digits denote |
| Geometry.RectanglesOverlap | src/components/canvas/Canvas.jsx:8-15 | for positive sizes, overlap iff both the x spans and the y spans intersect as half-open intervals |
| Geometry.OverlapSymmetric | src/components/canvas/Canvas.jsx:8-15 | overlap is symmetric |
| Geometry.OverlapReflexive | src/components/canvas/Canvas.jsx:8-15 | a rectangle of positive size overlaps itself |
| Geometry.TouchingDoNotOverlap | src/components/canvas/Canvas.jsx:8-15 | rectangles sharing only an edge do not overlap |
| Geometry.AnyOverlap | src/components/canvas/Canvas.jsx:57-64 | true iff some widget's rectangle overlaps the test rectangle |
| Geometry.CheckForOverlaps | src/components/canvas/Canvas.jsx:84-96 | true iff some widget with a different id overlaps the rectangle |
| Geometry.NeverOverlapsItself | src/components/canvas/Canvas.jsx:84-96 | adding the moving widget itself to any canvas never changes the verdict; alone it never blocks its own move |
| Geometry.Step | src/components/canvas/Canvas.jsx:46-51 | the next probe is 20 to the right, or the next row at x 0 once x passes canvasWidth − width |
| Geometry.FindNonOverlappingPosition | src/components/canvas/Canvas.jsx:18-81 | returns the first of the first 1000 probes that is in bounds and overlaps nothing, or the original position if none is |
| Geometry.SearchResultIsSafeOrOriginal | src/components/canvas/Canvas.jsx:18-81 | the search returns either an in-bounds, overlap-free position, or the candidate's own position after all 1000 probes failed |
| Geometry.FoundPositionIsSafe | src/components/canvas/Canvas.jsx:31-72 | a found position lies inside the canvas and overlaps no existing widget |
| Geometry.FittingCandidateStays | src/components/canvas/Canvas.jsx:28-68 | when the original position is acceptable, the first fit is probe 0, the original position itself |
| Geometry.FittingCandidateReturned | src/components/canvas/Canvas.jsx:18-81 | the search returns an acceptable original position unchanged |
| Geometry.FirstFitUnique | src/components/canvas/Canvas.jsx:31-77 | the first acceptable probe is unique |
| Geometry.ProbesAlongRow | src/components/canvas/Canvas.jsx:46-51 | while the row does not wrap, probe k is at start.x + 20k on the same row |
| Geometry.WrapResetsToLeftEdge | src/components/canvas/Canvas.jsx:46-51 | wrapping moves to x 0 on the row 20 lower |
| Templates.SharedTemplate | src/components/sidebar/WidgetSidebar.jsx:7-217 | a default widget exists exactly for the ten shared type tags |
| Templates.DropTemplate | src/components/canvas/Canvas.jsx:146-341 | the drop table knows the ten shared tags plus "button", and nothing else |
| Templates.SidebarTemplate | src/components/sidebar/WidgetSidebar.jsx:218-231 | unknown tags fall back to a 200×100 widget with empty content |
| Templates.SidebarAdd | src/components/sidebar/WidgetSidebar.jsx:7-232 | one ADD_WIDGET at (50, 50) with the given id and tag and the type's template, without any overlap search |
| Templates.DefaultSizes | src/components/sidebar/WidgetSidebar.jsx:7-232 | the default size of each of the eleven types |
| Templates.TablesAgree | src/components/canvas/Canvas.jsx:223-233 | both tables agree on the shared ten; "button" reads "Click Me" on drop and is empty from the sidebar |
| Templates.DroppedKind | src/components/canvas/Canvas.jsx:140-142 | a tag is read iff the payload parsed to an object whose `type` is a string; unparsable or null payloads give no tag |
| Templates.DragRoundTrip | src/components/sidebar/WidgetSidebar.jsx:235-236 | the drop handler reads back the tag the drag payload was made from |
| CanvasController.GeometryPatch | src/components/canvas/Canvas.jsx:117-120 | a committed move patches only x, y, width and height: merged into any widget it moves it onto the rectangle and leaves id, type and payload unchanged |
| CanvasController.CommitKeepsLayoutDisjoint | src/components/canvas/Canvas.jsx:102-121 | a move that passes the check keeps an overlap-free layout with unique ids overlap-free |
| CanvasController.PlacementKeepsLayoutDisjoint | src/components/canvas/Canvas.jsx:343-356 | appending a widget that overlaps nothing keeps the layout overlap-free |
| CanvasController.Canvas.constructor | src/components/canvas/Canvas.jsx:98-100 | starts from the store state with no flagged widgets |
| CanvasController.Canvas.Dispatch | src/context/DashboardContext.jsx:64-65 | the state becomes the reducer's result, and the action is recorded |
| CanvasController.Canvas.UpdateWidgetGeometry | src/components/canvas/Canvas.jsx:102-121 | on a clash the state is unchanged and the id is flagged; otherwise the id is unflagged and exactly one geometry UPDATE_WIDGET is dispatched; an overlap-free layout stays overlap-free |
| CanvasController.Canvas.DeleteWidgetAndDeselect | src/components/canvas/Canvas.jsx:123-132 | DELETE_WIDGET then a null selection: the id is gone, nothing is selected, and the id is unflagged |
| CanvasController.Canvas.SelectWidget | src/components/canvas/Canvas.jsx:396-398 | the clicked widget becomes the selection |
| CanvasController.Canvas.HandleKeyDown | src/components/canvas/Canvas.jsx:367-382 | Delete with a non-empty selection deletes and deselects it; any other key, or no selection, changes nothing |
| CanvasController.Canvas.HandleDrop | src/components/canvas/Canvas.jsx:134-360 | a payload with a known tag dispatches exactly one ADD_WIDGET with the type's template at the searched position; anything else dispatches nothing; a fresh id keeps ids unique |
| CanvasController.DropKeepsLayoutDisjoint | src/components/canvas/Canvas.jsx:343-356 | a drop placed by a successful search keeps the layout overlap-free |
| CanvasController.SidebarAddsStack | src/components/sidebar/WidgetSidebar.jsx:7-232 | two sidebar adds of one type land on top of each other |
| CanvasController.TextDropOnEmptyCanvas | src/components/canvas/Canvas.jsx:343-356 | a text drop at (50, 50) on an empty canvas stays there |
| CanvasController.TextDropBesideOccupant | src/components/canvas/Canvas.jsx:18-81 | with a 300×150 widget at (0, 0), a text drop at (50, 50) lands at (310, 50) |
| CanvasController.DropTextBesideOccupant | src/components/canvas/Canvas.jsx:134-360 | the same drop, run through the controller, adds a 300×150 text widget at (310, 50) |
| Sync.WriterIdentity | src/hooks/useFirebaseSync.jsx:27-29 | the uid when there is one, otherwise "user-" followed by the random token |
| Sync.IsOwnRecentEcho | src/hooks/useFirebaseSync.jsx:130-138 | never without a recorded local write or for another writer; only within 2000ms of the write |
| Sync.EchoWindow | src/hooks/useFirebaseSync.jsx:130-138 | one's own write seen d ms later is ignored iff d < 2000 |
| Sync.SnapshotConverges | src/hooks/useFirebaseSync.jsx:139-156 | after an applied snapshot the widgets equal the remote ones (missing means empty), a non-empty remote theme is adopted, loading is cleared on the first snapshot, and nothing else changes |
| Sync.IncomingWidgets | src/hooks/useFirebaseSync.jsx:140 | `data.widgets \|\| []`: the remote list, or empty when the document has none |
| Sync.ThemeDiffers | src/hooks/useFirebaseSync.jsx:147 | true iff the remote theme is a non-empty string other than the local one, so that adopting it changes the state |
| Sync.InboundActions | src/hooks/useFirebaseSync.jsx:139-156 | at most three actions, only SET_WIDGETS, SET_THEME and SET_LOADING; SET_WIDGETS iff the lists differ, SET_THEME iff the theme differs, SET_LOADING(false) iff not yet initialized |
| Sync.InboundDispatchRules | src/hooks/useFirebaseSync.jsx:139-156 | an identical snapshot dispatches nothing once initialized; SET_LOADING is dispatched iff not yet initialized; never a selection or last-writer change |
| Sync.Session.constructor | src/hooks/useFirebaseSync.jsx:25-32 | not initialized, nothing sent, no write recorded, no timer |
| Sync.Session.ResolveUser | src/hooks/useFirebaseSync.jsx:34-38 | a resolved uid replaces the writer id; nothing else changes |
| Sync.Session.Start | src/hooks/useFirebaseSync.jsx:188-203 | with a user, presence is written as online |
| Sync.Session.OnSnapshot | src/hooks/useFirebaseSync.jsx:121-187 | a missing document is created with defaults attributed to this writer; an own recent echo does nothing; any other snapshot dispatches the apply-if-different actions and initializes |
| Sync.Session.OnCreateResult | src/hooks/useFirebaseSync.jsx:157-185 | success initializes; success or failure clears loading |
| Sync.Session.OnLocalChange | src/hooks/useFirebaseSync.jsx:240-280 | any armed timer is replaced; a new write is due 300ms later only when initialized with a user |
| Sync.Session.OnTimer | src/hooks/useFirebaseSync.jsx:243-277 | a due write is sent unless its fingerprint equals the last one; sending records the fingerprint and the write time; nothing is sent before initialization |
| Sync.Session.OnHeartbeat | src/hooks/useFirebaseSync.jsx:282-307 | presence is refreshed only once initialized |
| Sync.Session.TearDown | src/hooks/useFirebaseSync.jsx:223-238 | the timer is cancelled and presence is written as offline |
| Sync.EchoSuppressionScenario | src/hooks/useFirebaseSync.jsx:130-149 | a write echoed back after 500ms is ignored; a different snapshot under the same writer after 3000ms is applied |
| Sync.DebounceScenario | src/hooks/useFirebaseSync.jsx:240-257 | a change within 300ms supersedes the earlier one; re-sending the same content is skipped |
| Presence.Dedup | src/hooks/useFirebaseSync.jsx:218 | `[...new Set(xs)]`: no repeats, same elements, never longer |
| Presence.DedupDistinct | src/hooks/useFirebaseSync.jsx:218 | a list without repeats is returned unchanged |
| Presence.DedupPrefix | src/hooks/useFirebaseSync.jsx:218 | later elements never reorder earlier ones: first-occurrence order |
| Presence.OnlineUserIds | src/hooks/useFirebaseSync.jsx:210-216 | the user ids of exactly the online records |
| Presence.ActiveUsers | src/hooks/useFirebaseSync.jsx:210-220 | every online user once, and no user who has only offline records |
| Presence.OnlineUserIdsAppend | src/hooks/useFirebaseSync.jsx:210-216 | the online ids of two runs of records are the first run's ids followed by the second's, in record order |
| Presence.OnlineUserIdsSingle | src/hooks/useFirebaseSync.jsx:210-216 | one record contributes its user id iff it is online |
| Presence.ActiveUsersAppend | src/hooks/useFirebaseSync.jsx:210-220 | first-occurrence order: a further record adds its user at the end iff it is online and not yet listed, and otherwise changes nothing |
| Presence.ActiveUsersPrefix | src/hooks/useFirebaseSync.jsx:210-220 | the users listed from earlier records are a prefix of the list from all records |
| Presence.PresenceAction | src/hooks/useFirebaseSync.jsx:215-221 | one SET_ACTIVE_USERS carrying the distinct online users |
| Presence.IsStale | src/hooks/useFirebaseSync.jsx:67-70 | a record is stale iff it was last seen over five minutes before now; a record without a timestamp iff now is over five minutes past the epoch |
| Presence.StaleKeysMembers | src/hooks/useFirebaseSync.jsx:63-74 | a key is deleted iff one of its records was last seen over five minutes ago |
| Presence.Sweep | src/hooks/useFirebaseSync.jsx:51-78 | deletes exactly the keys of stale records, in record order |
| Presence.RecentRecordSurvives | src/hooks/useFirebaseSync.jsx:68-70 | a record seen within five minutes survives, whether online or not |
| Presence.MissingTimestampIsStale | src/hooks/useFirebaseSync.jsx:68-70 | a record with no timestamp counts as seen at the epoch and is deleted |
| Renderer.FormatTime | src/components/canvas/WidgetRenderer.jsx:57-63 | minutes, a colon, and two-digit seconds; exactly five characters iff under 6000 seconds |
| Renderer.FormatTimeRoundTrip | src/components/canvas/WidgetRenderer.jsx:57-63 | reading the clock back gives the elapsed seconds, for every count |
| Renderer.NextMonth | src/components/canvas/WidgetRenderer.jsx:409-416 | stays in 0..11 and advances the month count by one, wrapping December into the next year |
| Renderer.PrevMonth | src/components/canvas/WidgetRenderer.jsx:400-407 | stays in 0..11 and goes back one month, wrapping January into the previous year |
| Renderer.NavigationInverse | src/components/canvas/WidgetRenderer.jsx:400-416 | next and previous undo each other |
| Renderer.CalendarCells | src/components/canvas/WidgetRenderer.jsx:436-464 | firstDayOfMonth blank cells, then days 1..daysInMonth in order; a day is highlighted iff it is today; at most one day is highlighted |
| Renderer.IsToday | src/components/canvas/WidgetRenderer.jsx:447-450 | a day is highlighted only when day, month and year all match today |
| Renderer.NumberOr | src/components/canvas/WidgetRenderer.jsx:23-37 | a missing or falsy number gives the default; a non-zero number is kept |
| Renderer.SliderValue | src/components/canvas/WidgetRenderer.jsx:24 | a missing or falsy stored value shows 50, a non-zero number is kept, and 0 is never shown |
| Renderer.InitialRating | src/components/canvas/WidgetRenderer.jsx:23 | a missing or falsy rating starts at 0, any stored number is kept |
| Renderer.FalsyDefaults | src/components/canvas/WidgetRenderer.jsx:23-24 | a slider stored at 0 shows 50; a missing rating shows 0 |
| Renderer.StarCount | src/components/canvas/WidgetRenderer.jsx:581 | `maxRating \|\| 5` stars; a count that is negative or at least 2^32 throws; another truthy value gives one star |
| Renderer.Stars | src/components/canvas/WidgetRenderer.jsx:581-593 | `count` stars, star i filled iff i < rating |
| Renderer.FilledStarsAreClampedRating | src/components/canvas/WidgetRenderer.jsx:581-596 | the number of filled stars is the rating clamped to 0..count |
| Renderer.SidebarDefaultsRender | src/components/sidebar/WidgetSidebar.jsx:150-180 | the default rating shows 3 of 5 stars; the default slider shows 50 between 0 and 100 with step 1 |
| Renderer.ParsedOrDefault | src/components/canvas/WidgetRenderer.jsx:80-116 | the parsed value when the text is non-empty and parses to something truthy; otherwise the built-in default |
| Renderer.ChartSource | src/components/canvas/WidgetRenderer.jsx:79-116 | always truthy; anything but the built-in chart is exactly what the stored text parsed to; a truthy parse is used as it is |
| Renderer.TableSource | src/components/canvas/WidgetRenderer.jsx:165-184 | always truthy; anything but the built-in table is exactly what the stored text parsed to; a truthy parse is used as it is |
| Renderer.MalformedJsonFallsBack | src/components/canvas/WidgetRenderer.jsx:163-184 | absent or malformed chart or table JSON gives the built-in chart or table |
| Renderer.RadioOptionsAsWritten | src/components/canvas/WidgetRenderer.jsx:626-643 | as written, the render throws iff the options text parses to something that is not an array |
| Renderer.RadioNullOptionsThrow | src/components/canvas/WidgetRenderer.jsx:626-643 | the options text "null" makes the radio group throw |
| Renderer.RadioOptions | src/components/canvas/WidgetRenderer.jsx:626-643 | corrected: equal to the as-written result whenever that renders; the default options otherwise |
| Renderer.Slice | src/components/canvas/WidgetRenderer.jsx:130 | `palette.slice(0, end)`: a prefix of the palette; all of it for an undefined end, min(end, length) entries for a non-negative end, and counted from the back for a negative one |
| Renderer.DataLength | src/components/canvas/WidgetRenderer.jsx:130 | `data.length`: the element count of an array, the length of a string, undefined for numbers and booleans |
| Renderer.WithColours | src/components/canvas/WidgetRenderer.jsx:119-141 | throws iff a colour is missing or falsy and `data` is missing or null; otherwise a present colour is kept, a missing one becomes its palette cut to `data.length`, border width defaults to 1, other fields are kept, and all three are truthy |
| Renderer.ColouredDatasetUnchanged | src/components/canvas/WidgetRenderer.jsx:119-141 | a dataset that already has colours and a border width is left as it is, whatever its `data` |
| Renderer.WithColoursIdempotent | src/components/canvas/WidgetRenderer.jsx:119-141 | defaulting a dataset that renders a second time changes nothing |
| Renderer.DataReadOnlyForMissingColours | src/components/canvas/WidgetRenderer.jsx:119-141 | a coloured dataset without `data` renders, one missing a colour and `data` throws, and string `data` cuts the palette to the string's length |
| Renderer.DefaultDatasetComplete | src/components/canvas/WidgetRenderer.jsx:88-116 | the built-in dataset already has colours and a border width, so defaulting leaves it unchanged |
| Renderer.WeatherIcon | src/components/canvas/WidgetRenderer.jsx:297-313 | a specific icon iff the code's first two characters are a known code; 03 and 04 share the cloud icon |
| Renderer.IconIgnoresSuffix | src/components/canvas/WidgetRenderer.jsx:311-312 | characters after the first two never change the icon |
| Theme.Toggled | src/components/theming/ThemeSwitcher.jsx:6-11 | always light or dark; dark iff the current theme is light |
| Theme.ToggleTwice | src/components/theming/ThemeSwitcher.jsx:6-11 | toggling twice restores light and dark; any other theme ends up dark |
| Theme.ToggleActions | src/components/theming/ThemeSwitcher.jsx:7-10 | a click dispatches exactly one SET_THEME |
| Theme.ToggleChangesOnlyTheme | src/components/theming/ThemeSwitcher.jsx:6-11 | the click changes the theme to the toggled one and nothing else |
| Theme.PresenceLabel | src/components/theming/ThemeSwitcher.jsx:20-23 | starts with the count and ends in "s" iff the count is not 1 |
| Theme.PresenceLabelCount | src/components/theming/ThemeSwitcher.jsx:20-23 | the number at the head of the label is the number of active users |
| Theme.Render | src/components/theming/ThemeSwitcher.jsx:13-43 | card shown iff users are active; "Last modified by" only inside it and only for a truthy writer; button title and icon follow the toggle |
| Theme.RenderDependsOnlyOn | src/components/theming/ThemeSwitcher.jsx:16-43 | the button depends only on whether the theme is light; the card only on the user count and the last writer |

## Left out

- Remote store I/O, authentication, and the timer and interval machinery are not executed. Snapshots, settled writes, timer expiries and heartbeats are events of the session, and remote writes are returned as effects. Server timestamps are not modelled.
- Concurrency between sessions and the ordering of remote writes are not modelled: each session is modelled on its own.
- `JSON.stringify` equality is taken as value equality. Key order and textual formatting are not modelled.
- The template JSON strings are compact, not pretty-printed.
- `JSON.parse` is an uninterpreted parameter. The JSON text format is not modelled.
- Numbers are integers. Floating point is not modelled, and neither is the weather fetch with its unit arithmetic.
- `Date` results are parameters: days in month, first weekday, today, and now.
- Uuid generation, the random writer token and the drop's pointer coordinates are parameters.
- PropertiesPanel and the App shell are not part of this model.
- The `pendingLocalChangesRef` bookkeeping is not modelled. It is never read by the decisions.
- The beforeunload and pagehide presence writes are not modelled. They repeat the teardown's offline write.
- The recording timer is not modelled, and neither are markup, Chart.js and the drag/resize widget library.
- React closure staleness is not modelled. Each event sees the state it is given.
- Store.Merge: geometry, id and type are separate fields of a widget and a patch, so a patch or payload key named `x`, `y`, `width`, `height`, `id` or `type` is an ordinary payload key here, whereas in the source such a key would overwrite the widget's geometry or identity. No caller sends `id` or `type`. The callers that send geometry keys (src/components/canvas/Canvas.jsx:119, and the width and height inputs of PropertiesPanel, which is not part of this model) map onto the patch's geometry fields.
- Renderer.NumberOr: a truthy value that is not a number yields `None`. JavaScript's coercion of such a value is not modelled.
- Renderer.DataLength: an object's own `length` field counts only when it is a number, and a string's length counts Unicode scalar values rather than UTF-16 code units; other `length` values, and `slice`'s coercion of them, are not modelled.
- Renderer.ParsedOrDefault: a chart or table that parses to a truthy value of the wrong shape makes the source throw while rendering. That crash is not modelled.
- Values.Value: string fields holding numbers, and similar type mixes in widget records, are not modelled.

## Findings

| source | as written | input that shows it | evidently intended | confidence | as-written member | corrected member |
|---|---|---|---|---|---|---|
| src/components/canvas/WidgetRenderer.jsx:626-643 | only a parse that throws falls back to the default options; a well-formed value that is not an array reaches `.map` | options text `null`, which parses to null | any options value that is not a list falls back to the default options | not executed | Renderer.RadioOptionsAsWritten | Renderer.RadioOptions |
