/**
 * The default widgets: the per-type table shared by the sidebar's `addWidget`
 * (src/components/sidebar/WidgetSidebar.jsx) and the canvas's `handleDrop`
 * (src/components/canvas/Canvas.jsx), the sidebar's fallback for other tags,
 * the drop table's extra "button" entry, and the drag payload `{type}`.
 */
module Templates {
  import opened Wrappers
  import opened Values
  import opened Store

  /** Default size and payload of a new widget of one type. */
  datatype Template = Template(width: int, height: int, payload: map<string, Value>)

  /** Every new widget carries an empty `data: {}` object. */
  const EmptyData := Obj(map[])

  /** The ten tags both tables know; the drop table also knows "button", the sidebar does not. */
  const SharedKinds := {"text", "chart", "table", "weather", "calendar", "image", "rating",
                        "range-slider", "radio-group", "microphone"}

  /** Default chart data, as the JSON text stored in `chartData`. */
  const ChartDataJson := "{\"labels\":[\"Red\",\"Blue\",\"Yellow\",\"Green\",\"Purple\",\"Orange\"],"
    + "\"datasets\":[{\"label\":\"Votes\",\"data\":[12,19,3,5,2,3],"
    + "\"backgroundColor\":[\"rgba(255, 99, 132, 0.5)\",\"rgba(54, 162, 235, 0.5)\",\"rgba(255, 206, 86, 0.5)\","
    + "\"rgba(75, 192, 192, 0.5)\",\"rgba(153, 102, 255, 0.5)\",\"rgba(255, 159, 64, 0.5)\"],"
    + "\"borderColor\":[\"rgba(255, 99, 132, 1)\",\"rgba(54, 162, 235, 1)\",\"rgba(255, 206, 86, 1)\","
    + "\"rgba(75, 192, 192, 1)\",\"rgba(153, 102, 255, 1)\",\"rgba(255, 159, 64, 1)\"],\"borderWidth\":1}]}"

  /** Default table data, as the JSON text stored in `tableData`. */
  const TableDataJson := "{\"headers\":[\"Name\",\"Age\",\"City\",\"Salary\"],\"rows\":["
    + "[\"John Doe\",\"30\",\"New York\",\"$50,000\"],[\"Jane Smith\",\"25\",\"Los Angeles\",\"$45,000\"],"
    + "[\"Bob Johnson\",\"35\",\"Chicago\",\"$60,000\"],[\"Alice Brown\",\"28\",\"Houston\",\"$55,000\"]]}"

  /** Default calendar events, as the JSON text stored in `events`. */
  const EventsJson := "[{\"date\":\"2024-01-15\",\"title\":\"Team Meeting\",\"time\":\"10:00 AM\"},"
    + "{\"date\":\"2024-01-20\",\"title\":\"Project Deadline\",\"time\":\"5:00 PM\"},"
    + "{\"date\":\"2024-01-25\",\"title\":\"Client Call\",\"time\":\"2:30 PM\"}]"

  /** Default radio options, as the JSON text stored in `options`. */
  const OptionsJson := "[\"Option 1\",\"Option 2\",\"Option 3\",\"Option 4\"]"

  /** The ten-entry table the sidebar and the drop handler have in common. */
  function SharedTemplate(kind: string): (t: Option<Template>)
    ensures t.Some? <==> kind in SharedKinds
  {
    if kind == "text" then
      Some(Template(300, 150, map["heading" := Str("New Heading"),
                                  "content" := Str("Add your text content here..."), "data" := EmptyData]))
    else if kind == "chart" then
      Some(Template(400, 300, map["chartTitle" := Str("Sample Bar Chart"), "chartData" := Str(ChartDataJson),
                                  "data" := EmptyData]))
    else if kind == "table" then
      Some(Template(500, 300, map["tableTitle" := Str("Sample Table"), "tableData" := Str(TableDataJson),
                                  "data" := EmptyData]))
    else if kind == "weather" then
      Some(Template(250, 200, map["city" := Str("Bangalore"), "temperature" := Str("Loading..."),
                                  "condition" := Str("Loading..."), "humidity" := Str("Loading..."),
                                  "windSpeed" := Str("Loading..."), "data" := EmptyData]))
    else if kind == "calendar" then
      Some(Template(300, 350, map["title" := Str("Calendar"), "events" := Str(EventsJson), "data" := EmptyData]))
    else if kind == "image" then
      Some(Template(300, 200, map["imageUrl" := Str("https://picsum.photos/300/200"),
                                  "altText" := Str("Sample Image"), "caption" := Str("Image Caption"),
                                  "data" := EmptyData]))
    else if kind == "rating" then
      Some(Template(250, 120, map["title" := Str("Rate this product"), "maxRating" := Num(5),
                                  "currentRating" := Num(3), "data" := EmptyData]))
    else if kind == "range-slider" then
      Some(Template(300, 120, map["title" := Str("Volume Control"), "min" := Num(0), "max" := Num(100),
                                  "value" := Num(50), "step" := Num(1), "data" := EmptyData]))
    else if kind == "radio-group" then
      Some(Template(250, 200, map["title" := Str("Select your preference"), "options" := Str(OptionsJson),
                                  "selectedOption" := Str("Option 1"), "data" := EmptyData]))
    else if kind == "microphone" then
      Some(Template(200, 150, map["title" := Str("Voice Recorder"), "isRecording" := Bool(false),
                                  "recordingTime" := Num(0), "data" := EmptyData]))
    else None
  }

  /** The drop handler's table: the shared ten plus "button"; any other tag creates nothing. */
  function DropTemplate(kind: string): (t: Option<Template>)
    ensures t.Some? <==> kind in SharedKinds || kind == "button"
    ensures kind != "button" ==> t == SharedTemplate(kind)
  {
    if kind == "button" then Some(Template(200, 100, map["content" := Str("Click Me"), "data" := EmptyData]))
    else SharedTemplate(kind)
  }

  /** The sidebar's table: the shared ten, and 200x100 with empty content for every other tag. */
  function SidebarTemplate(kind: string): (t: Template)
    ensures kind in SharedKinds ==> Some(t) == SharedTemplate(kind)
    ensures kind !in SharedKinds ==> t == Template(200, 100, map["content" := Str(""), "data" := EmptyData])
  {
    match SharedTemplate(kind)
    case Some(t) => t
    case None => Template(200, 100, map["content" := Str(""), "data" := EmptyData])
  }

  function Instantiate(id: Id, kind: string, x: int, y: int, t: Template): Widget {
    Widget(id, kind, x, y, t.width, t.height, t.payload)
  }

  /**
   * `addWidget(type)`: exactly one ADD_WIDGET, at (50, 50), with no overlap
   * search, whatever the tag.
   */
  function SidebarAdd(kind: string, id: Id): (a: Action)
    ensures a.AddWidget? && a.widget.id == id && a.widget.kind == kind
    ensures a.widget.x == 50 && a.widget.y == 50
    ensures kind in SharedKinds ==>
              SharedTemplate(kind) == Some(Template(a.widget.width, a.widget.height, a.widget.payload))
    ensures kind !in SharedKinds ==>
              a.widget.width == 200 && a.widget.height == 100 &&
              a.widget.payload == map["content" := Str(""), "data" := EmptyData]
  {
    AddWidget(Instantiate(id, kind, 50, 50, SidebarTemplate(kind)))
  }

  /** The default size of every type (the sidebar's and, for these ten, the drop handler's). */
  lemma DefaultSizes()
    ensures SidebarTemplate("text").width == 300 && SidebarTemplate("text").height == 150
    ensures SidebarTemplate("chart").width == 400 && SidebarTemplate("chart").height == 300
    ensures SidebarTemplate("table").width == 500 && SidebarTemplate("table").height == 300
    ensures SidebarTemplate("weather").width == 250 && SidebarTemplate("weather").height == 200
    ensures SidebarTemplate("calendar").width == 300 && SidebarTemplate("calendar").height == 350
    ensures SidebarTemplate("image").width == 300 && SidebarTemplate("image").height == 200
    ensures SidebarTemplate("rating").width == 250 && SidebarTemplate("rating").height == 120
    ensures SidebarTemplate("range-slider").width == 300 && SidebarTemplate("range-slider").height == 120
    ensures SidebarTemplate("radio-group").width == 250 && SidebarTemplate("radio-group").height == 200
    ensures SidebarTemplate("microphone").width == 200 && SidebarTemplate("microphone").height == 150
    ensures SidebarTemplate("button").width == 200 && SidebarTemplate("button").height == 100
  {
  }

  /** The two tables agree on the shared ten and disagree only on "button". */
  lemma TablesAgree(kind: string)
    ensures kind in SharedKinds ==> DropTemplate(kind) == Some(SidebarTemplate(kind))
    ensures DropTemplate("button").value.payload["content"] == Str("Click Me")
    ensures SidebarTemplate("button").payload["content"] == Str("")
  {
  }

  // ---------------------------------------------------------------------------
  // The drag payload

  /** `handleDragStart`: the JSON object `{ type }`. */
  function DragPayload(kind: string): Value {
    Obj(map["type" := Str(kind)])
  }

  /**
   * The tag the drop handler reads from the parsed payload: nothing when the
   * text did not parse (`None`), when it parsed to `null` (reading `.type`
   * throws) or when `type` is missing or not a string.
   */
  function DroppedKind(parsed: Option<Value>): (kind: Option<string>)
    ensures kind.Some? <==> parsed.Some? && parsed.value.Obj? && "type" in parsed.value.fields &&
                            parsed.value.fields["type"].Str?
    ensures kind.Some? ==> kind.value == parsed.value.fields["type"].s
  {
    match parsed
    case Some(Obj(fields)) =>
      if "type" in fields && fields["type"].Str? then Some(fields["type"].s) else None
    case _ => None
  }

  /** The drag payload is read back as the tag it was made from. */
  lemma DragRoundTrip(kind: string)
    ensures DroppedKind(Some(DragPayload(kind))) == Some(kind)
  {
  }
}
