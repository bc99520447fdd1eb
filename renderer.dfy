/**
 * The pure helpers of the widget renderer (src/components/canvas/WidgetRenderer.jsx):
 * the recorder's mm:ss clock, calendar navigation and its grid of cells,
 * rating stars, the falsy-value defaults, the fail-soft parsing of embedded
 * JSON, chart colour defaulting and the weather icon lookup. `JSON.parse` is
 * a parameter (`None` when it throws); `Date` results are parameters too.
 */
module Renderer {
  import opened Wrappers
  import opened Values
  import opened Text
  import opened Templates

  // ---------------------------------------------------------------------------
  // Recorder clock

  /** `mm:ss` with both parts zero-padded to two digits; minutes may grow past two digits. */
  function FormatTime(seconds: nat): (t: string)
    ensures |t| >= 5 && t[|t| - 3] == ':'
    ensures seconds < 6000 <==> |t| == 5
  {
    PadStart2(NatToString(seconds / 60)) + ":" + PadStart2(NatToString(seconds % 60))
  }

  /** Reads a clock back: the digits before the last three characters are minutes, the last two seconds. */
  function ParseTime(t: string): Option<nat> {
    if |t| >= 4 && t[|t| - 3] == ':' && AllDigits(t[..|t| - 3]) && AllDigits(t[|t| - 2..]) then
      Some(60 * ParseNat(t[..|t| - 3]) + ParseNat(t[|t| - 2..]))
    else
      None
  }

  /** A clock assembled from a digit string and two digits is read back part by part. */
  lemma ParseTimeOfParts(minutes: string, secs: string)
    requires 1 <= |minutes| && AllDigits(minutes) && |secs| == 2 && AllDigits(secs)
    ensures ParseTime(minutes + ":" + secs) == Some(60 * ParseNat(minutes) + ParseNat(secs))
  {
    var t := minutes + ":" + secs;
    assert |t| == |minutes| + 3 && t[|t| - 3] == ':';
    assert t[..|t| - 3] == minutes;
    assert t[|t| - 2..] == secs;
  }

  /** The clock shows exactly the elapsed seconds: reading it back gives them again. */
  lemma FormatTimeRoundTrip(seconds: nat)
    ensures ParseTime(FormatTime(seconds)) == Some(seconds)
  {
    var m := NatToString(seconds / 60);
    var s := NatToString(seconds % 60);
    PadStart2Value(m);
    PadStart2Value(s);
    ParseTimeOfParts(PadStart2(m), PadStart2(s));
    NatToStringRoundTrip(seconds / 60);
    NatToStringRoundTrip(seconds % 60);
  }

  // ---------------------------------------------------------------------------
  // Calendar

  /** The month shown, numbered 0..11 as `Date.getMonth()` does. */
  datatype MonthYear = MonthYear(month: int, year: int)

  predicate ValidMonth(c: MonthYear) {
    0 <= c.month < 12
  }

  /** Months counted from the start of year 0. */
  function MonthIndex(c: MonthYear): int {
    12 * c.year + c.month
  }

  /** `goToNextMonth`: December wraps to January of the next year. */
  function NextMonth(c: MonthYear): (r: MonthYear)
    requires ValidMonth(c)
    ensures ValidMonth(r)
    ensures MonthIndex(r) == MonthIndex(c) + 1
  {
    if c.month == 11 then MonthYear(0, c.year + 1) else MonthYear(c.month + 1, c.year)
  }

  /** `goToPreviousMonth`: January wraps to December of the previous year. */
  function PrevMonth(c: MonthYear): (r: MonthYear)
    requires ValidMonth(c)
    ensures ValidMonth(r)
    ensures MonthIndex(r) == MonthIndex(c) - 1
  {
    if c.month == 0 then MonthYear(11, c.year - 1) else MonthYear(c.month - 1, c.year)
  }

  /** The two navigation buttons undo each other. */
  lemma NavigationInverse(c: MonthYear)
    requires ValidMonth(c)
    ensures PrevMonth(NextMonth(c)) == c
    ensures NextMonth(PrevMonth(c)) == c
  {
  }

  /** A calendar cell: padding before the first weekday, or a day of the month. */
  datatype Cell = Blank | Day(day: nat, isToday: bool)

  /** A calendar date as `Date` reports it (day of month, month 0..11, full year). */
  datatype Date = Date(day: int, month: int, year: int)

  /** `day === today.getDate() && currentMonth === today.getMonth() && currentYear === today.getFullYear()` */
  predicate IsToday(day: int, shown: MonthYear, today: Date)
    ensures IsToday(day, shown, today) ==> day == today.day && MonthYear(today.month, today.year) == shown
  {
    day == today.day && shown.month == today.month && shown.year == today.year
  }

  /**
   * The grid: `firstDayOfMonth` blank cells, then the days 1..daysInMonth in
   * order, the one matching today's date highlighted.
   */
  method CalendarCells(firstDayOfMonth: nat, daysInMonth: nat, shown: MonthYear, today: Date)
    returns (cells: seq<Cell>)
    ensures |cells| == firstDayOfMonth + daysInMonth
    ensures forall k :: 0 <= k < firstDayOfMonth ==> cells[k] == Blank
    ensures forall k :: firstDayOfMonth <= k < |cells| ==>
              cells[k] == Day(k - firstDayOfMonth + 1, IsToday(k - firstDayOfMonth + 1, shown, today))
    ensures forall i, j :: 0 <= i < j < |cells| && cells[i].Day? && cells[i].isToday ==> !(cells[j].Day? && cells[j].isToday)
  {
    cells := [];
    var i := 0;
    while i < firstDayOfMonth
      invariant i <= firstDayOfMonth && |cells| == i
      invariant forall k :: 0 <= k < i ==> cells[k] == Blank
    {
      cells := cells + [Blank];
      i := i + 1;
    }
    var day := 1;
    while day <= daysInMonth
      invariant 1 <= day <= daysInMonth + 1
      invariant |cells| == firstDayOfMonth + day - 1
      invariant forall k :: 0 <= k < firstDayOfMonth ==> cells[k] == Blank
      invariant forall k :: firstDayOfMonth <= k < |cells| ==>
                  cells[k] == Day(k - firstDayOfMonth + 1, IsToday(k - firstDayOfMonth + 1, shown, today))
    {
      cells := cells + [Day(day, IsToday(day, shown, today))];
      day := day + 1;
    }
  }

  // ---------------------------------------------------------------------------
  // Falsy-value defaults

  /**
   * `field || d` for a numeric field: a missing or falsy value gives the
   * default. A truthy value that is not a number gives `None`: JavaScript's
   * coercion of it is not modelled.
   */
  function NumberOr(v: Option<Value>, d: int): (r: Option<int>)
    ensures !Present(v) ==> r == Some(d)
    ensures v.Some? && v.value.Num? && v.value.n != 0 ==> r == Some(v.value.n)
    ensures r.Some? && r.value == 0 ==> d == 0
  {
    match Or(v, Num(d))
    case Num(n) => Some(n)
    case _ => None
  }

  /** `useState(widget.value || 50)` and `useState(widget.currentRating || 0)`. */
  function SliderValue(stored: Option<Value>): (v: Option<int>)
    ensures !Present(stored) ==> v == Some(50)
    ensures stored.Some? && stored.value.Num? && stored.value.n != 0 ==> v == Some(stored.value.n)
    ensures v != Some(0)
  {
    NumberOr(stored, 50)
  }

  function InitialRating(stored: Option<Value>): (v: Option<int>)
    ensures !Present(stored) ==> v == Some(0)
    ensures stored.Some? && stored.value.Num? ==> v == Some(stored.value.n)
  {
    NumberOr(stored, 0)
  }

  /** A slider stored at 0 shows 50 (0 is falsy); a missing rating shows 0. */
  lemma FalsyDefaults()
    ensures SliderValue(Some(Num(0))) == Some(50)
    ensures SliderValue(None) == Some(50)
    ensures SliderValue(Some(Num(7))) == Some(7)
    ensures InitialRating(None) == Some(0)
    ensures InitialRating(Some(Num(4))) == Some(4)
  {
  }

  // ---------------------------------------------------------------------------
  // Rating stars

  /** Array lengths are 32-bit unsigned: `Array(n)` throws a RangeError for any other number. */
  const MaxArrayLength := 0x1_0000_0000

  /**
   * `[...Array(widget.maxRating || 5)]`: a number in 0..2^32-1 gives that many
   * stars, any other number makes `Array` throw (`None`), and any other truthy
   * value gives a one-element array.
   */
  function StarCount(maxRating: Option<Value>): (n: Option<nat>)
    ensures !Present(maxRating) ==> n == Some(5)
    ensures Present(maxRating) && maxRating.value.Num? ==>
              (n.None? <==> maxRating.value.n < 0 || maxRating.value.n >= MaxArrayLength) &&
              (n.Some? ==> n.value == maxRating.value.n)
    ensures Present(maxRating) && !maxRating.value.Num? ==> n == Some(1)
    ensures n.Some? ==> n.value < MaxArrayLength
  {
    match Or(maxRating, Num(5))
    case Num(k) => if k < 0 || k >= MaxArrayLength then None else Some(k)
    case _ => Some(1)
  }

  /** Star i (from 0) is filled iff i < rating. */
  function Stars(count: nat, rating: int): (filled: seq<bool>)
    ensures |filled| == count
    ensures forall i :: 0 <= i < count ==> (filled[i] <==> i < rating)
  {
    if count == 0 then [] else Stars(count - 1, rating) + [count - 1 < rating]
  }

  function CountFilled(filled: seq<bool>): nat {
    if filled == [] then 0 else CountFilled(filled[..|filled| - 1]) + (if filled[|filled| - 1] then 1 else 0)
  }

  /** The number of filled stars is the rating clamped to 0..count. */
  lemma {:induction false} FilledStarsAreClampedRating(count: nat, rating: int)
    ensures CountFilled(Stars(count, rating)) ==
            if rating <= 0 then 0 else if rating >= count then count else rating
  {
    if count > 0 {
      var s := Stars(count, rating);
      assert s[..|s| - 1] == Stars(count - 1, rating);
      FilledStarsAreClampedRating(count - 1, rating);
    }
  }

  /**
   * The sidebar's rating and slider defaults render as intended: three of
   * five stars filled, and the slider at 50 between 0 and 100.
   */
  lemma SidebarDefaultsRender()
    ensures var p := SidebarTemplate("rating").payload;
            && StarCount(Some(p["maxRating"])) == Some(5)
            && InitialRating(Some(p["currentRating"])) == Some(3)
            && CountFilled(Stars(5, 3)) == 3
    ensures var p := SidebarTemplate("range-slider").payload;
            && SliderValue(Some(p["value"])) == Some(50)
            && NumberOr(Some(p["min"]), 0) == Some(0)
            && NumberOr(Some(p["max"]), 100) == Some(100)
            && NumberOr(Some(p["step"]), 1) == Some(1)
  {
    FilledStarsAreClampedRating(5, 3);
  }

  // ---------------------------------------------------------------------------
  // Embedded JSON with fail-soft parsing

  /**
   * `(raw ? JSON.parse(raw) : null) || d`, where a parse that throws is
   * caught and treated as null: the parsed value when parsing succeeds with a
   * truthy value, the built-in default otherwise.
   */
  function ParsedOrDefault(raw: Option<string>, parse: string -> Option<Value>, d: Value): (r: Value)
    ensures raw.None? || raw.value == "" ==> r == d
    ensures raw.Some? && raw.value != "" && parse(raw.value).None? ==> r == d
    ensures raw.Some? && raw.value != "" && parse(raw.value).Some? ==>
              r == if Truthy(parse(raw.value).value) then parse(raw.value).value else d
  {
    var parsed := if raw.Some? && raw.value != "" then parse(raw.value) else None;
    Or(parsed, d)
  }

  /** The built-in chart when `chartData` is absent, malformed or parses to a falsy value. */
  const DefaultChart := Obj(map[
    "labels" := Arr([Str("Red"), Str("Blue"), Str("Yellow"), Str("Green"), Str("Purple"), Str("Orange")]),
    "datasets" := Arr([Obj(DefaultDataset)])])

  const DefaultDataset := map[
    "label" := Str("Votes"),
    "data" := Arr([Num(12), Num(19), Num(3), Num(5), Num(2), Num(3)]),
    "backgroundColor" := Arr(FillPalette),
    "borderColor" := Arr(BorderPalette),
    "borderWidth" := Num(1)]

  /** The built-in table. */
  const DefaultTable := Obj(map[
    "headers" := Arr([Str("Name"), Str("Age"), Str("City"), Str("Salary")]),
    "rows" := Arr([
      Arr([Str("John Doe"), Str("30"), Str("New York"), Str("$50,000")]),
      Arr([Str("Jane Smith"), Str("25"), Str("Los Angeles"), Str("$45,000")]),
      Arr([Str("Bob Johnson"), Str("35"), Str("Chicago"), Str("$60,000")]),
      Arr([Str("Alice Brown"), Str("28"), Str("Houston"), Str("$55,000")])])])

  function ChartSource(chartData: Option<string>, parse: string -> Option<Value>): (v: Value)
    ensures Truthy(v)
    ensures v == DefaultChart || (chartData.Some? && parse(chartData.value) == Some(v))
    ensures (chartData.Some? && chartData.value != "" && parse(chartData.value).Some? &&
             Truthy(parse(chartData.value).value)) ==> v == parse(chartData.value).value
  {
    ParsedOrDefault(chartData, parse, DefaultChart)
  }

  function TableSource(tableData: Option<string>, parse: string -> Option<Value>): (v: Value)
    ensures Truthy(v)
    ensures v == DefaultTable || (tableData.Some? && parse(tableData.value) == Some(v))
    ensures (tableData.Some? && tableData.value != "" && parse(tableData.value).Some? &&
             Truthy(parse(tableData.value).value)) ==> v == parse(tableData.value).value
  {
    ParsedOrDefault(tableData, parse, DefaultTable)
  }

  /** Malformed or absent chart and table JSON falls back to the built-ins instead of failing. */
  lemma MalformedJsonFallsBack(raw: Option<string>, parse: string -> Option<Value>)
    requires raw.None? || parse(raw.value).None?
    ensures ChartSource(raw, parse) == DefaultChart
    ensures TableSource(raw, parse) == DefaultTable
  {
  }

  const DefaultOptions := Arr([Str("Option 1"), Str("Option 2"), Str("Option 3"), Str("Option 4")])

  /**
   * The radio options as written: `raw ? JSON.parse(raw) : defaults`, with a
   * throwing parse caught, then `.map` over the result. `None` is the render
   * throwing because the parsed value is not an array.
   */
  function RadioOptionsAsWritten(raw: Option<string>, parse: string -> Option<Value>): (r: Option<seq<Value>>)
    ensures raw.None? || raw.value == "" ==> r == Some(DefaultOptions.items)
    ensures r.None? <==> raw.Some? && raw.value != "" && parse(raw.value).Some? && !parse(raw.value).value.Arr?
  {
    var parsed := if raw.Some? && raw.value != "" && parse(raw.value).Some? then parse(raw.value).value else DefaultOptions;
    if parsed.Arr? then Some(parsed.items) else None
  }

  /** JSON text `null` parses to null, and the options list then throws instead of falling back. */
  lemma RadioNullOptionsThrow()
    ensures RadioOptionsAsWritten(Some("null"), (s: string) => if s == "null" then Some(Null) else None).None?
  {
  }

  /** The options list with the fallback extended to every well-formed value that is not an array. */
  function RadioOptions(raw: Option<string>, parse: string -> Option<Value>): (r: seq<Value>)
    ensures RadioOptionsAsWritten(raw, parse).Some? ==> r == RadioOptionsAsWritten(raw, parse).value
    ensures RadioOptionsAsWritten(raw, parse).None? ==> r == DefaultOptions.items
    ensures raw.Some? && raw.value != "" && parse(raw.value).Some? && parse(raw.value).value.Arr? ==>
              r == parse(raw.value).value.items
  {
    var parsed := if raw.Some? && raw.value != "" && parse(raw.value).Some? then parse(raw.value).value else DefaultOptions;
    if parsed.Arr? then parsed.items else DefaultOptions.items
  }

  // ---------------------------------------------------------------------------
  // Chart colours

  const FillPalette: seq<Value> :=
    [Str("rgba(255, 99, 132, 0.5)"), Str("rgba(54, 162, 235, 0.5)"), Str("rgba(255, 206, 86, 0.5)"),
     Str("rgba(75, 192, 192, 0.5)"), Str("rgba(153, 102, 255, 0.5)"), Str("rgba(255, 159, 64, 0.5)")]
  const BorderPalette: seq<Value> :=
    [Str("rgba(255, 99, 132, 1)"), Str("rgba(54, 162, 235, 1)"), Str("rgba(255, 206, 86, 1)"),
     Str("rgba(75, 192, 192, 1)"), Str("rgba(153, 102, 255, 1)"), Str("rgba(255, 159, 64, 1)")]

  /** `palette.slice(0, end)`: `undefined` keeps the whole palette, a negative end counts from the back. */
  function Slice(palette: seq<Value>, end: Option<int>): (r: seq<Value>)
    ensures r <= palette
    ensures end.None? ==> r == palette
    ensures end.Some? && 0 <= end.value ==> |r| == if end.value < |palette| then end.value else |palette|
    ensures end.Some? && end.value < 0 ==> |r| == if -end.value < |palette| then |palette| + end.value else 0
  {
    if end.None? then palette
    else
      var e := if end.value < 0 then |palette| + end.value else end.value;
      if e <= 0 then [] else if e < |palette| then palette[..e] else palette
  }

  function Field(m: map<string, Value>, k: string): Option<Value> {
    if k in m then Some(m[k]) else None
  }

  /** `dataset.data` is present and not null, so reading `.length` on it does not throw. */
  predicate DataReadable(dataset: map<string, Value>) {
    "data" in dataset && dataset["data"] != Null
  }

  /**
   * `data.length` for a readable `data`: arrays and strings have one, an
   * object has its own numeric `length` field if it carries one, and every
   * other value has none (`undefined`).
   */
  function DataLength(data: Value): (n: Option<int>)
    ensures data.Arr? ==> n == Some(|data.items|)
    ensures data.Str? ==> n == Some(|data.s|)
    ensures data.Num? || data.Bool? || data.Null? ==> n == None
  {
    match data
    case Arr(items) => Some(|items|)
    case Str(chars) => Some(|chars|)
    case Obj(fields) => if "length" in fields && fields["length"].Num? then Some(fields["length"].n) else None
    case _ => None
  }

  const ColourKeys := {"backgroundColor", "borderColor", "borderWidth"}

  /**
   * `{...dataset, backgroundColor: dataset.backgroundColor || palette.slice(0,
   * dataset.data.length), ...}`: a missing or falsy colour becomes the palette
   * cut to the length of `data`, a missing or zero border width becomes 1, and
   * every other field is kept. `data` is only read when a colour is missing;
   * the render throws (`None`) exactly when it is then missing or null.
   */
  function WithColours(dataset: map<string, Value>): (r: Option<map<string, Value>>)
    ensures r.None? <==>
              (!Present(Field(dataset, "backgroundColor")) || !Present(Field(dataset, "borderColor"))) &&
              !DataReadable(dataset)
    ensures r.Some? ==> r.value.Keys == dataset.Keys + ColourKeys
    ensures r.Some? ==> forall k :: k in dataset && k !in ColourKeys ==> r.value[k] == dataset[k]
    ensures r.Some? && Present(Field(dataset, "backgroundColor")) ==>
              r.value["backgroundColor"] == dataset["backgroundColor"]
    ensures r.Some? && Present(Field(dataset, "borderColor")) ==>
              r.value["borderColor"] == dataset["borderColor"]
    ensures r.Some? && DataReadable(dataset) && !Present(Field(dataset, "backgroundColor")) ==>
              r.value["backgroundColor"] == Arr(Slice(FillPalette, DataLength(dataset["data"])))
    ensures r.Some? && DataReadable(dataset) && !Present(Field(dataset, "borderColor")) ==>
              r.value["borderColor"] == Arr(Slice(BorderPalette, DataLength(dataset["data"])))
    ensures r.Some? ==> r.value["borderWidth"] == Or(Field(dataset, "borderWidth"), Num(1))
    ensures r.Some? ==> Truthy(r.value["backgroundColor"]) && Truthy(r.value["borderColor"]) &&
                        Truthy(r.value["borderWidth"])
  {
    var fill := Field(dataset, "backgroundColor");
    var border := Field(dataset, "borderColor");
    if (!Present(fill) || !Present(border)) && !DataReadable(dataset) then None
    else
      var n := if DataReadable(dataset) then DataLength(dataset["data"]) else None;
      Some(dataset + map[
        "backgroundColor" := Or(fill, Arr(Slice(FillPalette, n))),
        "borderColor" := Or(border, Arr(Slice(BorderPalette, n))),
        "borderWidth" := Or(Field(dataset, "borderWidth"), Num(1))])
  }

  /** A dataset that already has truthy colours and border width is left as it is, whatever its `data`. */
  lemma ColouredDatasetUnchanged(dataset: map<string, Value>)
    requires Present(Field(dataset, "backgroundColor")) && Present(Field(dataset, "borderColor"))
    requires Present(Field(dataset, "borderWidth"))
    ensures WithColours(dataset) == Some(dataset)
  {
    var r := WithColours(dataset).value;
    assert r["backgroundColor"] == dataset["backgroundColor"];
    assert r["borderColor"] == dataset["borderColor"];
    assert r["borderWidth"] == dataset["borderWidth"];
    assert r.Keys == dataset.Keys;
    assert forall k :: k in r ==> r[k] == dataset[k];
    assert r == dataset;
  }

  /** Defaulting the colours of a dataset that renders, a second time, changes nothing. */
  lemma WithColoursIdempotent(dataset: map<string, Value>)
    ensures WithColours(dataset).Some? ==> WithColours(WithColours(dataset).value) == WithColours(dataset)
  {
    if WithColours(dataset).Some? {
      ColouredDatasetUnchanged(WithColours(dataset).value);
    }
  }

  /** The built-in dataset already has its colours and border width. */
  lemma DefaultDatasetComplete()
    ensures WithColours(DefaultDataset) == Some(DefaultDataset)
  {
    var d := DefaultDataset;
    assert Field(d, "backgroundColor") == Some(Arr(FillPalette));
    assert Field(d, "borderColor") == Some(Arr(BorderPalette));
    assert Field(d, "borderWidth") == Some(Num(1));
    ColouredDatasetUnchanged(d);
  }

  /** A dataset with colours but no `data` renders; one missing a colour and `data` throws. */
  lemma DataReadOnlyForMissingColours(fill: Value, border: Value)
    requires Truthy(fill) && Truthy(border)
    ensures WithColours(map["backgroundColor" := fill, "borderColor" := border]).Some?
    ensures WithColours(map["backgroundColor" := fill]).None?
    ensures WithColours(map["backgroundColor" := fill, "data" := Str("abc")]) ==
            Some(map["backgroundColor" := fill, "data" := Str("abc"),
                     "borderColor" := Arr(BorderPalette[..3]), "borderWidth" := Num(1)])
  {
    var d := map["backgroundColor" := fill, "data" := Str("abc")];
    var r := WithColours(d).value;
    var e := map["backgroundColor" := fill, "data" := Str("abc"),
                 "borderColor" := Arr(BorderPalette[..3]), "borderWidth" := Num(1)];
    assert DataReadable(d) && DataLength(d["data"]) == Some(3);
    assert Slice(BorderPalette, Some(3)) == BorderPalette[..3];
    assert r["borderColor"] == e["borderColor"] && r["borderWidth"] == e["borderWidth"];
    assert r["backgroundColor"] == fill && r["data"] == Str("abc");
    assert r.Keys == e.Keys;
    assert forall k :: k in r ==> r[k] == e[k];
    assert r == e;
  }

  // ---------------------------------------------------------------------------
  // Weather icon

  const IconCodes := {"01", "02", "03", "04", "09", "10", "11", "13", "50"}

  datatype Icon = Clear | FewClouds | Clouds | ShowerRain | Rain | Thunderstorm | Snow | Mist | Fallback

  /** `weatherIcons[code.substring(0, 2)] || fallback`: codes 03 and 04 share an icon. */
  function WeatherIcon(code: Option<string>): (icon: Icon)
    ensures icon != Fallback <==> code.Some? && |code.value| >= 2 && code.value[..2] in IconCodes
    ensures icon == Clouds <==> code.Some? && |code.value| >= 2 && code.value[..2] in {"03", "04"}
  {
    if code.None? then Fallback
    else
      var c := if |code.value| < 2 then code.value else code.value[..2];
      if c == "01" then Clear
      else if c == "02" then FewClouds
      else if c == "03" || c == "04" then Clouds
      else if c == "09" then ShowerRain
      else if c == "10" then Rain
      else if c == "11" then Thunderstorm
      else if c == "13" then Snow
      else if c == "50" then Mist
      else Fallback
  }

  /** Only the first two characters matter: the day/night suffix never changes the icon. */
  lemma IconIgnoresSuffix(prefix: string, suffix: string)
    requires |prefix| == 2
    ensures WeatherIcon(Some(prefix + suffix)) == WeatherIcon(Some(prefix))
  {
    assert (prefix + suffix)[..2] == prefix;
    assert prefix[..2] == prefix;
  }
}
