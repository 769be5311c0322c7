/** `Log4js.Layout` and its variants `SimpleLayout`, `BasicLayout` and
    `JSONLayout`, and the batch payload the AJAX appender builds from them. */
module Layouts {
  import opened Wrappers
  import opened Text
  import opened Levels
  import opened DateFormat
  import opened Events

  /** `BaseLayout` is `Log4js.Layout` itself, whose methods return the defaults. */
  datatype Layout = BaseLayout | SimpleLayout | BasicLayout | JsonLayout

  /** What `JSONLayout.format` reads from the browser: `navigator.userAgent` and
      `location.href`; `None` when reading it throws. */
  datatype Page = Page(userAgent: Option<string>, href: Option<string>)

  /** A string or `null`, as string concatenation renders it. */
  function JsText(s: Option<string>): string
  {
    match s
    case Some(t) => t
    case None => "null"
  }

  /** `getContentType()`: only the JSON layout overrides "text/plain". */
  function ContentType(layout: Layout): (r: string)
    ensures r == "text/json" <==> layout == JsonLayout
    ensures layout != JsonLayout ==> r == "text/plain"
  {
    if layout == JsonLayout then "text/json" else "text/plain"
  }

  /** `getHeader()`: `null` for the base layout. */
  function Header(layout: Layout): (r: Option<string>)
    ensures r.None? <==> layout == BaseLayout
    ensures layout == SimpleLayout || layout == BasicLayout ==> r == Some("")
  {
    match layout
    case BaseLayout => None
    case SimpleLayout => Some("")
    case BasicLayout => Some("")
    case JsonLayout => Some("{\"Log4js\": [\n")
  }

  /** `getFooter()`: `null` for the base layout. */
  function Footer(layout: Layout): (r: Option<string>)
    ensures r.None? <==> layout == BaseLayout
    ensures layout == SimpleLayout || layout == BasicLayout ==> r == Some("")
  {
    match layout
    case BaseLayout => None
    case SimpleLayout => Some("")
    case BasicLayout => Some("")
    case JsonLayout => Some("\n]}")
  }

  /** `getSeparator()`: only the JSON layout overrides the empty default. */
  function Separator(layout: Layout): (r: string)
    ensures r != "" <==> layout == JsonLayout
  {
    if layout == JsonLayout then ",\n" else ""
  }

  function OrUnknown(s: Option<string>): string
  {
    match s
    case Some(t) => t
    case None => "unknown"
  }

  /** `format(loggingEvent)` of each layout: the base layout writes nothing,
      the others a non-empty text for every event. */
  function Format(layout: Layout, e: LoggingEvent, page: Page): (r: string)
    ensures r == "" <==> layout == BaseLayout
  {
    match layout
    case BaseLayout => ""
    case SimpleLayout => SimpleText(e)
    case BasicLayout => BasicText(e)
    case JsonLayout => JsonText(e, page)
  }

  /** `SimpleLayout.format`: level, " - ", message, newline. */
  function SimpleText(e: LoggingEvent): (r: string)
    ensures r != ""
  {
    e.level.Name() + " - " + e.message + "\n"
  }

  /** `BasicLayout.format`: category, "~", the start time in the locale's
      text, the level in brackets, then the message and a newline. */
  function BasicText(e: LoggingEvent): (r: string)
    ensures r != ""
  {
    e.categoryName + "~" + e.startTime.localeText + " [" + e.level.Name() + "] " + e.message + "\n"
  }

  /** `JSONLayout.format`: the members one per line inside the `LoggingEvent`
      object. */
  function JsonText(e: LoggingEvent, page: Page): (r: string)
    ensures r != ""
  {
    "{\n \"LoggingEvent\": {\n"
    + JsonMember("logger", e.categoryName) + ",\n"
    + JsonMember("level", e.level.Name()) + ",\n"
    + JsonMember("message", e.message) + ",\n"
    + JsonMember("referer", OrUnknown(page.href)) + ",\n"
    + JsonMember("useragent", OrUnknown(page.userAgent)) + ",\n"
    + JsonMember("timestamp", FormatDate(e.startTime.fields, JSON_DATE_FORMAT)) + ",\n"
    + JsonMember("exception", ThrowableText(e.exception)) + "\n"
    + "}}"
  }

  /** One `"name": "value"` line of the JSON record, tab-indented. */
  function JsonMember(name: string, value: string): string
  {
    "\t\"" + name + "\": \"" + value + "\""
  }

  /** The JSON record of an event: its members one per line, separated by
      commas, inside the `LoggingEvent` object. */
  function JsonRecord(members: seq<string>): string
  {
    "{\n \"LoggingEvent\": {\n" + Join(members, ",\n") + "\n" + "}}"
  }

  /** `JSONLayout.format` is the record of seven members in a fixed order; the
      page fields fall back to "unknown", and the timestamp is the ISO text of
      the event's start followed by a literal "Z". Values are inserted as they
      are, without escaping. */
  lemma JsonFormatShape(e: LoggingEvent, page: Page)
    ensures Format(JsonLayout, e, page) == JsonRecord([
      JsonMember("logger", e.categoryName),
      JsonMember("level", e.level.Name()),
      JsonMember("message", e.message),
      JsonMember("referer", OrUnknown(page.href)),
      JsonMember("useragent", OrUnknown(page.userAgent)),
      JsonMember("timestamp", IsoText(e.startTime.fields) + "Z"),
      JsonMember("exception", ThrowableText(e.exception))])
  {
    FormatDateJson(e.startTime.fields);
    var m := [
      JsonMember("logger", e.categoryName),
      JsonMember("level", e.level.Name()),
      JsonMember("message", e.message),
      JsonMember("referer", OrUnknown(page.href)),
      JsonMember("useragent", OrUnknown(page.userAgent)),
      JsonMember("timestamp", IsoText(e.startTime.fields) + "Z"),
      JsonMember("exception", ThrowableText(e.exception))];
    JoinSeven("{\n \"LoggingEvent\": {\n", m, ",\n");
  }

  /** Taking the first element out of a join that follows some text. */
  lemma JoinStep(h: string, m: seq<string>, sep: string)
    requires |m| >= 2
    ensures h + Join(m, sep) == h + m[0] + sep + Join(m[1..], sep)
  {
  }

  /** A join of seven elements that follows some text, written out. */
  lemma JoinSeven(h: string, m: seq<string>, sep: string)
    requires |m| == 7
    ensures h + Join(m, sep)
         == h + m[0] + sep + m[1] + sep + m[2] + sep + m[3] + sep + m[4] + sep + m[5] + sep + m[6]
  {
    JoinStep(h, m, sep);
    var h1 := h + m[0] + sep;
    assert m[1..][1..] == m[2..];
    JoinStep(h1, m[1..], sep);
    var h2 := h1 + m[1] + sep;
    assert m[2..][1..] == m[3..];
    JoinStep(h2, m[2..], sep);
    var h3 := h2 + m[2] + sep;
    assert m[3..][1..] == m[4..];
    JoinStep(h3, m[3..], sep);
    var h4 := h3 + m[3] + sep;
    assert m[4..][1..] == m[5..];
    JoinStep(h4, m[4..], sep);
    var h5 := h4 + m[4] + sep;
    assert m[5..][1..] == m[6..];
    JoinStep(h5, m[5..], sep);
    assert Join(m[6..], sep) == m[6];
  }

  /** The events formatted one by one, in order. */
  function FormatAll(layout: Layout, events: seq<LoggingEvent>, page: Page): (r: seq<string>)
    ensures |r| == |events|
    ensures forall i :: 0 <= i < |events| ==> r[i] == Format(layout, events[i], page)
  {
    if events == [] then [] else [Format(layout, events[0], page)] + FormatAll(layout, events[1..], page)
  }

  /** A list holding each event's formatted text in order is `FormatAll`. */
  lemma FormatAllOf(layout: Layout, events: seq<LoggingEvent>, page: Page, lines: seq<string>)
    requires |lines| == |events|
    requires forall k :: 0 <= k < |events| ==> lines[k] == Format(layout, events[k], page)
    ensures lines == FormatAll(layout, events, page)
  {
  }

  /** Lists that hold the first `i` events and their formatted texts are that
      prefix and its `FormatAll`. */
  lemma FormattedPrefix(layout: Layout, page: Page, events: seq<LoggingEvent>, i: nat,
                        lines: seq<string>, prefix: seq<LoggingEvent>)
    requires i <= |events| && |prefix| == |lines| == i
    requires forall k :: 0 <= k < i ==> prefix[k] == events[k] && lines[k] == Format(layout, events[k], page)
    ensures prefix == events[..i] && lines == FormatAll(layout, prefix, page)
  {
    assert prefix == events[..i];
    FormatAllOf(layout, prefix, page, lines);
  }

  /** The body of one AJAX request: the header, the formatted events joined by the
      separator, then the footer (a `null` header or footer reads as "null"). */
  function Payload(layout: Layout, formatted: seq<string>): string
  {
    JsText(Header(layout)) + Join(formatted, Separator(layout)) + JsText(Footer(layout))
  }

  /** The JSON payload is one array: its fixed opening, the events separated by
      ",\n", and its fixed closing. */
  lemma JsonPayloadShape(formatted: seq<string>, f: string)
    ensures Payload(JsonLayout, []) == "{\"Log4js\": [\n\n]}"
    ensures Payload(JsonLayout, [f]) == "{\"Log4js\": [\n" + f + "\n]}"
    ensures formatted != [] ==>
      Payload(JsonLayout, formatted + [f])
        == "{\"Log4js\": [\n" + Join(formatted, ",\n") + ",\n" + f + "\n]}"
  {
    var h, t, sep := "{\"Log4js\": [\n", "\n]}", ",\n";
    assert JsText(Header(JsonLayout)) == h && JsText(Footer(JsonLayout)) == t && Separator(JsonLayout) == sep;
    assert Payload(JsonLayout, []) == h + "" + t;
    assert Payload(JsonLayout, [f]) == h + f + t;
    if formatted != [] {
      JoinSnoc(formatted, f, sep);
      var joined := Join(formatted, sep);
      assert Payload(JsonLayout, formatted + [f]) == h + (joined + sep + f) + t;
      assert h + (joined + sep + f) + t == h + joined + sep + f + t;
    }
  }

  /** With the base layout the `null` header and footer show up as text. */
  lemma BasePayloadShape(formatted: seq<string>)
    ensures Payload(BaseLayout, formatted) == "null" + Join(formatted, "") + "null"
  {
  }

  /** The two fields of a `SimpleLayout` line: the text before the first " - "
      and the text between it and the closing newline. */
  function ParseSimple(s: string): Option<(string, string)>
  {
    var i := IndexOf(s, '-');
    if 1 <= i && i + 2 <= |s| - 1 && s[i - 1] == ' ' && s[i + 1] == ' ' && s[|s| - 1] == '\n'
    then Some((s[..i - 1], s[i + 2..|s| - 1]))
    else None
  }

  lemma NameHasNo(l: Level, c: char)
    requires c == '-' || c == ']' || c == '~' || c == '['
    ensures c !in l.Name()
  {
  }

  /** A simple line gives back the level, through `toLevel`, and the message. */
  lemma SimpleRoundTrip(e: LoggingEvent, page: Page, defaultLevel: Level)
    ensures ParseSimple(Format(SimpleLayout, e, page)).Some?
    ensures ParseSimple(Format(SimpleLayout, e, page)).value.1 == e.message
    ensures ToLevel(Str(ParseSimple(Format(SimpleLayout, e, page)).value.0), defaultLevel) == Ok(e.level)
  {
    var name := e.level.Name();
    var s := Format(SimpleLayout, e, page);
    NameHasNo(e.level, '-');
    assert s == (name + " ") + ['-'] + (" " + e.message + "\n");
    IndexOfAfterPrefix(name + " ", '-', " " + e.message + "\n");
    assert s[..|name|] == name;
    assert s[|name| + 3..|s| - 1] == e.message;
    ToLevelOfName(e.level, defaultLevel);
  }

  /** The four fields of a `BasicLayout` line. */
  datatype BasicRecord = BasicRecord(category: string, time: string, levelName: string, message: string)

  /** Splits a `BasicLayout` line at its first "~", the first "[" after it, and the
      first "]" after that. */
  function ParseBasic(s: string): Option<BasicRecord>
  {
    var i := IndexOf(s, '~');
    if i >= |s| then None else ParseAfterCategory(s[..i], s[i + 1..])
  }

  /** The part of a basic line after the "~": time text, then " [". */
  function ParseAfterCategory(cat: string, r1: string): Option<BasicRecord>
  {
    var j := IndexOf(r1, '[');
    if j < 1 || j >= |r1| || r1[j - 1] != ' ' then None
    else ParseBracketed(cat, r1[..j - 1], r1[j + 1..])
  }

  /** The part of a basic line after the "[": level name, "] ", message, newline. */
  function ParseBracketed(cat: string, time: string, r2: string): Option<BasicRecord>
  {
    var k := IndexOf(r2, ']');
    if k + 2 > |r2| - 1 || r2[k] != ']' || r2[k + 1] != ' ' || r2[|r2| - 1] != '\n' then None
    else Some(BasicRecord(cat, time, r2[..k], r2[k + 2..|r2| - 1]))
  }

  lemma ParseBracketedOf(cat: string, time: string, name: string, msg: string)
    requires ']' !in name
    ensures ParseBracketed(cat, time, name + "] " + msg + "\n") == Some(BasicRecord(cat, time, name, msg))
  {
    var r2 := name + "] " + msg + "\n";
    assert r2 == name + [']'] + (" " + msg + "\n");
    IndexOfAfterPrefix(name, ']', " " + msg + "\n");
    assert r2[..|name|] == name;
    assert r2[|name| + 2..|r2| - 1] == msg;
  }

  lemma ParseAfterCategoryOf(cat: string, time: string, name: string, msg: string)
    requires '[' !in time && ']' !in name
    ensures ParseAfterCategory(cat, time + " [" + name + "] " + msg + "\n") == Some(BasicRecord(cat, time, name, msg))
  {
    var r2 := name + "] " + msg + "\n";
    var r1 := time + " [" + name + "] " + msg + "\n";
    assert r1 == (time + " ") + ['['] + r2;
    IndexOfAfterPrefix(time + " ", '[', r2);
    assert r1[|time| + 2..] == r2;
    assert r1[..|time|] == time;
    ParseBracketedOf(cat, time, name, msg);
  }

  /** `ParseBasic` inverts the line shape, as long as the category has no "~", the
      time text no "[" and the level name no "]". */
  lemma ParseBasicOfLine(cat: string, time: string, name: string, msg: string)
    requires '~' !in cat && '[' !in time && ']' !in name
    ensures ParseBasic(cat + "~" + time + " [" + name + "] " + msg + "\n")
         == Some(BasicRecord(cat, time, name, msg))
  {
    var r1 := time + " [" + name + "] " + msg + "\n";
    var s := cat + "~" + time + " [" + name + "] " + msg + "\n";
    assert s == cat + ['~'] + r1;
    IndexOfAfterPrefix(cat, '~', r1);
    assert s[|cat| + 1..] == r1;
    assert s[..|cat|] == cat;
    ParseAfterCategoryOf(cat, time, name, msg);
  }

  /** A basic line gives back category, time text, level and message, as long as
      the category has no "~" and the time text no "["; the level name goes back
      to the level through `toLevel`. */
  lemma BasicRoundTrip(e: LoggingEvent, page: Page, defaultLevel: Level)
    requires '~' !in e.categoryName && '[' !in e.startTime.localeText
    ensures ParseBasic(Format(BasicLayout, e, page))
         == Some(BasicRecord(e.categoryName, e.startTime.localeText, e.level.Name(), e.message))
    ensures ToLevel(Str(ParseBasic(Format(BasicLayout, e, page)).value.levelName), defaultLevel) == Ok(e.level)
  {
    NameHasNo(e.level, ']');
    ParseBasicOfLine(e.categoryName, e.startTime.localeText, e.level.Name(), e.message);
    ToLevelOfName(e.level, defaultLevel);
  }
}
