# log4js-lw in Dafny

This project models `log4js-lw.js`, a small browser logging library. Its parts are:

- **Levels.** Eight levels are ordered by rank. `toLevel` parses level names without regard to case.
- **DateFormatter.** `addZero`, the time-zone offset `O`, and `formatDate`, which is a chain of global replaces over a pattern.
- **Layouts.** The base, simple, basic and JSON layouts, and the payload that the AJAX appender posts.
- **FifoBuffer.** An array-backed queue whose `pull` shifts every element one slot left.
- **CustomEvent.** A listener bus with `addListener`, `findListenerIndexes`, `removeListener` and `dispatch`.
- **Appenders.** The base `Appender` with `setLogger`, the console appender, the alert appender, and the batching `AjaxAppender`.
- **Logger.** Level gating, `log`, `clear`, `addAppender` and `setAppenders`.
- **Registry.** The logger registry behind `getLogger`.

How the model is built:

- Pure parts are functions on values, in the modules `Levels`, `DateFormat`, `Layouts`, `Listeners` and `Batching`.
- Parts that change state in place are classes in the modules `Fifo` and `Log4js`. Their methods carry `modifies` clauses.
- `AjaxAppender` keeps the fields of the original. Each of its methods is proved to perform one transition of the pure state machine in `Batching`. The properties of the appender are lemmas about that machine:
  - no kept event is lost or duplicated;
  - a batch in flight always has a timeout pending;
  - an event is dropped exactly when the buffer is over the threshold and no batch is in flight;
  - the drain count is `min(threshold, ceil(len / 2))`.
- The browser is reduced to plain inputs:
  - Time is a `DateFields` record plus the `toLocaleString` text.
  - `navigator.userAgent` and `location.href` are optional strings; `None` means that reading them threw.
  - Network requests are recorded in a `transmissions` list.
  - The two asynchronous callbacks (request completion and the timeout) are methods that the environment calls, with `readyState` and `status` as parameters.
- Numbers are integers. The rank of ALL is 0 and the rank of OFF is 1000000000. The library uses `Number.MIN_VALUE` (the smallest positive double) and `Number.MAX_VALUE` for these ranks. Only their place in the order matters, and it is the same.

## Model

| member | source | states |
|---|---|---|
| Text.Upper | log4js-lw.js:179 | upper-casing keeps the length and maps each character to its upper case |
| Text.UpperIdempotent | log4js-lw.js:179 | upper-casing an upper-cased string changes nothing |
| Text.JoinSnoc | log4js-lw.js:871 | joining one more element appends the separator and that element |
| Text.JoinLength | log4js-lw.js:871 | a join (`Text.Join`) is as long as its parts plus one separator between each pair |
| Text.NatToString | log4js-lw.js:1296 | the decimal text of a number is non-empty and all digits, one digit exactly below 10 and two exactly from 10 to 99 |
| Text.NatToStringRoundTrip | log4js-lw.js:1296 | the decimal text of a number reads back as that number |
| Text.ReplaceOnce | log4js-lw.js:1285-1287 | a global replace (`Text.ReplaceAll`) of a pattern that occurs once, with no other start of it nearby, swaps exactly that occurrence |
| Text.ReplaceAllNone | log4js-lw.js:1285-1287 | a global replace of a pattern that never starts in the text leaves the text unchanged |
| Text.ReplaceAllSkips | log4js-lw.js:1285-1287 | a global replace copies a prefix free of the pattern's first character unchanged and only then starts replacing |
| Levels.RanksStrictlyIncrease | log4js-lw.js:225-302 | the ranks strictly increase from ALL through TRACE, DEBUG, INFO, WARN, ERROR and FATAL to OFF, and every level appears in that list |
| Levels.RankAndNameIdentify | log4js-lw.js:209-218 | two levels with the same rank, or with the same name, are the same level |
| Levels.Position | log4js-lw.js:225-302 | each level's position in the ordered list holds that level |
| Levels.EnabledFollowsOrder | log4js-lw.js:523-647 | the rank test of `isXEnabled` (`Levels.IsEnabledAt`) lets a level through iff that level comes no earlier in the order than the logger's own level |
| Levels.EnabledBounds | log4js-lw.js:523-647 | ALL lets every level through; every level lets itself through; the default FATAL lets through only FATAL and OFF; OFF lets through only OFF |
| Levels.EnabledMonotone | log4js-lw.js:523-647 | lowering a logger's level never disables a level that was enabled |
| Levels.ToLevel | log4js-lw.js:172-204 | a number throws, and nothing else does; null and non-string values give the default; a string gives the level whose name is its upper case when there is one, and the default otherwise |
| Levels.ToLevelOfName | log4js-lw.js:179-187 | each level's own name parses to that level, whatever the default |
| Levels.NameIsUpper | log4js-lw.js:225-302 | every level name is written in capitals, so upper-casing it changes nothing |
| Levels.ToLevelIgnoresCase | log4js-lw.js:179 | upper-casing the argument first gives the same result |
| Levels.ToLevelFallsBack | log4js-lw.js:187 | a string that is no level name in any case gives the default |
| Levels.ToLevelByRank | log4js-lw.js:190-199 | corrected numeric lookup: the level with that rank, or else the default |
| Levels.ToLevelRankThrows | log4js-lw.js:190-199 | as written, a level's own rank throws a ReferenceError; the corrected lookup gives the level back |
| DateFormat.AddZeroIsNumeric | log4js-lw.js:1295-1297 | `addZero` (`DateFormat.AddZero`) writes only digits and signs; for a negative number it writes "0-" followed by the digits of its absolute value |
| DateFormat.AddZeroRoundTrip | log4js-lw.js:1295-1297 | for n ≥ 0, `addZero(n)` is all digits, at least two of them (exactly two below 100), and reads back as n |
| DateFormat.OffsetTextIsNumeric | log4js-lw.js:1304-1312 | the offset text (`DateFormat.OffsetText`) is "+" for a negative offset and "-" otherwise, followed by at least four digits |
| DateFormat.OffsetTextRoundTrip | log4js-lw.js:1304-1312 | for an offset under 100 hours: the offset text is five characters, "+" for a negative offset and "-" otherwise, then four digits, and parses back to the offset |
| DateFormat.PadTwoRoundTrip | log4js-lw.js:1309-1310 | padding the text of a number below 100 gives two digits that read back as the number |
| DateFormat.ReplaceYearsOnce | log4js-lw.js:1285 | the `y{1,4}` replace turns a leading `yyyy` into the year, as long as no other `y` follows |
| DateFormat.ReplaceYearsNone | log4js-lw.js:1285 | the `y{1,4}` replace leaves a text with no `y` unchanged |
| DateFormat.DatePasses | log4js-lw.js:1285 | the date passes turn `yyyy-MM-dd` into year-month-day and leave the rest alone, when the rest has no date tokens |
| DateFormat.TimePasses | log4js-lw.js:1286 | the time passes turn `hh:mm:ss` into hour:minute:second and leave both sides alone, when they have no time tokens |
| DateFormat.IsoPrefixPasses | log4js-lw.js:1275-1289 | `formatDate` (`DateFormat.FormatDate`) of `yyyy-MM-ddThh:mm:ss` followed by a token-free tail is the ISO text, then the tail, then the `O` pass |
| DateFormat.FieldsAreTokenFree | log4js-lw.js:1276-1283 | the rendered date fields contain no pattern letters, so later passes cannot rewrite them |
| DateFormat.FormatDateJson | log4js-lw.js:1275-1289 | the JSON timestamp pattern gives the ISO text followed by a literal `Z` |
| DateFormat.IsoTextHasNoOffsetToken | log4js-lw.js:1275-1289 | the ISO text contains no `O`, so the offset pass cannot touch it |
| DateFormat.FormatDateDefault | log4js-lw.js:1255-1289 | the default pattern gives the ISO text followed by the offset text |
| DateFormat.FormatDateOfLiteral | log4js-lw.js:1285-1287 | a pattern without any token letter comes back unchanged |
| DateFormat.ShortYearKeepsOneDigit | log4js-lw.js:1279 | as written, the short year (`DateFormat.ShortYear`) of a four-digit year is "0" followed by the year's last digit |
| DateFormat.FormatDateShortYear | log4js-lw.js:1275-1289 | a `yy` pattern becomes the short year and nothing else |
| DateFormat.ShortYearIn2024 | log4js-lw.js:1279 | as written, `formatDate(d, "yy")` in 2024 gives "04", while the two-digit year is "24" |
| DateFormat.TwoDigitYear | log4js-lw.js:1279 | corrected short year: two digits that read back as the year modulo 100 |
| Layouts.ContentType | log4js-lw.js:760-762 | the content type is "text/json" exactly for the JSON layout, and "text/plain" for every other layout |
| Layouts.Header | log4js-lw.js:767-769 | the header is `null` exactly for the base layout, and empty for the simple and basic layouts |
| Layouts.Footer | log4js-lw.js:774-776 | the footer is `null` exactly for the base layout, and empty for the simple and basic layouts |
| Layouts.Separator | log4js-lw.js:782-784 | the separator is non-empty exactly for the JSON layout |
| Layouts.Format | log4js-lw.js:752-754 | `format` gives the empty text exactly for the base layout; the simple, basic and JSON layouts always write something |
| Layouts.JsonFormatShape | log4js-lw.js:1120-1148 | the JSON text of an event is a `LoggingEvent` object of seven members in a fixed order; the page fields fall back to "unknown", and the timestamp is the ISO text followed by `Z` |
| Layouts.FormatAll | log4js-lw.js:866-868 | one formatted text per event, in order, each being that event's `format` |
| Layouts.FormattedPrefix | log4js-lw.js:866-868 | lists holding the first i events and their formatted texts, in order, are the first i events and their `FormatAll` |
| Layouts.JsonPayloadShape | log4js-lw.js:1161-1174 | the JSON payload (`Layouts.Payload`) is `{"Log4js": [\n`, then the events separated by `,\n`, then `\n]}` |
| Layouts.BasePayloadShape | log4js-lw.js:767-785 | with the base layout, the null header and null footer appear as the text "null" around the events |
| Layouts.SimpleRoundTrip | log4js-lw.js:1025-1027 | a simple line splits back into the level name (which `toLevel` maps back to the level) and the message |
| Layouts.ParseBracketedOf | log4js-lw.js:1074-1076 | the part of a basic line after `[` splits into the level name and the message |
| Layouts.ParseAfterCategoryOf | log4js-lw.js:1074-1076 | the part of a basic line after `~` splits into the time text, the level name and the message |
| Layouts.ParseBasicOfLine | log4js-lw.js:1074-1076 | a basic line splits back into category, time text, level name and message, when the category has no `~`, the time has no `[` and the name has no `]` |
| Layouts.BasicRoundTrip | log4js-lw.js:1074-1076 | `format` of the basic layout gives back all four fields of the event |
| Fifo.FifoBuffer.constructor | log4js-lw.js:1204-1207 | a new buffer is empty |
| Fifo.FifoBuffer.Push | log4js-lw.js:1214-1217 | appends at the tail and returns the new length |
| Fifo.FifoBuffer.Pull | log4js-lw.js:1222-1232 | on a non-empty buffer, returns the oldest element and leaves the rest in order; on an empty buffer, returns null and changes nothing |
| Fifo.FirstInFirstOut | log4js-lw.js:1214-1232 | two pushes and three pulls return the two elements in push order, then null |
| Batching.LoggingUrl | log4js-lw.js:819 | a missing or empty URL becomes "logging.log4js"; any other URL is kept |
| Batching.DrainCount | log4js-lw.js:866-868 | the drain count never exceeds the buffer length, nor half of it rounded up |
| Batching.DrainLoopCount | log4js-lw.js:866-868 | running the drain loop, whose bound re-reads the shrinking length, pulls exactly `min(threshold, ceil(len / 2))` events |
| Batching.SendBatchConserves | log4js-lw.js:859-872 | a send (`Batching.SendBatch`) moves events from the head of the buffer into a post, and loses or duplicates none |
| Batching.AppendConserves | log4js-lw.js:832-842 | `doAppend` (`Batching.Append`) keeps posted-then-buffered events in order and adds the event at the end iff it was enqueued |
| Batching.TimeoutConserves | log4js-lw.js:894-904 | the timeout callback loses and duplicates no event |
| Batching.StepConserves | log4js-lw.js:832-939 | every transition keeps posted-then-buffered events in order and adds only the event it accepts |
| Batching.RunConserves | log4js-lw.js:832-939 | over any run, posted-then-buffered events are the earlier ones followed by the accepted events, in arrival order |
| Batching.FromInitialConserves | log4js-lw.js:805-939 | from a new appender, posted-then-buffered events are exactly the accepted events, in order |
| Batching.InitialInv | log4js-lw.js:805-823 | a new appender is idle, has an empty buffer and satisfies the invariant |
| Batching.SendBatchKeepsInv | log4js-lw.js:859-911 | a send keeps the invariant |
| Batching.StepKeepsInv | log4js-lw.js:832-939 | every transition keeps the invariant that a batch in flight has a timeout pending, and that a pending timeout has a request to abort |
| Batching.RunKeepsInv | log4js-lw.js:832-939 | over any run the invariant holds, so while a batch is in flight the timeout transition is always available |
| Batching.AppendKeepsEventIff | log4js-lw.js:835-837 | `doAppend` keeps the event iff the buffer length is within the threshold or a batch is in flight; otherwise the event is lost |
| Batching.AppendSendsIff | log4js-lw.js:839-841 | `doAppend` posts iff, after the enqueue decision, the buffer is non-empty, has reached the threshold, and no batch is in flight |
| Batching.SendEffect | log4js-lw.js:859-911 | on an empty buffer, a send changes nothing. Otherwise it: sets in-progress; posts the oldest c events, with c at most the threshold and at most ceil(len / 2), and at least 1 for a positive threshold; keeps the rest in order; and schedules one timeout |
| Batching.ClearEffect | log4js-lw.js:848-854 | `doClear` (`Batching.Clear`) changes nothing on an empty buffer; otherwise it sends at once, even while a batch is in flight: one more post, in progress, one more timer, and with a positive threshold a shorter buffer |
| Batching.ReadyStateEffect | log4js-lw.js:916-939 | the completion handler (`Batching.ReadyStateChanged`) changes nothing unless readyState is 4 and the appender's handler is attached; then status undefined, 0 or 200-299 clears in-progress, and any other status changes nothing |
| Batching.TimeoutEffect | log4js-lw.js:894-904 | the timeout (`Batching.Timeout`) always aborts and clears in-progress, and sends again iff events are waiting |
| Batching.TimeoutShrinksBuffer | log4js-lw.js:894-904 | with a positive threshold, each timeout shortens a non-empty buffer |
| Batching.ThresholdOnePostsEachEvent | log4js-lw.js:805-842 | with the default threshold of 1, an idle appender with an empty buffer posts each event at once, alone |
| Batching.InitialPostsFirstEvent | log4js-lw.js:805-842 | a new appender with no URL posts its first event at once, alone, as "text/json" to "logging.log4js" |
| Batching.SendBatchMoves | log4js-lw.js:859-872 | a send of c events posts the first c buffered events and keeps the rest |
| Batching.HalfDrainAtThresholdTwo | log4js-lw.js:866 | as written, with threshold 2, two events reach the threshold but only the first is posted |
| Batching.IntendedDrainCount | log4js-lw.js:866 | the corrected drain count never exceeds the buffer length |
| Batching.IntendedSendPostsFullBatch | log4js-lw.js:866 | with the corrected count, a send posts the oldest `min(threshold, len)` events; a buffer within the threshold is emptied |
| Batching.IntendedDrainAtThresholdTwo | log4js-lw.js:866 | with the corrected count, the same two appends post both events together |
| Listeners.IndexesOf | log4js-lw.js:353-362 | exactly the indexes that hold the listener, in ascending order |
| Listeners.Splice | log4js-lw.js:331 | at an index inside the array, removes exactly that element: the ones before it keep their places and the ones after it move down by one; an index past the end removes nothing |
| Listeners.Without | log4js-lw.js:327-333 | corrected removal never makes the array longer |
| Listeners.WithoutRemovesAll | log4js-lw.js:327-333 | corrected removal drops every copy of the listener and keeps every copy of every other listener |
| Listeners.RemoveListenerOfUnique | log4js-lw.js:327-333 | when the listener occurs at most once, `removeListener` removes exactly it and keeps the others in order |
| Listeners.RemoveDuplicateRemovesNeighbour | log4js-lw.js:327-333 | as written, removing x from [x, x, y] leaves [x]: the other listener is removed and one copy of x stays |
| Log4js.CustomEvent.constructor | log4js-lw.js:311-313 | a new event has no listeners |
| Log4js.CustomEvent.AddListener | log4js-lw.js:320-322 | appends the listener, without removing duplicates |
| Log4js.CustomEvent.FindListenerIndexes | log4js-lw.js:353-362 | returns exactly the indexes that hold the listener, ascending |
| Log4js.CustomEvent.RemoveListener | log4js-lw.js:327-333 | the new list is the result of the ascending splices applied one after the other |
| Log4js.CustomEvent.Dispatch | log4js-lw.js:338-347 | calls every listener exactly once, in index order, with the same argument, each ending as its body dictates, so a listener that throws does not stop the others; the listener list is unchanged. When no two listeners reach a common object, each appender reached shows exactly the effect of its own listener: a bound `doAppend` appends the event as that appender's `doAppend` does, a bound `doClear` clears it, and any other function changes nothing |
| Log4js.CallAt | log4js-lw.js:340-345 | runs the listener at one index with the effect its body dictates; the appender of every listener that shares no object with it is left as it was |
| Log4js.CallListener | log4js-lw.js:340-345 | a listener call ends as its body dictates, and its appender shows exactly that call's effect: `doAppend` of the event, `doClear`, or nothing for any other function; a bound `doAppend` given no event changes nothing |
| Log4js.DoAppend | log4js-lw.js:707-709 | `doAppend` by class: the console appender adds one console line, the alert appender one alert, the AJAX appender takes one `Batching.Append` step, and the base appender changes nothing; the logger link is kept |
| Log4js.DoClear | log4js-lw.js:713-715 | `doClear` by class: the AJAX appender takes one `Batching.Clear` step, and the other appenders change nothing; the logger link is kept |
| Log4js.ClearAt | log4js-lw.js:486 | `doClear` on the appender at one index, with its exact effect; with separate appenders the others are left as they were |
| Log4js.SetLogger | log4js-lw.js:728-734 | registers a new bound `doAppend` on `onlog` and a new bound `doClear` on `onclear`, then records the logger; the appender's layout and output are unchanged |
| Log4js.FootprintCovers | log4js-lw.js:338-347 | what a listener may change is part of what `dispatch` may change |
| Log4js.FootprintExcludesLogger | log4js-lw.js:508-521 | listeners cannot change a logger's own fields |
| Log4js.BaseAppender.constructor | log4js-lw.js:693-700 | a new base appender has no logger and no layout |
| Log4js.BaseAppender.SetLayout | log4js-lw.js:721-723 | sets the layout |
| Log4js.JSConsoleAppender.constructor | log4js-lw.js:957-959 | a new console appender uses the simple layout, has no logger and has written nothing |
| Log4js.JSConsoleAppender.SetLayout | log4js-lw.js:721-723 | sets the layout; what was written stays |
| Log4js.JSConsoleAppender.DoAppend | log4js-lw.js:962-968 | records one console call with the header, the formatted event and the footer |
| Log4js.JSAlertAppender.constructor | log4js-lw.js:983-985 | a new alert appender uses the simple layout, has no logger and has shown nothing |
| Log4js.JSAlertAppender.SetLayout | log4js-lw.js:721-723 | sets the layout; what was shown stays |
| Log4js.JSAlertAppender.DoAppend | log4js-lw.js:991-993 | records one alert showing header, formatted event and footer as one text |
| Log4js.AjaxAppender.constructor | log4js-lw.js:805-823 | threshold 1, timeout 2000, the URL or its default, the JSON layout, an empty buffer, and no request |
| Log4js.AjaxAppender.SetLayout | log4js-lw.js:721-723 | sets the layout; the rest of the batching state is unchanged |
| Log4js.AjaxAppender.Drain | log4js-lw.js:866-868 | pulls the oldest `min(threshold, ceil(len / 2))` events into the batch and formats each one; the buffer keeps the rest |
| Log4js.AjaxAppender.DrainStep | log4js-lw.js:866-868 | one pass of the drain loop: the next buffered event and its formatted text extend the batch and the text list |
| Log4js.AjaxAppender.PullFormatted | log4js-lw.js:867 | pulls the oldest event and returns it with its formatted text |
| Log4js.AjaxAppender.Send | log4js-lw.js:859-911 | performs the `Batching.Send` transition |
| Log4js.AjaxAppender.Transmit | log4js-lw.js:876-906 | attaches the handler to the request (a new one with the layout's MIME type when there is none), posts the content with the layout's content type to the URL, and schedules one timeout; nothing else changes |
| Log4js.AjaxAppender.DoAppend | log4js-lw.js:832-842 | performs the `Batching.Append` transition |
| Log4js.AjaxAppender.DoClear | log4js-lw.js:848-854 | performs the `Batching.Clear` transition |
| Log4js.AjaxAppender.OnReadyStateChanged | log4js-lw.js:876-939 | performs the `Batching.ReadyStateChanged` transition |
| Log4js.AjaxAppender.Timeout | log4js-lw.js:894-904 | performs the `Batching.Timeout` transition |
| Log4js.Logger.constructor | log4js-lw.js:437-455 | category `name` or "", level FATAL, the default date format, no events, and one base appender that is not attached, so no listener is registered |
| Log4js.Logger.AddAppender | log4js-lw.js:470-477 | an appender is attached and appended, and its layout and output are unchanged; anything else makes it throw "Not instance of an Appender: …" and changes nothing; events, level and date format are kept either way |
| Log4js.Logger.SetAppenders | log4js-lw.js:483-494 | runs `doClear` on every old appender (when they share no object, each shows exactly its own `doClear`), then replaces the list and attaches each new appender after the listeners already there, so the old appenders' listeners stay; a new appender outside the old ones' reach keeps its layout and output; events, level and date format are kept |
| Log4js.Logger.ClearAll | log4js-lw.js:485-487 | `doClear` on each current appender in turn; when they share no object, each shows exactly its own `doClear`; appenders outside their reach, the logger and its listener lists are untouched |
| Log4js.Logger.AttachAll | log4js-lw.js:489-493 | the new list replaces the old one; then one new `doAppend` listener and one new `doClear` listener per new appender, in order, after the existing ones; each appender records this logger and keeps its layout and output |
| Log4js.Logger.AttachEach | log4js-lw.js:491-493 | the attaching loop: one `doAppend` and one `doClear` listener per appender, in order, each appender recording this logger; no appender's layout or output changes |
| Log4js.Logger.AttachAt | log4js-lw.js:492 | one `setLogger` call: the two listeners appended, the appender records this logger, and no appender's layout or output changes |
| Log4js.Logger.SetLevel | log4js-lw.js:500-502 | sets the level |
| Log4js.Logger.IsEnabled | log4js-lw.js:523-647 | `isXEnabled()`: true iff X comes no earlier in the level order than the logger's level |
| Log4js.Logger.Log | log4js-lw.js:508-513 | appends exactly one event with the given level, message and exception, then delivers it on `onlog` as `Dispatch` states: every listener once, in order, and with separate listeners each attached appender shows exactly its own `doAppend` of the event; appenders, level and date format are kept |
| Log4js.Logger.LogIfEnabled | log4js-lw.js:523-647 | when the level is enabled, logs and delivers the event as `Log` states; otherwise changes nothing, calls no listener and disturbs no appender; listeners, appenders, level and date format are kept either way |
| Log4js.Logger.Trace | log4js-lw.js:533-537 | at TRACE with a null exception: when TRACE is enabled, logs and delivers the event as `Log` states; otherwise changes nothing and disturbs no appender; listeners, appenders, level and date format are kept |
| Log4js.Logger.Debug | log4js-lw.js:559-563 | the same at DEBUG, with the given throwable |
| Log4js.Logger.Info | log4js-lw.js:585-589 | the same at INFO |
| Log4js.Logger.Warn | log4js-lw.js:605-609 | the same at WARN |
| Log4js.Logger.Error | log4js-lw.js:624-628 | the same at ERROR |
| Log4js.Logger.Fatal | log4js-lw.js:643-647 | the same at FATAL |
| Log4js.Logger.Clear | log4js-lw.js:516-521 | empties `loggingEvents`, then delivers `onclear` with no argument as `Dispatch` states: every listener once, and with separate listeners each AJAX appender takes one `Batching.Clear` step while the others stay as they were; appenders, level and date format are kept |
| Log4js.Logger.SetDateFormat | log4js-lw.js:670-672 | sets the date format |
| Log4js.Logger.GetFormattedTimestamp | log4js-lw.js:680-682 | formats the date with the logger's format; the default format gives the ISO text plus the offset, and the JSON format gives the ISO text plus `Z` |
| Log4js.Registry.constructor | log4js-lw.js:73 | the registry starts with no loggers |
| Log4js.Registry.GetLoggerAsWritten | log4js-lw.js:81-94 | a missing name creates and stores a logger; an inherited name returns the prototype member and creates nothing |
| Log4js.Registry.GetLogger | log4js-lw.js:81-94 | corrected: the category's logger, made on first use and the same object afterwards |
| Log4js.Registry.GetDefaultLogger | log4js-lw.js:101-103 | the logger stored under "[default]" |
| Log4js.Load | log4js-lw.js:1320-1322 | loading the script leaves one logger in the registry, under "Log4js": a new logger with a console appender added after the base appender (its bound `doAppend` and `doClear` are the only listeners) and level OFF |
| Log4js.InternalLoggerAfterLoad | log4js-lw.js:1320-1322 | after loading, `getLogger("Log4js")` returns the internal logger, which is OFF and so lets even FATAL events pass unlogged |
| Log4js.NonStringIsDefault | log4js-lw.js:84-86 | a non-string argument of `getLogger` reaches the same logger object as `getLogger("[default]")` and `getDefaultLogger()` |
| Log4js.InheritedNameIsNotALogger | log4js-lw.js:89-94 | as written, a name such as "toString" never yields a logger; the corrected lookup makes one |
| Log4js.ThrowingListenerDoesNotStopOthers | log4js-lw.js:338-347 | with a throwing listener registered before a console appender's `doAppend`, `dispatch` returns, the first call throws, the second returns, and the console receives exactly that event's line |
| Log4js.AjaxLogger | log4js-lw.js:470-477 | a new logger with an AJAX appender added has that appender's bound `doAppend` as its only `onlog` listener, and the appender is in its initial state |
| Log4js.FatalReachesAjax | log4js-lw.js:643-647 | `fatal` on a FATAL logger whose only `onlog` listener is an AJAX appender's `doAppend` takes that appender one `Batching.Append` step with the logged event |
| Log4js.LoggerPostsThroughAjax | log4js-lw.js:805-842 | on a new logger with an AJAX appender, `debug` calls no listener, and `fatal` posts that one event at once, as JSON, to the default URL |

## Left out

- XMLHttpRequest I/O: `open`, `setRequestHeader`, `send` and `abort` are recorded as `Post` and `Abort` entries. `overrideMimeType` is recorded as the request's MIME type.
- `window.setTimeout` and real time: the timeout is a method that the environment calls. Pending callbacks are counted and not ordered. A `setTimeout` that throws is not modelled.
- `console.log` and `alert` are recorded as the values passed to them. The two appenders' `toString` methods are left out.
- `window.onerror`, `windowError` and `attachEvent` are DOM hookups and are left out.
- `navigator.userAgent` and `location.href` are optional string inputs, read once when an appender is made (its `page`). The source reads them each time the JSON layout formats an event (log4js-lw.js:1122-1134); for the AJAX appender that is when the batch is sent (log4js-lw.js:867). A page address that changes between two events, or between logging an event and sending it, is not modelled.
- JavaScript `Date` objects are left out. `formatDate` takes integer fields, and the basic layout takes the `toLocaleString` text as given.
- `LoggingEvent.getFormattedTimestamp` is left out, because it reads `toGMTString` of a `Date`. `Logger.getFormattedTimestamp` is modelled.
- `Log4js.extend`, `Log4js.bind` and the `Array.prototype.push` polyfill are left out. A bound function is a new `JsFunction` with a `Body`.
- The internal logger `log4jsLogger` is in the registry (`Log4js.Load`), but the calls made to it are left out: the AJAX appender's `trace` calls (log4js-lw.js:833-903) and `dispatch`'s `warn` when a listener throws (log4js-lw.js:344). At load time it is OFF, so these calls do nothing; a caller who raises its level would see them on the console.
- Aliasing of the appender array: `setAppenders` (log4js-lw.js:488) stores the caller's array itself, so a later `addAppender` (log4js-lw.js:473) pushes into the caller's array, and the caller's own later changes reach the next `setAppenders`. The model keeps `appenders` as a value sequence, so neither effect is modelled.
- Text.Upper: only ASCII letters are upper-cased. JavaScript's `toUpperCase` also maps other characters.
- Levels.ToLevel: numbers are integers. Non-integer numbers, and the double-valued ranks of ALL and OFF, are not modelled.
- DateFormat.OffsetTextRoundTrip: only whole-minute offsets under 100 hours are covered. Fractional offsets are not modelled.
- Log4js.CustomEvent.Dispatch: each listener's effect is stated only when no two listeners reach a common object. An appender attached twice gets two listeners on the same object, and the combined effect of its two calls is not stated.
- Log4js.CallListener: a bound `doAppend` called with no argument (only possible from `onclear`) is modelled as returning for the base appender and throwing for the others, with no effect. The AJAX appender as written would first enqueue `undefined`. A console or alert appender whose layout is the base layout does not throw in the source: its `format` returns "" without reading the event, so it calls `console.log(null, "", null)` or `alert("nullnull")` and returns (log4js-lw.js:962-967, 991-993, 752-776). The model records neither that line nor that alert, and reports the call as thrown.
- Log4js.Logger.SetAppenders: the effect of each old appender's `doClear` is stated only when the old appenders share no object. A list holding non-appenders is not modelled.
- Log4js.Logger.LogIfEnabled: the disabled path states that the logger, the returned calls and every appender reached from `onlog` are unchanged. Other objects are left alone because nothing is called.

## Findings

| source | as written | input that shows it | evidently intended | confidence | as-written member | corrected member |
|---|---|---|---|---|---|---|
| log4js-lw.js:190-199 | the numeric branch of `toLevel` names the bare identifiers `ALL_INT` … `TRACE_INT`, which are only defined as `Log4js.Level.*_INT`, so it throws a ReferenceError | `toLevel(20000, Log4js.Level.DEBUG)` | returns INFO, the level whose rank is 20000 | high, not executed | Levels.ToLevelRankThrows | Levels.ToLevelByRank |
| log4js-lw.js:866 | the drain loop tests `i < length()` while each `pull` shortens the buffer, so it drains `min(threshold, ceil(len / 2))` events | threshold 2: two `doAppend` calls post only the first event | a batch of `min(threshold, len)` events | medium, not executed | Batching.HalfDrainAtThresholdTwo | Batching.IntendedDrainAtThresholdTwo |
| log4js-lw.js:330-332 | the found indexes are spliced in ascending order from the shrinking array, so later indexes hit shifted positions | `removeListener(x)` on `[x, x, y]` leaves `[x]` | `[y]`: every copy of `x` removed, the others kept | high, not executed | Listeners.RemoveDuplicateRemovesNeighbour | Listeners.WithoutRemovesAll |
| log4js-lw.js:89 | `Log4js.loggers` is a plain object, so names inherited from `Object.prototype` are truthy and `getLogger` returns that member | `getLogger("toString")` | a new logger named "toString" | high, not executed | Log4js.Registry.GetLoggerAsWritten | Log4js.Registry.GetLogger |
| log4js-lw.js:1279 | the short year is `addZero` of `substring(3,4)` of the year's text, which keeps one character, the last digit, behind a "0" | `formatDate(d, "yy")` for a date in 2024 gives "04" | "24", the last two digits of the year | medium, not executed | DateFormat.ShortYearIn2024 | DateFormat.TwoDigitYear |

The `AjaxAppender` and `CustomEvent` classes, `Levels.ToLevel` and `DateFormat.FormatDate` keep the behaviour as written. The corrected members state what the code evidently means, and they are proved next to it.
