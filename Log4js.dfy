/** The objects of `log4js-lw.js`: listener functions and the `CustomEvent`
    bus, the appenders, `Logger`, and the logger registry behind
    `Log4js.getLogger`. */
module Log4js {
  import opened Wrappers
  import opened Levels
  import opened DateFormat
  import opened Events
  import opened Layouts
  import opened Fifo
  import Batching
  import Listeners
  import Text

  /** What calling a listener runs: an appender's `doAppend` or `doClear`
      bound to it by `setLogger`, or any other function, which either returns
      or throws. */
  datatype Body =
    | AppendOf(appender: AnyAppender)
    | ClearOf(appender: AnyAppender)
    | Foreign(throws: bool)

  /** A JavaScript function object. Listeners are compared with `==`, which on
      functions is identity, so every `Log4js.bind` makes a new one. */
  class JsFunction {
    const body: Body

    constructor(body: Body)
      ensures this.body == body
    {
      this.body := body;
    }
  }

  /** The appender classes; `Plain` is `Log4js.Appender` itself. */
  datatype AnyAppender =
    | Plain(plain: BaseAppender)
    | Console(console: JSConsoleAppender)
    | Alert(alert: JSAlertAppender)
    | Ajax(ajax: AjaxAppender)

  /** The objects an appender's `doAppend`, `doClear` and `setLogger` may
      change, and all that its view reads. */
  function AppenderFootprint(app: AnyAppender): set<object>
  {
    match app
    case Plain(p) => {p}
    case Console(c) => {c}
    case Alert(a) => {a}
    case Ajax(x) => {x, x.loggingEventBuffer}
  }

  /** The object that holds an appender's fields. */
  function Holder(app: AnyAppender): object
  {
    match app
    case Plain(p) => p
    case Console(c) => c
    case Alert(a) => a
    case Ajax(x) => x
  }

  function HolderSet(apps: seq<AnyAppender>): set<object>
  {
    set i | 0 <= i < |apps| :: Holder(apps[i])
  }

  /** The logger an appender was last attached to. */
  function LoggerOf(app: AnyAppender): Logger?
    reads Holder(app)
  {
    match app
    case Plain(p) => p.logger
    case Console(c) => c.logger
    case Alert(a) => a.logger
    case Ajax(x) => x.logger
  }

  function BodyFootprint(b: Body): set<object>
  {
    match b
    case AppendOf(app) => AppenderFootprint(app)
    case ClearOf(app) => AppenderFootprint(app)
    case Foreign(_) => {}
  }

  /** Everything calling the listeners may change. */
  function Footprint(fs: seq<JsFunction>): set<object>
  {
    if fs == [] then {} else BodyFootprint(fs[0].body) + Footprint(fs[1..])
  }

  lemma {:induction false} FootprintCovers(fs: seq<JsFunction>, i: nat)
    requires i < |fs|
    ensures BodyFootprint(fs[i].body) <= Footprint(fs)
  {
    if i > 0 {
      FootprintCovers(fs[1..], i - 1);
    }
  }

  /** Listeners reach no listener list. */
  lemma {:induction false} FootprintExcludesEvent(fs: seq<JsFunction>, ev: CustomEvent)
    ensures ev !in Footprint(fs)
  {
    if fs != [] {
      FootprintExcludesEvent(fs[1..], ev);
    }
  }

  function ClearFootprint(apps: seq<AnyAppender>): set<object>
  {
    if apps == [] then {} else AppenderFootprint(apps[0]) + ClearFootprint(apps[1..])
  }

  /** Listeners reach appenders and their buffers only, never a logger. */
  lemma {:induction false} FootprintExcludesLogger(fs: seq<JsFunction>, l: Logger)
    ensures l !in Footprint(fs)
  {
    if fs != [] {
      FootprintExcludesLogger(fs[1..], l);
    }
  }

  /** Clearing appenders reaches no logger and no listener list. */
  lemma {:induction false} ClearFootprintExcludes(apps: seq<AnyAppender>, l: Logger, c: CustomEvent)
    ensures l !in ClearFootprint(apps) && c !in ClearFootprint(apps)
  {
    if apps != [] {
      ClearFootprintExcludes(apps[1..], l, c);
    }
  }

  lemma {:induction false} ClearFootprintCovers(apps: seq<AnyAppender>, i: nat)
    requires i < |apps|
    ensures AppenderFootprint(apps[i]) <= ClearFootprint(apps)
  {
    if i > 0 {
      ClearFootprintCovers(apps[1..], i - 1);
    }
  }

  /** What an appender shows apart from its logger: its layout, what it has
      written so far, and for the AJAX appender its whole batching state. */
  datatype AppenderView =
    | PlainView(baseLayout: Option<Layout>)
    | ConsoleView(layout: Layout, page: Page, lines: seq<ConsoleLine>)
    | AlertView(layout: Layout, page: Page, alerts: seq<string>)
    | AjaxView(state: Batching.AjaxState)
    | NoView

  function View(app: AnyAppender): AppenderView
    reads AppenderFootprint(app)
  {
    match app
    case Plain(p) => PlainView(p.layout)
    case Console(c) => ConsoleView(c.layout, c.page, c.lines)
    case Alert(a) => AlertView(a.layout, a.page, a.alerts)
    case Ajax(x) => AjaxView(x.State())
  }

  /** What `doAppend(e)` does to an appender: the console and alert appenders
      write the framed, formatted event; the AJAX appender takes the
      `Batching.Append` step; the base appender ignores it. */
  function Appended(v: AppenderView, e: LoggingEvent): AppenderView
  {
    match v
    case ConsoleView(l, page, lines) =>
      ConsoleView(l, page, lines + [ConsoleLine(Header(l), Format(l, e, page), Footer(l))])
    case AlertView(l, page, alerts) =>
      AlertView(l, page, alerts + [JsText(Header(l)) + Format(l, e, page) + JsText(Footer(l))])
    case AjaxView(st) => AjaxView(Batching.Append(st, e))
    case _ => v
  }

  /** What `doClear()` does: only the AJAX appender reacts, by sending. */
  function Cleared(v: AppenderView): AppenderView
  {
    match v
    case AjaxView(st) => AjaxView(Batching.Clear(st))
    case _ => v
  }

  /** The view of the appender a listener is bound to. */
  function BodyView(b: Body): AppenderView
    reads BodyFootprint(b)
  {
    match b
    case AppendOf(app) => View(app)
    case ClearOf(app) => View(app)
    case Foreign(_) => NoView
  }

  /** What calling a listener with `payload` does to what it reaches. A bound
      `doAppend` given no event fails before changing anything. */
  function Effect(b: Body, payload: Option<LoggingEvent>, v: AppenderView): AppenderView
  {
    match b
    case AppendOf(_) => if payload.Some? then Appended(v, payload.value) else v
    case ClearOf(_) => Cleared(v)
    case Foreign(_) => v
  }

  /** No two listeners reach a common object, as when every appender is
      attached once. */
  predicate Separate(fs: seq<JsFunction>)
  {
    forall i, j :: 0 <= i < j < |fs| ==> BodyFootprint(fs[i].body) !! BodyFootprint(fs[j].body)
  }

  /** No two appenders of a list share an object. */
  predicate SeparateApps(apps: seq<AnyAppender>)
  {
    forall i, j :: 0 <= i < j < |apps| ==> AppenderFootprint(apps[i]) !! AppenderFootprint(apps[j])
  }

  /** What `dispatch(payload)` on `ev` did: the listeners are the same, each
      was called once, in order, with `payload`, and ended as its body
      dictates; when the listeners reach separate objects, every appender
      reached shows exactly the effect of its own call, whatever the other
      listeners did. */
  twostate predicate Delivered(ev: CustomEvent, payload: Option<LoggingEvent>, new calls: seq<Call>)
    reads ev, Footprint(ev.listeners)
  {
    && ev.listeners == old(ev.listeners)
    && |calls| == |ev.listeners|
    && (forall i :: 0 <= i < |calls| ==>
          calls[i] == Call(ev.listeners[i], payload, OutcomeOf(ev.listeners[i].body, payload)))
    && (Separate(ev.listeners) ==>
          forall i :: 0 <= i < |ev.listeners| ==>
            (FootprintCovers(ev.listeners, i);
             BodyView(ev.listeners[i].body)
               == Effect(ev.listeners[i].body, payload, old(BodyView(ev.listeners[i].body)))))
  }

  /** Nothing reached from `ev`'s listeners changed. */
  twostate predicate Undisturbed(ev: CustomEvent)
    reads ev, Footprint(ev.listeners)
  {
    && ev.listeners == old(ev.listeners)
    && forall i :: 0 <= i < |ev.listeners| ==>
         (FootprintCovers(ev.listeners, i);
          BodyView(ev.listeners[i].body) == old(BodyView(ev.listeners[i].body)))
  }

  datatype Outcome = Returned | Threw

  /** One call `dispatch` made: the listener, the argument, and how it ended. */
  datatype Call = Call(listener: JsFunction, payload: Option<LoggingEvent>, outcome: Outcome)

  /** How calling a listener with `payload` ends. `onclear` dispatches with no
      argument; a `doAppend` reached that way returns at once for the base
      appender and, for the others, fails reading the missing event. */
  function OutcomeOf(b: Body, payload: Option<LoggingEvent>): Outcome
  {
    match b
    case AppendOf(app) => if payload.Some? || app.Plain? then Returned else Threw
    case ClearOf(_) => Returned
    case Foreign(throws) => if throws then Threw else Returned
  }

  /** `Log4js.CustomEvent`: an ordered list of listeners. */
  class CustomEvent {
    var listeners: seq<JsFunction>

    constructor()
      ensures listeners == []
    {
      listeners := [];
    }

    /** `addListener(method)`: appends, even a listener already present. */
    method AddListener(f: JsFunction)
      modifies this
      ensures listeners == old(listeners) + [f]
    {
      listeners := listeners + [f];
    }

    /** `findListenerIndexes(method)`: the ascending indexes holding `f`. */
    method FindListenerIndexes(f: JsFunction) returns (indexes: seq<nat>)
      ensures indexes == Listeners.IndexesOf(listeners, f)
      ensures forall k :: 0 <= k < |indexes| ==> indexes[k] < |listeners| && listeners[indexes[k]] == f
      ensures forall i :: 0 <= i < |listeners| && listeners[i] == f ==> i in indexes
    {
      indexes := [];
      var i := 0;
      while i < |listeners|
        invariant 0 <= i <= |listeners|
        invariant indexes == Listeners.IndexesOf(listeners[..i], f)
      {
        assert listeners[..i + 1][..i] == listeners[..i];
        if listeners[i] == f {
          indexes := indexes + [i];
        }
        i := i + 1;
      }
      assert listeners[..i] == listeners;
    }

    /** `removeListener(method)`: splices the found indexes out one after the
        other from the shrinking array. */
    method RemoveListener(f: JsFunction)
      modifies this
      ensures listeners == Listeners.RemoveListener(old(listeners), f)
    {
      var found := FindListenerIndexes(f);
      ghost var original := listeners;
      var i := 0;
      while i < |found|
        invariant 0 <= i <= |found|
        invariant listeners == Listeners.SpliceAll(original, found[..i])
      {
        var k := found[i];
        Listeners.SpliceAllStep(original, found, i);
        if k < |listeners| {
          listeners := listeners[..k] + listeners[k + 1..];
        }
        i := i + 1;
      }
      assert found[..i] == found;
    }

    /** `dispatch(handler)`: calls every listener once, in index order, with
        the same argument; a listener that throws does not stop the others and
        `dispatch` itself returns normally. */
    method Dispatch(payload: Option<LoggingEvent>) returns (calls: seq<Call>)
      modifies Footprint(listeners)
      ensures Delivered(this, payload, calls)
    {
      var fs := listeners;
      FootprintExcludesEvent(fs, this);
      ghost var separate := Separate(fs);
      calls := [];
      var i := 0;
      while i < |fs|
        invariant 0 <= i <= |fs|
        invariant |calls| == i
        invariant forall k :: 0 <= k < i ==> calls[k] == Call(fs[k], payload, OutcomeOf(fs[k].body, payload))
        invariant separate ==> forall k :: 0 <= k < |fs| ==>
          BodyView(fs[k].body) == if k < i then Effect(fs[k].body, payload, old(BodyView(fs[k].body)))
                                  else old(BodyView(fs[k].body))
      {
        FootprintCovers(fs, i);
        if separate {
          SeparateApart(fs, i);
        }
        var outcome := CallAt(fs, i, payload);
        var call := Call(fs[i], payload, outcome);
        assert call == Call(fs[i], payload, OutcomeOf(fs[i].body, payload));
        calls := calls + [call];
        i := i + 1;
      }
    }
  }

  /** Runs the listener at `i`; the appender of any listener that shares no
      object with it is left as it was. */
  method CallAt(fs: seq<JsFunction>, i: nat, payload: Option<LoggingEvent>) returns (outcome: Outcome)
    requires i < |fs|
    modifies BodyFootprint(fs[i].body)
    ensures outcome == OutcomeOf(fs[i].body, payload)
    ensures BodyView(fs[i].body) == Effect(fs[i].body, payload, old(BodyView(fs[i].body)))
    ensures forall k :: 0 <= k < |fs| && BodyFootprint(fs[k].body) !! BodyFootprint(fs[i].body) ==>
      BodyView(fs[k].body) == old(BodyView(fs[k].body))
  {
    outcome := CallListener(fs[i], payload);
  }

  /** With separate listeners, the one at `i` shares no object with any other. */
  lemma SeparateApart(fs: seq<JsFunction>, i: nat)
    requires i < |fs| && Separate(fs)
    ensures forall k :: 0 <= k < |fs| && k != i ==> BodyFootprint(fs[k].body) !! BodyFootprint(fs[i].body)
  {
    forall k | 0 <= k < |fs| && k != i
      ensures BodyFootprint(fs[k].body) !! BodyFootprint(fs[i].body)
    {
      if i < k {
        assert BodyFootprint(fs[i].body) !! BodyFootprint(fs[k].body);
      }
    }
  }

  /** Runs one listener. */
  method CallListener(f: JsFunction, payload: Option<LoggingEvent>) returns (outcome: Outcome)
    modifies BodyFootprint(f.body)
    ensures outcome == OutcomeOf(f.body, payload)
    ensures BodyView(f.body) == Effect(f.body, payload, old(BodyView(f.body)))
  {
    match f.body
    case AppendOf(app) =>
      if payload.Some? {
        DoAppend(app, payload.value);
        outcome := Returned;
      } else {
        outcome := if app.Plain? then Returned else Threw;
      }
    case ClearOf(app) =>
      DoClear(app);
      outcome := Returned;
    case Foreign(throws) =>
      outcome := if throws then Threw else Returned;
  }

  /** `appender.doAppend(loggingEvent)`, whatever the appender's class. */
  method DoAppend(app: AnyAppender, e: LoggingEvent)
    modifies AppenderFootprint(app)
    ensures View(app) == Appended(old(View(app)), e)
    ensures LoggerOf(app) == old(LoggerOf(app))
  {
    match app
    case Plain(p) =>
    case Console(c) => c.DoAppend(e);
    case Alert(a) => a.DoAppend(e);
    case Ajax(x) => x.DoAppend(e);
  }

  /** `appender.doClear()`: only the AJAX appender overrides the no-op. */
  method DoClear(app: AnyAppender)
    modifies AppenderFootprint(app)
    ensures View(app) == Cleared(old(View(app)))
    ensures LoggerOf(app) == old(LoggerOf(app))
  {
    match app
    case Plain(p) =>
    case Console(c) =>
    case Alert(a) =>
    case Ajax(x) => x.DoClear();
  }

  /** `doClear` on the appender at `i`; with separate appenders, the others
      are left as they were. */
  method ClearAt(apps: seq<AnyAppender>, i: nat)
    requires i < |apps|
    modifies AppenderFootprint(apps[i])
    ensures View(apps[i]) == Cleared(old(View(apps[i])))
    ensures SeparateApps(apps) ==> forall k :: 0 <= k < |apps| && k != i ==>
      View(apps[k]) == old(View(apps[k]))
  {
    if SeparateApps(apps) {
      SeparateAppsApart(apps, i);
    }
    DoClear(apps[i]);
  }

  /** With separate appenders, the one at `i` shares no object with any other. */
  lemma SeparateAppsApart(apps: seq<AnyAppender>, i: nat)
    requires i < |apps| && SeparateApps(apps)
    ensures forall k :: 0 <= k < |apps| && k != i ==> AppenderFootprint(apps[k]) !! AppenderFootprint(apps[i])
  {
    forall k | 0 <= k < |apps| && k != i
      ensures AppenderFootprint(apps[k]) !! AppenderFootprint(apps[i])
    {
      if i < k {
        assert AppenderFootprint(apps[i]) !! AppenderFootprint(apps[k]);
      }
    }
  }

  /** The object holding one appender's fields belongs to no other appender. */
  lemma HolderOutside(a: AnyAppender, b: AnyAppender)
    requires a != b
    ensures Holder(a) !in AppenderFootprint(b)
  {
  }

  /** `Appender.setLogger(logger)`: registers a new bound `doAppend` on the
      logger's `onlog` and a new bound `doClear` on its `onclear`, then records
      the logger. */
  method SetLogger(app: AnyAppender, logger: Logger) returns (onAppend: JsFunction, onClear: JsFunction)
    requires logger.Valid()
    modifies logger.onlog, logger.onclear, Holder(app)
    ensures fresh(onAppend) && fresh(onClear) && onAppend != onClear
    ensures onAppend.body == AppendOf(app) && onClear.body == ClearOf(app)
    ensures logger.onlog.listeners == old(logger.onlog.listeners) + [onAppend]
    ensures logger.onclear.listeners == old(logger.onclear.listeners) + [onClear]
    ensures LoggerOf(app) == logger && View(app) == old(View(app))
  {
    onAppend := new JsFunction(AppendOf(app));
    onClear := new JsFunction(ClearOf(app));
    logger.onlog.AddListener(onAppend);
    logger.onclear.AddListener(onClear);
    match app
    case Plain(p) => p.logger := logger;
    case Console(c) => c.logger := logger;
    case Alert(a) => a.logger := logger;
    case Ajax(x) => x.logger := logger;
  }

  /** `Log4js.Appender`: ignores every event. */
  class BaseAppender {
    var logger: Logger?
    var layout: Option<Layout>

    constructor()
      ensures logger == null && layout == None
    {
      logger := null;
      layout := None;
    }

    /** `setLayout(layout)`. */
    method SetLayout(l: Layout)
      modifies this
      ensures layout == Some(l) && logger == old(logger)
    {
      layout := Some(l);
    }
  }

  /** One `console.log(header, text, footer)` call. */
  datatype ConsoleLine = ConsoleLine(header: Option<string>, text: string, footer: Option<string>)

  /** `Log4js.JSConsoleAppender`: writes each event to the console. */
  class JSConsoleAppender {
    var logger: Logger?
    var layout: Layout
    const page: Page
    /** What the console received, oldest first. */
    var lines: seq<ConsoleLine>

    constructor(page: Page)
      ensures logger == null && layout == SimpleLayout && lines == [] && this.page == page
    {
      logger := null;
      layout := SimpleLayout;
      this.page := page;
      lines := [];
    }

    method SetLayout(l: Layout)
      modifies this
      ensures layout == l && lines == old(lines) && logger == old(logger)
    {
      layout := l;
    }

    /** `doAppend(loggingEvent)`: header, formatted event and footer as the
        three arguments of one console call. */
    method DoAppend(e: LoggingEvent)
      modifies this
      ensures lines == old(lines) + [ConsoleLine(Header(layout), Format(layout, e, page), Footer(layout))]
      ensures layout == old(layout) && logger == old(logger)
    {
      lines := lines + [ConsoleLine(Header(layout), Format(layout, e, page), Footer(layout))];
    }
  }

  /** `Log4js.JSAlertAppender`: shows each event in an alert box. */
  class JSAlertAppender {
    var logger: Logger?
    var layout: Layout
    const page: Page
    /** The texts shown, oldest first. */
    var alerts: seq<string>

    constructor(page: Page)
      ensures logger == null && layout == SimpleLayout && alerts == [] && this.page == page
    {
      logger := null;
      layout := SimpleLayout;
      this.page := page;
      alerts := [];
    }

    method SetLayout(l: Layout)
      modifies this
      ensures layout == l && alerts == old(alerts) && logger == old(logger)
    {
      layout := l;
    }

    /** `doAppend(loggingEvent)`: header, formatted event and footer in one
        text. */
    method DoAppend(e: LoggingEvent)
      modifies this
      ensures alerts == old(alerts) + [JsText(Header(layout)) + Format(layout, e, page) + JsText(Footer(layout))]
      ensures layout == old(layout) && logger == old(logger)
    {
      alerts := alerts + [JsText(Header(layout)) + Format(layout, e, page) + JsText(Footer(layout))];
    }
  }

  /** `Log4js.AjaxAppender`: posts batches of events to a URL. Its fields follow
      the transitions of `Batching`; `transmissions` records what it asked of
      the network and `pendingTimers` the timeout callbacks not yet run. */
  class AjaxAppender {
    var logger: Logger?
    var isInProgress: bool
    var threshold: int
    var timeout: int
    var loggingUrl: string
    const loggingEventBuffer: FifoBuffer<LoggingEvent>
    var layout: Layout
    const page: Page
    var httpRequest: Option<Batching.Request>
    var transmissions: seq<Batching.Transmission>
    var pendingTimers: nat

    function State(): Batching.AjaxState
      reads this, loggingEventBuffer
    {
      Batching.AjaxState(isInProgress, threshold, timeout, loggingUrl, layout, page,
        loggingEventBuffer.elements, httpRequest, transmissions, pendingTimers)
    }

    constructor(urlArg: Option<string>, page: Page)
      ensures State() == Batching.Initial(urlArg, page)
      ensures logger == null && fresh(loggingEventBuffer)
    {
      logger := null;
      isInProgress := false;
      threshold := Batching.DEFAULT_THRESHOLD;
      timeout := Batching.DEFAULT_TIMEOUT;
      loggingUrl := Batching.LoggingUrl(urlArg);
      loggingEventBuffer := new FifoBuffer<LoggingEvent>();
      layout := JsonLayout;
      this.page := page;
      httpRequest := None;
      transmissions := [];
      pendingTimers := 0;
    }

    method SetLayout(l: Layout)
      modifies this
      ensures State() == old(State()).(layout := l) && logger == old(logger)
    {
      layout := l;
    }

    /** `doAppend(loggingEvent)`. */
    method DoAppend(e: LoggingEvent)
      modifies this, loggingEventBuffer
      ensures State() == Batching.Append(old(State()), e) && logger == old(logger)
    {
      if loggingEventBuffer.Length() <= threshold || isInProgress {
        var _ := loggingEventBuffer.Push(e);
      }
      assert State() == Batching.Enqueue(old(State()), e);
      if loggingEventBuffer.Length() >= threshold && !isInProgress {
        Send();
      }
    }

    /** `doClear()`. */
    method DoClear()
      modifies this, loggingEventBuffer
      ensures State() == Batching.Clear(old(State())) && logger == old(logger)
    {
      if loggingEventBuffer.Length() > 0 {
        Send();
      }
    }

    /** The drain loop of `send()`: pulls events while the counter is below
        both the current length and the threshold, formatting each one. */
    method Drain() returns (a: seq<string>, batch: seq<LoggingEvent>)
      modifies loggingEventBuffer
      ensures var c := Batching.DrainCount(|old(loggingEventBuffer.elements)|, threshold);
        && batch == old(loggingEventBuffer.elements)[..c]
        && loggingEventBuffer.elements == old(loggingEventBuffer.elements)[c..]
        && a == FormatAll(layout, batch, page)
    {
      ghost var before := loggingEventBuffer.elements;
      ghost var count := Batching.DrainCount(|before|, threshold);
      a := [];
      batch := [];
      var i := 0;
      while i < loggingEventBuffer.Length() && i < threshold
        invariant 0 <= i <= count
        invariant loggingEventBuffer.elements == before[i..]
        invariant |batch| == |a| == i
        invariant forall k :: 0 <= k < i ==> batch[k] == before[k] && a[k] == Format(layout, before[k], page)
        decreases loggingEventBuffer.Length() - i
      {
        Batching.DrainGuard(|before|, threshold, i);
        a, batch := DrainStep(before, i, a, batch);
        i := i + 1;
      }
      Batching.DrainGuard(|before|, threshold, i);
      FormattedPrefix(layout, page, before, i, a, batch);
    }

    /** One turn of the drain loop: pulls the next event and formats it. */
    method DrainStep(ghost before: seq<LoggingEvent>, i: nat, a: seq<string>, batch: seq<LoggingEvent>)
      returns (a': seq<string>, batch': seq<LoggingEvent>)
      requires i < |before| && loggingEventBuffer.elements == before[i..]
      requires |batch| == |a| == i
      requires forall k :: 0 <= k < i ==> batch[k] == before[k] && a[k] == Format(layout, before[k], page)
      modifies loggingEventBuffer
      ensures loggingEventBuffer.elements == before[i + 1..]
      ensures |batch'| == |a'| == i + 1
      ensures forall k :: 0 <= k < i + 1 ==> batch'[k] == before[k] && a'[k] == Format(layout, before[k], page)
    {
      var line, e := PullFormatted();
      assert before[i..][1..] == before[i + 1..];
      a' := a + [line];
      batch' := batch + [e];
    }

    /** `this.layout.format(this.loggingEventBuffer.pull())` on a non-empty buffer. */
    method PullFormatted() returns (line: string, e: LoggingEvent)
      requires loggingEventBuffer.elements != []
      modifies loggingEventBuffer
      ensures e == old(loggingEventBuffer.elements)[0]
      ensures loggingEventBuffer.elements == old(loggingEventBuffer.elements)[1..]
      ensures line == Format(layout, e, page)
    {
      var next := loggingEventBuffer.Pull();
      e := next.value;
      line := Format(layout, e, page);
    }

    /** `send()`: drains a batch and posts header, events and footer. */
    method Send()
      modifies this, loggingEventBuffer
      ensures State() == Batching.Send(old(State())) && logger == old(logger)
    {
      if loggingEventBuffer.Length() > 0 {
        ghost var s0 := State();
        isInProgress := true;
        var a, batch := Drain();
        var content := JsText(Header(layout)) + Text.Join(a, Separator(layout)) + JsText(Footer(layout));
        assert content == Payload(layout, FormatAll(layout, batch, page));
        Transmit(content, batch);
      }
    }

    /** The tail of `send()`: reuses the request or opens one with the layout's
        MIME type, attaches the handler, posts `content` and schedules one timeout. */
    method Transmit(content: string, batch: seq<LoggingEvent>)
      modifies this
      ensures httpRequest == Some(Batching.Attach(old(State())))
      ensures transmissions == old(transmissions) + [Batching.Post(loggingUrl, ContentType(layout), content, batch)]
      ensures pendingTimers == old(pendingTimers) + 1
      ensures isInProgress == old(isInProgress) && threshold == old(threshold) && timeout == old(timeout)
      ensures loggingUrl == old(loggingUrl) && layout == old(layout) && logger == old(logger)
    {
      if httpRequest == None {
        httpRequest := Some(Batching.Request(ContentType(layout), false));
      }
      httpRequest := Some(httpRequest.value.(handlerAttached := true));
      transmissions := transmissions + [Batching.Post(loggingUrl, ContentType(layout), content, batch)];
      pendingTimers := pendingTimers + 1;
    }

    /** The request's `onreadystatechange`: the appender's handler until a
        timeout replaces it with a no-op. */
    method OnReadyStateChanged(readyState: int, status: Option<int>)
      requires httpRequest.Some?
      modifies this
      ensures State() == Batching.ReadyStateChanged(old(State()), readyState, status)
      ensures logger == old(logger)
    {
      if !httpRequest.value.handlerAttached || readyState != 4 {
        return;
      }
      if Batching.Success(status) {
        isInProgress := false;
      }
    }

    /** The timeout callback `send` schedules. */
    method Timeout()
      requires pendingTimers > 0 && httpRequest.Some?
      modifies this, loggingEventBuffer
      ensures State() == Batching.Timeout(old(State())) && logger == old(logger)
    {
      httpRequest := Some(httpRequest.value.(handlerAttached := false));
      transmissions := transmissions + [Batching.Abort];
      isInProgress := false;
      pendingTimers := pendingTimers - 1;
      assert State() == Batching.Expire(old(State()));
      if loggingEventBuffer.Length() > 0 {
        Send();
      }
    }
  }

  /** What `addAppender` is given: an appender, or anything else, rendered as
      string concatenation renders it. */
  datatype AppenderArg = AnAppender(appender: AnyAppender) | NotAnAppender(text: string)

  /** `Log4js.Logger`. */
  class Logger {
    /** Every event logged since the last `clear`, oldest first. */
    var loggingEvents: seq<LoggingEvent>
    var appenders: seq<AnyAppender>
    const category: string
    var level: Level
    var dateformat: string
    const onlog: CustomEvent
    const onclear: CustomEvent

    predicate Valid()
    {
      onlog != onclear
    }

    /** `new Logger(name)`: level FATAL, the default date format, and the base
        appender in `appenders` without `setLogger`, so nothing listens yet. */
    constructor(name: Option<string>)
      ensures Valid() && fresh(onlog) && fresh(onclear)
      ensures category == (if name.Some? then name.value else "")
      ensures loggingEvents == [] && level == Level.Fatal && dateformat == DEFAULT_DATE_FORMAT
      ensures |appenders| == 1 && appenders[0].Plain? && fresh(appenders[0].plain)
      ensures appenders[0].plain.logger == null
      ensures onlog.listeners == [] && onclear.listeners == []
    {
      loggingEvents := [];
      category := if name.Some? then name.value else "";
      level := Level.Fatal;
      dateformat := DEFAULT_DATE_FORMAT;
      onlog := new CustomEvent();
      onclear := new CustomEvent();
      var base := new BaseAppender();
      appenders := [Plain(base)];
    }

    /** `addAppender(appender)`: attaches and keeps an appender; throws on
        anything else and then changes nothing. */
    method AddAppender(arg: AppenderArg) returns (r: Result<(), string>)
      requires Valid()
      modifies this, onlog, onclear, if arg.AnAppender? then {Holder(arg.appender)} else {}
      ensures arg.NotAnAppender? ==> r == Err("Not instance of an Appender: " + arg.text)
      ensures arg.NotAnAppender? ==>
        (appenders == old(appenders)
         && onlog.listeners == old(onlog.listeners) && onclear.listeners == old(onclear.listeners))
      ensures arg.AnAppender? ==>
        (r == Ok(()) && appenders == old(appenders) + [arg.appender]
         && LoggerOf(arg.appender) == this
         && |onlog.listeners| == |old(onlog.listeners)| + 1
         && onlog.listeners[..|old(onlog.listeners)|] == old(onlog.listeners)
         && onlog.listeners[|old(onlog.listeners)|].body == AppendOf(arg.appender)
         && |onclear.listeners| == |old(onclear.listeners)| + 1
         && onclear.listeners[..|old(onclear.listeners)|] == old(onclear.listeners)
         && onclear.listeners[|old(onclear.listeners)|].body == ClearOf(arg.appender)
         && View(arg.appender) == old(View(arg.appender)))
      ensures loggingEvents == old(loggingEvents) && level == old(level) && dateformat == old(dateformat)
    {
      match arg
      case AnAppender(app) =>
        var f, g := SetLogger(app, this);
        appenders := appenders + [app];
        r := Ok(());
      case NotAnAppender(text) =>
        r := Err("Not instance of an Appender: " + text);
    }

    /** What attaching `newAppenders` in order did: after the listeners that
        were there (`logged` on `onlog`, `cleared` on `onclear`), `onlog`
        holds one bound `doAppend` and `onclear` one bound `doClear` per
        appender, in the list's order, and every appender records this
        logger. */
    predicate Attached(logged: seq<JsFunction>, cleared: seq<JsFunction>, newAppenders: seq<AnyAppender>)
      reads this, onlog, onclear, HolderSet(newAppenders)
    {
      && |onlog.listeners| == |logged| + |newAppenders|
      && |onclear.listeners| == |cleared| + |newAppenders|
      && onlog.listeners[..|logged|] == logged
      && onclear.listeners[..|cleared|] == cleared
      && (forall j :: 0 <= j < |newAppenders| ==>
            onlog.listeners[|logged| + j].body == AppendOf(newAppenders[j])
            && onclear.listeners[|cleared| + j].body == ClearOf(newAppenders[j]))
      && (forall j :: 0 <= j < |newAppenders| ==>
            assert Holder(newAppenders[j]) in HolderSet(newAppenders);
            LoggerOf(newAppenders[j]) == this)
    }

    /** `setAppenders(appenders)`: `doClear` on every current appender, then the
        new list, each attached with `setLogger`. The old appenders' listeners
        stay registered. */
    method SetAppenders(newAppenders: seq<AnyAppender>)
      requires Valid()
      modifies this, onlog, onclear, ClearFootprint(appenders), HolderSet(newAppenders)
      ensures appenders == newAppenders
      ensures Attached(old(onlog.listeners), old(onclear.listeners), newAppenders)
      ensures SeparateApps(old(appenders)) ==> forall i :: 0 <= i < |old(appenders)| ==>
        View(old(appenders)[i]) == Cleared(old(View(appenders[i])))
      ensures forall j :: 0 <= j < |newAppenders| && AppenderFootprint(newAppenders[j]) !! old(ClearFootprint(appenders)) ==>
        View(newAppenders[j]) == old(View(newAppenders[j]))
      ensures loggingEvents == old(loggingEvents) && level == old(level) && dateformat == old(dateformat)
    {
      ghost var current := appenders;
      ClearAll(appenders, newAppenders);
      AttachAll(newAppenders, current);
    }

    /** The first loop of `setAppenders`: `doClear` on each appender in turn;
        when they share no object, each shows exactly its own `doClear`. The
        logger and every appender of `watched` outside their reach are left
        as they were. */
    method ClearAll(current: seq<AnyAppender>, ghost watched: seq<AnyAppender>)
      modifies ClearFootprint(current)
      ensures SeparateApps(current) ==> forall i :: 0 <= i < |current| ==>
        View(current[i]) == Cleared(old(View(current[i])))
      ensures forall j :: 0 <= j < |watched| && AppenderFootprint(watched[j]) !! ClearFootprint(current) ==>
        View(watched[j]) == old(View(watched[j]))
      ensures unchanged(this, onlog, onclear)
    {
      ClearFootprintExcludes(current, this, onlog);
      ClearFootprintExcludes(current, this, onclear);
      var i := 0;
      while i < |current|
        invariant 0 <= i <= |current|
        invariant SeparateApps(current) ==> forall k :: 0 <= k < i ==>
          View(current[k]) == Cleared(old(View(current[k])))
        invariant SeparateApps(current) ==> forall k :: i <= k < |current| ==>
          View(current[k]) == old(View(current[k]))
      {
        ClearFootprintCovers(current, i);
        ClearAt(current, i);
        i := i + 1;
      }
    }

    /** The rest of `setAppenders`: the new list replaces the old one, then
        the second loop attaches each appender. Attaching changes no
        appender's layout or output: every appender in `watched` shows what it
        showed. */
    method AttachAll(newAppenders: seq<AnyAppender>, ghost watched: seq<AnyAppender>)
      requires Valid()
      modifies this, onlog, onclear, HolderSet(newAppenders)
      ensures appenders == newAppenders
      ensures Attached(old(onlog.listeners), old(onclear.listeners), newAppenders)
      ensures forall k :: 0 <= k < |watched| ==> View(watched[k]) == old(View(watched[k]))
      ensures forall k :: 0 <= k < |newAppenders| ==> View(newAppenders[k]) == old(View(newAppenders[k]))
      ensures loggingEvents == old(loggingEvents) && level == old(level) && dateformat == old(dateformat)
    {
      appenders := newAppenders;
      AttachEach(newAppenders, watched);
    }

    /** The second loop of `setAppenders`. */
    method AttachEach(newAppenders: seq<AnyAppender>, ghost watched: seq<AnyAppender>)
      requires Valid()
      modifies onlog, onclear, HolderSet(newAppenders)
      ensures Attached(old(onlog.listeners), old(onclear.listeners), newAppenders)
      ensures forall k :: 0 <= k < |watched| ==> View(watched[k]) == old(View(watched[k]))
      ensures forall k :: 0 <= k < |newAppenders| ==> View(newAppenders[k]) == old(View(newAppenders[k]))
      ensures unchanged(this)
    {
      var j := 0;
      while j < |newAppenders|
        invariant 0 <= j <= |newAppenders|
        invariant |onlog.listeners| == |old(onlog.listeners)| + j
        invariant |onclear.listeners| == |old(onclear.listeners)| + j
        invariant onlog.listeners[..|old(onlog.listeners)|] == old(onlog.listeners)
        invariant onclear.listeners[..|old(onclear.listeners)|] == old(onclear.listeners)
        invariant forall k :: 0 <= k < j ==>
          onlog.listeners[|old(onlog.listeners)| + k].body == AppendOf(newAppenders[k])
          && onclear.listeners[|old(onclear.listeners)| + k].body == ClearOf(newAppenders[k])
        invariant forall k :: 0 <= k < j ==> LoggerOf(newAppenders[k]) == this
        invariant forall k :: 0 <= k < |watched| ==> View(watched[k]) == old(View(watched[k]))
        invariant forall k :: 0 <= k < |newAppenders| ==> View(newAppenders[k]) == old(View(newAppenders[k]))
        invariant unchanged(this)
      {
        assert Holder(newAppenders[j]) in HolderSet(newAppenders);
        var f, g := AttachAt(newAppenders[j], watched, newAppenders);
        j := j + 1;
      }
    }

    /** One step of `AttachEach`: `setLogger` on `app`, which changes the view
        of no appender in `watched`. */
    method AttachAt(app: AnyAppender, ghost watched: seq<AnyAppender>, ghost siblings: seq<AnyAppender>) returns (onAppend: JsFunction, onClear: JsFunction)
      requires Valid()
      modifies onlog, onclear, Holder(app)
      ensures onAppend.body == AppendOf(app) && onClear.body == ClearOf(app)
      ensures onlog.listeners == old(onlog.listeners) + [onAppend]
      ensures onclear.listeners == old(onclear.listeners) + [onClear]
      ensures LoggerOf(app) == this
      ensures forall k :: 0 <= k < |watched| ==> View(watched[k]) == old(View(watched[k]))
      ensures forall k :: 0 <= k < |siblings| ==> View(siblings[k]) == old(View(siblings[k]))
      ensures forall k :: 0 <= k < |siblings| && siblings[k] != app ==> LoggerOf(siblings[k]) == old(LoggerOf(siblings[k]))
      ensures unchanged(this)
    {
      onAppend, onClear := SetLogger(app, this);
      forall k | 0 <= k < |watched|
        ensures View(watched[k]) == old(View(watched[k]))
      {
        if watched[k] != app {
          HolderOutside(app, watched[k]);
        }
      }
      forall k | 0 <= k < |siblings|
        ensures View(siblings[k]) == old(View(siblings[k]))
        ensures siblings[k] != app ==> LoggerOf(siblings[k]) == old(LoggerOf(siblings[k]))
      {
        if siblings[k] != app {
          HolderOutside(app, siblings[k]);
        }
      }
    }

    /** `setLevel(level)`. */
    method SetLevel(l: Level)
      modifies this
      ensures level == l
      ensures loggingEvents == old(loggingEvents) && appenders == old(appenders) && dateformat == old(dateformat)
    {
      level := l;
    }

    /** `isXEnabled()` for level X: X is let through exactly when it comes no
        earlier in the level order than the logger's own level. */
    predicate IsEnabled(l: Level)
      reads this
      ensures IsEnabled(l) <==> Position(level) <= Position(l)
    {
      EnabledFollowsOrder(level, l);
      IsEnabledAt(level, l)
    }

    /** What `log` did with `e`: it recorded the event after the earlier ones
        and delivered it on `onlog`, and left the logger's appenders, level
        and date format alone. */
    twostate predicate Logged(e: LoggingEvent, new calls: seq<Call>)
      reads this, onlog, Footprint(onlog.listeners)
    {
      && loggingEvents == old(loggingEvents) + [e]
      && Delivered(onlog, Some(e), calls)
      && appenders == old(appenders) && level == old(level) && dateformat == old(dateformat)
    }

    /** `log(logLevel, message, exception)`: records one event stamped `now`
        and dispatches it once on `onlog`. */
    method Log(l: Level, message: string, exception: Throwable, now: Instant) returns (calls: seq<Call>)
      modifies this, Footprint(onlog.listeners)
      ensures Logged(LoggingEvent(category, l, message, exception, now), calls)
    {
      var e := LoggingEvent(category, l, message, exception, now);
      loggingEvents := loggingEvents + [e];
      FootprintExcludesLogger(onlog.listeners, this);
      forall i | 0 <= i < |onlog.listeners|
        ensures BodyView(onlog.listeners[i].body) == old(BodyView(onlog.listeners[i].body))
      {
        FootprintCovers(onlog.listeners, i);
      }
      calls := onlog.Dispatch(Some(e));
    }

    /** The shared body of `trace` … `fatal`: log at `l` when enabled, and
        otherwise touch nothing. */
    method LogIfEnabled(l: Level, message: string, exception: Throwable, now: Instant) returns (calls: seq<Call>)
      modifies this, Footprint(onlog.listeners)
      ensures old(IsEnabled(l)) ==> Logged(LoggingEvent(category, l, message, exception, now), calls)
      ensures !old(IsEnabled(l)) ==> calls == [] && unchanged(this) && Undisturbed(onlog)
      ensures onlog.listeners == old(onlog.listeners)
      ensures appenders == old(appenders) && level == old(level) && dateformat == old(dateformat)
    {
      if IsEnabled(l) {
        calls := Log(l, message, exception, now);
      } else {
        calls := [];
      }
    }

    /** `trace(message)`: always with a `null` throwable. */
    method Trace(message: string, now: Instant) returns (calls: seq<Call>)
      modifies this, Footprint(onlog.listeners)
      ensures old(IsEnabled(Level.Trace)) ==> Logged(LoggingEvent(category, Level.Trace, message, NullThrowable, now), calls)
      ensures !old(IsEnabled(Level.Trace)) ==> calls == [] && unchanged(this) && Undisturbed(onlog)
      ensures onlog.listeners == old(onlog.listeners)
      ensures appenders == old(appenders) && level == old(level) && dateformat == old(dateformat)
    {
      calls := LogIfEnabled(Level.Trace, message, NullThrowable, now);
    }

    /** `debug(message, throwable)`; the two-argument definition is the one in
        force, and a missing throwable is `undefined`. */
    method Debug(message: string, throwable: Throwable, now: Instant) returns (calls: seq<Call>)
      modifies this, Footprint(onlog.listeners)
      ensures old(IsEnabled(Level.Debug)) ==> Logged(LoggingEvent(category, Level.Debug, message, throwable, now), calls)
      ensures !old(IsEnabled(Level.Debug)) ==> calls == [] && unchanged(this) && Undisturbed(onlog)
      ensures onlog.listeners == old(onlog.listeners)
      ensures appenders == old(appenders) && level == old(level) && dateformat == old(dateformat)
    {
      calls := LogIfEnabled(Level.Debug, message, throwable, now);
    }

    /** `info(message, throwable)`. */
    method Info(message: string, throwable: Throwable, now: Instant) returns (calls: seq<Call>)
      modifies this, Footprint(onlog.listeners)
      ensures old(IsEnabled(Level.Info)) ==> Logged(LoggingEvent(category, Level.Info, message, throwable, now), calls)
      ensures !old(IsEnabled(Level.Info)) ==> calls == [] && unchanged(this) && Undisturbed(onlog)
      ensures onlog.listeners == old(onlog.listeners)
      ensures appenders == old(appenders) && level == old(level) && dateformat == old(dateformat)
    {
      calls := LogIfEnabled(Level.Info, message, throwable, now);
    }

    /** `warn(message, throwable)`. */
    method Warn(message: string, throwable: Throwable, now: Instant) returns (calls: seq<Call>)
      modifies this, Footprint(onlog.listeners)
      ensures old(IsEnabled(Level.Warn)) ==> Logged(LoggingEvent(category, Level.Warn, message, throwable, now), calls)
      ensures !old(IsEnabled(Level.Warn)) ==> calls == [] && unchanged(this) && Undisturbed(onlog)
      ensures onlog.listeners == old(onlog.listeners)
      ensures appenders == old(appenders) && level == old(level) && dateformat == old(dateformat)
    {
      calls := LogIfEnabled(Level.Warn, message, throwable, now);
    }

    /** `error(message, throwable)`. */
    method Error(message: string, throwable: Throwable, now: Instant) returns (calls: seq<Call>)
      modifies this, Footprint(onlog.listeners)
      ensures old(IsEnabled(Level.Error)) ==> Logged(LoggingEvent(category, Level.Error, message, throwable, now), calls)
      ensures !old(IsEnabled(Level.Error)) ==> calls == [] && unchanged(this) && Undisturbed(onlog)
      ensures onlog.listeners == old(onlog.listeners)
      ensures appenders == old(appenders) && level == old(level) && dateformat == old(dateformat)
    {
      calls := LogIfEnabled(Level.Error, message, throwable, now);
    }

    /** `fatal(message, throwable)`. */
    method Fatal(message: string, throwable: Throwable, now: Instant) returns (calls: seq<Call>)
      modifies this, Footprint(onlog.listeners)
      ensures old(IsEnabled(Level.Fatal)) ==> Logged(LoggingEvent(category, Level.Fatal, message, throwable, now), calls)
      ensures !old(IsEnabled(Level.Fatal)) ==> calls == [] && unchanged(this) && Undisturbed(onlog)
      ensures onlog.listeners == old(onlog.listeners)
      ensures appenders == old(appenders) && level == old(level) && dateformat == old(dateformat)
    {
      calls := LogIfEnabled(Level.Fatal, message, throwable, now);
    }

    /** `clear()`: forgets the logged events and dispatches `onclear` with no
        argument; it returns normally whatever the listeners do. */
    method Clear() returns (calls: seq<Call>)
      modifies this, Footprint(onclear.listeners)
      ensures loggingEvents == []
      ensures Delivered(onclear, None, calls)
      ensures appenders == old(appenders) && level == old(level) && dateformat == old(dateformat)
    {
      loggingEvents := [];
      FootprintExcludesLogger(onclear.listeners, this);
      forall i | 0 <= i < |onclear.listeners|
        ensures BodyView(onclear.listeners[i].body) == old(BodyView(onclear.listeners[i].body))
      {
        FootprintCovers(onclear.listeners, i);
      }
      calls := onclear.Dispatch(None);
    }

    /** `setDateFormat(format)`. */
    method SetDateFormat(format: string)
      modifies this
      ensures dateformat == format
      ensures loggingEvents == old(loggingEvents) && level == old(level) && appenders == old(appenders)
    {
      dateformat := format;
    }

    /** `getFormattedTimestamp(date)`: the date through the logger's format;
        with the default format that is the ISO-like text and the offset. */
    method GetFormattedTimestamp(d: DateFields) returns (r: string)
      ensures r == FormatDate(d, dateformat)
      ensures dateformat == DEFAULT_DATE_FORMAT ==> r == IsoText(d) + OffsetText(d.timezoneOffset)
      ensures dateformat == JSON_DATE_FORMAT ==> r == IsoText(d) + "Z"
    {
      r := FormatDate(d, dateformat);
      if dateformat == DEFAULT_DATE_FORMAT {
        FormatDateDefault(d);
      } else if dateformat == JSON_DATE_FORMAT {
        FormatDateJson(d);
      }
    }
  }

  /** Names every plain JavaScript object inherits from `Object.prototype`. */
  const InheritedNames: set<string> := {
    "constructor", "hasOwnProperty", "isPrototypeOf", "propertyIsEnumerable",
    "toLocaleString", "toString", "valueOf", "__proto__",
    "__defineGetter__", "__defineSetter__", "__lookupGetter__", "__lookupSetter__"}

  /** What `loggers[name]` reads on the plain object holding the loggers. */
  datatype Lookup = OwnLogger(logger: Logger) | InheritedMember(name: string) | Missing

  /** The lookup, own keys first, then the prototype chain. */
  function Resolve(loggers: map<string, Logger>, name: string): (r: Lookup)
    ensures name in loggers ==> r == OwnLogger(loggers[name])
    ensures name !in loggers ==> (r.Missing? <==> name !in InheritedNames)
    ensures r.InheritedMember? ==> r.name == name
  {
    if name in loggers then OwnLogger(loggers[name])
    else if name in InheritedNames then InheritedMember(name)
    else Missing
  }

  /** `getLogger` names a non-string argument `"[default]"`. */
  function CategoryName(arg: JsValue): (r: string)
    ensures arg.Str? ==> r == arg.s
    ensures !arg.Str? ==> r == "[default]"
  {
    if arg.Str? then arg.s else "[default]"
  }

  /** `Log4js.loggers` with `getLogger` and `getDefaultLogger`. */
  class Registry {
    var loggers: map<string, Logger>

    constructor()
      ensures loggers == map[]
    {
      loggers := map[];
    }

    /** `getLogger(categoryName)` as written: any truthy lookup is returned as
        is, so a name inherited from `Object.prototype` gives back that member,
        not a logger, and nothing is created. */
    method GetLoggerAsWritten(arg: JsValue) returns (r: Lookup)
      modifies this
      ensures var name := CategoryName(arg);
        && (Resolve(old(loggers), name).Missing? ==>
              r.OwnLogger? && fresh(r.logger) && r.logger.Valid() && r.logger.category == name
              && loggers == old(loggers)[name := r.logger])
        && (!Resolve(old(loggers), name).Missing? ==> r == Resolve(old(loggers), name) && loggers == old(loggers))
    {
      var name := CategoryName(arg);
      r := Resolve(loggers, name);
      if r.Missing? {
        var l := new Logger(Some(name));
        loggers := loggers[name := l];
        r := OwnLogger(l);
      }
    }

    /** `getLogger(categoryName)` keyed on own names only: the logger of the
        category, made on first use and the same object from then on. */
    method GetLogger(arg: JsValue) returns (l: Logger)
      modifies this
      ensures var name := CategoryName(arg);
        && name in loggers && l == loggers[name]
        && (name in old(loggers) ==> l == old(loggers)[name] && loggers == old(loggers))
        && (name !in old(loggers) ==>
              fresh(l) && l.Valid() && l.category == name
              && l.level == Level.Fatal && loggers == old(loggers)[name := l]
              && fresh(l.onlog) && fresh(l.onclear)
              && l.loggingEvents == [] && l.dateformat == DEFAULT_DATE_FORMAT
              && |l.appenders| == 1 && l.appenders[0].Plain?
              && l.onlog.listeners == [] && l.onclear.listeners == [])
    {
      var name := CategoryName(arg);
      if name in loggers {
        l := loggers[name];
      } else {
        l := new Logger(Some(name));
        loggers := loggers[name := l];
      }
    }

    /** `getDefaultLogger()`. */
    method GetDefaultLogger() returns (l: Logger)
      modifies this
      ensures "[default]" in loggers && l == loggers["[default]"]
      ensures "[default]" in old(loggers) ==> l == old(loggers)["[default]"] && loggers == old(loggers)
    {
      l := GetLogger(Str("[default]"));
    }
  }

  /** What loading the script does to the registry: `getLogger("Log4js")`
      makes the internal logger, a console appender is added to it and its
      level is set to OFF. From then on `getLogger("Log4js")` returns it. */
  method Load(page: Page) returns (registry: Registry, internal: Logger, console: JSConsoleAppender)
    ensures fresh(registry) && fresh(internal) && fresh(console)
    ensures registry.loggers == map["Log4js" := internal]
    ensures internal.Valid() && internal.category == "Log4js" && internal.level == Level.Off
    ensures internal.loggingEvents == [] && internal.dateformat == DEFAULT_DATE_FORMAT
    ensures |internal.appenders| == 2 && internal.appenders[0].Plain? && internal.appenders[1] == Console(console)
    ensures |internal.onlog.listeners| == 1 && internal.onlog.listeners[0].body == AppendOf(Console(console))
    ensures |internal.onclear.listeners| == 1 && internal.onclear.listeners[0].body == ClearOf(Console(console))
    ensures console.logger == internal && console.layout == SimpleLayout && console.lines == []
  {
    registry := new Registry();
    internal := registry.GetLogger(Str("Log4js"));
    console := new JSConsoleAppender(page);
    var r := internal.AddAppender(AnAppender(Console(console)));
    internal.SetLevel(Level.Off);
  }

  /** After loading, the category "Log4js" is not new: `getLogger` returns the
      internal OFF logger, which lets no level but OFF through. */
  method InternalLoggerAfterLoad(page: Page) returns (l: Logger)
    ensures l.category == "Log4js" && l.level == Level.Off
    ensures !l.IsEnabled(Level.Fatal)
  {
    var registry, internal, console := Load(page);
    l := registry.GetLogger(Str("Log4js"));
  }

  /** A name inherited from `Object.prototype` never reaches a logger through
      `getLogger` as written, while the own-key lookup makes one. */
  method InheritedNameIsNotALogger(name: string) returns (asWritten: Lookup, corrected: Logger)
    requires name in InheritedNames
    ensures asWritten == InheritedMember(name)
    ensures corrected.category == name
  {
    var registry := new Registry();
    asWritten := registry.GetLoggerAsWritten(Str(name));
    var other := new Registry();
    corrected := other.GetLogger(Str(name));
  }
  /** Every non-string argument of `getLogger` names the `"[default]"`
      category: it reaches the same logger as the name itself and as
      `getDefaultLogger()`. */
  method NonStringIsDefault(arg: JsValue) returns (a: Logger, b: Logger, c: Logger)
    requires !arg.Str?
    ensures a == b && b == c
    ensures a.category == "[default]"
  {
    var registry := new Registry();
    a := registry.GetLogger(arg);
    b := registry.GetLogger(Str("[default]"));
    c := registry.GetDefaultLogger();
  }

  /** The isolation `dispatch` promises: a listener that throws, registered
      before a console appender's `doAppend`, does not keep the event from the
      console, and `dispatch` itself returns. */
  method ThrowingListenerDoesNotStopOthers(page: Page, e: LoggingEvent) returns (calls: seq<Call>, lines: seq<ConsoleLine>)
    ensures |calls| == 2 && calls[0].outcome == Threw && calls[1].outcome == Returned
    ensures lines == [ConsoleLine(Some(""), Format(SimpleLayout, e, page), Some(""))]
  {
    var ev := new CustomEvent();
    var thrower := new JsFunction(Foreign(true));
    var console := new JSConsoleAppender(page);
    var recorder := new JsFunction(AppendOf(Console(console)));
    ev.AddListener(thrower);
    ev.AddListener(recorder);
    assert ev.listeners == [thrower, recorder];
    assert ev.listeners[1..] == [recorder] && [recorder][1..] == [];
    assert Footprint([recorder]) == {console};
    assert Footprint(ev.listeners) == {console};
    assert Separate(ev.listeners);
    calls := ev.Dispatch(Some(e));
    assert BodyView(ev.listeners[1].body) == Effect(recorder.body, Some(e), ConsoleView(SimpleLayout, page, []));
    lines := console.lines;
  }

  /** A new logger named "app" with one AJAX appender added: its only `onlog`
      listener is the appender's bound `doAppend`. */
  method AjaxLogger(page: Page) returns (logger: Logger, x: AjaxAppender)
    ensures fresh(logger) && fresh(logger.onlog) && fresh(x) && fresh(x.loggingEventBuffer)
    ensures logger.category == "app" && logger.level == Level.Fatal
    ensures |logger.onlog.listeners| == 1 && logger.onlog.listeners[0].body == AppendOf(Ajax(x))
    ensures Footprint(logger.onlog.listeners) == {x, x.loggingEventBuffer}
    ensures Separate(logger.onlog.listeners)
    ensures x.State() == Batching.Initial(None, page)
  {
    logger := new Logger(Some("app"));
    x := new AjaxAppender(None, page);
    var r := logger.AddAppender(AnAppender(Ajax(x)));
    assert logger.onlog.listeners[1..] == [];
  }

  /** A `fatal` call on a FATAL logger whose only `onlog` listener is an AJAX
      appender's bound `doAppend` takes that appender one `doAppend` step. */
  method FatalReachesAjax(logger: Logger, x: AjaxAppender, message: string, t: Throwable, now: Instant)
    requires logger.level == Level.Fatal
    requires |logger.onlog.listeners| == 1 && logger.onlog.listeners[0].body == AppendOf(Ajax(x))
    requires Footprint(logger.onlog.listeners) == {x, x.loggingEventBuffer}
    requires Separate(logger.onlog.listeners)
    modifies logger, x, x.loggingEventBuffer
    ensures x.State() == Batching.Append(old(x.State()), LoggingEvent(logger.category, Level.Fatal, message, t, now))
  {
    var f := logger.onlog.listeners[0];
    ghost var v := BodyView(f.body);
    assert logger.IsEnabled(Level.Fatal);
    var calls := logger.Fatal(message, t, now);
    var e := LoggingEvent(logger.category, Level.Fatal, message, t, now);
    assert logger.onlog.listeners[0] == f;
    assert BodyView(f.body) == Effect(f.body, Some(e), v);
  }

  /** A new logger is at FATAL: after adding an AJAX appender, a `debug`
      call is dropped, and a `fatal` call reaches the appender, which with its
      default threshold of one posts that event at once, alone, as JSON to
      the default URL. */
  method LoggerPostsThroughAjax(page: Page, message: string, t: Throwable, now: Instant)
    returns (debugCalls: seq<Call>, transmissions: seq<Batching.Transmission>)
    ensures debugCalls == []
    ensures var e := LoggingEvent("app", Level.Fatal, message, t, now);
      transmissions == [Batching.Post(Batching.DEFAULT_URL, "text/json", Payload(JsonLayout, [Format(JsonLayout, e, page)]), [e])]
  {
    var logger, x := AjaxLogger(page);
    ghost var f := logger.onlog.listeners[0];
    ghost var before := x.State();
    assert !logger.IsEnabled(Level.Debug);
    debugCalls := logger.Debug(message, t, now);
    assert BodyView(f.body) == AjaxView(before);
    FatalReachesAjax(logger, x, message, t, now);
    Batching.InitialPostsFirstEvent(page, LoggingEvent("app", Level.Fatal, message, t, now));
    transmissions := x.transmissions;
  }
}
