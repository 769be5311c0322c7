/** The batching state machine of `Log4js.AjaxAppender`, as pure transitions on
    a value: `doAppend`, `send`, `doClear`, the completion handler
    `onReadyStateChanged` and the timeout closure `send` schedules. The
    appender class follows these transitions step by step. */
module Batching {
  import opened Wrappers
  import opened Events
  import opened Layouts

  /** The `XMLHttpRequest` the appender keeps once it made one: the MIME type
      forced on it when it was made, and whether its `onreadystatechange` still
      calls the appender (the timeout swaps in a no-op). */
  datatype Request = Request(mimeType: string, handlerAttached: bool)

  /** What the appender asks of the network, in order: a POST of a body built
      from a batch of events, or an abort. */
  datatype Transmission =
    | Post(url: string, contentType: string, body: string, batch: seq<LoggingEvent>)
    | Abort

  /** The appender's fields, the requests it made so far and the number of
      timeout callbacks scheduled and not yet run. */
  datatype AjaxState = AjaxState(
    inProgress: bool,
    threshold: int,
    timeout: int,
    url: string,
    layout: Layout,
    page: Page,
    buffer: seq<LoggingEvent>,
    request: Option<Request>,
    transmissions: seq<Transmission>,
    pendingTimers: nat)

  const DEFAULT_THRESHOLD := 1
  const DEFAULT_TIMEOUT := 2000
  const DEFAULT_URL := "logging.log4js"

  /** `loggingUrl || "logging.log4js"`: a missing or empty URL means the default. */
  function LoggingUrl(arg: Option<string>): (r: string)
    ensures r != ""
    ensures arg.Some? && arg.value != "" ==> r == arg.value
    ensures arg.None? || arg.value == "" ==> r == DEFAULT_URL
  {
    if arg.Some? && arg.value != "" then arg.value else DEFAULT_URL
  }

  /** The state the constructor sets up. */
  function Initial(urlArg: Option<string>, page: Page): AjaxState
  {
    AjaxState(false, DEFAULT_THRESHOLD, DEFAULT_TIMEOUT, LoggingUrl(urlArg), JsonLayout, page, [], None, [], 0)
  }

  function Min(a: int, b: int): int
  {
    if a <= b then a else b
  }

  /** How many events one `send` drains from a buffer of length `len`: the loop
      stops at `threshold` pulls, or as soon as its counter reaches the length,
      which shrinks by one with every pull. */
  function DrainCount(len: nat, threshold: int): (r: nat)
    ensures r <= len && 2 * r <= len + 1
  {
    if threshold <= 0 then 0 else Min(threshold, HalfUp(len))
  }

  /** Half of `n`, rounded up. */
  function HalfUp(n: nat): (r: nat)
    ensures n <= 2 * r <= n + 1
  {
    if n <= 1 then n else HalfUp(n - 2) + 1
  }

  /** The drain loop run directly: `i` pulls made, `len - i` events left. */
  function DrainLoop(len: nat, threshold: int, i: nat): nat
    requires i <= len
    decreases len - i
  {
    if i < len - i && i < threshold then DrainLoop(len, threshold, i + 1) else i
  }

  /** Below the closed form, the loop's guard holds exactly when another pull is
      still due. */
  lemma DrainGuard(len: nat, threshold: int, i: nat)
    requires i <= DrainCount(len, threshold)
    ensures (i < len - i && i < threshold) <==> i < DrainCount(len, threshold)
  {
  }

  /** The closed form is what the loop computes. */
  lemma {:induction false} DrainLoopCount(len: nat, threshold: int, i: nat)
    requires i <= DrainCount(len, threshold)
    ensures DrainLoop(len, threshold, i) == DrainCount(len, threshold)
    decreases len - i
  {
    if i < len - i && i < threshold {
      DrainLoopCount(len, threshold, i + 1);
    }
  }

  /** The request `send` uses: the existing one, or a new one whose MIME type is
      forced to the layout's content type; either way with the handler set. */
  function Attach(s: AjaxState): Request
  {
    match s.request
    case Some(r) => r.(handlerAttached := true)
    case None => Request(ContentType(s.layout), true)
  }

  /** A `send` that drains `count` events: marks the appender in progress, posts
      header, formatted events and footer, and schedules one timeout. */
  function SendBatch(s: AjaxState, count: nat): AjaxState
    requires count <= |s.buffer|
  {
    if |s.buffer| == 0 then s
    else
      var batch := s.buffer[..count];
      var body := Payload(s.layout, FormatAll(s.layout, batch, s.page));
      s.(inProgress := true,
         buffer := s.buffer[count..],
         request := Some(Attach(s)),
         transmissions := s.transmissions + [Post(s.url, ContentType(s.layout), body, batch)],
         pendingTimers := s.pendingTimers + 1)
  }

  /** `send()`. */
  function Send(s: AjaxState): AjaxState
  {
    SendBatch(s, DrainCount(|s.buffer|, s.threshold))
  }

  /** Whether `doAppend` enqueues the incoming event. */
  predicate Enqueues(s: AjaxState)
  {
    |s.buffer| <= s.threshold || s.inProgress
  }

  /** The first half of `doAppend`: the event joins the buffer or is dropped. */
  function Enqueue(s: AjaxState, e: LoggingEvent): AjaxState
  {
    if Enqueues(s) then s.(buffer := s.buffer + [e]) else s
  }

  /** `doAppend(loggingEvent)`. */
  function Append(s: AjaxState, e: LoggingEvent): AjaxState
  {
    var s1 := Enqueue(s, e);
    if |s1.buffer| >= s1.threshold && !s1.inProgress then Send(s1) else s1
  }

  /** `doClear()`. */
  function Clear(s: AjaxState): AjaxState
  {
    if |s.buffer| > 0 then Send(s) else s
  }

  /** The timeout closure: detaches the handler, aborts, leaves the in-progress
      state, and sends again when events are waiting. */
  function Timeout(s: AjaxState): AjaxState
    requires s.pendingTimers > 0 && s.request.Some?
  {
    var s1 := Expire(s);
    if |s1.buffer| > 0 then Send(s1) else s1
  }

  /** The first half of the timeout closure, before it sends again. */
  function Expire(s: AjaxState): AjaxState
    requires s.pendingTimers > 0 && s.request.Some?
  {
    s.(request := Some(s.request.value.(handlerAttached := false)),
       transmissions := s.transmissions + [Abort],
       inProgress := false,
       pendingTimers := s.pendingTimers - 1)
  }

  /** The statuses the completion handler counts as success; `None` is an
      undefined status. */
  predicate Success(status: Option<int>)
  {
    status.None? || status.value == 0 || (200 <= status.value && status.value < 300)
  }

  /** `onreadystatechange` of the request: the appender's handler while it is
      attached, a no-op once the timeout replaced it. */
  function ReadyStateChanged(s: AjaxState, readyState: int, status: Option<int>): AjaxState
    requires s.request.Some?
  {
    if !s.request.value.handlerAttached || readyState != 4 then s
    else if Success(status) then s.(inProgress := false)
    else s
  }

  /** Everything that can happen to the appender. */
  datatype Input =
    | AppendEvent(e: LoggingEvent)
    | ClearEvents
    | TimerFires
    | StateChange(readyState: int, status: Option<int>)

  predicate Enabled(s: AjaxState, input: Input)
  {
    match input
    case TimerFires => s.pendingTimers > 0 && s.request.Some?
    case StateChange(_, _) => s.request.Some?
    case _ => true
  }

  function Step(s: AjaxState, input: Input): AjaxState
    requires Enabled(s, input)
  {
    match input
    case AppendEvent(e) => Append(s, e)
    case ClearEvents => Clear(s)
    case TimerFires => Timeout(s)
    case StateChange(rs, st) => ReadyStateChanged(s, rs, st)
  }

  /** A run of inputs, each enabled where it arrives; `None` if one is not. */
  function Run(s: AjaxState, inputs: seq<Input>): Option<AjaxState>
    decreases |inputs|
  {
    if inputs == [] then Some(s)
    else if Enabled(s, inputs[0]) then Run(Step(s, inputs[0]), inputs[1..])
    else None
  }

  /** The events posted so far, in order. */
  function Sent(ts: seq<Transmission>): seq<LoggingEvent>
  {
    if ts == [] then []
    else
      var last := ts[|ts| - 1];
      Sent(ts[..|ts| - 1]) + (if last.Post? then last.batch else [])
  }

  lemma SentSnoc(ts: seq<Transmission>, t: Transmission)
    ensures Sent(ts + [t]) == Sent(ts) + (if t.Post? then t.batch else [])
  {
    assert (ts + [t])[..|ts|] == ts;
  }

  /** The event an input brings in, if the appender keeps it. */
  function Accepted(s: AjaxState, input: Input): seq<LoggingEvent>
  {
    if input.AppendEvent? && Enqueues(s) then [input.e] else []
  }

  /** A send moves events from the head of the buffer to the network and loses
      or duplicates none. */
  lemma SendBatchConserves(s: AjaxState, count: nat)
    requires count <= |s.buffer|
    ensures Sent(SendBatch(s, count).transmissions) + SendBatch(s, count).buffer
         == Sent(s.transmissions) + s.buffer
  {
    if |s.buffer| > 0 {
      SendBatchMoves(s, count);
      SplitRejoins(Sent(s.transmissions), s.buffer, count);
    }
  }

  /** Cutting `b` at `k` and appending both halves after `x` gives `x + b`. */
  lemma SplitRejoins<T>(x: seq<T>, b: seq<T>, k: nat)
    requires k <= |b|
    ensures (x + b[..k]) + b[k..] == x + b
  {
    assert b[..k] + b[k..] == b;
  }

  lemma AppendConserves(s: AjaxState, e: LoggingEvent)
    ensures Sent(Append(s, e).transmissions) + Append(s, e).buffer
         == Sent(s.transmissions) + s.buffer + (if Enqueues(s) then [e] else [])
  {
    var s1 := Enqueue(s, e);
    assert Sent(s1.transmissions) + s1.buffer == Sent(s.transmissions) + s.buffer + (if Enqueues(s) then [e] else []);
    SendBatchConserves(s1, DrainCount(|s1.buffer|, s1.threshold));
  }

  lemma TimeoutConserves(s: AjaxState)
    requires s.pendingTimers > 0 && s.request.Some?
    ensures Sent(Timeout(s).transmissions) + Timeout(s).buffer == Sent(s.transmissions) + s.buffer
  {
    var s1 := Expire(s);
    SentSnoc(s.transmissions, Abort);
    assert Sent(s1.transmissions) + s1.buffer == Sent(s.transmissions) + s.buffer;
    SendBatchConserves(s1, DrainCount(|s1.buffer|, s1.threshold));
  }

  /** Every step keeps, in order, what was posted followed by what is buffered,
      and adds the accepted event at the end. */
  lemma StepConserves(s: AjaxState, input: Input)
    requires Enabled(s, input)
    ensures Sent(Step(s, input).transmissions) + Step(s, input).buffer
         == Sent(s.transmissions) + s.buffer + Accepted(s, input)
  {
    match input
    case AppendEvent(e) =>
      AppendConserves(s, e);
    case ClearEvents =>
      SendBatchConserves(s, DrainCount(|s.buffer|, s.threshold));
    case TimerFires =>
      TimeoutConserves(s);
    case StateChange(_, _) =>
  }

  /** The events a run brings in and the appender keeps. */
  function AcceptedAll(s: AjaxState, inputs: seq<Input>): seq<LoggingEvent>
    decreases |inputs|
  {
    if inputs == [] || !Enabled(s, inputs[0]) then []
    else Accepted(s, inputs[0]) + AcceptedAll(Step(s, inputs[0]), inputs[1..])
  }

  /** Over a whole run, every kept event is posted once or still buffered, in
      the order it arrived. */
  lemma {:induction false} RunConserves(s: AjaxState, inputs: seq<Input>)
    requires Run(s, inputs).Some?
    ensures Sent(Run(s, inputs).value.transmissions) + Run(s, inputs).value.buffer
         == Sent(s.transmissions) + s.buffer + AcceptedAll(s, inputs)
    decreases |inputs|
  {
    if inputs != [] {
      StepConserves(s, inputs[0]);
      RunConserves(Step(s, inputs[0]), inputs[1..]);
    }
  }

  /** From a new appender, the posted events followed by the buffered ones are
      exactly the kept events in arrival order. */
  lemma FromInitialConserves(urlArg: Option<string>, page: Page, inputs: seq<Input>)
    requires Run(Initial(urlArg, page), inputs).Some?
    ensures Sent(Run(Initial(urlArg, page), inputs).value.transmissions)
            + Run(Initial(urlArg, page), inputs).value.buffer
         == AcceptedAll(Initial(urlArg, page), inputs)
  {
    RunConserves(Initial(urlArg, page), inputs);
  }

  /** While a batch is in flight a timeout is pending that will end it, and a
      pending timeout always finds a request to abort. */
  predicate Inv(s: AjaxState)
  {
    (s.inProgress ==> s.pendingTimers > 0) && (s.pendingTimers > 0 ==> s.request.Some?)
  }

  lemma InitialInv(urlArg: Option<string>, page: Page)
    ensures Inv(Initial(urlArg, page))
    ensures !Initial(urlArg, page).inProgress && Initial(urlArg, page).buffer == []
  {
  }

  lemma SendBatchKeepsInv(s: AjaxState, count: nat)
    requires count <= |s.buffer| && Inv(s)
    ensures Inv(SendBatch(s, count))
  {
  }

  /** Every step keeps the invariant, so a timeout can always fire while in
      progress. */
  lemma StepKeepsInv(s: AjaxState, input: Input)
    requires Inv(s) && Enabled(s, input)
    ensures Inv(Step(s, input))
  {
    match input
    case AppendEvent(e) =>
      var s1 := Enqueue(s, e);
      SendBatchKeepsInv(s1, DrainCount(|s1.buffer|, s1.threshold));
    case ClearEvents =>
      SendBatchKeepsInv(s, DrainCount(|s.buffer|, s.threshold));
    case TimerFires =>
      var s1 := Expire(s);
      SendBatchKeepsInv(s1, DrainCount(|s1.buffer|, s1.threshold));
    case StateChange(_, _) =>
  }

  /** Under the invariant, a timeout is enabled whenever a batch is in flight. */
  lemma {:induction false} RunKeepsInv(s: AjaxState, inputs: seq<Input>)
    requires Inv(s) && Run(s, inputs).Some?
    ensures Inv(Run(s, inputs).value)
    ensures Run(s, inputs).value.inProgress ==> Enabled(Run(s, inputs).value, TimerFires)
    decreases |inputs|
  {
    if inputs != [] {
      StepKeepsInv(s, inputs[0]);
      RunKeepsInv(Step(s, inputs[0]), inputs[1..]);
    }
  }

  /** `doAppend` keeps the event (posting or buffering it, behind everything
      already there) exactly when the buffer is within the threshold or a batch
      is in flight; otherwise the event is lost. */
  lemma AppendKeepsEventIff(s: AjaxState, e: LoggingEvent)
    ensures Sent(Append(s, e).transmissions) + Append(s, e).buffer == Sent(s.transmissions) + s.buffer + [e]
        <==> |s.buffer| <= s.threshold || s.inProgress
    ensures !(|s.buffer| <= s.threshold || s.inProgress) ==>
        Sent(Append(s, e).transmissions) + Append(s, e).buffer == Sent(s.transmissions) + s.buffer
  {
    StepConserves(s, AppendEvent(e));
  }

  /** `doAppend` sends exactly when, after the enqueue decision, the buffer is
      non-empty and has reached the threshold while no batch is in flight. */
  lemma AppendSendsIff(s: AjaxState, e: LoggingEvent)
    ensures var len := if Enqueues(s) then |s.buffer| + 1 else |s.buffer|;
      |Append(s, e).transmissions| == |s.transmissions| + (if len >= s.threshold && !s.inProgress && len > 0 then 1 else 0)
  {
  }

  /** `send` on an empty buffer changes nothing; otherwise it marks the
      appender in progress, posts the oldest `min(threshold, ceil(len / 2))`
      events (at least one, for a positive threshold) formatted and framed by
      the layout, keeps the rest in order, and schedules one timeout. */
  lemma SendEffect(s: AjaxState)
    ensures s.buffer == [] ==> Send(s) == s
    ensures s.buffer != [] ==>
      var c := DrainCount(|s.buffer|, s.threshold);
      && Send(s).inProgress
      && (s.threshold >= 1 ==> 1 <= c)
      && (c <= s.threshold || c == 0) && 2 * c <= |s.buffer| + 1
      && Send(s).buffer == s.buffer[c..]
      && Send(s).transmissions == s.transmissions
           + [Post(s.url, ContentType(s.layout), Payload(s.layout, FormatAll(s.layout, s.buffer[..c], s.page)), s.buffer[..c])]
      && Send(s).pendingTimers == s.pendingTimers + 1
  {
    if s.buffer != [] {
      var c := DrainCount(|s.buffer|, s.threshold);
      assert Send(s) == SendBatch(s, c);
    }
  }

  /** The completion handler changes nothing unless the state is 4 and its
      handler is still attached; then success ends the batch and failure leaves
      the appender in progress. Nothing else changes either way. */
  lemma ReadyStateEffect(s: AjaxState, readyState: int, status: Option<int>)
    requires s.request.Some?
    ensures readyState != 4 || !s.request.value.handlerAttached ==> ReadyStateChanged(s, readyState, status) == s
    ensures readyState == 4 && s.request.value.handlerAttached ==>
      ReadyStateChanged(s, readyState, status) == s.(inProgress := s.inProgress && !Success(status))
  {
  }

  /** The timeout always aborts and leaves the in-progress state, and sends
      again exactly when events are waiting. */
  lemma TimeoutEffect(s: AjaxState)
    requires s.pendingTimers > 0 && s.request.Some?
    ensures Timeout(s).inProgress <==> s.buffer != []
    ensures s.transmissions + [Abort] <= Timeout(s).transmissions
    ensures |Timeout(s).transmissions| == |s.transmissions| + (if s.buffer == [] then 1 else 2)
    ensures Timeout(s).request.value.handlerAttached <==> s.buffer != []
  {
    var s1 := Expire(s);
    if s.buffer != [] {
      assert Timeout(s) == Send(s1);
      assert s.transmissions + [Abort] <= s1.transmissions + [Timeout(s).transmissions[|s1.transmissions|]];
    }
  }

  /** `doClear` changes nothing on an empty buffer; otherwise it sends at once,
      even while a batch is still in flight and whatever the threshold. */
  lemma ClearEffect(s: AjaxState)
    ensures s.buffer == [] ==> Clear(s) == s
    ensures s.buffer != [] ==>
      && Clear(s).inProgress
      && |Clear(s).transmissions| == |s.transmissions| + 1
      && Clear(s).transmissions[|s.transmissions|].Post?
      && Clear(s).pendingTimers == s.pendingTimers + 1
    ensures s.buffer != [] && s.threshold >= 1 ==> |Clear(s).buffer| < |s.buffer|
  {
  }

  /** With a positive threshold every timeout shortens a non-empty buffer, so
      waiting events are all posted after finitely many timeouts. */
  lemma TimeoutShrinksBuffer(s: AjaxState)
    requires s.pendingTimers > 0 && s.request.Some?
    requires s.threshold >= 1 && s.buffer != []
    ensures |Timeout(s).buffer| < |s.buffer|
  {
  }

  /** With the default threshold of one, an idle appender with an empty buffer
      posts each appended event at once, alone. */
  lemma ThresholdOnePostsEachEvent(s: AjaxState, e: LoggingEvent)
    requires s.threshold == 1 && !s.inProgress && s.buffer == []
    ensures Append(s, e).buffer == []
    ensures Append(s, e).inProgress
    ensures Append(s, e).transmissions == s.transmissions
      + [Post(s.url, ContentType(s.layout), Payload(s.layout, [Format(s.layout, e, s.page)]), [e])]
  {
    var s1 := s.(buffer := [e]);
    assert Enqueue(s, e) == s1;
    assert DrainCount(1, 1) == 1;
    assert s1.buffer[..1] == [e];
    assert FormatAll(s.layout, [e], s.page) == [Format(s.layout, e, s.page)];
  }

  /** A new appender with the default URL posts its first event at once, alone,
      as JSON to "logging.log4js". */
  lemma InitialPostsFirstEvent(page: Page, e: LoggingEvent)
    ensures Append(Initial(None, page), e).transmissions
         == [Post(DEFAULT_URL, "text/json", Payload(JsonLayout, [Format(JsonLayout, e, page)]), [e])]
  {
    var s := Initial(None, page);
    assert s.url == DEFAULT_URL && s.layout == JsonLayout && s.page == page;
    assert s.threshold == 1 && !s.inProgress && s.buffer == [] && s.transmissions == [];
    assert ContentType(JsonLayout) == "text/json";
    ThresholdOnePostsEachEvent(s, e);
  }

  /** What a send of `count` events from a non-empty buffer posts and keeps. */
  lemma SendBatchMoves(s: AjaxState, count: nat)
    requires 0 < |s.buffer| && count <= |s.buffer|
    ensures Sent(SendBatch(s, count).transmissions) == Sent(s.transmissions) + s.buffer[..count]
    ensures SendBatch(s, count).buffer == s.buffer[count..]
  {
    var t := Post(s.url, ContentType(s.layout),
                  Payload(s.layout, FormatAll(s.layout, s.buffer[..count], s.page)), s.buffer[..count]);
    SentSnoc(s.transmissions, t);
  }

  /** A send of the whole buffer posts all of it and leaves the buffer empty. */
  lemma SendAllMoves(s: AjaxState)
    requires 0 < |s.buffer|
    ensures Sent(SendBatch(s, |s.buffer|).transmissions) == Sent(s.transmissions) + s.buffer
    ensures SendBatch(s, |s.buffer|).buffer == []
  {
    assert s.buffer[..|s.buffer|] == s.buffer;
    SendBatchMoves(s, |s.buffer|);
  }

  /** With threshold two, two events appended to an idle, empty appender leave
      with only the first posted: the drain loop stops after one pull. */
  lemma HalfDrainAtThresholdTwo(s: AjaxState, e1: LoggingEvent, e2: LoggingEvent)
    requires s.threshold == 2 && !s.inProgress && s.buffer == []
    ensures Append(s, e1).transmissions == s.transmissions
    ensures Sent(Append(Append(s, e1), e2).transmissions) == Sent(s.transmissions) + [e1]
    ensures Append(Append(s, e1), e2).buffer == [e2]
  {
    FirstOfTwoWaits(s, e1);
    var s1 := s.(buffer := [e1]);
    SecondOfTwoSends(s1, e2);
    var s2 := s1.(buffer := s1.buffer + [e2]);
    assert s2.buffer[..1] == [e1] && s2.buffer[1..] == [e2];
    SendBatchMoves(s2, 1);
    var r := SendBatch(s2, 1);
    assert Append(Append(s, e1), e2) == r;
    assert Sent(r.transmissions) == Sent(s.transmissions) + [e1];
  }

  /** At threshold two, the first event into an idle, empty buffer waits. */
  lemma FirstOfTwoWaits(s: AjaxState, e: LoggingEvent)
    requires s.threshold == 2 && !s.inProgress && s.buffer == []
    ensures Append(s, e) == s.(buffer := [e])
    ensures IntendedAppend(s, e) == s.(buffer := [e])
  {
  }

  /** At threshold two, the second event into an idle buffer triggers a send:
      of one event as written, of both as intended. */
  lemma SecondOfTwoSends(s: AjaxState, e: LoggingEvent)
    requires s.threshold == 2 && !s.inProgress && |s.buffer| == 1
    ensures Append(s, e) == SendBatch(s.(buffer := s.buffer + [e]), 1)
    ensures IntendedAppend(s, e) == SendBatch(s.(buffer := s.buffer + [e]), 2)
  {
    assert DrainCount(2, 2) == 1;
    assert IntendedDrainCount(2, 2) == 2;
  }

  /** The drain the loop evidently means: up to `threshold` events, as many as
      the buffer holds. */
  function IntendedDrainCount(len: nat, threshold: int): (r: nat)
    ensures r <= len
  {
    if threshold <= 0 then 0 else Min(threshold, len)
  }

  function IntendedSend(s: AjaxState): AjaxState
  {
    SendBatch(s, IntendedDrainCount(|s.buffer|, s.threshold))
  }

  /** `doAppend` with the intended drain count. */
  function IntendedAppend(s: AjaxState, e: LoggingEvent): AjaxState
  {
    var s1 := Enqueue(s, e);
    if |s1.buffer| >= s1.threshold && !s1.inProgress then IntendedSend(s1) else s1
  }

  /** With the intended count, reaching the threshold posts a batch of exactly
      `threshold` events, the oldest ones, and a whole buffer below it is
      posted in one go. */
  lemma IntendedSendPostsFullBatch(s: AjaxState)
    requires s.threshold >= 1 && s.buffer != []
    ensures var c := Min(s.threshold, |s.buffer|);
      && IntendedSend(s).transmissions[|s.transmissions|].batch == s.buffer[..c]
      && IntendedSend(s).buffer == s.buffer[c..]
      && (|s.buffer| <= s.threshold ==> IntendedSend(s).buffer == [])
  {
  }

  /** The same two appends as in `HalfDrainAtThresholdTwo` post both events
      together under the intended count. */
  lemma IntendedDrainAtThresholdTwo(s: AjaxState, e1: LoggingEvent, e2: LoggingEvent)
    requires s.threshold == 2 && !s.inProgress && s.buffer == []
    ensures Sent(IntendedAppend(IntendedAppend(s, e1), e2).transmissions) == Sent(s.transmissions) + [e1, e2]
    ensures IntendedAppend(IntendedAppend(s, e1), e2).buffer == []
  {
    var s1 := s.(buffer := [e1]);
    var s2 := s1.(buffer := s1.buffer + [e2]);
    assert s2.buffer == [e1, e2];
    FirstOfTwoWaits(s, e1);
    SecondOfTwoSends(s1, e2);
    SendAllMoves(s2);
    var r := SendBatch(s2, 2);
    assert IntendedAppend(IntendedAppend(s, e1), e2) == r;
    assert Sent(r.transmissions) == Sent(s.transmissions) + [e1, e2];
  }
}
