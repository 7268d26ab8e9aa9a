/**
 * The waiting-room event-stream client (yt_dlp_bot/pikl_api/waiting_room_client.py):
 * one connection's line handling with its resume cursor, and the reconnect loop.
 *
 * The network is an input: a connection is the lines the server sent and how the
 * stream ended after them. JSON decoding is a predicate on the payload text, and the
 * event handler is a function from a payload to what the call did (returned, or
 * which exception it raised). The reconnect loop runs over a finite list of
 * connections; running out of them is the only way it ends besides cancellation and
 * an uncaught exception.
 */
module EventStream {
  import opened Prelude
  import opened Text

  /** What awaiting the handler on one payload did. */
  datatype HandlerOutcome = Handled | RaisesJsonDecodeError | RaisesHttpError | RaisesCancelled | RaisesOther

  /** How the stream ended after its last line: end of body, an httpx error, or task cancellation. */
  datatype StreamEnd = EndOfStream | HttpError | Cancelled

  datatype Connection = Connection(lines: seq<string>, end: StreamEnd)

  /** How `connect_and_stream` left: it returned, or raised an httpx error, `CancelledError` or anything else. */
  datatype Outcome = Finished | HttpFailure | CancelledFailure | OtherFailure

  const DataPrefix: string := "data:"
  const IdPrefix: string := "id:"
  const LivePath: string := "/live?new_only=true"
  const DefaultRetryDelay: real := 30.0

  predicate IsDataLine(line: string) {
    StartsWith(line, DataPrefix)
  }

  predicate IsIdLine(line: string) {
    StartsWith(line, IdPrefix)
  }

  /** The stripped text after `data:`. */
  function PayloadOf(line: string): string
    requires IsDataLine(line)
  {
    Strip(line[|DataPrefix|..])
  }

  /** The stripped text after `id:`. */
  function IdOf(line: string): string
    requires IsIdLine(line)
  {
    Strip(line[|IdPrefix|..])
  }

  /**
   * The request headers for a connection made with resume cursor `cursor`: the
   * event-stream `Accept` always, and `Last-Event-ID` exactly when the cursor is a
   * non-empty string, carrying it.
   */
  function RequestHeaders(cursor: Option<string>): (h: map<string, string>)
    ensures "Accept" in h && h["Accept"] == "text/event-stream"
    ensures "Last-Event-ID" in h <==> cursor.Some? && cursor.value != []
    ensures "Last-Event-ID" in h ==> h["Last-Event-ID"] == cursor.value
    ensures h.Keys <= {"Accept", "Last-Event-ID"}
  {
    var accept := map["Accept" := "text/event-stream"];
    if cursor.Some? && cursor.value != [] then accept["Last-Event-ID" := cursor.value] else accept
  }

  /** A handler outcome that the line loop survives: a return, or a decode error it catches. */
  predicate Continues(o: HandlerOutcome) {
    o == Handled || o == RaisesJsonDecodeError
  }

  /** Where one connection's line loop got to: the cursor, the payloads handed over, and what stopped it early. */
  datatype Run = Run(cursor: Option<string>, delivered: seq<string>, stop: Option<Outcome>)

  function Prepend(payloads: seq<string>, r: Run): Run {
    Run(r.cursor, payloads + r.delivered, r.stop)
  }

  /** The outcome a handler exception turns into once it leaves the line loop. */
  function Escape(o: HandlerOutcome): Outcome
    requires !Continues(o)
  {
    match o
    case RaisesHttpError => HttpFailure
    case RaisesCancelled => CancelledFailure
    case RaisesOther => OtherFailure
  }

  /** What one line does: nothing, a new cursor, a payload handed over, or a payload whose handler raised. */
  datatype LineEffect = Ignored | NewCursor(id: string) | Handed(payload: string) | Escaped(payload: string, outcome: Outcome)

  /**
   * One line of `connect_and_stream`: a data line with valid JSON goes to the
   * handler, one without is skipped; otherwise an `id:` line moves the cursor;
   * anything else is ignored. A handler exception other than a decode error escapes.
   */
  function LineEffectOf(line: string, validJson: string -> bool, handler: string -> HandlerOutcome): LineEffect {
    if IsDataLine(line) then
      var payload := PayloadOf(line);
      if !validJson(payload) then Ignored
      else if Continues(handler(payload)) then Handed(payload)
      else Escaped(payload, Escape(handler(payload)))
    else if IsIdLine(line) then NewCursor(IdOf(line))
    else Ignored
  }

  function EffectCursor(cursor: Option<string>, e: LineEffect): Option<string> {
    if e.NewCursor? then Some(e.id) else cursor
  }

  function EffectPayloads(e: LineEffect): seq<string> {
    if e.Handed? || e.Escaped? then [e.payload] else []
  }

  /**
   * The line loop of `connect_and_stream` over `lines`, from cursor `cursor`: each
   * line in turn, until a handler exception escapes.
   */
  function StreamRun(cursor: Option<string>, lines: seq<string>, validJson: string -> bool, handler: string -> HandlerOutcome): Run
    decreases |lines|
  {
    if lines == [] then Run(cursor, [], None)
    else
      match LineEffectOf(lines[0], validJson, handler)
      case Ignored => StreamRun(cursor, lines[1..], validJson, handler)
      case NewCursor(id) => StreamRun(Some(id), lines[1..], validJson, handler)
      case Handed(payload) => Prepend([payload], StreamRun(cursor, lines[1..], validJson, handler))
      case Escaped(payload, outcome) => Run(cursor, [payload], Some(outcome))
  }

  /** How a connection ends when its line loop ran to the end. */
  function EndOutcome(end: StreamEnd): Outcome {
    match end
    case EndOfStream => Finished
    case HttpError => HttpFailure
    case Cancelled => CancelledFailure
  }

  function ConnectionOutcome(r: Run, end: StreamEnd): Outcome {
    if r.stop.Some? then r.stop.value else EndOutcome(end)
  }

  // ---------------------------------------------------------------------------
  // Reference definitions and what the line loop promises
  // ---------------------------------------------------------------------------

  /** The handler lets the stream go on for every payload of `lines` it would be given. */
  predicate HandlerKeepsStreaming(lines: seq<string>, validJson: string -> bool, handler: string -> HandlerOutcome) {
    forall i | 0 <= i < |lines| && IsDataLine(lines[i]) && validJson(PayloadOf(lines[i])) :: Continues(handler(PayloadOf(lines[i])))
  }

  /** The cursor after `lines`: the id of the last `id:` line, or `cursor` if there is none. */
  function CursorAfter(cursor: Option<string>, lines: seq<string>): Option<string>
    decreases |lines|
  {
    if lines == [] then cursor
    else if IsIdLine(lines[|lines| - 1]) && !IsDataLine(lines[|lines| - 1]) then Some(IdOf(lines[|lines| - 1]))
    else CursorAfter(cursor, lines[..|lines| - 1])
  }

  /** The valid-JSON payloads of the data lines of `lines`, in line order. */
  function Payloads(lines: seq<string>, validJson: string -> bool): seq<string>
    decreases |lines|
  {
    if lines == [] then []
    else
      var last := lines[|lines| - 1];
      var earlier := Payloads(lines[..|lines| - 1], validJson);
      if IsDataLine(last) && validJson(PayloadOf(last)) then earlier + [PayloadOf(last)] else earlier
  }

  /** Running the loop over `a + b` is running it over `a`, then over `b` from where `a` left the cursor. */
  lemma {:induction false} StreamRunAppend(cursor: Option<string>, a: seq<string>, b: seq<string>,
                                           validJson: string -> bool, handler: string -> HandlerOutcome)
    requires StreamRun(cursor, a, validJson, handler).stop.None?
    ensures var ra := StreamRun(cursor, a, validJson, handler);
      StreamRun(cursor, a + b, validJson, handler) == Prepend(ra.delivered, StreamRun(ra.cursor, b, validJson, handler))
    decreases |a|
  {
    if a == [] {
      assert a + b == b;
    } else {
      assert (a + b)[0] == a[0] && (a + b)[1..] == a[1..] + b;
      var e := LineEffectOf(a[0], validJson, handler);
      var next := EffectCursor(cursor, e);
      StreamRunAppend(next, a[1..], b, validJson, handler);
      if e.Handed? {
        var rest := StreamRun(next, a[1..], validJson, handler);
        PrependPrepend([e.payload], rest.delivered, StreamRun(rest.cursor, b, validJson, handler));
      }
    }
  }

  lemma PrependPrepend(p: seq<string>, q: seq<string>, r: Run)
    ensures Prepend(p, Prepend(q, r)) == Prepend(p + q, r)
  {
    assert p + (q + r.delivered) == (p + q) + r.delivered;
  }

  /** One step of the line loop, seen from a run that has already handed over `delivered`. */
  lemma ReadStep(run: Run, delivered: seq<string>, cursor: Option<string>, lines: seq<string>,
                 validJson: string -> bool, handler: string -> HandlerOutcome)
    requires lines != []
    requires run == Prepend(delivered, StreamRun(cursor, lines, validJson, handler))
    ensures var e := LineEffectOf(lines[0], validJson, handler);
      && (e.Escaped? ==> run == Run(cursor, delivered + [e.payload], Some(e.outcome)))
      && (!e.Escaped? ==>
            run == Prepend(delivered + EffectPayloads(e), StreamRun(EffectCursor(cursor, e), lines[1..], validJson, handler)))
  {
    var e := LineEffectOf(lines[0], validJson, handler);
    if !e.Escaped? {
      var rest := StreamRun(EffectCursor(cursor, e), lines[1..], validJson, handler);
      assert StreamRun(cursor, lines, validJson, handler) == Prepend(EffectPayloads(e), rest);
      PrependPrepend(delivered, EffectPayloads(e), rest);
    }
  }

  /** A single line run on its own: its cursor and its payloads, when the handler lets it go on. */
  lemma SingleLineRun(cursor: Option<string>, line: string, validJson: string -> bool, handler: string -> HandlerOutcome)
    requires IsDataLine(line) && validJson(PayloadOf(line)) ==> Continues(handler(PayloadOf(line)))
    ensures StreamRun(cursor, [line], validJson, handler) ==
      Run(if IsIdLine(line) && !IsDataLine(line) then Some(IdOf(line)) else cursor,
          if IsDataLine(line) && validJson(PayloadOf(line)) then [PayloadOf(line)] else [],
          None)
  {
    assert [line][1..] == [];
  }

  lemma KeepsStreamingPrefix(lines: seq<string>, validJson: string -> bool, handler: string -> HandlerOutcome)
    requires lines != [] && HandlerKeepsStreaming(lines, validJson, handler)
    ensures HandlerKeepsStreaming(lines[..|lines| - 1], validJson, handler)
  {
    var init := lines[..|lines| - 1];
    forall i | 0 <= i < |init| && IsDataLine(init[i]) && validJson(PayloadOf(init[i]))
      ensures Continues(handler(PayloadOf(init[i])))
    {
      assert init[i] == lines[i];
    }
  }

  /**
   * While the handler lets the stream go on, the line loop hands over exactly the
   * valid-JSON payloads in line order, the last `id:` line wins the cursor, and
   * nothing stops the loop early.
   */
  lemma {:induction false} StreamRunMeaning(cursor: Option<string>, lines: seq<string>,
                                            validJson: string -> bool, handler: string -> HandlerOutcome)
    requires HandlerKeepsStreaming(lines, validJson, handler)
    ensures StreamRun(cursor, lines, validJson, handler) == Run(CursorAfter(cursor, lines), Payloads(lines, validJson), None)
    decreases |lines|
  {
    if lines != [] {
      var init := lines[..|lines| - 1];
      var last := lines[|lines| - 1];
      KeepsStreamingPrefix(lines, validJson, handler);
      StreamRunMeaning(cursor, init, validJson, handler);
      assert lines == init + [last];
      StreamRunAppend(cursor, init, [last], validJson, handler);
      assert lines[|lines| - 1] == last;
      SingleLineRun(CursorAfter(cursor, init), last, validJson, handler);
    }
  }

  /** A data line never moves the cursor, and neither does a line with neither prefix. */
  lemma {:induction false} OnlyIdLinesMoveCursor(cursor: Option<string>, lines: seq<string>)
    requires forall i | 0 <= i < |lines| :: !IsIdLine(lines[i]) || IsDataLine(lines[i])
    ensures CursorAfter(cursor, lines) == cursor
    decreases |lines|
  {
    if lines != [] {
      OnlyIdLinesMoveCursor(cursor, lines[..|lines| - 1]);
    }
  }

  /** The cursor after an `id:` line followed only by lines without that prefix is that line's id. */
  lemma {:induction false} LastIdWins(cursor: Option<string>, lines: seq<string>, k: nat)
    requires k < |lines| && IsIdLine(lines[k])
    requires forall j | k < j < |lines| :: !IsIdLine(lines[j])
    ensures CursorAfter(cursor, lines) == Some(IdOf(lines[k]))
    decreases |lines|
  {
    assert !IsDataLine(lines[k]) by {
      assert lines[k][0] == 'i';
    }
    if k < |lines| - 1 {
      var init := lines[..|lines| - 1];
      assert init[k] == lines[k];
      LastIdWins(cursor, init, k);
    }
  }

  /** A line with neither prefix can be dropped without changing anything the loop does. */
  lemma {:induction false} IgnoredLine(cursor: Option<string>, a: seq<string>, line: string, b: seq<string>,
                                       validJson: string -> bool, handler: string -> HandlerOutcome)
    requires !IsDataLine(line) && !IsIdLine(line)
    requires StreamRun(cursor, a, validJson, handler).stop.None?
    ensures StreamRun(cursor, a + [line] + b, validJson, handler) == StreamRun(cursor, a + b, validJson, handler)
  {
    var ra := StreamRun(cursor, a, validJson, handler);
    assert a + [line] + b == a + ([line] + b);
    StreamRunAppend(cursor, a, [line] + b, validJson, handler);
    StreamRunAppend(cursor, a, b, validJson, handler);
    assert ([line] + b)[0] == line && ([line] + b)[1..] == b;
  }

  // ---------------------------------------------------------------------------
  // The reconnect loop
  // ---------------------------------------------------------------------------

  /** What the client does, in order: connect with headers, hand a payload to the handler, sleep. */
  datatype Step = Connect(headers: map<string, string>) | Deliver(payload: string) | Sleep(seconds: real)

  /** How `listen` ended: the loop broke on cancellation, an exception escaped, or no connection was left. */
  datatype ListenEnd = Stopped | Crashed | OutOfConnections

  datatype Session = Session(trace: seq<Step>, end: ListenEnd, cursor: Option<string>)

  function Delivers(payloads: seq<string>): (steps: seq<Step>)
    ensures |steps| == |payloads|
    ensures forall i | 0 <= i < |payloads| :: steps[i] == Deliver(payloads[i])
  {
    seq(|payloads|, i requires 0 <= i < |payloads| => Deliver(payloads[i]))
  }

  /** One connection's steps: the connect, then each payload handed over. */
  function ConnectionSteps(cursor: Option<string>, delivered: seq<string>): seq<Step> {
    [Connect(RequestHeaders(cursor))] + Delivers(delivered)
  }

  function PrependSteps(steps: seq<Step>, s: Session): Session {
    Session(steps + s.trace, s.end, s.cursor)
  }

  /**
   * `listen` over `connections`: each connection starts from the cursor the previous
   * ones left. A connection that returned or failed with an httpx error is followed
   * by a sleep of `delay` and the next connection; cancellation breaks the loop, and
   * any other exception ends it by escaping.
   */
  function Listening(cursor: Option<string>, connections: seq<Connection>, validJson: string -> bool,
                     handler: string -> HandlerOutcome, delay: real): Session
    decreases |connections|
  {
    if connections == [] then Session([], OutOfConnections, cursor)
    else
      var r := StreamRun(cursor, connections[0].lines, validJson, handler);
      var steps := ConnectionSteps(cursor, r.delivered);
      var outcome := ConnectionOutcome(r, connections[0].end);
      if outcome == CancelledFailure then Session(steps, Stopped, r.cursor)
      else if outcome == OtherFailure then Session(steps, Crashed, r.cursor)
      else PrependSteps(steps + [Sleep(delay)], Listening(r.cursor, connections[1..], validJson, handler, delay))
  }

  /** `listen` after its first connection, in terms of that connection's run. */
  lemma ListeningFirst(cursor: Option<string>, connections: seq<Connection>, validJson: string -> bool,
                       handler: string -> HandlerOutcome, delay: real)
    requires connections != []
    ensures var r := StreamRun(cursor, connections[0].lines, validJson, handler);
      var outcome := ConnectionOutcome(r, connections[0].end);
      var steps := ConnectionSteps(cursor, r.delivered);
      Listening(cursor, connections, validJson, handler, delay) ==
        if outcome == CancelledFailure then Session(steps, Stopped, r.cursor)
        else if outcome == OtherFailure then Session(steps, Crashed, r.cursor)
        else PrependSteps(steps + [Sleep(delay)], Listening(r.cursor, connections[1..], validJson, handler, delay))
  {
  }

  /** One more connection of `listen`, seen from a run that has already produced `trace`. */
  lemma ListenAdvances(total: Session, trace: seq<Step>, cursor: Option<string>, connections: seq<Connection>,
                       validJson: string -> bool, handler: string -> HandlerOutcome, delay: real)
    requires connections != []
    requires total == PrependSteps(trace, Listening(cursor, connections, validJson, handler, delay))
    ensures var r := StreamRun(cursor, connections[0].lines, validJson, handler);
      var outcome := ConnectionOutcome(r, connections[0].end);
      var t := trace + ConnectionSteps(cursor, r.delivered);
      && (outcome == CancelledFailure ==> total == Session(t, Stopped, r.cursor))
      && (outcome == OtherFailure ==> total == Session(t, Crashed, r.cursor))
      && (outcome == Finished || outcome == HttpFailure ==>
            total == PrependSteps(t + [Sleep(delay)], Listening(r.cursor, connections[1..], validJson, handler, delay)))
  {
    ListeningFirst(cursor, connections, validJson, handler, delay);
    var r := StreamRun(cursor, connections[0].lines, validJson, handler);
    var steps := ConnectionSteps(cursor, r.delivered);
    var outcome := ConnectionOutcome(r, connections[0].end);
    if outcome == Finished || outcome == HttpFailure {
      var rest := Listening(r.cursor, connections[1..], validJson, handler, delay);
      PrependStepsTwice(trace, steps + [Sleep(delay)], rest);
      assert trace + (steps + [Sleep(delay)]) == trace + steps + [Sleep(delay)];
    }
  }

  lemma PrependStepsTwice(a: seq<Step>, b: seq<Step>, s: Session)
    ensures PrependSteps(a, PrependSteps(b, s)) == PrependSteps(a + b, s)
  {
    assert a + (b + s.trace) == (a + b) + s.trace;
  }

  /**
   * After a connection that ends by end of stream or an httpx error, while the handler
   * lets it go on, the client sleeps and reconnects sending the cursor that
   * connection's last `id:` line left, having handed over all its valid payloads.
   */
  lemma ReconnectResumes(cursor: Option<string>, first: Connection, later: seq<Connection>,
                         validJson: string -> bool, handler: string -> HandlerOutcome, delay: real)
    requires first.end != Cancelled
    requires HandlerKeepsStreaming(first.lines, validJson, handler)
    ensures var resumed := CursorAfter(cursor, first.lines);
      Listening(cursor, [first] + later, validJson, handler, delay) ==
        PrependSteps([Connect(RequestHeaders(cursor))] + Delivers(Payloads(first.lines, validJson)) + [Sleep(delay)],
                     Listening(resumed, later, validJson, handler, delay))
  {
    StreamRunMeaning(cursor, first.lines, validJson, handler);
    assert ([first] + later)[0] == first && ([first] + later)[1..] == later;
  }

  /** Cancellation while streaming ends `listen` at once: no sleep and no further connection. */
  lemma CancellationStopsListening(cursor: Option<string>, first: Connection, later: seq<Connection>,
                                   validJson: string -> bool, handler: string -> HandlerOutcome, delay: real)
    requires first.end == Cancelled
    requires HandlerKeepsStreaming(first.lines, validJson, handler)
    ensures var s := Listening(cursor, [first] + later, validJson, handler, delay);
      && s.end == Stopped
      && s.trace == [Connect(RequestHeaders(cursor))] + Delivers(Payloads(first.lines, validJson))
      && s.cursor == CursorAfter(cursor, first.lines)
  {
    StreamRunMeaning(cursor, first.lines, validJson, handler);
    assert ([first] + later)[0] == first;
  }

  /** Every connection `listen` makes is preceded by a sleep, except the first. */
  lemma {:induction false} SleepBeforeReconnect(cursor: Option<string>, connections: seq<Connection>,
                                                validJson: string -> bool, handler: string -> HandlerOutcome, delay: real, i: nat)
    requires var t := Listening(cursor, connections, validJson, handler, delay).trace; 0 < i < |t| && t[i].Connect?
    ensures Listening(cursor, connections, validJson, handler, delay).trace[i - 1] == Sleep(delay)
    decreases |connections|
  {
    var s := Listening(cursor, connections, validJson, handler, delay);
    var r := StreamRun(cursor, connections[0].lines, validJson, handler);
    var steps := ConnectionSteps(cursor, r.delivered);
    var outcome := ConnectionOutcome(r, connections[0].end);
    if i < |steps| {
      assert false;
    } else if outcome == Finished || outcome == HttpFailure {
      var rest := Listening(r.cursor, connections[1..], validJson, handler, delay);
      assert s.trace == steps + [Sleep(delay)] + rest.trace;
      if i > |steps| {
        var j := i - |steps| - 1;
        assert s.trace[i] == rest.trace[j];
        if j == 0 {
          assert s.trace[i - 1] == Sleep(delay);
        } else {
          SleepBeforeReconnect(r.cursor, connections[1..], validJson, handler, delay, j);
          assert s.trace[i - 1] == rest.trace[j - 1];
        }
      }
    }
  }

  /** `AsyncSSEClient`: the stream url, the retry delay and the resume cursor. */
  class SseClient {
    const url: string
    const retryDelay: real
    var lastEventId: Option<string>

    /** The client listens on the base url's live feed of new items only, with no cursor yet. */
    constructor (baseUrl: string, retryDelay: real)
      ensures url == baseUrl + LivePath && this.retryDelay == retryDelay && lastEventId == None
    {
      url := baseUrl + LivePath;
      this.retryDelay := retryDelay;
      lastEventId := None;
    }

    /** The body of `connect_and_stream`'s line loop for one line. */
    method HandleLine(line: string, validJson: string -> bool, handler: string -> HandlerOutcome)
      returns (handed: seq<string>, stop: Option<Outcome>)
      modifies this
      ensures var e := LineEffectOf(line, validJson, handler);
        && handed == EffectPayloads(e)
        && stop == (if e.Escaped? then Some(e.outcome) else None)
        && lastEventId == EffectCursor(old(lastEventId), e)
    {
      handed, stop := [], None;
      if StartsWith(line, DataPrefix) {
        var dataStr := Strip(line[|DataPrefix|..]);
        if validJson(dataStr) {
          var o := handler(dataStr);
          handed := [dataStr];
          if !Continues(o) {
            stop := Some(Escape(o));
          }
        }
      } else if StartsWith(line, IdPrefix) {
        lastEventId := Some(Strip(line[|IdPrefix|..]));
      }
    }

    /**
     * `connect_and_stream` over one connection: the headers it sends, the payloads it
     * hands to the handler in order, the cursor it leaves and how it ends.
     */
    method ConnectAndStream(conn: Connection, validJson: string -> bool, handler: string -> HandlerOutcome)
      returns (headers: map<string, string>, delivered: seq<string>, outcome: Outcome)
      modifies this
      ensures var r := StreamRun(old(lastEventId), conn.lines, validJson, handler);
        && headers == RequestHeaders(old(lastEventId))
        && lastEventId == r.cursor
        && delivered == r.delivered
        && outcome == ConnectionOutcome(r, conn.end)
    {
      headers := BuildHeaders();
      var stop;
      delivered, stop := ReadLines(conn.lines, validJson, handler);
      outcome := if stop.Some? then stop.value else EndOutcome(conn.end);
    }

    /** The request headers `connect_and_stream` sends for the current cursor. */
    method BuildHeaders() returns (headers: map<string, string>)
      ensures headers == RequestHeaders(lastEventId)
    {
      headers := map["Accept" := "text/event-stream"];
      if lastEventId.Some? && lastEventId.value != [] {
        headers := headers["Last-Event-ID" := lastEventId.value];
      }
    }

    /** `connect_and_stream`'s loop over the lines of the response, one line at a time. */
    method ReadLines(lines: seq<string>, validJson: string -> bool, handler: string -> HandlerOutcome)
      returns (delivered: seq<string>, stop: Option<Outcome>)
      modifies this
      ensures var r := StreamRun(old(lastEventId), lines, validJson, handler);
        delivered == r.delivered && stop == r.stop && lastEventId == r.cursor
    {
      ghost var run := StreamRun(lastEventId, lines, validJson, handler);
      delivered := [];
      var i := 0;
      while i < |lines|
        invariant 0 <= i <= |lines|
        invariant run == Prepend(delivered, StreamRun(lastEventId, lines[i..], validJson, handler))
      {
        assert lines[i..][0] == lines[i] && lines[i..][1..] == lines[i + 1..];
        ReadStep(run, delivered, lastEventId, lines[i..], validJson, handler);
        var handed;
        handed, stop := HandleLine(lines[i], validJson, handler);
        if stop.Some? {
          return delivered + handed, stop;
        }
        delivered := delivered + handed;
        i := i + 1;
      }
      assert lines[i..] == [];
      assert delivered + [] == delivered;
      stop := None;
    }

    /** One pass of `listen`'s loop body up to the exception handlers: the connection and what it did. */
    method Attempt(conn: Connection, validJson: string -> bool, handler: string -> HandlerOutcome)
      returns (steps: seq<Step>, outcome: Outcome)
      modifies this
      ensures var r := StreamRun(old(lastEventId), conn.lines, validJson, handler);
        && steps == ConnectionSteps(old(lastEventId), r.delivered)
        && lastEventId == r.cursor
        && outcome == ConnectionOutcome(r, conn.end)
    {
      var headers, delivered;
      headers, delivered, outcome := ConnectAndStream(conn, validJson, handler);
      steps := [Connect(headers)] + Delivers(delivered);
    }

    /**
     * `listen` over the connections it gets, in order: everything it does, how it
     * ends, and the cursor it keeps.
     */
    method Listen(connections: seq<Connection>, validJson: string -> bool, handler: string -> HandlerOutcome)
      returns (trace: seq<Step>, end: ListenEnd)
      modifies this
      ensures var s := Listening(old(lastEventId), connections, validJson, handler, retryDelay);
        trace == s.trace && end == s.end && lastEventId == s.cursor
    {
      trace := [];
      ghost var total := Listening(lastEventId, connections, validJson, handler, retryDelay);
      var i := 0;
      while i < |connections|
        invariant 0 <= i <= |connections|
        invariant total == PrependSteps(trace, Listening(lastEventId, connections[i..], validJson, handler, retryDelay))
      {
        ListenAdvances(total, trace, lastEventId, connections[i..], validJson, handler, retryDelay);
        assert connections[i..][0] == connections[i] && connections[i..][1..] == connections[i + 1..];
        var steps, outcome := Attempt(connections[i], validJson, handler);
        trace := trace + steps;
        if outcome == CancelledFailure {
          return trace, Stopped;
        } else if outcome == OtherFailure {
          return trace, Crashed;
        }
        trace := trace + [Sleep(retryDelay)];
        i := i + 1;
      }
      assert connections[i..] == [];
      assert trace + [] == trace;
      end := OutOfConnections;
    }
  }

  /** `run_api_client`: a fresh client on the base url, with the default retry delay, listening. */
  method RunApiClient(baseUrl: string, connections: seq<Connection>, validJson: string -> bool, handler: string -> HandlerOutcome)
    returns (trace: seq<Step>, end: ListenEnd)
    ensures var s := Listening(None, connections, validJson, handler, DefaultRetryDelay);
      trace == s.trace && end == s.end
    ensures connections != [] ==> trace[0] == Connect(map["Accept" := "text/event-stream"])
  {
    var client := new SseClient(baseUrl, DefaultRetryDelay);
    trace, end := client.Listen(connections, validJson, handler);
  }
}
