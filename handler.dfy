// The catch-all page route of server.js: how one request's response is put
// together from the template halves and the events of the render stream.
module Handler {
  import opened Js
  import opened Template

  datatype Option<T> = None | Some(value: T)

  /** What the render stream emits: a chunk of markup, its end, or a failure
      carrying the error value. The stream emits nothing after `End` or
      `Error`; a list with neither is a render that has not finished. */
  datatype Event = Data(chunk: string) | End | Error(err: JsValue)

  /** The `console.error` lines written for a failed render: the URL and the
      error value. */
  datatype LogEntry = RenderError(url: string, err: JsValue)

  const Placeholder: string := "On the run, just be patient~ "
  const NotFoundBody: string := "404 | Page Not Found"
  const InternalErrorBody: string := "Internal Error 500"

  /** The headers of every rendered page. */
  function PageHeaders(serverInfo: string): (headers: map<string, string>)
    ensures headers.Keys == {"Content-Type", "Server"}
    ensures headers["Content-Type"] == "text/html" && headers["Server"] == serverInfo
  {
    map["Content-Type" := "text/html", "Server" := serverInfo]
  }

  /** `err && err.code === '404'`, tested by `if`: the right operand is read
      only when `err` is truthy, so a null error never has its `code` read. */
  predicate IsNotFound(err: JsValue)
    ensures IsNotFound(err) <==> err.Obj? && "code" in err.fields && err.fields["code"] == Str("404")
  {
    Truthy(if !Truthy(err) then err else Bool(StrictEqualsString(Get(err, "code"), "404")))
  }

  /** The script that hands the store state to the client. */
  function StateScript(serialized: string): (script: string)
    ensures |script| == 33 + |serialized| + 9
    ensures script[..33] == "<script>window.__INITIAL_STATE__="
    ensures script[33..|script| - 9] == serialized && script[|script| - 9..] == "</script>"
  {
    "<script>window.__INITIAL_STATE__=" + serialized + "</script>"
  }

  /** What the `end` listener writes before the tail: the script when
      `context.initialState` is truthy, nothing otherwise. */
  function InitialStateFragments(initialState: JsValue, serialize: JsValue -> string): (fragments: seq<string>)
    ensures |fragments| == (if Truthy(initialState) then 1 else 0)
    ensures Truthy(initialState) ==> fragments[0] == StateScript(serialize(initialState))
  {
    if Truthy(initialState) then [StateScript(serialize(initialState))] else []
  }

  /** The stream of chunks `chunks`, as events. */
  function DataEvents(chunks: seq<string>): (events: seq<Event>)
    ensures |events| == |chunks|
    ensures forall j :: 0 <= j < |events| ==> events[j] == Data(chunks[j])
  {
    seq(|chunks|, j requires 0 <= j < |chunks| => Data(chunks[j]))
  }

  /** The position of the first `End` or `Error`, or the length when the
      stream has neither: every event before it is a chunk. */
  function FirstTerminal(events: seq<Event>): (k: nat)
    ensures k <= |events|
    ensures forall j :: 0 <= j < k ==> events[j].Data?
    ensures k < |events| ==> !events[k].Data?
  {
    if events == [] || !events[0].Data? then 0 else 1 + FirstTerminal(events[1..])
  }

  /** The chunks carried by the first `n` events, all of them `Data`. */
  function Chunks(events: seq<Event>, n: nat): (chunks: seq<string>)
    requires n <= |events|
    requires forall j :: 0 <= j < n ==> events[j].Data?
    ensures |chunks| == n
    ensures forall j :: 0 <= j < n ==> events[j] == Data(chunks[j])
  {
    seq(n, j requires 0 <= j < n => events[j].chunk)
  }

  /** What the two `data` listeners write for `chunks`: the head once, in
      front of the first chunk, then every chunk in order. */
  function Streamed(head: string, chunks: seq<string>): (fragments: seq<string>)
    ensures |fragments| == if chunks == [] then 0 else 1 + |chunks|
    ensures chunks != [] ==> fragments[0] == head && fragments[1..] == chunks
  {
    if chunks == [] then [] else [head] + chunks
  }

  /** What the `data` listeners have written once `chunks` were emitted:
      nothing without template halves, where the first chunk throws. */
  function Written(index: Option<IndexHTML>, chunks: seq<string>): (fragments: seq<string>)
  {
    if index.Some? then Streamed(index.value.head, chunks) else []
  }

  /** One more chunk streamed: the head comes first only for the first one. */
  lemma {:induction false} WrittenGrows(index: Option<IndexHTML>, events: seq<Event>, i: nat)
    requires i < |events|
    requires forall j :: 0 <= j <= i ==> events[j].Data?
    ensures index.Some? ==>
      Written(index, Chunks(events, i + 1))
      == Written(index, Chunks(events, i)) + (if i == 0 then [index.value.head] else []) + [events[i].chunk]
  {
    assert Chunks(events, i + 1) == Chunks(events, i) + [events[i].chunk];
  }

  /** The body a client receives: the written fragments, joined. */
  function Concat(fragments: seq<string>): (body: string)
    ensures fragments == [] ==> body == []
    ensures |fragments| == 1 ==> body == fragments[0]
  {
    if fragments == [] then [] else fragments[0] + Concat(fragments[1..])
  }

  /** The state of a response once the stream has stopped. */
  datatype Outcome = Outcome(
    status: int,
    headers: map<string, string>,
    fragments: seq<string>,
    finished: bool,
    log: seq<LogEntry>,
    threw: bool)

  /** How a response stands once the stream has emitted `chunks` and then
      `last` (`None` when it has emitted nothing more). Without template
      halves no chunk gets through, and reading the tail at `End` throws. */
  function Settle(
    index: Option<IndexHTML>, url: string, serverInfo: string,
    initialState: JsValue, serialize: JsValue -> string,
    chunks: seq<string>, last: Option<Event>): (o: Outcome)
    requires last.Some? ==> !last.value.Data?
    requires index.None? ==> chunks == []
    ensures o.headers == PageHeaders(serverInfo)
    ensures o.threw <==> index.None? && last == Some(End)
    ensures o.finished <==> last.Some? && !o.threw
  {
    var streamed := Written(index, chunks);
    var headers := PageHeaders(serverInfo);
    match last
    case None => Outcome(200, headers, streamed, false, [], false)
    case Some(End) =>
      var tail := if index.Some? then [index.value.tail] else [];
      Outcome(200, headers, streamed + InitialStateFragments(initialState, serialize) + tail,
        index.Some?, [], index.None?)
    case Some(Error(err)) =>
      if IsNotFound(err) then Outcome(404, headers, streamed + [NotFoundBody], true, [], false)
      else Outcome(500, headers, streamed + [InternalErrorBody], true, [RenderError(url, err)], false)
  }

  /** The response to one request, in closed form: the chunks before the first
      `End` or `Error` are streamed, and that event decides how it ends. With a
      renderer but no template halves, the first chunk throws before anything
      is written. */
  function Expected(
    ready: bool, index: Option<IndexHTML>, url: string, serverInfo: string,
    initialState: JsValue, serialize: JsValue -> string, events: seq<Event>): (o: Outcome)
    ensures !ready ==> o.fragments == [Placeholder] && o.finished && !o.threw
    ensures ready ==> o.headers == PageHeaders(serverInfo)
  {
    if !ready then Outcome(200, map[], [Placeholder], true, [], false)
    else
      var k := FirstTerminal(events);
      if index.None? && k > 0 then
        Outcome(200, PageHeaders(serverInfo), [], false, [], true)
      else
        Settle(index, url, serverInfo, initialState, serialize,
          Chunks(events, k), if k == |events| then None else Some(events[k]))
  }

  lemma {:induction false} ConcatAppend(a: seq<string>, b: seq<string>)
    ensures Concat(a + b) == Concat(a) + Concat(b)
  {
    if a == [] {
      assert a + b == b;
    } else {
      ConcatAppend(a[1..], b);
      assert (a + b)[0] == a[0] && (a + b)[1..] == a[1..] + b;
    }
  }

  /** The first terminal event is the one that only chunks precede. */
  lemma FirstTerminalIs(events: seq<Event>, k: nat)
    requires k < |events| && !events[k].Data?
    requires forall j :: 0 <= j < k ==> events[j].Data?
    ensures FirstTerminal(events) == k
  {
  }

  /** A stream of chunks followed by `End` or `Error`: the chunks are what
      comes before its first terminal event. */
  lemma ChunksThenTerminal(chunks: seq<string>, last: Event)
    requires !last.Data?
    ensures var events := DataEvents(chunks) + [last];
      FirstTerminal(events) == |chunks| && Chunks(events, |chunks|) == chunks
  {
    var events := DataEvents(chunks) + [last];
    assert events[|chunks|] == last;
    assert Chunks(events, |chunks|) == chunks;
  }

  /** No renderer yet: the placeholder is the whole answer, with the default
      status and no header set. */
  lemma NotReadyAnswersPlaceholder(
    index: Option<IndexHTML>, url: string, serverInfo: string,
    initialState: JsValue, serialize: JsValue -> string, events: seq<Event>)
    ensures var o := Expected(false, index, url, serverInfo, initialState, serialize, events);
      o.status == 200 && o.headers == map[] && o.finished && o.log == [] && !o.threw
      && Concat(o.fragments) == Placeholder
  {
    var o := Expected(false, index, url, serverInfo, initialState, serialize, events);
    assert o.fragments[1..] == [];
  }

  /** A stream of chunks that ends: the head once before the first chunk (not
      at all when there is none), the chunks in order, the state script when
      there is a state, and the tail last. */
  lemma RenderedPage(
    index: IndexHTML, url: string, serverInfo: string,
    initialState: JsValue, serialize: JsValue -> string, chunks: seq<string>)
    ensures var o := Expected(true, Some(index), url, serverInfo, initialState, serialize,
                              DataEvents(chunks) + [End]);
      o.status == 200 && o.headers == PageHeaders(serverInfo) && o.finished && o.log == [] && !o.threw
      && o.fragments == Streamed(index.head, chunks)
                        + InitialStateFragments(initialState, serialize) + [index.tail]
  {
    ChunksThenTerminal(chunks, End);
  }

  /** The body of a page whose stream ends: `head + c1 + … + cn`, then the
      state script if any, then `tail`; just the tail for an empty stream
      without state. */
  lemma RenderedPageBody(
    index: IndexHTML, url: string, serverInfo: string,
    initialState: JsValue, serialize: JsValue -> string, chunks: seq<string>)
    ensures var o := Expected(true, Some(index), url, serverInfo, initialState, serialize,
                              DataEvents(chunks) + [End]);
      Concat(o.fragments)
      == (if chunks == [] then [] else index.head + Concat(chunks))
         + (if Truthy(initialState) then StateScript(serialize(initialState)) else [])
         + index.tail
  {
    RenderedPage(index, url, serverInfo, initialState, serialize, chunks);
    var streamed := Streamed(index.head, chunks);
    var script := InitialStateFragments(initialState, serialize);
    ConcatAppend(streamed + script, [index.tail]);
    ConcatAppend(streamed, script);
    if chunks != [] {
      ConcatAppend([index.head], chunks);
    }
    assert Concat([index.tail]) == index.tail;
    if Truthy(initialState) {
      assert Concat(script) == StateScript(serialize(initialState));
    }
  }

  /** A stream of chunks that fails: what was written stays, no tail follows,
      and the error decides between 404 and 500; only the 500 is logged. */
  lemma FailedRender(
    index: IndexHTML, url: string, serverInfo: string,
    initialState: JsValue, serialize: JsValue -> string, chunks: seq<string>, err: JsValue)
    ensures var o := Expected(true, Some(index), url, serverInfo, initialState, serialize,
                              DataEvents(chunks) + [Error(err)]);
      o.headers == PageHeaders(serverInfo) && o.finished && !o.threw
      && (IsNotFound(err) ==>
            o.status == 404 && o.fragments == Streamed(index.head, chunks) + [NotFoundBody]
            && o.log == [])
      && (!IsNotFound(err) ==>
            o.status == 500 && o.fragments == Streamed(index.head, chunks) + [InternalErrorBody]
            && o.log == [RenderError(url, err)])
  {
    ChunksThenTerminal(chunks, Error(err));
  }

  /** A render that never ends or fails leaves the response open. */
  lemma UnfinishedRender(
    index: IndexHTML, url: string, serverInfo: string,
    initialState: JsValue, serialize: JsValue -> string, chunks: seq<string>)
    ensures var o := Expected(true, Some(index), url, serverInfo, initialState, serialize,
                              DataEvents(chunks));
      o.status == 200 && !o.finished && o.log == [] && !o.threw
      && o.fragments == Streamed(index.head, chunks)
  {
    var events := DataEvents(chunks);
    assert FirstTerminal(events) == |chunks|;
    assert Chunks(events, |chunks|) == chunks;
  }

  /** Only the error whose `code` is the string "404" is a not-found: not a
      missing error, not a numeric code, not a code on a primitive. */
  lemma NotFoundOnlyForStringCode(code: JsValue)
    ensures IsNotFound(Obj(map["code" := code])) <==> code == Str("404")
    ensures !IsNotFound(Null) && !IsNotFound(Undefined) && !IsNotFound(Str("404"))
    ensures !IsNotFound(Obj(map["code" := Num(404)]))
  {
  }

  /** A renderer without template halves: a first chunk throws before anything
      is written; an `End` writes the state script and throws on the tail; an
      `Error` gets its usual answer. */
  lemma {:induction false} MissingTemplate(
    url: string, serverInfo: string,
    initialState: JsValue, serialize: JsValue -> string, events: seq<Event>)
    requires events != []
    ensures var o := Expected(true, None, url, serverInfo, initialState, serialize, events);
      o.headers == PageHeaders(serverInfo) && o.status == (
        if events[0].Error? then (if IsNotFound(events[0].err) then 404 else 500) else 200)
      && (events[0].Data? ==> o.threw && !o.finished && o.fragments == [])
      && (events[0].End? ==>
            o.threw && !o.finished && o.fragments == InitialStateFragments(initialState, serialize))
      && (events[0].Error? ==>
            (!o.threw && o.finished
             && o.fragments == [if IsNotFound(events[0].err) then NotFoundBody else InternalErrorBody]))
      && o.log == (if events[0].Error? && !IsNotFound(events[0].err) then [RenderError(url, events[0].err)] else [])
  {
    if !events[0].Data? {
      FirstTerminalIs(events, 0);
      assert Chunks(events, 0) == [];
    }
  }

  /** Whatever follows the first `End` or `Error` changes nothing: a stream
      that goes on after it answers as the stream that stops there, with or
      without a renderer and template halves. */
  lemma {:induction false} LaterEventsIgnored(
    ready: bool, index: Option<IndexHTML>, url: string, serverInfo: string,
    initialState: JsValue, serialize: JsValue -> string, events: seq<Event>, longer: seq<Event>)
    requires FirstTerminal(events) < |events| && events <= longer
    ensures Expected(ready, index, url, serverInfo, initialState, serialize, longer)
         == Expected(ready, index, url, serverInfo, initialState, serialize, events)
  {
    TerminalPrefix(events, longer);
  }

  /** With a renderer, a stream that ends or fails is settled by its first
      `End` or `Error`, unless a chunk before it meets missing halves. */
  lemma {:induction false} ExpectedSettles(
    index: Option<IndexHTML>, url: string, serverInfo: string,
    initialState: JsValue, serialize: JsValue -> string, events: seq<Event>)
    requires FirstTerminal(events) < |events|
    requires index.None? ==> FirstTerminal(events) == 0
    ensures var k := FirstTerminal(events);
      Expected(true, index, url, serverInfo, initialState, serialize, events)
      == Settle(index, url, serverInfo, initialState, serialize, Chunks(events, k), Some(events[k]))
  {
  }

  /** The answer once the first terminal event at `i` reaches its listener,
      field by field, in the terms the listeners write them. */
  lemma {:induction false} ExpectedAt(
    index: Option<IndexHTML>, url: string, serverInfo: string,
    initialState: JsValue, serialize: JsValue -> string, events: seq<Event>, i: nat)
    requires i == FirstTerminal(events) && i < |events|
    requires index.None? ==> i == 0
    ensures var o := Expected(true, index, url, serverInfo, initialState, serialize, events);
      var before := Written(index, Chunks(events, i));
      && o.headers == PageHeaders(serverInfo)
      && (events[i].End? ==>
            o.status == 200 && o.log == [] && o.finished == index.Some? && o.threw == index.None?
            && o.fragments == before + InitialStateFragments(initialState, serialize)
                              + (if index.Some? then [index.value.tail] else []))
      && (events[i].Error? && IsNotFound(events[i].err) ==>
            o.status == 404 && o.log == [] && o.finished && !o.threw
            && o.fragments == before + [NotFoundBody])
      && (events[i].Error? && !IsNotFound(events[i].err) ==>
            o.status == 500 && o.log == [RenderError(url, events[i].err)] && o.finished && !o.threw
            && o.fragments == before + [InternalErrorBody])
  {
    ExpectedSettles(index, url, serverInfo, initialState, serialize, events);
  }

  /** With a renderer, a stream that neither ends nor fails leaves the chunks
      streamed and the response open. */
  lemma {:induction false} ExpectedOpen(
    index: Option<IndexHTML>, url: string, serverInfo: string,
    initialState: JsValue, serialize: JsValue -> string, events: seq<Event>)
    requires FirstTerminal(events) == |events|
    requires index.None? ==> events == []
    ensures Expected(true, index, url, serverInfo, initialState, serialize, events)
      == Settle(index, url, serverInfo, initialState, serialize, Chunks(events, |events|), None)
  {
  }

  /** A prefix that holds a terminal event fixes the first one and the chunks
      before it. */
  lemma {:induction false} TerminalPrefix(events: seq<Event>, longer: seq<Event>)
    requires FirstTerminal(events) < |events| && events <= longer
    ensures var k := FirstTerminal(events);
      FirstTerminal(longer) == k && longer[k] == events[k] && Chunks(longer, k) == Chunks(events, k)
  {
    var k := FirstTerminal(events);
    forall j | 0 <= j <= k
      ensures longer[j] == events[j]
    {
    }
    FirstTerminalIs(longer, k);
    assert forall j :: 0 <= j < k ==> Chunks(longer, k)[j] == Chunks(events, k)[j];
  }

  /** The HTTP response object, as far as the route uses it. */
  class Response {
    var statusCode: int
    var headers: map<string, string>
    var fragments: seq<string>
    var finished: bool

    constructor ()
      ensures statusCode == 200 && headers == map[] && fragments == [] && !finished
    {
      statusCode, headers, fragments, finished := 200, map[], [], false;
    }

    /** `res.setHeader`: only allowed before anything has been sent. */
    method SetHeader(name: string, value: string)
      requires fragments == [] && !finished
      modifies this
      ensures headers == old(headers)[name := value]
      ensures statusCode == old(statusCode) && fragments == old(fragments) && finished == old(finished)
    {
      headers := headers[name := value];
    }

    /** `res.write`. */
    method Write(chunk: string)
      requires !finished
      modifies this
      ensures fragments == old(fragments) + [chunk]
      ensures statusCode == old(statusCode) && headers == old(headers) && !finished
    {
      fragments := fragments + [chunk];
    }

    /** `res.status`: sets the status code. */
    method Status(code: int)
      modifies this
      ensures statusCode == code
      ensures headers == old(headers) && fragments == old(fragments) && finished == old(finished)
    {
      statusCode := code;
    }

    /** `res.end(data)`: writes the last fragment and finishes the response. */
    method End(data: string)
      requires !finished
      modifies this
      ensures fragments == old(fragments) + [data] && finished
      ensures statusCode == old(statusCode) && headers == old(headers)
    {
      fragments := fragments + [data];
      finished := true;
    }
  }

  /** The process-wide state of server.js: whether a renderer has been built,
      and the template halves. */
  class Server {
    var rendererReady: bool
    var indexHTML: Option<IndexHTML>

    /** Production start-up: the bundle and the template are read at once. */
    constructor Production(template: string)
      ensures rendererReady && indexHTML == Some(ParseIndex(template))
    {
      rendererReady := true;
      indexHTML := Some(ParseIndex(template));
    }

    /** Development start-up: both wait for the dev server's callbacks. */
    constructor Development()
      ensures !rendererReady && indexHTML == None
    {
      rendererReady := false;
      indexHTML := None;
    }

    /** The `bundleUpdated` callback: a renderer is now available. */
    method BundleUpdated()
      modifies this
      ensures rendererReady && indexHTML == old(indexHTML)
    {
      rendererReady := true;
    }

    /** The `indexUpdated` callback: the template is split anew. */
    method IndexUpdated(template: string)
      modifies this
      ensures indexHTML == Some(ParseIndex(template)) && rendererReady == old(rendererReady)
    {
      indexHTML := Some(ParseIndex(template));
    }

    /** An emitted chunk, as the two `data` listeners take it: the `once`
        listener writes the head in front of the first chunk, then the `on`
        listener writes the chunk. Reading the head of missing halves throws
        out of the first listener, so nothing is written. */
    method OnData(res: Response, chunk: string, headWritten: bool) returns (threw: bool)
      requires !res.finished
      modifies res
      ensures threw <==> !headWritten && indexHTML.None?
      ensures res.statusCode == old(res.statusCode) && res.headers == old(res.headers) && !res.finished
      ensures res.fragments == old(res.fragments)
        + (if threw then [] else (if headWritten then [] else [indexHTML.value.head]) + [chunk])
    {
      threw := false;
      if !headWritten {
        if indexHTML.None? {
          threw := true;
          return;
        }
        res.Write(indexHTML.value.head);
      }
      res.Write(chunk);
    }

    /** The `end` listener: the state script when there is a state, then the
        tail, which finishes the response. Reading the tail of missing halves
        throws after the script was written. */
    method OnEnd(res: Response, initialState: JsValue, serialize: JsValue -> string) returns (threw: bool)
      requires !res.finished
      modifies res
      ensures threw <==> indexHTML.None?
      ensures res.statusCode == old(res.statusCode) && res.headers == old(res.headers)
      ensures res.finished <==> !threw
      ensures res.fragments == old(res.fragments) + InitialStateFragments(initialState, serialize)
        + (if indexHTML.Some? then [indexHTML.value.tail] else [])
    {
      if Truthy(initialState) {
        res.Write(StateScript(serialize(initialState)));
      }
      if indexHTML.None? {
        return true;
      }
      res.End(indexHTML.value.tail);
      threw := false;
    }

    /** The `error` listener: a not-found error ends the response with 404
        and its body; any other ends it with 500 and its body, and is logged. */
    method OnError(res: Response, url: string, err: JsValue) returns (entries: seq<LogEntry>)
      requires !res.finished
      modifies res
      ensures res.headers == old(res.headers) && res.finished
      ensures IsNotFound(err) ==>
        res.statusCode == 404 && res.fragments == old(res.fragments) + [NotFoundBody] && entries == []
      ensures !IsNotFound(err) ==>
        res.statusCode == 500 && res.fragments == old(res.fragments) + [InternalErrorBody]
        && entries == [RenderError(url, err)]
    {
      if IsNotFound(err) {
        res.Status(404);
        res.End(NotFoundBody);
        return [];
      }
      res.Status(500);
      res.End(InternalErrorBody);
      entries := [RenderError(url, err)];
    }

    /** The `app.get('*')` handler: without a renderer the placeholder;
        otherwise the page headers, then the render stream drives the
        listeners. `threw` is a listener having read a template half that is
        not there, which throws out of the listener. */
    method Handle(
      url: string, serverInfo: string, initialState: JsValue,
      serialize: JsValue -> string, events: seq<Event>)
      returns (res: Response, log: seq<LogEntry>, threw: bool)
      ensures fresh(res)
      ensures var o := Expected(rendererReady, indexHTML, url, serverInfo, initialState, serialize, events);
        res.statusCode == o.status && res.headers == o.headers && res.fragments == o.fragments
        && res.finished == o.finished && log == o.log && threw == o.threw
    {
      res := new Response();
      if !rendererReady {
        res.End(Placeholder);
        return res, [], false;
      }
      res.SetHeader("Content-Type", "text/html");
      res.SetHeader("Server", serverInfo);
      log, threw := Render(res, url, serverInfo, initialState, serialize, events);
    }

    /** The render stream emitting `events` to the listeners on `res` until
        it ends or fails; the stream emits nothing after that. `headWritten`
        is the `once('data')` listener having fired. */
    method Render(
      res: Response, url: string, serverInfo: string, initialState: JsValue,
      serialize: JsValue -> string, events: seq<Event>)
      returns (log: seq<LogEntry>, threw: bool)
      requires res.headers == PageHeaders(serverInfo) && res.statusCode == 200
      requires res.fragments == [] && !res.finished
      modifies res
      ensures var o := Expected(true, indexHTML, url, serverInfo, initialState, serialize, events);
        res.statusCode == o.status && res.headers == o.headers && res.fragments == o.fragments
        && res.finished == o.finished && log == o.log && threw == o.threw
    {
      log, threw := [], false;
      var headWritten := false;
      ghost var k := FirstTerminal(events);
      var i := 0;
      while i < |events|
        invariant i <= k
        invariant res.headers == PageHeaders(serverInfo) && res.statusCode == 200 && !res.finished
        invariant log == [] && !threw && headWritten == (i > 0) && (indexHTML.None? ==> i == 0)
        invariant res.fragments == Written(indexHTML, Chunks(events, i))
      {
        match events[i] {
          case Data(chunk) =>
            WrittenGrows(indexHTML, events, i);
            threw := OnData(res, chunk, headWritten);
            if threw {
              return;
            }
            headWritten := true;
          case End =>
            ExpectedAt(indexHTML, url, serverInfo, initialState, serialize, events, i);
            threw := OnEnd(res, initialState, serialize);
            return;
          case Error(err) =>
            ExpectedAt(indexHTML, url, serverInfo, initialState, serialize, events, i);
            var entries := OnError(res, url, err);
            log := log + entries;
            return;
        }
        i := i + 1;
      }
      ExpectedOpen(indexHTML, url, serverInfo, initialState, serialize, events);
    }
  }
}
