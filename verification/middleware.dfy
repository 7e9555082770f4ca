/**
  The per-request handler of the gin tracing middleware (`Middleware` in
  ginhttp/server.go): start a span, tag it with the request, wrap the
  response writer, run the downstream handlers, then tag the outcome and
  finish the span.
*/
module Middleware {
  import opened Wrappers
  import opened Capture
  import opened Options
  import opened Tracing

  /** The component tag used when the configuration names none. */
  const DefaultComponentName: string := "net/http"

  /** The component tag for a configured component name: never empty, and
      the configured name whenever one was given. */
  function ComponentTag(configured: string): (name: string)
    ensures name != ""
    ensures configured != "" ==> name == configured
    ensures configured == "" ==> name == DefaultComponentName
  {
    if configured == "" then DefaultComponentName else configured
  }

  /** The fixed allow-list of statuses that are not reported as errors:
      OK, No Content, Moved Permanently and Found. */
  predicate IsSuccessStatus(code: int)
    ensures IsSuccessStatus(code) <==> code in {200, 204, 301, 302}
    ensures IsSuccessStatus(code) ==> 200 <= code < 400
  {
    code == 200 || code == 204 || code == 302 || code == 301
  }

  /** Go's `uint16(code)`: the one value in [0, 65536) congruent to `code`
      modulo 65536. */
  function ToUint16(code: int): (r: nat)
    ensures r < 65536 && (code - r) % 65536 == 0
  {
    code % 65536
  }

  /** The events recorded before the downstream handlers run. */
  function StartEvents(opts: MWOptions, req: Request): seq<Event>
  {
    [ Started(opts.opNameFunc(req)),
      Tagged("http.method", Text(req.httpMethod)),
      Tagged("http.url", Text(opts.urlTagFunc(req.url))),
      Observed(opts.spanObserver),
      Tagged("component", Text(ComponentTag(opts.componentName))) ]
  }

  /** The events recorded after the downstream handlers returned, given the
      status the writer reports and the captured response body. */
  function FinishEvents(status: int, body: seq<byte>): seq<Event>
  {
    (if IsSuccessStatus(status) then []
     else [Tagged("error", Flag(true)), Tagged("event", Text("error")), Tagged("message", Bytes(body))])
    + [Tagged("http.status_code", Uint16(ToUint16(status))), Finished]
  }

  /** The complete log of one request's span. */
  function Trace(opts: MWOptions, req: Request, status: int, body: seq<byte>): seq<Event>
  {
    StartEvents(opts, req) + FinishEvents(status, body)
  }

  /**
    One request through the middleware.  `sink` is the framework's response
    writer; the downstream handlers set `status` on it and write `chunks`.
    The span ends finished with exactly the log `Trace` describes, for the
    body the wrapper captured; the client received what the sink accepted.
  */
  method Handle(opts: MWOptions, req: Request, sink: ResponseSink, status: int, chunks: seq<seq<byte>>)
    returns (sp: Span, writer: LoggingWriter)
    modifies sink
    ensures fresh(sp) && fresh(writer) && writer.writer == sink
    ensures sp.Valid() && sp.finished
    ensures sp.events == Trace(opts, req, status, Concat(chunks))
    ensures writer.buffer == Concat(chunks)
    ensures sink.written == old(sink.written) + Delivered(old(sink.room), chunks)
    ensures sink.room == old(sink.room) - |Delivered(old(sink.room), chunks)|
    ensures sink.status == status
  {
    var op := opts.opNameFunc(req);
    sp := new Span(op);
    sp.SetTag("http.method", Text(req.httpMethod));
    sp.SetTag("http.url", Text(opts.urlTagFunc(req.url)));
    sp.Observe(opts.spanObserver);
    writer := new LoggingWriter(sink);
    sp.SetTag("component", Text(ComponentTag(opts.componentName)));
    ghost var started := sp.events;
    assert started == StartEvents(opts, req);

    RunHandlers(writer, status, chunks);

    var statusCode := writer.Status();
    assert statusCode == status && writer.buffer == Concat(chunks);
    TagOutcome(sp, statusCode, writer.buffer);
    assert sp.events == started + FinishEvents(status, Concat(chunks));
  }

  /**
    The end of a request: outside the allow-list the span gets the error
    tags with the captured body, then always the 16-bit status code, and
    then it is finished.
  */
  method TagOutcome(sp: Span, statusCode: int, body: seq<byte>)
    requires sp.Valid() && !sp.finished
    modifies sp
    ensures sp.Valid() && sp.finished
    ensures sp.events == old(sp.events) + FinishEvents(statusCode, body)
  {
    ghost var before := sp.events;
    if !IsSuccessStatus(statusCode) {
      sp.SetTag("error", Flag(true));
      sp.SetTag("event", Text("error"));
      sp.SetTag("message", Bytes(body));
      assert sp.events == before + FinishEvents(statusCode, body)[..3];
    } else {
      assert sp.events == before + FinishEvents(statusCode, body)[..0];
    }
    sp.SetTag("http.status_code", Uint16(ToUint16(statusCode)));
    sp.Finish();
  }

  /** Some event of the log sets tag `key`. */
  ghost predicate HasTag(events: seq<Event>, key: string)
  {
    exists i :: 0 <= i < |events| && events[i].Tagged? && events[i].key == key
  }

  /** Every span log is well formed: started once, finished once, last. */
  lemma TraceLifecycle(opts: MWOptions, req: Request, status: int, body: seq<byte>)
    ensures Lifecycle(Trace(opts, req, status, body), true)
  {
  }

  /**
    The error tags are recorded if and only if the status is outside the
    allow-list, and then carry `true`, "error" and the captured body.
  */
  lemma ErrorTagsIffNotSuccess(opts: MWOptions, req: Request, status: int, body: seq<byte>)
    ensures HasTag(Trace(opts, req, status, body), "error") <==> !IsSuccessStatus(status)
    ensures HasTag(Trace(opts, req, status, body), "event") <==> !IsSuccessStatus(status)
    ensures HasTag(Trace(opts, req, status, body), "message") <==> !IsSuccessStatus(status)
    ensures !IsSuccessStatus(status) ==>
      && Tagged("error", Flag(true)) in Trace(opts, req, status, body)
      && Tagged("event", Text("error")) in Trace(opts, req, status, body)
      && Tagged("message", Bytes(body)) in Trace(opts, req, status, body)
  {
    var t := Trace(opts, req, status, body);
    if !IsSuccessStatus(status) {
      assert t[5] == Tagged("error", Flag(true));
      assert t[6] == Tagged("event", Text("error"));
      assert t[7] == Tagged("message", Bytes(body));
    }
  }

  /**
    `http.status_code` is tagged exactly once, just before `Finished`, with
    the status truncated to 16 bits; for any real HTTP status (100 to 999)
    that is the status itself.
  */
  lemma StatusCodeTagged(opts: MWOptions, req: Request, status: int, body: seq<byte>)
    ensures var t := Trace(opts, req, status, body);
      && t[|t| - 2] == Tagged("http.status_code", Uint16(ToUint16(status)))
      && (forall i :: 0 <= i < |t| && i != |t| - 2 ==> !(t[i].Tagged? && t[i].key == "http.status_code"))
    ensures 100 <= status <= 999 ==> ToUint16(status) == status
  {
  }

  /**
    Start-time order: the span is started under the configured operation
    name, then tagged with method and URL, then observed, then tagged with
    its component; the component tag is never empty.
  */
  lemma StartOrder(opts: MWOptions, req: Request, status: int, body: seq<byte>)
    ensures var t := Trace(opts, req, status, body);
      && t[0] == Started(opts.opNameFunc(req))
      && t[1] == Tagged("http.method", Text(req.httpMethod))
      && t[2] == Tagged("http.url", Text(opts.urlTagFunc(req.url)))
      && t[3] == Observed(opts.spanObserver)
      && t[4].Tagged? && t[4].key == "component" && t[4].value.Text? && t[4].value.s != ""
  {
  }

  /** Whenever the resolved component name is empty (no component option,
      or the last one names ""), the component tag is "net/http"; with no
      component option at all that is always the case. */
  lemma DefaultComponentTagged(options: seq<MWOption>, req: Request, status: int, body: seq<byte>)
    ensures Resolve(Defaults(), options).componentName == ""
            ==> Trace(Resolve(Defaults(), options), req, status, body)[4] == Tagged("component", Text("net/http"))
    ensures (forall j :: 0 <= j < |options| ==> !options[j].MWComponentName?)
            ==> Trace(Resolve(Defaults(), options), req, status, body)[4] == Tagged("component", Text("net/http"))
  {
    DefaultsWithoutOverride(options, req.url);
  }

  /** GET /users/42 answered 404 with body "not found". */
  lemma NotFoundExample(opts: MWOptions, body: seq<byte>)
    requires opts.urlTagFunc("/users/42") == "/users/42"
    ensures var t := Trace(opts, Request("GET", "/users/42", "/users/42"), 404, body);
      && Tagged("http.method", Text("GET")) in t
      && Tagged("http.url", Text("/users/42")) in t
      && Tagged("error", Flag(true)) in t
      && Tagged("event", Text("error")) in t
      && Tagged("message", Bytes(body)) in t
      && Tagged("http.status_code", Uint16(404)) in t
  {
    var t := Trace(opts, Request("GET", "/users/42", "/users/42"), 404, body);
    assert t[1] == Tagged("http.method", Text("GET"));
    assert t[2] == Tagged("http.url", Text("/users/42"));
    assert t[8] == Tagged("http.status_code", Uint16(404));
    ErrorTagsIffNotSuccess(opts, Request("GET", "/users/42", "/users/42"), 404, body);
  }

  /** POST /login answered 302 with an empty body: no error tags. */
  lemma RedirectExample(opts: MWOptions)
    ensures var t := Trace(opts, Request("POST", "/login", "/login"), 302, []);
      && !HasTag(t, "error") && !HasTag(t, "event") && !HasTag(t, "message")
      && Tagged("http.status_code", Uint16(302)) in t
  {
    var t := Trace(opts, Request("POST", "/login", "/login"), 302, []);
    ErrorTagsIffNotSuccess(opts, Request("POST", "/login", "/login"), 302, []);
    assert t[5] == Tagged("http.status_code", Uint16(302));
  }
}
