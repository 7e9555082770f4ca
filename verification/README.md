# Tracing middleware for gin, modelled in Dafny

This project models the core of `ginhttp/server.go`, a gin middleware that
traces every HTTP request with an OpenTracing span. The model has three parts:

- **Response capture** (`capture.dfy`, module `Capture`). `LoggingWriter` wraps
  the framework's response writer. Every `Write` appends the bytes to an owned
  buffer, then forwards them to the wrapped writer and returns that writer's
  `(n, err)` unchanged. The wrapped writer is `ResponseSink`. It holds the bytes
  delivered to the client, the status code, and how many more bytes the
  connection accepts (`room`). A write past that budget is a short write with an
  error. `RunHandlers` stands for the downstream chain (`c.Next()`): it sets a
  status and writes a sequence of chunks through the wrapper.
- **Option resolution** (`options.dfy`, module `Options`). `MWOptions` holds the
  four settings and `MWOption` has one variant per option constructor.
  `ResolveOptions` is the loop in `Middleware` that applies the options in order
  over the defaults. `Resolve` is the same fold written as a function.
- **Span tagging and finishing** (`tracing.dfy` and `middleware.dfy`). `Span`
  records what is done to the span as an append-only event log plus a
  `finished` flag. `Handle` is the per-request closure. `Trace` is the exact log
  it must produce, and the lemmas state the required properties of that log.
  These include the status allow-list {200, 204, 301, 302}, the `"net/http"`
  default component, the `uint16` conversion of the status, and that nothing is
  recorded after `Finished`.

`wrappers.dfy` holds a plain `Option` type and the `byte` type.

Modelling choices:
- Function-valued options (operation name, URL tag) are Dafny function values.
- The span observer is an opaque token. Calling it is one `Observed` event, at
  the point where the source calls it.
- The request's URL is given as its textual form (`url.URL.String()`), so the
  default URL-tag function is the identity.
- The `message` tag is a Go string converted from the buffer's bytes, which
  keeps them verbatim. It is modelled as the raw byte sequence.
- The observer is called after `http.method` and `http.url` and before
  `component` (ginhttp/server.go:105-116); the model keeps that order.

## Model

| member | source | states |
|---|---|---|
| `Capture.LoggingWriter.constructor` | ginhttp/server.go:28-33 | NewLoggingWriter returns a writer whose buffer is empty and whose wrapped writer is the one passed in |
| `Capture.LoggingWriter.Write` | ginhttp/server.go:35-39 | the buffer grows by exactly `data`; the wrapped writer receives `data` (as much as it accepts) and its `(n, err)` is returned unchanged; the status is untouched |
| `Capture.LoggingWriter.Status` | ginhttp/server.go:23-26 | the status comes from the wrapped writer through embedding |
| `Capture.RunHandlers` | ginhttp/server.go:120 | after any sequence of writes the buffer is the concatenation of all written chunks in call order; the client received what the per-write reference `Delivered` says, the connection's room shrank by exactly that much, and the status is the one set |
| `Capture.DeliveredIsPrefix` | ginhttp/server.go:35-39 | what the client received is always a prefix of the captured bytes, as long as the connection accepted; if it accepted everything, it equals the captured bytes exactly |
| `Options.DefaultOperationName` | ginhttp/server.go:88-90 | the default name is the literal `"HTTP router "`, then the method, then `" - "`, then the raw request URI, and nothing else |
| `Options.Defaults` | ginhttp/server.go:87-95 | before any option: the default operation name, the no-op observer, the URL's own text as URL tag, an empty component name |
| `Options.Apply` | ginhttp/server.go:51-82 | each option sets the one setting it names to its value and leaves the other three unchanged |
| `Options.ResolveOptions` | ginhttp/server.go:87-98 | the loop over the options yields the in-order fold of the options over the defaults |
| `Options.ResolveUntouched` | ginhttp/server.go:96-98 | a setting that no option touches keeps the value it had before resolution |
| `Options.ResolveLastWins` | ginhttp/server.go:96-98 | the last option that touches a setting decides that setting |
| `Options.DefaultNameWithoutOverride` | ginhttp/server.go:88-90 | without an operation-name option the span is named `"HTTP router " + method + " - " + RequestURI` |
| `Options.OverriddenName` | ginhttp/server.go:53-57 | with operation-name options, the span name is the last such function's output |
| `Options.DefaultsWithoutOverride` | ginhttp/server.go:87-95 | untouched settings keep their defaults: the no-op observer, the URL's own text as URL tag, an empty component name |
| `Middleware.ComponentTag` | ginhttp/server.go:111-116 | the component tag is never empty; it is the configured name whenever one is given, and `"net/http"` when the configured name is empty |
| `Middleware.IsSuccessStatus` | ginhttp/server.go:125 | a status counts as success exactly when it is one of 200, 204, 301, 302; every such status is a 2xx or 3xx code |
| `Middleware.ToUint16` | ginhttp/server.go:131 | `uint16(code)` is the unique value in [0, 65536) congruent to the status modulo 65536 |
| `Middleware.TagOutcome` | ginhttp/server.go:122-133 | after the handlers: the error tags with the captured body exactly when the status is outside the allow-list, then the 16-bit status code, then `Finished` |
| `Tracing.Span.constructor` | ginhttp/server.go:104 | starting a span gives an unfinished span whose log is the one `Started` event with the operation name |
| `Tracing.Span.SetTag` | ginhttp/server.go:126-131 | a tag can only be set on an unfinished span, and it appends exactly one tag event |
| `Tracing.Span.Observe` | ginhttp/server.go:107 | the observer call is recorded as one event on an unfinished span |
| `Tracing.Span.Finish` | ginhttp/server.go:133 | an unfinished span becomes finished with `Finished` as its last event; no method can record anything after it |
| `Middleware.Handle` | ginhttp/server.go:100-134 | one request leaves a finished span whose log is exactly `Trace` for the reported status and the captured body; the client got what the writer accepted |
| `Middleware.TraceLifecycle` | ginhttp/server.go:104-133 | the log starts with one `Started`, and `Finished` occurs exactly once, as the last event, so nothing is tagged after it |
| `Middleware.ErrorTagsIffNotSuccess` | ginhttp/server.go:123-129 | `error`, `event` and `message` are tagged if and only if the status is not in {200, 204, 301, 302}, with `true`, `"error"` and the captured body |
| `Middleware.StatusCodeTagged` | ginhttp/server.go:131-133 | `http.status_code` is tagged exactly once, just before `Finished`, with the status modulo 65536, which is the status itself for 100 to 999 |
| `Middleware.StartOrder` | ginhttp/server.go:103-116 | the span is started under the configured operation name; `http.method` and `http.url` come before the observer call, which comes before a non-empty `component` tag |
| `Middleware.DefaultComponentTagged` | ginhttp/server.go:112-116 | whenever the resolved component name is empty, including an explicit `MWComponentName("")` and the case of no component option, the component tag is `"net/http"` |
| `Middleware.NotFoundExample` | ginhttp/server.go:105-131 | `GET /users/42` answered 404 carries the method, URL, error tags with the body, and status 404 |
| `Middleware.RedirectExample` | ginhttp/server.go:123-131 | `POST /login` answered 302 carries no error, event or message tag, and status 302 |

## Left out

- Trace-context extraction, `StartSpan`, `ext.RPCServerOption` and `opentracing.ContextWithSpan` are calls into the tracer library. Starting the span is one `Started` event. The ignored extraction error does not abort anything, so it has no trace in the model.
- The gin plumbing: `gin.Context`, `c.Writer` replacement and `c.Request.WithContext`. `c.Next()` is abstracted as `RunHandlers`: one status set on the wrapped writer, then a sequence of writes. Status changes between writes and gin's own rules for late `WriteHeader` calls are not modelled.
- What a user-supplied span observer does to the span. It could add tags or even finish the span. Here it is opaque and only its call point is recorded.
- `url.URL.String()` and the structure of `http.Request`. Method, request URI and URL text are given strings.
- Header pass-through, flushing, hijacking and the other embedded `gin.ResponseWriter` methods. Only `Status` is modelled. `WriteString` is promoted from the embedded writer (ginhttp/server.go:23-26) without being overridden, so body bytes written through it reach the client but never enter `Buffer`; the model has only `Write`, so it does not show that gap.
- Nil function-valued options. In the source, `OperationNameFunc(nil)`, `MWSpanObserver(nil)` or `MWURLTagFunc(nil)` make the call at ginhttp/server.go:103, 107 or 106 panic on every request. Dafny function values and observer tokens cannot be nil, so the model cannot express these panics.
- The wrapped writer's real failure modes. Failure is modelled only as a byte budget (`room`), past which a write is short and reports an error. `bytes.Buffer.Write` cannot fail short of running out of memory, which is not modelled.
- Go's `int` being 64 bits wide. Status codes are unbounded integers; only the `uint16` truncation is modelled.
- Concurrency across requests, and the `go1.7` build tag.
- Panics in downstream handlers. The source does not defer `Finish`, so a panic would leave the span unfinished; the model has no panics.
