# restic storage-backend registry and watchdog round tripper, in Dafny

This project models two pieces of restic's storage-backend layer and proves
properties of the model.

- **Backend registry and generic factory** (`internal/backend/location/registry.go`,
  module `Location` in `registry.dfy`). A `Registry` maps a location scheme
  (`"s3"`, `"sftp"`, ...) to a factory. `Register` panics on a duplicate.
  `Lookup` returns the factory or nil. A `GenericBackendFactory` is a record
  of four function values: parse a location string into a config, strip
  passwords from a location string, create a backend, open a backend.
  `NewHTTPBackendFactory` and `NewLimitedBackendFactory` build such a record
  from constructors that take only the HTTP transport or only the bandwidth
  limiter.
- **Watchdog round tripper** (`internal/backend/watchdog_roundtriper.go`,
  module `Watchdog` in `watchdog.dfy`). It wraps an HTTP transport. Each
  request gets a timer and a cancellable context. Its request body and its
  response body are wrapped in a `watchdogReadCloser`. That wrapper kicks
  the timer before and after every read and caps each read at `chunkSize`
  bytes. Closing the response body cancels the request's context.

`wrappers.dfy` holds the `Option`, `Result` and `Error` values both modules use.

How the source's entities appear in the model:

- The registry is a class with a `map<string, Option<F>>` field. `None` is
  Go's nil interface. The duplicate check tests the stored value against
  nil, not key presence, so a scheme first registered with a nil factory
  can be registered again (`Location.NilEntryIsReplaceable` shows this).
- The `interface{}` that carries a config is `AnyConfig<C>`. It is either a
  `*C` of the factory's own config type (`ConfigPtr`, possibly nil) or a
  value of another dynamic type. The type assertion and dereference in
  `Create`/`Open` panic on anything but a non-nil `*C`. They become the
  precondition `Downcasts(cfg)`.
- `context.Context`, `http.RoundTripper` and `limiter.Limiter` are opaque
  stand-ins that the factories only pass on. The backend type is a type
  parameter.
- The timer and context that `RoundTrip` creates for a request are a `Watch`
  object. Its ghost `trace` records every kick (`Kicked`) and every
  `cancel` made through a wrapper's close callback (`Cancelled`). The
  watcher goroutine's own `cancel` when the timer fires is not in the
  trace. The trace also records the calls the body wrappers make into the
  streams they wrap (`StreamRead` with the buffer length handed over, and
  `StreamClosed`). The `close` callback of a wrapper is either nil or the
  request's `cancel`, so it is the flag `cancelsOnClose`.
- The wrapped `io.ReadCloser` and the wrapped `http.RoundTripper` are
  classes whose answers are parameters. The k-th read with a buffer of
  length `len` returns `replies(k, len)`, and the k-th close returns
  `closeReplies(k)`. The k-th round trip first runs the script `uploads(k)`
  (a sequence of reads and closes) on the request body's wrapper, if there
  is a body, and then returns `replies(k)`. The transport records the
  requests it was handed.
- The request body's wrapper has no close callback, so it never cancels.
  Whatever the transport does with it, the trace `RoundTrip` leaves holds
  no `Cancelled` event, and every read in it is bracketed by kicks and
  within the chunk size. The wrapped stream's read and close counts grow
  by exactly the reads and closes in that trace. The watcher may still
  cancel the context during the round trip when the timer fires; that
  cancel is not a trace event. On the transport-error path the source
  returns without calling `cancel` itself.

## Model

| member | source | states |
|---|---|---|
| `Location.Registry.constructor` | internal/backend/location/registry.go:15-19 | a new registry has no entries, and `Lookup` is nil for every scheme |
| `Location.Registry.Lookup` | internal/backend/location/registry.go:28-30 | the result is the value stored under the scheme; an unknown scheme gives nil; a non-nil result is exactly what was stored |
| `Location.Registry.Register` | internal/backend/location/registry.go:21-26 | callable only when the scheme holds no non-nil factory (the panic); afterwards `Lookup(scheme)` is exactly the given factory and every other scheme's `Lookup` is unchanged |
| `Location.GenericFactory.ParseConfig` | internal/backend/location/registry.go:46-48 | the parser's pointer and error come back unchanged, and the opaque config always has the factory's own config type |
| `Location.GenericFactory.StripPassword` | internal/backend/location/registry.go:49-54 | the identity when no stripper was supplied, the stripper's result otherwise |
| `Location.GenericFactory.Create` | internal/backend/location/registry.go:55-57 | defined only for a non-nil `*C` (the downcast and dereference); it hands the dereferenced config and all other arguments to `createFn` |
| `Location.GenericFactory.Open` | internal/backend/location/registry.go:58-60 | the same as `Create`, for `openFn` |
| `Location.NewHTTPBackendFactory` | internal/backend/location/registry.go:62-77 | the factory keeps the parser and the stripper; `Create`/`Open` on a config of its own type call the backend's constructor with context, config and transport |
| `Location.NewLimitedBackendFactory` | internal/backend/location/registry.go:79-94 | the factory keeps the parser and the stripper; `Create`/`Open` on a config of its own type call the backend's constructor with context, config and limiter |
| `Location.CreateAfterParse` | internal/backend/location/registry.go:46-60 | a config that the factory's own parser returned as a non-nil pointer always passes the downcast, and `Create`/`Open` reach `createFn`/`openFn` with the parsed value |
| `Location.HTTPFactoryIgnoresLimiter` | internal/backend/location/registry.go:70-75 | for an HTTP factory, two calls that differ only in the limiter build the same result |
| `Location.LimitedFactoryIgnoresTransport` | internal/backend/location/registry.go:87-92 | for a limited factory, two calls that differ only in the transport build the same result |
| `Watchdog.Watch.Kick` | internal/backend/watchdog_roundtriper.go:46-48 | kicking appends one `Kicked` event to the request's trace |
| `Watchdog.Watch.Cancel` | internal/backend/watchdog_roundtriper.go:34 | a call of `cancel` through a close callback appends one `Cancelled` event to the request's trace |
| `Watchdog.Chunk` | internal/backend/watchdog_roundtriper.go:88-90 | the buffer handed to the wrapped stream is no longer than the caller's buffer or `chunkSize`, and equals one of them |
| `Watchdog.WatchdogReadCloser.constructor` | internal/backend/watchdog_roundtriper.go:67-74 | the wrapper keeps the stream, the chunk size, the timer and the close callback it was given |
| `Watchdog.WatchdogReadCloser.Read` | internal/backend/watchdog_roundtriper.go:85-95 | needs `chunkSize >= 0` (a negative one makes the reslice panic); appends kick, one read of `min(len(p), chunkSize)` bytes, kick; returns the wrapped stream's `n, err` unchanged; if the stream keeps to its buffer, `0 <= n <= min(len(p), chunkSize)`; keeps every read in the trace bracketed by kicks and within the chunk size, and adds no cancel |
| `Watchdog.WatchdogReadCloser.Close` | internal/backend/watchdog_roundtriper.go:97-102 | appends `Cancelled` only when a close callback is present, then always the wrapped stream's close; returns that close's error; keeps the guarantees about reads, and adds exactly one cancel with a callback and none without |
| `Watchdog.ReadStep` | internal/backend/watchdog_roundtriper.go:85-95 | the events of a `Read` keep every underlying read bracketed by kicks and within the chunk size, and add exactly two kicks, one read and no cancel or close |
| `Watchdog.CloseStep` | internal/backend/watchdog_roundtriper.go:97-102 | the events of a `Close` keep those guarantees, add no kick, add exactly one cancel when a callback is present and none otherwise, and add one underlying close |
| `Watchdog.BodyEventsKeep` | internal/backend/watchdog_roundtriper.go:85-102 | any sequence of reads and closes through a wrapper keeps every underlying read bracketed by kicks and within the chunk size, and a wrapper without a close callback adds no cancel |
| `Watchdog.BodyEventsCounts` | internal/backend/watchdog_roundtriper.go:85-102 | every read made through a wrapper is one underlying read in the trace, and every close one underlying close |
| `Watchdog.WatchdogRoundtripper.constructor` | internal/backend/watchdog_roundtriper.go:24-30 | the round tripper keeps the wrapped transport and the chunk size |
| `Watchdog.WatchdogRoundtripper.RoundTrip` | internal/backend/watchdog_roundtriper.go:32-65 | the transport gets the request with its header unchanged; the body is wrapped exactly when it is non-nil, by a fresh wrapper with no close callback; whatever the transport did with that body, the trace on return holds no cancel made through a close callback, and only reads bracketed by kicks and within the chunk size; the request stream's read and close counts grow by exactly the reads and closes in that trace; a transport error is returned unchanged; on success the response body is replaced by a fresh wrapper of the same stream, bound to the same timer, whose close callback is `cancel` |

`Watchdog.Count`, `Watchdog.CountAppend` and `Watchdog.CountSingle` are
helpers for counting trace events. `OpEvents`, `BodyEvents`, `ReadOps`,
`CloseOps` and `BodyEventsLast` spell out what a transport's body script
does, and `RunOp` and `RunScript` make the stand-in transport carry it out.
`Watchdog.ReadOnceThenClose` is a client of the model. It round-trips a
request, reads the response once and closes it. Its assertions state that
the request's trace then ends with kick, read, kick, cancel, close. They
also state that the response wrapper's close is the only cancel made
through a close callback.

## Left out

- The watcher goroutine, its `select` on the timer and the context, `timer.Reset`, `timer.Stop` and the timeout duration: they are about concurrency and wall-clock time. Kicking and cancelling through a close callback are trace events. The watcher's own `cancel()` when the timer fires (watchdog_roundtriper.go:39-41) is not a trace event, so no claim is made about when that cancellation fires.
- `context.WithCancel` and `req.Clone`: the forwarded request carries no context in the model. That the transport observes the cancellation is not modelled.
- The bytes the wrapped stream writes into the caller's buffer: the wrapper never looks at them. Only the buffer's length is modelled.
- The wrapped transport's own code: it is a script of body reads and closes and a scripted reply. Reading the body concurrently with the caller, or after the round trip has returned, is not modelled.
- A body that is itself a watchdog wrapper (two watchdog round trippers stacked): the model types bodies as a plain stream going in and a wrapper coming out.
- A transport response with a nil body: `net/http` never returns one, and the model's response always has a body.
- The conversion of a typed-nil backend into a non-nil `restic.Backend` interface when a constructor fails: a constructor's result is a backend or an error.
- The concrete backend constructors, `restic.Backend` and `limiter.Limiter`: they are external collaborators, present only as type parameters and opaque values.
- The process-wide registry that plugins fill at start-up: it is not part of these files.
