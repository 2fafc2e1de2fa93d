# async-graphql SSE server: a Dafny model of its core

The server answers `GET /` with either a one-shot GraphQL query result or a
server-sent-event (SSE) stream of subscription results. This project models
the three sequential pieces under its async plumbing and proves their
properties:

- `graphql_query.dfy`, module `GraphQLQuery`: the request descriptor
  `GraphQLQuery`. It holds exactly one of a query body or a subscription body,
  plus an optional operation name, optional JSON variables and optional
  extensions. The module also models the conversion into the engine's
  `Request`.
- `handler.dfy`, module `Handler`: the `GET /` handler. It dispatches on
  `in_query`. A subscription's stream is modelled as a state machine driven by
  interleaved events:
  - `Pull(item)`: the engine stream yields a response;
  - `Exhausted`: the engine stream ends;
  - `ShutdownFired`: shutdown reaches the watcher task.

  There is a pure transition function (`Step`, `Run`) and a class
  `SubscriptionStream` whose methods perform the same transitions on its
  fields. A reference semantics (`ExpectedFrames`, `ExpectedOutcome`) is tied
  to both.
- `schema.dfy`, module `Schema`: the constant query resolvers and the
  `interval` subscription generator, with 32-bit arithmetic.
- `wrappers.dfy`, module `Wrappers`: `Option`.

Opaque collaborators are parameters:
- `fromJson` is `Variables::from_json`;
- `execute` is the engine's single-shot execution;
- `toJson` is the serialisation of one response into an event's data. It
  returns `None` when serialisation fails.

One `JsonValue` datatype stands for both `serde_json::Value` and the engine's
`Value`.

A stream that ends with a serialisation error leaves its watcher task
waiting for shutdown. The `?` at async-graphql-sse-server/src/main.rs:56
leaves the `try_stream!` block before `handle.abort()` at line 58.
`Handler.WatcherCancelledOnlyOnDrain` proves that the model cancels the
watcher only on natural exhaustion.

## Model

| member | source | states |
|---|---|---|
| `GraphQLQuery.InQuery` | async-graphql-sse-server/src/graphql_query.rs:24-26 | true exactly for the `Query` variant, false exactly for `Subscription` |
| `GraphQLQuery.OperationText` | async-graphql-sse-server/src/graphql_query.rs:38-41 | the operation text is the variant's parameter key (`query` / `subscription`), one space, then the raw body |
| `GraphQLQuery.NewRequest` | async-graphql-sse-server/src/graphql_query.rs:39-40 | a new request holds the given text, no operation name, empty variables, empty extensions and every other field at its default |
| `GraphQLQuery.WithOperationName` | async-graphql-sse-server/src/graphql_query.rs:43-45 | the builder sets the operation name to `Some(name)` and changes no other field |
| `GraphQLQuery.WithVariables` | async-graphql-sse-server/src/graphql_query.rs:47-50 | the builder replaces the variables and changes no other field |
| `GraphQLQuery.ToRequest` | async-graphql-sse-server/src/graphql_query.rs:29-57 | text is `OperationText` of the variant; operation name equals the given one and stays at the default `None` when absent; variables are `fromJson(v)` when present, default empty otherwise; extensions are replaced wholesale when present, default empty otherwise; every field the conversion never sets keeps its `Request::new` default |
| `GraphQLQuery.ParseOperationTextRoundTrip` | async-graphql-sse-server/src/graphql_query.rs:38-41 | stripping the keyword prefix off the built text recovers the variant and body exactly |
| `GraphQLQuery.ParseOperationTextSound` | async-graphql-sse-server/src/graphql_query.rs:38-41 | whatever the prefix-stripper accepts is the built text of what it returns |
| `GraphQLQuery.OperationTextInjective` | async-graphql-sse-server/src/graphql_query.rs:38-41 | two (kind, body) pairs give the same text if and only if they are equal |
| `GraphQLQuery.ToRequestTextDeterminesOperation` | async-graphql-sse-server/src/graphql_query.rs:38-41 | two descriptors give the same request text if and only if kind and body agree |
| `GraphQLQuery.InQueryAgreesWithText` | async-graphql-sse-server/src/graphql_query.rs:24-41 | `in_query` holds iff the request text starts with `query `, and fails iff it starts with `subscription ` |
| `GraphQLQuery.ParamKeysFlattened` | async-graphql-sse-server/src/graphql_query.rs:6-20 | the lowercase variant key shares one flat parameter map with `operationName`, `variables`, `extensions` without collision; exactly one of `query`/`subscription` is present, `query` iff a query; each optional key is present iff its field is |
| `GraphQLQuery.KeywordIsParamKey` | async-graphql-sse-server/src/graphql_query.rs:7-11 | the keyword that starts the request text is the descriptor's own parameter key |
| `Handler.Step` | async-graphql-sse-server/src/main.rs:47-61 | one event never removes or rewrites a frame and adds at most one; it adds one exactly for a serialisable pull while running; a terminal outcome never changes; shutdown reaching a live watcher of a running stream aborts it; the watcher is cancelled once exactly on exhaustion while running |
| `Handler.Run` | async-graphql-sse-server/src/main.rs:54-61 | over any event sequence the frame list only grows, by at most one per event, and a terminal state keeps its outcome and frames |
| `Handler.ExpectedFrames` | async-graphql-sse-server/src/main.rs:55-56 | reference output: frame i is a default event whose data is the JSON of the i-th event, a pull; no more frames than events |
| `Handler.ExpectedOutcome` | async-graphql-sse-server/src/main.rs:54-61 | reference outcome: still running exactly when every event so far is a serialisable pull |
| `Handler.GraphQLHandlerQuery` | async-graphql-sse-server/src/main.rs:37-64 | a query is answered with exactly `execute(ToRequest(q))` and no stream; a subscription gets a fresh adapter for the same request, in its initial state (running, no frames, watcher live) |
| `Handler.SubscriptionStream.constructor` | async-graphql-sse-server/src/main.rs:46-61 | abort pair, watcher and engine stream start in the initial state for the given request |
| `Handler.SubscriptionStream.OnPull` | async-graphql-sse-server/src/main.rs:55-56 | while running, a pulled response becomes one default frame with its JSON, or ends the stream as failed with no frame; after termination nothing changes |
| `Handler.SubscriptionStream.OnExhausted` | async-graphql-sse-server/src/main.rs:55-58 | while running, exhaustion cancels the watcher task once and closes the stream as drained |
| `Handler.SubscriptionStream.OnShutdown` | async-graphql-sse-server/src/main.rs:47-49 | a live watcher triggers the abort handle; a running stream becomes aborted; a cancelled watcher does nothing |
| `Handler.Serve` | async-graphql-sse-server/src/main.rs:46-63 | for any interleaving of events, the frames are the serialised pulls before the first terminal event, in pull order, and the outcome is fixed by that first terminal event |
| `Handler.StepConsistent` | async-graphql-sse-server/src/main.rs:54-61 | every event preserves the adapter invariant: frame i is the default frame of the JSON of response i; a failure took one last response and emitted nothing for it; the watcher is cancelled, once, exactly when drained; abort is requested on every aborted stream and on no running one |
| `Handler.RunConsistent` | async-graphql-sse-server/src/main.rs:54-61 | the invariant holds after any sequence of events from a consistent state |
| `Handler.ReachableConsistent` | async-graphql-sse-server/src/main.rs:54-61 | the invariant holds in every reachable state |
| `Handler.RunSnoc` | async-graphql-sse-server/src/main.rs:55-57 | running a sequence plus one event equals one step after running the sequence |
| `Handler.RunAppend` | async-graphql-sse-server/src/main.rs:55-57 | running two concatenated event sequences equals running them one after the other |
| `Handler.RunMatchesReference` | async-graphql-sse-server/src/main.rs:54-61 | from a running state the emitted frames are exactly the reference frames (one per serialisable pull, in order, cut at the first terminal event) and the outcome is the reference outcome |
| `Handler.RunFramesMatchReference` | async-graphql-sse-server/src/main.rs:55-57 | from a running state the emitted frames are the state's frames followed by exactly the reference frames |
| `Handler.RunOutcomeMatchesReference` | async-graphql-sse-server/src/main.rs:54-61 | from a running state the outcome reached is the reference outcome, decided by the first terminal event |
| `Handler.TerminalIsFinal` | async-graphql-sse-server/src/main.rs:54-63 | once drained, failed or aborted, the outcome never changes and the frames, the responses taken and the watcher cancellations never grow |
| `Handler.PullAppendsOneFrame` | async-graphql-sse-server/src/main.rs:55-56 | while running, a serialisable response appends exactly its own frame at the end, no duplicate and no reordering |
| `Handler.NoFramesAfterShutdown` | async-graphql-sse-server/src/main.rs:46-49 | after the shutdown event nothing further is emitted (the `Abortable` wrapper at line 61) |
| `Handler.NoFramesAfterError` | async-graphql-sse-server/src/main.rs:56 | a response that fails to serialise emits no frame, and no later frame follows |
| `Handler.NoFramesAfterExhaustion` | async-graphql-sse-server/src/main.rs:55-58 | nothing is emitted after the engine stream ends |
| `Handler.StopsAt` | async-graphql-sse-server/src/main.rs:54-61 | any terminal event (exhaustion, shutdown, failing response) freezes the frame list |
| `Handler.WatcherCancelledOnlyOnDrain` | async-graphql-sse-server/src/main.rs:55-58 | the watcher task is cancelled iff the engine stream was exhausted, and then exactly once |
| `Handler.FramesAreSerialisedResponses` | async-graphql-sse-server/src/main.rs:56 | every frame is a default (unnamed) event whose data is the JSON of the response pulled at the same position |
| `Schema.FieldName` | async-graphql-sse-server/src/schema.rs:6-17 | the GraphQL names are `firstName`, `secondName`, `age`, one per field and distinct |
| `Schema.LookupField` | async-graphql-sse-server/src/schema.rs:6-17 | exactly the three names look up a field, each the field that bears it |
| `Schema.SelectionResolvesConstant` | async-graphql-sse-server/src/schema.rs:8-17 | selecting `firstName`, `secondName` or `age` by name yields "Matvei", "Golubev" or 28 |
| `Schema.Resolve` | async-graphql-sse-server/src/schema.rs:8-17 | only `age` resolves to an unsigned byte; the other fields resolve to strings |
| `Schema.ResolverConstants` | async-graphql-sse-server/src/schema.rs:8-17 | `firstName` is "Matvei", `secondName` is "Golubev", `age` is 28 |
| `Schema.LookupFieldRoundTrip` | async-graphql-sse-server/src/schema.rs:8-17 | each field's camel-case name looks up that field, and only these names look up a field |
| `Schema.IntervalStep` | async-graphql-sse-server/src/schema.rs:26 | `n` is 1 when omitted, the given value otherwise |
| `Schema.IntervalValues` | async-graphql-sse-server/src/schema.rs:28-34 | the reference sequence of the first k values, of length k |
| `Schema.Interval.constructor` | async-graphql-sse-server/src/schema.rs:26-28 | the generator state starts at 0 with the step `n` defaulting to 1 |
| `Schema.Interval.Next` | async-graphql-sse-server/src/schema.rs:30-34 | one tick adds exactly `n` and yields the new value, which is `ticks * n`; requires that the 32-bit addition does not overflow |
| `Schema.Pull` | async-graphql-sse-server/src/schema.rs:28-35 | as long as `k * n` fits in 32 bits, k pulls yield k values (the stream never ends by itself) and the i-th (1-based) is `i * n` |
| `Schema.MulBetween` | async-graphql-sse-server/src/schema.rs:32 | every intermediate value `j * n` with `j <= k` lies between 0 and `k * n`, so one bound on `k * n` covers all earlier ticks |
| `Schema.DefaultIntervalStartsOneTwoThree` | async-graphql-sse-server/src/schema.rs:26-34 | with `n` omitted the first three values are 1, 2, 3 |
| `Schema.IntervalIncreasing` | async-graphql-sse-server/src/schema.rs:32 | with `n > 0` the values strictly increase |
| `Schema.IntervalDecreasing` | async-graphql-sse-server/src/schema.rs:32 | with `n < 0` the values strictly decrease |
| `Schema.IntervalZero` | async-graphql-sse-server/src/schema.rs:32 | with `n = 0` every value is 0 |

## Left out

- The `shutdown` module (async-graphql-sse-server/src/main.rs:126-174): OS signal handling, `tokio::select!` and `Notify` semantics. Shutdown appears only as the `ShutdownFired` event reaching the watcher. Whether a notification sent before the watcher first polls `notified()` is seen is not modelled.
- Real concurrency and timing: `tokio::spawn`, scheduling, the one-second `sleep` in `interval`. They become arbitrary interleavings of events.
- The execution engine (`execute`, `execute_stream`, the GraphQL macros) and `Variables::from_json`. They are function parameters. The engine stream is the sequence of `Pull`/`Exhausted` events.
- `serde_json` serialisation: an opaque partial function `toJson`. The SSE wire text (`data:` lines) is written by the web framework and is not modelled.
- `JsonValue.Number` holds integers only; JSON floating-point numbers are not modelled. The engine's `Value` also has `Enum` and `Binary` variants, which `JsonValue` does not have.
- Other engine request fields (uploads, context data, parsed document, introspection mode) are summarised by `UntouchedFields` with one default. Their real types are not modelled.
- Query-string deserialisation (serde `flatten`, what happens when both or neither key is given). Only the flat key layout is modelled (`ParamKeys`).
- `graphql_handler`, `graphql_playground`, `main`, `tracing_init`, routing, CORS, the websocket route and server setup: transport plumbing.
- The `tracing::info!` call in `interval`: logging only.
- Client disconnects: no event stands for them. Dropping the SSE body drops the watcher's `JoinHandle` (async-graphql-sse-server/src/main.rs:47, moved into the stream at line 58). Dropping a `JoinHandle` detaches the task rather than cancelling it, so on that path too the watcher stays alive until shutdown.
- `Schema.Interval.Next`: overflow panics or wraps depending on the build profile. The model does not choose either behaviour; it requires the addition to stay in `i32` range.
- `request-sse/src/main.rs`: a client that prints events.
