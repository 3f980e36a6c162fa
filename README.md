# cloudtrace-slog, modelled in Dafny

A model of the Go package `cloudtrace`, which correlates structured logs
with Google Cloud Trace. An HTTP middleware reads a request's trace headers
(the W3C `traceparent` header first, Google's `X-Cloud-Trace-Context` second),
stores the trace in the request's `context.Context`, and a `slog` handler
stamps every record logged with that context with Cloud Logging's
correlation fields before handing it to a JSON handler.

Modules, one per source file, plus the Go library pieces the code relies on:

- `Wrappers` (wrappers.dfy): `Option` and `Result`.
- `GoStrings` (go_strings.dfy): `strings.Split` with a one-character separator, and `strings.Join` as its inverse.
- `GoStrconv` (go_strconv.dfy): `strconv.ParseUint(s, 16, 8)`, and two-digit hex formatting as its inverse.
- `TraceHeaders` (trace.dfy): `extractTraceInfo`. `Extract` is the specification; `ExtractTraceInfo` is the code itself, early returns and the option loop with its `break`, proved equal to `Extract`.
- `TraceCases` (trace_cases.dfy): the table of trace_test.go, one lemma per case, stated on the test's literal headers. Each case is first proved on the header built with `Join` (`…Joined`), and a `…Literal` lemma shows that this header is the literal.
- `TraceContext` (context.dfy): `Trace`, `traceKey`, `traceFromContext` and `withTraceContext`. A Go context is an immutable chain of `WithValue` layers. Keys carry their Go type, so a foreign key with the text `"trace"` never matches `traceKey`. Values are `nil`, a `*Trace`, or a value of another type.
- `Handler` (handler.dfy): `ReplaceAttr`, `slog.Record` as a class with `Clone` and an in-place `Add`, the inner JSON handler as an abstract sink writing to an `Output` stream, and `CloudLoggingHandler` with `Enabled`, `Handle`, `WithAttrs` and `WithGroup`.
- `Middleware` (middleware.dfy): `WithCloudTraceContextMiddleware`. `metadata.OnGCE()` and `metadata.ProjectIDWithContext` are parameters. `ServeHTTP` gives the requests the wrapped handler is called with.

The code is more lenient than the W3C Trace Context Recommendation, and the model follows the code:

- A version-`00` `traceparent` with more than four fields is accepted; the extra fields are ignored (trace.go:16).
- The ids are not checked for length or for hex form.

`WithCloudTraceContextMiddleware` consults the environment once, when it builds the handler (middleware.go:12-19).

## Model

| member | source | states |
|---|---|---|
| `GoStrings.Split` | trace.go:15 | there is one more piece than separators (so `""` splits into `[""]`), and no piece contains the separator |
| `GoStrings.SplitJoin` | trace.go:15 | splitting a join of separator-free pieces gives the pieces back |
| `GoStrings.JoinSplit` | trace.go:15 | joining the pieces of a split with the separator gives the original string |
| `GoStrings.SplitFirstPiece` | trace.go:37-38 | the first piece is the prefix of the string up to (not including) the first separator |
| `GoStrconv.ParseHexByte` | trace.go:19 | a result exists exactly for a non-empty all-hex string whose value is at most 0xFF, and it is that value; empty strings and strings with a non-hex character fail |
| `GoStrconv.ParseFormatHexByte` | trace.go:19 | every byte written as two hex digits parses back to itself |
| `GoStrconv.ShortHexParses` | trace.go:19 | every one- or two-digit hex string parses |
| `GoStrconv.LowBitIsLastDigit` | trace.go:20 | bit 0 of a hex value is bit 0 of its last digit |
| `TraceHeaders.FlagsSampled` | trace.go:19-23 | sampled exactly when the flags parse as a byte whose last hex digit is odd (bit 0 set); false when parsing fails |
| `TraceHeaders.FromTraceparent` | trace.go:13-25 | the `traceparent` branch: a result only for a header that starts with `00-`, and its trace and span ids are whole fields, free of `-` |
| `TraceHeaders.FromCloudTraceContext` | trace.go:30-51 | the X-Cloud-Trace-Context branch: a result only for a header that starts with its non-empty trace id and a `/`; neither id contains `/`, and the span id contains no `;` |
| `TraceHeaders.Extract` | trace.go:9-54 | anything other than the empty triple comes from a `traceparent` starting with `00-` or from an X-Cloud-Trace-Context starting with the returned trace id and a `/` |
| `TraceHeaders.ExtractTraceInfo` | trace.go:9-54 | the step-by-step extractor, with the loop that stops at the first `o=1`, returns exactly `Extract` of its two headers |
| `TraceHeaders.TraceparentAccepted` | trace.go:14-21 | a `traceparent` with at least 4 `-`-fields and first field `00` gives field 1, field 2 and bit 0 of field 3, whatever the other header |
| `TraceHeaders.BadFlagsKeepIds` | trace.go:19-23 | an accepted `traceparent` whose flags do not parse keeps its ids and has sampled false |
| `TraceHeaders.TraceparentRejected` | trace.go:14-16 | an empty `traceparent`, a version other than `00`, or fewer than 4 fields is ignored as a whole: the result is what X-Cloud-Trace-Context alone gives |
| `TraceHeaders.TraceparentWins` | trace.go:16-23 | once `traceparent` is accepted, the X-Cloud-Trace-Context header has no influence |
| `TraceHeaders.CloudAccepted` | trace.go:30-49 | with `traceparent` not accepted, an X-Cloud header with at least 2 `/`-parts and a non-empty part 0 gives part 0, part 1 up to its first `;`, and sampled exactly when some later `;`-token is `o=1` |
| `TraceHeaders.NeitherAccepted` | trace.go:30-53 | when neither header is accepted the result is `("", "", false)` |
| `TraceHeaders.EmptyTraceID` | trace.go:33-34 | an empty extracted trace id comes from an accepted `traceparent` or is the empty triple; the X-Cloud branch never yields one |
| `TraceHeaders.WellFormedTraceparent` | trace.go:15-21 | any `00-TRACE-SPAN-FF[-…]` header built from `-`-free ids and a flags byte is read back as those ids and bit 0 of the byte |
| `TraceHeaders.WellFormedCloudTraceContext` | trace.go:32-49 | any `TRACE/SPAN[;opt…]` header with a non-empty trace id is read back as those ids, sampled exactly when some option is `o=1` |
| `TraceCases.ValidW3CSampledLiteral` | trace_test.go:20 | the joined header is the literal `00-4bf92f…4736-00f067aa0ba902b7-01` |
| `TraceCases.ValidW3CNotSampledLiteral` | trace_test.go:29 | the joined header is the literal ending in `-00` |
| `TraceCases.InvalidW3CFlagsLiteral` | trace_test.go:38 | the joined header is the literal ending in `-xx` |
| `TraceCases.WrongW3CVersionLiteral` | trace_test.go:47 | the joined header is the literal starting with `01-` |
| `TraceCases.TooFewW3CFieldsLiteral` | trace_test.go:56 | the joined header is the three-field literal |
| `TraceCases.ValidCloudSampledLiteral` | trace_test.go:76 | the joined header is the literal `105445aa7843bc8bf206b120001000/1;o=1` |
| `TraceCases.ValidCloudNotSampledLiteral` | trace_test.go:85 | the joined header is the literal ending in `/1;o=0` |
| `TraceCases.ValidCloudNoOptionsLiteral` | trace_test.go:94 | the joined header is the literal ending in `/1` |
| `TraceCases.CloudMissingSpanIDLiteral` | trace_test.go:103 | the one-part header is the literal trace id |
| `TraceCases.CloudEmptyTraceIDLiteral` | trace_test.go:112 | the joined header is the literal `/1;o=1` |
| `TraceCases.ValidW3CSampledJoined` | trace_test.go:17-25 | the expected result of the case, for `00-TRACE-SPAN-01` built with `Join` |
| `TraceCases.ValidW3CSampled` | trace_test.go:17-25 | the literal `00-4bf9…-00f0…-01` gives the two ids and sampled true |
| `TraceCases.ValidW3CNotSampledJoined` | trace_test.go:26-34 | the expected result of the case, for the same header built with `Join` |
| `TraceCases.ValidW3CNotSampled` | trace_test.go:26-34 | the literal with flags `00` gives sampled false |
| `TraceCases.InvalidW3CFlagsJoined` | trace_test.go:35-43 | the expected result of the case, for the same header built with `Join` |
| `TraceCases.InvalidW3CFlags` | trace_test.go:35-43 | the literal with flags `xx` keeps the ids, sampled false |
| `TraceCases.WrongW3CVersionJoined` | trace_test.go:44-52 | the expected result of the case, for the same header built with `Join` |
| `TraceCases.WrongW3CVersion` | trace_test.go:44-52 | the literal with version `01` gives the empty triple |
| `TraceCases.TooFewW3CFieldsJoined` | trace_test.go:53-61 | the expected result of the case, for the same header built with `Join` |
| `TraceCases.TooFewW3CFields` | trace_test.go:53-61 | the three-field literal gives the empty triple |
| `TraceCases.ValidCloudSampledJoined` | trace_test.go:73-81 | the expected result of the case, for the same header built with `Join` |
| `TraceCases.ValidCloudSampled` | trace_test.go:73-81 | the literal `1054…/1;o=1` gives trace `1054…`, span `1`, sampled true |
| `TraceCases.ValidCloudNotSampledJoined` | trace_test.go:82-90 | the expected result of the case, for the same header built with `Join` |
| `TraceCases.ValidCloudNotSampled` | trace_test.go:82-90 | the literal ending in `;o=0` gives sampled false |
| `TraceCases.ValidCloudNoOptionsJoined` | trace_test.go:91-99 | the expected result of the case, for the same header built with `Join` |
| `TraceCases.ValidCloudNoOptions` | trace_test.go:91-99 | the literal without options gives sampled false |
| `TraceCases.CloudMissingSpanIDJoined` | trace_test.go:100-108 | the expected result of the case, for the same header built with `Join` |
| `TraceCases.CloudMissingSpanID` | trace_test.go:100-108 | the literal without `/` gives the empty triple |
| `TraceCases.CloudEmptyTraceIDJoined` | trace_test.go:109-117 | the expected result of the case, for the same header built with `Join` |
| `TraceCases.CloudEmptyTraceID` | trace_test.go:109-117 | the literal `/1;o=1` gives the empty triple |
| `TraceCases.NoSlashRejected` | trace.go:30-33 | with no `traceparent`, an X-Cloud-Trace-Context without `/` gives the empty triple |
| `TraceCases.W3CTakesPrecedence` | trace_test.go:128-138 | a valid `traceparent` wins over an X-Cloud header saying `o=0` |
| `TraceCases.NoHeaders` | trace_test.go:62-70 | empty or absent headers give the empty triple (also trace_test.go:118-126 and 140-147) |
| `TraceCases.EmptyIdsStillWin` | trace.go:16-23 | `00---01` gives `("", "", true)` whatever the X-Cloud header holds |
| `TraceContext.LookupAbsent` | context.go:16-19 | `ctx.Value(key)` is `nil` when no layer has that key |
| `TraceContext.LookupInnermost` | context.go:16 | `ctx.Value(key)` is the value of the innermost layer with that key |
| `TraceContext.TraceFromContext` | context.go:15-24 | a trace is returned exactly when the value under `traceKey` is a `*Trace`, and it is that trace; `nil` and values of other types give none |
| `TraceContext.WithTraceContext` | context.go:27-35 | an empty trace id returns `ctx` itself; otherwise a new layer over `ctx` whose trace reads back as exactly `(traceID, spanID, sampled)`, with every other key reading as in `ctx` |
| `TraceContext.NoTraceLayer` | context.go:16-19 | a context with no value under `traceKey` holds no trace |
| `TraceContext.ForeignValueIsNoTrace` | context.go:20-23 | a value of another type under `traceKey` reads as no trace instead of failing |
| `TraceContext.ForeignKeyIsTransparent` | context.go:5-7 | a key of another Go type, even with the text `"trace"`, neither hides nor replaces the trace |
| `TraceContext.LatestTraceWins` | context.go:31-35 | the most recently attached trace is the one read back |
| `TraceContext.AttachKeepsInvariant` | context.go:28-35 | attaching keeps "every stored trace has a non-empty id" |
| `TraceContext.ReadTraceNonEmpty` | context.go:15-35 | under that invariant a trace read back has a non-empty id |
| `Handler.ReplaceAttr` | handler.go:14-22 | key `msg` becomes `message`, key `level` becomes `severity`, whatever the groups; any other attribute is unchanged, and values are never changed |
| `Handler.ReplaceAttrIdempotent` | handler.go:14-22 | renaming twice is renaming once, and no renamed attribute keeps the key `msg` or `level` |
| `Handler.RenameKeys` | handler.go:14-22 | at emission every attribute is passed through `ReplaceAttr` with the open groups, position by position |
| `Handler.RenameKeysAppend` | handler.go:14-22 | renaming a concatenation of attribute lists renames each list |
| `Handler.Enrich` | handler.go:33-42 | the forwarded attributes start with the caller's; without a trace or with an empty trace id they are exactly the caller's |
| `Handler.CorrelationAttrs` | handler.go:37-41 | the correlation attributes: each key at most once and among the three Cloud Logging keys, trace id and sampled flag always present, the span id present exactly when it is non-empty |
| `Handler.EnrichedFields` | handler.go:35-41 | with a trace: the caller's attributes, then trace = `TraceID`, then trace_sampled = `Sampled`, then spanId = `SpanID` only when it is non-empty |
| `Handler.SpanKeyIffSpanID` | handler.go:39-41 | the spanId key is among the added attributes exactly when the span id is non-empty |
| `Handler.CorrelationSurvivesRenaming` | handler.go:14-22 | the three correlation keys pass through `ReplaceAttr` unchanged |
| `Handler.EmittedWithSuffix` | handler.go:12-41 | attributes that renaming leaves alone, appended to a record, are emitted last and unchanged, after the renamed `severity` and `message` fields |
| `Handler.CorrelationFieldsEmitted` | handler.go:12-41 | for a handler outside any group (built by `New`, or derived from it by `WithAttrs`), the emitted fields start with the renamed `severity` and `message` fields and end with the correlation fields under their exact names |
| `Handler.Record.Clone` | handler.go:35 | a fresh record with the same contents |
| `Handler.Record.Add` | handler.go:37-40 | appends one attribute in place and changes nothing else |
| `Handler.CloudLoggingHandler.New` | handler.go:11-26 | the inner JSON handler is new, has minimum level Info, no attributes or groups, and writes to the given stream |
| `Handler.CloudLoggingHandler.Enabled` | handler.go:28-30 | the inner handler's answer; for a handler built by `New`, exactly the levels from Info up |
| `Handler.CloudLoggingHandler.Handle` | handler.go:32-44 | exactly one entry reaches the inner sink, holding the caller's message and level and `Enrich` of its attributes under the context's trace; the sink's error is returned unchanged; the caller's record is unchanged |
| `Handler.CloudLoggingHandler.WithAttrs` | handler.go:46-48 | a new wrapper around a new inner handler with the attributes added, same level, groups and stream |
| `Handler.CloudLoggingHandler.WithGroup` | handler.go:50-52 | a new wrapper around a new inner handler with the group added, same level, attributes and stream |
| `Middleware.WithCloudTraceContextMiddleware` | middleware.go:11-21 | the tracing handler is built exactly when on Compute Engine and the project id lookup succeeds, and it captures that id; otherwise `h` itself is returned |
| `Middleware.QualifiedTraceID` | middleware.go:28 | the qualified id is never empty, so attaching it always stores a trace |
| `Middleware.QualifiedRoundTrip` | middleware.go:28 | the trace id can be read back from `projects/<pid>/traces/<tid>`, so distinct trace ids stay distinct |
| `Middleware.ServeHTTP` | middleware.go:21-31 | `h` is called exactly once per request, with the request's headers unchanged |
| `Middleware.PassThrough` | middleware.go:12-19 | off Compute Engine or without a project id, every request reaches `h` unchanged |
| `Middleware.NoTraceIDServesOriginal` | middleware.go:22-26 | with no extracted trace id, `h` gets the original request |
| `Middleware.TraceAttached` | middleware.go:28-30 | otherwise `h` gets a context derived from the request's, carrying `projects/<pid>/traces/<tid>` with the extracted span id and sampled flag unchanged |
| `Middleware.LoggedRecordCorrelated` | middleware.go:28-30 | a record logged with the context `h` receives gets the qualified trace id, the sampled flag and the span id as correlation fields |
| `Middleware.ServedContextWellFormed` | middleware.go:29 | the context `h` receives keeps "every stored trace has a non-empty id" |

## Left out

- `http.Header.Get`: key canonicalisation and choosing among repeated headers are not modelled. Each header is one string, and `""` means absent.
- `metadata.OnGCE` and `metadata.ProjectIDWithContext` query the metadata server over the network. They are parameters here: a boolean, and a project id or a failure.
- The `http.ResponseWriter` and everything `h` does with the request are not modelled. `h` is seen only through the requests it is called with.
- The inner `slog.JSONHandler` is an abstract sink. It records each entry and returns the stream's write error. JSON encoding, the time and source fields, level names and nesting under groups are not modelled.
- `Handler.CorrelationFieldsEmitted`: holds only for a handler outside any group. After `WithGroup`, slog nests every later record attribute under the group, including the three correlation attributes `Handle` adds, so `logging.googleapis.com/trace` is no longer a top-level field and Cloud Logging does not correlate the entry. The model does not represent that nesting.
- `Handler.Emitted`: lists the JSON fields flat. Real slog nests attributes under the handler's groups.
- The inner handler's own shortcuts are not modelled: slog returns the handler itself for an empty `WithAttrs` list or an empty group name. The model always builds a new one.
- The inner handler's `Handle` ignores its context, so the model passes it only the record.
- `slog.Record`: the time, the program counter and the variadic `Add(args ...any)` form are not modelled. `Add` takes one key and one value.
- `traceFromContext` returns the stored pointer. The model returns the trace value, because nothing mutates a stored `*Trace`.
- Go context cancellation, deadlines and concurrency are not modelled. Only the immutable value lookup is.
- `GoStrconv.ParseHexByte`: the out-of-range error is "value above 0xFF". Go's separate uint64 overflow is a larger value, so it falls under the same case.
- Go strings are byte sequences: `strings.Split` cuts bytes and `ParseUint` reads bytes. The model uses Dafny's `string` of characters. The separators and the tokens `00` and `o=1` are ASCII, so the results agree; headers that are not valid UTF-8 cannot be represented.
- example/gcp/main.go is process start-up: reading `PORT`, `ListenAndServe` and `log.Fatal`. It is not part of this model.
