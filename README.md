# httpserver, modelled in Dafny

A model of the core of the Go package `httpserver` (smarty/httpserver), a
small wrapper around `net/http`. The model covers three parts:

- **Configuration** (`config.dfy`, module `Config`). It covers turning a
  listen address into a `(network, address)` pair (`parseListenAddress`,
  `parseURL`, `coalesce`). It also covers building the `configuration`
  record: `apply` writes the fixed `defaults` list, then the caller's options
  in order; it wraps the handler in the recovery handler when panic handling
  is on; it derives a cancellable context; and it builds an `http.Server`
  when the caller gave none.
  - `url.Parse` is an input (`UrlParser`).
  - Each option is a `Setting` value whose effect is `Update`.
  - `Configuration` is the record being mutated. `Configuration.Apply` is
    proved against the pure `Assemble`, and the properties are lemmas about
    `Assemble`.
- **Panic recovery** (`recovery.dfy`, module `Recovery`). It covers the
  recovery handler's `ServeHTTP`, `finally`, `logRecovery`,
  `internalServerError` and `isIgnoredError`.
  - How the inner handler ended (a normal return, or a panic with a
    recovered value) is an input.
  - The calls on the inner handler, the monitor, the logger and the response
    writer are a trace of effects in a `Recorder`.
  - `ServeHTTP` is proved against the pure `Served` trace; `Finally`,
    `LogRecovery` and `InternalServerError` state the effects they append.
- **Server lifecycle** (`server.dfy`, module `Server`). It covers the
  `defaultServer` with its two tasks: the accept task (`listen`,
  `newListener`) and the shutdown watcher (`watchShutdown`,
  `awaitOutstandingRequests`). It also covers `Close`.
  - Goroutines and timers become events, and `Step` is the transition
    function.
  - The results of the bind, of `Serve` and of `Shutdown` are inputs of the
    events that deliver them.
  - `Inv` ties each task's calls and log lines, filtered from the shared
    traces, to where that task is. It holds after any schedule of events.
  - The class `DefaultServer` keeps the mutable state. Each method that
    handles an event is proved to perform exactly the `Step` of that event;
    `NewListener` and `AwaitOutstandingRequests` are parts of a step, with
    contracts of their own stating what they record.

Supporting modules:

- `wrappers.dfy`: `Option` and `Result`.
- `errors.dfy`: Go error values with `%w` wrapping, and `errors.Is` over the
  unwrap chain.
- `strings.dfy`: `strings.TrimSpace` over the full `unicode.IsSpace` set, and
  `strings.ToLower` on ASCII.
- `contracts.dfy`: opaque markers for the collaborators (contexts, cancel
  functions, monitor, logger, listen config, TLS config, adapter, request,
  response).

## Model

| member | source | states |
|---|---|---|
| Config.CoalesceFirstNonEmpty | config.go:192-199 | `coalesce` returns "" exactly when every argument is empty; otherwise it returns an argument that is non-empty and preceded only by empty ones |
| Config.CoalescePair | config.go:179 | with two arguments: the first if it is non-empty, else the second |
| Config.BlankAddressIsTcp | config.go:174-175 | an empty or whitespace-only address gives `("tcp", value)` with the value untrimmed, as written and as corrected |
| Config.UnparsedAddressIsTcp | config.go:182-190 | an address that `url.Parse` rejects after trimming gives `("tcp", value)` untrimmed |
| Config.AsWrittenUnixDropsPrefixLength | config.go:176-177 | as written, on ASCII text, a `unix` scheme in any letter case gives network "unix" and the untrimmed value minus its first seven bytes |
| Config.UnixPrefixedAddress | config.go:176-177 | for a value starting with `unix://` in any case and with no white space at either end, both parsers give "unix" and the rest after the prefix, so a relative path gets no leading slash |
| Config.OtherSchemeAddress | config.go:178-179 | any other parsed address gives the scheme, or "tcp" when it is empty, and the host, or the path when the host is empty; both parsers agree |
| Config.BareNameIsTcp | config.go:178-179 | `"my-listen-address"`, read by `url.Parse` as a path, gives `("tcp", "my-listen-address")` |
| Config.UnixAbsolutePath | config.go:176-177 | `"unix:///tmp/a.sock"` gives `("unix", "/tmp/a.sock")` |
| Config.AsWrittenPanicsOnShortUnix | config.go:176-177 | as written, `"unix:"` slices past the end of the value (a panic); corrected, it gives `("unix", "")` |
| Config.AsWrittenCutsSingleSlashPath | config.go:176-177 | as written, `"unix:/tmp/a.sock"` gives the address `"mp/a.sock"`; corrected, it gives `"/tmp/a.sock"` |
| Config.ShortUnixAsWritten | config.go:176-177 | as written, any trimmed ASCII unix-scheme value shorter than `unix://` panics |
| Config.ShortUnixCorrected | config.go:176-177 | corrected, any such value with neither host nor path gives network "unix" and its opaque part as the address: `"unix:a"` gives `"a"`, `"unix:"` the empty address |
| Config.PathOnlyUnixCorrected | config.go:176-177 | corrected, a trimmed unix-scheme value written without `unix://` and without a host gives its URL path, or its opaque part when the path is empty, so `"unix:app.sock"` keeps the relative path `"app.sock"` |
| Config.AsWrittenCutsOpaquePath | config.go:176-177 | as written, `"unix:app.sock"` gives the address `"p.sock"`; corrected, it gives `"app.sock"` |
| Config.HostPortReadAsScheme | config.go:178-179 | `"localhost:8080"`, which `url.Parse` reads as the scheme `localhost` with the opaque part `8080`, gives `("localhost", "")` under both parsers |
| Config.AsWrittenSlicesUntrimmed | config.go:176-177 | as written, `" unix:///tmp/a.sock"` keeps its leading space in the cut and gives `"//tmp/a.sock"`; corrected, it gives `"/tmp/a.sock"` |
| Config.PaddedUnixCorrected | config.go:176-177 | corrected, a value whose trimmed form starts with `unix://` gives the trimmed value after the prefix, so surrounding white space never reaches the socket path |
| Config.CorrectedParserAgrees | config.go:173-181 | the two parsers give the same pair wherever the as-written parser returns one, provided a unix-scheme value starts with `unix://` and has no white space at either end; every other unix-scheme value is one of the Findings below |
| Config.ListenAddress | config.go:54-56 | the `ListenAddress` option writes the pair `parseListenAddress` gives, into the listen fields |
| Config.SocketConfig | config.go:113 | the deprecated `SocketConfig(v)` has the effect of `ListenConfig(v)` on every record |
| Config.LastOfKindIsLast | config.go:117-119 | the search for the last option of a kind finds nothing exactly when no option has that kind; otherwise it finds an option of that kind with no option of that kind after it |
| Config.LastOfKindAppend | config.go:150-170 | the last option of a kind over defaults followed by options comes from the options when they have one, else from the defaults |
| Config.UpdateOwnKind | config.go:51-110 | each option setter determines exactly the fields of its kind, whatever the record held |
| Config.UpdateOtherKind | config.go:51-110 | each option setter leaves every field of the other kinds unchanged |
| Config.LastWriteWins | config.go:117-119 | after the option loop, each field holds the value of the last option of its kind, or what it held before when no option wrote it |
| Config.FoldAppend | config.go:117-119 | running defaults followed by options is running the defaults, then the options |
| Config.DefaultValues | config.go:150-170 | the defaults are `":http"` on tcp, no TLS, 2048-byte headers, timeouts 5s/1s/90s/30s, shutdown 5s, forced 1s, panic handling on with Canceled, DeadlineExceeded and ErrTxDone ignored, the background context, no-op handler/monitor/loggers, the `SO_REUSEPORT` listen config, and no adapter or ready channel; the server and cancel function are untouched |
| Config.DefaultsRecord | config.go:150-170 | the defaults applied to a record give that record with exactly those twenty fields written |
| Config.DefaultAddress | config.go:151 | the default `":http"` address is tcp on `":http"` when `url.Parse` rejects it |
| Config.AssembleSplit | config.go:115-140 | `apply` runs the defaults, then the options, then the final steps |
| Config.FinishAgrees | config.go:121-138 | the final steps touch only the handler, the context and the HTTP server |
| Config.CallerOptionWins | config.go:117-119 | a field the caller set takes the caller's last value; an untouched field keeps its default |
| Config.FinishWrapsOnce | config.go:121-123 | the handler is wrapped in the recovery handler, around the chosen handler, exactly once when the final `HandlePanic` is true, and not at all otherwise |
| Config.HandlerWrappedOnce | config.go:121-123 | the same for the whole of `apply`, with the defaults' no-op handler when the caller chose none |
| Config.FinishServer | config.go:126-138 | a server the caller supplied is kept as is; otherwise an `http.Server` is built from the final record's address, handler, header cap, timeouts, context and error logger |
| Config.ServerKeptOrBuilt | config.go:126-138 | the same for the whole of `apply` |
| Config.FinishContext | config.go:125 | the context becomes a cancellable child of the chosen context, and the cancel function cancels that child |
| Config.ContextDerived | config.go:125 | the same for the whole of `apply`, with the background context when the caller chose none |
| Config.FoldKeepsCancel | config.go:51-110 | no option touches the cancel function |
| Config.DefaultsOverwrite | config.go:150-170 | the defaults overwrite every field except the server and the cancel function |
| Config.AssembleIgnoresStart | config.go:115-140 | what `apply` builds does not depend on the record it starts from, only on its server |
| Config.Configuration.WriteAll | config.go:117-119 | the loop leaves the record as the fold of its updates over the items |
| Config.Configuration.Apply | config.go:115-140 | the mutated record is `Assemble` of the record it started as |
| Server.New | config.go:40-44 | `New` builds the server from the zero record after `apply`, fresh and not yet started |
| Strings.TrimSpaceEmpty | config.go:183-185 | the trimmed value is empty exactly when every character is white space |
| Strings.TrimSpaceKeeps | config.go:183 | trimming keeps a value that neither starts nor ends with white space |
| Strings.TrimSpaceLeading | config.go:183 | a leading white-space character is trimmed away |
| Strings.ToLowerMatches | config.go:176 | lower-casing equals a lower-case target exactly when each character lower-cases to that target's character |
| Errors.IsMeansOnChain | recovery_handler.go:56-66 | `errors.Is` holds exactly when the target is on the unwrap chain |
| Errors.IsThroughErrorf | recovery_handler.go:56-66 | `errors.Is` sees through `%w` wrapping |
| Recovery.IgnoredMeansOnChain | recovery_handler.go:50-68 | a recovered value is ignored exactly when it is an error and some ignored error is on its unwrap chain |
| Recovery.SentinelClassification | recovery_handler.go:56-68 | with the default set, ignored means Canceled, DeadlineExceeded or ErrTxDone on the chain |
| Recovery.WrappedSentinelIgnored | recovery_handler.go:56-66 | a sentinel wrapped with `%w` is still ignored |
| Recovery.NonErrorNeverIgnored | recovery_handler.go:51-54 | a recovered value that is not an error is never ignored |
| Recovery.ServeHTTP | recovery_handler.go:25-28 | the effects of one request are the `Served` trace |
| Recovery.Finally | recovery_handler.go:29-37 | on a normal return, nothing; on a panic, the report unless ignored, then the 500 |
| Recovery.LogRecovery | recovery_handler.go:39-46 | an ignored value causes no call; any other causes one monitor call, then one log line |
| Recovery.InternalServerError | recovery_handler.go:47-49 | one response write: status 500 with the text "Internal Server Error" |
| Recovery.InnerHandlerCalledOnce | recovery_handler.go:25-28 | the inner handler is called first, exactly once, with the same response and request |
| Recovery.NormalReturnIsTransparent | recovery_handler.go:30-33 | after a normal return there is no monitor call, no log line and no response write |
| Recovery.PanicAnswers500 | recovery_handler.go:35-36 | every panic ends in exactly one 500 write, ignored or not |
| Recovery.IgnoredPanicIsSilent | recovery_handler.go:39-42 | an ignored panic causes no monitor call and no log line |
| Recovery.ReportablePanicIsReported | recovery_handler.go:44-45 | a reportable panic causes one monitor call with the request and value, then one log line starting `"[ERROR] Recovered panic: "` and the value |
| Recovery.CallsOnMembers | recovery_handler.go:25-49 | an effect is among the calls on a collaborator exactly when it is in the trace and addressed to that collaborator |
| Server.DecorationOrder | server.go:77-85 | the raw listener is innermost; the adapter wraps it when set, TLS wraps that when set, and with neither the raw listener is served unchanged |
| Server.ServerContexts | server.go:28-45 | for a server built from what `apply` produced: the hard shutdown cancels exactly the hard context, a cancellable child of the caller's last context (or of the background context), and the soft context is a cancellable child of the hard one |
| Server.StepKeepsInv | server.go:55-119 | every event keeps each task's calls and log lines equal to what its phase implies |
| Server.RunKeepsInv | server.go:47-119 | the same holds after any schedule of events |
| Server.AcceptTaskTrace | server.go:55-86 | with no address, no bind, serve or log line; every bind is on the soft context, "tcp" and the configured address, never the parsed network; after a failed bind, no serve and exactly one warning; `Serve` gets the decorated listener |
| Server.ServeOutcomeClassified | server.go:65-69 | a serve result of nil or `http.ErrServerClosed` itself gives the conclusion line; any other error gives a warning carrying that error |
| Server.WrappedServerClosedWarns | server.go:65 | the comparison is `==`, so a wrapped `http.ErrServerClosed` gives a warning even though `errors.Is` matches it |
| Server.WatcherTrace | server.go:87-114 | `Shutdown` is called at most once, as the watcher's first call, and only once the soft context is done; once the watcher ends, the hard signal has fired, the forced wait happened exactly when `Shutdown` failed, and "shutdown complete" was logged on both paths |
| Server.ShutdownWaitsForSoft | server.go:95 | the watcher does not move before the soft context is done |
| Server.ParentCancelSuffices | server.go:95-99 | cancelling the parent context alone brings the watcher to `Shutdown` |
| Server.CloseIdempotent | server.go:116-119 | `Close` fires only the soft signal, and a second `Close` changes nothing |
| Server.RunAppend | server.go:47-54 | running two schedules in turn is running them joined |
| Server.AcceptCompletes | server.go:55-70 | at most two events end the accept task from any point |
| Server.WatchCompletes | server.go:87-114 | once the soft context is done, at most three events end the watcher from any point |
| Server.CloseFinishes | server.go:47-54 | after `Close`, at most five events end both tasks, so `Listen` returns |
| Server.AcceptStaysEnded | server.go:55-70 | an accept task that has returned stays returned |
| Server.DefaultServer.constructor | server.go:28-45 | `newServer`: the parameters come from the configuration, and no signal has fired |
| Server.DefaultServer.Close | server.go:116-119 | `Close` returns nil and performs the step of its event |
| Server.DefaultServer.CancelParent | server.go:29 | cancelling the parent context performs the step of its event |
| Server.DefaultServer.NewListener | server.go:71-86 | one bind on the soft context, "tcp" and the configured address; a bind error is returned unchanged; otherwise the decorated listener |
| Server.DefaultServer.Listen | server.go:55-65 | `listen` up to `Serve` performs the step of its event |
| Server.DefaultServer.ServeReturned | server.go:65-69 | the end of `listen` performs the step of its event |
| Server.DefaultServer.WatchShutdown | server.go:95-99 | `watchShutdown` up to `Shutdown` performs the step of its event |
| Server.DefaultServer.ShutdownReturned | server.go:89-93 | after `Shutdown`, the hard signal and `awaitOutstandingRequests` perform the step of its event |
| Server.DefaultServer.AwaitOutstandingRequests | server.go:101-114 | with no error, only the completion line; otherwise the in-flight line and the forced wait |
| Config.Coalesce | config.go:192-199 | `coalesce`; `CoalesceFirstNonEmpty` and `CoalescePair` state what it returns |
| Config.ParseUrl | config.go:182-190 | `parseURL`; `BlankAddressIsTcp`, `UnparsedAddressIsTcp` and `TrimSpaceEmpty` state its empty and rejected cases |
| Config.ParseListenAddressAsWritten | config.go:173-181 | `parseListenAddress` as written, with none for the panicking slice; the address lemmas above and the Findings state its results |
| Config.ParseListenAddress | config.go:173-181 | the corrected `parseListenAddress`, which falls back on the host, the path and then the opaque part of a unix URL; `UnixAbsolutePath`, `PaddedUnixCorrected`, `PathOnlyUnixCorrected`, `ShortUnixCorrected`, `AsWrittenCutsOpaquePath`, `OtherSchemeAddress` and `CorrectedParserAgrees` state its results |
| Config.Fold | config.go:117-119 | the option loop of `apply`; `LastWriteWins` and `FoldAppend` state what it leaves, and `Configuration.WriteAll` is proved equal to it |
| Config.Update | config.go:51-113 | the effect of one option; `UpdateOwnKind` and `UpdateOtherKind` state that it writes exactly its own fields |
| Config.Defaults | config.go:141-171 | the `defaults` list; `DefaultValues`, `DefaultsRecord` and `DefaultsOverwrite` state what it writes |
| Config.Finish | config.go:121-138 | the steps of `apply` after the option loop; `FinishAgrees`, `FinishWrapsOnce`, `FinishServer` and `FinishContext` state them |
| Config.Assemble | config.go:115-140 | `apply`; `AssembleSplit`, `CallerOptionWins`, `HandlerWrappedOnce`, `ServerKeptOrBuilt`, `ContextDerived` and `AssembleIgnoresStart` state what it builds |
| Recovery.IsIgnoredError | recovery_handler.go:50-69 | `isIgnoredError`; `IgnoredMeansOnChain`, `SentinelClassification`, `WrappedSentinelIgnored` and `NonErrorNeverIgnored` state when it holds |
| Recovery.Render | recovery_handler.go:45 | the `%v` of the recovered value; `RecoveryLineReadsBack` places it in the logged line |
| Recovery.RecoveryLine | recovery_handler.go:45 | the `Printf` line; `RecoveryLineReadsBack` reads it back as prefix, value, newline and stack, and `ReportablePanicIsReported` states that it is logged |
| Recovery.RecoveryLineReadsBack | recovery_handler.go:45 | the logged line is the `[ERROR] Recovered panic: ` prefix, the rendered value, a newline and the stack trace, each recoverable from the line |
| Recovery.Served | recovery_handler.go:25-49 | the effects of one request; `InnerHandlerCalledOnce`, `NormalReturnIsTransparent`, `PanicAnswers500`, `IgnoredPanicIsSilent` and `ReportablePanicIsReported` state them |
| Server.Decorate | server.go:77-85 | the listener decoration; `DecorationOrder` states its layers |
| Server.ServeOutcome | server.go:65-69 | the line `listen` logs when `Serve` returns; `ServeOutcomeClassified` and `WrappedServerClosedWarns` state it |
| Server.Run | server.go:47-54 | one schedule of events of a `Listen` call; `RunKeepsInv`, `RunAppend`, `AcceptTaskTrace`, `WatcherTrace` and `CloseFinishes` state what it reaches |
| Server.Step | server.go:47-119 | the transition of one event; `StepKeepsInv`, `RunKeepsInv`, `AcceptTaskTrace`, `WatcherTrace` and the completion lemmas state what schedules of it do |
| Errors.Is | recovery_handler.go:56-66 | `errors.Is` over the unwrap chain; `IsMeansOnChain` and `IsThroughErrorf` state it |
| Strings.IsSpace | config.go:183 | `unicode.IsSpace`; `TrimSpaceEmpty`, `TrimSpaceKeeps` and `TrimSpaceLeading` state trimming in its terms |
| Strings.TrimSpace | config.go:183 | `strings.TrimSpace`; `TrimSpaceEmpty`, `TrimSpaceKeeps` and `TrimSpaceLeading` state it |
| Strings.ToLower | config.go:176 | `strings.ToLower` on ASCII; `ToLowerMatches` states it |
| Server.DefaultServer.ForcedWaitElapsed | server.go:110-113 | the end of the forced wait logs completion and performs the step of its event |

## Left out

- Goroutines, `sync.WaitGroup` and the blocking in `Listen` (server.go:47-54). They are a schedule of events; `CloseFinishes` states that it completes.
- Context trees, deadlines and timers. Contexts are markers and the two signals are booleans. An elapsed timeout is an event, and `time.Duration` is an integer that is never computed with. The `Shutdown` context's deadline (server.go:96-97) is not modelled; `Shutdown` takes the configured timeout.
- `url.Parse` (config.go:186) is a parameter: a URL, or none when it returns an error. Its own lower-casing of the scheme is not modelled. It reads `"localhost:8080"` as the scheme `localhost` with the opaque part `8080`; `HostPortReadAsScheme` states that both parsers then give `("localhost", "")`, so the accept task takes its early return at server.go:56-58 and never listens. The model keeps this behaviour, as written: which pair was intended for such a value is not evident from the code.
- Parsing takes place when `Options.ListenAddress` is called, not when `apply` runs. The options are built with the same parser, and `url.Parse` is pure, so the result is the same.
- The `SO_REUSEPORT` control function (config.go:142-146) is the marker `ReusePortListenConfig`. TLS wrapping is a `TlsListener` layer. The `http.Server` is the `StandardServer` record of the fields `apply` sets. `newServerLogger` is the error logger itself. `BaseContext` is the context.
- Server.ParamsOf: the HTTP server the configuration holds is copied but never modelled further, so `Serve` and `Shutdown` are represented only by their results.
- `strings.ToLower` on ASCII only: no other letter is lower-cased. `url.Parse` only accepts ASCII schemes, so the `unix` test is unaffected.
- Config.ParseListenAddressAsWritten, Config.AsWrittenUnixDropsPrefixLength, Config.ShortUnixAsWritten: strings are sequences of characters, while Go's `len` and slicing count UTF-8 bytes, so the length test and the cut after `unix://` agree with Go only on ASCII text; the two lemmas require ASCII values (`"unix:é"`, 7 bytes, does not panic in Go).
- Config.ListenAddress: the option stores the corrected parser's pair, where config.go:55 stores what the written `parseListenAddress` returns. They differ on `"unix:"` (Go panics inside `apply`; the model stores `("unix", "")`), on `"unix:/tmp/a.sock"` (Go stores `"mp/a.sock"`), on `" unix:///tmp/a.sock"` (Go stores `"//tmp/a.sock"`) on `"unix:///tmp/a.sock\n"` (Go keeps the newline, the model drops it) and on `"unix:app.sock"` (Go stores `"p.sock"`, the model `"app.sock"`). `Configuration.Apply` and `Server.New` inherit this. The Findings below state each of these.
- `errors.Is` follows a single `%w` chain: errors wrapping several operands and custom `Is` methods are not modelled.
- Recovery.Finally: a `Panicked` outcome always answers 500. `panic(nil)`, for which `recover()` returns nil before Go 1.21 so that recovery_handler.go:31-33 returns without a write, is not modelled as a separate outcome; from Go 1.21 on, `recover()` gives a non-nil `*runtime.PanicNilError` there, which the model covers as a reportable value.
- `debug.Stack()` is a parameter. The `%v` rendering of a recovered value is its text, and the exact `http.Error` body is only its status and status text.
- `ListenReady` is stored but never sent on: server.go has no code that sends on it.
- `ListenNetwork` is stored but never read: `newListener` always binds "tcp" (server.go:72). A unix address is therefore bound as tcp.
- recovery_handler.go:17 takes three arguments, but config.go:122 passes four (with the ignored errors). The model's recovery handler carries the ignored errors, and `SentinelClassification` states that with the three defaults it performs the shown file's three checks.
- The request dump, the body draining and the fifth argument the recovery handler's tests expect are not in recovery_handler.go, and are not modelled.
- Config.DefaultValues, Config.HandlerWrappedOnce, Config.ServerKeptOrBuilt, Config.ContextDerived, Config.AssembleIgnoresStart: these assume that `url.Parse` rejects `":http"` (it does: a colon before any scheme letter is an error). So the default address is tcp on `":http"`.
- Config.HandlerWrappedOnce: it assumes that no option supplies an already-wrapped recovery handler, so the depth counts `apply`'s own wrapping.
- contracts.go is a set of interfaces with no logic beyond the markers.

## Findings

| source | as written | input that shows it | evidently intended | confidence | as-written member | corrected member |
|---|---|---|---|---|---|---|
| config.go:176-177 | the unix branch slices the untrimmed value at `len("unix://")`, whatever its length | `"unix:"` (a unix scheme with an empty opaque part) slices past the end, and the program panics | the unix socket path, `""` here | not executed | Config.AsWrittenPanicsOnShortUnix | Config.ShortUnixCorrected |
| config.go:176-177 | the same slice assumes the value starts with `unix://` | `"unix:/tmp/a.sock"` gives the address `"mp/a.sock"` | `"/tmp/a.sock"` | not executed | Config.AsWrittenCutsSingleSlashPath | Config.PathOnlyUnixCorrected |
| config.go:176-177 | the same slice cuts a relative path written without `//`, which the comment at line 177 means to keep | `"unix:app.sock"` (scheme `unix`, opaque part `app.sock`) gives the address `"p.sock"` | `"app.sock"` | not executed | Config.AsWrittenCutsOpaquePath | Config.PathOnlyUnixCorrected |
| config.go:176-177 | the slice cuts the untrimmed value, though the scheme was read from the trimmed one | `" unix:///tmp/a.sock"` gives the address `"//tmp/a.sock"`, and `"unix:///tmp/a.sock\n"` keeps the newline | `"/tmp/a.sock"` | not executed | Config.AsWrittenSlicesUntrimmed | Config.PaddedUnixCorrected |

`Config.ParseListenAddressAsWritten` is the parser as written: none marks the panic. `Config.ParseListenAddress` is the corrected parser, and the rest of the model uses it. It removes the `unix://` prefix only when it is there, on the trimmed value. Otherwise it takes the URL host, path or opaque part, the first that is not empty. `Config.CorrectedParserAgrees` states that the two parsers agree wherever the written one returns a pair, except on unix-scheme values that lack the `unix://` prefix or carry white space around it, which are the rows above.
