/**
  server.go: the lifecycle of one `defaultServer`. Two tasks run side by side:
  the accept task (`listen`: bind, decorate, serve, report) and the shutdown
  watcher (`watchShutdown`: wait for the soft signal, shut the HTTP server
  down, fire the hard signal, wait out the forced timeout when requests were
  left, report). `Close` fires the soft signal; cancelling the caller's
  context fires the hard one, and the soft context is its child.

  Goroutines, the wait group and the timers are replaced by events: each
  event is one uninterrupted run of one task up to its next suspension
  point, or a signal from outside. The results of the collaborators (the
  bind, `Serve`, `Shutdown`) are inputs of the events that receive them.
 */
module Server {
  import opened Wrappers
  import opened Errors
  import opened Contracts
  import opened Config

  /** A `net.Listener`: the one the listen config binds, possibly wrapped by the adapter and then by TLS. */
  datatype Listener =
    | RawListener(network: string, address: string)
    | AdaptedListener(adapter: ListenAdapter, inner: Listener)
    | TlsListener(tls: TlsConfig, inner: Listener)

  /** One wrapping around a raw listener. */
  datatype Layer = AdapterLayer(adapter: ListenAdapter) | TlsLayer(tls: TlsConfig)

  /** The wrappings of a listener, outermost first. */
  function Layers(l: Listener): seq<Layer>
  {
    match l
    case RawListener(_, _) => []
    case AdaptedListener(a, inner) => [AdapterLayer(a)] + Layers(inner)
    case TlsListener(t, inner) => [TlsLayer(t)] + Layers(inner)
  }

  /** The raw listener inside all wrappings. */
  function Base(l: Listener): Listener
  {
    match l
    case RawListener(_, _) => l
    case AdaptedListener(_, inner) => Base(inner)
    case TlsListener(_, inner) => Base(inner)
  }

  /** `newListener` after a successful bind: the adapter when one is set, then TLS when it is configured. */
  function Decorate(raw: Listener, adapter: Option<ListenAdapter>, tls: Option<TlsConfig>): Listener
  {
    var adapted := if adapter.Some? then AdaptedListener(adapter.value, raw) else raw;
    if tls.Some? then TlsListener(tls.value, adapted) else adapted
  }

  /**
    Decoration order: TLS outermost, the adapter inside it, the bound listener
    innermost and unchanged; with neither, the bound listener itself.
   */
  lemma DecorationOrder(raw: Listener, adapter: Option<ListenAdapter>, tls: Option<TlsConfig>)
    requires raw.RawListener?
    ensures Base(Decorate(raw, adapter, tls)) == raw
    ensures Layers(Decorate(raw, adapter, tls))
      == (if tls.Some? then [TlsLayer(tls.value)] else []) + (if adapter.Some? then [AdapterLayer(adapter.value)] else [])
    ensures adapter.None? && tls.None? ==> Decorate(raw, adapter, tls) == raw
  {
    var adapted := if adapter.Some? then AdaptedListener(adapter.value, raw) else raw;
    assert Base(adapted) == raw;
    assert Layers(adapted) == if adapter.Some? then [AdapterLayer(adapter.value)] else [];
    if tls.Some? {
      assert Layers(TlsListener(tls.value, adapted)) == [TlsLayer(tls.value)] + Layers(adapted);
    } else {
      assert [] + Layers(adapted) == Layers(adapted);
    }
  }

  /** The fields `newServer` copies out of the configuration and never changes. */
  datatype Params = Params(
    listenAddress: string,
    listenConfig: ListenConfig,
    listenAdapter: Option<ListenAdapter>,
    tlsConfig: Option<TlsConfig>,
    shutdownTimeout: Duration,
    forcedTimeout: Duration,
    hardContext: Context,
    hardShutdown: CancelFunc,
    softContext: Context,
    httpServer: Option<HttpServer>,
    logger: Logger)

  /** `newServer(config)`: the soft context is a cancellable child of the configuration's (hard) context. */
  function ParamsOf(config: Config): (p: Params)
    ensures p.softContext == CancelContext(p.hardContext) && p.hardContext == config.context
    ensures p.hardShutdown == config.contextShutdown && p.listenAddress == config.listenAddress
  {
    Params(config.listenAddress, config.listenConfig, config.listenAdapter, config.tlsConfig,
           config.shutdownTimeout, config.forceShutdownTimeout, config.context, config.contextShutdown,
           CancelContext(config.context), config.httpServer, config.logger)
  }

  /**
    The contexts of a server built from a record `apply` produced: the hard
    shutdown cancels exactly the hard context, a cancellable child of the
    caller's last context (or of the background context), and the soft
    context, on which the accept task binds, is a cancellable child of the
    hard one.
   */
  lemma ServerContexts(c: Config, options: seq<Setting>, parse: UrlParser)
    requires parse(HttpAddress) == None
    ensures var p := ParamsOf(Assemble(c, options, parse));
      && p.hardContext == CancelContext(ChosenContext(options, Background))
      && p.hardShutdown == CancelOf(p.hardContext)
      && p.softContext == CancelContext(p.hardContext)
  {
    ContextDerived(c, options, parse);
  }

  /** The listener the accept task serves on: the TCP listener on the configured address, decorated. */
  function Decorated(p: Params): Listener
  {
    Decorate(RawListener("tcp", p.listenAddress), p.listenAdapter, p.tlsConfig)
  }

  /** The two concurrent tasks `Listen` starts. */
  datatype Task = AcceptTask | WatchTask

  /** A call on a collaborator, or a wait on a timer. */
  datatype Call =
    | Bind(context: Context, config: ListenConfig, network: string, address: string)  // listenConfig.Listen(softContext, network, address)
    | Serve(listener: Listener)                                      // httpServer.Serve(listener)
    | Shutdown(timeout: Duration)                                    // httpServer.Shutdown(ctx) with the shutdown timeout
    | HardShutdown(cancel: CancelFunc)                               // this.hardShutdown()
    | ForcedWait(timeout: Duration)                                  // <-ctx.Done() of the forced timeout

  function CallTask(c: Call): Task
  {
    match c
    case Bind(_, _, _, _) => AcceptTask
    case Serve(_) => AcceptTask
    case _ => WatchTask
  }

  /** One `logger.Printf` line, named after what it reports. */
  datatype Line =
    | ListeningOn(address: string)       // "[INFO] Listening for HTTP traffic on [%s]..."
    | UnableToListen(err: Error)         // "[WARN] Unable to listen: [%s]"
    | ServeConcluded                     // "[INFO] HTTP server concluded listening operations."
    | ShuttingDown                       // "[INFO] Shutting down HTTP server..."
    | InFlight(timeout: Duration)        // "[INFO] HTTP request(s) in flight after server shutdown, waiting for %s..."
    | ShutdownComplete                   // "[INFO] HTTP server shutdown complete."

  function LineTask(l: Line): Task
  {
    match l
    case ListeningOn(_) => AcceptTask
    case UnableToListen(_) => AcceptTask
    case ServeConcluded => AcceptTask
    case _ => WatchTask
  }

  /** A warning line (`[WARN]`); every other line is informational. */
  predicate IsWarning(l: Line)
  {
    l.UnableToListen?
  }

  /** The calls of one task, in their order. */
  function CallsOf(calls: seq<Call>, t: Task): (r: seq<Call>)
    ensures |r| <= |calls|
  {
    if |calls| == 0 then []
    else CallsOf(calls[..|calls| - 1], t) + (if CallTask(calls[|calls| - 1]) == t then [calls[|calls| - 1]] else [])
  }

  /** The lines of one task, in their order. */
  function LinesOf(lines: seq<Line>, t: Task): (r: seq<Line>)
    ensures |r| <= |lines|
  {
    if |lines| == 0 then []
    else LinesOf(lines[..|lines| - 1], t) + (if LineTask(lines[|lines| - 1]) == t then [lines[|lines| - 1]] else [])
  }

  lemma {:induction false} CallsOfAppend(a: seq<Call>, b: seq<Call>, t: Task)
    ensures CallsOf(a + b, t) == CallsOf(a, t) + CallsOf(b, t)
    decreases |b|
  {
    if |b| == 0 {
      assert a + b == a;
    } else {
      assert (a + b)[..|a + b| - 1] == a + b[..|b| - 1];
      CallsOfAppend(a, b[..|b| - 1], t);
    }
  }

  lemma {:induction false} LinesOfAppend(a: seq<Line>, b: seq<Line>, t: Task)
    ensures LinesOf(a + b, t) == LinesOf(a, t) + LinesOf(b, t)
    decreases |b|
  {
    if |b| == 0 {
      assert a + b == a;
    } else {
      assert (a + b)[..|a + b| - 1] == a + b[..|b| - 1];
      LinesOfAppend(a, b[..|b| - 1], t);
    }
  }

  /** How the accept task ended. */
  datatype AcceptEnd = NoAddress | BindFailed(err: Error) | ServeEnded(result: Option<Error>)

  /** Where the accept task is: not yet run, blocked in `Serve`, or returned. */
  datatype AcceptPhase = AcceptPending | AcceptServing | AcceptEnded(end: AcceptEnd)

  /** Where the watcher is: waiting for the soft signal, blocked in `Shutdown`, in the forced wait, or returned. */
  datatype WatchPhase = WatchPending | WatchShuttingDown | WatchDraining(err: Error) | WatchEnded(shutdownError: Option<Error>)

  /** The server's mutable state: the two signals, where each task is, and everything it has done. */
  datatype State = State(
    soft: bool,
    hard: bool,
    accept: AcceptPhase,
    watch: WatchPhase,
    calls: seq<Call>,
    log: seq<Line>)

  function Initial(): State
  {
    State(false, false, AcceptPending, WatchPending, [], [])
  }

  /** The soft context is done once it is cancelled itself or its parent, the hard context, is. */
  predicate SoftDone(s: State)
  {
    s.soft || s.hard
  }

  /** `Listen` returns once both tasks have returned. */
  predicate Finished(s: State)
  {
    s.accept.AcceptEnded? && s.watch.WatchEnded?
  }

  /** The line `listen` logs for what `Serve` returned: only nil and `http.ErrServerClosed` itself count as a clean end. */
  function ServeOutcome(result: Option<Error>): Line
  {
    if result.None? || result.value.id == ServerClosedId then ServeConcluded else UnableToListen(result.value)
  }

  /** Something that happens: a task runs to its next suspension point, or a signal arrives. */
  datatype Event =
    | CloseCalled                          // Close()
    | ParentCancelled                      // the caller's context, parent of the hard context, is cancelled
    | ListenStarts(bindError: Option<Error>)     // listen runs up to Serve; the bind's error, if any
    | ServeReturns(serveError: Option<Error>)    // Serve returns
    | SoftSignalled                        // <-softContext.Done() returns in watchShutdown
    | ShutdownReturns(shutdownError: Option<Error>) // Shutdown returns
    | ForcedTimeoutElapsed                 // the forced wait in awaitOutstandingRequests ends

  /**
    One event. An event whose task is not at the matching suspension point
    cannot happen and leaves the state as it is.
   */
  function Step(p: Params, s: State, e: Event): State
  {
    match e
    case CloseCalled => s.(soft := true)
    case ParentCancelled => s.(hard := true)
    case ListenStarts(bindError) =>
      if !s.accept.AcceptPending? then s
      else if |p.listenAddress| == 0 then s.(accept := AcceptEnded(NoAddress))
      else if bindError.Some? then
        s.(accept := AcceptEnded(BindFailed(bindError.value)),
           calls := s.calls + [Bind(p.softContext, p.listenConfig, "tcp", p.listenAddress)],
           log := s.log + [ListeningOn(p.listenAddress), UnableToListen(bindError.value)])
      else
        s.(accept := AcceptServing,
           calls := s.calls + [Bind(p.softContext, p.listenConfig, "tcp", p.listenAddress), Serve(Decorated(p))],
           log := s.log + [ListeningOn(p.listenAddress)])
    case ServeReturns(serveError) =>
      if !s.accept.AcceptServing? then s
      else s.(accept := AcceptEnded(ServeEnded(serveError)), log := s.log + [ServeOutcome(serveError)])
    case SoftSignalled =>
      if !(s.watch.WatchPending? && SoftDone(s)) then s
      else s.(watch := WatchShuttingDown, log := s.log + [ShuttingDown], calls := s.calls + [Shutdown(p.shutdownTimeout)])
    case ShutdownReturns(shutdownError) =>
      if !s.watch.WatchShuttingDown? then s
      else if shutdownError.None? then
        s.(hard := true, watch := WatchEnded(None),
           calls := s.calls + [HardShutdown(p.hardShutdown)], log := s.log + [ShutdownComplete])
      else
        s.(hard := true, watch := WatchDraining(shutdownError.value),
           calls := s.calls + [HardShutdown(p.hardShutdown), ForcedWait(p.forcedTimeout)],
           log := s.log + [InFlight(p.forcedTimeout)])
    case ForcedTimeoutElapsed =>
      if !s.watch.WatchDraining? then s
      else s.(watch := WatchEnded(Some(s.watch.err)), log := s.log + [ShutdownComplete])
  }

  /** A schedule of events, in order. */
  function Run(p: Params, s: State, es: seq<Event>): State
    decreases |es|
  {
    if |es| == 0 then s else Run(p, Step(p, s, es[0]), es[1..])
  }

  /** What the accept task has called, by where it is. */
  function AcceptCalls(p: Params, a: AcceptPhase): seq<Call>
  {
    match a
    case AcceptPending => []
    case AcceptServing => [Bind(p.softContext, p.listenConfig, "tcp", p.listenAddress), Serve(Decorated(p))]
    case AcceptEnded(NoAddress) => []
    case AcceptEnded(BindFailed(_)) => [Bind(p.softContext, p.listenConfig, "tcp", p.listenAddress)]
    case AcceptEnded(ServeEnded(_)) => [Bind(p.softContext, p.listenConfig, "tcp", p.listenAddress), Serve(Decorated(p))]
  }

  /** What the accept task has logged, by where it is. */
  function AcceptLines(p: Params, a: AcceptPhase): seq<Line>
  {
    match a
    case AcceptPending => []
    case AcceptServing => [ListeningOn(p.listenAddress)]
    case AcceptEnded(NoAddress) => []
    case AcceptEnded(BindFailed(err)) => [ListeningOn(p.listenAddress), UnableToListen(err)]
    case AcceptEnded(ServeEnded(result)) => [ListeningOn(p.listenAddress), ServeOutcome(result)]
  }

  /** What the watcher has called, by where it is. */
  function WatchCalls(p: Params, w: WatchPhase): seq<Call>
  {
    match w
    case WatchPending => []
    case WatchShuttingDown => [Shutdown(p.shutdownTimeout)]
    case WatchDraining(_) => [Shutdown(p.shutdownTimeout), HardShutdown(p.hardShutdown), ForcedWait(p.forcedTimeout)]
    case WatchEnded(None) => [Shutdown(p.shutdownTimeout), HardShutdown(p.hardShutdown)]
    case WatchEnded(Some(_)) => [Shutdown(p.shutdownTimeout), HardShutdown(p.hardShutdown), ForcedWait(p.forcedTimeout)]
  }

  /** What the watcher has logged, by where it is. */
  function WatchLines(p: Params, w: WatchPhase): seq<Line>
  {
    match w
    case WatchPending => []
    case WatchShuttingDown => [ShuttingDown]
    case WatchDraining(_) => [ShuttingDown, InFlight(p.forcedTimeout)]
    case WatchEnded(None) => [ShuttingDown, ShutdownComplete]
    case WatchEnded(Some(_)) => [ShuttingDown, InFlight(p.forcedTimeout), ShutdownComplete]
  }

  /**
    The invariant of every reachable state: each task's calls and lines are
    exactly those of the steps it has taken; the accept task binds only when
    an address is configured; the watcher has left its first wait only once
    the soft context is done, and the hard signal has fired once `Shutdown`
    has returned.
   */
  predicate Inv(p: Params, s: State)
  {
    && CallsOf(s.calls, AcceptTask) == AcceptCalls(p, s.accept)
    && CallsOf(s.calls, WatchTask) == WatchCalls(p, s.watch)
    && LinesOf(s.log, AcceptTask) == AcceptLines(p, s.accept)
    && LinesOf(s.log, WatchTask) == WatchLines(p, s.watch)
    && (s.accept == AcceptEnded(NoAddress) <==> (!s.accept.AcceptPending? && |p.listenAddress| == 0))
    && (!s.watch.WatchPending? ==> SoftDone(s))
    && (s.watch.WatchDraining? || s.watch.WatchEnded? ==> s.hard)
  }

  lemma InitialInv(p: Params)
    ensures Inv(p, Initial())
  {
  }

  /** Appending the calls and lines of one step splits them over the two tasks. */
  lemma Appended(s: State, calls: seq<Call>, lines: seq<Line>)
    ensures CallsOf(s.calls + calls, AcceptTask) == CallsOf(s.calls, AcceptTask) + CallsOf(calls, AcceptTask)
    ensures CallsOf(s.calls + calls, WatchTask) == CallsOf(s.calls, WatchTask) + CallsOf(calls, WatchTask)
    ensures LinesOf(s.log + lines, AcceptTask) == LinesOf(s.log, AcceptTask) + LinesOf(lines, AcceptTask)
    ensures LinesOf(s.log + lines, WatchTask) == LinesOf(s.log, WatchTask) + LinesOf(lines, WatchTask)
  {
    CallsOfAppend(s.calls, calls, AcceptTask);
    CallsOfAppend(s.calls, calls, WatchTask);
    LinesOfAppend(s.log, lines, AcceptTask);
    LinesOfAppend(s.log, lines, WatchTask);
  }

  lemma CallsOfOne(c: Call, t: Task)
    ensures CallsOf([c], t) == if CallTask(c) == t then [c] else []
  {
    assert [c][..0] == [];
  }

  lemma CallsOfTwo(c: Call, d: Call, t: Task)
    ensures CallsOf([c, d], t) == CallsOf([c], t) + CallsOf([d], t)
  {
    assert [c, d] == [c] + [d];
    CallsOfAppend([c], [d], t);
  }

  lemma LinesOfOne(l: Line, t: Task)
    ensures LinesOf([l], t) == if LineTask(l) == t then [l] else []
  {
    assert [l][..0] == [];
  }

  lemma LinesOfTwo(l: Line, m: Line, t: Task)
    ensures LinesOf([l, m], t) == LinesOf([l], t) + LinesOf([m], t)
  {
    assert [l, m] == [l] + [m];
    LinesOfAppend([l], [m], t);
  }

  /** A step of one task that appends `calls` and `lines`, all of that task, leaves the other task's traces alone. */
  lemma TaskStep(s: State, calls: seq<Call>, lines: seq<Line>, t: Task, u: Task)
    requires t != u
    requires CallsOf(calls, t) == calls && CallsOf(calls, u) == []
    requires LinesOf(lines, t) == lines && LinesOf(lines, u) == []
    ensures CallsOf(s.calls + calls, t) == CallsOf(s.calls, t) + calls
    ensures CallsOf(s.calls + calls, u) == CallsOf(s.calls, u)
    ensures LinesOf(s.log + lines, t) == LinesOf(s.log, t) + lines
    ensures LinesOf(s.log + lines, u) == LinesOf(s.log, u)
  {
    Appended(s, calls, lines);
    assert CallsOf(s.calls, u) + [] == CallsOf(s.calls, u);
    assert LinesOf(s.log, u) + [] == LinesOf(s.log, u);
  }

  /** A step of the accept task alone keeps the invariant when what it appends is what its new phase adds. */
  lemma AcceptAppends(p: Params, s: State, t: State, calls: seq<Call>, lines: seq<Line>)
    requires Inv(p, s)
    requires t.watch == s.watch && t.soft == s.soft && t.hard == s.hard
    requires t.calls == s.calls + calls && t.log == s.log + lines
    requires CallsOf(calls, AcceptTask) == calls && CallsOf(calls, WatchTask) == []
    requires LinesOf(lines, AcceptTask) == lines && LinesOf(lines, WatchTask) == []
    requires AcceptCalls(p, t.accept) == AcceptCalls(p, s.accept) + calls
    requires AcceptLines(p, t.accept) == AcceptLines(p, s.accept) + lines
    requires t.accept == AcceptEnded(NoAddress) <==> (!t.accept.AcceptPending? && |p.listenAddress| == 0)
    ensures Inv(p, t)
  {
    TaskStep(s, calls, lines, AcceptTask, WatchTask);
  }

  /** A step of the watcher alone keeps the invariant when what it appends is what its new phase adds. */
  lemma WatcherAppends(p: Params, s: State, t: State, calls: seq<Call>, lines: seq<Line>)
    requires Inv(p, s)
    requires t.accept == s.accept && t.soft == s.soft && (s.hard ==> t.hard)
    requires t.calls == s.calls + calls && t.log == s.log + lines
    requires CallsOf(calls, WatchTask) == calls && CallsOf(calls, AcceptTask) == []
    requires LinesOf(lines, WatchTask) == lines && LinesOf(lines, AcceptTask) == []
    requires WatchCalls(p, t.watch) == WatchCalls(p, s.watch) + calls
    requires WatchLines(p, t.watch) == WatchLines(p, s.watch) + lines
    requires !t.watch.WatchPending? ==> SoftDone(t)
    requires t.watch.WatchDraining? || t.watch.WatchEnded? ==> t.hard
    ensures Inv(p, t)
  {
    TaskStep(s, calls, lines, WatchTask, AcceptTask);
  }

  /** The traces of a failed bind: a bind call and two lines, all of the accept task. */
  lemma BindFailedTraces(p: Params, err: Error)
    ensures var calls := [Bind(p.softContext, p.listenConfig, "tcp", p.listenAddress)];
      var lines := [ListeningOn(p.listenAddress), UnableToListen(err)];
      && CallsOf(calls, AcceptTask) == calls && CallsOf(calls, WatchTask) == []
      && LinesOf(lines, AcceptTask) == lines && LinesOf(lines, WatchTask) == []
      && AcceptCalls(p, AcceptEnded(BindFailed(err))) == AcceptCalls(p, AcceptPending) + calls
      && AcceptLines(p, AcceptEnded(BindFailed(err))) == AcceptLines(p, AcceptPending) + lines
  {
    CallsOfOne(Bind(p.softContext, p.listenConfig, "tcp", p.listenAddress), AcceptTask);
    CallsOfOne(Bind(p.softContext, p.listenConfig, "tcp", p.listenAddress), WatchTask);
    LinesOfTwo(ListeningOn(p.listenAddress), UnableToListen(err), AcceptTask);
    LinesOfTwo(ListeningOn(p.listenAddress), UnableToListen(err), WatchTask);
    LinesOfOne(ListeningOn(p.listenAddress), AcceptTask);
    LinesOfOne(ListeningOn(p.listenAddress), WatchTask);
    LinesOfOne(UnableToListen(err), AcceptTask);
    LinesOfOne(UnableToListen(err), WatchTask);
  }

  lemma BindFailsKeepsInv(p: Params, s: State, err: Error)
    requires Inv(p, s) && s.accept.AcceptPending? && |p.listenAddress| > 0
    ensures Inv(p, s.(accept := AcceptEnded(BindFailed(err)), calls := s.calls + [Bind(p.softContext, p.listenConfig, "tcp", p.listenAddress)], log := s.log + [ListeningOn(p.listenAddress), UnableToListen(err)]))
  {
    BindFailedTraces(p, err);
    var calls := [Bind(p.softContext, p.listenConfig, "tcp", p.listenAddress)];
    var lines := [ListeningOn(p.listenAddress), UnableToListen(err)];
    AcceptAppends(p, s, s.(accept := AcceptEnded(BindFailed(err)), calls := s.calls + calls, log := s.log + lines), calls, lines);
  }

  /** The traces of a successful bind: the bind and serve calls and one line, all of the accept task. */
  lemma BindSucceededTraces(p: Params)
    ensures var calls := [Bind(p.softContext, p.listenConfig, "tcp", p.listenAddress), Serve(Decorated(p))];
      var lines := [ListeningOn(p.listenAddress)];
      && CallsOf(calls, AcceptTask) == calls && CallsOf(calls, WatchTask) == []
      && LinesOf(lines, AcceptTask) == lines && LinesOf(lines, WatchTask) == []
      && AcceptCalls(p, AcceptServing) == AcceptCalls(p, AcceptPending) + calls
      && AcceptLines(p, AcceptServing) == AcceptLines(p, AcceptPending) + lines
  {
    var bind := Bind(p.softContext, p.listenConfig, "tcp", p.listenAddress);
    var serve := Serve(Decorated(p));
    CallsOfTwo(bind, serve, AcceptTask);
    CallsOfTwo(bind, serve, WatchTask);
    CallsOfOne(bind, AcceptTask);
    CallsOfOne(bind, WatchTask);
    CallsOfOne(serve, AcceptTask);
    CallsOfOne(serve, WatchTask);
    LinesOfOne(ListeningOn(p.listenAddress), AcceptTask);
    LinesOfOne(ListeningOn(p.listenAddress), WatchTask);
  }

  lemma BindSucceedsKeepsInv(p: Params, s: State)
    requires Inv(p, s) && s.accept.AcceptPending? && |p.listenAddress| > 0
    ensures Inv(p, s.(accept := AcceptServing, calls := s.calls + [Bind(p.softContext, p.listenConfig, "tcp", p.listenAddress), Serve(Decorated(p))], log := s.log + [ListeningOn(p.listenAddress)]))
  {
    BindSucceededTraces(p);
    var calls := [Bind(p.softContext, p.listenConfig, "tcp", p.listenAddress), Serve(Decorated(p))];
    var lines := [ListeningOn(p.listenAddress)];
    AcceptAppends(p, s, s.(accept := AcceptServing, calls := s.calls + calls, log := s.log + lines), calls, lines);
  }

  lemma ListenStartsKeepsInv(p: Params, s: State, bindError: Option<Error>)
    requires Inv(p, s)
    ensures Inv(p, Step(p, s, ListenStarts(bindError)))
  {
    if s.accept.AcceptPending? && |p.listenAddress| > 0 {
      if bindError.Some? {
        BindFailsKeepsInv(p, s, bindError.value);
        assert Step(p, s, ListenStarts(bindError))
          == s.(accept := AcceptEnded(BindFailed(bindError.value)), calls := s.calls + [Bind(p.softContext, p.listenConfig, "tcp", p.listenAddress)], log := s.log + [ListeningOn(p.listenAddress), UnableToListen(bindError.value)]);
      } else {
        BindSucceedsKeepsInv(p, s);
        assert Step(p, s, ListenStarts(bindError))
          == s.(accept := AcceptServing, calls := s.calls + [Bind(p.softContext, p.listenConfig, "tcp", p.listenAddress), Serve(Decorated(p))], log := s.log + [ListeningOn(p.listenAddress)]);
      }
    }
  }

  lemma ServeReturnsKeepsInv(p: Params, s: State, serveError: Option<Error>)
    requires Inv(p, s)
    ensures Inv(p, Step(p, s, ServeReturns(serveError)))
  {
    if s.accept.AcceptServing? {
      LinesOfOne(ServeOutcome(serveError), AcceptTask);
      LinesOfOne(ServeOutcome(serveError), WatchTask);
      var t := s.(accept := AcceptEnded(ServeEnded(serveError)), log := s.log + [ServeOutcome(serveError)]);
      assert t.calls == s.calls + [];
      assert AcceptCalls(p, t.accept) == AcceptCalls(p, s.accept) + [];
      assert AcceptLines(p, t.accept) == AcceptLines(p, s.accept) + [ServeOutcome(serveError)];
      AcceptAppends(p, s, t, [], [ServeOutcome(serveError)]);
    }
  }

  lemma SoftSignalledKeepsInv(p: Params, s: State)
    requires Inv(p, s)
    ensures Inv(p, Step(p, s, SoftSignalled))
  {
    if s.watch.WatchPending? && SoftDone(s) {
      CallsOfOne(Shutdown(p.shutdownTimeout), AcceptTask);
      CallsOfOne(Shutdown(p.shutdownTimeout), WatchTask);
      LinesOfOne(ShuttingDown, AcceptTask);
      LinesOfOne(ShuttingDown, WatchTask);
      var t := s.(watch := WatchShuttingDown, log := s.log + [ShuttingDown], calls := s.calls + [Shutdown(p.shutdownTimeout)]);
      assert WatchCalls(p, t.watch) == WatchCalls(p, s.watch) + [Shutdown(p.shutdownTimeout)];
      assert WatchLines(p, t.watch) == WatchLines(p, s.watch) + [ShuttingDown];
      WatcherAppends(p, s, t, [Shutdown(p.shutdownTimeout)], [ShuttingDown]);
    }
  }

  /** The traces of a clean shutdown: the hard signal and the completion line, both of the watcher. */
  lemma ShutdownCleanTraces(p: Params)
    ensures var calls := [HardShutdown(p.hardShutdown)];
      var lines := [ShutdownComplete];
      && CallsOf(calls, WatchTask) == calls && CallsOf(calls, AcceptTask) == []
      && LinesOf(lines, WatchTask) == lines && LinesOf(lines, AcceptTask) == []
      && WatchCalls(p, WatchEnded(None)) == WatchCalls(p, WatchShuttingDown) + calls
      && WatchLines(p, WatchEnded(None)) == WatchLines(p, WatchShuttingDown) + lines
  {
    CallsOfOne(HardShutdown(p.hardShutdown), AcceptTask);
    CallsOfOne(HardShutdown(p.hardShutdown), WatchTask);
    LinesOfOne(ShutdownComplete, AcceptTask);
    LinesOfOne(ShutdownComplete, WatchTask);
  }

  lemma ShutdownCleanKeepsInv(p: Params, s: State)
    requires Inv(p, s) && s.watch.WatchShuttingDown?
    ensures Inv(p, s.(hard := true, watch := WatchEnded(None), calls := s.calls + [HardShutdown(p.hardShutdown)], log := s.log + [ShutdownComplete]))
  {
    ShutdownCleanTraces(p);
    var calls := [HardShutdown(p.hardShutdown)];
    var lines := [ShutdownComplete];
    WatcherAppends(p, s, s.(hard := true, watch := WatchEnded(None), calls := s.calls + calls, log := s.log + lines), calls, lines);
  }

  /** The traces of a failed shutdown: the hard signal, the forced wait and the in-flight line, all of the watcher. */
  lemma ShutdownFailedTraces(p: Params, err: Error)
    ensures var calls := [HardShutdown(p.hardShutdown), ForcedWait(p.forcedTimeout)];
      var lines := [InFlight(p.forcedTimeout)];
      && CallsOf(calls, WatchTask) == calls && CallsOf(calls, AcceptTask) == []
      && LinesOf(lines, WatchTask) == lines && LinesOf(lines, AcceptTask) == []
      && WatchCalls(p, WatchDraining(err)) == WatchCalls(p, WatchShuttingDown) + calls
      && WatchLines(p, WatchDraining(err)) == WatchLines(p, WatchShuttingDown) + lines
  {
    var hard := HardShutdown(p.hardShutdown);
    var wait := ForcedWait(p.forcedTimeout);
    CallsOfTwo(hard, wait, AcceptTask);
    CallsOfTwo(hard, wait, WatchTask);
    CallsOfOne(hard, AcceptTask);
    CallsOfOne(hard, WatchTask);
    CallsOfOne(wait, AcceptTask);
    CallsOfOne(wait, WatchTask);
    LinesOfOne(InFlight(p.forcedTimeout), AcceptTask);
    LinesOfOne(InFlight(p.forcedTimeout), WatchTask);
  }

  lemma ShutdownFailedKeepsInv(p: Params, s: State, err: Error)
    requires Inv(p, s) && s.watch.WatchShuttingDown?
    ensures Inv(p, s.(hard := true, watch := WatchDraining(err), calls := s.calls + [HardShutdown(p.hardShutdown), ForcedWait(p.forcedTimeout)], log := s.log + [InFlight(p.forcedTimeout)]))
  {
    ShutdownFailedTraces(p, err);
    var calls := [HardShutdown(p.hardShutdown), ForcedWait(p.forcedTimeout)];
    var lines := [InFlight(p.forcedTimeout)];
    WatcherAppends(p, s, s.(hard := true, watch := WatchDraining(err), calls := s.calls + calls, log := s.log + lines), calls, lines);
  }

  lemma ShutdownReturnsKeepsInv(p: Params, s: State, shutdownError: Option<Error>)
    requires Inv(p, s)
    ensures Inv(p, Step(p, s, ShutdownReturns(shutdownError)))
  {
    if s.watch.WatchShuttingDown? {
      if shutdownError.None? {
        ShutdownCleanKeepsInv(p, s);
        assert Step(p, s, ShutdownReturns(shutdownError))
          == s.(hard := true, watch := WatchEnded(None), calls := s.calls + [HardShutdown(p.hardShutdown)], log := s.log + [ShutdownComplete]);
      } else {
        ShutdownFailedKeepsInv(p, s, shutdownError.value);
        assert Step(p, s, ShutdownReturns(shutdownError))
          == s.(hard := true, watch := WatchDraining(shutdownError.value), calls := s.calls + [HardShutdown(p.hardShutdown), ForcedWait(p.forcedTimeout)], log := s.log + [InFlight(p.forcedTimeout)]);
      }
    }
  }

  lemma ForcedTimeoutKeepsInv(p: Params, s: State)
    requires Inv(p, s)
    ensures Inv(p, Step(p, s, ForcedTimeoutElapsed))
  {
    if s.watch.WatchDraining? {
      LinesOfOne(ShutdownComplete, AcceptTask);
      LinesOfOne(ShutdownComplete, WatchTask);
      var t := s.(watch := WatchEnded(Some(s.watch.err)), log := s.log + [ShutdownComplete]);
      assert t.calls == s.calls + [];
      assert WatchCalls(p, t.watch) == WatchCalls(p, s.watch) + [];
      assert WatchLines(p, t.watch) == WatchLines(p, s.watch) + [ShutdownComplete];
      WatcherAppends(p, s, t, [], [ShutdownComplete]);
    }
  }

  /** Every event keeps the invariant. */
  lemma StepKeepsInv(p: Params, s: State, e: Event)
    requires Inv(p, s)
    ensures Inv(p, Step(p, s, e))
  {
    match e
    case CloseCalled =>
    case ParentCancelled =>
    case ListenStarts(bindError) => ListenStartsKeepsInv(p, s, bindError);
    case ServeReturns(serveError) => ServeReturnsKeepsInv(p, s, serveError);
    case SoftSignalled => SoftSignalledKeepsInv(p, s);
    case ShutdownReturns(shutdownError) => ShutdownReturnsKeepsInv(p, s, shutdownError);
    case ForcedTimeoutElapsed => ForcedTimeoutKeepsInv(p, s);
  }

  /** Every schedule keeps the invariant. */
  lemma {:induction false} RunKeepsInv(p: Params, s: State, es: seq<Event>)
    requires Inv(p, s)
    ensures Inv(p, Run(p, s, es))
    decreases |es|
  {
    if |es| > 0 {
      StepKeepsInv(p, s, es[0]);
      RunKeepsInv(p, Step(p, s, es[0]), es[1..]);
    }
  }

  /** The state after a schedule started from a fresh server. */
  function Reached(p: Params, es: seq<Event>): State
  {
    Run(p, Initial(), es)
  }

  /**
    The accept task, over any schedule: with no address it neither binds nor
    logs; otherwise it binds once, on the soft context, "tcp" and the
    configured address (never the parsed listen network); after a failed bind it never serves and logs
    one warning; when it serves, it serves the decorated listener once.
   */
  lemma AcceptTaskTrace(p: Params, es: seq<Event>)
    ensures var s := Reached(p, es);
      && (|p.listenAddress| == 0 ==> CallsOf(s.calls, AcceptTask) == [] && LinesOf(s.log, AcceptTask) == [])
      && (forall c :: c in CallsOf(s.calls, AcceptTask) && c.Bind? ==>
            c == Bind(p.softContext, p.listenConfig, "tcp", p.listenAddress))
      && (s.accept.AcceptEnded? && s.accept.end.BindFailed? ==>
            && CallsOf(s.calls, AcceptTask) == [Bind(p.softContext, p.listenConfig, "tcp", p.listenAddress)]
            && LinesOf(s.log, AcceptTask) == [ListeningOn(p.listenAddress), UnableToListen(s.accept.end.err)])
      && (forall c :: c in CallsOf(s.calls, AcceptTask) && c.Serve? ==> c == Serve(Decorated(p)))
  {
    InitialInv(p);
    RunKeepsInv(p, Initial(), es);
  }

  /**
    The watcher, over any schedule: it has called `Shutdown` only once the soft
    context is done, and at most once; once it has returned, it called
    `Shutdown`, then fired the hard signal, then waited the forced timeout
    exactly when `Shutdown` returned an error, and logged "shutdown complete"
    on both paths.
   */
  lemma WatcherTrace(p: Params, es: seq<Event>)
    ensures var s := Reached(p, es);
      && (CallsOf(s.calls, WatchTask) != [] ==>
            SoftDone(s) && CallsOf(s.calls, WatchTask)[0] == Shutdown(p.shutdownTimeout)
            && forall i :: 0 < i < |CallsOf(s.calls, WatchTask)| ==> !CallsOf(s.calls, WatchTask)[i].Shutdown?)
      && (s.watch.WatchEnded? ==>
            && s.hard
            && CallsOf(s.calls, WatchTask)
               == [Shutdown(p.shutdownTimeout), HardShutdown(p.hardShutdown)]
                  + (if s.watch.shutdownError.Some? then [ForcedWait(p.forcedTimeout)] else [])
            && LinesOf(s.log, WatchTask)
               == [ShuttingDown] + (if s.watch.shutdownError.Some? then [InFlight(p.forcedTimeout)] else []) + [ShutdownComplete])
  {
    InitialInv(p);
    RunKeepsInv(p, Initial(), es);
  }

  /** The watcher cannot leave its first wait before the soft context is done. */
  lemma ShutdownWaitsForSoft(p: Params, s: State)
    requires !SoftDone(s)
    ensures Step(p, s, SoftSignalled) == s
  {
  }

  /** Cancelling the caller's context alone is enough for the watcher to call `Shutdown`: `Close` is not needed. */
  lemma ParentCancelSuffices(p: Params)
    ensures var s := Reached(p, [ParentCancelled, SoftSignalled]);
      !s.soft && s.watch.WatchShuttingDown? && s.calls == [Shutdown(p.shutdownTimeout)]
  {
    assert [ParentCancelled, SoftSignalled][1..] == [SoftSignalled];
  }

  /** What `Serve` returned decides the line: nil and `http.ErrServerClosed` itself are informational, anything else is a warning carrying it. */
  lemma ServeOutcomeClassified(result: Option<Error>)
    ensures !IsWarning(ServeOutcome(result)) <==> result.None? || result.value.id == ServerClosedId
    ensures IsWarning(ServeOutcome(result)) ==> ServeOutcome(result) == UnableToListen(result.value)
    ensures !IsWarning(ServeOutcome(result)) ==> ServeOutcome(result) == ServeConcluded
  {
  }

  /** `==` is not `errors.Is`: an `http.ErrServerClosed` wrapped with `%w` is logged as a warning. */
  lemma WrappedServerClosedWarns(id: ErrorId, prefix: string)
    requires id != ServerClosedId
    ensures Is(Errorf(id, prefix, ServerClosed), ServerClosed)
    ensures IsWarning(ServeOutcome(Some(Errorf(id, prefix, ServerClosed))))
  {
  }

  /** `Close` only fires the soft signal, and a second call changes nothing. */
  lemma CloseIdempotent(p: Params, s: State)
    ensures Step(p, s, CloseCalled) == s.(soft := true)
    ensures Step(p, Step(p, s, CloseCalled), CloseCalled) == Step(p, s, CloseCalled)
  {
  }

  lemma {:induction false} RunAppend(p: Params, s: State, a: seq<Event>, b: seq<Event>)
    ensures Run(p, s, a + b) == Run(p, Run(p, s, a), b)
    decreases |a|
  {
    if |a| == 0 {
      assert a + b == b;
    } else {
      assert (a + b)[0] == a[0];
      assert (a + b)[1..] == a[1..] + b;
      RunAppend(p, Step(p, s, a[0]), a[1..], b);
    }
  }

  lemma RunOne(p: Params, s: State, e: Event)
    ensures Run(p, s, [e]) == Step(p, s, e)
  {
    assert [e][1..] == [];
  }

  lemma RunTwo(p: Params, s: State, e: Event, f: Event)
    ensures Run(p, s, [e, f]) == Step(p, Step(p, s, e), f)
  {
    assert [e, f][1..] == [f];
    RunOne(p, Step(p, s, e), f);
  }

  lemma RunThree(p: Params, s: State, e: Event, f: Event, g: Event)
    ensures Run(p, s, [e, f, g]) == Step(p, Step(p, Step(p, s, e), f), g)
  {
    assert [e, f, g][1..] == [f, g];
    RunTwo(p, Step(p, s, e), f, g);
  }

  /** The events that finish the accept task from where it is, given what the bind and `Serve` report. */
  function AcceptCompletion(a: AcceptPhase, bindError: Option<Error>, serveError: Option<Error>): seq<Event>
  {
    match a
    case AcceptPending => [ListenStarts(bindError), ServeReturns(serveError)]
    case AcceptServing => [ServeReturns(serveError)]
    case AcceptEnded(_) => []
  }

  /** The events that finish the watcher from where it is, given what `Shutdown` reports. */
  function WatchCompletion(w: WatchPhase, shutdownError: Option<Error>): seq<Event>
  {
    match w
    case WatchPending => [SoftSignalled, ShutdownReturns(shutdownError), ForcedTimeoutElapsed]
    case WatchShuttingDown => [ShutdownReturns(shutdownError), ForcedTimeoutElapsed]
    case WatchDraining(_) => [ForcedTimeoutElapsed]
    case WatchEnded(_) => []
  }

  lemma AcceptCompletes(p: Params, s: State, bindError: Option<Error>, serveError: Option<Error>)
    ensures var r := Run(p, s, AcceptCompletion(s.accept, bindError, serveError));
      r.accept.AcceptEnded? && r.watch == s.watch && (SoftDone(s) ==> SoftDone(r))
  {
    match s.accept
    case AcceptPending =>
      RunTwo(p, s, ListenStarts(bindError), ServeReturns(serveError));
    case AcceptServing =>
      RunOne(p, s, ServeReturns(serveError));
    case AcceptEnded(_) =>
  }

  lemma WatchCompletes(p: Params, s: State, shutdownError: Option<Error>)
    requires SoftDone(s)
    ensures var r := Run(p, s, WatchCompletion(s.watch, shutdownError));
      r.watch.WatchEnded? && r.accept == s.accept
  {
    match s.watch
    case WatchPending =>
      RunThree(p, s, SoftSignalled, ShutdownReturns(shutdownError), ForcedTimeoutElapsed);
    case WatchShuttingDown =>
      RunTwo(p, s, ShutdownReturns(shutdownError), ForcedTimeoutElapsed);
    case WatchDraining(_) =>
      RunOne(p, s, ForcedTimeoutElapsed);
    case WatchEnded(_) =>
  }

  /**
    `Close` makes `Listen` return: whatever the two tasks have done so far and
    whatever the collaborators report, after `Close` at most five more events
    (two of the accept task, three of the watcher) finish both tasks.
   */
  lemma CloseFinishes(p: Params, s: State, bindError: Option<Error>, serveError: Option<Error>, shutdownError: Option<Error>)
    ensures var closed := Step(p, s, CloseCalled);
      var rest := AcceptCompletion(closed.accept, bindError, serveError) + WatchCompletion(closed.watch, shutdownError);
      |rest| <= 5 && Finished(Run(p, closed, rest))
  {
    var closed := Step(p, s, CloseCalled);
    var a := AcceptCompletion(closed.accept, bindError, serveError);
    var w := WatchCompletion(closed.watch, shutdownError);
    RunAppend(p, closed, a, w);
    AcceptCompletes(p, closed, bindError, serveError);
    var mid := Run(p, closed, a);
    WatchCompletes(p, mid, shutdownError);
    AcceptStaysEnded(p, mid, w);
  }

  /** A task that has returned stays returned. */
  lemma {:induction false} AcceptStaysEnded(p: Params, s: State, es: seq<Event>)
    requires s.accept.AcceptEnded?
    ensures Run(p, s, es).accept == s.accept
    decreases |es|
  {
    if |es| > 0 {
      AcceptStaysEnded(p, Step(p, s, es[0]), es[1..]);
    }
  }

  /**
    A `defaultServer`: the fields `newServer` copies from the configuration,
    which never change, and the state the two tasks and `Close` change.
   */
  class DefaultServer {
    const params: Params
    var soft: bool
    var hard: bool
    var accept: AcceptPhase
    var watch: WatchPhase
    var calls: seq<Call>
    var log: seq<Line>

    function Current(): State
      reads this
    {
      State(soft, hard, accept, watch, calls, log)
    }

    /** `newServer(config)` */
    constructor (config: Config)
      ensures params == ParamsOf(config) && Current() == Initial()
    {
      params := ParamsOf(config);
      soft, hard := false, false;
      accept, watch := AcceptPending, WatchPending;
      calls, log := [], [];
    }

    /** `Close`: fires the soft signal and reports no error. */
    method Close() returns (err: Option<Error>)
      modifies this
      ensures err == None
      ensures Current() == Step(params, old(Current()), CloseCalled)
    {
      soft := true;
      return None;
    }

    /** The caller cancels the context the configuration holds: the hard signal fires, and with it the soft one. */
    method CancelParent()
      modifies this
      ensures Current() == Step(params, old(Current()), ParentCancelled)
    {
      hard := true;
    }

    /** `newListener`: the bind on "tcp" and the configured address, then the adapter, then TLS. */
    method NewListener(bindError: Option<Error>) returns (r: Result<Listener, Error>)
      modifies this
      ensures calls == old(calls) + [Bind(params.softContext, params.listenConfig, "tcp", params.listenAddress)]
      ensures soft == old(soft) && hard == old(hard) && accept == old(accept) && watch == old(watch) && log == old(log)
      ensures r.Failure? <==> bindError.Some?
      ensures r.Failure? ==> r.error == bindError.value
      ensures r.Success? ==> r.value == Decorated(params)
    {
      calls := calls + [Bind(params.softContext, params.listenConfig, "tcp", params.listenAddress)];
      if bindError.Some? {
        return Failure(bindError.value);
      }
      var listener := RawListener("tcp", params.listenAddress);
      if params.listenAdapter.Some? {
        listener := AdaptedListener(params.listenAdapter.value, listener);
      }
      if params.tlsConfig.Some? {
        listener := TlsListener(params.tlsConfig.value, listener);
      }
      return Success(listener);
    }

    /** `listen` up to the call of `Serve`, which blocks; or to its end when there is no address or the bind fails. */
    method Listen(bindError: Option<Error>)
      requires accept.AcceptPending?
      modifies this
      ensures Current() == Step(params, old(Current()), ListenStarts(bindError))
    {
      if |params.listenAddress| == 0 {
        accept := AcceptEnded(NoAddress);
        return;
      }
      log := log + [ListeningOn(params.listenAddress)];
      var listener := NewListener(bindError);
      if listener.Failure? {
        log := log + [UnableToListen(listener.error)];
        accept := AcceptEnded(BindFailed(listener.error));
      } else {
        calls := calls + [Serve(listener.value)];
        accept := AcceptServing;
      }
    }

    /** The rest of `listen` once `Serve` returns: the line for its result. */
    method ServeReturned(serveError: Option<Error>)
      requires accept.AcceptServing?
      modifies this
      ensures Current() == Step(params, old(Current()), ServeReturns(serveError))
    {
      if serveError.None? || serveError.value.id == ServerClosedId {
        log := log + [ServeConcluded];
      } else {
        log := log + [UnableToListen(serveError.value)];
      }
      accept := AcceptEnded(ServeEnded(serveError));
    }

    /** `watchShutdown` once the soft context is done: the line, then the call of `Shutdown`, which blocks. */
    method WatchShutdown()
      requires watch.WatchPending? && (soft || hard)
      modifies this
      ensures Current() == Step(params, old(Current()), SoftSignalled)
    {
      log := log + [ShuttingDown];
      calls := calls + [Shutdown(params.shutdownTimeout)];
      watch := WatchShuttingDown;
    }

    /** The deferred part of `watchShutdown` once `Shutdown` returns: the hard signal, then `awaitOutstandingRequests`. */
    method ShutdownReturned(shutdownError: Option<Error>)
      requires watch.WatchShuttingDown?
      modifies this
      ensures Current() == Step(params, old(Current()), ShutdownReturns(shutdownError))
    {
      calls := calls + [HardShutdown(params.hardShutdown)];
      hard := true;
      AwaitOutstandingRequests(shutdownError);
    }

    /**
      `awaitOutstandingRequests` up to its wait: with no error, straight to the
      deferred completion line; otherwise the in-flight line and the forced wait.
     */
    method AwaitOutstandingRequests(err: Option<Error>)
      requires watch.WatchShuttingDown?
      modifies this
      ensures soft == old(soft) && hard == old(hard) && accept == old(accept)
      ensures err.None? ==> watch == WatchEnded(None) && calls == old(calls) && log == old(log) + [ShutdownComplete]
      ensures err.Some? ==>
        && watch == WatchDraining(err.value)
        && calls == old(calls) + [ForcedWait(params.forcedTimeout)]
        && log == old(log) + [InFlight(params.forcedTimeout)]
    {
      if err.None? {
        log := log + [ShutdownComplete];
        watch := WatchEnded(None);
        return;
      }
      log := log + [InFlight(params.forcedTimeout)];
      calls := calls + [ForcedWait(params.forcedTimeout)];
      watch := WatchDraining(err.value);
    }

    /** The forced wait ends; the deferred completion line follows. */
    method ForcedWaitElapsed()
      requires watch.WatchDraining?
      modifies this
      ensures Current() == Step(params, old(Current()), ForcedTimeoutElapsed)
    {
      log := log + [ShutdownComplete];
      watch := WatchEnded(Some(watch.err));
    }
  }

  /** `New`: a zero configuration, `apply` with the caller's options, then `newServer`. */
  method New(options: seq<Setting>, parse: UrlParser, zero: Config) returns (server: DefaultServer)
    requires zero.httpServer.None?
    ensures fresh(server)
    ensures server.params == ParamsOf(Assemble(zero, options, parse)) && server.Current() == Initial()
  {
    var config := new Configuration(zero);
    config.Apply(options, parse);
    server := new DefaultServer(config.value);
  }
}

