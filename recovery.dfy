/**
  The panic-recovery middleware of recovery_handler.go: it calls the inner
  handler and, when that handler panics, classifies the recovered value,
  reports it to the monitor and the logger unless it is an ignored error,
  and answers 500 either way.

  Go's `defer`/`recover()` becomes an explicit outcome of the inner handler
  (a normal return, or a panic carrying the recovered value), an input of
  ServeHTTP. The monitor, the logger and the response writer are one trace
  of effects in a Recorder; their order is the order of the calls.
 */
module Recovery {
  import opened Errors
  import opened Contracts

  /** The value `recover()` returns: an `error`, or some other value given by its `%v` rendering. */
  datatype Recovered = ErrorValue(err: Error) | OtherValue(rendering: string)

  /** How the inner handler's `ServeHTTP` ended. */
  datatype HandlerOutcome = Returned | Panicked(value: Recovered)

  /**
    An `http.Handler`: the no-op default, one supplied by a caller, or the
    recovery handler wrapped around another one, with the errors it ignores
    and the monitor and logger it reports to.
   */
  datatype Handler =
    | NopHandler
    | CallerHandler(id: nat)
    | RecoveryHandler(inner: Handler, ignored: seq<Error>, monitor: Monitor, logger: Logger)

  /** The three errors recovery_handler.go tests for: cancellation, deadline, concluded transaction. */
  const SentinelErrors: seq<Error> := [Canceled, DeadlineExceeded, TxDone]

  const StatusInternalServerError: int := 500
  /** `http.StatusText(http.StatusInternalServerError)` */
  const InternalServerErrorText: string := "Internal Server Error"
  const RecoveredPanicPrefix: string := "[ERROR] Recovered panic: "

  /** `errors.Is(e, t)` for some `t` among the targets, tried in order. */
  predicate MatchesAny(e: Error, targets: seq<Error>)
    decreases |targets|
  {
    |targets| > 0 && (Is(e, targets[0]) || MatchesAny(e, targets[1..]))
  }

  /** `isIgnoredError`: only an `error` can be ignored, and only when it is or wraps one of the ignored errors. */
  predicate IsIgnoredError(recovered: Recovered, ignored: seq<Error>)
  {
    recovered.ErrorValue? && MatchesAny(recovered.err, ignored)
  }

  /** A recovered error is ignored exactly when its unwrap chain holds the identity of an ignored error. */
  lemma {:induction false} IgnoredMeansOnChain(recovered: Recovered, ignored: seq<Error>)
    ensures IsIgnoredError(recovered, ignored) <==>
      recovered.ErrorValue? && exists i :: 0 <= i < |ignored| && ignored[i].id in Chain(recovered.err)
    decreases |ignored|
  {
    if recovered.ErrorValue? && |ignored| > 0 {
      IsMeansOnChain(recovered.err, ignored[0]);
      IgnoredMeansOnChain(recovered, ignored[1..]);
      if exists i :: 0 <= i < |ignored| && ignored[i].id in Chain(recovered.err) {
        var i :| 0 <= i < |ignored| && ignored[i].id in Chain(recovered.err);
        if i > 0 {
          assert ignored[1..][i - 1] == ignored[i];
        }
      }
    }
  }

  /**
    With the three sentinels (the list recovery_handler.go hard-codes), an error
    is ignored exactly when its unwrap chain holds Canceled, DeadlineExceeded or
    ErrTxDone, and a value that is not an error never is.
   */
  lemma SentinelClassification(recovered: Recovered)
    ensures IsIgnoredError(recovered, SentinelErrors) <==>
      recovered.ErrorValue? &&
      (CanceledId in Chain(recovered.err) || DeadlineExceededId in Chain(recovered.err) || TxDoneId in Chain(recovered.err))
  {
    IgnoredMeansOnChain(recovered, SentinelErrors);
    if recovered.ErrorValue? && CanceledId in Chain(recovered.err) {
      assert SentinelErrors[0].id in Chain(recovered.err);
    }
    if recovered.ErrorValue? && DeadlineExceededId in Chain(recovered.err) {
      assert SentinelErrors[1].id in Chain(recovered.err);
    }
    if recovered.ErrorValue? && TxDoneId in Chain(recovered.err) {
      assert SentinelErrors[2].id in Chain(recovered.err);
    }
  }

  /** A panic with a sentinel wrapped by `fmt.Errorf("inner: %w", ...)` is still ignored. */
  lemma WrappedSentinelIgnored(id: ErrorId, sentinel: Error)
    requires sentinel in SentinelErrors
    ensures IsIgnoredError(ErrorValue(Errorf(id, "inner: ", sentinel)), SentinelErrors)
  {
    SentinelClassification(ErrorValue(Errorf(id, "inner: ", sentinel)));
  }

  /** A panic with any value that is not an error is never ignored, whatever the ignored list. */
  lemma NonErrorNeverIgnored(rendering: string, ignored: seq<Error>)
    ensures !IsIgnoredError(OtherValue(rendering), ignored)
  {
  }

  /** The `%v` rendering of a recovered value: `Error()` of an error. */
  function Render(recovered: Recovered): string
  {
    match recovered
    case ErrorValue(e) => e.text
    case OtherValue(r) => r
  }

  /** The line `logRecovery` prints: the prefix, the value, a newline and the stack trace. */
  function RecoveryLine(recovered: Recovered, stack: string): string
  {
    RecoveredPanicPrefix + Render(recovered) + "\n" + stack
  }

  /** The logged line reads back as the prefix, the rendered value, a newline and the stack trace, in that order. */
  lemma RecoveryLineReadsBack(recovered: Recovered, stack: string)
    ensures var line := RecoveryLine(recovered, stack);
      var n := |RecoveredPanicPrefix| + |Render(recovered)|;
      && |line| == n + 1 + |stack|
      && line[..|RecoveredPanicPrefix|] == RecoveredPanicPrefix
      && line[|RecoveredPanicPrefix|..n] == Render(recovered)
      && line[n] == '\n'
      && line[n + 1..] == stack
  {
  }

  /** One call on a collaborator of the middleware. */
  datatype Effect =
    | InnerServed(handler: Handler, response: ResponseWriter, request: Request)
    | PanicReported(monitor: Monitor, request: Request, value: Recovered)
    | Logged(logger: Logger, line: string)
    | ErrorWritten(response: ResponseWriter, status: int, text: string)

  /** The instrumented collaborators: everything the middleware did to them, in order. */
  class Recorder {
    var effects: seq<Effect>

    constructor ()
      ensures effects == []
    {
      effects := [];
    }
  }

  /** Specification of one request through the recovery handler. */
  function Served(h: Handler, response: ResponseWriter, request: Request, outcome: HandlerOutcome, stack: string): seq<Effect>
    requires h.RecoveryHandler?
  {
    [InnerServed(h.inner, response, request)] +
    match outcome
    case Returned => []
    case Panicked(v) =>
      (if IsIgnoredError(v, h.ignored) then []
       else [PanicReported(h.monitor, request, v), Logged(h.logger, RecoveryLine(v, stack))]) +
      [ErrorWritten(response, StatusInternalServerError, InternalServerErrorText)]
  }

  /** `recoveryHandler.ServeHTTP`: calls the inner handler, then (deferred) `finally`. */
  method ServeHTTP(h: Handler, w: Recorder, response: ResponseWriter, request: Request, outcome: HandlerOutcome, stack: string)
    requires h.RecoveryHandler?
    modifies w
    ensures w.effects == old(w.effects) + Served(h, response, request, outcome, stack)
  {
    w.effects := w.effects + [InnerServed(h.inner, response, request)];
    Finally(h, w, response, request, outcome, stack);
  }

  /** `finally`: nothing when no panic was recovered; otherwise log the recovery and answer 500. */
  method Finally(h: Handler, w: Recorder, response: ResponseWriter, request: Request, outcome: HandlerOutcome, stack: string)
    requires h.RecoveryHandler?
    modifies w
    ensures outcome.Returned? ==> w.effects == old(w.effects)
    ensures outcome.Panicked? ==> (
      w.effects == old(w.effects) +
        (if IsIgnoredError(outcome.value, h.ignored) then []
         else [PanicReported(h.monitor, request, outcome.value), Logged(h.logger, RecoveryLine(outcome.value, stack))]) +
        [ErrorWritten(response, StatusInternalServerError, InternalServerErrorText)])
  {
    if outcome.Returned? {
      return;
    }
    LogRecovery(h, w, outcome.value, request, stack);
    InternalServerError(w, response);
  }

  /** `logRecovery`: an ignored value is dropped; any other goes to the monitor, then to the logger. */
  method LogRecovery(h: Handler, w: Recorder, recovered: Recovered, request: Request, stack: string)
    requires h.RecoveryHandler?
    modifies w
    ensures IsIgnoredError(recovered, h.ignored) ==> w.effects == old(w.effects)
    ensures !IsIgnoredError(recovered, h.ignored) ==>
      w.effects == old(w.effects) + [PanicReported(h.monitor, request, recovered), Logged(h.logger, RecoveryLine(recovered, stack))]
  {
    if IsIgnoredError(recovered, h.ignored) {
      return;
    }
    w.effects := w.effects + [PanicReported(h.monitor, request, recovered)];
    w.effects := w.effects + [Logged(h.logger, RecoveryLine(recovered, stack))];
  }

  /** `internalServerError`: `http.Error` with status 500 and its status text. */
  method InternalServerError(w: Recorder, response: ResponseWriter)
    modifies w
    ensures w.effects == old(w.effects) + [ErrorWritten(response, StatusInternalServerError, InternalServerErrorText)]
  {
    w.effects := w.effects + [ErrorWritten(response, StatusInternalServerError, InternalServerErrorText)];
  }

  /** Which collaborator an effect concerns. */
  datatype Collaborator = InnerHandler | MonitorCalls | LoggerCalls | ResponseWrites

  function CollaboratorOf(e: Effect): Collaborator
  {
    match e
    case InnerServed(_, _, _) => InnerHandler
    case PanicReported(_, _, _) => MonitorCalls
    case Logged(_, _) => LoggerCalls
    case ErrorWritten(_, _, _) => ResponseWrites
  }

  /** The calls made on one collaborator, in order. */
  function CallsOn(es: seq<Effect>, c: Collaborator): (r: seq<Effect>)
    ensures |r| <= |es|
    ensures forall i :: 0 <= i < |r| ==> CollaboratorOf(r[i]) == c
  {
    if es == [] then []
    else (if CollaboratorOf(es[0]) == c then [es[0]] else []) + CallsOn(es[1..], c)
  }

  /** An effect is among the calls on `c` exactly when it is in the trace and goes to `c`. */
  lemma {:induction false} CallsOnMembers(es: seq<Effect>, c: Collaborator)
    ensures forall e :: e in CallsOn(es, c) <==> e in es && CollaboratorOf(e) == c
  {
    if es != [] {
      CallsOnMembers(es[1..], c);
      assert es == [es[0]] + es[1..];
    }
  }

  lemma {:induction false} CallsOnAppend(a: seq<Effect>, b: seq<Effect>, c: Collaborator)
    ensures CallsOn(a + b, c) == CallsOn(a, c) + CallsOn(b, c)
  {
    if a == [] {
      assert a + b == b;
    } else {
      assert (a + b)[1..] == a[1..] + b;
      CallsOnAppend(a[1..], b, c);
    }
  }

  /** The inner handler is invoked exactly once, first, with the request's own response and request. */
  lemma InnerHandlerCalledOnce(h: Handler, response: ResponseWriter, request: Request, outcome: HandlerOutcome, stack: string)
    requires h.RecoveryHandler?
    ensures Served(h, response, request, outcome, stack)[0] == InnerServed(h.inner, response, request)
    ensures CallsOn(Served(h, response, request, outcome, stack), InnerHandler) == [InnerServed(h.inner, response, request)]
  {
    var tail := Served(h, response, request, outcome, stack)[1..];
    assert Served(h, response, request, outcome, stack) == [InnerServed(h.inner, response, request)] + tail;
    CallsOnAppend([InnerServed(h.inner, response, request)], tail, InnerHandler);
    if outcome.Panicked? && !IsIgnoredError(outcome.value, h.ignored) {
      assert CallsOn(tail, InnerHandler) == [] by {
        CallsOnAppend(tail[..1], tail[1..], InnerHandler);
        CallsOnAppend(tail[1..2], tail[2..], InnerHandler);
        assert tail[..1] + tail[1..] == tail;
        assert tail[1..2] + tail[2..] == tail[1..];
      }
    }
  }

  /** When the inner handler returns normally the middleware adds nothing: no monitor call, no log line, no write. */
  lemma NormalReturnIsTransparent(h: Handler, response: ResponseWriter, request: Request, stack: string)
    requires h.RecoveryHandler?
    ensures Served(h, response, request, Returned, stack) == [InnerServed(h.inner, response, request)]
    ensures CallsOn(Served(h, response, request, Returned, stack), MonitorCalls) == []
    ensures CallsOn(Served(h, response, request, Returned, stack), LoggerCalls) == []
    ensures CallsOn(Served(h, response, request, Returned, stack), ResponseWrites) == []
  {
  }

  /** Every recovered panic, ignored or not, ends with exactly one 500 "Internal Server Error" write. */
  lemma PanicAnswers500(h: Handler, response: ResponseWriter, request: Request, recovered: Recovered, stack: string)
    requires h.RecoveryHandler?
    ensures var es := Served(h, response, request, Panicked(recovered), stack);
      es[|es| - 1] == ErrorWritten(response, StatusInternalServerError, InternalServerErrorText) &&
      CallsOn(es, ResponseWrites) == [ErrorWritten(response, StatusInternalServerError, InternalServerErrorText)]
  {
    var write := ErrorWritten(response, StatusInternalServerError, InternalServerErrorText);
    var report := if IsIgnoredError(recovered, h.ignored) then []
      else [PanicReported(h.monitor, request, recovered), Logged(h.logger, RecoveryLine(recovered, stack))];
    var es := Served(h, response, request, Panicked(recovered), stack);
    assert es == [InnerServed(h.inner, response, request)] + report + [write];
    CallsOnAppend([InnerServed(h.inner, response, request)] + report, [write], ResponseWrites);
    CallsOnAppend([InnerServed(h.inner, response, request)], report, ResponseWrites);
    if report != [] {
      CallsOnAppend(report[..1], report[1..], ResponseWrites);
      assert report[..1] + report[1..] == report;
    }
  }

  /** An ignored panic reaches neither the monitor nor the logger. */
  lemma IgnoredPanicIsSilent(h: Handler, response: ResponseWriter, request: Request, recovered: Recovered, stack: string)
    requires h.RecoveryHandler? && IsIgnoredError(recovered, h.ignored)
    ensures CallsOn(Served(h, response, request, Panicked(recovered), stack), MonitorCalls) == []
    ensures CallsOn(Served(h, response, request, Panicked(recovered), stack), LoggerCalls) == []
  {
    var write := ErrorWritten(response, StatusInternalServerError, InternalServerErrorText);
    assert Served(h, response, request, Panicked(recovered), stack) == [InnerServed(h.inner, response, request)] + [write];
    CallsOnAppend([InnerServed(h.inner, response, request)], [write], MonitorCalls);
    CallsOnAppend([InnerServed(h.inner, response, request)], [write], LoggerCalls);
  }

  /**
    A reportable panic makes exactly one monitor call, with the original request
    and value, followed by exactly one log line that starts with the fixed prefix
    and the value, and then the 500 write.
   */
  lemma ReportablePanicIsReported(h: Handler, response: ResponseWriter, request: Request, recovered: Recovered, stack: string)
    requires h.RecoveryHandler? && !IsIgnoredError(recovered, h.ignored)
    ensures var es := Served(h, response, request, Panicked(recovered), stack);
      && CallsOn(es, MonitorCalls) == [PanicReported(h.monitor, request, recovered)]
      && CallsOn(es, LoggerCalls) == [Logged(h.logger, RecoveryLine(recovered, stack))]
      && es[1] == PanicReported(h.monitor, request, recovered)
      && es[2] == Logged(h.logger, RecoveryLine(recovered, stack))
      && RecoveredPanicPrefix + Render(recovered) <= RecoveryLine(recovered, stack)
  {
    var inner := InnerServed(h.inner, response, request);
    var report := PanicReported(h.monitor, request, recovered);
    var log := Logged(h.logger, RecoveryLine(recovered, stack));
    var write := ErrorWritten(response, StatusInternalServerError, InternalServerErrorText);
    var es := Served(h, response, request, Panicked(recovered), stack);
    assert es == [inner, report] + [log, write];
    CallsOnAppend([inner, report], [log, write], MonitorCalls);
    CallsOnAppend([inner, report], [log, write], LoggerCalls);
    var line := RecoveryLine(recovered, stack);
    assert line == (RecoveredPanicPrefix + Render(recovered)) + ("\n" + stack);
  }
}
