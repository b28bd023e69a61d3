/** The progressive binders of src/utils.ts: `applyTraceId` pre-fills the trace id of
    all five entry points, and `applyFunctionName` then pre-fills the function name of
    the four standard ones. A bound view is held as the logger it wraps and the values
    it has fixed; each of its entry points yields the call the wrapped logger makes. */
module Binding {
  import opened Js
  import opened Utils
  import opened Logging

  /** `ILoggerWithTraceId`: `traceId` is the view's attribute, `boundTraceId` the
      argument every entry point receives first. */
  datatype TraceBoundLogger = TraceBoundLogger(logger: Logger, boundTraceId: Option<string>, traceId: string)
  {
    function Debug(functionName: string, message: string): Event
    {
      logger.Debug(boundTraceId, functionName, message)
    }

    function Warn(functionName: string, message: string): Event
    {
      logger.Warn(boundTraceId, functionName, message)
    }

    function Info(functionName: string, message: string): Event
    {
      logger.Info(boundTraceId, functionName, message)
    }

    function Error(functionName: string, message: string, error: ErrorValue): Event
    {
      logger.Error(boundTraceId, functionName, message, error)
    }

    function Audit(user: string, displayName: string, message: string, data: Data): Event
    {
      logger.Audit(boundTraceId, user, displayName, message, data)
    }
  }

  /** `ILoggerWithTraceIdAndFunctionName`: no audit entry point. */
  datatype FunctionBoundLogger = FunctionBoundLogger(view: TraceBoundLogger, functionName: string, traceId: string)
  {
    function Debug(message: string): Event
    {
      view.Debug(functionName, message)
    }

    function Warn(message: string): Event
    {
      view.Warn(functionName, message)
    }

    function Info(message: string): Event
    {
      view.Info(functionName, message)
    }

    function Error(message: string, error: ErrorValue): Event
    {
      view.Error(functionName, message, error)
    }
  }

  /** `applyTraceId(traceId, logger)`: every entry point receives `traceId` exactly as
      given; only the `traceId` attribute falls back to the Nil UUID when it is falsy. */
  function ApplyTraceId(traceId: Option<string>, logger: Logger): (v: TraceBoundLogger)
    ensures v.logger == logger
    ensures Truthy(traceId) ==> v.traceId == traceId.value
    ensures !Truthy(traceId) ==> v.traceId == NilUuid
    ensures forall f, m :: v.Debug(f, m) == logger.Debug(traceId, f, m)
    ensures forall f, m :: v.Warn(f, m) == logger.Warn(traceId, f, m)
    ensures forall f, m :: v.Info(f, m) == logger.Info(traceId, f, m)
    ensures forall f, m, err :: v.Error(f, m, err) == logger.Error(traceId, f, m, err)
    ensures forall u, d, m, x :: v.Audit(u, d, m, x) == logger.Audit(traceId, u, d, m, x)
  {
    TraceBoundLogger(logger, traceId, Or(traceId, DefaultUUID()))
  }

  /** `applyFunctionName(functionName, view)`: the four standard entry points receive
      `functionName` after the view's trace id; the trace id attribute is carried over. */
  function ApplyFunctionName(functionName: string, view: TraceBoundLogger): (w: FunctionBoundLogger)
    ensures w.traceId == view.traceId && w.functionName == functionName
    ensures forall m :: w.Debug(m) == view.Debug(functionName, m)
    ensures forall m :: w.Warn(m) == view.Warn(functionName, m)
    ensures forall m :: w.Info(m) == view.Info(functionName, m)
    ensures forall m, err :: w.Error(m, err) == view.Error(functionName, m, err)
  {
    FunctionBoundLogger(view, functionName, view.traceId)
  }

  /** Binding the trace id and then the function name, then calling with the message,
      makes the same call, and so writes the same lines, as the full call. */
  lemma Composition(logger: Logger, traceId: Option<string>, functionName: string, message: string,
                    error: ErrorValue, timestamp: string)
    ensures var w := ApplyFunctionName(functionName, ApplyTraceId(traceId, logger));
      && w.Debug(message) == logger.Debug(traceId, functionName, message)
      && w.Warn(message) == logger.Warn(traceId, functionName, message)
      && w.Info(message) == logger.Info(traceId, functionName, message)
      && w.Error(message, error) == logger.Error(traceId, functionName, message, error)
      && Emit(logger, timestamp, w.Info(message)) == Emit(logger, timestamp, logger.Info(traceId, functionName, message))
      && Emit(logger, timestamp, w.Error(message, error))
           == Emit(logger, timestamp, logger.Error(traceId, functionName, message, error))
  {
  }

  /** The trace id a bound view exposes is the one every line written through it
      prints, whichever of the four standard entry points is called: the bound value
      when truthy, the Nil UUID otherwise. */
  lemma ExposedTraceIdIsPrinted(logger: Logger, traceId: Option<string>, functionName: string, message: string,
                                error: ErrorValue, timestamp: string, e: Event)
    requires var w := ApplyFunctionName(functionName, ApplyTraceId(traceId, logger));
      e == w.Debug(message) || e == w.Warn(message) || e == w.Info(message) || e == w.Error(message, error)
    requires PipeFree([timestamp, logger.defaultMeta.environment, logger.defaultMeta.hostname,
                       Coalesce(logger.defaultMeta.buildVersion, "0"), Or(traceId, NilUuid),
                       logger.defaultMeta.service, functionName,
                       FinalMessage(message, if e.level == Level.Error then Some(error) else None)])
    ensures var w := ApplyFunctionName(functionName, ApplyTraceId(traceId, logger));
      forall k :: 0 <= k < |Emit(logger, timestamp, e)| ==>
        |Split(Emit(logger, timestamp, e)[k], '|')| == 9 && Split(Emit(logger, timestamp, e)[k], '|')[4] == w.traceId
  {
    var w := ApplyFunctionName(functionName, ApplyTraceId(traceId, logger));
    if e == w.Debug(message) {
      assert e == Event(Level.Debug, message, FunctionMeta(traceId, functionName, None));
    } else if e == w.Warn(message) {
      assert e == Event(Level.Warn, message, FunctionMeta(traceId, functionName, None));
    } else if e == w.Info(message) {
      assert e == Event(Level.Info, message, FunctionMeta(traceId, functionName, None));
    } else {
      assert e == Event(Level.Error, message, FunctionMeta(traceId, functionName, Some(error)));
    }
    var err := if e.level == Level.Error then Some(error) else None;
    forall k | 0 <= k < |Emit(logger, timestamp, e)|
      ensures |Split(Emit(logger, timestamp, e)[k], '|')| == 9 && Split(Emit(logger, timestamp, e)[k], '|')[4] == w.traceId
    {
      EmittedLineTraceId(logger, timestamp, e.level, traceId, functionName, message, err, k);
    }
  }
}
