/**
 * The access-log interceptor wrapped around annotated API handlers: it picks
 * one trace id per call, logs a request record (login label, route, handler,
 * redacted arguments), runs the handler once, logs a response record with the
 * same trace id, and hands the handler's result back unchanged.
 */
module AccessLog {
  import opened Common

  /** The name of the request header that may carry a caller-chosen trace id. */
  const TraceIdHeader: string := "traceId"
  /** The login label used when no session user is attached to the request. */
  const NotLogin: string := "NOT LOGIN"

  /** The options of the access-log annotation on the wrapped handler. */
  datatype AccessLogConfig = AccessLogConfig(
    ignoreRequest: bool,
    ignoreResponse: bool,
    ignoreRequestArgs: seq<string>)

  /** The parts of the current HTTP request the interceptor reads. */
  datatype HttpRequest = HttpRequest(
    headers: map<string, string>,
    sessionUser: Option<User>,
    requestUri: string,
    httpMethod: string)

  /** The wrapped handler's signature: its class, its name and its parameter names. */
  datatype MethodSignature = MethodSignature(
    declaringTypeName: string,
    name: string,
    parameterNames: seq<string>)

  /** How the wrapped handler ends: with a value, or by throwing. */
  datatype Invocation<V> = Returned(value: V) | Threw(error: string)

  /** The argument summary: the whole ordered list, or a name-to-value map without the ignored names. */
  datatype ArgsSummary<V> = ArgList(args: seq<V>) | ArgMap(entries: map<string, V>)

  /** One emitted log line, with its positional fields. */
  datatype LogRecord<V> =
    | RequestRecord(traceId: string, loginUser: string, uri: string, httpMethod: string,
                    handler: string, args: ArgsSummary<V>)
    | ResponseRecord(traceId: string, body: V, durationMillis: int)

  /** The value of the trace-id header, when the request carries one. */
  function GetHeader(request: HttpRequest, name: string): Option<string>
  {
    if name in request.headers then Some(request.headers[name]) else None
  }

  /** A header is usable as a trace id when it is present and not the empty string. */
  predicate HasTraceIdHeader(request: HttpRequest)
  {
    TraceIdHeader in request.headers && request.headers[TraceIdHeader] != ""
  }

  /**
   * The trace id of one call: the request's trace-id header when request
   * logging is on, the request context is present and the header is
   * non-empty; the freshly generated id in every other case.
   */
  function TraceId(config: AccessLogConfig, request: Option<HttpRequest>, uuid: string): (t: string)
    ensures !config.ignoreRequest && request.Some? && HasTraceIdHeader(request.value) ==>
              t == request.value.headers[TraceIdHeader] && t != ""
    ensures !(!config.ignoreRequest && request.Some? && HasTraceIdHeader(request.value)) ==> t == uuid
  {
    if !config.ignoreRequest && request.Some? && HasTraceIdHeader(request.value)
    then request.value.headers[TraceIdHeader]
    else uuid
  }

  /** The login label: the session user's name, or the not-logged-in sentinel. */
  function ParseLoginInfo(request: HttpRequest): (userName: string)
    ensures request.sessionUser.None? ==> userName == NotLogin
    ensures request.sessionUser.Some? ==> userName == request.sessionUser.value.userName
  {
    match request.sessionUser
    case None => NotLogin
    case Some(loginUser) => loginUser.userName
  }

  /**
   * The name-to-value map built over the first `|names|` parameters, left to
   * right, leaving out every name in `ignore` (a later parameter of the same
   * name overwrites an earlier one, as a hash-map put does).
   */
  function RedactedArgs<V>(names: seq<string>, args: seq<V>, ignore: set<string>): map<string, V>
    requires |names| <= |args|
    decreases |names|
  {
    if |names| == 0 then map[]
    else
      var i := |names| - 1;
      var m := RedactedArgs(names[..i], args, ignore);
      if names[i] in ignore then m else m[names[i] := args[i]]
  }

  /** The keys of the redacted map are exactly the parameter names not in `ignore`. */
  lemma {:induction false} RedactedArgsKeys<V>(names: seq<string>, args: seq<V>, ignore: set<string>)
    requires |names| <= |args|
    ensures forall k :: k in RedactedArgs(names, args, ignore) <==> k in names && k !in ignore
    decreases |names|
  {
    if |names| > 0 {
      var i := |names| - 1;
      RedactedArgsKeys(names[..i], args, ignore);
      assert names == names[..i] + [names[i]];
      forall k ensures k in names <==> k in names[..i] || k == names[i] {
        assert k in names[..i] ==> k in names;
      }
    }
  }

  /** Each kept name maps to the argument at its own (last) position. */
  lemma {:induction false} RedactedArgsValues<V>(names: seq<string>, args: seq<V>, ignore: set<string>, j: int)
    requires |names| <= |args|
    requires 0 <= j < |names| && names[j] !in ignore
    requires forall l :: j < l < |names| ==> names[l] != names[j]
    ensures names[j] in RedactedArgs(names, args, ignore)
    ensures RedactedArgs(names, args, ignore)[names[j]] == args[j]
    decreases |names|
  {
    var i := |names| - 1;
    if j < i {
      RedactedArgsValues(names[..i], args, ignore, j);
    }
  }

  /** The argument summary the request record carries (the specification of `ParseArgs`). */
  function Summary<V>(names: seq<string>, args: seq<V>, ignoreRequestArgs: seq<string>): ArgsSummary<V>
    requires |ignoreRequestArgs| > 0 && |names| > 0 ==> |names| <= |args|
  {
    if |ignoreRequestArgs| > 0 && |names| > 0
    then ArgMap(RedactedArgs(names, args, set n | n in ignoreRequestArgs))
    else ArgList(args)
  }

  /**
   * Builds the argument summary. With no ignored names, or no parameter
   * names to go by, it is the full ordered argument list; otherwise a map
   * holding exactly the parameters whose names are not ignored, each bound to
   * the argument at the same position.
   */
  method ParseArgs<V>(names: seq<string>, args: seq<V>, ignoreRequestArgs: seq<string>)
    returns (argsString: ArgsSummary<V>)
    requires |ignoreRequestArgs| > 0 && |names| > 0 ==> |names| <= |args|
    ensures argsString == Summary(names, args, ignoreRequestArgs)
    ensures |ignoreRequestArgs| == 0 || |names| == 0 ==> argsString == ArgList(args)
    ensures |ignoreRequestArgs| > 0 && |names| > 0 ==>
              argsString.ArgMap? &&
              forall k :: k in argsString.entries <==> k in names && k !in ignoreRequestArgs
    ensures |ignoreRequestArgs| > 0 && |names| > 0 ==>
              forall j :: 0 <= j < |names| && names[j] !in ignoreRequestArgs && names[j] !in names[j + 1..] ==>
                argsString.ArgMap? && names[j] in argsString.entries && argsString.entries[names[j]] == args[j]
  {
    argsString := ArgList(args);
    if |ignoreRequestArgs| > 0 {
      if |names| > 0 {
        var ignoreSet := set n | n in ignoreRequestArgs;
        var argsMap: map<string, V> := map[];
        for i := 0 to |names|
          invariant argsMap == RedactedArgs(names[..i], args, ignoreSet)
        {
          assert names[..i + 1][..i] == names[..i];
          if names[i] !in ignoreSet {
            argsMap := argsMap[names[i] := args[i]];
          }
        }
        assert names[..|names|] == names;
        argsString := ArgMap(argsMap);
        RedactedArgsKeys(names, args, ignoreSet);
        forall j | 0 <= j < |names| && names[j] !in ignoreRequestArgs && names[j] !in names[j + 1..]
          ensures names[j] in argsMap && argsMap[names[j]] == args[j]
        {
          forall l | j < l < |names| ensures names[l] != names[j] {
            assert names[l] == names[j + 1..][l - j - 1];
          }
          RedactedArgsValues(names, args, ignoreSet, j);
        }
      }
    }
  }

  /** The request record of one call, if request logging is on and a request context exists. */
  function RequestRecords<V>(config: AccessLogConfig, request: Option<HttpRequest>, signature: MethodSignature,
                             args: seq<V>, uuid: string): seq<LogRecord<V>>
    requires |config.ignoreRequestArgs| > 0 && |signature.parameterNames| > 0 ==>
               |signature.parameterNames| <= |args|
  {
    if config.ignoreRequest || request.None? then []
    else
      var req := request.value;
      [RequestRecord(TraceId(config, request, uuid), ParseLoginInfo(req), req.requestUri, req.httpMethod,
                     signature.declaringTypeName + "." + signature.name,
                     Summary(signature.parameterNames, args, config.ignoreRequestArgs))]
  }

  /** The response record of one call, if response logging is on and the handler returned. */
  function ResponseRecords<V>(config: AccessLogConfig, traceId: string, outcome: Invocation<V>,
                              durationMillis: int): seq<LogRecord<V>>
  {
    if config.ignoreResponse || outcome.Threw? then []
    else [ResponseRecord(traceId, outcome.value, durationMillis)]
  }

  /** Everything one intercepted call logs, in order. */
  function AccessRecords<V>(config: AccessLogConfig, request: Option<HttpRequest>, signature: MethodSignature,
                            args: seq<V>, outcome: Invocation<V>, uuid: string, durationMillis: int)
    : seq<LogRecord<V>>
    requires |config.ignoreRequestArgs| > 0 && |signature.parameterNames| > 0 ==>
               |signature.parameterNames| <= |args|
  {
    RequestRecords(config, request, signature, args, uuid)
      + ResponseRecords(config, TraceId(config, request, uuid), outcome, durationMillis)
  }

  /**
   * The records of one call: a request record exactly when request logging is
   * on and a request context exists, then a response record exactly when
   * response logging is on and the handler returned; every record carries
   * the call's one trace id, and the response carries the returned value.
   */
  lemma AccessRecordsShape<V>(config: AccessLogConfig, request: Option<HttpRequest>, signature: MethodSignature,
                              args: seq<V>, outcome: Invocation<V>, uuid: string, durationMillis: int)
    requires |config.ignoreRequestArgs| > 0 && |signature.parameterNames| > 0 ==>
               |signature.parameterNames| <= |args|
    ensures var rs := AccessRecords(config, request, signature, args, outcome, uuid, durationMillis);
            var logsRequest := !config.ignoreRequest && request.Some?;
            var logsResponse := !config.ignoreResponse && outcome.Returned?;
            && |rs| == (if logsRequest then 1 else 0) + (if logsResponse then 1 else 0)
            && (logsRequest ==> rs[0].RequestRecord? &&
                                rs[0].loginUser == ParseLoginInfo(request.value) &&
                                rs[0].args == Summary(signature.parameterNames, args, config.ignoreRequestArgs))
            && (logsResponse ==> rs[|rs| - 1].ResponseRecord? && rs[|rs| - 1].body == outcome.value &&
                                 rs[|rs| - 1].durationMillis == durationMillis)
            && (forall i :: 0 <= i < |rs| ==> rs[i].traceId == TraceId(config, request, uuid))
  {
  }

  /** When both records are emitted, the response's trace id is the request's. */
  lemma ResponseSharesTraceId<V>(config: AccessLogConfig, request: Option<HttpRequest>, signature: MethodSignature,
                                 args: seq<V>, outcome: Invocation<V>, uuid: string, durationMillis: int)
    requires |config.ignoreRequestArgs| > 0 && |signature.parameterNames| > 0 ==>
               |signature.parameterNames| <= |args|
    requires !config.ignoreRequest && request.Some? && !config.ignoreResponse && outcome.Returned?
    ensures var rs := AccessRecords(config, request, signature, args, outcome, uuid, durationMillis);
            |rs| == 2 && rs[0].RequestRecord? && rs[1].ResponseRecord? && rs[0].traceId == rs[1].traceId
  {
  }

  /** The log sink: the records emitted so far, in order. */
  class Logger<V> {
    var records: seq<LogRecord<V>>

    constructor ()
      ensures records == []
    {
      records := [];
    }

    method Info(r: LogRecord<V>)
      modifies this
      ensures records == old(records) + [r]
    {
      records := records + [r];
    }
  }

  /** The intercepted call: its signature, its arguments, and what the handler does when run. */
  class JoinPoint<V> {
    const signature: MethodSignature
    const args: seq<V>
    const outcome: Invocation<V>
    /** How many times the handler has been run. */
    var proceedCount: nat

    constructor (signature: MethodSignature, args: seq<V>, outcome: Invocation<V>)
      ensures this.signature == signature && this.args == args && this.outcome == outcome
      ensures proceedCount == 0
    {
      this.signature := signature;
      this.args := args;
      this.outcome := outcome;
      proceedCount := 0;
    }

    /** Runs the wrapped handler. */
    method Proceed() returns (ob: Invocation<V>)
      modifies this
      ensures ob == outcome && proceedCount == old(proceedCount) + 1
    {
      ob := outcome;
      proceedCount := proceedCount + 1;
    }
  }

  /**
   * Wraps one handler call. `uuid` is the freshly generated id, `request` the
   * request context (none when absent), `startTime` and `endTime` the clock
   * before and after the call. The handler runs exactly once, its outcome is
   * returned unchanged (a throw propagates), and the log grows by exactly
   * `AccessRecords` of this call.
   */
  method DoAround<V>(jp: JoinPoint<V>, config: AccessLogConfig, request: Option<HttpRequest>,
                     uuid: string, startTime: Date, endTime: Date, logger: Logger<V>)
    returns (r: Invocation<V>)
    requires |config.ignoreRequestArgs| > 0 && |jp.signature.parameterNames| > 0 ==>
               |jp.signature.parameterNames| <= |jp.args|
    modifies jp, logger
    ensures jp.proceedCount == old(jp.proceedCount) + 1
    ensures r == jp.outcome
    ensures logger.records == old(logger.records) +
              AccessRecords(config, request, jp.signature, jp.args, jp.outcome, uuid, endTime - startTime)
  {
    var traceId := uuid;
    if !config.ignoreRequest {
      if request.Some? {
        var req := request.value;
        var traceIdFromHeader := GetHeader(req, TraceIdHeader);
        if traceIdFromHeader.Some? && traceIdFromHeader.value != "" {
          traceId := traceIdFromHeader.value;
        }
        var userName := ParseLoginInfo(req);
        var argsString := ParseArgs(jp.signature.parameterNames, jp.args, config.ignoreRequestArgs);
        logger.Info(RequestRecord(traceId, userName, req.requestUri, req.httpMethod,
                                  jp.signature.declaringTypeName + "." + jp.signature.name, argsString));
      }
    }
    assert traceId == TraceId(config, request, uuid);

    var ob := jp.Proceed();
    if ob.Threw? {
      return ob;
    }

    if !config.ignoreResponse {
      logger.Info(ResponseRecord(traceId, ob.value, endTime - startTime));
    }
    r := ob;
  }
}
