/** The entry point `lambda_handler` and the three routes it chooses between
    (lambda_handler.py:45-208). The two outside services are inputs: `fetched`
    is what reading the template from S3 and decoding it as UTF-8 gives, and
    `invoked` is what invoking the delegate function and parsing its reply
    gives; `Err` carries the message of the exception raised. Each result
    also lists the outbound calls the handler made. */
module Handler {
  import opened Results
  import opened Text
  import opened Request
  import opened Configuration
  import opened Template
  import opened Responses

  /** The payload sent to the delegate: the whole event and four context
      attributes (lambda_handler.py:141-149). */
  datatype InvokePayload = InvokePayload(event: Event, context: Context)

  /** An outbound call to S3 or to the delegate function. */
  datatype Call =
    | GetObject(bucket: string, key: string)
    | Invoke(functionName: string, invocationType: string, payload: InvokePayload)

  datatype Outcome = Outcome(response: Response, calls: seq<Call>)

  /** The optional `config` parameter: when it is not passed the
      configuration is read from the environment. */
  function ResolveConfig(config: Option<Config>, env: Env): (c: Config)
    ensures config.Some? ==> c == config.value
    ensures config.None? ==> c == GetConfig(env)
  {
    match config
    case Some(c) => c
    case None => GetConfig(env)
  }

  /** `should_invoke_special_lambda`: the path begins with the configured
      prefix — case-sensitively and with no normalisation, so the empty prefix
      matches every path and "/special" also matches "/specialx". */
  function ShouldInvokeSpecialLambda(path: string, config: Option<Config>, env: Env): (b: bool)
    ensures b <==> exists rest :: path == ResolveConfig(config, env).specialUrlPath + rest
  {
    var prefix := ResolveConfig(config, env).specialUrlPath;
    StartsWithConcat(path, prefix);
    StartsWith(path, prefix)
  }

  /** `invoke_special_lambda`: without a delegate configured, 503 and no call;
      otherwise one synchronous call whose reply is returned as it is, or 500
      naming the failure. */
  function InvokeSpecialLambda(event: Event, context: Context, config: Option<Config>, env: Env,
                               invoked: Result<Response, string>): (o: Outcome)
    ensures var arn := ResolveConfig(config, env).specialLambdaArn;
      arn == "" ==> o.calls == [] && o.response == ArnNotConfigured()
    ensures var arn := ResolveConfig(config, env).specialLambdaArn;
      arn != "" ==> o.calls == [Invoke(arn, "RequestResponse", InvokePayload(event, context))]
    ensures ResolveConfig(config, env).specialLambdaArn != "" && invoked.Ok? ==>
      o.response == invoked.value
    ensures ResolveConfig(config, env).specialLambdaArn != "" && invoked.Err? ==>
      o.response == InvokeFailed(invoked.error) &&
      o.response.body == JsonObject([("error", InvokeErrorPrefix + invoked.error)])
  {
    var arn := ResolveConfig(config, env).specialLambdaArn;
    if arn == "" then Outcome(ArnNotConfigured(), [])
    else
      var call := Invoke(arn, "RequestResponse", InvokePayload(event, context));
      match invoked
      case Ok(payload) => Outcome(payload, [call])
      case Err(e) => Outcome(InvokeFailed(e), [call])
  }

  /** `get_maintenance_response`: one read of the configured object; 503 with
      the rendered template, or with the built-in page whenever reading,
      decoding or rendering fails. */
  function GetMaintenanceResponse(event: Event, context: Context, config: Option<Config>, env: Env,
                                  timestamp: string, fetched: Result<string, string>): (o: Outcome)
    ensures var c := ResolveConfig(config, env); o.calls == [GetObject(c.s3Bucket, c.s3Key)]
    ensures o.response.statusCode == 503 && o.response.statusDescription == "503 Service Unavailable"
    ensures o.response.headers == HtmlHeaders && WellFormed(o.response)
    ensures fetched.Ok? && Readable(event) ==>
      o.response.body == Plain(Render(fetched.value, event, context, timestamp).value)
    ensures fetched.Err? || !Readable(event) ==> o.response.body == Plain(FallbackHtml)
  {
    var c := ResolveConfig(config, env);
    var call := GetObject(c.s3Bucket, c.s3Key);
    match fetched
    case Err(e) => Outcome(GetFallbackMaintenanceResponse(e), [call])
    case Ok(html) =>
      match Render(html, event, context, timestamp)
      case Err(e) => Outcome(GetFallbackMaintenanceResponse(e), [call])
      case Ok(page) => Outcome(MaintenancePage(page), [call])
  }

  /** `lambda_handler`. The special prefix is tested first, so a matching path
      is delegated even in maintenance mode; then the maintenance flag; then
      the 200 answer. A path that is not a string makes `startswith` raise,
      which the last-resort handler turns into a 500. */
  function LambdaHandler(event: Event, context: Context, env: Env, timestamp: string,
                         fetched: Result<string, string>, invoked: Result<Response, string>): (o: Outcome)
    ensures var path := Get(event, "path", Str("/"));
      !path.Str? ==> o.calls == [] && o.response == HandleError(NoAttribute(path, "startswith"))
    ensures var c, path := GetConfig(env), Get(event, "path", Str("/"));
      path.Str? && StartsWith(path.s, c.specialUrlPath) ==>
        o == InvokeSpecialLambda(event, context, Some(c), env, invoked)
    ensures var c, path := GetConfig(env), Get(event, "path", Str("/"));
      path.Str? && !StartsWith(path.s, c.specialUrlPath) && c.maintenanceMode ==>
        o == GetMaintenanceResponse(event, context, Some(c), env, timestamp, fetched)
    ensures var c, path := GetConfig(env), Get(event, "path", Str("/"));
      path.Str? && !StartsWith(path.s, c.specialUrlPath) && !c.maintenanceMode ==>
        o.calls == [] && o.response.statusCode == 200 &&
        o.response.body == JsonObject([("message", "Service is operational"), ("path", path.s)])
  {
    var c := GetConfig(env);
    var path := Get(event, "path", Str("/"));
    if !path.Str? then Outcome(HandleError(NoAttribute(path, "startswith")), [])
    else if ShouldInvokeSpecialLambda(path.s, Some(c), env) then
      InvokeSpecialLambda(event, context, Some(c), env, invoked)
    else if c.maintenanceMode then
      GetMaintenanceResponse(event, context, Some(c), env, timestamp, fetched)
    else Outcome(Operational(path.s), [])
  }

  // ----- properties of the router -----

  /** Priority: for a path under the special prefix the maintenance flag makes
      no difference at all — not to the response, not to the calls made. */
  lemma SpecialPathIgnoresMaintenance(event: Event, context: Context, env: Env, flag: string, timestamp: string,
                                      fetched: Result<string, string>, invoked: Result<Response, string>)
    requires Get(event, "path", Str("/")).Str?
    requires StartsWith(Get(event, "path", Str("/")).s, GetConfig(env).specialUrlPath)
    ensures LambdaHandler(event, context, env, timestamp, fetched, invoked)
         == LambdaHandler(event, context, env["MAINTENANCE_MODE" := flag], timestamp, fetched, invoked)
  {
    MaintenanceFlagIsIndependent(env, flag);
  }

  /** The delegate is called only for a path under the special prefix and
      only when a delegate is configured; S3 is read only in maintenance mode
      for a path outside the prefix; at most one call is made. */
  lemma CallsFollowTheRoute(event: Event, context: Context, env: Env, timestamp: string,
                            fetched: Result<string, string>, invoked: Result<Response, string>)
    ensures var o := LambdaHandler(event, context, env, timestamp, fetched, invoked);
      var c, path := GetConfig(env), Get(event, "path", Str("/"));
      |o.calls| <= 1 &&
      (forall call :: call in o.calls && call.Invoke? ==>
         path.Str? && StartsWith(path.s, c.specialUrlPath) && c.specialLambdaArn != "" &&
         call.functionName == c.specialLambdaArn) &&
      (forall call :: call in o.calls && call.GetObject? ==>
         path.Str? && !StartsWith(path.s, c.specialUrlPath) && c.maintenanceMode &&
         call == GetObject(c.s3Bucket, c.s3Key))
  {
  }

  /** Every response the handler builds itself is well formed; a delegate's
      reply is passed on unchanged, so the result is well formed whenever that
      reply is. */
  lemma ResponsesAreWellFormed(event: Event, context: Context, env: Env, timestamp: string,
                               fetched: Result<string, string>, invoked: Result<Response, string>)
    requires invoked.Ok? ==> WellFormed(invoked.value)
    ensures WellFormed(LambdaHandler(event, context, env, timestamp, fetched, invoked).response)
  {
  }

  /** Outside the special prefix and maintenance mode the answer is 200 with
      the requested path, "/" when the event has none. */
  lemma OperationalEchoesPath(event: Event, context: Context, env: Env, timestamp: string,
                              fetched: Result<string, string>, invoked: Result<Response, string>)
    requires !GetConfig(env).maintenanceMode
    requires "path" in event ==> event["path"].Str?
    requires !StartsWith(if "path" in event then event["path"].s else "/", GetConfig(env).specialUrlPath)
    ensures var o := LambdaHandler(event, context, env, timestamp, fetched, invoked);
      o.response == Operational(if "path" in event then event["path"].s else "/") && o.calls == []
  {
  }

  /** If the template cannot be read for any reason, maintenance mode answers
      503 with the built-in page, whatever the reason. */
  lemma FetchFailureGivesFallback(event: Event, context: Context, env: Env, timestamp: string,
                                  cause: string, invoked: Result<Response, string>)
    requires GetConfig(env).maintenanceMode
    requires Get(event, "path", Str("/")).Str?
    requires !StartsWith(Get(event, "path", Str("/")).s, GetConfig(env).specialUrlPath)
    ensures var r := LambdaHandler(event, context, env, timestamp, Err(cause), invoked).response;
      r.statusCode == 503 && r.headers == HtmlHeaders &&
      r.body.Plain? && Contains(r.body.text, MaintenanceMarker)
  {
    ContainsMiddle(FallbackHead, MaintenanceMarker, FallbackTail);
  }

  /** An event whose `headers` is JSON null makes rendering raise, so even a
      template that was read successfully is replaced by the built-in page. */
  lemma NullHeadersGiveFallback(event: Event, context: Context, config: Option<Config>, env: Env,
                                timestamp: string, html: string)
    requires "headers" in event && event["headers"] == Null
    ensures GetMaintenanceResponse(event, context, config, env, timestamp, Ok(html)).response.body
         == Plain(FallbackHtml)
  {
  }
}
