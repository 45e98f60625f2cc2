/** Concrete requests run through the model: the cases of the repository's
    unit tests (test_lambda_handler.py), with their fixtures, and a few edge
    cases of prefix matching, each stated as a lemma about the model. */
module Scenarios {
  import opened Results
  import opened Text
  import opened Request
  import opened Configuration
  import opened Template
  import opened Responses
  import opened Handler

  const Clock := "2024-01-01T12:00:00.000000+00:00"

  const TestContext := Context("test-request-id-123", "test-function", "1", 128)

  const SampleEvent: Event := map[
    "path" := Str("/test"),
    "httpMethod" := Str("GET"),
    "headers" := Dict(map["host" := Str("example.com"), "user-agent" := Str("Test-Agent/1.0")],
                      "{'host': 'example.com', 'user-agent': 'Test-Agent/1.0'}"),
    "queryStringParameters" := Dict(map["param1" := Str("value1")], "{'param1': 'value1'}"),
    "requestContext" := Dict(map["identity" := Dict(map["sourceIp" := Str("192.168.1.1")],
                                                    "{'sourceIp': '192.168.1.1'}")],
                             "{'identity': {'sourceIp': '192.168.1.1'}}")]

  const SpecialArn := "arn:aws:lambda:us-east-1:123456789012:function:special-function"

  /** The prefix tests of test_lambda_handler.py:101-106, with the
      configuration read from the environment, and the consequences of a bare
      prefix match. */
  lemma PrefixMatching()
    ensures var env := map["SPECIAL_URL_PATH" := "/special"];
      ShouldInvokeSpecialLambda("/special", None, env) &&
      ShouldInvokeSpecialLambda("/special/path", None, env) &&
      !ShouldInvokeSpecialLambda("/normal", None, env) &&
      !ShouldInvokeSpecialLambda("/", None, env) &&
      ShouldInvokeSpecialLambda("/specialx", None, env)
    ensures forall path :: ShouldInvokeSpecialLambda(path, None, map["SPECIAL_URL_PATH" := ""])
    ensures !ShouldInvokeSpecialLambda("/Special", None, map[])
  {
    var env := map["SPECIAL_URL_PATH" := "/special"];
    assert "/special/path" == "/special" + "/path";
    assert "/specialx" == "/special" + "x";
    assert "/special" == "/special" + "";
    forall path
      ensures ShouldInvokeSpecialLambda(path, None, map["SPECIAL_URL_PATH" := ""])
    {
      assert path == "" + path;
    }
    assert "/Special"[..8] != "/special" by { assert "/Special"[1] != "/special"[1]; }
    StartsWithConcat("/normal", "/special");
    StartsWithConcat("/Special", "/special");
  }

  /** Outside maintenance mode (test_lambda_handler.py:45-51). */
  lemma NormalOperation(fetched: Result<string, string>, invoked: Result<Response, string>)
    ensures var o := LambdaHandler(SampleEvent, TestContext, map["MAINTENANCE_MODE" := "false"], Clock, fetched, invoked);
      o.response.statusCode == 200 && o.response.statusDescription == "200 OK" &&
      o.response.body == JsonObject([("message", "Service is operational"), ("path", "/test")]) &&
      o.calls == []
  {
  }

  /** The eight values for the sample request. */
  lemma SampleReplacements()
    ensures Replacements(SampleEvent, TestContext, Clock)
         == Ok(EightPairs("test-request-id-123", Clock, "/test", "GET", "192.168.1.1",
                          "Test-Agent/1.0", "example.com", "test-function"))
  {
    var identity := SampleEvent["requestContext"].entries["identity"];
    var headers := SampleEvent["headers"];
    assert Get(SampleEvent, "requestContext", EmptyDict).entries["identity"] == identity;
    assert Get(identity.entries, "sourceIp", Str("unknown")) == Str("192.168.1.1");
    assert Get(SampleEvent, "headers", EmptyDict) == headers;
    assert Get(headers.entries, "user-agent", Str("unknown")) == Str("Test-Agent/1.0");
    assert Get(headers.entries, "host", Str("unknown")) == Str("example.com");
    assert Get(SampleEvent, "path", Str("/")) == Str("/test");
    assert Get(SampleEvent, "httpMethod", Str("GET")) == Str("GET");
  }

  lemma SampleValuesPlain()
    ensures '{' !in "test-request-id-123" && '{' !in Clock && '{' !in "/test" && '{' !in "GET"
    ensures '{' !in "192.168.1.1" && '{' !in "Test-Agent/1.0" && '{' !in "example.com" && '{' !in "test-function"
  {
  }

  lemma SampleValuesOk()
    ensures ValuesOk(Replacements(SampleEvent, TestContext, Clock).value)
  {
    SampleValuesPlain();
    EightValuesOk("test-request-id-123", Clock, "/test", "GET", "192.168.1.1",
                  "Test-Agent/1.0", "example.com", "test-function");
    SampleReplacements();
  }

  const SampleValues := EightPairs("test-request-id-123", Clock, "/test", "GET", "192.168.1.1",
                                   "Test-Agent/1.0", "example.com", "test-function")

  /** The template of test_lambda_handler.py:62-64, split into its pieces. */
  const MaintenanceTemplate := [Lit("<html>Maintenance "), Hole("REQUEST_ID"), Lit("</html>")]

  lemma MaintenanceTemplateText()
    ensures Flatten(MaintenanceTemplate) == "<html>Maintenance " + Token("REQUEST_ID") + "</html>"
  {
    var ps := MaintenanceTemplate;
    assert ps[1..] == [ps[1], ps[2]];
    assert ps[1..][1..] == [ps[2]];
    assert ps[1..][1..][1..] == [];
  }

  lemma MaintenanceTemplateOk()
    ensures PiecesOk(MaintenanceTemplate)
  {
    NoOpenBraceByMembership("<html>Maintenance ");
    NoOpenBraceByMembership("</html>");
    BraceFreeByMembership("REQUEST_ID");
  }

  lemma MaintenanceTemplateFilled()
    ensures Flatten(Instantiate(MaintenanceTemplate, SampleValues))
         == "<html>Maintenance " + "test-request-id-123" + "</html>"
  {
    var filled := Instantiate(MaintenanceTemplate, SampleValues);
    assert Find(SampleValues, "REQUEST_ID") == Some("test-request-id-123");
    assert filled[0] == Lit("<html>Maintenance ");
    assert filled[1] == Lit("test-request-id-123");
    assert filled[2] == Lit("</html>");
    assert filled[1..][1..][1..] == [];
    assert Flatten(filled[2..]) == "</html>" + "";
    assert Flatten(filled[1..]) == "test-request-id-123" + ("</html>" + "");
  }

  /** The template of test_lambda_handler.py:62-64 rendered for the sample request. */
  lemma SampleTemplateRenders()
    ensures Render("<html>Maintenance " + Token("REQUEST_ID") + "</html>", SampleEvent, TestContext, Clock)
         == Ok("<html>Maintenance " + "test-request-id-123" + "</html>")
  {
    MaintenanceTemplateText();
    MaintenanceTemplateOk();
    SampleValuesOk();
    SampleReplacements();
    assert Replacements(SampleEvent, TestContext, Clock).value == SampleValues;
    RenderPieces(MaintenanceTemplate, SampleEvent, TestContext, Clock);
    MaintenanceTemplateFilled();
  }

  const MaintenanceEnv: Env :=
    map["MAINTENANCE_MODE" := "true", "S3_BUCKET" := "test-bucket", "S3_KEY" := "test-key.html"]

  lemma MaintenanceEnvConfig()
    ensures GetConfig(MaintenanceEnv) == Config(true, "test-bucket", "test-key.html", "/special", "")
  {
    assert IsTrueInAnyCase("true");
  }

  /** Maintenance mode with a stored template (test_lambda_handler.py:54-72):
      503 with the request id filled in, after one read of the configured
      object. */
  lemma MaintenanceWithTemplate(invoked: Result<Response, string>)
    ensures var o := LambdaHandler(SampleEvent, TestContext, MaintenanceEnv, Clock,
                                   Ok("<html>Maintenance " + Token("REQUEST_ID") + "</html>"), invoked);
      o.response.statusCode == 503 && o.response.statusDescription == "503 Service Unavailable" &&
      o.response.body == Plain("<html>Maintenance " + TestContext.requestId + "</html>") &&
      o.calls == [GetObject("test-bucket", "test-key.html")]
  {
    var html := "<html>Maintenance " + Token("REQUEST_ID") + "</html>";
    MaintenanceEnvConfig();
    var c := GetConfig(MaintenanceEnv);
    assert Get(SampleEvent, "path", Str("/")) == Str("/test");
    assert !StartsWith("/test", c.specialUrlPath);
    SampleTemplateRenders();
    SampleReplacements();
    var o := LambdaHandler(SampleEvent, TestContext, MaintenanceEnv, Clock, Ok(html), invoked);
    assert o == GetMaintenanceResponse(SampleEvent, TestContext, Some(c), MaintenanceEnv, Clock, Ok(html));
  }

  /** A path under the prefix is delegated even in maintenance mode, and the
      delegate's reply is returned unchanged (test_lambda_handler.py:74-98). */
  lemma SpecialPathDelegates(reply: Response, fetched: Result<string, string>)
    ensures var env := map["MAINTENANCE_MODE" := "true", "SPECIAL_URL_PATH" := "/special",
                           "SPECIAL_LAMBDA_ARN" := SpecialArn];
      var event := SampleEvent["path" := Str("/special/endpoint")];
      var o := LambdaHandler(event, TestContext, env, Clock, fetched, Ok(reply));
      o.response == reply &&
      o.calls == [Invoke(SpecialArn, "RequestResponse", InvokePayload(event, TestContext))]
  {
    assert "/special/endpoint"[..8] == "/special";
  }

  /** The fixture of the invocation tests (test_lambda_handler.py:231-243). */
  const InvokeContext := Context("test-req", "main-func", "1", 256)
  const InvokeEvent: Event :=
    map["path" := Str("/special/endpoint"), "httpMethod" := Str("GET"), "headers" := EmptyDict]
  const InvokeArn := "arn:aws:lambda:us-east-1:123456789012:function:special"

  /** No delegate configured (test_lambda_handler.py:245-251): 503, "not
      configured", and no call. */
  lemma SpecialPathWithoutDelegate(invoked: Result<Response, string>)
    ensures var o := InvokeSpecialLambda(InvokeEvent, InvokeContext, None, map["SPECIAL_LAMBDA_ARN" := ""], invoked);
      o.response.statusCode == 503 &&
      o.response.body == JsonObject([("error", "Special Lambda ARN not configured")]) &&
      o.calls == []
  {
  }

  /** A failing invocation (test_lambda_handler.py:274-287): 500 naming it,
      after one call carrying the event and the context. */
  lemma DelegateFailure()
    ensures var o := InvokeSpecialLambda(InvokeEvent, InvokeContext, None, map["SPECIAL_LAMBDA_ARN" := InvokeArn],
                                         Err("Lambda invocation failed"));
      o.response.statusCode == 500 &&
      o.response.body == JsonObject([("error", InvokeErrorPrefix + "Lambda invocation failed")]) &&
      o.calls == [Invoke(InvokeArn, "RequestResponse", InvokePayload(InvokeEvent, InvokeContext))]
  {
    assert GetConfig(map["SPECIAL_LAMBDA_ARN" := InvokeArn]).specialLambdaArn == InvokeArn;
  }

  /** The request of the maintenance-response tests (test_lambda_handler.py:177-188).
      The test's context sets only the request id and the function name; the
      version and memory limit here are stand-ins, which the maintenance route
      does not read. */
  const MaintenanceContext := Context("test-req", "test-func", "1", 128)
  const MaintenanceEvent: Event := map[
    "path" := Str("/"),
    "httpMethod" := Str("GET"),
    "headers" := Dict(map["host" := Str("example.com")], "{'host': 'example.com'}"),
    "requestContext" := Dict(map["identity" := Dict(map["sourceIp" := Str("1.2.3.4")],
                                                    "{'sourceIp': '1.2.3.4'}")],
                             "{'identity': {'sourceIp': '1.2.3.4'}}")]

  /** A failing S3 read (test_lambda_handler.py:206-217): the built-in page. */
  lemma StorageFailure()
    ensures var o := GetMaintenanceResponse(MaintenanceEvent, MaintenanceContext, None,
                                            map["S3_BUCKET" := "test-bucket", "S3_KEY" := "test.html"], Clock, Err("S3 error"));
      o.response.statusCode == 503 && o.response.body.Plain? &&
      Contains(o.response.body.text, "Maintenance in Progress") &&
      o.calls == [GetObject("test-bucket", "test.html")]
  {
    ContainsMiddle(FallbackHead, MaintenanceMarker, FallbackTail);
  }

  const PlainPage := "<html><body>No " + "placeholders here</body></html>"

  lemma PlainPageHasNoBrace()
    ensures NoOpenBrace(PlainPage)
  {
    NoOpenBraceByMembership("<html><body>No ");
    NoOpenBraceByMembership("placeholders here</body></html>");
    NoOpenBraceConcat("<html><body>No ", "placeholders here</body></html>");
  }

  /** A template without placeholders comes back unchanged
      (test_lambda_handler.py:166-171). */
  lemma TemplateWithoutPlaceholders()
    ensures Render(PlainPage, ParamEvent, ParamContext, Clock) == Ok(PlainPage)
  {
    PlainPageHasNoBrace();
    forall key | key in TemplateKeys
      ensures !Contains(PlainPage, Token(key))
    {
      NoOpenBraceNoMatch(PlainPage, Token(key));
    }
    ParamReplacements();
    RenderWithoutTokens(PlainPage, ParamEvent, ParamContext, Clock);
  }

  /** The request of the parameter tests (test_lambda_handler.py:111-130). */
  const ParamContext := Context("req-123", "test-func", "1", 128)
  const ParamEvent: Event := map[
    "path" := Str("/test/path"),
    "httpMethod" := Str("POST"),
    "headers" := Dict(map["host" := Str("test.example.com"), "user-agent" := Str("Mozilla/5.0")],
                      "{'host': 'test.example.com', 'user-agent': 'Mozilla/5.0'}"),
    "requestContext" := Dict(map["identity" := Dict(map["sourceIp" := Str("10.0.0.1")],
                                                    "{'sourceIp': '10.0.0.1'}")],
                             "{'identity': {'sourceIp': '10.0.0.1'}}")]
  const ParamValues := EightPairs("req-123", Clock, "/test/path", "POST", "10.0.0.1",
                                  "Mozilla/5.0", "test.example.com", "test-func")

  lemma ParamReplacements()
    ensures Replacements(ParamEvent, ParamContext, Clock) == Ok(ParamValues)
  {
    var identity := ParamEvent["requestContext"].entries["identity"];
    var headers := ParamEvent["headers"];
    assert Get(ParamEvent, "requestContext", EmptyDict).entries["identity"] == identity;
    assert Get(identity.entries, "sourceIp", Str("unknown")) == Str("10.0.0.1");
    assert Get(ParamEvent, "headers", EmptyDict) == headers;
    assert Get(headers.entries, "user-agent", Str("unknown")) == Str("Mozilla/5.0");
    assert Get(headers.entries, "host", Str("unknown")) == Str("test.example.com");
    assert Get(ParamEvent, "path", Str("/")) == Str("/test/path");
    assert Get(ParamEvent, "httpMethod", Str("GET")) == Str("POST");
  }

  lemma ParamValuesOk()
    ensures ValuesOk(ParamValues)
  {
    assert '{' !in "req-123" && '{' !in Clock && '{' !in "/test/path" && '{' !in "POST";
    assert '{' !in "10.0.0.1" && '{' !in "Mozilla/5.0" && '{' !in "test.example.com" && '{' !in "test-func";
    EightValuesOk("req-123", Clock, "/test/path", "POST", "10.0.0.1",
                  "Mozilla/5.0", "test.example.com", "test-func");
  }

  /** The template of test_lambda_handler.py:134, split into its pieces. */
  const BasicTemplate := [Lit("<html>Request: "), Hole("REQUEST_ID"), Lit(", Path: "), Hole("PATH"), Lit("</html>")]

  lemma BasicTemplateText()
    ensures Flatten(BasicTemplate)
         == "<html>Request: " + Token("REQUEST_ID") + ", Path: " + Token("PATH") + "</html>"
  {
    var ps := BasicTemplate;
    assert ps[1..] == [ps[1], ps[2], ps[3], ps[4]];
    assert ps[1..][1..] == [ps[2], ps[3], ps[4]];
    assert ps[1..][1..][1..] == [ps[3], ps[4]];
    assert ps[1..][1..][1..][1..] == [ps[4]];
    assert ps[1..][1..][1..][1..][1..] == [];
  }

  lemma BasicTemplateOk()
    ensures PiecesOk(BasicTemplate)
    ensures forall i :: 0 <= i < |BasicTemplate| && BasicTemplate[i].Hole? ==> BasicTemplate[i].key in TemplateKeys
  {
    NoOpenBraceByMembership("<html>Request: ");
    NoOpenBraceByMembership(", Path: ");
    NoOpenBraceByMembership("</html>");
    BraceFreeByMembership("REQUEST_ID");
    BraceFreeByMembership("PATH");
  }

  /** Two placeholders (test_lambda_handler.py:132-140): the request id and
      the path appear in the page, and neither placeholder is left. */
  lemma TwoPlaceholders()
    ensures var page := Render("<html>Request: " + Token("REQUEST_ID") + ", Path: " + Token("PATH") + "</html>",
                               ParamEvent, ParamContext, Clock);
      page.Ok? &&
      Contains(page.value, "req-123") && Contains(page.value, "/test/path") &&
      !Contains(page.value, Token("REQUEST_ID")) && !Contains(page.value, Token("PATH"))
  {
    BasicTemplateText();
    BasicTemplateOk();
    ParamReplacements();
    ParamValuesOk();
    RenderRemovesEveryToken(BasicTemplate, ParamEvent, ParamContext, Clock);
    assert BasicTemplate[1].Hole? && BasicTemplate[3].Hole?;
  }
}
