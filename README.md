# Maintenance-mode request router, modelled in Dafny

The system is a single function behind an application load balancer. For
every request it reads its configuration from the environment and then
takes one of three routes:

1. a path that begins with the configured special prefix is handed to a
   delegate function, invoked synchronously, whose reply is returned as it
   is (503 when no delegate is configured, 500 when the call fails);
2. otherwise, in maintenance mode, an HTML template is read from object
   storage, its `{{NAME}}` placeholders are filled in from the request and
   the execution context, and the page is returned with status 503 and
   `Retry-After: 3600`; if reading or filling in fails, a built-in page is
   returned instead, with the same status and headers;
3. otherwise a 200 JSON answer naming the requested path.

Any exception escaping the routing becomes a 500 JSON answer.

The model is functional, like the handler: every operation is a function
of its inputs. The outside world is passed in:

- the environment is a `map<string, string>`;
- the template read from storage is a `Result<string, string>`, with `Err`
  carrying the message of the exception raised;
- the delegate's parsed reply is a `Result<Response, string>`;
- the clock reading is a `timestamp` string.

Each result is an `Outcome`, which holds the response and the outbound
calls made (`GetObject(bucket, key)` and `Invoke(function, type, payload)`).
This is what lets the contracts say that a call was or was not made.

The one loop, the substitution of lambda_handler.py:248-250, is the method
`Template.ReplaceParameters`. It is proved equal to the function `Render`,
which the rest of the model uses.

The event is a map to `Value`s, which are strings, `None`, dictionaries or
anything else. That makes the handler's exception paths reachable:

- a path that is not a string makes `startswith` raise, which ends in the
  500 of `handle_error`;
- a `headers`, `requestContext` or `requestContext.identity` that is not a
  dictionary makes `.get` raise inside `replace_parameters`, which ends in
  the built-in page.

Modules:

- `Results`: Option and Result types.
- `Text`: Python's `startswith`, `in` and `replace` on strings, and `lower`.
- `Request`: the event and the context.
- `Configuration`: `get_config`.
- `Template`: `replace_parameters`, and the theory of templates built from
  literal text and placeholders.
- `Responses`: the response records and the fixed responses.
- `Handler`: `lambda_handler` and its three routes.
- `Scenarios`: the repository's unit tests restated as lemmas.

Three behaviours of the code are easy to misread, and the model follows the code in each:

- Header names are looked up with the exact keys `user-agent` and `host`.
  They are not matched case-insensitively.
- The maintenance flag is the variable's value lowercased and compared with
  `"true"`. So `"True"` and `"TRUE"` switch it on, an unset variable
  switches it on, and every value whose lowercase is not `"true"` switches
  it off.
- The heading of the built-in page begins with the four characters the
  source file holds there: U+00F0 U+0178 U+201D U+00A7. The model keeps
  them as written.

## Model

| member | source | states |
|---|---|---|
| Configuration.GetConfig | lambda_handler.py:34-42 | Maintenance mode is on exactly when `MAINTENANCE_MODE` is unset or is "true" in some mix of cases. Each other field is its variable's value, or the documented default when the variable is unset. |
| Configuration.MaintenanceFlagIsIndependent | lambda_handler.py:36-42 | Setting `MAINTENANCE_MODE` changes only the maintenance flag; the other four fields are unchanged. |
| Configuration.MaintenanceFlagExamples | lambda_handler.py:37 | Unset, "TRUE" and "True" mean on; "false", "1", "yes", "on" and "" mean off. |
| Configuration.EnvGet | lambda_handler.py:37-41 | `os.environ.get(name, default)`: the variable's value, or the default when it is unset. Its meaning is stated through `GetConfig`'s contract. |
| Text.StartsWith | lambda_handler.py:105 | `s.startswith(prefix)`: `prefix` is an initial segment of `s`. `Text.StartsWithConcat` characterises it. |
| Text.Contains | lambda_handler.py:250 | Python's substring test `p in s`: some suffix of `s` starts with `p`. Described by `Text.ContainsInSuffix`, `Text.ContainsMiddle`, `Text.ContainsSkip` and `Text.NoOpenBraceNoMatch`. |
| Text.ReplaceAll | lambda_handler.py:250 | `s.replace(pat, rep)`: one left-to-right pass in which each match is replaced and the scan resumes after it. Described by `Text.ReplaceAllAbsent`, `Text.ReplaceAllSkip`, `Text.ReplaceAllSkipText`, `Text.ReplaceAllFront` and `Template.ReplaceKeepsOther`. |
| Text.ContainsSkip | lambda_handler.py:250 | An occurrence that starts at none of the first `m` positions lies in the text after them. |
| Text.StartsWithHead | lambda_handler.py:249 | A string that starts with a pattern begins with the pattern's first two characters. |
| Text.LowerIsTrue | lambda_handler.py:37 | `s.lower() == "true"` holds exactly when `s` is one of the sixteen case spellings of "true". |
| Text.Lower | lambda_handler.py:37 | Lowercasing keeps the length and maps each character on its own. |
| Text.StartsWithConcat | lambda_handler.py:105 | `startswith` holds exactly when the string is the prefix followed by something. |
| Text.ContainsInSuffix | lambda_handler.py:250 | A substring of `b` is a substring of `a + b`. |
| Text.ContainsMiddle | lambda_handler.py:297 | `p` is a substring of `a + p + b`. |
| Text.NoOpenBraceNoMatch | lambda_handler.py:249-250 | Text without `{` contains no pattern that begins with `{`, so no placeholder. |
| Text.ReplaceAllAbsent | lambda_handler.py:250 | `replace` leaves text in which the pattern does not occur unchanged. |
| Text.ReplaceAllSkip | lambda_handler.py:250 | A prefix in which no match starts is copied unchanged by `replace`. |
| Text.ReplaceAllSkipText | lambda_handler.py:249-250 | A prefix without `{` is copied unchanged when the pattern is a placeholder. |
| Text.ReplaceAllFront | lambda_handler.py:250 | A match at the front is replaced and the scan resumes after it, without rescanning the replacement. |
| Text.NoOpenBraceByMembership | lambda_handler.py:249 | A string in which `{` is not a member has no `{` at any position. |
| Text.BraceFreeByMembership | lambda_handler.py:249 | A string without `{` and `}` has neither at any position. |
| Text.NoOpenBraceConcat | lambda_handler.py:249-250 | The concatenation of two strings without `{` has none. |
| Request.Get | lambda_handler.py:60-63 | `.get` gives the entry when the key is present, and the default otherwise. |
| Request.NoAttribute | lambda_handler.py:105 | The message of Python's `AttributeError` for a missing attribute, `'<type>' object has no attribute '<name>'`. `Handler.LambdaHandler` and `Template.Replacements` use it as the error text. |
| Request.PyStr | lambda_handler.py:250 | `str()` of a string is the string itself, and of `None` is "None". |
| Template.Token | lambda_handler.py:249 | The placeholder `{{key}}` is four characters longer than its name and begins with `{{`. |
| Template.Keys | lambda_handler.py:248 | The names of the entries, in order. |
| Template.FindFirst | lambda_handler.py:248-250 | A lookup gives the value of the first entry with that name. |
| Template.SourceIp | lambda_handler.py:241 | `requestContext.identity.sourceIp` through nested `.get`s, or "unknown" when any level is missing. `Template.Replacements` gives it as the `SOURCE_IP` value. |
| Template.Header | lambda_handler.py:242-243 | The header under exactly the key `name`, or "unknown". `Template.Replacements` gives it as the `USER_AGENT` and `HOST` values. |
| Template.Substitute | lambda_handler.py:248-250 | The loop as a function: each entry in turn rewrites the whole text with `replace`. `Template.ReplaceParameters` is proved to compute it; `Template.SubstituteFlatten`, `Template.SubstituteAbsent` and `Template.SubstituteKeepsOther` describe it. |
| Template.EightPairs | lambda_handler.py:236-245 | The eight entries come in the dictionary's order, and each name is paired with its own value. |
| Template.Replacements | lambda_handler.py:236-245 | The replacements are built exactly when `headers`, `requestContext` and `identity` are each absent or a dictionary. The request id and function name come from the context. The path defaults to "/", the method to "GET", and the source IP, user agent and host to "unknown". |
| Template.Render | lambda_handler.py:211-252 | Filling in fails exactly when building the replacements raises. |
| Template.ReplaceParameters | lambda_handler.py:233-252 | The loop applies `replace` once per entry, in order, and returns what `Render` specifies, including the error. |
| Template.Fill | lambda_handler.py:250 | Turns every placeholder with the given name into the literal value, piece by piece, and keeps every other piece. |
| Template.Instantiate | lambda_handler.py:248-250 | Replaces each placeholder, independently of the others, by its name's value, and keeps names without an entry. |
| Template.ReplaceOtherHole | lambda_handler.py:249-250 | For a non-empty brace-free name `k` and a different brace-free name `key`, replacing `{{key}}` copies a `{{k}}` at the front unchanged. |
| Template.ReplaceAllFlatten | lambda_handler.py:249-250 | On a template whose literal text has no `{` and whose placeholders have non-empty brace-free names, one `replace` of the placeholder of a brace-free name with a value without `{` is exactly `Fill` on the pieces. |
| Template.FindFront | lambda_handler.py:248 | A lookup in `[(key, value)] + rest` gives `value` for `key` and otherwise looks in `rest`. |
| Template.SubstituteFlatten | lambda_handler.py:248-250 | When the template's literal text has no `{`, its placeholders have non-empty brace-free names, every entry name is brace-free and no value has `{`, the loop computes `Instantiate`. Every placeholder is replaced by its first entry's value, and no replacement creates a new placeholder. |
| Template.SubstituteAbsent | lambda_handler.py:248-250 | Text containing none of the placeholders is left unchanged. |
| Template.FindKey | lambda_handler.py:248 | A name among the entries' names has a value. |
| Template.FindAbsent | lambda_handler.py:248 | A name not among the entries' names has none. |
| Template.FindValue | lambda_handler.py:248 | A value found is the value of some entry with that name. |
| Template.FlattenNoOpenBrace | lambda_handler.py:250 | A template made only of text without `{` has no `{`. |
| Template.FlattenContainsPiece | lambda_handler.py:250 | Each piece's text occurs in the template. |
| Template.KeysArePlain | lambda_handler.py:237-244 | The eight names are non-empty and contain no braces. |
| Template.EightValuesOk | lambda_handler.py:236-245 | When no value contains `{`, the values satisfy the substitution theorem's condition. |
| Template.RenderPieces | lambda_handler.py:211-252 | For an event that can be read (`headers`, `requestContext` and `identity` each absent or a dictionary), literal text without `{`, placeholders with non-empty brace-free names and values without `{`, `replace_parameters` returns the template with each placeholder replaced by its value. Placeholders with other names are left as they are. |
| Template.RenderRemovesEveryToken | lambda_handler.py:248-250 | For an event that can be read (`headers`, `requestContext` and `identity` each absent or a dictionary), when the template's literal text has no `{`, its placeholders have non-empty brace-free names that are all among the eight, and no value built from the event has `{`: the page has no `{` and no placeholder left, and each placeholder's value appears in it. |
| Template.InstantiateAllKnown | lambda_handler.py:248-250 | When the template's literal text has no `{`, its placeholders have non-empty brace-free names that all have an entry, and no value has `{`: the filled-in template has no `{` and no placeholder, and it contains each value used. |
| Template.NoTokenInsideToken | lambda_handler.py:249 | For a brace-free name, no placeholder occurrence starts strictly inside an occurrence of that name's placeholder. |
| Template.ReplaceKeepsOther | lambda_handler.py:250 | For a non-empty brace-free name `k` and a different brace-free name `key`, one `replace` of `{{key}}` keeps an occurrence of `{{k}}`, whatever else the text contains. |
| Template.SubstituteKeepsOther | lambda_handler.py:248-250 | For a non-empty brace-free name that no entry names, and entry names that are all brace-free, the whole loop keeps that name's placeholder. |
| Template.RenderKeepsUnknownToken | lambda_handler.py:236-250 | For any template and any event that can be read, a placeholder with a non-empty brace-free name not among the eight is left in the page. Literal text and values may contain braces. |
| Template.RenderWithoutTokens | lambda_handler.py:248-252 | For an event that can be read (`headers`, `requestContext` and `identity` each absent or a dictionary), a template without any of the eight placeholders comes back unchanged. |
| Template.TokenCanReappear | lambda_handler.py:250 | Without the brace conditions the theorem fails: replacing `{{PATH}}` in `{{{{PATH}}}}` by "PATH" leaves `{{PATH}}`. |
| Responses.MaintenancePage | lambda_handler.py:195-204 | 503 "Service Unavailable" with the HTML headers (`text/html; charset=utf-8`, `Retry-After: 3600`) and the page as body. |
| Responses.GetFallbackMaintenanceResponse | lambda_handler.py:255-314 | 503 with the HTML headers; the body is a page containing "Maintenance in Progress". |
| Responses.FallbackIgnoresCause | lambda_handler.py:255-314 | The built-in page is the same whatever error message it is given. |
| Responses.ServerError | lambda_handler.py:327-338 | 500 "Internal Server Error", JSON content type, and the members given. |
| Responses.HandleError | lambda_handler.py:317-338 | 500 with "Internal server error" first and the exception's message under `message`. |
| Responses.ArnNotConfigured | lambda_handler.py:123-134 | 503 with the JSON error "Special Lambda ARN not configured". |
| Responses.InvokeFailed | lambda_handler.py:158-169 | 500 "Internal Server Error" with the JSON content type and one JSON member `error`: "Error invoking special Lambda: " followed by exactly the exception's message. |
| Responses.Operational | lambda_handler.py:75-86 | 200 "OK" with the JSON members `message` "Service is operational" and `path`. |
| Handler.ResolveConfig | lambda_handler.py:103-104 | A configuration passed in is used as given; otherwise the configuration is read from the environment. |
| Handler.ShouldInvokeSpecialLambda | lambda_handler.py:92-105 | The path is the configured prefix followed by anything: case-sensitive, not normalised, so the empty prefix matches every path. |
| Handler.InvokeSpecialLambda | lambda_handler.py:108-169 | With no delegate configured: 503 and no call. Otherwise exactly one synchronous call to the configured function, carrying the event and the context. Its reply is returned unchanged. A failure gives exactly the `InvokeFailed` response: 500 "Internal Server Error", the JSON content type, and the prefixed message. |
| Handler.GetMaintenanceResponse | lambda_handler.py:172-208 | Exactly one read of the configured bucket and key. Always 503 with the HTML headers. The body is the filled-in template, or the built-in page when reading or filling in fails. |
| Handler.LambdaHandler | lambda_handler.py:45-89 | A path that is not a string gives the 500 of `handle_error` (with the `AttributeError` message) and no call. A path under the special prefix is delegated. Otherwise, maintenance mode gives the maintenance answer and normal mode gives 200 with the path. |
| Handler.SpecialPathIgnoresMaintenance | lambda_handler.py:66-71 | For a path under the prefix, the value of `MAINTENANCE_MODE` changes neither the response nor the calls. |
| Handler.CallsFollowTheRoute | lambda_handler.py:56-71 | At most one outbound call is made. A delegate call happens only for a prefixed path with a delegate configured, and targets that delegate. A storage read happens only in maintenance mode outside the prefix, and reads the configured object. |
| Handler.ResponsesAreWellFormed | lambda_handler.py:45-89 | Every response the handler builds has `isBase64Encoded` false and a content type. A delegate's reply is passed on unchanged. |
| Handler.OperationalEchoesPath | lambda_handler.py:60-86 | Outside the prefix and maintenance mode: 200 with the requested path, "/" when the event has none, and no call. |
| Handler.FetchFailureGivesFallback | lambda_handler.py:187-208 | In maintenance mode, any storage failure gives 503 with the HTML headers and the built-in page. |
| Handler.NullHeadersGiveFallback | lambda_handler.py:187-208 | `headers` set to null makes filling in raise, so the built-in page is returned even though the template was read. |
| Scenarios.PrefixMatching | test_lambda_handler.py:100-106 | "/special" and "/special/path" match. "/normal" and "/" do not. "/specialx" matches, the empty prefix matches every path, and "/Special" does not match. |
| Scenarios.NormalOperation | test_lambda_handler.py:45-51 | With `MAINTENANCE_MODE=false`: 200 "OK", "Service is operational", and no call. |
| Scenarios.SampleReplacements | test_lambda_handler.py:20-43 | The eight values for the sample event and context. |
| Scenarios.MaintenanceTemplateText | test_lambda_handler.py:62-64 | The test's template is the text of its three pieces. |
| Scenarios.MaintenanceTemplateOk | test_lambda_handler.py:62-64 | The pieces of that template meet the substitution theorem's conditions. |
| Scenarios.MaintenanceTemplateFilled | test_lambda_handler.py:62-64 | The placeholder is filled in with the request id. |
| Scenarios.SampleTemplateRenders | test_lambda_handler.py:62-70 | The template renders to the page with "test-request-id-123". |
| Scenarios.MaintenanceEnvConfig | test_lambda_handler.py:54-58 | The configuration read from that test's environment. |
| Scenarios.MaintenanceWithTemplate | test_lambda_handler.py:54-72 | 503 "Service Unavailable" with the request id in the page, after one read of "test-bucket"/"test-key.html". |
| Scenarios.SpecialPathDelegates | test_lambda_handler.py:74-98 | Even in maintenance mode, "/special/endpoint" makes one call to the configured delegate, and its reply is returned. |
| Scenarios.SpecialPathWithoutDelegate | test_lambda_handler.py:245-251 | For the invocation tests' event and context, with an empty delegate name: 503 "not configured" and no call. |
| Scenarios.DelegateFailure | test_lambda_handler.py:274-287 | For the invocation tests' event and context, a failing call gives 500 with "Error invoking special Lambda: " and the message, after one call carrying them. |
| Scenarios.StorageFailure | test_lambda_handler.py:206-217 | For the maintenance tests' event and context, a failing read gives 503 with "Maintenance in Progress", after one read of "test-bucket"/"test.html". |
| Scenarios.PlainPageHasNoBrace | test_lambda_handler.py:168 | The test's page has no `{`. |
| Scenarios.TemplateWithoutPlaceholders | test_lambda_handler.py:166-171 | For the parameter tests' event and context, a page without placeholders comes back unchanged. |
| Scenarios.ParamReplacements | test_lambda_handler.py:111-130 | The eight values for the parameter tests' event and context. |
| Scenarios.BasicTemplateText | test_lambda_handler.py:134 | The test's template is the text of its five pieces. |
| Scenarios.BasicTemplateOk | test_lambda_handler.py:134 | Its pieces meet the theorem's conditions, and its placeholders are among the eight. |
| Scenarios.TwoPlaceholders | test_lambda_handler.py:132-140 | The page contains "req-123" and "/test/path", and neither `{{REQUEST_ID}}` nor `{{PATH}}`. |

## Left out

- `get_s3_client` and `get_lambda_client` (lambda_handler.py:16-32), the cached clients, are not modelled. A failure to construct a client counts as a failure of the read or of the call.
- The storage read, the UTF-8 decoding of the template, the delegate invocation and the JSON parsing of its reply are inputs. The model takes their result or the message of the exception they raise.
- The clock (lambda_handler.py:238) is the `timestamp` parameter. The ISO 8601 formatting is left out.
- JSON encoding is left out. The handler's own JSON bodies are kept as their ordered members, and the payload sent to the delegate as the event and the context.
- The style sheet and the indentation of the built-in page (lambda_handler.py:265-303) are left out. The model keeps its heading and text.
- The unused locals at lambda_handler.py:61-63 are not modelled. Computing them cannot raise.
- The context is assumed to have its four attributes. A missing one would raise in `replace_parameters` or in the invocation; that is not modelled.
- `Request.PyStr`: Python's `str()` of a dictionary or of a number is taken as given in the value, not computed.
- `Text.Lower` lowercases ASCII letters only. The result matters only when compared with "true", and no other character lowercases to one of its letters.
- `Handler.InvokeSpecialLambda`: a delegate reply is limited to a complete response record (status, description, base64 flag, headers, body). The source returns whatever dictionary the delegate produced, unchecked. That includes dictionaries with missing keys, such as the mock replies of test_lambda_handler.py:87-90, and the `errorMessage`/`errorType` payload of a function error, which `invoke` returns without raising. The model does not capture passing such dictionaries on. `Handler.ResponsesAreWellFormed` therefore speaks only of complete records and assumes the delegate's reply is well formed.
- `Template.RenderPieces` and `Template.RenderRemovesEveryToken` need literal text and values without `{`. (`Template.RenderKeepsUnknownToken` does not.) `Template.TokenCanReappear` shows that the theorem fails without this condition.
