/** The response records the handler returns to the load balancer, and the
    builders for its fixed responses (lambda_handler.py:75-86, 124-134,
    159-169, 195-204, 255-314, 317-338). */
module Responses {
  import opened Text

  /** A response body: `Plain` for text returned as it is (an HTML page, or
      whatever the delegate put there); `JsonObject` for the string the handler
      produces with `json.dumps` of a flat dictionary, kept as its members in
      order. */
  datatype Body = Plain(text: string) | JsonObject(members: seq<(string, string)>)

  datatype Response = Response(
    statusCode: int,
    statusDescription: string,
    isBase64Encoded: bool,
    headers: map<string, string>,
    body: Body)

  const JsonHeaders: map<string, string> := map["Content-Type" := "application/json"]
  const HtmlHeaders: map<string, string> :=
    map["Content-Type" := "text/html; charset=utf-8", "Retry-After" := "3600"]

  /** What every response the handler builds itself satisfies: the body is
      not base64-encoded and a content type is given. */
  predicate WellFormed(r: Response) {
    !r.isBase64Encoded && "Content-Type" in r.headers
  }

  /** 503 with an HTML page, the maintenance answer (lambda_handler.py:195-204). */
  function MaintenancePage(html: string): (r: Response)
    ensures WellFormed(r)
    ensures r.statusCode == 503 && r.statusDescription == "503 Service Unavailable"
    ensures r.headers == HtmlHeaders
    ensures r.body == Plain(html)
  {
    Response(503, "503 Service Unavailable", false, HtmlHeaders, Plain(html))
  }

  /** The text marking the built-in page. */
  const MaintenanceMarker := "Maintenance in Progress"

  const FallbackHead := "<!DOCTYPE html><html><head><meta charset=\"utf-8\"><title>Maintenance</title>"
    + "</head><body><div class=\"container\"><h1>\U{00F0}\U{0178}\U{201D}\U{00A7} "
  const FallbackTail := "</h1><p>We're currently performing scheduled maintenance to improve our service.</p>"
    + "<p>Please check back soon. We apologize for any inconvenience.</p></div></body></html>"

  /** The built-in maintenance page (lambda_handler.py:265-303), without its style sheet. */
  const FallbackHtml := FallbackHead + MaintenanceMarker + FallbackTail

  /** `get_fallback_maintenance_response`: the built-in page with the same
      status and headers as the stored one; the error message it is given is
      not shown. */
  function GetFallbackMaintenanceResponse(errorMessage: string): (r: Response)
    ensures WellFormed(r)
    ensures r.statusCode == 503 && r.statusDescription == "503 Service Unavailable"
    ensures r.headers == HtmlHeaders
    ensures r.body.Plain? && Contains(r.body.text, MaintenanceMarker)
  {
    ContainsMiddle(FallbackHead, MaintenanceMarker, FallbackTail);
    MaintenancePage(FallbackHtml)
  }

  /** The fallback page is the same whatever failure led to it. */
  lemma FallbackIgnoresCause(a: string, b: string)
    ensures GetFallbackMaintenanceResponse(a) == GetFallbackMaintenanceResponse(b)
  {
  }

  /** A 500 response with a JSON body. */
  function ServerError(members: seq<(string, string)>): (r: Response)
    ensures WellFormed(r)
    ensures r.statusCode == 500 && r.statusDescription == "500 Internal Server Error"
    ensures r.headers["Content-Type"] == "application/json"
    ensures r.body == JsonObject(members)
  {
    Response(500, "500 Internal Server Error", false, JsonHeaders, JsonObject(members))
  }

  /** `handle_error`: 500 naming the failure, with its message embedded. */
  function HandleError(message: string): (r: Response)
    ensures WellFormed(r) && r.statusCode == 500
    ensures r.statusDescription == "500 Internal Server Error"
    ensures r.headers["Content-Type"] == "application/json"
    ensures r.body.JsonObject? && ("message", message) in r.body.members
    ensures r.body.members[0] == ("error", "Internal server error")
  {
    ServerError([("error", "Internal server error"), ("message", message)])
  }

  /** The answer for a special path when no delegate is configured
      (lambda_handler.py:124-134). */
  function ArnNotConfigured(): (r: Response)
    ensures WellFormed(r) && r.statusCode == 503
    ensures r.statusDescription == "503 Service Unavailable"
    ensures r.headers["Content-Type"] == "application/json"
    ensures r.body == JsonObject([("error", "Special Lambda ARN not configured")])
  {
    Response(503, "503 Service Unavailable", false, JsonHeaders,
             JsonObject([("error", "Special Lambda ARN not configured")]))
  }

  const InvokeErrorPrefix := "Error invoking special Lambda: "

  /** The answer when invoking the delegate fails (lambda_handler.py:159-169). */
  function InvokeFailed(message: string): (r: Response)
    ensures WellFormed(r) && r.statusCode == 500
    ensures r.statusDescription == "500 Internal Server Error"
    ensures r.headers["Content-Type"] == "application/json"
    ensures r.body.JsonObject? && |r.body.members| == 1
    ensures r.body.members[0].0 == "error"
    ensures StartsWith(r.body.members[0].1, InvokeErrorPrefix)
    ensures r.body.members[0].1[|InvokeErrorPrefix|..] == message
  {
    var text := InvokeErrorPrefix + message;
    assert text[..|InvokeErrorPrefix|] == InvokeErrorPrefix;
    ServerError([("error", text)])
  }

  /** The answer outside maintenance mode (lambda_handler.py:75-86): 200 and
      the path the request asked for. */
  function Operational(path: string): (r: Response)
    ensures WellFormed(r) && r.statusCode == 200 && r.statusDescription == "200 OK"
    ensures r.headers["Content-Type"] == "application/json"
    ensures r.body == JsonObject([("message", "Service is operational"), ("path", path)])
  {
    Response(200, "200 OK", false, JsonHeaders,
             JsonObject([("message", "Service is operational"), ("path", path)]))
  }
}
