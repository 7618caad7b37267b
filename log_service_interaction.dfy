/** The audit middleware (app/Http/Middleware/LogServiceInteraction.php): runs
    the request, writes one audit record with redacted copies of the bodies,
    and returns the handler's response untouched. */
module LogServiceInteraction {
  import opened Json
  import opened Http
  import opened IntText

  /** A row of the service_logs table. */
  datatype AuditRecord = AuditRecord(
    userId: Option<int>,
    service: string,
    requestBody: Json,
    responseStatus: int,
    responseBody: Json,
    ipAddress: string,
    duration: string)

  /** `isset($data[key])`: an array holding the key with a non-null value. */
  predicate IsSet(data: Json, key: string) {
    data.JObj? && key in data.fields && data.fields[key] != JNull
  }

  /** The request copy as logged for non-GET requests: `password` removed when
      set, everything else kept. */
  function RedactRequest(content: Json): (r: Json)
    ensures !IsSet(r, "password")
    ensures IsSet(content, "password") ==> r == JObj(content.fields - {"password"})
    ensures !IsSet(content, "password") ==> r == content
  {
    if IsSet(content, "password") then JObj(content.fields - {"password"}) else content
  }

  /** The response copy as logged: `data.access_token` removed when set,
      everything else kept. */
  function RedactResponse(content: Json): (r: Json)
    ensures !(IsSet(r, "data") && IsSet(r.fields["data"], "access_token"))
    ensures IsSet(content, "data") && IsSet(content.fields["data"], "access_token") ==>
      r == JObj(content.fields["data" := JObj(content.fields["data"].fields - {"access_token"})])
    ensures !(IsSet(content, "data") && IsSet(content.fields["data"], "access_token")) ==> r == content
  {
    if IsSet(content, "data") && IsSet(content.fields["data"], "access_token") then
      JObj(content.fields["data" := JObj(content.fields["data"].fields - {"access_token"})])
    else content
  }

  /** `request_body`: the raw query for GET, the redacted body otherwise. */
  function LoggedRequestBody(request: Request): Json {
    if request.verb == "GET" then JObj(request.query) else RedactRequest(request.content)
  }

  /** `round(...) . 'ms'`, for an already rounded count of milliseconds. */
  function Duration(elapsedMs: nat): (d: string)
    ensures |d| >= 2 && d[|d| - 2..] == "ms"
    ensures ParseInt(d[..|d| - 2]) == Some(elapsedMs)
  {
    ParseShowInt(elapsedMs);
    var d := ShowInt(elapsedMs) + "ms";
    assert d[..|d| - 2] == ShowInt(elapsedMs);
    d
  }

  /** The record written for one request and the response it got. */
  function RecordFor(request: Request, response: Response, userId: Option<int>, ip: string, elapsedMs: nat): AuditRecord {
    AuditRecord(userId, request.path, LoggedRequestBody(request), response.status,
                RedactResponse(response.content), ip, Duration(elapsedMs))
  }

  /** For a non-GET request the logged body is the request body with the
      password gone and every other key unchanged. */
  lemma PasswordNeverLogged(request: Request, response: Response, userId: Option<int>, ip: string, elapsedMs: nat)
    requires request.verb != "GET" && request.content.JObj?
    ensures var body := RecordFor(request, response, userId, ip, elapsedMs).requestBody;
      && body.JObj?
      && !IsSet(body, "password")
      && (forall k :: k in request.content.fields && k != "password" ==> k in body.fields && body.fields[k] == request.content.fields[k])
      && body.fields.Keys <= request.content.fields.Keys
  {
  }

  /** `isset` is false for null, so a null password is logged as it is. */
  lemma NullPasswordIsKept(content: map<string, Json>)
    requires "password" in content && content["password"] == JNull
    ensures RedactRequest(JObj(content)) == JObj(content)
  {
  }

  /** A GET logs its raw query verbatim, whatever the body holds. */
  lemma GetLogsRawQuery(request: Request, response: Response, userId: Option<int>, ip: string, elapsedMs: nat)
    requires request.verb == "GET"
    ensures RecordFor(request, response, userId, ip, elapsedMs).requestBody == JObj(request.query)
  {
  }

  /** The logged response keeps its status and everything but the token. */
  lemma ResponseLoggedWithoutToken(request: Request, response: Response, userId: Option<int>, ip: string, elapsedMs: nat)
    requires IsSet(response.content, "data") && IsSet(response.content.fields["data"], "access_token")
    ensures var rec := RecordFor(request, response, userId, ip, elapsedMs);
      && rec.responseStatus == response.status
      && rec.responseBody.JObj? && rec.responseBody.fields.Keys == response.content.fields.Keys
      && (forall k :: k in response.content.fields && k != "data" ==> rec.responseBody.fields[k] == response.content.fields[k])
      && rec.responseBody.fields["data"].fields.Keys == response.content.fields["data"].fields.Keys - {"access_token"}
  {
  }

  /** Redacting a logged copy again changes nothing. */
  lemma RedactionIsIdempotent(content: Json)
    ensures RedactRequest(RedactRequest(content)) == RedactRequest(content)
    ensures RedactResponse(RedactResponse(content)) == RedactResponse(content)
  {
  }

  /** The service_logs table, append only. */
  class AuditLog {
    var records: seq<AuditRecord>

    constructor ()
      ensures records == []
    {
      records := [];
    }

    /** `handle`: `next` is the rest of the pipeline; the user id, the client
      address and the elapsed milliseconds are what the framework and the clock
      report for this request. */
    method Handle(request: Request, next: Request -> Response, userId: Option<int>, ip: string, elapsedMs: nat)
      returns (response: Response)
      modifies this
      ensures response == next(request)
      ensures records == old(records) + [RecordFor(request, response, userId, ip, elapsedMs)]
    {
      response := next(request);

      var requestData := request.content;
      if IsSet(requestData, "password") {
        requestData := JObj(requestData.fields - {"password"});
      }

      var responseData := response.content;
      if IsSet(responseData, "data") && IsSet(responseData.fields["data"], "access_token") {
        var data := responseData.fields["data"];
        responseData := JObj(responseData.fields["data" := JObj(data.fields - {"access_token"})]);
      }

      var record := AuditRecord(
        userId,
        request.path,
        if request.verb == "GET" then JObj(request.query) else requestData,
        response.status,
        responseData,
        ip,
        ShowInt(elapsedMs) + "ms");

      StorageLogs(record);
    }

    /** `storageLogs`: appends one record. */
    method StorageLogs(record: AuditRecord)
      modifies this
      ensures records == old(records) + [record]
    {
      records := records + [record];
    }
  }
}
