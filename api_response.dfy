/** The JSON envelopes every endpoint answers with (app/Helpers/ApiResponse.php). */
module ApiResponse {
  import opened Json
  import opened Http

  /** PHP truthiness of a decoded value. */
  predicate Truthy(j: Json) {
    match j
    case JNull => false
    case JBool(b) => b
    case JInt(i) => i != 0
    case JStr(s) => s != "" && s != "0"
    case JArr(items) => |items| > 0
    case JObj(fields) => |fields| > 0
  }

  /** `ApiResponse::success`: `data` and `message` always, `pagination` only
      when the argument is truthy; the status is passed through. */
  function Success(data: Json := JNull, message: Json := JNull, statusCode: int := 200,
                   pagination: Json := JNull): (r: Response)
    ensures r.status == statusCode
    ensures r.content.JObj?
    ensures r.content.fields.Keys == if Truthy(pagination) then {"data", "message", "pagination"} else {"data", "message"}
    ensures r.content.fields["data"] == data && r.content.fields["message"] == message
    ensures Truthy(pagination) ==> r.content.fields["pagination"] == pagination
  {
    var response := map["data" := data, "message" := message];
    Response(statusCode, JObj(if Truthy(pagination) then response["pagination" := pagination] else response))
  }

  /** `ApiResponse::error`: only `message`, with the given status. */
  function Error(message: string := "Error", statusCode: int := 500): (r: Response)
    ensures r.status == statusCode
    ensures r.content.JObj? && r.content.fields.Keys == {"message"} && r.content.fields["message"] == JStr(message)
  {
    Response(statusCode, JObj(map["message" := JStr(message)]))
  }

  /** The defaults: 200 with null data and message; 500 with "Error". */
  lemma Defaults()
    ensures Success() == Response(200, JObj(map["data" := JNull, "message" := JNull]))
    ensures Error() == Response(500, JObj(map["message" := JStr("Error")]))
  {
  }
}
