/** HTTP requests and responses as the application sees them, with bodies
    already decoded (`json_decode`; a body that is not JSON decodes to JNull). */
module Http {
  import opened Json

  datatype Request = Request(verb: string, path: string, query: map<string, Json>, content: Json)

  datatype Response = Response(status: int, content: Json)

  /** `$response->successful()`: a 2xx status. */
  predicate Successful(status: int) {
    200 <= status < 300
  }
}
