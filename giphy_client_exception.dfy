/** Failures of the GIF client: the provider's own error, and a payload that
    does not have the shape the mappers need. */
module GiphyClientException {

  const ValidationError: string := "Validation error"

  datatype ClientError =
    | ProviderError(message: string, statusCode: int)
    | MappingError

  /** `new GiphyClientException($message, $statusCode)`: the literal message
      "Validation error" forces status 422; the message is kept verbatim. */
  function NewProviderError(message: string, statusCode: int): (e: ClientError)
    ensures e.ProviderError? && e.message == message
    ensures message == ValidationError ==> e.statusCode == 422
    ensures message != ValidationError ==> e.statusCode == statusCode
  {
    ProviderError(message, if message == ValidationError then 422 else statusCode)
  }

  /** `getStatusCode()` is always 422 or the status passed in. */
  lemma StatusIsForcedOrKept(message: string, statusCode: int)
    ensures NewProviderError(message, statusCode).statusCode in {422, statusCode}
  {
  }

  /** The match is exact: a different case or a trailing full stop keeps the
      provider's status. */
  lemma NearMissesKeepStatus(statusCode: int)
    ensures NewProviderError("validation error", statusCode).statusCode == statusCode
    ensures NewProviderError("Validation error.", statusCode).statusCode == statusCode
  {
    assert "validation error"[0] != ValidationError[0];
    assert |"Validation error."| != |ValidationError|;
  }
}
