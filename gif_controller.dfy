/** The GIF endpoints (app/Http/Controllers/Api/V1/GifController.php): each
    action turns the service's outcome into an HTTP response. An exception an
    action does not catch leaves it as `Uncaught`, for the framework to render. */
module GifController {
  import opened Json
  import opened Http
  import GifFilterDto
  import FavoriteGifDto
  import PaginationDto
  import GifListDto
  import GifClientDto
  import opened GiphyClientException
  import opened GiphyCacheKeys
  import opened GiphyClient
  import opened GifRepository
  import FavoriteGifPolicy
  import GifService
  import GifFilterRequest
  import SaveFavoriteGifRequest
  import GifResource
  import opened ApiResponse

  const SavedMessage: string := "GIF saved successfully."
  const UnexpectedMessage: string := "Unexpected error."

  datatype Outcome = Responded(response: Response) | Uncaught

  /** `new PaginationResource($gifList->pagination)`, rendered with the
      pagination's own keys. */
  function PaginationResource(p: PaginationDto.Pagination): (j: Json)
    ensures Truthy(j)
  {
    PaginationDto.ToArray(p)
  }

  /** `index` after the service answered: the list with its pagination, or the
      provider error with its own status; a mapping failure is not caught. */
  function IndexOutcome(r: Result<GifListDto.GifList>): Outcome {
    match r
    case Ok(l) =>
      Responded(Success(data := JArr(GifResource.Collection(l.gifs)), statusCode := 200,
                        pagination := PaginationResource(l.pagination)))
    case Err(ProviderError(message, statusCode)) => Responded(Error(message, statusCode))
    case Err(MappingError) => Uncaught
  }

  /** `show` after the service answered. */
  function ShowOutcome(r: Result<GifClientDto.Gif>): Outcome {
    match r
    case Ok(g) => Responded(Success(data := GifResource.ToArray(g), statusCode := 200))
    case Err(ProviderError(message, statusCode)) => Responded(Error(message, statusCode))
    case Err(MappingError) => Uncaught
  }

  /** `store` after the policy and, if it allowed, the repository answered. A
      refusal by the policy raises an authorization exception, which the
      action's `catch (Exception)` turns into 500. */
  function StoreResponse(allowed: bool, verdict: SaveResult): Response {
    if !allowed then Error(UnexpectedMessage, 500)
    else
      match verdict
      case Saved => Success(message := JStr(SavedMessage), statusCode := 201)
      case DuplicateFavorite(message) => Error(message, 409)
      case QueryFailed(_) => Error(UnexpectedMessage, 500)
  }

  /** A successful search answers 200 with a null message, one resource per
      GIF, in order, and always carries the pagination block. */
  lemma SearchSuccessShape(l: GifListDto.GifList)
    ensures IndexOutcome(Ok(l)).Responded?
    ensures var r := IndexOutcome(Ok(l)).response;
      && r.status == 200
      && r.content.fields.Keys == {"data", "message", "pagination"}
      && r.content.fields["message"] == JNull
      && r.content.fields["data"].JArr? && |r.content.fields["data"].items| == |l.gifs|
      && (forall i :: 0 <= i < |l.gifs| ==> r.content.fields["data"].items[i] == GifClientDto.ToArray(l.gifs[i]))
      && r.content.fields["pagination"] == PaginationDto.ToArray(l.pagination)
      && PaginationDto.FromJson(r.content.fields["pagination"]) == Some(l.pagination)
  {
  }

  /** A provider error answers `{message}` with the error's own status, from
      both the search and the lookup. */
  lemma ProviderErrorKeepsItsStatus(message: string, statusCode: int)
    ensures var e: ClientError := ProviderError(message, statusCode);
      && IndexOutcome(Err(e)) == Responded(Error(message, statusCode))
      && ShowOutcome(Err(e)) == Responded(Error(message, statusCode))
      && Error(message, statusCode).content.fields.Keys == {"message"}
  {
  }

  /** A failed provider reply whose `meta.msg` is "Validation error" reaches the
      client as 422, whatever status the provider sent. */
  lemma ValidationErrorReachesClientAs422(gifId: string, reply: Response)
    requires !Successful(reply.status)
    requires ErrorMessage(reply.content) == ValidationError
    ensures Fetch(ShowCall(gifId), reply).Err?
    ensures ShowOutcome(Err(Fetch(ShowCall(gifId), reply).error)) == Responded(Error(ValidationError, 422))
  {
  }

  /** The statuses `store` can answer: 201 only when the policy allowed and the
      row was stored, 409 with the duplicate message only for a duplicate, and
      500 with "Unexpected error." otherwise. */
  lemma StoreStatuses(allowed: bool, verdict: SaveResult)
    ensures var r := StoreResponse(allowed, verdict);
      && r.status in {201, 409, 500}
      && (r.status == 201 <==> allowed && verdict.Saved?)
      && (r.status == 409 <==> allowed && verdict.DuplicateFavorite?)
      && (r.status == 500 ==> r.content.fields["message"] == JStr(UnexpectedMessage))
      && (allowed && verdict.DuplicateFavorite? ==> r.content.fields["message"] == JStr(verdict.message))
  {
  }

  class Controller {
    const service: GifService.Service

    ghost predicate Valid()
      reads this, service, service.client, service.repository
    {
      service.Valid()
    }

    constructor (service: GifService.Service)
      requires service.Valid()
      ensures Valid() && this.service == service
    {
      this.service := service;
    }

    /** `index`: `input` is the validated search input (after the defaults). */
    method Index(input: map<string, Json>, provider: ProviderCall -> Response) returns (o: Outcome)
      requires Valid()
      requires GifFilterRequest.Failures(input) == {}
      modifies service.client`entries, service.client`calls
      ensures Valid()
      ensures GifFilterDto.FromRequest(input).None? ==>
        o == Uncaught && service.client.entries == old(service.client.entries) && service.client.calls == old(service.client.calls)
      ensures GifFilterDto.FromRequest(input).Some? ==>
        var f := GifFilterDto.FromRequest(input).value;
        var s := Remember(old(service.client.entries), service.client.clock, SearchKey(f), SearchCall(f), provider);
        && service.client.entries == s.entries && service.client.calls == old(service.client.calls) + s.calls
        && (s.result.Ok? ==> s.result.value.Listing? && o == IndexOutcome(Ok(s.result.value.list)))
        && (s.result.Err? ==> o == IndexOutcome(Err(s.result.error)))
    {
      var filter := GifFilterDto.FromRequest(input);
      if filter.None? {
        o := Uncaught;
        return;
      }
      var r := service.FilterGifs(filter.value, provider);
      o := IndexOutcome(r);
    }

    /** `store`: `input` is the validated request, `actingUserId` the
      authenticated user. The policy is asked before anything is saved. */
    method Store(input: map<string, Json>, actingUserId: int) returns (o: Outcome)
      requires Valid()
      requires SaveFavoriteGifRequest.Failures(input, service.repository.users) == {}
      modifies service.repository`favorites
      ensures Valid()
      ensures FavoriteGifDto.FromRequest(input).Some?
      ensures var f := FavoriteGifDto.FromRequest(input).value;
        var allowed := FavoriteGifPolicy.Save(actingUserId, f);
        && o == Responded(StoreResponse(allowed, SaveVerdict(old(service.repository.favorites), service.repository.users, f)))
        && service.repository.favorites ==
             if allowed then AfterSave(old(service.repository.favorites), service.repository.users, f)
             else old(service.repository.favorites)
    {
      SaveFavoriteGifRequest.ValidatedInputBuildsFavorite(input, service.repository.users);
      var favoriteGif := FavoriteGifDto.FromRequest(input).value;
      if !FavoriteGifPolicy.Save(actingUserId, favoriteGif) {
        o := Responded(StoreResponse(false, Saved));
        return;
      }
      var verdict := service.SaveFavoriteGif(favoriteGif);
      o := Responded(StoreResponse(true, verdict));
    }

    /** `show`. */
    method Show(gifId: string, provider: ProviderCall -> Response) returns (o: Outcome)
      requires Valid()
      modifies service.client`entries, service.client`calls
      ensures Valid()
      ensures var s := Remember(old(service.client.entries), service.client.clock, ShowKey(gifId), ShowCall(gifId), provider);
        && service.client.entries == s.entries && service.client.calls == old(service.client.calls) + s.calls
        && (s.result.Ok? ==> s.result.value.Single? && o == ShowOutcome(Ok(s.result.value.gif)))
        && (s.result.Err? ==> o == ShowOutcome(Err(s.result.error)))
    {
      var r := service.GetGifById(gifId, provider);
      o := ShowOutcome(r);
    }
  }
}
