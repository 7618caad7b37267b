/** The facade the controller talks to (app/Services/GifService.php): searches
    and lookups go to the caching client, saves to the repository, with no
    check or error handling of its own. */
module GifService {
  import opened Json
  import opened Http
  import opened GifFilterDto
  import opened FavoriteGifDto
  import GifClientDto
  import GifListDto
  import opened GiphyCacheKeys
  import opened GiphyClient
  import opened GifRepository

  class Service {
    const client: Client
    const repository: Repository

    ghost predicate Valid()
      reads this, client, repository
    {
      client.Valid() && repository.Valid()
    }

    constructor (client: Client, repository: Repository)
      requires client.Valid() && repository.Valid()
      ensures Valid() && this.client == client && this.repository == repository
    {
      this.client := client;
      this.repository := repository;
    }

    /** `GifService::filterGifs`: exactly the client's answer, errors included. */
    method FilterGifs(filter: GifFilter, provider: ProviderCall -> Response) returns (r: Result<GifListDto.GifList>)
      requires Valid()
      modifies client`entries, client`calls
      ensures Valid()
      ensures var s := Remember(old(client.entries), client.clock, SearchKey(filter), SearchCall(filter), provider);
        && client.entries == s.entries && client.calls == old(client.calls) + s.calls
        && (s.result.Ok? ==> s.result.value.Listing? && r == Ok(s.result.value.list))
        && (s.result.Err? ==> r == Err(s.result.error))
    {
      r := client.FilterGifs(filter, provider);
    }

    /** `GifService::getGifById`: exactly the client's answer, errors included. */
    method GetGifById(gifId: string, provider: ProviderCall -> Response) returns (r: Result<GifClientDto.Gif>)
      requires Valid()
      modifies client`entries, client`calls
      ensures Valid()
      ensures var s := Remember(old(client.entries), client.clock, ShowKey(gifId), ShowCall(gifId), provider);
        && client.entries == s.entries && client.calls == old(client.calls) + s.calls
        && (s.result.Ok? ==> s.result.value.Single? && r == Ok(s.result.value.gif))
        && (s.result.Err? ==> r == Err(s.result.error))
    {
      r := client.GetGifById(gifId, provider);
    }

    /** `GifService::saveFavoriteGif`: the favourite goes to the repository
      unchanged and its outcome comes back unchanged. */
    method SaveFavoriteGif(f: FavoriteGif) returns (r: SaveResult)
      requires Valid()
      modifies repository`favorites
      ensures Valid()
      ensures r == SaveVerdict(old(repository.favorites), repository.users, f)
      ensures repository.favorites == AfterSave(old(repository.favorites), repository.users, f)
    {
      r := repository.SaveFavoriteGif(f);
    }
  }
}
