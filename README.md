# GIFHub GIF API — a Dafny model of its core

GIFHub is a Laravel API that lets authenticated users search GIFs through the
GIPHY provider, fetch one GIF by its id, and save a GIF as a favourite under an
alias. Every interaction is audited. This project models the request path of
that API:

- the validating form requests (`GifFilterRequest`, `SaveFavoriteGifRequest`) with
  their rules, the search request's `limit`/`offset` defaults and the gif-id
  pattern;
- the data-transfer objects (`GifFilterDTO`, `FavoriteGifDTO`, `GifListDTO`,
  `GifClientDTO`, `PaginationDTO`, `ImageDTO`) as partial mappings from decoded
  JSON to records, and their `toArray` renderings;
- the caching provider client (`GiphyClient`): the cache keys it builds, the
  30-minute `Cache::remember` window, how provider failures become
  `GiphyClientException`s (the "Validation error" message forcing 422);
- the favourites repository (`GifRepository`) over the `favorite_gifs` table,
  with the unique `(user_id, gif_id)` pair, the 20-character alias column and the
  foreign key on `user_id`, and the SQLSTATE 23000 → duplicate translation;
- the ownership policy, the service facade, the controller's `index`, `store`
  and `show` actions with their error mapping, the JSON envelope helpers
  (`ApiResponse`), the GIF resource;
- the audit middleware (`LogServiceInteraction`): what it redacts, which body it
  logs, the `"<n>ms"` duration and the record it stores.

One Dafny module per source file. Pure mappings and rules are functions with
named results and contracts; the parts of the source that hold state are
classes: the client's cache (`GiphyClient.Client`, a map of entries and a
clock), the favourites table (`GifRepository.Repository`), the audit store
(`LogServiceInteraction.AuditLog`), the form request whose input
`prepareForValidation` merges into (`GifFilterRequest.Request`) and the service
and controller objects that hold them. Each state-changing method is proved
against a pure specification function (`GiphyClient.Remember`,
`GifRepository.SaveVerdict`/`AfterSave`, `GifFilterRequest.WithDefaults`,
`LogServiceInteraction.RecordFor`), and the lemmas state the source's promises
about those functions.

The GIPHY HTTP endpoint is a parameter: a function from the call
(`SearchCall(filter)` or `ShowCall(id)`) to the decoded response. The
authenticated user id, the client address, the request path and the elapsed
milliseconds are parameters too. The client records the provider calls it makes
in a ghost field, so "one call per key per window" is a checked statement.

In these places the code's behaviour may surprise; the model follows the code:

- A search is cached under the literal query text
  (`gifs_search:<q>:limit_<l>:offset_<o>`), not a normalised one; a lookup
  under `gif_show:<id>`, not the bare id.
- An authenticated user saving a favourite for another user is refused inside
  the controller's generic `catch (Exception)` branch, so the response is
  500 "Unexpected error.", not 403 (the feature test for it expects 403).
- A search request whose `limit` or `offset` is explicitly `null` or blank text
  passes validation (`nullable`, and rules that are not implicit are skipped for
  blank values), but `GifFilterDTO::fromRequest` cannot build the typed DTO from
  it; the model reports that as an exception the controller does not catch.
- A provider search body without a `pagination` member fails to map, because
  `GifListDTO::fromJsonObject` reads that property without `??`; an explicit
  null block reads as zero counters.

## Model

| member | source | states |
|---|---|---|
| IntText.ParseShowInt | app/Clients/GiphyClient.php:25 | the decimal text PHP interpolates for an integer reads back as that integer |
| IntText.ShowIntInjective | app/Clients/GiphyClient.php:25 | two different integers never interpolate to the same text |
| IntText.AsInt | app/Http/Requests/GifFilterRequest.php:26-27 | a JSON integer reads as itself and integer text as the signed decimal integer it spells, each exactly when the value fits in 64 bits; every other value is rejected |
| IntText.TextBeyondMaxIntRejected | app/Http/Requests/GifFilterRequest.php:26-27 | the text of `PHP_INT_MAX + 1` is well-formed integer text and is still not an integer |
| IntText.AsIntShowInt | app/DTO/GifFilterDTO.php:10-11 | the text of any 64-bit integer reads back as that integer |
| ImageDto.FromJson | app/DTO/ImageDTO.php:21-28 | no contract of its own; specified by ImageDto.FromJsonCopiesFields, ImageDto.MissingFieldFails, ImageDto.FromJsonReadsOnlyItsFields and the round trip in ImageDto.ToArray |
| ImageDto.FromJsonCopiesFields | app/DTO/ImageDTO.php:21-28 | a mapped image renders exactly the raw object's url, width and height, verbatim |
| ImageDto.MissingFieldFails | app/DTO/ImageDTO.php:21-28 | a missing or non-string url, width or height fails the mapping; nothing is defaulted |
| ImageDto.ToArray | app/DTO/ImageDTO.php:33-40 | renders exactly the keys url, width, height, and reading the rendering back gives the same image |
| ImageDto.FromJsonReadsOnlyItsFields | app/DTO/ImageDTO.php:21-28 | two objects agreeing on url, width and height map to the same image, whatever else they hold |
| GifClientDto.FromJson | app/DTO/GifClientDTO.php:34-44 | no contract of its own; specified by GifClientDto.FromJsonCopiesFields, GifClientDto.MissingFieldFails, GifClientDto.MissingRenditionFails and GifClientDto.OriginalComesFromOriginalStill |
| GifClientDto.FromJsonCopiesFields | app/DTO/GifClientDTO.php:34-44 | a mapped GIF renders the raw id, url and title verbatim, and its fixed_width and fixed_height are the raw renditions mapped |
| GifClientDto.MissingFieldFails | app/DTO/GifClientDTO.php:36-39 | a missing or non-string id, url or title fails the mapping |
| GifClientDto.MissingRenditionFails | app/DTO/GifClientDTO.php:40-42 | a missing or malformed original_still, fixed_width or fixed_height rendition fails the mapping |
| GifClientDto.ToArray | app/DTO/GifClientDTO.php:49-61 | renders id, url, title and an images object with original, fixed_width, fixed_height, each the image's own rendering |
| GifClientDto.OriginalComesFromOriginalStill | app/DTO/GifClientDTO.php:40 | the `original` of a mapped GIF is the provider's `original_still` rendition |
| GifClientDto.ToArrayIsNotReadBack | app/DTO/GifClientDTO.php:40-56 | the rendering is not a provider payload: it has `original` where the mapper reads `original_still`, so mapping it fails |
| PaginationDto.FromJson | app/DTO/PaginationDTO.php:21-28 | no contract of its own; specified by PaginationDto.FromJsonReadsCounters, PaginationDto.MissingBlockIsZero, PaginationDto.NonIntegerCounterFails, PaginationDto.CounterTextIsCoerced and the round trip in PaginationDto.ToArray |
| PaginationDto.CountOrZero | app/DTO/PaginationDTO.php:11-26 | a missing or null counter reads as 0; any other value is coerced to an `int` as integer input is, so an integer or integer text within 64 bits reads as its value and anything else fails |
| PaginationDto.FromJsonReadsCounters | app/DTO/PaginationDTO.php:21-28 | a mapped block is null or an object, and each counter is the block's counter read with its own `?? 0` |
| PaginationDto.NonIntegerCounterFails | app/DTO/PaginationDTO.php:24-26 | a counter present with a value that is neither null nor an `int` fails the mapping instead of defaulting |
| PaginationDto.CounterTextIsCoerced | app/DTO/PaginationDTO.php:11 | a counter sent as the text "57" is coerced to 57 |
| PaginationDto.ToArray | app/DTO/PaginationDTO.php:33-40 | renders exactly total_count, count and offset, each as the integer counter itself, and reading the rendering back gives the same pagination |
| PaginationDto.MissingBlockIsZero | app/DTO/PaginationDTO.php:21-27 | a null pagination block reads as all-zero counters |
| PaginationDto.CountersDefaultIndependently | app/DTO/PaginationDTO.php:24-26 | a block carrying only total_count keeps it and zeroes the other two |
| GifListDto.MapGifs | app/DTO/GifListDTO.php:24-27 | the data list maps exactly when every element maps; the result keeps the length and maps element by element in order |
| GifListDto.Data | app/DTO/GifListDTO.php:26 | a missing or null `data` reads as the empty list, an array as its items |
| GifListDto.MalformedGifFailsSearch | app/DTO/GifListDTO.php:24-27 | one malformed GIF anywhere in `data` fails the whole search mapping |
| GifListDto.GifsToArray | app/DTO/GifListDTO.php:38 | each GIF is rendered by the GIF's own rendering, in order |
| GifListDto.ToArray | app/DTO/GifListDTO.php:35-41 | renders gifs, one entry per GIF, each the GIF's own rendering in order, and pagination as the pagination's own integer rendering, which reads back to the list's pagination |
| GifListDto.RenderedInProviderOrder | app/DTO/GifListDTO.php:24-27 | the i-th GIF of a mapped list is the mapping of the provider's i-th data entry |
| GifListDto.EmptySearch | app/DTO/GifListDTO.php:20-30 | an empty data list with a null pagination block gives no GIFs and zero counters |
| GifListDto.FromJson | app/DTO/GifListDTO.php:20-30 | no contract of its own; specified by GifListDto.FromJsonParts, GifListDto.MissingPaginationFails, GifListDto.MalformedGifFailsSearch, GifListDto.RenderedInProviderOrder and GifListDto.EmptySearch |
| GifListDto.FromJsonParts | app/DTO/GifListDTO.php:20-30 | a mapped body is an object with a `pagination` member whose mapping is the list's pagination, and its `data` maps to the list's GIFs, one per element |
| GifListDto.MissingPaginationFails | app/DTO/GifListDTO.php:22 | a body without a `pagination` member fails the mapping, whatever its data |
| GifFilterDto.FromRequest | app/DTO/GifFilterDTO.php:21-28 | a filter is built exactly when q is a string and limit, offset are integers (or integer text) within 64 bits, and carries those values |
| GifFilterDto.ToArray | app/DTO/GifFilterDTO.php:30-37 | renders q, limit, offset, and building a filter from the rendering gives the same filter |
| GifFilterDto.QueryTextReadsAsIntegers | app/DTO/GifFilterDTO.php:21-28 | query-string text for limit and offset is read as the integers it spells |
| FavoriteGifDto.FromRequest | app/DTO/FavoriteGifDTO.php:21-28 | a favourite is built exactly when gif_id, alias are strings and user_id an integer (or integer text) within 64 bits, and carries those values |
| FavoriteGifDto.ToArray | app/DTO/FavoriteGifDTO.php:30-37 | renders gif_id, alias, user_id, and building from the rendering gives the same favourite |
| FavoriteGifDto.ToArrayInjective | app/DTO/FavoriteGifDTO.php:30-37 | two favourites with the same row data are the same favourite |
| GiphyClientException.NewProviderError | app/Exceptions/GiphyClientException.php:11-18 | keeps the message; the status is 422 when the message is exactly "Validation error" and the given status otherwise |
| GiphyClientException.StatusIsForcedOrKept | app/Exceptions/GiphyClientException.php:13-16 | the status of a provider error is either 422 or the one given |
| GiphyClientException.NearMissesKeepStatus | app/Exceptions/GiphyClientException.php:13 | the comparison is exact: other casing or punctuation keeps the given status |
| GiphyCacheKeys.SearchKey | app/Clients/GiphyClient.php:25 | no contract of its own; specified by GiphyCacheKeys.ParseSearchKeyRoundTrip, GiphyCacheKeys.SearchKeyInjective and GiphyCacheKeys.KeyKinds |
| GiphyCacheKeys.ShowKey | app/Clients/GiphyClient.php:44 | no contract of its own; specified by GiphyCacheKeys.ShowKeyInjective and GiphyCacheKeys.KeyKinds |
| GiphyCacheKeys.ParseSearchKeyRoundTrip | app/Clients/GiphyClient.php:25 | the search key of a filter decodes back to that filter, whatever the query text holds |
| GiphyCacheKeys.SearchKeyInjective | app/Clients/GiphyClient.php:25 | two different filters never share a cache entry |
| GiphyCacheKeys.ShowKeyInjective | app/Clients/GiphyClient.php:44 | two different GIF ids never share a cache entry |
| GiphyCacheKeys.KeyKinds | app/Clients/GiphyClient.php:25-44 | search keys and lookup keys are told apart by their prefix and never coincide |
| GiphyClient.ErrorMessage | app/Clients/GiphyClient.php:62 | the error message is `meta.msg` when it is a string, "Unknown error" otherwise |
| GiphyClient.HandleErrorResponse | app/Clients/GiphyClient.php:59-67 | a response fails exactly when its status is outside 200..299, and the failure is the provider error built from its message and status |
| GiphyClient.FetchOutcome | app/Clients/GiphyClient.php:28-55 | a fill fails with the provider error exactly when the reply is not 2xx; a 2xx reply succeeds exactly when its payload maps (the whole body as a GIF list for a search, `data` as one GIF for a lookup), and otherwise fails as a mapping error |
| GiphyClient.FetchKind | app/Clients/GiphyClient.php:37-55 | a successful fetch holds a list for a search and a single GIF for a lookup |
| GiphyClient.Fetch | app/Clients/GiphyClient.php:28-55 | no contract of its own; specified by GiphyClient.FetchOutcome and GiphyClient.FetchKind |
| GiphyClient.Remember | app/Clients/GiphyClient.php:27 | no contract of its own; specified by GiphyClient.HitServesStoredValue, GiphyClient.MissCallsProviderOnce, GiphyClient.OtherKeysUntouched, GiphyClient.RepeatWithinWindowIsOneCall and GiphyClient.AfterWindowRefetches |
| GiphyClient.HitServesStoredValue | app/Clients/GiphyClient.php:27 | with a fresh entry the stored value is returned, the store is unchanged and the provider is not called |
| GiphyClient.MissCallsProviderOnce | app/Clients/GiphyClient.php:27-37 | without a fresh entry the provider is called exactly once; a success is stored for 1800 seconds from now and returned, a failure is returned and nothing is stored |
| GiphyClient.OtherKeysUntouched | app/Clients/GiphyClient.php:27 | a remember call does not change any other key's entry |
| GiphyClient.RepeatWithinWindowIsOneCall | app/Clients/GiphyClient.php:27 | two equal requests less than 30 minutes apart call the provider once in total and get the same value, whatever the provider says the second time |
| GiphyClient.AfterWindowRefetches | app/Clients/GiphyClient.php:27 | a request 30 minutes or more after a successful fill calls the provider again |
| GiphyClient.Client.Tick | app/Clients/GiphyClient.php:27 | the clock that `now()` reads moves forward by the given seconds, and the store keeps its invariant |
| GiphyClient.Client.RememberOrFill | app/Clients/GiphyClient.php:27-38 | one `Cache::remember` on the store: the new entries, the provider calls made and the result are those of the remember step, and a successful value has the kind of its key |
| GiphyClient.Client.Fill | app/Clients/GiphyClient.php:27-37 | a miss makes exactly one provider call; a success is stored under the key until now + 1800 seconds, a failure leaves the key absent |
| GiphyClient.Client.FilterGifs | app/Clients/GiphyClient.php:22-39 | the search goes through the cache under the filter's search key: result, new entries and provider calls are those of the remember step, and a success is a GIF list |
| GiphyClient.Client.GetGifById | app/Clients/GiphyClient.php:41-57 | the lookup goes through the cache under the id's lookup key, with the remember step's result, entries and calls; a success is one GIF |
| GifRepository.CreateError | app/Repositories/GifRepository.php:16 | no contract of its own; specified through GifRepository.SaveVerdict and GifRepository.UnknownUserReadsAsDuplicate |
| GifRepository.AfterSave | app/Repositories/GifRepository.php:16 | no contract of its own; specified by GifRepository.SaveKeepsPairsUnique, GifRepository.SecondSaveIsDuplicate, GifRepository.OtherPairsStillAccepted and GifRepository.Repository.SaveFavoriteGif |
| GifRepository.SaveVerdict | app/Repositories/GifRepository.php:13-24 | a save succeeds exactly when the (user, gif) pair is new, the user exists and the alias fits 20 characters; a taken pair is the duplicate error with its message; other failures keep a code other than 23000 |
| GifRepository.SaveKeepsPairsUnique | database/migrations/2024_11_15_201540_create_favorite_gifs_table.php:22 | saving keeps every (user, gif) pair unique in the table |
| GifRepository.SecondSaveIsDuplicate | app/Repositories/GifRepository.php:16-19 | after a successful save, saving the same pair again, under any alias, is reported as a duplicate |
| GifRepository.OtherPairsStillAccepted | database/migrations/2024_11_15_201540_create_favorite_gifs_table.php:22 | a save does not block a different pair that was acceptable before it |
| GifRepository.UnknownUserReadsAsDuplicate | app/Repositories/GifRepository.php:18 | a favourite for a user that does not exist breaks the foreign key, shares SQLSTATE 23000 and is reported as a duplicate |
| GifRepository.Repository.SaveFavoriteGif | app/Repositories/GifRepository.php:13-24 | returns the save verdict for the current table; the row is added exactly when the save succeeds and the table is otherwise unchanged |
| FavoriteGifPolicy.Save | app/Policies/FavoriteGifPolicy.php:13-16 | saving is allowed exactly when the acting user is the favourite's user |
| FavoriteGifPolicy.OnlyTheOwnerCounts | app/Policies/FavoriteGifPolicy.php:13-16 | the decision depends on the favourite's user id only, not on its gif or alias |
| GifService.Service.FilterGifs | app/Services/GifService.php:21-24 | a search is the client's cached search, unchanged |
| GifService.Service.GetGifById | app/Services/GifService.php:26-29 | a lookup is the client's cached lookup, unchanged |
| GifService.Service.SaveFavoriteGif | app/Services/GifService.php:31-34 | a save is the repository's save, with its verdict and new table |
| GifFilterRequest.Failures | app/Http/Requests/GifFilterRequest.php:22-29 | q fails unless it is a present non-blank string of at most 255 characters; limit and offset fail unless absent, null, blank text, or integers at least 1 and 0 |
| GifFilterRequest.WithDefaults | app/Http/Requests/GifFilterRequest.php:31-37 | limit and offset are added as 10 and 0 only when absent; every other input is kept |
| GifFilterRequest.Request.PrepareForValidation | app/Http/Requests/GifFilterRequest.php:31-37 | the request's input becomes its input with the paging defaults merged in |
| GifFilterRequest.DefaultsPass | app/Http/Requests/GifFilterRequest.php:26-36 | a valid query without paging passes validation once the defaults are merged |
| GifFilterRequest.EmptyQueryRejected | app/Http/Requests/GifFilterRequest.php:25 | an empty query fails on q |
| GifFilterRequest.NegativeLimitRejected | app/Http/Requests/GifFilterRequest.php:26 | a limit of -10 fails on limit |
| GifFilterRequest.NegativeOffsetRejected | app/Http/Requests/GifFilterRequest.php:27 | an offset of -5 fails on offset |
| GifFilterRequest.NonNumericPagingRejected | app/Http/Requests/GifFilterRequest.php:26-27 | non-numeric limit and offset fail on exactly those two fields |
| GifFilterRequest.ValidatedInputBuildsFilter | app/Http/Requests/GifFilterRequest.php:25-27 | validated input builds a filter exactly when limit and offset are present and neither null nor blank text, and then carries q and the paging values |
| GifFilterRequest.BlankLimitPassesButCannotBuild | app/Http/Requests/GifFilterRequest.php:26 | a blank limit passes validation and still builds no filter |
| SaveFavoriteGifRequest.Failures | app/Http/Requests/SaveFavoriteGifRequest.php:22-29 | gif_id fails unless a present string matching `^[a-zA-Z0-9_-]+$`; alias unless a present string of at most 20 characters; user_id unless an integer naming an existing user |
| SaveFavoriteGifRequest.EmptyPayloadFailsEverywhere | app/Http/Requests/SaveFavoriteGifRequest.php:25-27 | an empty payload fails on all three fields |
| SaveFavoriteGifRequest.InvalidGifIdRejected | app/Http/Requests/SaveFavoriteGifRequest.php:25 | a gif id with `$` and `!` fails on gif_id |
| SaveFavoriteGifRequest.IntegerAliasRejected | app/Http/Requests/SaveFavoriteGifRequest.php:26 | an integer alias fails on alias |
| SaveFavoriteGifRequest.TrailingNewlineAccepted | app/Http/Requests/SaveFavoriteGifRequest.php:25 | the pattern's `$` lets one trailing newline through, but not two |
| SaveFavoriteGifRequest.ValidatedInputBuildsFavorite | app/Http/Requests/SaveFavoriteGifRequest.php:25-27 | validated input always builds a favourite carrying the submitted values |
| SaveFavoriteGifRequest.ValidatedSaveSucceedsOrIsDuplicate | app/Http/Requests/SaveFavoriteGifRequest.php:25-27 | for validated input the repository either saves or reports a duplicate; no other database error is possible |
| ApiResponse.Success | app/Helpers/ApiResponse.php:6-12 | the envelope has data and message, and pagination only when it is truthy, with the given status |
| ApiResponse.Error | app/Helpers/ApiResponse.php:14-16 | the envelope holds only the message, with the given status |
| ApiResponse.Defaults | app/Helpers/ApiResponse.php:6-15 | the defaults are status 200 with null data and message, and 500 with "Error" |
| GifResource.ToArray | app/Http/Resources/GifResource.php:15-27 | a GIF resource renders the same object as the GIF's own rendering: id, url, title and the three renditions |
| GifResource.Collection | app/Http/Controllers/Api/V1/GifController.php:35 | a resource collection renders every GIF, in order |
| GifController.PaginationResource | app/Http/Controllers/Api/V1/GifController.php:37 | the pagination resource is a truthy object, so a search response always carries pagination |
| GifController.IndexOutcome | app/Http/Controllers/Api/V1/GifController.php:32-41 | no contract of its own; specified by GifController.SearchSuccessShape and GifController.ProviderErrorKeepsItsStatus |
| GifController.ShowOutcome | app/Http/Controllers/Api/V1/GifController.php:72-80 | no contract of its own; specified by GifController.ProviderErrorKeepsItsStatus and GifController.ValidationErrorReachesClientAs422 |
| GifController.StoreResponse | app/Http/Controllers/Api/V1/GifController.php:49-63 | no contract of its own; specified by GifController.StoreStatuses |
| GifController.SearchSuccessShape | app/Http/Controllers/Api/V1/GifController.php:32-38 | a successful search answers 200 with the rendered GIFs as data, a null message and the pagination rendered as its three integer counters (an all-zero object when nothing was found) |
| GifController.ProviderErrorKeepsItsStatus | app/Http/Controllers/Api/V1/GifController.php:39-41 | a provider error answers with its own message and status, for a search and for a lookup |
| GifController.ValidationErrorReachesClientAs422 | app/Http/Controllers/Api/V1/GifController.php:78-80 | a provider failure whose message is "Validation error" reaches the client as 422 with that message, whatever the provider's status |
| GifController.StoreStatuses | app/Http/Controllers/Api/V1/GifController.php:49-63 | a store answers 201 with "GIF saved successfully." when allowed and saved, 409 with the duplicate message on a duplicate, and 500 "Unexpected error." when refused or on any other database error |
| GifController.Controller.Index | app/Http/Controllers/Api/V1/GifController.php:27-42 | a validated search without a buildable filter is uncaught; otherwise it goes through the cached search and answers with the search outcome |
| GifController.Controller.Store | app/Http/Controllers/Api/V1/GifController.php:47-64 | validated input builds a favourite; the repository is touched only when the policy allows, and the answer is the store response for that decision and verdict |
| GifController.Controller.Show | app/Http/Controllers/Api/V1/GifController.php:69-81 | a lookup goes through the cached lookup and answers with the lookup outcome |
| LogServiceInteraction.RedactRequest | app/Http/Middleware/LogServiceInteraction.php:28-31 | the logged body never has a set password; a set password is removed and nothing else changes |
| LogServiceInteraction.RedactResponse | app/Http/Middleware/LogServiceInteraction.php:33-36 | the logged response never has a set `data.access_token`; a set one is removed and nothing else changes |
| LogServiceInteraction.LoggedRequestBody | app/Http/Middleware/LogServiceInteraction.php:28-42 | no contract of its own; specified by LogServiceInteraction.PasswordNeverLogged, LogServiceInteraction.NullPasswordIsKept and LogServiceInteraction.GetLogsRawQuery |
| LogServiceInteraction.RecordFor | app/Http/Middleware/LogServiceInteraction.php:38-47 | no contract of its own; specified by LogServiceInteraction.PasswordNeverLogged, LogServiceInteraction.GetLogsRawQuery, LogServiceInteraction.ResponseLoggedWithoutToken and LogServiceInteraction.AuditLog.Handle |
| LogServiceInteraction.Duration | app/Http/Middleware/LogServiceInteraction.php:46 | the duration is the elapsed milliseconds written as decimal text followed by "ms" |
| LogServiceInteraction.PasswordNeverLogged | app/Http/Middleware/LogServiceInteraction.php:28-42 | a non-GET request's record never holds a set password, and holds every other field of the body |
| LogServiceInteraction.NullPasswordIsKept | app/Http/Middleware/LogServiceInteraction.php:29 | a null password is not "set", so the body is logged unchanged |
| LogServiceInteraction.GetLogsRawQuery | app/Http/Middleware/LogServiceInteraction.php:42 | a GET request logs its query string, not its body, with no redaction |
| LogServiceInteraction.ResponseLoggedWithoutToken | app/Http/Middleware/LogServiceInteraction.php:33-44 | a response with an access token is logged without it, with its status and the rest of its data |
| LogServiceInteraction.RedactionIsIdempotent | app/Http/Middleware/LogServiceInteraction.php:28-36 | redacting twice is redacting once |
| LogServiceInteraction.AuditLog.Handle | app/Http/Middleware/LogServiceInteraction.php:19-54 | the response is the next handler's, returned unchanged, and exactly one record, built from the request, response, user, address and duration, is appended |
| LogServiceInteraction.AuditLog.StorageLogs | app/Http/Middleware/LogServiceInteraction.php:56-59 | the record is appended to the stored audit records |

## Left out

- The HTTP transport to GIPHY, `json_decode` and the API key: the provider is a parameter mapping a call to its decoded response.
- `Log::info`: the log line is a side effect with no observable state in the model; the stored audit record is modelled.
- `Auth::id()`, `$request->ip()`, `$request->path()` and the clock (`microtime`) are parameters; the elapsed time is given as whole milliseconds, so floating-point timing and `round` are not modelled.
- Cache concurrency, other cache stores and a clock that moves while the provider answers: a fill is one atomic step at the time of the request.
- GiphyClient.ErrorMessage: a `meta.msg` that is present but not a string is treated as absent ("Unknown error"); PHP would pass it on or fail on the `string` parameter.
- PHP's scalar coercion is not modelled beyond integer text within 64 bits: booleans, floats and whitespace-padded numbers are not accepted as integers, and an integer is not accepted where a string is typed (for a GIF id, say).
- PaginationDto.CountOrZero: a counter sent as a float, a boolean or numeric text with a fraction, exponent or padding fails in the model, where PHP's `int` parameter would coerce it.
- Laravel's conversion of a missing object property into an exception is modelled as a mapping failure (`MappingError`), reported as an exception the controller does not catch; the framework's rendering of such exceptions is not modelled.
- Validation messages and the 422 response the framework renders for failed validation: `Failures` names the failing fields, and the controller actions take validated input.
- The framework's `TrimStrings` and `ConvertEmptyStringsToNull` middleware are not part of this model; blank-string checks follow the `required` rule, and a blank `limit` or `offset`, which those middleware would turn into null, is treated like null.
- Both form requests' `authorize()` return true and need no member.
- `PaginationResource` is not part of this model; it is rendered as the pagination's own `toArray`.
- The GIF resource's `Request` parameter is unused by the source and left out.
- The row id, timestamps and cascade delete of `favorite_gifs`; the database is assumed to report SQLSTATE 23000 for unique and foreign-key violations and 22001 for an alias longer than 20 characters; the unique `(user_id, gif_id)` index is taken to compare gif ids exactly, character by character, so a case-insensitive column collation, under which `AbC` and `abc` would collide, is not modelled.
- GifRepository.CreateError: a row that breaks several constraints at once is given the SQLSTATE of the first in the order duplicate pair, unknown user, alias too long; which one a real database engine reports first depends on the engine. Validated input never has an alias longer than 20 characters, so only the first two can meet.
- A failure to write the audit record (`ServiceLog::create` throwing) is not modelled.
- The `ServiceLog` model's casts and the log table schema.
- Authentication (login, tokens, `AuthService`, `AuthRepository`), routes and service-provider bindings are outside this core.
- GiphyClient.Client.FilterGifs, GiphyClient.Client.GetGifById: the ghost record of provider calls is a proof device; the source keeps no such list.

## Findings

None claimed. The 500 answer for a refused save (see above) is stated as the code
behaves; whether the authors meant 403 is not decided here.
