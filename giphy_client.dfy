/** The read-through cache in front of the GIF provider
    (app/Clients/GiphyClient.php). Entries live for 30 minutes; a stale entry is
    forgotten when it is read, and a failed fill stores nothing. */
module GiphyClient {
  import opened Json
  import opened Http
  import opened GifFilterDto
  import GifClientDto
  import GifListDto
  import opened GiphyClientException
  import opened GiphyCacheKeys

  /** `now()->addMinutes(30)`, with the clock counted in seconds. */
  const TtlSeconds: int := 30 * 60

  /** The two requests the client sends to the provider. */
  datatype ProviderCall = SearchCall(filter: GifFilter) | ShowCall(gifId: string)

  datatype Result<T> = Ok(value: T) | Err(error: ClientError)

  datatype Cached = Listing(list: GifListDto.GifList) | Single(gif: GifClientDto.Gif)

  datatype Entry = Entry(value: Cached, expiresAt: int)

  /** `$response->json('meta.msg') ?? 'Unknown error'`. */
  function ErrorMessage(body: Json): (m: string)
    ensures (Member(body, "meta").Some? && StringMember(body.fields["meta"], "msg").Some?) ==>
      m == body.fields["meta"].fields["msg"].s
    ensures (Member(body, "meta").None? || StringMember(body.fields["meta"], "msg").None?) ==>
      m == "Unknown error"
  {
    match Member(body, "meta")
    case Some(meta) =>
      (match StringMember(meta, "msg")
       case Some(msg) => msg
       case None => "Unknown error")
    case None => "Unknown error"
  }

  /** `handleErrorResponse`: nothing for a 2xx reply, otherwise the provider
      error with `meta.msg` and the reply's status. */
  function HandleErrorResponse(reply: Response): (r: Option<ClientError>)
    ensures r.None? <==> Successful(reply.status)
    ensures r.Some? ==> r.value == NewProviderError(ErrorMessage(reply.content), reply.status)
  {
    if Successful(reply.status) then None
    else Some(NewProviderError(ErrorMessage(reply.content), reply.status))
  }

  /** A search reply's body mapped as a GIF list. */
  function MapListing(content: Json): Result<Cached> {
    match GifListDto.FromJson(content)
    case Some(l) => Ok(Listing(l))
    case None => Err(MappingError)
  }

  /** A lookup reply's `data` member mapped as one GIF. */
  function MapSingle(content: Json): Result<Cached> {
    match Member(content, "data")
    case Some(data) =>
      (match GifClientDto.FromJson(data)
       case Some(g) => Ok(Single(g))
       case None => Err(MappingError))
    case None => Err(MappingError)
  }

  /** The body of the fill callback: check the reply, then map the whole body
      (search) or only its `data` member (lookup). */
  function Fetch(call: ProviderCall, reply: Response): Result<Cached>
  {
    match HandleErrorResponse(reply)
    case Some(e) => Err(e)
    case None =>
      match call
      case SearchCall(_) => MapListing(reply.content)
      case ShowCall(_) => MapSingle(reply.content)
  }

  /** A fill fails with the provider's error exactly when the reply is not
      2xx; a 2xx reply succeeds exactly when its payload maps, a search as a
      GIF list of the whole body and a lookup as one GIF of its `data`. */
  lemma FetchOutcome(call: ProviderCall, reply: Response)
    ensures !Successful(reply.status) ==> Fetch(call, reply) == Err(NewProviderError(ErrorMessage(reply.content), reply.status))
    ensures Successful(reply.status) ==> Fetch(call, reply).Ok? || Fetch(call, reply) == Err(MappingError)
    ensures Successful(reply.status) && call.SearchCall? ==>
      (Fetch(call, reply).Ok? <==> GifListDto.FromJson(reply.content).Some?)
      && (Fetch(call, reply).Ok? ==> Fetch(call, reply).value == Listing(GifListDto.FromJson(reply.content).value))
    ensures Successful(reply.status) && call.ShowCall? ==>
      (Fetch(call, reply).Ok? <==> Member(reply.content, "data").Some? && GifClientDto.FromJson(reply.content.fields["data"]).Some?)
      && (Fetch(call, reply).Ok? ==> Fetch(call, reply).value == Single(GifClientDto.FromJson(reply.content.fields["data"]).value))
  {
  }

  /** A search fills with a search result and a lookup with a single GIF. */
  lemma FetchKind(call: ProviderCall, reply: Response)
    ensures Fetch(call, reply).Ok? ==> (Fetch(call, reply).value.Listing? <==> call.SearchCall?)
  {
  }

  /** An entry that may still be served at time `now`. */
  predicate Fresh(entries: map<string, Entry>, now: int, key: string) {
    key in entries && now < entries[key].expiresAt
  }

  /** What one `Cache::remember` does: the new entries, the value or error
      returned, and the provider calls made (none or one). */
  datatype Step = Step(entries: map<string, Entry>, result: Result<Cached>, calls: seq<ProviderCall>)

  function Remember(entries: map<string, Entry>, now: int, key: string, call: ProviderCall,
                    provider: ProviderCall -> Response): Step
  {
    if Fresh(entries, now, key) then Step(entries, Ok(entries[key].value), [])
    else
      var r := Fetch(call, provider(call));
      Step(if r.Ok? then entries[key := Entry(r.value, now + TtlSeconds)] else entries - {key}, r, [call])
  }

  /** A fresh entry is served as stored, with no provider call and no change. */
  lemma HitServesStoredValue(entries: map<string, Entry>, now: int, key: string, call: ProviderCall,
                             provider: ProviderCall -> Response)
    requires Fresh(entries, now, key)
    ensures Remember(entries, now, key, call, provider) == Step(entries, Ok(entries[key].value), [])
  {
  }

  /** A missing or stale entry costs exactly one provider call; a successful
      fill is stored until now + 30 minutes, a failed one leaves the key absent. */
  lemma MissCallsProviderOnce(entries: map<string, Entry>, now: int, key: string, call: ProviderCall,
                              provider: ProviderCall -> Response)
    requires !Fresh(entries, now, key)
    ensures var s := Remember(entries, now, key, call, provider);
      && s.calls == [call]
      && s.result == Fetch(call, provider(call))
      && (s.result.Ok? ==> key in s.entries && s.entries[key] == Entry(s.result.value, now + TtlSeconds))
      && (s.result.Err? ==> key !in s.entries)
  {
  }

  /** A lookup or fill for one key leaves every other key's entry as it was. */
  lemma OtherKeysUntouched(entries: map<string, Entry>, now: int, key: string, call: ProviderCall,
                           provider: ProviderCall -> Response, other: string)
    requires other != key
    ensures var s := Remember(entries, now, key, call, provider);
      (other in s.entries <==> other in entries) && (other in entries ==> s.entries[other] == entries[other])
  {
  }

  /** The same request repeated within 30 minutes of a fill is served from the
      cache: two requests, one provider call, the same answer. */
  lemma RepeatWithinWindowIsOneCall(entries: map<string, Entry>, now: int, later: int, key: string,
                                    call: ProviderCall, p1: ProviderCall -> Response, p2: ProviderCall -> Response)
    requires !Fresh(entries, now, key)
    requires Fetch(call, p1(call)).Ok?
    requires now <= later < now + TtlSeconds
    ensures var s1 := Remember(entries, now, key, call, p1);
      var s2 := Remember(s1.entries, later, key, call, p2);
      s1.calls + s2.calls == [call] && s2.result == s1.result && s2.entries == s1.entries
  {
    var s1 := Remember(entries, now, key, call, p1);
    assert Fresh(s1.entries, later, key);
  }

  /** Once the window has passed the provider is asked again, and a successful
      refill moves the expiry later. */
  lemma AfterWindowRefetches(entries: map<string, Entry>, now: int, later: int, key: string,
                             call: ProviderCall, p1: ProviderCall -> Response, p2: ProviderCall -> Response)
    requires !Fresh(entries, now, key)
    requires Fetch(call, p1(call)).Ok?
    requires later >= now + TtlSeconds
    ensures var s1 := Remember(entries, now, key, call, p1);
      var s2 := Remember(s1.entries, later, key, call, p2);
      && s2.calls == [call]
      && (s2.result.Ok? ==> s2.entries[key].expiresAt == later + TtlSeconds > s1.entries[key].expiresAt)
  {
    var s1 := Remember(entries, now, key, call, p1);
    assert !Fresh(s1.entries, later, key);
  }

  /** Search keys hold search results and lookup keys hold single GIFs. */
  ghost predicate KindsAgree(entries: map<string, Entry>) {
    forall k :: k in entries ==> (entries[k].value.Listing? <==> IsSearchKey(k))
  }

  /** Storing a value of the key's own kind keeps the kinds in agreement. */
  lemma StoreKeepsKinds(entries: map<string, Entry>, key: string, e: Entry)
    requires KindsAgree(entries)
    requires e.value.Listing? <==> IsSearchKey(key)
    ensures KindsAgree(entries[key := e])
  {
  }

  lemma DropKeepsKinds(entries: map<string, Entry>, key: string)
    requires KindsAgree(entries)
    ensures KindsAgree(entries - {key})
  {
  }

  /** The cache itself: entries by key, the clock in seconds, and (ghost) every
      call made to the provider, in order. */
  class Client {
    var entries: map<string, Entry>
    var clock: int
    ghost var calls: seq<ProviderCall>

    ghost predicate Valid()
      reads this
    {
      KindsAgree(entries)
    }

    constructor (now: int)
      ensures Valid() && entries == map[] && clock == now && calls == []
    {
      entries := map[];
      clock := now;
      calls := [];
    }

    /** Time passes: the clock that `now()` reads moves forward. Entries are
        not touched; they go stale only by comparison with the clock. */
    method Tick(seconds: nat)
      requires Valid()
      modifies this`clock
      ensures Valid()
      ensures clock == old(clock) + seconds
    {
      clock := clock + seconds;
    }

    /** `Cache::remember(key, now()->addMinutes(30), fill)` on this store, the
        fill being the provider call `call`. */
    method RememberOrFill(key: string, call: ProviderCall, provider: ProviderCall -> Response)
      returns (result: Result<Cached>)
      requires Valid()
      requires IsSearchKey(key) <==> call.SearchCall?
      modifies this`entries, this`calls
      ensures Valid()
      ensures var s := Remember(old(entries), clock, key, call, provider);
        entries == s.entries && calls == old(calls) + s.calls && result == s.result
      ensures result.Ok? ==> (result.value.Listing? <==> call.SearchCall?)
    {
      ghost var s := Remember(entries, clock, key, call, provider);
      if key in entries && clock < entries[key].expiresAt {
        assert s == Step(entries, Ok(entries[key].value), []);
        result := Ok(entries[key].value);
      } else {
        assert s.result == Fetch(call, provider(call)) && s.calls == [call];
        assert s.entries == (if s.result.Ok? then entries[key := Entry(s.result.value, clock + TtlSeconds)] else entries - {key});
        result := Fill(key, call, provider);
      }
    }

    /** The fill of a missing or stale entry: one provider call, and the value
        stored for 30 minutes when the call succeeds, the key dropped when it
        fails. */
    method Fill(key: string, call: ProviderCall, provider: ProviderCall -> Response)
      returns (result: Result<Cached>)
      requires Valid()
      requires IsSearchKey(key) <==> call.SearchCall?
      modifies this`entries, this`calls
      ensures Valid()
      ensures result == Fetch(call, provider(call)) && calls == old(calls) + [call]
      ensures result.Ok? ==> (result.value.Listing? <==> call.SearchCall?)
      ensures result.Ok? ==> entries == old(entries)[key := Entry(result.value, clock + TtlSeconds)]
      ensures result.Err? ==> entries == old(entries) - {key}
    {
      calls := calls + [call];
      result := Fetch(call, provider(call));
      FetchKind(call, provider(call));
      if result.Ok? {
        StoreKeepsKinds(entries, key, Entry(result.value, clock + TtlSeconds));
        entries := entries[key := Entry(result.value, clock + TtlSeconds)];
      } else {
        DropKeepsKinds(entries, key);
        entries := entries - {key};
      }
    }

    /** `GiphyClient::filterGifs`. */
    method FilterGifs(filter: GifFilter, provider: ProviderCall -> Response) returns (r: Result<GifListDto.GifList>)
      requires Valid()
      modifies this`entries, this`calls
      ensures Valid()
      ensures var s := Remember(old(entries), clock, SearchKey(filter), SearchCall(filter), provider);
        && entries == s.entries && calls == old(calls) + s.calls
        && (s.result.Ok? ==> s.result.value.Listing? && r == Ok(s.result.value.list))
        && (s.result.Err? ==> r == Err(s.result.error))
    {
      SearchKeyKind(filter);
      var cached := RememberOrFill(SearchKey(filter), SearchCall(filter), provider);
      match cached
      case Ok(Listing(list)) => r := Ok(list);
      case Err(e) => r := Err(e);
    }

    /** `GiphyClient::getGifById`. */
    method GetGifById(gifId: string, provider: ProviderCall -> Response) returns (r: Result<GifClientDto.Gif>)
      requires Valid()
      modifies this`entries, this`calls
      ensures Valid()
      ensures var s := Remember(old(entries), clock, ShowKey(gifId), ShowCall(gifId), provider);
        && entries == s.entries && calls == old(calls) + s.calls
        && (s.result.Ok? ==> s.result.value.Single? && r == Ok(s.result.value.gif))
        && (s.result.Err? ==> r == Err(s.result.error))
    {
      ShowKeyKind(gifId);
      var cached := RememberOrFill(ShowKey(gifId), ShowCall(gifId), provider);
      match cached
      case Ok(Single(gif)) => r := Ok(gif);
      case Err(e) => r := Err(e);
    }
  }
}
