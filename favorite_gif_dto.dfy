/** A favourite: which user gave which GIF which alias. */
module FavoriteGifDto {
  import opened Json
  import opened IntText

  datatype FavoriteGif = FavoriteGif(gifId: string, alias: string, userId: Int64)

  /** `FavoriteGifDTO::fromRequest`: `gif_id`, `alias`, `user_id` copied from the
      input; a value the typed constructor cannot take is a failure. */
  function FromRequest(input: map<string, Json>): (r: Option<FavoriteGif>)
    ensures r.Some? <==>
      "gif_id" in input && input["gif_id"].JStr?
      && "alias" in input && input["alias"].JStr?
      && "user_id" in input && AsInt(input["user_id"]).Some?
    ensures r.Some? ==>
      && input["gif_id"] == JStr(r.value.gifId)
      && input["alias"] == JStr(r.value.alias)
      && AsInt(input["user_id"]) == Some(r.value.userId)
  {
    if "gif_id" in input && input["gif_id"].JStr? && "alias" in input && input["alias"].JStr? && "user_id" in input then
      match AsInt(input["user_id"])
      case Some(userId) => Some(FavoriteGif(input["gif_id"].s, input["alias"].s, userId))
      case None => None
    else None
  }

  /** `FavoriteGifDTO::toArray`, the row the repository writes: exactly
      `gif_id`, `alias`, `user_id`; building from it gives the same favourite. */
  function ToArray(f: FavoriteGif): (j: Json)
    ensures j.JObj? && j.fields.Keys == {"gif_id", "alias", "user_id"}
    ensures FromRequest(j.fields) == Some(f)
  {
    JObj(map["gif_id" := JStr(f.gifId), "alias" := JStr(f.alias), "user_id" := JInt(f.userId)])
  }

  /** Distinct favourites write distinct rows. */
  lemma ToArrayInjective(a: FavoriteGif, b: FavoriteGif)
    requires ToArray(a) == ToArray(b)
    ensures a == b
  {
    assert Some(a) == FromRequest(ToArray(a).fields) == FromRequest(ToArray(b).fields) == Some(b);
  }
}
