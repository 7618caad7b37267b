/** Who may save a favourite (app/Policies/FavoriteGifPolicy.php). */
module FavoriteGifPolicy {
  import opened FavoriteGifDto

  /** `FavoriteGifPolicy::save`: only the user the favourite belongs to. */
  function Save(actingUserId: int, f: FavoriteGif): (allowed: bool)
    ensures allowed <==> actingUserId == f.userId
  {
    actingUserId == f.userId
  }

  /** The GIF and the alias play no part: favourites of the same user get the
      same answer for every acting user. */
  lemma OnlyTheOwnerCounts(actingUserId: int, f: FavoriteGif, g: FavoriteGif)
    requires f.userId == g.userId
    ensures Save(actingUserId, f) == Save(actingUserId, g)
  {
  }
}
