/** The favourites table and the repository that inserts into it
    (app/Repositories/GifRepository.php). The table enforces a unique
    (user_id, gif_id) pair, a foreign key to the users table and a 20-character
    alias column; the repository turns SQLSTATE 23000 into the duplicate error. */
module GifRepository {
  import opened Json
  import opened FavoriteGifDto

  /** The default message of DuplicateFavoriteGifException. */
  const DuplicateMessage: string := "There is already a favorite GIF with this ID for this user."

  /** SQLSTATE of an integrity constraint violation (unique or foreign key). */
  const IntegrityViolation: int := 23000
  /** SQLSTATE of a value too long for its column. */
  const StringTooLong: int := 22001
  const AliasColumnWidth: nat := 20

  datatype SaveResult = Saved | DuplicateFavorite(message: string) | QueryFailed(code: int)

  /** Some stored favourite already has this user and GIF. */
  predicate PairTaken(rows: set<FavoriteGif>, f: FavoriteGif) {
    exists r :: r in rows && r.userId == f.userId && r.gifId == f.gifId
  }

  /** What the store reports for `FavoriteGif::create`: the SQLSTATE of the first
      constraint the row violates, if any. */
  function CreateError(rows: set<FavoriteGif>, users: set<int>, f: FavoriteGif): Option<int> {
    if PairTaken(rows, f) then Some(IntegrityViolation)
    else if f.userId !in users then Some(IntegrityViolation)
    else if |f.alias| > AliasColumnWidth then Some(StringTooLong)
    else None
  }

  /** `saveFavoriteGif`: success, the duplicate error for code 23000, and any
      other query error re-raised unchanged. */
  function SaveVerdict(rows: set<FavoriteGif>, users: set<int>, f: FavoriteGif): (r: SaveResult)
    ensures r.Saved? <==> !PairTaken(rows, f) && f.userId in users && |f.alias| <= AliasColumnWidth
    ensures PairTaken(rows, f) ==> r == DuplicateFavorite(DuplicateMessage)
    ensures r.QueryFailed? ==> r.code != IntegrityViolation && r.code == CreateError(rows, users, f).value
  {
    match CreateError(rows, users, f)
    case None => Saved
    case Some(code) => if code == IntegrityViolation then DuplicateFavorite(DuplicateMessage) else QueryFailed(code)
  }

  /** The table after a save attempt. */
  function AfterSave(rows: set<FavoriteGif>, users: set<int>, f: FavoriteGif): set<FavoriteGif> {
    if SaveVerdict(rows, users, f).Saved? then rows + {f} else rows
  }

  /** No two stored favourites share a (user_id, gif_id) pair. */
  ghost predicate PairsUnique(rows: set<FavoriteGif>) {
    forall a, b :: a in rows && b in rows && a.userId == b.userId && a.gifId == b.gifId ==> a == b
  }

  lemma SaveKeepsPairsUnique(rows: set<FavoriteGif>, users: set<int>, f: FavoriteGif)
    requires PairsUnique(rows)
    ensures PairsUnique(AfterSave(rows, users, f))
  {
    if SaveVerdict(rows, users, f).Saved? {
      assert !PairTaken(rows, f);
    }
  }

  /** Two saves of the same (user, GIF) pair: once the first succeeded the
      second is the duplicate error and changes nothing. */
  lemma SecondSaveIsDuplicate(rows: set<FavoriteGif>, users: set<int>, f: FavoriteGif, g: FavoriteGif)
    requires SaveVerdict(rows, users, f).Saved?
    requires g.userId == f.userId && g.gifId == f.gifId
    ensures var rows' := AfterSave(rows, users, f);
      SaveVerdict(rows', users, g) == DuplicateFavorite(DuplicateMessage) && AfterSave(rows', users, g) == rows'
  {
    assert f in AfterSave(rows, users, f);
  }

  /** The uniqueness is on the pair: the same GIF for another user, or another
      GIF for the same user, is accepted after a save. */
  lemma OtherPairsStillAccepted(rows: set<FavoriteGif>, users: set<int>, f: FavoriteGif, g: FavoriteGif)
    requires SaveVerdict(rows, users, f).Saved?
    requires SaveVerdict(rows, users, g).Saved?
    requires g.userId != f.userId || g.gifId != f.gifId
    ensures SaveVerdict(AfterSave(rows, users, f), users, g).Saved?
  {
    assert !PairTaken(rows, g);
  }

  /** Every 23000 becomes the duplicate error: a row for an unknown user (a
      foreign-key violation) is reported as a duplicate too. */
  lemma UnknownUserReadsAsDuplicate(rows: set<FavoriteGif>, users: set<int>, f: FavoriteGif)
    requires f.userId !in users
    ensures SaveVerdict(rows, users, f) == DuplicateFavorite(DuplicateMessage)
  {
  }

  /** The favourites table, with the ids of the existing users. */
  class Repository {
    var favorites: set<FavoriteGif>
    var users: set<int>

    ghost predicate Valid()
      reads this
    {
      PairsUnique(favorites)
    }

    constructor (users: set<int>)
      ensures Valid() && favorites == {} && this.users == users
    {
      favorites := {};
      this.users := users;
    }

    /** `GifRepository::saveFavoriteGif`: inserts the row `ToArray(f)`. */
    method SaveFavoriteGif(f: FavoriteGif) returns (r: SaveResult)
      requires Valid()
      modifies this`favorites
      ensures Valid()
      ensures r == SaveVerdict(old(favorites), users, f)
      ensures favorites == AfterSave(old(favorites), users, f)
      ensures r.Saved? ==> favorites == old(favorites) + {f} && f !in old(favorites)
      ensures !r.Saved? ==> favorites == old(favorites)
    {
      SaveKeepsPairsUnique(favorites, users, f);
      var error := CreateError(favorites, users, f);
      if error.None? {
        favorites := favorites + {f};
        r := Saved;
      } else if error.value == IntegrityViolation {
        r := DuplicateFavorite(DuplicateMessage);
      } else {
        r := QueryFailed(error.value);
      }
    }
  }
}
