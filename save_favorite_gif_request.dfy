/** Validation of a save-favourite request
    (app/Http/Requests/SaveFavoriteGifRequest.php). The `exists` rule reads the
    users table, given here as the set of existing user ids. */
module SaveFavoriteGifRequest {
  import opened Json
  import opened IntText
  import opened ValidationRules
  import FavoriteGifDto
  import GifRepository

  const MaxAliasLength: nat := 20

  predicate IsGifIdChar(c: char) {
    ('a' <= c <= 'z') || ('A' <= c <= 'Z') || ('0' <= c <= '9') || c == '_' || c == '-'
  }

  predicate AllGifIdChars(s: string) {
    forall i :: 0 <= i < |s| ==> IsGifIdChar(s[i])
  }

  /** `preg_match('/^[a-zA-Z0-9_-]+$/', s)`. Without the D modifier `$` also
      matches before a final newline, so one trailing "\n" is let through. */
  predicate MatchesGifIdPattern(s: string) {
    (|s| > 0 && AllGifIdChars(s)) || (|s| > 1 && s[|s| - 1] == '\n' && AllGifIdChars(s[..|s| - 1]))
  }

  /** `rules()`: the fields that fail, out of `gif_id`, `alias` and `user_id`. */
  function Failures(input: map<string, Json>, users: set<int>): (failed: set<string>)
    ensures failed <= {"gif_id", "alias", "user_id"}
    ensures "gif_id" !in failed <==>
      Required(input, "gif_id") && input["gif_id"].JStr? && MatchesGifIdPattern(input["gif_id"].s)
    ensures "alias" !in failed <==> Required(input, "alias") && StringAtMost(input["alias"], MaxAliasLength)
    ensures "user_id" !in failed <==>
      Required(input, "user_id") && IsInteger(input["user_id"]) && AsInt(input["user_id"]).value in users
  {
    (if Required(input, "gif_id") && input["gif_id"].JStr? && MatchesGifIdPattern(input["gif_id"].s) then {} else {"gif_id"})
    + (if Required(input, "alias") && StringAtMost(input["alias"], MaxAliasLength) then {} else {"alias"})
    + (if Required(input, "user_id") && IsInteger(input["user_id"]) && AsInt(input["user_id"]).value in users then {} else {"user_id"})
  }

  /** An empty payload fails on all three fields. */
  lemma EmptyPayloadFailsEverywhere(users: set<int>)
    ensures Failures(map[], users) == {"gif_id", "alias", "user_id"}
  {
  }

  /** An id with characters outside the class is rejected. */
  lemma InvalidGifIdRejected(users: set<int>, alias: string, userId: int)
    ensures "gif_id" in Failures(map["gif_id" := JStr("invalid$id!"), "alias" := JStr(alias), "user_id" := JInt(userId)], users)
  {
    var s := "invalid$id!";
    assert !IsGifIdChar(s[7]);
    assert s[|s| - 1] != '\n';
  }

  /** An alias sent as the integer 123 is rejected. */
  lemma IntegerAliasRejected(users: set<int>, gifId: string, userId: int)
    ensures "alias" in Failures(map["gif_id" := JStr(gifId), "alias" := JInt(123), "user_id" := JInt(userId)], users)
  {
  }

  /** The pattern accepts a valid id followed by one newline. */
  lemma TrailingNewlineAccepted()
    ensures MatchesGifIdPattern("abc\n")
    ensures !MatchesGifIdPattern("abc\n\n")
  {
    assert "abc\n"[..3] == "abc";
    var t := "abc\n\n";
    assert !IsGifIdChar(t[3]);
    assert t[..4][3] == '\n';
  }

  /** A validated request builds its favourite: a non-empty id of the allowed
      characters (possibly with one final newline), an alias of at most 20
      characters and an existing user. */
  lemma ValidatedInputBuildsFavorite(input: map<string, Json>, users: set<int>)
    requires Failures(input, users) == {}
    ensures FavoriteGifDto.FromRequest(input).Some?
    ensures var f := FavoriteGifDto.FromRequest(input).value;
      MatchesGifIdPattern(f.gifId) && |f.alias| <= MaxAliasLength && f.userId in users
  {
  }

  /** So the store can refuse a validated favourite only as a duplicate: the
      foreign key and the alias column width are never what fails. */
  lemma ValidatedSaveSucceedsOrIsDuplicate(input: map<string, Json>, users: set<int>, rows: set<FavoriteGifDto.FavoriteGif>)
    requires Failures(input, users) == {}
    ensures FavoriteGifDto.FromRequest(input).Some?
    ensures var v := GifRepository.SaveVerdict(rows, users, FavoriteGifDto.FromRequest(input).value);
      v.Saved? || v == GifRepository.DuplicateFavorite(GifRepository.DuplicateMessage)
  {
    ValidatedInputBuildsFavorite(input, users);
  }
}
