/** Validation of a search request (app/Http/Requests/GifFilterRequest.php). */
module GifFilterRequest {
  import opened Json
  import opened IntText
  import opened ValidationRules
  import GifFilterDto

  const DefaultLimit: int := 10
  const DefaultOffset: int := 0
  const MaxQueryLength: nat := 255

  /** `nullable|integer|min:n`: absent, null or a blank string passes (Laravel
      runs rules that are not implicit only on non-blank values); otherwise an
      integer of at least n. */
  predicate NullableIntAtLeast(input: map<string, Json>, field: string, n: int) {
    || field !in input
    || input[field] == JNull
    || (input[field].JStr? && Blank(input[field].s))
    || (IsInteger(input[field]) && AsInt(input[field]).value >= n)
  }

  /** A value that passes validation and still cannot fill the `int` parameter. */
  predicate NullOrBlank(j: Json) {
    j == JNull || (j.JStr? && Blank(j.s))
  }

  /** `rules()`: the fields that fail, out of `q`, `limit` and `offset`. */
  function Failures(input: map<string, Json>): (failed: set<string>)
    ensures failed <= {"q", "limit", "offset"}
    ensures "q" !in failed <==> Required(input, "q") && StringAtMost(input["q"], MaxQueryLength)
    ensures "limit" !in failed <==> NullableIntAtLeast(input, "limit", 1)
    ensures "offset" !in failed <==> NullableIntAtLeast(input, "offset", 0)
  {
    (if Required(input, "q") && StringAtMost(input["q"], MaxQueryLength) then {} else {"q"})
    + (if NullableIntAtLeast(input, "limit", 1) then {} else {"limit"})
    + (if NullableIntAtLeast(input, "offset", 0) then {} else {"offset"})
  }

  /** The input after `prepareForValidation`: `limit` and `offset` keep any value
      they have (even null) and are otherwise 10 and 0. */
  function WithDefaults(input: map<string, Json>): (m: map<string, Json>)
    ensures m.Keys == input.Keys + {"limit", "offset"}
    ensures m["limit"] == if "limit" in input then input["limit"] else JInt(DefaultLimit)
    ensures m["offset"] == if "offset" in input then input["offset"] else JInt(DefaultOffset)
    ensures forall k :: k in input && k != "limit" && k != "offset" ==> m[k] == input[k]
  {
    var limit := if "limit" in input then input["limit"] else JInt(DefaultLimit);
    var offset := if "offset" in input then input["offset"] else JInt(DefaultOffset);
    input["limit" := limit]["offset" := offset]
  }

  /** The form request: its input bag, which `prepareForValidation` updates. */
  class Request {
    var input: map<string, Json>

    constructor (input: map<string, Json>)
      ensures this.input == input
    {
      this.input := input;
    }

    /** `$this->merge(['limit' => input('limit', 10), 'offset' => input('offset', 0)])`. */
    method PrepareForValidation()
      modifies this
      ensures input == WithDefaults(old(input))
    {
      var limit := if "limit" in input then input["limit"] else JInt(DefaultLimit);
      var offset := if "offset" in input then input["offset"] else JInt(DefaultOffset);
      input := input["limit" := limit];
      input := input["offset" := offset];
    }
  }

  /** The defaults always validate: a search with only a valid `q` passes. */
  lemma DefaultsPass(input: map<string, Json>)
    requires "limit" !in input && "offset" !in input
    requires Required(input, "q") && StringAtMost(input["q"], MaxQueryLength)
    ensures Failures(WithDefaults(input)) == {}
  {
    assert AsInt(JInt(DefaultLimit)) == Some(10);
    assert AsInt(JInt(DefaultOffset)) == Some(0);
  }

  /** An empty `q` is rejected, whatever the defaults. */
  lemma EmptyQueryRejected()
    ensures "q" in Failures(WithDefaults(map["q" := JStr("")]))
  {
  }

  /** A negative `limit` is rejected. */
  lemma NegativeLimitRejected()
    ensures "limit" in Failures(map["q" := JStr("batman"), "limit" := JStr("-10"), "offset" := JStr("1")])
  {
    assert ParseInt("-10") == Some(-10) by {
      assert "-10"[1..] == "10" && "10"[..1] == "1" && "1"[..0] == "";
      assert DigitsValue("1") == 1;
      assert DigitsValue("10") == 10;
    }
  }

  /** A negative `offset` is rejected. */
  lemma NegativeOffsetRejected()
    ensures "offset" in Failures(map["q" := JStr("batman"), "limit" := JStr("10"), "offset" := JStr("-5")])
  {
    assert ParseInt("-5") == Some(-5) by {
      assert "-5"[1..] == "5";
    }
  }

  /** A blank `limit` passes validation, yet no filter can be built from it. */
  lemma BlankLimitPassesButCannotBuild()
    ensures Failures(map["q" := JStr("batman"), "limit" := JStr(" "), "offset" := JInt(0)]) == {}
    ensures GifFilterDto.FromRequest(map["q" := JStr("batman"), "limit" := JStr(" "), "offset" := JInt(0)]).None?
  {
    assert !Blank("batman") by { assert !IsTrimmed("batman"[0]); }
    assert ParseInt(" ") == None by { assert !IsDigit(" "[0]); }
  }

  /** Non-numeric `limit` and `offset` both fail, and `q` passes. */
  lemma NonNumericPagingRejected()
    ensures Failures(map["q" := JStr("batman"), "limit" := JStr("abc"), "offset" := JStr("xyz")]) == {"limit", "offset"}
  {
    assert ParseInt("abc") == None by { assert !IsDigit("abc"[0]); }
    assert ParseInt("xyz") == None by { assert !IsDigit("xyz"[0]); }
    assert !Blank("batman") by { assert !IsTrimmed("batman"[0]); }
  }

  /** A validated search builds its filter: `q` is a non-blank string of at
      most 255 characters, `limit` at least 1 and `offset` at least 0; only a
      `limit` or `offset` sent explicitly as null or as blank text passes
      validation and still cannot be built. */
  lemma ValidatedInputBuildsFilter(input: map<string, Json>)
    requires Failures(input) == {}
    ensures GifFilterDto.FromRequest(input).Some? <==>
      "limit" in input && !NullOrBlank(input["limit"]) && "offset" in input && !NullOrBlank(input["offset"])
    ensures GifFilterDto.FromRequest(input).Some? ==>
      var f := GifFilterDto.FromRequest(input).value;
      !Blank(f.q) && |f.q| <= MaxQueryLength && f.limit >= 1 && f.offset >= 0
  {
  }
}
