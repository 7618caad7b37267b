/** The search parameters, built once per request from its validated input. */
module GifFilterDto {
  import opened Json
  import opened IntText

  datatype GifFilter = GifFilter(q: string, limit: Int64, offset: Int64)

  /** `GifFilterDTO::fromRequest`: `q`, `limit`, `offset` copied from the input,
      `q` without trimming or case folding. A value the typed constructor cannot
      take (a missing `q`, a null `limit`) is a failure. */
  function FromRequest(input: map<string, Json>): (r: Option<GifFilter>)
    ensures r.Some? <==>
      "q" in input && input["q"].JStr?
      && "limit" in input && AsInt(input["limit"]).Some?
      && "offset" in input && AsInt(input["offset"]).Some?
    ensures r.Some? ==>
      && input["q"] == JStr(r.value.q)
      && AsInt(input["limit"]) == Some(r.value.limit)
      && AsInt(input["offset"]) == Some(r.value.offset)
  {
    if "q" in input && input["q"].JStr? && "limit" in input && "offset" in input then
      match (AsInt(input["limit"]), AsInt(input["offset"]))
      case (Some(limit), Some(offset)) => Some(GifFilter(input["q"].s, limit, offset))
      case _ => None
    else None
  }

  /** `GifFilterDTO::toArray`: exactly `q`, `limit`, `offset`; building a filter
      from it gives the same filter back. */
  function ToArray(f: GifFilter): (j: Json)
    ensures j.JObj? && j.fields.Keys == {"q", "limit", "offset"}
    ensures FromRequest(j.fields) == Some(f)
  {
    JObj(map["q" := JStr(f.q), "limit" := JInt(f.limit), "offset" := JInt(f.offset)])
  }

  /** Query-string input arrives as text; integer text is read as the integer it
      spells, so `?limit=10` and a JSON `10` build the same filter. */
  lemma QueryTextReadsAsIntegers(q: string, limit: Int64, offset: Int64)
    ensures FromRequest(map["q" := JStr(q), "limit" := JStr(ShowInt(limit)), "offset" := JStr(ShowInt(offset))])
      == Some(GifFilter(q, limit, offset))
  {
    AsIntShowInt(limit);
    AsIntShowInt(offset);
  }
}
