/** The result of a search: the GIFs in provider order and the paging block. */
module GifListDto {
  import opened Json
  import GifClientDto
  import PaginationDto

  datatype GifList = GifList(gifs: seq<GifClientDto.Gif>, pagination: PaginationDto.Pagination)

  /** `array_map(GifClientDTO::fromJsonObject, data)`: one GIF per element, in
      order; one malformed element fails the whole mapping. */
  function MapGifs(items: seq<Json>): (r: Option<seq<GifClientDto.Gif>>)
    ensures r.Some? <==> forall i :: 0 <= i < |items| ==> GifClientDto.FromJson(items[i]).Some?
    ensures r.Some? ==> |r.value| == |items|
    ensures r.Some? ==> forall i :: 0 <= i < |items| ==> GifClientDto.FromJson(items[i]) == Some(r.value[i])
  {
    if |items| == 0 then Some([])
    else
      match (GifClientDto.FromJson(items[0]), MapGifs(items[1..]))
      case (Some(g), Some(rest)) =>
        assert forall i :: 1 <= i < |items| ==> items[i] == items[1..][i - 1];
        Some([g] + rest)
      case (None, _) => None
      case (_, None) =>
        assert forall i :: 0 <= i < |items| - 1 ==> items[1..][i] == items[i + 1];
        None
  }

  /** `$jsonObject->data ?? []`: the raw GIF array, empty when absent or null. */
  function Data(j: Json): (r: Option<seq<Json>>)
    ensures (Member(j, "data").None? || Member(j, "data") == Some(JNull)) ==> r == Some([])
    ensures Member(j, "data").Some? && Member(j, "data").value.JArr? ==> r == Some(j.fields["data"].items)
  {
    match Member(j, "data")
    case None => Some([])
    case Some(JNull) => Some([])
    case Some(JArr(items)) => Some(items)
    case Some(_) => None
  }

  /** `GifListDTO::fromJsonObject`: the whole search body. `$jsonObject->pagination`
      is read without `??`, so a body without that member fails (reading an
      undefined property raises an error); a null block is zero-filled by
      PaginationDto.FromJson. */
  function FromJson(j: Json): Option<GifList>
  {
    if !j.JObj? || "pagination" !in j.fields then None
    else
      match (PaginationDto.FromJson(j.fields["pagination"]), Data(j))
      case (Some(p), Some(items)) =>
        (match MapGifs(items)
         case Some(gifs) => Some(GifList(gifs, p))
         case None => None)
      case _ => None
  }

  function GifsToArray(gifs: seq<GifClientDto.Gif>): (r: seq<Json>)
    ensures |r| == |gifs|
    ensures forall i :: 0 <= i < |gifs| ==> r[i] == GifClientDto.ToArray(gifs[i])
  {
    seq(|gifs|, i requires 0 <= i < |gifs| => GifClientDto.ToArray(gifs[i]))
  }

  /** `GifListDTO::toArray`: exactly `gifs`, each GIF rendered in order, and
      `pagination`. */
  function ToArray(l: GifList): (j: Json)
    ensures j.JObj? && j.fields.Keys == {"gifs", "pagination"}
    ensures j.fields["gifs"].JArr? && |j.fields["gifs"].items| == |l.gifs|
    ensures forall i :: 0 <= i < |l.gifs| ==> j.fields["gifs"].items[i] == GifClientDto.ToArray(l.gifs[i])
    ensures j.fields["pagination"] == PaginationDto.ToArray(l.pagination)
    ensures PaginationDto.FromJson(j.fields["pagination"]) == Some(l.pagination)
  {
    JObj(map["gifs" := JArr(GifsToArray(l.gifs)), "pagination" := PaginationDto.ToArray(l.pagination)])
  }

  /** Provider order survives mapping and rendering: the i-th rendered GIF is
      the i-th raw `data` element mapped and rendered. */
  lemma RenderedInProviderOrder(raw: Json, l: GifList, i: int)
    requires FromJson(raw) == Some(l)
    requires 0 <= i < |l.gifs|
    ensures Data(raw).Some? && i < |Data(raw).value|
    ensures var g := GifClientDto.FromJson(Data(raw).value[i]);
      g.Some? && ToArray(l).fields["gifs"].items[i] == GifClientDto.ToArray(g.value)
  {
    var items := Data(raw).value;
    assert MapGifs(items) == Some(l.gifs);
    assert GifClientDto.FromJson(items[i]) == Some(l.gifs[i]);
  }

  /** A body with an empty `data` array and a null pagination block gives an
      empty list with zero pagination. */
  lemma EmptySearch()
    ensures FromJson(JObj(map["data" := JArr([]), "pagination" := JNull])) == Some(GifList([], PaginationDto.Pagination(0, 0, 0)))
  {
    var j := JObj(map["data" := JArr([]), "pagination" := JNull]);
    assert j.fields["pagination"] == JNull;
    assert Data(j) == Some([]);
    PaginationDto.MissingBlockIsZero();
  }

  /** A mapped search body is an object whose pagination is its `pagination`
      block mapped, with one GIF per `data` element. */
  lemma FromJsonParts(raw: Json, l: GifList)
    requires FromJson(raw) == Some(l)
    ensures raw.JObj? && "pagination" in raw.fields
    ensures PaginationDto.FromJson(raw.fields["pagination"]) == Some(l.pagination)
    ensures Data(raw).Some? && MapGifs(Data(raw).value) == Some(l.gifs)
    ensures |l.gifs| == |Data(raw).value|
  {
  }

  /** A body without a `pagination` member fails the mapping, whatever its
      `data`. */
  lemma MissingPaginationFails(j: Json)
    requires j.JObj? && "pagination" !in j.fields
    ensures FromJson(j).None?
  {
  }

  /** One malformed GIF anywhere in `data` fails the whole search mapping. */
  lemma MalformedGifFailsSearch(j: Json, i: int)
    requires Data(j).Some? && 0 <= i < |Data(j).value|
    requires GifClientDto.FromJson(Data(j).value[i]).None?
    ensures FromJson(j).None?
  {
  }
}
