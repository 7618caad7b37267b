/** The client-facing shape of one GIF (app/Http/Resources/GifResource.php). */
module GifResource {
  import opened Json
  import ImageDto
  import GifClientDto

  /** `GifResource::toArray`: keys `id`, `url`, `title`, `images`; `images` holds
      `original`, `fixed_width`, `fixed_height`, each the image's toArray. The
      result is exactly what `GifClientDTO::toArray` gives for the same GIF. */
  function ToArray(g: GifClientDto.Gif): (j: Json)
    ensures j == GifClientDto.ToArray(g)
    ensures j.JObj? && j.fields.Keys == {"id", "url", "title", "images"}
    ensures j.fields["images"].JObj? && j.fields["images"].fields.Keys == {"original", "fixed_width", "fixed_height"}
  {
    JObj(map[
      "id" := JStr(g.id),
      "url" := JStr(g.url),
      "title" := JStr(g.title),
      "images" := JObj(map[
        "original" := ImageDto.ToArray(g.original),
        "fixed_width" := ImageDto.ToArray(g.fixedWidth),
        "fixed_height" := ImageDto.ToArray(g.fixedHeight)])])
  }

  /** `GifResource::collection`: one resource per GIF, in order. */
  function Collection(gifs: seq<GifClientDto.Gif>): (items: seq<Json>)
    ensures |items| == |gifs|
    ensures forall i :: 0 <= i < |gifs| ==> items[i] == GifClientDto.ToArray(gifs[i])
  {
    seq(|gifs|, i requires 0 <= i < |gifs| => ToArray(gifs[i]))
  }
}
