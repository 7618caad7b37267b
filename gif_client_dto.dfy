/** A single GIF as the application represents it: id, page url, title and three
    renditions. */
module GifClientDto {
  import opened Json
  import ImageDto

  datatype Gif = Gif(
    id: string,
    url: string,
    title: string,
    original: ImageDto.Image,
    fixedWidth: ImageDto.Image,
    fixedHeight: ImageDto.Image)

  /** The raw rendition `$jsonObject->images->name`, mapped to an image. */
  function Rendition(j: Json, name: string): Option<ImageDto.Image>
  {
    match Member(j, "images")
    case Some(images) =>
      (match Member(images, name)
       case Some(raw) => ImageDto.FromJson(raw)
       case None => None)
    case None => None
  }

  /** `GifClientDTO::fromJsonObject`. The `original` rendition is taken from the
      provider's `original_still` entry, not from `original`. */
  function FromJson(j: Json): Option<Gif>
  {
    match (StringMember(j, "id"), StringMember(j, "url"), StringMember(j, "title"))
    case (Some(id), Some(url), Some(title)) =>
      (match (Rendition(j, "original_still"), Rendition(j, "fixed_width"), Rendition(j, "fixed_height"))
       case (Some(o), Some(w), Some(h)) => Some(Gif(id, url, title, o, w, h))
       case _ => None)
    case _ => None
  }

  /** `GifClientDTO::toArray`: keys `id`, `url`, `title`, `images`; `images` holds
      exactly `original`, `fixed_width`, `fixed_height`, each an image's toArray. */
  function ToArray(g: Gif): (j: Json)
    ensures j.JObj? && j.fields.Keys == {"id", "url", "title", "images"}
    ensures j.fields["id"] == JStr(g.id) && j.fields["url"] == JStr(g.url) && j.fields["title"] == JStr(g.title)
    ensures var images := j.fields["images"];
      && images.JObj? && images.fields.Keys == {"original", "fixed_width", "fixed_height"}
      && images.fields["original"] == ImageDto.ToArray(g.original)
      && images.fields["fixed_width"] == ImageDto.ToArray(g.fixedWidth)
      && images.fields["fixed_height"] == ImageDto.ToArray(g.fixedHeight)
      && ImageDto.FromJson(images.fields["original"]) == Some(g.original)
      && ImageDto.FromJson(images.fields["fixed_width"]) == Some(g.fixedWidth)
      && ImageDto.FromJson(images.fields["fixed_height"]) == Some(g.fixedHeight)
  {
    JObj(map[
      "id" := JStr(g.id),
      "url" := JStr(g.url),
      "title" := JStr(g.title),
      "images" := JObj(map[
        "original" := ImageDto.ToArray(g.original),
        "fixed_width" := ImageDto.ToArray(g.fixedWidth),
        "fixed_height" := ImageDto.ToArray(g.fixedHeight)])])
  }

  /** Round trip through the quirk: the `original` the application emits carries
      the url, width and height of the provider's `images.original_still`. */
  lemma OriginalComesFromOriginalStill(raw: Json, g: Gif)
    requires FromJson(raw) == Some(g)
    ensures var still := raw.fields["images"].fields["original_still"];
      var original := ToArray(g).fields["images"].fields["original"];
      && still.JObj? && original.JObj?
      && forall k :: k in {"url", "width", "height"} ==> k in still.fields && original.fields[k] == still.fields[k]
  {
    var still := raw.fields["images"].fields["original_still"];
    assert ImageDto.FromJson(still) == Some(g.original);
  }

  /** Because of that quirk the application's own output is not a provider
      payload: mapping it again fails for want of `original_still`. */
  lemma ToArrayIsNotReadBack(g: Gif)
    ensures FromJson(ToArray(g)) == None
  {
    assert "original_still" !in ToArray(g).fields["images"].fields;
  }

  /** Mapping copies verbatim: the rendering of a mapped GIF carries the raw
      id, url and title, and its fixed renditions are the raw ones mapped. */
  lemma FromJsonCopiesFields(j: Json, g: Gif)
    requires FromJson(j) == Some(g)
    ensures j.JObj? && "id" in j.fields && "url" in j.fields && "title" in j.fields
    ensures ToArray(g).fields["id"] == j.fields["id"]
    ensures ToArray(g).fields["url"] == j.fields["url"]
    ensures ToArray(g).fields["title"] == j.fields["title"]
    ensures Rendition(j, "fixed_width") == Some(g.fixedWidth)
    ensures Rendition(j, "fixed_height") == Some(g.fixedHeight)
  {
  }

  /** No scalar field is defaulted: a missing or non-string id, url or title
      fails the mapping. */
  lemma MissingFieldFails(j: Json, k: string)
    requires k == "id" || k == "url" || k == "title"
    requires StringMember(j, k).None?
    ensures FromJson(j).None?
  {
  }

  /** Each of the three renditions the mapper reads must be present and well
      formed; `images.original` is not one of them. */
  lemma MissingRenditionFails(j: Json, name: string)
    requires name == "original_still" || name == "fixed_width" || name == "fixed_height"
    requires Rendition(j, name).None?
    ensures FromJson(j).None?
  {
  }
}
