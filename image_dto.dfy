/** One rendition of a GIF as the provider describes it. Width and height stay
    the provider's strings; they are never parsed as numbers. */
module ImageDto {
  import opened Json

  datatype Image = Image(url: string, width: string, height: string)

  /** `ImageDTO::fromJsonObject`: copies `url`, `width` and `height`. A missing or
      non-string field is a mapping failure, never a default. */
  function FromJson(j: Json): Option<Image>
  {
    match (StringMember(j, "url"), StringMember(j, "width"), StringMember(j, "height"))
    case (Some(url), Some(width), Some(height)) => Some(Image(url, width, height))
    case _ => None
  }

  /** `ImageDTO::toArray`: exactly `url`, `width`, `height`, read back by FromJson. */
  function ToArray(img: Image): (j: Json)
    ensures j.JObj? && j.fields.Keys == {"url", "width", "height"}
    ensures FromJson(j) == Some(img)
  {
    JObj(map["url" := JStr(img.url), "width" := JStr(img.width), "height" := JStr(img.height)])
  }

  /** Only the three fields matter: extra members of the raw object are ignored,
      and two raw objects that agree on them map to the same image. */
  lemma FromJsonReadsOnlyItsFields(a: Json, b: Json)
    requires a.JObj? && b.JObj?
    requires forall k :: k in {"url", "width", "height"} ==> (k in a.fields <==> k in b.fields)
    requires forall k :: k in {"url", "width", "height"} && k in a.fields ==> a.fields[k] == b.fields[k]
    ensures FromJson(a) == FromJson(b)
  {
    assert StringMember(a, "url") == StringMember(b, "url");
    assert StringMember(a, "width") == StringMember(b, "width");
    assert StringMember(a, "height") == StringMember(b, "height");
  }

  /** Mapping copies verbatim: the rendering of a mapped image holds exactly the
      raw object's url, width and height. */
  lemma FromJsonCopiesFields(j: Json, img: Image)
    requires FromJson(j) == Some(img)
    ensures j.JObj?
    ensures forall k :: k in ToArray(img).fields ==> k in j.fields && j.fields[k] == ToArray(img).fields[k]
  {
  }

  /** No field is defaulted: one missing or non-string field fails the mapping. */
  lemma MissingFieldFails(j: Json, k: string)
    requires k == "url" || k == "width" || k == "height"
    requires StringMember(j, k).None?
    ensures FromJson(j).None?
  {
  }
}
