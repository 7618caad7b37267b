/** Paging information of a search result. */
module PaginationDto {
  import opened Json
  import opened IntText

  datatype Pagination = Pagination(totalCount: Int64, count: Int64, offset: Int64)

  /** `$pagination->key ?? 0` passed to an `int` parameter: an absent or null
      member reads as 0; an integer, or text spelling one, is coerced to it;
      anything else fails the parameter. */
  function CountOrZero(p: Json, key: string): (r: Option<Int64>)
    ensures (Member(p, key).None? || Member(p, key) == Some(JNull)) ==> r == Some(0)
    ensures Member(p, key).Some? && Member(p, key).value != JNull ==> r == AsInt(p.fields[key])
  {
    match Member(p, key)
    case None => Some(0)
    case Some(JNull) => Some(0)
    case Some(v) => AsInt(v)
  }

  /** `PaginationDTO::fromJsonObject(?object)`: `p` is the provider's pagination
      block, which may be null. */
  function FromJson(p: Json): Option<Pagination>
  {
    if !(p.JNull? || p.JObj?) then None
    else
      match (CountOrZero(p, "total_count"), CountOrZero(p, "count"), CountOrZero(p, "offset"))
      case (Some(t), Some(c), Some(o)) => Some(Pagination(t, c, o))
      case _ => None
  }

  /** `PaginationDTO::toArray`: `totalCount`, `count`, `offset` under the keys
      `total_count`, `count`, `offset`; read back by FromJson. */
  function ToArray(p: Pagination): (j: Json)
    ensures j.JObj? && j.fields.Keys == {"total_count", "count", "offset"}
    ensures j.fields["total_count"] == JInt(p.totalCount)
    ensures j.fields["count"] == JInt(p.count) && j.fields["offset"] == JInt(p.offset)
    ensures FromJson(j) == Some(p)
  {
    JObj(map["total_count" := JInt(p.totalCount), "count" := JInt(p.count), "offset" := JInt(p.offset)])
  }

  /** A null pagination block yields zeros. */
  lemma MissingBlockIsZero()
    ensures FromJson(JNull) == Some(Pagination(0, 0, 0))
  {
  }

  /** Each counter defaults on its own: a block with only `total_count` keeps it
      and zero-fills the other two. */
  lemma CountersDefaultIndependently(t: Int64)
    ensures FromJson(JObj(map["total_count" := JInt(t)])) == Some(Pagination(t, 0, 0))
  {
    var p := JObj(map["total_count" := JInt(t)]);
    assert Member(p, "count").None? && Member(p, "offset").None?;
  }

  /** Mapping reads each counter with its own default: a mapped block's counters
      are the block's counters read with `?? 0`. */
  lemma FromJsonReadsCounters(p: Json, r: Pagination)
    requires FromJson(p) == Some(r)
    ensures p.JNull? || p.JObj?
    ensures CountOrZero(p, "total_count") == Some(r.totalCount)
    ensures CountOrZero(p, "count") == Some(r.count)
    ensures CountOrZero(p, "offset") == Some(r.offset)
  {
  }

  /** A counter that is present but neither null nor an `int` (an integer or
      integer text within 64 bits) fails the mapping instead of defaulting. */
  lemma NonIntegerCounterFails(p: Json, key: string)
    requires key == "total_count" || key == "count" || key == "offset"
    requires p.JObj? && key in p.fields && !p.fields[key].JNull? && AsInt(p.fields[key]).None?
    ensures FromJson(p).None?
  {
  }

  /** Integer text is coerced by the `int` parameter: a `total_count` of "57"
      reads as 57. */
  lemma CounterTextIsCoerced()
    ensures FromJson(JObj(map["total_count" := JStr("57")])) == Some(Pagination(57, 0, 0))
  {
    var p := JObj(map["total_count" := JStr("57")]);
    assert ParseInt("57") == Some(57) by {
      assert "57"[..1] == "5" && "5"[..0] == "";
      assert DigitsValue("5") == 5;
      assert DigitsValue("57") == 57;
    }
    assert Member(p, "count").None? && Member(p, "offset").None?;
  }
}
