/** The Laravel validation rules the request classes use, on decoded input. */
module ValidationRules {
  import opened Json
  import opened IntText

  /** The characters PHP's trim() removes. */
  predicate IsTrimmed(c: char) {
    c == ' ' || c == '\t' || c == '\n' || c == '\r' || c == '\0' || c as int == 11
  }

  predicate Blank(s: string) {
    forall i :: 0 <= i < |s| ==> IsTrimmed(s[i])
  }

  /** `required`: present, not null, not a blank string, not an empty array. */
  predicate Required(input: map<string, Json>, field: string) {
    && field in input
    && match input[field]
       case JNull => false
       case JStr(s) => !Blank(s)
       case JArr(items) => |items| > 0
       case JObj(fields) => |fields| > 0
       case _ => true
  }

  /** `integer`: a JSON integer or text that spells one. */
  predicate IsInteger(j: Json) {
    AsInt(j).Some?
  }

  /** `string|max:n`: a string of at most n characters. */
  predicate StringAtMost(j: Json, n: nat) {
    j.JStr? && |j.s| <= n
  }
}
