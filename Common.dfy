/** Small shared vocabulary: optional values and JavaScript truthiness of optional strings. */
module Common {

  datatype Option<T> = None | Some(value: T)

  /** JavaScript truthiness of a value that is either `undefined`/`null` or a string:
      `undefined`, `null` and `""` are falsy, every other string is truthy. */
  predicate Truthy(o: Option<string>)
  {
    o.Some? && o.value != ""
  }

  /** Whether `s` begins with `prefix` (`String.prototype.startsWith`). */
  predicate StartsWith(s: string, prefix: string)
  {
    |prefix| <= |s| && s[..|prefix|] == prefix
  }

  /** Index of the first element satisfying `p` (Prisma's `findFirst` in insertion order). */
  function FirstIndex<T>(s: seq<T>, p: T -> bool): (r: Option<nat>)
    ensures r.Some? ==> r.value < |s| && p(s[r.value])
    ensures r.Some? ==> forall j :: 0 <= j < r.value ==> !p(s[j])
    ensures r.None? ==> forall j :: 0 <= j < |s| ==> !p(s[j])
  {
    if s == [] then None
    else if p(s[0]) then Some(0)
    else match FirstIndex(s[1..], p)
      case None => None
      case Some(k) => Some(k + 1)
  }

  /** Index of the last element satisfying `p` (`findFirst` ordered newest first). */
  function LastIndex<T>(s: seq<T>, p: T -> bool): (r: Option<nat>)
    ensures r.Some? ==> r.value < |s| && p(s[r.value])
    ensures r.Some? ==> forall j :: r.value < j < |s| ==> !p(s[j])
    ensures r.None? ==> forall j :: 0 <= j < |s| ==> !p(s[j])
  {
    if s == [] then None
    else if p(s[|s| - 1]) then Some(|s| - 1)
    else LastIndex(s[..|s| - 1], p)
  }
}
