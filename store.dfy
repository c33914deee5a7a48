/**
 * What the model keeps of the document store: record identifiers, string
 * fields that a request may leave out, and `findOne`, which answers with the
 * first matching record in the collection's natural (insertion) order.
 */
module Store {
  import opened Wrappers

  /** A document identifier (a MongoDB ObjectId), kept opaque. */
  type Id = nat

  /** A string field of a request body or of a stored record; None is a field that is absent (undefined or null). */
  type Field = Option<string>

  /** JavaScript truthiness of a string field: an absent field and "" are both falsy. */
  predicate Truthy(f: Field)
  {
    f.Some? && f.value != ""
  }

  /** The position of the first record that satisfies the filter, or None when no record does. */
  function FirstWhere<T>(s: seq<T>, p: T -> bool): (r: Option<nat>)
    ensures r.Some? ==> r.value < |s| && p(s[r.value])
    ensures r.Some? ==> forall j :: 0 <= j < r.value ==> !p(s[j])
    ensures r.None? <==> forall j :: 0 <= j < |s| ==> !p(s[j])
  {
    if s == [] then None
    else if p(s[0]) then Some(0)
    else
      match FirstWhere(s[1..], p)
      case None => None
      case Some(k) => Some(k + 1)
  }
}
