/** Vocabulary shared by every page controller: optional values, the outcome of
    one backend call, the shapes of a list response, the backend requests a page
    issues, JavaScript truthiness of strings, and first-match search. */
module Common {

  /** A value that may be `null` or `undefined` in the front end. */
  datatype Option<+T> = None | Some(value: T)

  /** What one backend call delivers to its subscriber: the parsed body on
      success, or an error whose body may carry a `message`. */
  datatype Outcome<+T> = Success(payload: T) | Failure(message: Option<string>)

  /** The body of a list request: an envelope `{ data: [...] }` whose `data` may
      be missing, or a bare array. */
  datatype ListBody<T> = Enveloped(data: Option<seq<T>>) | Bare(items: seq<T>)

  /** List bodies for which `response.data || response` yields an array. */
  type ArrayBody<T> = b: ListBody<T> | !(b.Enveloped? && b.data.None?) witness Bare([])

  /** A backend request issued by a page, in the order it is issued. */
  datatype Call<T> =
    | ListAll
    | ListBySeason(seasonId: string)
    | ListByEpisode(episodeId: string)
    | Create(record: T)
    | Update(id: string, record: T)
    | Delete(id: string)

  /** JavaScript truthiness of an optional string: present and non-empty. */
  predicate Truthy(s: Option<string>): (b: bool)
    ensures s.None? ==> !b
    ensures s == Some("") ==> !b
    ensures s.Some? && |s.value| > 0 ==> b
  {
    s.Some? && s.value != ""
  }

  /** `s || ''` */
  function OrEmpty(s: Option<string>): (r: string)
    ensures Truthy(s) ==> r == s.value
    ensures r == "" <==> !Truthy(s)
  {
    if Truthy(s) then s.value else ""
  }

  /** `err.error?.message || fallback`: the text a page shows after a failed call. */
  function ErrorText(message: Option<string>, fallback: string): (r: string)
    ensures Truthy(message) ==> r == message.value
    ensures !Truthy(message) ==> r == fallback
    ensures fallback != "" ==> r != ""
  {
    if Truthy(message) then message.value else fallback
  }

  /** `response.data || []` */
  function DataOrEmpty<T>(b: ListBody<T>): (r: seq<T>)
    ensures b.Enveloped? && b.data.Some? ==> r == b.data.value
    ensures b.Bare? || b.data.None? ==> r == []
  {
    if b.Enveloped? && b.data.Some? then b.data.value else []
  }

  /** `response.data || response`, for a body that yields an array. */
  function DataOrSelf<T>(b: ArrayBody<T>): (r: seq<T>)
    ensures b.Enveloped? ==> Some(r) == b.data
    ensures b.Bare? ==> r == b.items
  {
    if b.Enveloped? then b.data.value else b.items
  }

  /** Index of the first element satisfying `p`, as `Array.prototype.findIndex`. */
  function FirstIndex<T>(s: seq<T>, p: T -> bool): (r: Option<nat>)
    ensures r.Some? ==> r.value < |s| && p(s[r.value])
    ensures r.Some? ==> forall j :: 0 <= j < r.value ==> !p(s[j])
    ensures r.None? ==> forall j :: 0 <= j < |s| ==> !p(s[j])
  {
    if |s| == 0 then None
    else if p(s[0]) then Some(0)
    else
      match FirstIndex(s[1..], p)
      case None => None
      case Some(k) => Some(k + 1)
  }
}
