/** Identifiers, optional values and handler outcomes shared by every module of the model. */
module Common {

  /** Document identifiers. The store hands them out; they are opaque elsewhere. */
  type UserId = nat
  type HackathonId = nat
  type TeamId = nat
  type RoundId = nat
  type RequestId = nat

  /** An abstract clock: milliseconds since the epoch, like a JavaScript Date. */
  type Time = nat

  datatype Option<+T> = None | Some(value: T)

  /** What a handler answers: a value on success, or the HTTP status of the refusal. */
  datatype Outcome<+T> = Ok(value: T) | Err(status: nat)

  const BadRequest: nat := 400
  const Unauthorized: nat := 401
  const Forbidden: nat := 403
  const NotFound: nat := 404
  /** A JavaScript exception inside a handler (null dereference, validation or unique-index error). */
  const ServerError: nat := 500

  /** JavaScript truthiness of an optional string field of a request body. */
  predicate Truthy(s: Option<string>)
  {
    s.Some? && s.value != ""
  }

  /** JavaScript `findIndex`: the first position whose element satisfies `p`, if any. */
  function FindIndex<T>(s: seq<T>, p: T -> bool): (r: Option<nat>)
    ensures r.Some? ==> r.value < |s| && p(s[r.value]) && forall j :: 0 <= j < r.value ==> !p(s[j])
    ensures r.None? <==> forall j :: 0 <= j < |s| ==> !p(s[j])
  {
    if s == [] then None
    else if p(s[0]) then Some(0)
    else
      var rest := FindIndex(s[1..], p);
      assert forall j :: 1 <= j < |s| ==> s[j] == s[1..][j - 1];
      if rest.Some? then Some(rest.value + 1) else None
  }
}
