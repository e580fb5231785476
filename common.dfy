/** Shared vocabulary: optional values, results, abstract HTTP replies and
    the JavaScript truthiness rules the client code relies on. */
module Common {

  datatype Option<T> = None | Some(value: T)

  datatype Result<T, E> = Success(value: T) | Failure(error: E)

  /** What a `fetch` call gives back, seen from the client: either the
      promise rejects (network error, abort) with a message, or an answer
      arrives with its `ok` flag, the optional `detail` field of its JSON
      error body, and its decoded body. */
  datatype Reply<T> =
    | Rejected(message: string)
    | Answered(ok: bool, detail: Option<string>, body: T)
  {
    predicate IsOk() {
      Answered? && ok
    }
  }

  /** JavaScript truthiness of a `string | null`: null and "" are falsy. */
  predicate Truthy(s: Option<string>) {
    s.Some? && s.value != ""
  }

  /** The idiom `detail || fallback`: a missing or empty detail falls back. */
  function DetailOr(detail: Option<string>, fallback: string): (m: string)
    ensures Truthy(detail) ==> m == detail.value
    ensures !Truthy(detail) ==> m == fallback
    ensures fallback != "" ==> m != ""
  {
    if Truthy(detail) then detail.value else fallback
  }

  /** The pattern shared by the backend wrappers: an ok answer yields its
      body; a non-ok answer throws `new Error(detail || fallback)`; a
      rejected fetch propagates its own error message. */
  function CheckReply<T>(reply: Reply<T>, fallback: string): (r: Result<T, string>)
    ensures r.Success? <==> reply.IsOk()
    ensures r.Success? ==> r.value == reply.body
    ensures reply.Answered? && !reply.ok ==> r == Failure(DetailOr(reply.detail, fallback))
    ensures reply.Rejected? ==> r == Failure(reply.message)
  {
    match reply
    case Rejected(m) => Failure(m)
    case Answered(ok, detail, body) =>
      if ok then Success(body) else Failure(DetailOr(detail, fallback))
  }
}
