/** The remote calls the screens make, as data. The transport is not part of
    the model: each call is answered by an oracle `Reply`, and a handler
    reports the requests it issued so that "no network call" is `[]`. */
module Http {
  import opened Wrappers
  import opened Js

  datatype Verb = GET | POST | PUT | DELETE

  /** One HTTP request: verb, path, optional `Authorization` header, optional
      JSON body. */
  datatype Request = Request(verb: Verb, path: string, authorization: Option<string>, body: Option<Form>)

  /** What a rejected call exposes: `err.response?.data?.message` and
      `err.message`. */
  datatype HttpError = HttpError(serverMessage: Option<string>, message: Option<string>)

  /** The outcome of one call: the parsed `response.data`, or the error. */
  datatype Reply<+T> = Ok(data: T) | Fail(error: HttpError)

  /** A chain `a || b || … || last` over optional strings: the first truthy
      candidate, else `last`. The reference definition for `ErrorMessage`. */
  function FirstFilled(candidates: seq<Option<string>>, last: string): string {
    if |candidates| == 0 then last
    else if Filled(candidates[0]) then candidates[0].value
    else FirstFilled(candidates[1..], last)
  }

  /** `err.response?.data?.message || err.message || fallback`. */
  function ErrorMessage(e: HttpError, fallback: string): (m: string)
    ensures Filled(e.serverMessage) ==> m == e.serverMessage.value
    ensures !Filled(e.serverMessage) && Filled(e.message) ==> m == e.message.value
    ensures m == fallback || Some(m) == e.serverMessage || Some(m) == e.message
    ensures m == fallback <== !Filled(e.serverMessage) && !Filled(e.message)
    ensures fallback != "" ==> m != ""
  {
    if Filled(e.serverMessage) then e.serverMessage.value
    else if Filled(e.message) then e.message.value
    else fallback
  }

  /** The error message is the first truthy link of the three-step chain. */
  lemma ErrorMessageIsFirstFilled(e: HttpError, fallback: string)
    ensures ErrorMessage(e, fallback) == FirstFilled([e.serverMessage, e.message], fallback)
  {
    var chain := [e.serverMessage, e.message];
    assert chain[1..] == [e.message];
    assert [e.message][1..] == [];
    assert FirstFilled([], fallback) == fallback;
    assert FirstFilled([e.message], fallback) == if Filled(e.message) then e.message.value else fallback;
  }

  /** The header value `Bearer ${token}`; a `null` token prints as `null`. */
  function Bearer(token: Option<string>): string {
    "Bearer " + (if token.None? then "null" else token.value)
  }
}
