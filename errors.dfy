/**
 * Normalisation of a failed request to `{ code, message }`, for the
 * single-shot path and for the retry path (which first adopts the retry
 * wrapper's underlying `failure` and then unwraps a JSON object trailing the
 * message). `JSON.parse` is a parameter: it yields the parsed object's
 * `statusCode` and `message`, or `None` when it throws.
 */
module Errors {
  import opened Wrappers
  import opened Strings

  /** The two fields of an error object that normalisation reads. */
  datatype Fault = Fault(statusCode: Option<int>, message: Option<string>)

  /** What the transport or the retry wrapper rejects with; `failure` is the wrapped cause. */
  datatype Rejection = Rejection(fault: Fault, failure: Option<Fault>)

  /** The `{ code, message }` every failure is reported as. */
  datatype NormalizedError = NormalizedError(code: int, message: Option<string>)

  /** JavaScript truthiness of a status: present and not 0. */
  predicate TruthyStatus(status: Option<int>)
  {
    status.Some? && status.value != 0
  }

  /** The message mentions a timeout (`ETIMEDOUT`, `ESOCKETTIMEDOUT`, …). */
  ghost predicate TimedOut(f: Fault)
  {
    f.message.Some? && Contains(f.message.value, "TIMEDOUT")
  }

  /**
   * A timeout gives 504; otherwise the status when it is truthy, else 503.
   * The message is carried through unchanged, and the code is never 0.
   */
  function Normalize(f: Fault): (e: NormalizedError)
    ensures e.message == f.message
    ensures e.code != 0
    ensures TimedOut(f) ==> e.code == 504
    ensures !TimedOut(f) && TruthyStatus(f.statusCode) ==> e.code == f.statusCode.value
    ensures !TimedOut(f) && !TruthyStatus(f.statusCode) ==> e.code == 503
  {
    if f.message.Some? && f.message.value != "" && IndexOf(f.message.value, "TIMEDOUT") > -1 then
      NormalizedError(504, f.message)
    else if TruthyStatus(f.statusCode) then
      NormalizedError(f.statusCode.value, f.message)
    else
      NormalizedError(503, f.message)
  }

  /** The error after `err.statusCode`/`err.message` are overwritten from `err.failure`. */
  function Adopted(r: Rejection): Fault
  {
    if r.failure.Some? then r.failure.value else r.fault
  }

  /** The object text `/{.*}$/` extracts from a fault's message, if any. */
  function Embedded(f: Fault): Option<string>
  {
    if f.message.Some? then TrailingObject(f.message.value) else None
  }

  /**
   * The retry path's error before normalisation. When the adopted message
   * ends in an object that parses, the parsed object replaces the error;
   * when there is no such object, or it does not parse, the error stays as
   * the failure copy left it.
   */
  function UnwrapRetry(r: Rejection, parse: string -> Option<Fault>): (f: Fault)
    ensures Embedded(Adopted(r)).None? ==> f == Adopted(r)
    ensures Embedded(Adopted(r)).Some? && parse(Embedded(Adopted(r)).value).None? ==> f == Adopted(r)
    ensures Embedded(Adopted(r)).Some? && parse(Embedded(Adopted(r)).value).Some? ==>
              f == parse(Embedded(Adopted(r)).value).value
  {
    var err := Adopted(r);
    if err.message.Some? && err.message.value != "" && IndexOf(err.message.value, "{") > -1 then
      match TrailingObject(err.message.value)
      case None => err
      case Some(text) =>
        match parse(text)
        case None => err
        case Some(parsed) => parsed
    else
      BraceGuard(err);
      err
  }

  /** The `indexOf('{')` guard only skips messages that have no trailing object. */
  lemma {:induction false} BraceGuard(f: Fault)
    requires f.message.Some? ==> f.message.value == "" || IndexOf(f.message.value, "{") == -1
    ensures Embedded(f).None?
  {
    if f.message.Some? && TrailingObject(f.message.value).Some? {
      var i :| ObjectAt(f.message.value, i);
      ObjectImpliesBrace(f.message.value, i);
      assert false;
    }
  }

  /**
   * The retry path's `{ code, message }`: the single-shot rule applied to
   * the error left by `UnwrapRetry`.
   */
  function NormalizeRetry(r: Rejection, parse: string -> Option<Fault>): (e: NormalizedError)
    ensures e == Normalize(UnwrapRetry(r, parse))
    ensures e.code != 0
    ensures (Embedded(Adopted(r)).None? || parse(Embedded(Adopted(r)).value).None?) ==>
              e.message == Adopted(r).message
              && e.code in {504, 503} + (if Adopted(r).statusCode.Some? then {Adopted(r).statusCode.value} else {})
    ensures Embedded(Adopted(r)).Some? && parse(Embedded(Adopted(r)).value).Some? ==>
              e.message == parse(Embedded(Adopted(r)).value).value.message
  {
    Normalize(UnwrapRetry(r, parse))
  }

  /**
   * When the wrapped cause's message has no trailing object, the retry path
   * reports exactly what the single-shot path would report for the cause.
   */
  lemma PathsAgree(r: Rejection, parse: string -> Option<Fault>)
    requires r.failure.Some? && Embedded(r.failure.value).None?
    ensures NormalizeRetry(r, parse) == Normalize(r.failure.value)
  {
  }

  /**
   * The unwrapped object's `code` is never read, only its `statusCode`: a
   * cause `400 - {"code":400,"message":"bad"}` whose object parses to a
   * fault without a status is reported as 503 with message `bad`.
   */
  lemma {:induction false} EmbeddedCodeIsNotRead(r: Rejection, parse: string -> Option<Fault>)
    requires r.failure == Some(Fault(Some(400), Some("400 - {\"code\":400,\"message\":\"bad\"}")))
    requires parse("{\"code\":400,\"message\":\"bad\"}") == Some(Fault(None, Some("bad")))
    ensures NormalizeRetry(r, parse) == NormalizedError(503, Some("bad"))
  {
    var msg := r.failure.value.message.value;
    assert ObjectAt(msg, 6);
    assert forall j :: 0 <= j < 6 ==> msg[j] != '{';
    assert msg[6..] == "{\"code\":400,\"message\":\"bad\"}";
  }

  /**
   * In the retry path the wrapped cause decides the outcome: the wrapper's
   * own status and message are ignored whenever a cause is present.
   */
  lemma CauseOverridesWrapper(r: Rejection, own: Fault, parse: string -> Option<Fault>)
    requires r.failure.Some?
    ensures NormalizeRetry(r, parse) == NormalizeRetry(Rejection(own, r.failure), parse)
  {
  }
}
