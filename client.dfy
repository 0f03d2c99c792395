/**
 * The exported request function: option assembly, the DNS cache step, the
 * payload slot, and the settling of the transport's outcome. The transport
 * (and, on the retry path, the retry scheduler) is represented by the
 * outcome it reports.
 */
module Client {
  import opened Wrappers
  import opened Dns
  import opened Shaping
  import opened Errors

  /** What the transport (or the retry wrapper) settles with. */
  datatype Outcome<B> = Delivered(body: B) | Rejected(rejection: Rejection)

  /**
   * How the returned promise settles: fulfilled with a value, rejected with
   * `{ code, message }`, or rejected with a `TypeError` thrown by the helper's
   * own code after the transport settled.
   */
  datatype Settled<B> = Fulfilled(value: B) | Failed(error: NormalizedError) | Crashed

  /**
   * The promise's final state. `logEncodes` says whether `JSON.stringify` of
   * the log record (which holds the options, hence the payload) succeeds; it
   * throws on a BigInt or a cycle. `bodyOf` reads `.body` of the value the
   * retry wrapper delivers, `None` when that throws (a `null` or undefined
   * body).
   *
   * Single-shot (`maxTries <= 1`): a delivery gives its body; a rejection
   * gives `Normalize` of the transport's error. Retry: a delivery gives the
   * body's own `.body`; a rejection gives `NormalizeRetry` of the wrapper's
   * error. Either rejection becomes a `TypeError` instead when the log
   * record cannot be encoded, and so does a retry delivery whose `.body`
   * cannot be read.
   */
  function Settle<B>(maxTries: int, outcome: Outcome<B>, parse: string -> Option<Fault>,
                     logEncodes: bool, bodyOf: B -> Option<B>): (r: Settled<B>)
    ensures r.Fulfilled? <==> outcome.Delivered? && (maxTries <= 1 || bodyOf(outcome.body).Some?)
    ensures r.Failed? <==> outcome.Rejected? && logEncodes
    ensures r.Failed? ==> r.error.code != 0
    ensures maxTries <= 1 && r.Fulfilled? ==> r.value == outcome.body
    ensures maxTries > 1 && r.Fulfilled? ==> r.value == bodyOf(outcome.body).value
    ensures maxTries <= 1 && r.Failed? ==> r.error == Normalize(outcome.rejection.fault)
    ensures maxTries > 1 && r.Failed? ==> r.error == NormalizeRetry(outcome.rejection, parse)
  {
    match outcome
    case Delivered(body) =>
      if maxTries <= 1 then Fulfilled(body)
      else if bodyOf(body).Some? then Fulfilled(bodyOf(body).value)
      else Crashed
    case Rejected(rejection) =>
      if !logEncodes then Crashed
      else if maxTries > 1 then Failed(NormalizeRetry(rejection, parse))
      else Failed(Normalize(rejection.fault))
  }

  /**
   * One call of the exported function at time `now`. `parts` is what the URL
   * parser makes of `call.uri`, `lookup` what the resolver answers (`None`
   * on failure), `stringify` and `parse` stand for `JSON.stringify` and
   * `JSON.parse`; `logEncodes` and `bodyOf` are as for `Settle`. Returns
   * the options sent, whether a lookup was consulted, and the settled result.
   */
  method Execute<F, B>(cache: DnsCache, call: Call<F>, now: int, parts: UrlParts,
                       lookup: Option<string>, stringify: F -> string,
                       parse: string -> Option<Fault>, outcome: Outcome<B>,
                       logEncodes: bool, bodyOf: B -> Option<B>)
    returns (options: Options<F>, consulted: bool, result: Settled<B>)
    requires cache.Valid()
    modifies cache
    ensures cache.Valid()
    ensures !call.dnsCache ==>
              !consulted && cache.entries == old(cache.entries) && cache.timeout == old(cache.timeout)
    ensures !call.dnsCache ==> options == BuildOptions(call, None, stringify)
    ensures call.dnsCache ==> (consulted <==> !old(cache.Fresh(call.uri, now)))
    ensures call.dnsCache && !consulted ==>
              cache.entries == old(cache.entries) && cache.timeout == old(cache.timeout)
    ensures call.dnsCache && !consulted ==>
              options == BuildOptions(call, Some(old(cache.entries)[call.uri]), stringify)
    ensures call.dnsCache && !consulted ==>
              options.uri == old(cache.entries)[call.uri].newUri
              && options.headers["Host"] == old(cache.entries)[call.uri].hostname
    ensures consulted ==> cache.timeout == now + TTL
    ensures consulted ==> options == BuildOptions(call, Some(Answer(call.uri, parts, lookup)), stringify)
    ensures consulted && Resolved(parts, lookup) ==>
              cache.entries == old(cache.entries)[call.uri := Answer(call.uri, parts, lookup)]
    ensures consulted && !Resolved(parts, lookup) ==>
              cache.entries == old(cache.entries) && options.uri == call.uri
              && ("Host" in options.headers <==> "Host" in call.headers)
    ensures result == Settle(call.maxTries, outcome, parse, logEncodes, bodyOf)
  {
    var uri := call.uri;
    var headers := MergeHeaders(call.headers);
    consulted := false;
    if call.dnsCache {
      var info;
      info, consulted := cache.Resolve(call.uri, now, parts, lookup);
      if info.newUri != "" {
        uri := info.newUri;
        if info.hostname != "" {
          headers := headers["Host" := info.hostname];
        }
      }
    }
    var shaped := ShapePayload(call.form, call.verb, call.headers, call.json, stringify);
    options := Options(uri, call.timeout, call.json, headers, shaped.verb, shaped.payload);
    result := Settle(call.maxTries, outcome, parse, logEncodes, bodyOf);
  }
}
