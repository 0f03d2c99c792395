/**
 * Assembly of the request options: default headers, the JSON flag, the DNS
 * rewrite of URI and `Host`, and the choice of the one slot the payload is
 * sent in. JSON encoding of the payload (`JSON.stringify`) is a parameter.
 */
module Shaping {
  import opened Wrappers
  import opened Strings
  import opened Dns

  const UserAgent: string := "request/2.88.2"
  const AnyMedia: string := "*/*"

  /**
   * The one place the payload goes: `qs`, `body` (the value itself or its
   * JSON text), `formData` or `form`.
   */
  datatype Payload<F> =
    | Qs(form: F)
    | JsonBody(form: F)
    | StringBody(text: string)
    | FormData(form: F)
    | Form(form: F)

  /** The HTTP method (`method` in the source) and payload slot chosen for a request. */
  datatype Shaped<F> = Shaped(verb: string, payload: Payload<F>)

  /** The arguments of the exported function, in its order. */
  datatype Call<F> = Call(
    form: F, uri: string, verb: string, headers: map<string, string>,
    json: bool, timeout: int, maxTries: int, dnsCache: bool)

  /** The options record handed to the transport. `json == false` stands for an absent flag. */
  datatype Options<F> = Options(
    uri: string, timeout: int, json: bool, headers: map<string, string>,
    verb: string, payload: Payload<F>)

  /** `Object.assign({ 'User-Agent': …, Accept: … }, headers)`: the caller's headers win. */
  function MergeHeaders(headers: map<string, string>): (h: map<string, string>)
    ensures h.Keys == headers.Keys + {"User-Agent", "Accept"}
    ensures forall k :: k in headers ==> h[k] == headers[k]
    ensures "User-Agent" !in headers ==> h["User-Agent"] == UserAgent
    ensures "Accept" !in headers ==> h["Accept"] == AnyMedia
  {
    map["User-Agent" := UserAgent, "Accept" := AnyMedia] + headers
  }

  /** `helper.toString(headers[key])`: the header's text, "" when absent. */
  function HeaderText(headers: map<string, string>, key: string): string
  {
    if key in headers then headers[key] else ""
  }

  /** `method.toUpperCase() === 'GET'`. */
  function IsGet(verb: string): (b: bool)
    ensures b <==> |verb| == 3 && verb[0] in "gG" && verb[1] in "eE" && verb[2] in "tT"
  {
    var u := ToUpper(verb);
    assert |verb| == 3 ==> u == [u[0], u[1], u[2]];
    u == "GET"
  }

  /**
   * The payload slot. GET (in any letter case) sends the payload as the
   * query and forces the method to "GET". Otherwise the caller's
   * `Content-Type` decides (a case-sensitive substring test): `json` gives a
   * body, structured when the JSON flag is on and JSON text when it is off;
   * else a non-empty `Form-data` header or `form-data` in the content type
   * gives multipart form data; else a URL-encoded form. The method passes
   * through unchanged.
   */
  function ShapePayload<F>(form: F, verb: string, headers: map<string, string>,
                           json: bool, stringify: F -> string): (s: Shaped<F>)
    ensures s.payload.Qs? <==> IsGet(verb)
    ensures IsGet(verb) ==> s == Shaped("GET", Qs(form))
    ensures !IsGet(verb) ==> s.verb == verb
    ensures !IsGet(verb) && Contains(HeaderText(headers, "Content-Type"), "json") ==>
      s.payload == (if json then JsonBody(form) else StringBody(stringify(form)))
    ensures !IsGet(verb) && !Contains(HeaderText(headers, "Content-Type"), "json") ==>
      (s.payload.FormData? <==> HeaderText(headers, "Form-data") != ""
                                || Contains(HeaderText(headers, "Content-Type"), "form-data"))
      && (s.payload.FormData? || s.payload.Form?) && s.payload.form == form
  {
    if IsGet(verb) then Shaped("GET", Qs(form))
    else
      var contentType := HeaderText(headers, "Content-Type");
      var payload :=
        if IndexOf(contentType, "json") > -1 then
          (if json then JsonBody(form) else StringBody(stringify(form)))
        else if HeaderText(headers, "Form-data") != "" || IndexOf(contentType, "form-data") > -1 then
          FormData(form)
        else
          Form(form);
      Shaped(verb, payload)
  }

  /** The URI rewrite and `Host` header apply only when the DNS step produced a new URI. */
  predicate Rewrites(dns: Option<Entry>)
  {
    dns.Some? && dns.value.newUri != ""
  }

  predicate SetsHost(dns: Option<Entry>)
  {
    Rewrites(dns) && dns.value.hostname != ""
  }

  /**
   * The options record for a call, given the DNS step's result (`None` when
   * the cache is off). Every caller header is kept, except that a rewrite
   * overrides `Host`; the defaults fill in what the caller left out.
   */
  function BuildOptions<F>(call: Call<F>, dns: Option<Entry>, stringify: F -> string): (o: Options<F>)
    ensures o.timeout == call.timeout && o.json == call.json
    ensures o.uri == (if Rewrites(dns) then dns.value.newUri else call.uri)
    ensures o.headers.Keys == call.headers.Keys + {"User-Agent", "Accept"}
                              + (if SetsHost(dns) then {"Host"} else {})
    ensures SetsHost(dns) ==> o.headers["Host"] == dns.value.hostname
    ensures forall k :: k in call.headers && !(k == "Host" && SetsHost(dns)) ==>
                          o.headers[k] == call.headers[k]
    ensures "User-Agent" !in call.headers ==> o.headers["User-Agent"] == UserAgent
    ensures "Accept" !in call.headers ==> o.headers["Accept"] == AnyMedia
    ensures Shaped(o.verb, o.payload) == ShapePayload(call.form, call.verb, call.headers, call.json, stringify)
  {
    var merged := MergeHeaders(call.headers);
    var uri := if Rewrites(dns) then dns.value.newUri else call.uri;
    var headers := if SetsHost(dns) then merged["Host" := dns.value.hostname] else merged;
    var shaped := ShapePayload(call.form, call.verb, call.headers, call.json, stringify);
    Options(uri, call.timeout, call.json, headers, shaped.verb, shaped.payload)
  }
}
