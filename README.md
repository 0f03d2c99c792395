# think_request: a verified model of the request helper

`think_request` exports one async function,
`(form, uri, method, headers, json, timeout, maxTries, dnsCache)`, that sends an
HTTP request through `request-promise`, optionally rewriting the URI to a
cached DNS address and optionally retrying. It reports a failed request as
`{ code, message }`, except where its own code throws a `TypeError` first
(see `Client.Settle`). This project models the decisions inside that function
and proves what they guarantee:

- **Option assembly** (`Shaping`): the caller's headers merged over
  `User-Agent: request/2.88.2` and `Accept: */*`, the JSON flag, and the one
  slot the payload goes in (`Payload = Qs | JsonBody | StringBody | FormData | Form`,
  so "exactly one slot" holds by construction).
- **DNS cache** (`Dns.DnsCache`): the module-level dictionary from URI to
  `{ newUri, hostname }` with one shared `timeout`, as a class whose `Resolve`
  method updates it in place. The clock, the URL parser's output and the
  resolver's answer are parameters.
- **Error normalisation** (`Errors`): the single-shot rule (504 on
  `TIMEDOUT`, else the truthy status, else 503) and the retry rule, which
  first adopts the wrapped `failure` and then replaces the error by the JSON
  object trailing its message, ignoring a parse that fails.
- **The exported function** (`Client.Execute`), which runs these steps in the
  source's order and settles the transport's outcome.

The string primitives the source leans on (`indexOf`, `toUpperCase`, the
regular expression `/{.*}$/`) are modelled in `Strings`, each against a
declarative definition (`Contains`, `ObjectAt`).

Some consequences of the code that a reader might not expect:
- the `json` / `form-data` tests on `Content-Type` are case-sensitive
  substring tests, and only the `Content-Type` key spelled exactly so is read;
- the shared expiry is pushed to `now + 3600000` before the lookup, whatever
  the lookup's outcome;
- the embedded-JSON unwrap happens only on the retry path (`maxTries > 1`),
  and only the parsed object's `statusCode` is read, so an embedded
  `{"code":400,"message":"bad"}` without a `statusCode` gives code 503 and
  message `bad` (`Errors.EmbeddedCodeIsNotRead`);
- the DNS rewrite rebuilds the URI from protocol, address, port and path
  only: credentials in the URI (`user:pass@`) and the fragment are dropped
  whenever the cache is on, and an IPv6 address is inserted without the
  brackets a URI needs;
- on the retry path a delivered response is read through `.body` twice, so
  a response whose body is `null` or missing makes the call fail with a
  `TypeError`; and a log record that `JSON.stringify` cannot encode (a
  BigInt or a cycle in the payload) replaces the `{ code, message }`
  rejection with a `TypeError`.

## Model

| member | source | states |
|---|---|---|
| `Strings.IndexOf` | index.js:84-91 | `indexOf` returns -1 exactly when the needle does not occur, and otherwise the first index where it occurs |
| `Strings.ToUpper` | index.js:80 | upper-casing keeps the length and upper-cases each ASCII letter in place |
| `Strings.FirstObjectFrom` | index.js:118 | the scan returns the leftmost position at or after its start where `/{.*}$/` matches, or none when there is none |
| `Strings.TrailingObject` | index.js:118 | `match(/{.*}$/)` fails exactly when no position matches; otherwise it yields the suffix from the leftmost match |
| `Strings.ObjectImpliesBrace` | index.js:117-118 | any message the regex matches contains `{`, so the `indexOf('{')` guard never hides a match |
| `Dns.Answer` | index.js:57-65 | a lookup that answers with an address for a URL with a host name yields `{ newUri, hostname }` with `newUri` the protocol, `//`, the address, `:port` when there is a port, and the path, and `hostname` the original host name; otherwise the original URI and an empty host name |
| `Dns.DnsCache.constructor` | index.js:21 | the cache starts empty with shared timeout 0 |
| `Dns.DnsCache.Resolve` | index.js:53-68 | a lookup is consulted iff the entry is missing or the shared timeout has passed; then the timeout becomes `now + 3600000` and only a successful lookup writes the entry; a fresh hit returns the entry and changes nothing; every stored entry names a host |
| `Dns.LookupOnceWithinHour` | index.js:53-67 | from the initial cache, a successful lookup and a second request for the same URI within the hour cost exactly one lookup and return the same rewrite |
| `Dns.SharedExpiry` | index.js:53-54 | after expiry, a request for another URI (even a failed lookup) renews the shared timeout, and the stale entry is served again without a lookup |
| `Shaping.MergeHeaders` | index.js:45-48 | the merged headers are the caller's keys plus `User-Agent` and `Accept`; every caller value is kept; the defaults fill only the keys the caller left out |
| `Shaping.IsGet` | index.js:80 | `method.toUpperCase() === 'GET'` holds exactly for the eight letter-casings of `get` |
| `Shaping.ShapePayload` | index.js:80-98 | GET (any case) puts the payload in `qs` and sets method `GET`, and only GET uses `qs`; otherwise the method passes through, `json` in `Content-Type` gives a structured body or its JSON text per the flag, else a non-empty `Form-data` header or `form-data` in `Content-Type` gives `formData`, else `form`, always carrying the caller's payload |
| `Shaping.BuildOptions` | index.js:40-98 | timeout and JSON flag pass through; the URI is the DNS step's `newUri` when it has one, else the caller's; `Host` is added (overriding the caller's) only when the DNS step names a host; every other caller header is kept and the defaults fill the gaps; method and payload are the shaped ones |
| `Errors.Normalize` | index.js:134-139 | the message is carried unchanged; `TIMEDOUT` in it gives 504, else a truthy status gives itself, else 503; the code is never 0 |
| `Errors.UnwrapRetry` | index.js:112-120 | after adopting the wrapped failure, the error is replaced by the parsed trailing object when the message has one that parses, and otherwise left as the failure copy left it |
| `Errors.BraceGuard` | index.js:117 | a message that is absent, empty or free of `{` has no trailing object |
| `Errors.NormalizeRetry` | index.js:111-126 | the retry path reports `Normalize` of the error `UnwrapRetry` leaves: 504 on `TIMEDOUT`, else a truthy status, else 503, with that error's message; the code is never 0 |
| `Errors.PathsAgree` | index.js:111-139 | when the wrapped cause's message has no trailing object, the retry path reports exactly what the single-shot path reports for the cause |
| `Errors.EmbeddedCodeIsNotRead` | index.js:117-126 | a cause `400 - {"code":400,"message":"bad"}` whose object parses without a `statusCode` is reported as code 503 with message `bad`: the object's `code` is not read |
| `Errors.CauseOverridesWrapper` | index.js:113-116 | when a wrapped cause is present, the wrapper's own status and message do not affect the retry path's result |
| `Client.Settle` | index.js:100-141 | fulfilled iff the transport delivered and, on the retry path, the delivered value's `.body` can be read (the value is the body, or that `.body` on the retry path); rejected with `{ code, message }` iff the transport rejected and the log record can be encoded, the error being `Normalize` of the transport's error for `maxTries <= 1` and `NormalizeRetry` of the wrapper's otherwise; in every other case a `TypeError` |
| `Client.Execute` | index.js:38-141 | the cache is untouched and no lookup is made when `dnsCache` is off; otherwise the cache steps as `Resolve` says, a fresh hit rewrites the URI and sets `Host` from the stored entry, a failed lookup leaves the URI and the caller's `Host` alone; the options equal `BuildOptions` of the DNS result; the result is `Settle` of the outcome; the cache invariant is kept |
| `Errors.Adopted` | index.js:113-116 | definition: the error after its status and message are overwritten from a present `failure` |
| `Dns.DnsCache.Fresh` | index.js:53 | definition: the cache hit test, an entry for the URI and `now` not past the shared timeout |
| `Dns.Resolved` | index.js:58 | definition: the lookup answered with a non-empty address and the URL has a non-empty host name |
| `Shaping.HeaderText` | index.js:84 | definition: a caller header's text, "" when absent |
| `Shaping.Rewrites` | index.js:72 | definition: the DNS step produced a non-empty `newUri` |
| `Shaping.SetsHost` | index.js:72-74 | definition: the DNS step produced a `newUri` and a non-empty host name |

## Left out

- HTTP transport: the `request-promise` defaults (IPv4 only, no certificate checks, unbounded socket pool, keep-alive) and the request itself; the transport is represented only by the outcome it reports.
- Retry scheduling by `bluebird-retry`: the 50 ms interval, the 60000 ms budget and the number of attempts are not modelled; the retry path receives the wrapper's final rejection, with the last underlying failure as its cause.
- `Client.Settle`: the response body is abstract; reading `.body` of it on the retry path is a parameter (`bodyOf`), and whether the log record can be encoded is a parameter (`logEncodes`), not derived from the payload.
- `Shaping.ShapePayload`: `JSON.stringify` of the payload is a total parameter; a payload it rejects (a BigInt or a cycle) makes the source's call fail with a `TypeError` before sending, which is not modelled.
- Foreign primitives are parameters: `Date.now` (`now`), `url.parse` (`UrlParts`, with "" for an absent component, so a `null` protocol or path printed as `null` is not modelled), `dns.lookup` (`lookup`, `None` on failure), `JSON.stringify` (`stringify`), `JSON.parse` (`parse`, `None` when it throws).
- `helper.toString` of `think_lib` is not part of this model; an absent header is read as "".
- Header values are strings, truthy when non-empty; a non-string header value such as `true` for `Form-data` is represented by its text.
- Status codes are integers or absent, truthy when non-zero; a non-numeric status such as a string parsed from JSON is not modelled. Messages are strings or absent.
- `Strings.ToUpper`: only ASCII letters are upper-cased; no other character upper-cases to `G`, `E` or `T`, so the GET test is unaffected.
- `Dns.DnsCache.Resolve`: URIs that name a property the cache object already has (`timeout`, or an inherited one such as `constructor`) are treated as ordinary missing keys, whereas the source reads that property as if it were an entry.
- Logging to `LOGS_PATH`: the write itself is not modelled and is taken not to throw; only whether its record can be encoded affects the result (`logEncodes`).
- Concurrency: races between concurrent calls on the shared cache, and the ordering of promises and `await`.
