/**
 * The process-wide DNS cache (`DNS_CACHE` in index.js): a dictionary from
 * request URI to the rewritten URI and original host name, plus ONE expiry
 * time shared by every entry. The clock, the URL parser's output and the
 * resolver's answer are parameters of `Resolve`.
 */
module Dns {
  import opened Wrappers

  /** How long a lookup keeps the whole cache fresh, in milliseconds. */
  const TTL: int := 3600000

  /** The parts of `url.parse(uri)` that the rewrite uses; "" stands for absent. */
  datatype UrlParts = UrlParts(protocol: string, hostname: string, port: string, path: string)

  /** `{ newUri, hostname }`: what a cache entry holds and what the request uses. */
  datatype Entry = Entry(newUri: string, hostname: string)

  /** `:port` when the URL names a port, nothing otherwise. */
  function PortSuffix(port: string): string
  {
    if port != "" then ":" + port else ""
  }

  /**
   * The URI rebuilt around the resolved address from the protocol, the port
   * and the path (pathname plus query) alone. Nothing else of the original
   * URI survives: user credentials and the fragment are dropped, and an IPv6
   * address is inserted without brackets.
   */
  function RewrittenUri(parts: UrlParts, address: string): string
  {
    parts.protocol + "//" + address + PortSuffix(parts.port) + parts.path
  }

  /** The lookup answered with an address and the URL has a host name to replace. */
  predicate Resolved(parts: UrlParts, lookup: Option<string>)
  {
    lookup.Some? && lookup.value != "" && parts.hostname != ""
  }

  /** What a lookup yields for the request: the rewrite, or the URI unchanged. */
  function Answer(uri: string, parts: UrlParts, lookup: Option<string>): (e: Entry)
    ensures e.hostname != "" <==> Resolved(parts, lookup)
    ensures e.hostname == "" ==> e.newUri == uri
    ensures Resolved(parts, lookup) ==> e == Entry(RewrittenUri(parts, lookup.value), parts.hostname)
    ensures Resolved(parts, lookup) ==> e.newUri != ""
  {
    if Resolved(parts, lookup) then Entry(RewrittenUri(parts, lookup.value), parts.hostname)
    else Entry(uri, "")
  }

  class DnsCache {
    var entries: map<string, Entry>
    var timeout: int

    /** Only successful lookups are stored, so every entry names a host. */
    ghost predicate Valid()
      reads this
    {
      forall u :: u in entries ==> entries[u].hostname != "" && entries[u].newUri != ""
    }

    /** `DNS_CACHE[uri]` exists and the shared expiry has not passed. */
    predicate Fresh(uri: string, now: int)
      reads this
    {
      uri in entries && now <= timeout
    }

    /** The module-level initial value `{ timeout: 0 }`. */
    constructor ()
      ensures Valid()
      ensures entries == map[] && timeout == 0
    {
      entries := map[];
      timeout := 0;
    }

    /**
     * The cache step of one request at time `now`. A lookup is consulted
     * (`consulted`) exactly when the entry is missing or the shared expiry
     * has passed; it then pushes the expiry to `now + TTL` whatever its
     * answer, and stores an entry only on success. A fresh hit changes nothing.
     */
    method Resolve(uri: string, now: int, parts: UrlParts, lookup: Option<string>)
      returns (info: Entry, consulted: bool)
      requires Valid()
      modifies this
      ensures Valid()
      ensures consulted <==> !old(Fresh(uri, now))
      ensures !consulted ==> entries == old(entries) && timeout == old(timeout)
      ensures !consulted ==> info == old(entries)[uri]
      ensures consulted ==> timeout == now + TTL && info == Answer(uri, parts, lookup)
      ensures consulted && Resolved(parts, lookup) ==> entries == old(entries)[uri := info]
      ensures consulted && !Resolved(parts, lookup) ==> entries == old(entries)
    {
      if uri !in entries || now > timeout {
        timeout := now + TTL;
        consulted := true;
        if lookup.Some? && lookup.value != "" && parts.hostname != "" {
          info := Entry(RewrittenUri(parts, lookup.value), parts.hostname);
          entries := entries[uri := info];
        } else {
          info := Entry(uri, "");
        }
      } else {
        consulted := false;
        info := entries[uri];
      }
    }
  }

  /**
   * Starting from the initial cache, a successful lookup followed by a
   * second request for the same URI within the hour costs one lookup, and
   * the second request reuses the rewritten URI and host name.
   */
  method LookupOnceWithinHour(uri: string, now: int, later: int, parts: UrlParts, address: string)
    returns (first: Entry, second: Entry, lookups: nat)
    requires address != "" && parts.hostname != ""
    requires later <= now + TTL
    ensures lookups == 1
    ensures first == second
    ensures first == Entry(RewrittenUri(parts, address), parts.hostname)
  {
    var cache := new DnsCache();
    var c1, c2;
    first, c1 := cache.Resolve(uri, now, parts, Some(address));
    second, c2 := cache.Resolve(uri, later, parts, None);
    lookups := (if c1 then 1 else 0) + (if c2 then 1 else 0);
  }

  /**
   * The expiry is shared: once the hour has passed, a request for ANOTHER
   * URI (even one whose lookup fails) renews it, and the stale entry for
   * `uri` is then served again without a lookup.
   */
  method SharedExpiry(uri: string, other: string, t0: int, t1: int, parts: UrlParts, address: string)
    returns (stale: Entry, consulted: bool)
    requires address != "" && parts.hostname != "" && other != uri
    requires t1 > t0 + TTL
    ensures !consulted
    ensures stale == Entry(RewrittenUri(parts, address), parts.hostname)
  {
    var cache := new DnsCache();
    var e, c;
    e, c := cache.Resolve(uri, t0, parts, Some(address));
    e, c := cache.Resolve(other, t1, parts, None);
    stale, consulted := cache.Resolve(uri, t1, parts, None);
  }
}
