/**
 * The service worker: which requests it answers and how, and the named caches it
 * keeps. A request is answered from the network first when its path starts with an
 * API prefix and from the caches first otherwise; non-GET requests are left to the
 * browser. The caches are a list of named stores in creation order, each mapping a
 * request URL to a response; a lookup over all of them takes the first store holding
 * the URL. The network is a parameter: the response it gives, or None when fetch throws.
 */
module ServiceWorker {
  import opened Wrappers
  import opened Strings

  const CacheVersion := "fna-v1"
  const StaticCache := CacheVersion + "-static"
  const ApiCache := CacheVersion + "-api"

  /** The application shell stored at install time. */
  const StaticAssets: seq<string> := [
    "/", "/index.html", "/app.js", "/charts.js", "/profile.js", "/manifest.json",
    "/icons/icon-192.png", "/icons/icon-512.png",
    "https://cdn.jsdelivr.net/npm/chart.js@4.4.1/dist/chart.umd.min.js"
  ]

  /** No asset is listed twice, so storing one asset keeps the others. */
  lemma AssetsDistinct()
    ensures forall i, j :: 0 <= i < j < |StaticAssets| ==> StaticAssets[i] != StaticAssets[j]
  {
  }

  /** The first `i` assets are in the static cache with the responses fetched for them. */
  predicate AssetsStored(c: Caches, fetched: seq<Option<Response>>, i: nat)
    requires i <= |StaticAssets| == |fetched|
  {
    && StaticCache in c.entries
    && forall k :: 0 <= k < i ==>
         fetched[k].Some? && StaticAssets[k] in c.entries[StaticCache] && c.entries[StaticCache][StaticAssets[k]] == fetched[k].value
  }

  /** Storing asset `i` keeps the assets stored before it. */
  lemma StoreAssetStep(c: Caches, fetched: seq<Option<Response>>, i: nat)
    requires i < |StaticAssets| == |fetched| && fetched[i].Some?
    requires WellFormed(c) && AssetsStored(c, fetched, i)
    ensures AssetsStored(Put(c, StaticCache, StaticAssets[i], fetched[i].value), fetched, i + 1)
  {
    AssetsDistinct();
    PutWellFormed(c, StaticCache, StaticAssets[i], fetched[i].value);
  }

  /**
   * `c` differs from `base` only in the static cache, and there only at the URLs
   * `assets`: the same caches in the same order, and the static cache holds its old URLs
   * and `assets`, with the old responses everywhere but at `assets`.
   */
  ghost predicate OnlyAssetsChanged(c: Caches, base: Caches, assets: seq<string>)
    requires StaticCache in base.entries
  {
    && c.order == base.order
    && c.entries.Keys == base.entries.Keys
    && (forall n :: n in base.entries && n != StaticCache ==> n in c.entries && c.entries[n] == base.entries[n])
    && StaticCache in c.entries
    && (forall u :: u in c.entries[StaticCache] <==> u in base.entries[StaticCache] || u in assets)
    && (forall u :: u in base.entries[StaticCache] && u !in assets ==>
          c.entries[StaticCache][u] == base.entries[StaticCache][u])
  }

  /** Storing asset `i` keeps every other cache and every URL of the static cache that is not an asset before it. */
  lemma StoreAssetFrame(c: Caches, base: Caches, i: nat, resp: Response)
    requires i < |StaticAssets| && StaticCache in base.entries
    requires OnlyAssetsChanged(c, base, StaticAssets[..i])
    ensures OnlyAssetsChanged(Put(c, StaticCache, StaticAssets[i], resp), base, StaticAssets[..i + 1])
  {
    var url := StaticAssets[i];
    var r := Put(c, StaticCache, url, resp);
    assert r.entries[StaticCache] == c.entries[StaticCache][url := resp];
    assert StaticAssets[..i + 1] == StaticAssets[..i] + [url];
  }

  /** The path prefixes answered network-first. */
  const ApiPatterns: seq<string> := ["/summary", "/meals", "/analyze", "/history", "/profile", "/ai-summary"]

  datatype Request = Request(httpMethod: string, url: string, pathname: string, accept: Option<string>)

  /** What a response carries: a network body, the offline page, the offline JSON error, or plain text. */
  datatype Body = Fetched(content: string) | OfflinePage | OfflineError(error: string) | PlainText(text: string)

  datatype Response = Response(status: int, contentType: Option<string>, body: Body)

  /** `Response.ok`. */
  predicate Ok(r: Response) {
    200 <= r.status <= 299
  }

  /** What `cache.put` and `cache.addAll` accept: an ok response that is not a 206 partial answer. */
  predicate Storable(r: Response) {
    Ok(r) && r.status != 206
  }

  // ---------------------------------------------------------------------------
  // Routing
  // ---------------------------------------------------------------------------

  /** `API_PATTERNS.some(pattern => pathname.startsWith(pattern))`. */
  predicate IsApiPath(pathname: string) {
    exists k :: 0 <= k < |ApiPatterns| && StartsWith(pathname, ApiPatterns[k])
  }

  datatype Route = NotIntercepted | NetworkFirstRoute | CacheFirstRoute

  /** The fetch handler's choice. */
  function RouteOf(req: Request): (r: Route)
    ensures r == NotIntercepted <==> req.httpMethod != "GET"
    ensures r == NetworkFirstRoute <==> req.httpMethod == "GET" && IsApiPath(req.pathname)
    ensures r == CacheFirstRoute <==> req.httpMethod == "GET" && !IsApiPath(req.pathname)
  {
    if req.httpMethod != "GET" then NotIntercepted
    else if IsApiPath(req.pathname) then NetworkFirstRoute
    else CacheFirstRoute
  }

  /**
   * The test is a prefix test, so the profile script is sent network-first like the
   * profile endpoint, while the shell page and the other scripts are sent cache-first.
   */
  lemma PrefixClassification()
    ensures IsApiPath("/profile.js") && IsApiPath("/meals/2024-01-01")
    ensures !IsApiPath("/") && !IsApiPath("/app.js") && !IsApiPath("/charts.js")
  {
    assert StartsWith("/profile.js", ApiPatterns[4]);
    assert StartsWith("/meals/2024-01-01", ApiPatterns[1]);
    assert forall k :: 0 <= k < |ApiPatterns| ==> |ApiPatterns[k]| > 1;
    assert forall k :: 0 <= k < |ApiPatterns| ==> !StartsWith("/app.js", ApiPatterns[k]) by {
      assert "/app.js"[1] == 'a' && "/app.js"[2] == 'p';
    }
    assert forall k :: 0 <= k < |ApiPatterns| ==> !StartsWith("/charts.js", ApiPatterns[k]) by {
      assert "/charts.js"[1] == 'c' && "/charts.js"[2] == 'h';
    }
  }

  // ---------------------------------------------------------------------------
  // The caches as values
  // ---------------------------------------------------------------------------

  /** The named caches: their names in creation order and their entries by URL. */
  datatype Caches = Caches(order: seq<string>, entries: map<string, map<string, Response>>)

  /** Each name once in the order, and exactly the named caches have entries. */
  ghost predicate WellFormed(c: Caches) {
    && Distinct(c.order)
    && (forall n :: n in c.entries <==> n in c.order)
  }

  /** `caches.match(url)`: the entry of the first cache, in creation order, that holds the URL. */
  function MatchIn(order: seq<string>, entries: map<string, map<string, Response>>, url: string): (r: Option<Response>)
    ensures r.None? <==> forall i :: 0 <= i < |order| && order[i] in entries ==> url !in entries[order[i]]
    ensures r.Some? ==> exists i :: && 0 <= i < |order| && order[i] in entries && url in entries[order[i]]
                                    && r.value == entries[order[i]][url]
                                    && forall j :: 0 <= j < i && order[j] in entries ==> url !in entries[order[j]]
  {
    if order == [] then None
    else if order[0] in entries && url in entries[order[0]] then Some(entries[order[0]][url])
    else
      var r := MatchIn(order[1..], entries, url);
      assert forall i :: 0 < i < |order| ==> order[i] == order[1..][i - 1];
      r
  }

  function Match(c: Caches, url: string): Option<Response> {
    MatchIn(c.order, c.entries, url)
  }

  /** `caches.open(name)`: a missing cache is created, empty, after the others. */
  function Open(c: Caches, name: string): (r: Caches)
    ensures name in r.entries
  {
    if name in c.entries then c else Caches(c.order + [name], c.entries[name := map[]])
  }

  /** `cache.put(url, response)` on the cache `name`, opening it first. */
  function Put(c: Caches, name: string, url: string, resp: Response): (r: Caches)
    ensures name in r.entries && url in r.entries[name] && r.entries[name][url] == resp
  {
    var o := Open(c, name);
    Caches(o.order, o.entries[name := o.entries[name][url := resp]])
  }

  lemma OpenWellFormed(c: Caches, name: string)
    requires WellFormed(c)
    ensures WellFormed(Open(c, name))
    ensures forall n :: n in c.entries ==> n in Open(c, name).entries && Open(c, name).entries[n] == c.entries[n]
  {
  }

  /** A put keeps the caches well formed and touches one entry of one cache. */
  lemma PutWellFormed(c: Caches, name: string, url: string, resp: Response)
    requires WellFormed(c)
    ensures WellFormed(Put(c, name, url, resp))
    ensures forall n :: n in c.entries && n != name ==> n in Put(c, name, url, resp).entries && Put(c, name, url, resp).entries[n] == c.entries[n]
    ensures forall u :: u != url && name in c.entries && u in c.entries[name] ==>
              u in Put(c, name, url, resp).entries[name] && Put(c, name, url, resp).entries[name][u] == c.entries[name][u]
  {
    OpenWellFormed(c, name);
  }

  /**
   * After a put the URL is found. The lookup returns the stored response unless a
   * cache created earlier also holds the URL, whose entry then wins.
   */
  lemma MatchAfterPut(c: Caches, name: string, url: string, resp: Response)
    requires WellFormed(c)
    ensures Match(Put(c, name, url, resp), url).Some?
    ensures (forall n :: n in c.entries && n != name ==> url !in c.entries[n]) ==>
              Match(Put(c, name, url, resp), url) == Some(resp)
  {
    var p := Put(c, name, url, resp);
    PutWellFormed(c, name, url, resp);
    var k :| 0 <= k < |p.order| && p.order[k] == name;
    assert url in p.entries[p.order[k]];
    if forall n :: n in c.entries && n != name ==> url !in c.entries[n] {
      var r := Match(p, url);
      var i :| && 0 <= i < |p.order| && p.order[i] in p.entries && url in p.entries[p.order[i]]
               && r.value == p.entries[p.order[i]][url];
      assert p.order[i] == name;
    }
  }

  // ---------------------------------------------------------------------------
  // Activation
  // ---------------------------------------------------------------------------

  /** The activate filter: caches of this app other than the current two are deleted. */
  predicate Obsolete(name: string) {
    StartsWith(name, "fna-") && name != StaticCache && name != ApiCache
  }

  /** `caches.delete(name)`. */
  function Delete(c: Caches, name: string): Caches {
    Caches(Without(c.order, {name}), c.entries - {name})
  }

  /** The names of `s` not in `gone`, in order. */
  function Without(s: seq<string>, gone: set<string>): (r: seq<string>)
    ensures forall n :: n in r <==> n in s && n !in gone
    ensures |r| <= |s|
  {
    if s == [] then [] else (if s[0] in gone then [] else [s[0]]) + Without(s[1..], gone)
  }

  lemma {:induction false} WithoutTwice(s: seq<string>, a: set<string>, b: set<string>)
    ensures Without(Without(s, a), b) == Without(s, a + b)
  {
    if s != [] {
      WithoutTwice(s[1..], a, b);
      var t := Without(s, a);
      if s[0] in a {
        assert t == Without(s[1..], a);
      } else {
        assert t == [s[0]] + Without(s[1..], a);
        assert t[0] == s[0] && t[1..] == Without(s[1..], a);
      }
    }
  }

  lemma {:induction false} WithoutNothing(s: seq<string>)
    ensures Without(s, {}) == s
  {
    if s != [] {
      WithoutNothing(s[1..]);
      assert s == [s[0]] + s[1..];
    }
  }

  predicate Distinct(s: seq<string>) {
    forall i, j :: 0 <= i < j < |s| ==> s[i] != s[j]
  }

  lemma {:induction false} WithoutKeepsDistinct(s: seq<string>, gone: set<string>)
    requires Distinct(s)
    ensures Distinct(Without(s, gone))
  {
    if s != [] {
      var tail := s[1..];
      assert Distinct(tail) by {
        forall i, j | 0 <= i < j < |tail| ensures tail[i] != tail[j] {
          assert tail[i] == s[i + 1] && tail[j] == s[j + 1];
        }
      }
      WithoutKeepsDistinct(tail, gone);
      var w := Without(tail, gone);
      if s[0] !in gone {
        assert s[0] !in tail by {
          forall k | 0 <= k < |tail| ensures tail[k] != s[0] {
            assert tail[k] == s[k + 1];
          }
        }
        assert s[0] !in w;
        var r := [s[0]] + w;
        forall i, j | 0 <= i < j < |r| ensures r[i] != r[j] {
          if i == 0 {
            assert r[j] == w[j - 1];
          } else {
            assert r[i] == w[i - 1] && r[j] == w[j - 1];
          }
        }
      }
    }
  }

  lemma PrefixGrows(s: seq<string>, i: nat)
    requires i < |s|
    ensures forall n :: n in s[..i + 1] <==> n in s[..i] || n == s[i]
  {
    assert s[..i + 1] == s[..i] + [s[i]];
  }

  /** The store with the caches `gone` deleted. */
  function Deleted(c: Caches, gone: set<string>): Caches {
    Caches(Without(c.order, gone), c.entries - gone)
  }

  lemma DeleteOneMore(c: Caches, gone: set<string>, n: string)
    ensures Delete(Deleted(c, gone), n) == Deleted(c, gone + {n})
  {
    WithoutTwice(c.order, gone, {n});
    assert (c.entries - gone) - {n} == c.entries - (gone + {n});
  }

  lemma DeletedAllObsolete(c: Caches, gone: set<string>)
    requires forall n :: n in gone <==> n in c.order && Obsolete(n)
    ensures Deleted(c, gone) == Activated(c)
  {
    assert gone == set n | n in c.order && Obsolete(n);
  }

  /** The store after activation: the obsolete caches are gone, the others untouched and in order. */
  function Activated(c: Caches): Caches {
    var obsolete := set n | n in c.order && Obsolete(n);
    Caches(Without(c.order, obsolete), c.entries - obsolete)
  }

  /** Activation deletes exactly the obsolete caches and keeps the store well formed. */
  lemma ActivatedSpec(c: Caches)
    requires WellFormed(c)
    ensures WellFormed(Activated(c))
    ensures forall n :: n in Activated(c).entries <==> n in c.entries && !Obsolete(n)
    ensures forall n :: n in Activated(c).entries ==> Activated(c).entries[n] == c.entries[n]
  {
    var obsolete := set n | n in c.order && Obsolete(n);
    WithoutKeepsDistinct(c.order, obsolete);
  }

  /** The current caches and every cache of another origin survive; an older version does not. */
  lemma ActivateFilter(other: string)
    requires !StartsWith(other, "fna-")
    ensures !Obsolete(StaticCache) && !Obsolete(ApiCache) && !Obsolete(other)
    ensures Obsolete("fna-v0-static") && Obsolete("fna-v0-api")
  {
    assert StaticCache[..4] == "fna-" && "fna-v0-static"[..4] == "fna-" && "fna-v0-api"[..4] == "fna-";
    assert "fna-v0-static"[5] != StaticCache[5];
    assert "fna-v0-api"[5] != ApiCache[5];
  }

  // ---------------------------------------------------------------------------
  // Offline answers
  // ---------------------------------------------------------------------------

  /** The content type a `Response` built from a string body gets when no header is set. */
  const DefaultTextType := "text/plain;charset=UTF-8"

  /** `createOfflineResponse`: the offline page for a request that accepts HTML, else a 503 text. */
  function OfflineResponse(req: Request): (r: Response)
    ensures r.status == 200 <==> req.accept.Some? && Contains(req.accept.value, "text/html")
    ensures r.status == 200 ==> r.body == OfflinePage && r.contentType == Some("text/html")
    ensures r.status != 200 ==> r == Response(503, Some(DefaultTextType), PlainText("Offline"))
  {
    if req.accept.Some? && Contains(req.accept.value, "text/html") then Response(200, Some("text/html"), OfflinePage)
    else Response(503, Some(DefaultTextType), PlainText("Offline"))
  }

  /** The answer to an API request when both the network and the caches fail. */
  const OfflineApiResponse := Response(503, Some("application/json"), OfflineError("offline"))

  // ---------------------------------------------------------------------------
  // The worker
  // ---------------------------------------------------------------------------

  class Worker {
    /** All caches of the origin. */
    var caches: Caches

    ghost predicate Valid()
      reads this
    {
      WellFormed(caches)
    }

    constructor()
      ensures Valid() && caches == Caches([], map[])
    {
      caches := Caches([], map[]);
    }

    /** `cache.put` on the named cache. */
    /** `caches.open(name)`, keeping the caches well formed. */
    method OpenCache(name: string)
      requires Valid()
      modifies this
      ensures Valid() && caches == Open(old(caches), name)
    {
      OpenWellFormed(caches, name);
      caches := Open(caches, name);
    }

    method Store(name: string, url: string, resp: Response)
      requires Valid()
      modifies this
      ensures Valid() && caches == Put(old(caches), name, url, resp)
    {
      PutWellFormed(caches, name, url, resp);
      caches := Put(caches, name, url, resp);
    }

    /**
     * The install step: the static cache is opened, then `addAll` stores every asset
     * if every fetch succeeded with a storable response (ok, not 206) and stores nothing otherwise.
     */
    method Install(fetched: seq<Option<Response>>)
      requires Valid() && |fetched| == |StaticAssets|
      modifies this
      ensures Valid()
      ensures StaticCache in caches.entries
      ensures (forall i :: 0 <= i < |fetched| ==> fetched[i].Some? && Storable(fetched[i].value)) ==>
                forall i :: 0 <= i < |StaticAssets| ==>
                  StaticAssets[i] in caches.entries[StaticCache] && caches.entries[StaticCache][StaticAssets[i]] == fetched[i].value
      ensures (forall i :: 0 <= i < |fetched| ==> fetched[i].Some? && Storable(fetched[i].value)) ==>
                OnlyAssetsChanged(caches, Open(old(caches), StaticCache), StaticAssets)
      ensures !(forall i :: 0 <= i < |fetched| ==> fetched[i].Some? && Storable(fetched[i].value)) ==>
                caches == Open(old(caches), StaticCache)
    {
      OpenWellFormed(caches, StaticCache);
      caches := Open(caches, StaticCache);
      ghost var base := caches;
      if forall i :: 0 <= i < |fetched| ==> fetched[i].Some? && Storable(fetched[i].value) {
        var i := 0;
        while i < |StaticAssets|
          invariant 0 <= i <= |StaticAssets| && Valid() && StaticCache in caches.entries
          invariant AssetsStored(caches, fetched, i)
          invariant OnlyAssetsChanged(caches, base, StaticAssets[..i])
        {
          ghost var before := caches;
          Store(StaticCache, StaticAssets[i], fetched[i].value);
          StoreAssetStep(before, fetched, i);
          StoreAssetFrame(before, base, i, fetched[i].value);
          i := i + 1;
        }
        assert StaticAssets[..i] == StaticAssets;
      }
    }

    /** The activate step: every obsolete cache is deleted. */
    method Activate()
      requires Valid()
      modifies this
      ensures Valid() && caches == Activated(old(caches))
    {
      ghost var c0 := caches;
      var names := caches.order;
      ghost var gone: set<string> := {};
      WithoutNothing(c0.order);
      assert c0.entries - gone == c0.entries;
      var i := 0;
      while i < |names|
        invariant 0 <= i <= |names|
        invariant forall n :: n in gone <==> n in names[..i] && Obsolete(n)
        invariant caches == Deleted(c0, gone)
      {
        PrefixGrows(names, i);
        if Obsolete(names[i]) {
          DeleteOneMore(c0, gone, names[i]);
          caches := Delete(caches, names[i]);
          gone := gone + {names[i]};
        }
        i := i + 1;
      }
      assert names[..i] == names;
      DeletedAllObsolete(c0, gone);
      ActivatedSpec(c0);
    }

    /**
     * Cache-first: a cached answer is returned without asking the network; otherwise
     * the network's answer is returned; an ok answer opens the static cache and is put
     * there unless it is a 206; with
     * no network the offline fallback is returned and nothing is stored.
     */
    method CacheFirst(req: Request, network: Option<Response>) returns (resp: Response)
      requires Valid()
      modifies this
      ensures Valid()
      ensures Match(old(caches), req.url).Some? ==>
                resp == Match(old(caches), req.url).value && caches == old(caches)
      ensures Match(old(caches), req.url).None? && network.Some? ==>
                resp == network.value &&
                caches == (if Storable(network.value) then Put(old(caches), StaticCache, req.url, network.value)
                           else if Ok(network.value) then Open(old(caches), StaticCache) else old(caches))
      ensures Match(old(caches), req.url).None? && network.None? ==>
                resp == OfflineResponse(req) && caches == old(caches)
    {
      var cached := Match(caches, req.url);
      if cached.Some? {
        return cached.value;
      }
      if network.None? {
        return OfflineResponse(req);
      }
      resp := network.value;
      if Ok(resp) {
        OpenCache(StaticCache);
        // the put is not awaited, and it rejects a 206 answer without storing it
        if resp.status != 206 {
          Store(StaticCache, req.url, resp);
        }
      }
    }

    /**
     * Network-first: the network's answer is returned; an ok answer opens the API cache
     * and is put there unless it is a 206; with no network the cached answer is returned or, failing that, the 503
     * offline error, and nothing is stored.
     */
    method NetworkFirst(req: Request, network: Option<Response>) returns (resp: Response)
      requires Valid()
      modifies this
      ensures Valid()
      ensures network.Some? ==>
                resp == network.value &&
                caches == (if Storable(network.value) then Put(old(caches), ApiCache, req.url, network.value)
                           else if Ok(network.value) then Open(old(caches), ApiCache) else old(caches))
      ensures network.None? ==> caches == old(caches)
      ensures network.None? ==>
                resp == (if Match(old(caches), req.url).Some? then Match(old(caches), req.url).value else OfflineApiResponse)
    {
      if network.Some? {
        resp := network.value;
        if Ok(resp) {
          OpenCache(ApiCache);
          // as in CacheFirst, a 206 answer is rejected by the put
          if resp.status != 206 {
            Store(ApiCache, req.url, resp);
          }
        }
        return;
      }
      var cached := Match(caches, req.url);
      if cached.Some? {
        return cached.value;
      }
      return OfflineApiResponse;
    }

    /** The fetch handler: None when the request is left to the browser. */
    method HandleFetch(req: Request, network: Option<Response>) returns (resp: Option<Response>)
      requires Valid()
      modifies this
      ensures Valid()
      ensures resp.None? <==> RouteOf(req) == NotIntercepted
      ensures RouteOf(req) == NotIntercepted ==> caches == old(caches)
      ensures RouteOf(req) == CacheFirstRoute ==>
                && resp == Some(if Match(old(caches), req.url).Some? then Match(old(caches), req.url).value
                                else if network.Some? then network.value else OfflineResponse(req))
                && caches == (if Match(old(caches), req.url).None? && network.Some? && Storable(network.value)
                              then Put(old(caches), StaticCache, req.url, network.value)
                              else if Match(old(caches), req.url).None? && network.Some? && Ok(network.value)
                              then Open(old(caches), StaticCache) else old(caches))
      ensures RouteOf(req) == NetworkFirstRoute ==>
                && resp == Some(if network.Some? then network.value
                                else if Match(old(caches), req.url).Some? then Match(old(caches), req.url).value
                                else OfflineApiResponse)
                && caches == (if network.Some? && Storable(network.value)
                              then Put(old(caches), ApiCache, req.url, network.value)
                              else if network.Some? && Ok(network.value) then Open(old(caches), ApiCache) else old(caches))
    {
      match RouteOf(req)
      case NotIntercepted =>
        resp := None;
      case NetworkFirstRoute =>
        var r := NetworkFirst(req, network);
        resp := Some(r);
      case CacheFirstRoute =>
        var r := CacheFirst(req, network);
        resp := Some(r);
    }
  }

  /**
   * An API answer stored after a successful fetch is found by the next lookup,
   * and is what the lookup returns unless an older cache holds the same URL.
   */
  lemma ApiAnswerCached(c: Caches, url: string, resp: Response)
    requires WellFormed(c) && Storable(resp)
    requires forall n :: n in c.entries && n != ApiCache ==> url !in c.entries[n]
    ensures Match(Put(c, ApiCache, url, resp), url) == Some(resp)
  {
    MatchAfterPut(c, ApiCache, url, resp);
  }
}
