/** The offline worker: which requests it intercepts, the network-only and
    cache-first strategies, and the cache bookkeeping of install and
    activate. Network results are inputs; the cache storage is a map from
    cache name to a map from request URL to response. */
module ServiceWorker {
  import opened Wrappers
  import opened Text

  /** The name of the current cache snapshot. */
  const CACHE_NAME := "meteo-pwa-v1"

  /** The static shell stored on install, as paths on the worker's origin. */
  const ASSETS: seq<string> := [
    "/Meteo/",
    "/Meteo/index.html",
    "/Meteo/style.css",
    "/Meteo/app.js",
    "/Meteo/manifest.json",
    "/Meteo/icons/icon-72.png",
    "/Meteo/icons/icon-96.png",
    "/Meteo/icons/icon-128.png",
    "/Meteo/icons/icon-144.png",
    "/Meteo/icons/icon-152.png",
    "/Meteo/icons/icon-192.png",
    "/Meteo/icons/icon-384.png",
    "/Meteo/icons/icon-512.png"
  ]

  /** The page served to a navigation that can reach neither cache nor network. */
  const OFFLINE_PAGE := "/index.html"

  /** A parsed request URL: the whole URL (the cache key), its protocol
      (such as "https:") and its host name. */
  datatype Url = Url(href: string, protocol: string, hostname: string)

  /** A request: its HTTP method (`verb`), URL and `Accept` header, if any. */
  datatype Request = Request(verb: string, url: Url, accept: Option<string>)

  datatype Response = Response(status: int, statusText: string, body: string, contentType: Option<string>)
  {
    /** `response.ok`. */
    predicate Ok()
    {
      200 <= status <= 299
    }

    /** What `cache.put` and `cache.addAll` accept: an ok status other than
        206 (partial content), which the Cache API rejects. */
    predicate Storable()
    {
      Ok() && status != 206
    }
  }

  /** What `fetch(request)` settles to: a rejection, or a response of any status. */
  datatype NetResult = NetworkError | Fetched(response: Response)

  /** The synthesized answer of networkOnly when the network fails. */
  const API_OFFLINE := Response(503, "Service Unavailable", "{\"error\":\"Pas de connexion internet\"}",
                                Some("application/json"))

  /** The synthesized answer of cacheFirst when nothing else is available.
      A `Response` built from a string body gets the text/plain content type. */
  const ASSET_OFFLINE := Response(503, "Service Unavailable", "Contenu non disponible hors-ligne",
                                  Some("text/plain;charset=UTF-8"))

  /** `isApiRequest`: the host name mentions the weather or the geocoding service. */
  function IsApiHost(hostname: string): (api: bool)
    ensures api <==> (exists i: nat :: OccursAt(hostname, "open-meteo.com", i))
                     || (exists i: nat :: OccursAt(hostname, "geocoding-api", i))
  {
    ContainsIffOccurs(hostname, "open-meteo.com");
    ContainsIffOccurs(hostname, "geocoding-api");
    Contains(hostname, "open-meteo.com") || Contains(hostname, "geocoding-api")
  }

  datatype Route = NotIntercepted | NetworkOnlyRoute | CacheFirstRoute

  /** The fetch listener's decision: requests other than GET, and URLs whose
      protocol does not start with "http", are left to the browser; API
      requests go to the network only; everything else is served cache-first. */
  function RouteOf(req: Request): (r: Route)
    ensures r == NotIntercepted <==> req.verb != "GET" || !("http" <= req.url.protocol)
    ensures r == NetworkOnlyRoute <==> req.verb == "GET" && "http" <= req.url.protocol && IsApiHost(req.url.hostname)
    ensures r == CacheFirstRoute <==> req.verb == "GET" && "http" <= req.url.protocol && !IsApiHost(req.url.hostname)
  {
    if req.verb != "GET" then NotIntercepted
    else if !("http" <= req.url.protocol) then NotIntercepted
    else if IsApiHost(req.url.hostname) then NetworkOnlyRoute
    else CacheFirstRoute
  }

  /** Every host under open-meteo.com, and so both hosts the app calls
      (geocoding-api.open-meteo.com and api.open-meteo.com), is routed to the
      network only and never reaches the cache. */
  lemma {:induction false} OpenMeteoIsNetworkOnly(req: Request, sub: string, rest: string)
    requires req.verb == "GET" && "http" <= req.url.protocol
    requires req.url.hostname == sub + "open-meteo.com" + rest
    ensures RouteOf(req) == NetworkOnlyRoute
  {
    ContainsInMiddle(sub, "open-meteo.com", rest);
  }

  /** The two hosts the app calls, for geocoding and for the forecast. */
  lemma AppHostsAreNetworkOnly(req: Request)
    requires req.verb == "GET" && "http" <= req.url.protocol
    requires req.url.hostname == "geocoding-api.open-meteo.com" || req.url.hostname == "api.open-meteo.com"
    ensures RouteOf(req) == NetworkOnlyRoute
  {
    if req.url.hostname == "api.open-meteo.com" {
      assert "api.open-meteo.com" == "api." + "open-meteo.com" + "";
      OpenMeteoIsNetworkOnly(req, "api.", "");
    } else {
      assert "geocoding-api.open-meteo.com" == "geocoding-api." + "open-meteo.com" + "";
      OpenMeteoIsNetworkOnly(req, "geocoding-api.", "");
    }
  }

  /** `networkOnly`: the network's response, whatever its status, or a 503
      JSON error when the network fails. It takes no cache, so it can neither
      read nor write one. */
  function NetworkOnly(net: NetResult): (resp: Response)
    ensures net.Fetched? ==> resp == net.response
    ensures net.NetworkError? ==> resp.status == 503 && resp.contentType == Some("application/json")
  {
    match net
    case Fetched(r) => r
    case NetworkError => API_OFFLINE
  }

  /** The cache named `name` exists and holds `key`. */
  predicate Holds(caches: map<string, map<string, Response>>, name: string, key: string)
  {
    name in caches && key in caches[name]
  }

  /** `caches.match(key)`: the entry of the first cache, in creation order,
      that holds the key. */
  function MatchIn(names: seq<string>, caches: map<string, map<string, Response>>, key: string): (r: Option<Response>)
    ensures r.None? <==> forall i :: 0 <= i < |names| ==> !Holds(caches, names[i], key)
    ensures r.Some? ==> exists i :: 0 <= i < |names| && FirstHolder(names, caches, key, i) && caches[names[i]][key] == r.value
  {
    if names == [] then None
    else if Holds(caches, names[0], key) then
      assert FirstHolder(names, caches, key, 0);
      Some(caches[names[0]][key])
    else
      var r := MatchIn(names[1..], caches, key);
      assert forall i :: 1 <= i < |names| ==> names[i] == names[1..][i - 1];
      assert forall i :: 1 <= i < |names| && FirstHolder(names[1..], caches, key, i - 1) ==> FirstHolder(names, caches, key, i);
      r
  }

  /** `names[i]` is the first cache, in creation order, that holds `key`. */
  predicate FirstHolder(names: seq<string>, caches: map<string, map<string, Response>>, key: string, i: nat)
  {
    i < |names| && Holds(caches, names[i], key) && forall j :: 0 <= j < i ==> !Holds(caches, names[j], key)
  }

  /** Cache names are distinct, and they are exactly the keys of the storage. */
  ghost predicate Consistent(names: seq<string>, caches: map<string, map<string, Response>>)
  {
    && (forall i, j :: 0 <= i < j < |names| ==> names[i] != names[j])
    && (forall n :: n in caches <==> n in names)
  }

  /** `names` with `name` taken out. */
  function RemoveName(names: seq<string>, name: string): (r: seq<string>)
    ensures forall n :: n in r <==> n in names && n != name
    ensures name !in names ==> r == names
    ensures (forall i, j :: 0 <= i < j < |names| ==> names[i] != names[j]) ==>
            (forall i, j :: 0 <= i < j < |r| ==> r[i] != r[j])
  {
    if names == [] then []
    else
      var rest := RemoveName(names[1..], name);
      assert forall n :: n in names[1..] ==> n in names;
      if names[0] == name then rest
      else
        assert (forall i, j :: 0 <= i < j < |names| ==> names[i] != names[j]) ==> names[0] !in names[1..];
        [names[0]] + rest
  }

  /** Removing a name from a concatenation removes it from each part: the
      remaining names keep their creation order. */
  lemma {:induction false} RemoveNameDistributes(a: seq<string>, b: seq<string>, name: string)
    ensures RemoveName(a + b, name) == RemoveName(a, name) + RemoveName(b, name)
  {
    if a == [] {
      assert a + b == b;
    } else {
      var head := if a[0] == name then [] else [a[0]];
      var x, y := RemoveName(a[1..], name), RemoveName(b, name);
      assert a + b == [a[0]] + (a[1..] + b);
      RemoveNameCons(a[0], a[1..] + b, name);
      assert a == [a[0]] + a[1..];
      RemoveNameCons(a[0], a[1..], name);
      RemoveNameDistributes(a[1..], b, name);
      AppendAssociates(head, x, y);
    }
  }

  lemma AppendAssociates<T>(p: seq<T>, q: seq<T>, r: seq<T>)
    ensures p + (q + r) == (p + q) + r
  {
  }

  lemma RemoveNameCons(first: string, rest: seq<string>, name: string)
    ensures RemoveName([first] + rest, name) == (if first == name then [] else [first]) + RemoveName(rest, name)
  {
    assert ([first] + rest)[1..] == rest;
  }

  lemma FirstIsMember<T>(s: seq<T>)
    ensures s != [] ==> s[0] in s
  {
  }

  /** A list without repetitions all of whose entries are `x` has at most one entry. */
  lemma DistinctOfOne(names: seq<string>, x: string)
    requires forall i, j :: 0 <= i < j < |names| ==> names[i] != names[j]
    requires forall n :: n in names ==> n == x
    ensures names == [] || names == [x]
  {
    if names != [] {
      assert names[0] in names;
      assert names[0] !in names[1..];
      assert forall n :: n in names[1..] ==> n in names;
      FirstIsMember(names[1..]);
      assert names == [names[0]] + names[1..];
    }
  }

  /** What activate keeps: the current cache if it exists, nothing else. */
  function Retained(caches: map<string, map<string, Response>>): (r: map<string, map<string, Response>>)
    ensures forall n :: n in r <==> n == CACHE_NAME && n in caches
    ensures CACHE_NAME in r ==> r[CACHE_NAME] == caches[CACHE_NAME]
  {
    if CACHE_NAME in caches then map[CACHE_NAME := caches[CACHE_NAME]] else map[]
  }

  /** The storage after `caches.open(CACHE_NAME)`: the current cache exists, empty if it is new. */
  function Opened(caches: map<string, map<string, Response>>): (r: map<string, map<string, Response>>)
    ensures CACHE_NAME in r
    ensures CACHE_NAME in caches ==> r == caches
    ensures CACHE_NAME !in caches ==> r[CACHE_NAME] == map[]
    ensures forall n :: n != CACHE_NAME ==> (n in r <==> n in caches)
    ensures forall n :: n != CACHE_NAME && n in caches ==> r[n] == caches[n]
  {
    if CACHE_NAME in caches then caches else caches[CACHE_NAME := map[]]
  }

  /** The cache names after `caches.open(CACHE_NAME)`: a new cache is listed last. */
  function OpenedNames(names: seq<string>, caches: map<string, map<string, Response>>): (r: seq<string>)
    ensures CACHE_NAME in r
    ensures names <= r && |r| <= |names| + 1
    ensures forall n :: n in r <==> n in names || n == CACHE_NAME
    ensures Consistent(names, caches) ==> Consistent(r, Opened(caches))
  {
    if CACHE_NAME in names then names else names + [CACHE_NAME]
  }

  /** The full URLs of the assets on the given origin. */
  function AssetKeys(origin: string): (keys: seq<string>)
    ensures |keys| == |ASSETS|
    ensures forall i :: 0 <= i < |ASSETS| ==> keys[i] == origin + ASSETS[i]
  {
    seq(|ASSETS|, i requires 0 <= i < |ASSETS| => origin + ASSETS[i])
  }

  lemma AssetsDistinct()
    ensures forall i, j :: 0 <= i < j < |ASSETS| ==> ASSETS[i] != ASSETS[j]
  {
  }

  /** No two assets share a cache key, and the offline page's key is none of them. */
  lemma AssetKeysDistinct(origin: string)
    ensures forall i, j :: 0 <= i < j < |ASSETS| ==> AssetKeys(origin)[i] != AssetKeys(origin)[j]
    ensures origin + OFFLINE_PAGE !in AssetKeys(origin)
  {
    AssetsDistinct();
    var keys := AssetKeys(origin);
    forall i, j | 0 <= i < j < |ASSETS|
      ensures keys[i] != keys[j]
    {
      if keys[i] == keys[j] {
        PrefixCancels(origin, ASSETS[i], ASSETS[j]);
      }
    }
    if origin + OFFLINE_PAGE in keys {
      var i :| 0 <= i < |keys| && keys[i] == origin + OFFLINE_PAGE;
      PrefixCancels(origin, ASSETS[i], OFFLINE_PAGE);
    }
  }

  /** Every fetch of a batch gave a response `cache.addAll` accepts. */
  predicate AllStorable(fetched: seq<NetResult>)
  {
    forall i :: 0 <= i < |fetched| ==> fetched[i].Fetched? && fetched[i].response.Storable()
  }

  /** The responses of a batch of fetches that all succeeded. */
  function Responses(fetched: seq<NetResult>): (rs: seq<Response>)
    requires forall i :: 0 <= i < |fetched| ==> fetched[i].Fetched?
    ensures |rs| == |fetched|
    ensures forall i :: 0 <= i < |fetched| ==> rs[i] == fetched[i].response
  {
    seq(|fetched|, i requires 0 <= i < |fetched| && fetched[i].Fetched? => fetched[i].response)
  }

  /** `cache.put` of each key with its response, in order. */
  function PutAll(base: map<string, Response>, keys: seq<string>, responses: seq<Response>): (r: map<string, Response>)
    requires |keys| == |responses|
    ensures forall k :: k in r <==> k in base || k in keys
  {
    if keys == [] then base
    else PutAll(base, keys[..|keys| - 1], responses[..|keys| - 1])[keys[|keys| - 1] := responses[|keys| - 1]]
  }

  /** With distinct keys, every key ends up holding its own response, and
      every other entry is left as it was. */
  lemma {:induction false} PutAllStoresEach(base: map<string, Response>, keys: seq<string>, responses: seq<Response>)
    requires |keys| == |responses|
    requires forall i, j :: 0 <= i < j < |keys| ==> keys[i] != keys[j]
    ensures forall i :: 0 <= i < |keys| ==>
              keys[i] in PutAll(base, keys, responses) && PutAll(base, keys, responses)[keys[i]] == responses[i]
    ensures forall k :: k !in keys ==> (k in PutAll(base, keys, responses) <==> k in base)
    ensures forall k :: k !in keys && k in base ==> PutAll(base, keys, responses)[k] == base[k]
  {
    if keys != [] {
      var n := |keys| - 1;
      var init := PutAll(base, keys[..n], responses[..n]);
      var all := PutAll(base, keys, responses);
      PutAllStoresEach(base, keys[..n], responses[..n]);
      assert all == init[keys[n] := responses[n]];
      forall i | 0 <= i < |keys|
        ensures keys[i] in all && all[keys[i]] == responses[i]
      {
        if i < n {
          assert keys[..n][i] == keys[i] && responses[..n][i] == responses[i];
        }
      }
      forall k | k !in keys
        ensures (k in all <==> k in base) && (k in base ==> all[k] == base[k])
      {
        assert k !in keys[..n];
      }
    }
  }

  /** After a clean install into a new cache and activation, the offline
      page is not in the storage, so the HTML fallback of cacheFirst misses
      and a 503 is served. */
  lemma FallbackMissesAfterCleanInstall(origin: string, responses: seq<Response>)
    requires |responses| == |ASSETS|
    ensures MatchIn([CACHE_NAME], map[CACHE_NAME := PutAll(map[], AssetKeys(origin), responses)], origin + OFFLINE_PAGE)
            == None
  {
    AssetKeysDistinct(origin);
    PutAllStoresEach(map[], AssetKeys(origin), responses);
  }

  /** `request.headers.get('accept')?.includes('text/html')`. */
  function AcceptsHtml(req: Request): (html: bool)
    ensures html <==> req.accept.Some? && exists i: nat :: OccursAt(req.accept.value, "text/html", i)
  {
    match req.accept
    case None => false
    case Some(accept) =>
      ContainsIffOccurs(accept, "text/html");
      Contains(accept, "text/html")
  }

  /** What `cacheFirst` does to a storage (`names0`, `caches0`), leaving
      (`names1`, `caches1`) and answering `resp`. A cached response is
      answered with no change. On a miss the network's response is answered;
      an `ok` one makes the worker open the current cache, and is stored
      there unless the Cache API refuses it. When the network fails nothing
      changes, and an HTML-accepting request gets the cached offline page if
      there is one, everything else a 503. */
  ghost predicate CacheFirstEffect(origin: string, names0: seq<string>, caches0: map<string, map<string, Response>>,
                                   req: Request, net: NetResult, resp: Response,
                                   names1: seq<string>, caches1: map<string, map<string, Response>>)
  {
    var key := req.url.href;
    var hit := MatchIn(names0, caches0, key);
    var fallback := MatchIn(names0, caches0, origin + OFFLINE_PAGE);
    && (hit.Some? ==> resp == hit.value && names1 == names0 && caches1 == caches0)
    && (hit.None? && net.Fetched? ==>
          && resp == net.response
          && (resp.Ok() ==> names1 == OpenedNames(names0, caches0))
          && (resp.Storable() ==> caches1 == Opened(caches0)[CACHE_NAME := Opened(caches0)[CACHE_NAME][key := resp]])
          && (resp.Ok() && !resp.Storable() ==> caches1 == Opened(caches0))
          && (!resp.Ok() ==> names1 == names0 && caches1 == caches0))
    && (hit.None? && net.NetworkError? ==>
          && names1 == names0 && caches1 == caches0
          && resp == (if AcceptsHtml(req) && fallback.Some? then fallback.value else ASSET_OFFLINE))
  }

  /** A response stored on a miss is what the next lookup of its URL finds. */
  lemma StoredMissHitsNext(origin: string, names0: seq<string>, caches0: map<string, map<string, Response>>,
                           req: Request, net: NetResult, resp: Response,
                           names1: seq<string>, caches1: map<string, map<string, Response>>)
    requires Consistent(names0, caches0)
    requires CacheFirstEffect(origin, names0, caches0, req, net, resp, names1, caches1)
    requires MatchIn(names0, caches0, req.url.href).None? && net.Fetched? && net.response.Storable()
    ensures MatchIn(names1, caches1, req.url.href) == Some(resp)
  {
    var key := req.url.href;
    assert Consistent(names1, caches1);
    assert CACHE_NAME in names1;
    forall n | n != CACHE_NAME && n in caches1
      ensures key !in caches1[n]
    {
      assert n in caches0 && caches1[n] == caches0[n];
      var j :| 0 <= j < |names0| && names0[j] == n;
      assert !Holds(caches0, names0[j], key);
    }
  }

  /** The worker with its origin and the origin's cache storage. */
  class Worker {
    const origin: string
    /** The cache names in creation order, as `caches.keys()` lists them. */
    var names: seq<string>
    var caches: map<string, map<string, Response>>

    ghost predicate Valid()
      reads this
    {
      Consistent(names, caches)
    }

    constructor (origin: string, names: seq<string>, caches: map<string, map<string, Response>>)
      requires Consistent(names, caches)
      ensures Valid()
      ensures this.origin == origin && this.names == names && this.caches == caches
    {
      this.origin := origin;
      this.names := names;
      this.caches := caches;
    }

    /** `caches.match(key)` on the current storage. */
    function Match(key: string): Option<Response>
      reads this
    {
      MatchIn(names, caches, key)
    }

    /** `caches.open(CACHE_NAME)`: creates the current cache if it is missing. */
    method OpenCurrent()
      requires Valid()
      modifies this
      ensures Valid()
      ensures caches == Opened(old(caches))
      ensures names == OpenedNames(old(names), old(caches))
    {
      if CACHE_NAME !in caches {
        names := names + [CACHE_NAME];
        caches := caches[CACHE_NAME := map[]];
      }
    }

    /** `caches.delete(name)`. */
    method Delete(name: string)
      requires Valid()
      modifies this
      ensures Valid()
      ensures caches == old(caches) - {name}
      ensures names == RemoveName(old(names), name)
    {
      names := RemoveName(names, name);
      caches := caches - {name};
    }

    /** The install handler: opens the current cache, then `cache.addAll(ASSETS)`:
        the entries are stored only if every asset was fetched with a response
        `addAll` accepts, and then all of them are. `fetched[i]` is what the
        network gives for `ASSETS[i]`. */
    method Install(fetched: seq<NetResult>) returns (installed: bool)
      requires Valid() && |fetched| == |ASSETS|
      modifies this
      ensures Valid()
      ensures installed <==> AllStorable(fetched)
      ensures names == OpenedNames(old(names), old(caches))
      ensures !installed ==> caches == Opened(old(caches))
      ensures installed ==>
        caches == Opened(old(caches))[CACHE_NAME := PutAll(Opened(old(caches))[CACHE_NAME], AssetKeys(origin), Responses(fetched))]
      ensures installed ==> forall i :: 0 <= i < |ASSETS| ==>
        origin + ASSETS[i] in caches[CACHE_NAME] && caches[CACHE_NAME][origin + ASSETS[i]] == fetched[i].response
      ensures installed ==> forall k :: k !in AssetKeys(origin) && k in Opened(old(caches))[CACHE_NAME] ==>
        k in caches[CACHE_NAME] && caches[CACHE_NAME][k] == Opened(old(caches))[CACHE_NAME][k]
    {
      OpenCurrent();
      installed := AllStorable(fetched);
      if installed {
        var keys := AssetKeys(origin);
        var base := caches[CACHE_NAME];
        AssetKeysDistinct(origin);
        PutAllStoresEach(base, keys, Responses(fetched));
        caches := caches[CACHE_NAME := PutAll(base, keys, Responses(fetched))];
      }
    }

    /** The activate handler: every cache except the current one is deleted. */
    method Activate()
      requires Valid()
      modifies this
      ensures Valid()
      ensures caches == Retained(old(caches))
      ensures names == if CACHE_NAME in old(caches) then [CACHE_NAME] else []
    {
      var keys := names;
      for i := 0 to |keys|
        invariant Valid()
        invariant forall n :: n in caches <==> n in old(caches) && (n == CACHE_NAME || n in keys[i..])
        invariant forall n :: n in caches ==> caches[n] == old(caches)[n]
      {
        if keys[i] != CACHE_NAME {
          Delete(keys[i]);
        }
        assert forall n :: n in keys[i + 1..] ==> n in keys[i..];
        assert forall n :: n in keys[i..] ==> n == keys[i] || n in keys[i + 1..];
      }
      DistinctOfOne(names, CACHE_NAME);
    }

    /** `cacheFirst`. `usedNetwork` tells whether the network was asked. */
    method CacheFirst(req: Request, net: NetResult) returns (resp: Response, usedNetwork: bool)
      requires Valid()
      modifies this
      ensures Valid()
      ensures CacheFirstEffect(origin, old(names), old(caches), req, net, resp, names, caches)
      ensures usedNetwork <==> MatchIn(old(names), old(caches), req.url.href).None?
    {
      var cached := Match(req.url.href);
      if cached.Some? {
        return cached.value, false;
      }
      usedNetwork := true;
      match net {
        case Fetched(networkResponse) =>
          if networkResponse.Ok() {
            OpenCurrent();
            if networkResponse.Storable() {
              caches := caches[CACHE_NAME := caches[CACHE_NAME][req.url.href := networkResponse]];
            }
          }
          resp := networkResponse;
        case NetworkError =>
          if AcceptsHtml(req) {
            var fallback := Match(origin + OFFLINE_PAGE);
            if fallback.Some? {
              return fallback.value, true;
            }
          }
          resp := ASSET_OFFLINE;
      }
    }

    /** The fetch listener: `None` when the request is left to the browser. */
    method HandleFetch(req: Request, net: NetResult) returns (handled: Option<Response>)
      requires Valid()
      modifies this
      ensures Valid()
      ensures RouteOf(req) == NotIntercepted ==> handled.None? && names == old(names) && caches == old(caches)
      ensures RouteOf(req) == NetworkOnlyRoute ==>
        handled == Some(NetworkOnly(net)) && names == old(names) && caches == old(caches)
      ensures RouteOf(req) == CacheFirstRoute ==>
        handled.Some? && CacheFirstEffect(origin, old(names), old(caches), req, net, handled.value, names, caches)
    {
      match RouteOf(req) {
        case NotIntercepted =>
          handled := None;
        case NetworkOnlyRoute =>
          handled := Some(NetworkOnly(net));
        case CacheFirstRoute =>
          var resp, _ := CacheFirst(req, net);
          handled := Some(resp);
      }
    }
  }
}
