/**
 * The dashboard's service worker: on install it stores the static pages
 * in the current cache, on activate it deletes every other cache, and on
 * fetch it leaves non-GET requests alone, answers `/api/` requests from
 * the network first (falling back to the cache, then to a 503 of section
 * 15.6.4 of RFC 9110), and everything else from the cache first. Only
 * responses with an ok status are stored, and of those the Cache
 * interface of the W3C Service Workers specification refuses a 206
 * partial response. An install whose `addAll` rejects fails, and the
 * worker is then discarded without ever activating or handling a fetch.
 *
 * The network is an input: `None` is a `fetch` that rejects. The cache
 * storage is a map from cache name to the cache's entries.
 */
module ServiceWorker {
  import opened Js

  const CacheName := "destination-manager-v1"
  const StaticAssets := ["/dashboard", "/dashboard/stock", "/dashboard/reports", "/manifest.json"]

  /** A request as the worker sees it: its method, the URL's path and its query. */
  datatype Request = Request(verb: string, path: string, search: string)

  datatype Response = Response(status: int, contentType: string, body: string)

  /** `response.ok`: a status in 200..299. */
  predicate IsOk(r: Response)
  {
    200 <= r.status <= 299
  }

  /** A response `cache.put` and `cache.addAll` accept: ok, and not a 206 partial response. */
  predicate Cacheable(r: Response)
  {
    IsOk(r) && r.status != 206
  }

  /** What the page is answered with, if the worker answers. */
  datatype Outcome =
    | NotHandled            // `respondWith` was not called: the browser fetches as usual
    | Respond(response: Response)
    | NetworkError          // the promise given to `respondWith` rejected

  /** `new Response(JSON.stringify({ error: 'Offline' }), { status: 503, ... })`. */
  const OfflineResponse := Response(503, "application/json", "{\"error\":\"Offline\"}")

  type Cache = map<Request, Response>
  type Storage = map<string, Cache>

  /** The entries of the current cache; `caches.open` creates it empty. */
  function Current(storage: Storage): Cache
  {
    if CacheName in storage then storage[CacheName] else map[]
  }

  /** Every stored response in the current cache is one the Cache interface accepts. */
  predicate OnlyCacheable(storage: Storage)
  {
    forall req :: req in Current(storage) ==> Cacheable(Current(storage)[req])
  }

  // ---------------------------------------------------------------- install

  function AssetRequest(path: string): Request
  {
    Request("GET", path, "")
  }

  /**
   * `cache.addAll(paths)`: every path is fetched; if any fetch fails or
   * answers a non-ok status or a 206, nothing is stored, else all are.
   */
  function AddAll(paths: seq<string>, network: Request -> Option<Response>): (r: Option<Cache>)
    ensures r.Some? <==> forall i :: 0 <= i < |paths| ==>
      network(AssetRequest(paths[i])).Some? && Cacheable(network(AssetRequest(paths[i])).value)
    ensures r.Some? ==> r.value.Keys == set i | 0 <= i < |paths| :: AssetRequest(paths[i])
    ensures r.Some? ==> forall req :: req in r.value ==> network(req) == Some(r.value[req]) && Cacheable(r.value[req])
  {
    if paths == [] then Some(map[])
    else
      var first := network(AssetRequest(paths[0]));
      var rest := AddAll(paths[1..], network);
      if first.Some? && Cacheable(first.value) && rest.Some? then
        assert forall i :: 1 <= i < |paths| ==> paths[i] == paths[1..][i - 1];
        Some(rest.value[AssetRequest(paths[0]) := first.value])
      else
        assert first.None? || !Cacheable(first.value) ==> !(network(AssetRequest(paths[0])).Some? && Cacheable(network(AssetRequest(paths[0])).value));
        assert rest.None? ==> exists i :: 1 <= i < |paths| && !(network(AssetRequest(paths[i])).Some? && Cacheable(network(AssetRequest(paths[i])).value)) by {
          if rest.None? {
            var j :| 0 <= j < |paths[1..]| && !(network(AssetRequest(paths[1..][j])).Some? && Cacheable(network(AssetRequest(paths[1..][j])).value));
            assert paths[1..][j] == paths[j + 1];
          }
        }
        None
  }

  /** The storage after the install handler: the cache is opened, then filled if `addAll` succeeds. */
  function AfterInstall(storage: Storage, network: Request -> Option<Response>): (r: Storage)
    ensures CacheName in r && Current(storage).Keys <= Current(r).Keys
  {
    var entries := AddAll(StaticAssets, network);
    storage[CacheName := if entries.Some? then Current(storage) + entries.value else Current(storage)]
  }

  /** Where the worker is in its life: only an installed worker activates, only an active one handles fetches. */
  datatype Phase = Parsed | Installed | Activated | Redundant

  /**
   * The outcome of the install handler: `event.waitUntil` is given the
   * `addAll` promise, so the install succeeds exactly when `addAll` does;
   * otherwise the worker becomes redundant.
   */
  function InstallPhase(network: Request -> Option<Response>): (p: Phase)
    ensures p == Installed || p == Redundant
    ensures p == Installed <==> forall i :: 0 <= i < |StaticAssets| ==>
      network(AssetRequest(StaticAssets[i])).Some? && Cacheable(network(AssetRequest(StaticAssets[i])).value)
  {
    if AddAll(StaticAssets, network).Some? then Installed else Redundant
  }

  /**
   * An install that succeeds has stored every static page in the current
   * cache; one that fails (some page not fetched, not ok, or a 206) has
   * stored nothing; either way no other cache changes, and only
   * cacheable responses enter.
   */
  lemma InstallStoresAssets(storage: Storage, network: Request -> Option<Response>)
    requires OnlyCacheable(storage)
    ensures var after := AfterInstall(storage, network);
      && OnlyCacheable(after)
      && after.Keys == storage.Keys + {CacheName}
      && (forall n :: n in storage && n != CacheName ==> after[n] == storage[n])
      && (InstallPhase(network) == Installed ==>
            forall i :: 0 <= i < |StaticAssets| ==> AssetRequest(StaticAssets[i]) in Current(after))
      && (InstallPhase(network) == Redundant ==> Current(after) == Current(storage))
  {
    var entries := AddAll(StaticAssets, network);
    StoreEntries(storage, entries);
    if entries.Some? {
      forall i | 0 <= i < |StaticAssets|
        ensures AssetRequest(StaticAssets[i]) in entries.value
      {
        assert AssetRequest(StaticAssets[i]) in entries.value.Keys;
      }
    }
  }

  /** Opening the current cache and adding ok entries to it keeps the ok-only invariant and touches no other cache. */
  lemma StoreEntries(storage: Storage, entries: Option<Cache>)
    requires OnlyCacheable(storage)
    requires entries.Some? ==> forall req :: req in entries.value ==> Cacheable(entries.value[req])
    ensures var after := storage[CacheName := if entries.Some? then Current(storage) + entries.value else Current(storage)];
      && OnlyCacheable(after)
      && after.Keys == storage.Keys + {CacheName}
      && (forall n :: n in storage && n != CacheName ==> after[n] == storage[n])
      && (entries.Some? ==> entries.value.Keys <= Current(after).Keys)
      && (entries.None? ==> Current(after) == Current(storage))
  {
    var cache := if entries.Some? then Current(storage) + entries.value else Current(storage);
    var after := storage[CacheName := cache];
    assert Current(after) == cache;
    forall req | req in cache
      ensures Cacheable(cache[req])
    {
      if entries.Some? && req in entries.value {
        assert cache[req] == entries.value[req];
      } else {
        assert cache[req] == Current(storage)[req];
      }
    }
  }

  // ---------------------------------------------------------------- activate

  /** The storage after the activate handler: only the current cache is left. */
  function AfterActivate(storage: Storage): (r: Storage)
    ensures r.Keys <= {CacheName}
    ensures Current(r) == Current(storage)
  {
    if CacheName in storage then map[CacheName := storage[CacheName]] else map[]
  }

  /** Activation keeps the current cache, deletes every other one, and a second activation changes nothing. */
  lemma ActivateKeepsCurrent(storage: Storage)
    ensures forall n :: n in AfterActivate(storage) <==> n in storage && n == CacheName
    ensures AfterActivate(AfterActivate(storage)) == AfterActivate(storage)
    ensures OnlyCacheable(storage) ==> OnlyCacheable(AfterActivate(storage))
  {
  }

  // ---------------------------------------------------------------- fetch

  datatype Strategy = Bypass | NetworkFirst | CacheFirst

  /** The strategy for a request: non-GET is left alone, `/api/` paths go to the network first. */
  function StrategyOf(req: Request): (st: Strategy)
    ensures st == Bypass <==> req.verb != "GET"
    ensures st == NetworkFirst ==> |req.path| >= 5 && req.path[..5] == "/api/"
  {
    if req.verb != "GET" then Bypass
    else if StartsWith(req.path, "/api/") then NetworkFirst
    else CacheFirst
  }

  /**
   * `cache.put(request, response)` on the opened current cache. A 206
   * response is refused: the put rejects, nothing is stored, and as the
   * handler does not wait for the put, the page is answered all the same.
   */
  function Put(storage: Storage, req: Request, response: Response): (r: Storage)
    ensures response.status == 206 ==> r == storage
  {
    if response.status == 206 then storage else storage[CacheName := Current(storage)[req := response]]
  }

  /** The handler's `if (response.ok)` before the put: only ok responses are offered to the cache. */
  function Store(storage: Storage, req: Request, response: Response): (r: Storage)
    ensures OnlyCacheable(storage) ==> OnlyCacheable(r)
    ensures forall n :: n in storage && n != CacheName ==> n in r && r[n] == storage[n]
    ensures r != storage ==> Cacheable(response) && Current(r) == Current(storage)[req := response]
  {
    if IsOk(response) then Put(storage, req, response) else storage
  }

  /**
   * The fetch handler: the answer, whether the network was contacted,
   * and the storage afterwards. `network` is what `fetch(request)` gives
   * when it is called.
   */
  function HandleFetch(storage: Storage, req: Request, network: Option<Response>): (r: (Outcome, bool, Storage))
    ensures r.0 == NotHandled <==> req.verb != "GET"
    ensures r.0.Respond? && !r.1 ==> req in Current(storage) && r.0.response == Current(storage)[req]
    ensures r.0 == NetworkError ==> network.None?
  {
    match StrategyOf(req)
    case Bypass => (NotHandled, false, storage)
    case NetworkFirst =>
      if network.Some? then (Respond(network.value), true, Store(storage, req, network.value))
      else if req in Current(storage) then (Respond(Current(storage)[req]), true, storage)
      else (Respond(OfflineResponse), true, storage)
    case CacheFirst =>
      if req in Current(storage) then (Respond(Current(storage)[req]), false, storage)
      else if network.Some? then (Respond(network.value), true, Store(storage, req, network.value))
      else (NetworkError, true, storage)
  }

  /** Non-GET requests are not intercepted: no answer, no network use, no cache change. */
  lemma NonGetNotIntercepted(storage: Storage, req: Request, network: Option<Response>)
    requires req.verb != "GET"
    ensures HandleFetch(storage, req, network) == (NotHandled, false, storage)
  {
  }

  /**
   * An `/api/` GET answers with whatever the network returns, ok or not,
   * and stores it exactly when it is ok and not a 206.
   */
  lemma ApiNetworkFirst(storage: Storage, req: Request, response: Response)
    requires req.verb == "GET" && StartsWith(req.path, "/api/")
    ensures var (out, contacted, after) := HandleFetch(storage, req, Some(response));
      && out == Respond(response) && contacted
      && (Cacheable(response) ==> Current(after) == Current(storage)[req := response])
      && (!Cacheable(response) ==> after == storage)
      && (response.status == 206 ==> after == storage)
  {
  }

  /**
   * Offline, an `/api/` GET answers from the cache if it holds the request,
   * else with a 503 whose JSON body is `{"error":"Offline"}`.
   */
  lemma ApiOfflineFallback(storage: Storage, req: Request)
    requires req.verb == "GET" && StartsWith(req.path, "/api/")
    ensures var (out, _, after) := HandleFetch(storage, req, None);
      && after == storage
      && out == Respond(if req in Current(storage) then Current(storage)[req] else OfflineResponse)
      && (req !in Current(storage) ==> out.response.status == 503 && out.response.body == "{\"error\":\"Offline\"}")
  {
  }

  /** Any other GET held in the cache is answered from it without contacting the network. */
  lemma CacheFirstHit(storage: Storage, req: Request, network: Option<Response>)
    requires StrategyOf(req) == CacheFirst && req in Current(storage)
    ensures HandleFetch(storage, req, network) == (Respond(Current(storage)[req]), false, storage)
  {
  }

  /**
   * On a miss it fetches: an ok response other than a 206 is returned and
   * stored, any other one is returned and never stored, and a failed
   * fetch fails the request.
   */
  lemma CacheFirstMiss(storage: Storage, req: Request, network: Option<Response>)
    requires StrategyOf(req) == CacheFirst && req !in Current(storage)
    ensures var (out, contacted, after) := HandleFetch(storage, req, network);
      && contacted
      && (network.None? ==> out == NetworkError && after == storage)
      && (network.Some? ==> out == Respond(network.value))
      && (network.Some? && !Cacheable(network.value) ==> after == storage)
      && (network.Some? && network.value.status == 206 ==> after == storage)
      && (network.Some? && Cacheable(network.value) ==> req in Current(after) && Current(after)[req] == network.value)
  {
  }

  /** No fetch ever puts a non-ok or 206 response in the current cache, and other caches are never touched. */
  lemma FetchKeepsOnlyOk(storage: Storage, req: Request, network: Option<Response>)
    requires OnlyCacheable(storage)
    ensures var after := HandleFetch(storage, req, network).2;
      && OnlyCacheable(after)
      && forall n :: n in storage && n != CacheName ==> n in after && after[n] == storage[n]
  {
  }

  // ---------------------------------------------------------------- the worker

  /** A newly registered worker and its view of the origin's cache storage. */
  class Worker {
    var storage: Storage
    var phase: Phase

    constructor (storage: Storage)
      ensures this.storage == storage && phase == Parsed
    {
      this.storage := storage;
      phase := Parsed;
    }

    /**
     * The install handler. The cache is opened in either case; when
     * `addAll` rejects, installation fails and the worker is redundant.
     */
    method Install(network: Request -> Option<Response>)
      requires phase == Parsed
      modifies this
      ensures storage == AfterInstall(old(storage), network)
      ensures phase == InstallPhase(network)
    {
      var entries := AddAll(StaticAssets, network);
      var cache := Current(storage);
      if entries.Some? {
        cache := cache + entries.value;
        phase := Installed;
      } else {
        phase := Redundant;
      }
      storage := storage[CacheName := cache];
    }

    /**
     * The activate handler, which runs only after a successful install
     * (`skipWaiting` lets it run at once): every cache whose name is not
     * the current one is deleted.
     */
    method Activate()
      requires phase == Installed
      modifies this
      ensures storage == AfterActivate(old(storage))
      ensures phase == Activated
    {
      var names := storage.Keys;
      while names != {}
        invariant names <= storage.Keys
        invariant forall n :: n in storage ==> n in old(storage) && storage[n] == old(storage)[n]
        invariant forall n :: n in old(storage) && (n in names || n == CacheName) ==> n in storage
        invariant forall n :: n in storage && n !in names ==> n == CacheName
        decreases names
      {
        var n :| n in names;
        if n != CacheName {
          storage := storage - {n};
        }
        names := names - {n};
      }
      assert storage.Keys == AfterActivate(old(storage)).Keys;
      phase := Activated;
    }

    /** The fetch handler of the active worker, with `network` standing for the result of `fetch(request)`. */
    method OnFetch(req: Request, network: Option<Response>) returns (out: Outcome, contacted: bool)
      requires phase == Activated
      modifies this
      ensures (out, contacted, storage) == HandleFetch(old(storage), req, network)
      ensures phase == Activated
    {
      var strategy := StrategyOf(req);
      if strategy == Bypass {
        return NotHandled, false;
      }
      var cache := Current(storage);
      if strategy == NetworkFirst {
        contacted := true;
        if network.Some? {
          out := Respond(network.value);
          if IsOk(network.value) && network.value.status != 206 {
            storage := storage[CacheName := cache[req := network.value]];
          }
        } else if req in cache {
          out := Respond(cache[req]);
        } else {
          out := Respond(OfflineResponse);
        }
        return;
      }
      if req in cache {
        return Respond(cache[req]), false;
      }
      contacted := true;
      if network.Some? {
        out := Respond(network.value);
        if IsOk(network.value) && network.value.status != 206 {
          storage := storage[CacheName := cache[req := network.value]];
        }
      } else {
        out := NetworkError;
      }
    }
  }
}
