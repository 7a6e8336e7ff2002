/**
 * The offline shell cache of service-worker.js: named cache generations, each
 * a table of responses keyed by request. `install` fills the current
 * generation with the app shell, `activate` deletes every other generation,
 * and `fetch` goes to the network first, writing each response through to the
 * current generation and falling back to any cached copy when offline.
 */
module ServiceWorker {
  import opened Wrappers

  /** A request, identified by its URL as the worker names it. */
  type Request = string

  /** A response as the network produced it; any HTTP status counts as a response. */
  datatype Response = Response(status: int, body: string)

  /** One generation: the cached response for each request. */
  type Entries = map<Request, Response>

  /** All of cache storage: each generation by name. */
  type Storage = map<string, Entries>

  /** The generation this version of the worker owns. */
  const CacheName := "draftverify-v2"

  /** The app shell cached at install. */
  const ShellFiles: seq<Request> := ["./", "./index.html", "./style.css", "./app.js"]

  // ---------------------------------------------------------------------------
  // The handlers, as functions of the storage, for a current generation `gen`
  // ---------------------------------------------------------------------------

  /** The entries of `gen`, or none when `caches.open` would create it. */
  function Opened(s: Storage, gen: string): Entries {
    if gen in s then s[gen] else map[]
  }

  /**
   * `install`: the generation `gen` holds a freshly fetched response for every
   * shell file, keeps its other entries, and no other generation changes.
   */
  function Installed(s: Storage, gen: string, fetchShell: Request -> Response): (r: Storage)
    ensures r.Keys == s.Keys + {gen}
    ensures forall f :: f in ShellFiles ==> f in r[gen] && r[gen][f] == fetchShell(f)
    ensures forall k :: k in Opened(s, gen) && k !in ShellFiles ==> k in r[gen] && r[gen][k] == s[gen][k]
    ensures r[gen].Keys == Opened(s, gen).Keys + set f | f in ShellFiles
    ensures forall n :: n in s && n != gen ==> r[n] == s[n]
  {
    s[gen := Opened(s, gen) + map f | f in ShellFiles :: fetchShell(f)]
  }

  /**
   * `activate`: only the generation `gen` may remain, with its entries as
   * they were.
   */
  function Activated(s: Storage, gen: string): (r: Storage)
    ensures r.Keys == s.Keys * {gen}
    ensures gen in s ==> r[gen] == s[gen]
  {
    map n | n in s && n == gen :: s[n]
  }

  /** The write-through of a successful `fetch`: `req` now maps to `resp` in `gen`; every other entry and generation is kept. */
  function Stored(s: Storage, gen: string, req: Request, resp: Response): (r: Storage)
    ensures r.Keys == s.Keys + {gen}
    ensures req in r[gen] && r[gen][req] == resp
    ensures forall k :: k in Opened(s, gen) && k != req ==> k in r[gen] && r[gen][k] == s[gen][k]
    ensures r[gen].Keys == Opened(s, gen).Keys + {req}
    ensures forall n :: n in s && n != gen ==> r[n] == s[n]
  {
    s[gen := Opened(s, gen)[req := resp]]
  }

  /** Some generation holds a response for `req`. */
  predicate Cached(s: Storage, req: Request) {
    exists n :: n in s && req in s[n]
  }

  // ---------------------------------------------------------------------------
  // Properties across handlers
  // ---------------------------------------------------------------------------

  /** Activating twice leaves the same storage as activating once. */
  lemma ActivateIdempotent(s: Storage, gen: string)
    ensures Activated(Activated(s, gen), gen) == Activated(s, gen)
  {
  }

  /** Install followed by activate leaves exactly one generation, the current one, holding at least the shell. */
  lemma InstallThenActivate(s: Storage, gen: string, fetchShell: Request -> Response)
    ensures var r := Activated(Installed(s, gen, fetchShell), gen);
      && r.Keys == {gen}
      && forall f :: f in ShellFiles ==> f in r[gen] && r[gen][f] == fetchShell(f)
  {
  }

  /**
   * A new worker version with its own generation name evicts the old one: after
   * it installs and activates, no request is answered from the old generation.
   */
  lemma UpgradeEvictsPreviousGeneration(s: Storage, previous: string, next: string,
                                        oldShell: Request -> Response, newShell: Request -> Response)
    requires previous != next
    ensures var r := Activated(Installed(Installed(s, previous, oldShell), next, newShell), next);
      && previous !in r
      && r.Keys == {next}
  {
  }

  /** Storing the same response twice is storing it once: concurrent identical writes agree. */
  lemma StoreIdempotent(s: Storage, gen: string, req: Request, resp: Response)
    ensures Stored(Stored(s, gen, req, resp), gen, req, resp) == Stored(s, gen, req, resp)
  {
    var once := Stored(s, gen, req, resp);
    assert Opened(once, gen)[req := resp] == Opened(once, gen);
  }

  /** Once installed and activated, every shell file can be answered from cache when the network is down. */
  lemma ShellAvailableOffline(s: Storage, gen: string, fetchShell: Request -> Response)
    ensures var r := Activated(Installed(s, gen, fetchShell), gen);
      forall f :: f in ShellFiles ==> Cached(r, f)
  {
    var r := Activated(Installed(s, gen, fetchShell), gen);
    forall f | f in ShellFiles ensures Cached(r, f) {
      assert gen in r && f in r[gen];
    }
  }

  /** A response written through stays retrievable after activation of the same generation. */
  lemma StoredSurvivesActivate(s: Storage, gen: string, req: Request, resp: Response)
    ensures var r := Activated(Stored(s, gen, req, resp), gen);
      gen in r && req in r[gen] && r[gen][req] == resp
  {
  }

  // ---------------------------------------------------------------------------
  // Cache storage, updated in place by the worker's handlers
  // ---------------------------------------------------------------------------

  class CacheStorage {
    var caches: Storage

    constructor (initial: Storage)
      ensures caches == initial
    {
      caches := initial;
    }

    /** `caches.match(req)`: a response cached for `req` in some generation, or none when no generation holds it. */
    method Match(req: Request) returns (r: Option<Response>)
      ensures r.None? <==> !Cached(caches, req)
      ensures r.Some? ==> exists n :: n in caches && req in caches[n] && caches[n][req] == r.value
    {
      if n :| n in caches && req in caches[n] {
        r := Some(caches[n][req]);
      } else {
        r := None;
      }
    }

    /** The `install` handler: `caches.open(CACHE_NAME)` then `addAll(SHELL_FILES)`, with the network's answer for each file. */
    method Install(fetchShell: Request -> Response)
      modifies this
      ensures caches == Installed(old(caches), CacheName, fetchShell)
    {
      var cache := if CacheName in caches then caches[CacheName] else map[];
      cache := cache + map f | f in ShellFiles :: fetchShell(f);
      caches := caches[CacheName := cache];
    }

    /** The `activate` handler: every generation whose name is not `CACHE_NAME` is deleted, one by one. */
    method Activate()
      modifies this
      ensures caches == Activated(old(caches), CacheName)
    {
      var stale := caches.Keys - {CacheName};
      while stale != {}
        invariant stale <= caches.Keys
        invariant caches.Keys == (old(caches).Keys * {CacheName}) + stale
        invariant forall n :: n in caches ==> caches[n] == old(caches)[n]
        decreases stale
      {
        var name :| name in stale;
        caches := caches - {name};
        stale := stale - {name};
      }
    }

    /**
     * The `fetch` handler, given the network's outcome (none when `fetch`
     * rejects). A response is returned unchanged and written through to
     * `CACHE_NAME`; without one, storage is left alone and the answer is
     * whatever some generation holds for the request.
     */
    method Fetch(req: Request, network: Option<Response>) returns (r: Option<Response>)
      modifies this
      ensures network.Some? ==> r == network && caches == Stored(old(caches), CacheName, req, network.value)
      ensures network.None? ==> caches == old(caches)
      ensures network.None? ==> (r.None? <==> !Cached(caches, req))
      ensures network.None? && r.Some? ==> exists n :: n in caches && req in caches[n] && caches[n][req] == r.value
    {
      if network.Some? {
        var response := network.value;
        var cache := if CacheName in caches then caches[CacheName] else map[];
        caches := caches[CacheName := cache[req := response]];
        r := Some(response);
      } else {
        r := Match(req);
      }
    }
  }
}
