/**
 * The offline cache policy both service workers share (public/service-worker.js
 * and public/sw.js): on activation every cache not named in a keep-list is
 * deleted, and a request is answered from the caches first, falling back to
 * the network, whose response is stored only when it has status 200 and type
 * "basic".
 *
 * The Cache Storage is a sequence of named caches in creation order; each maps
 * a request URL to a stored response.
 */
module OfflineCache {
  import opened Wrappers
  import opened Seqs

  /** The name of the current cache. */
  const CACHE_NAME: string := "elite-estate-v1"

  /** A request: its URL and its HTTP method. */
  datatype Request = Request(url: string, verb: string)

  /** A response: its status, its `type` ("basic", "cors", "opaque", ...) and its body. */
  datatype Response = Response(status: int, kind: string, body: string)

  datatype NamedCache = NamedCache(name: string, entries: map<string, Response>)

  /** What a fetch event ends with: the answer (`None`: a network error) and the caches after it. */
  datatype Served = Served(answer: Option<Response>, caches: seq<NamedCache>, networkUsed: bool)

  function Names(cs: seq<NamedCache>): seq<string>
  {
    Map(cs, (c: NamedCache) => c.name)
  }

  /** The response stored for a URL in the first cache, in creation order, that has one. */
  function FirstHit(cs: seq<NamedCache>, url: string): Option<Response>
  {
    if cs == [] then None
    else if url in cs[0].entries then Some(cs[0].entries[url])
    else FirstHit(cs[1..], url)
  }

  /** `caches.match(request)`: only GET requests are ever matched. */
  function MatchIn(cs: seq<NamedCache>, req: Request): Option<Response>
  {
    if req.verb != "GET" then None else FirstHit(cs, req.url)
  }

  /**
   * `caches.open(name)` then `cache.put(url, response)`: the first cache of that
   * name gets the entry, or a new cache of that name is created at the end.
   */
  function PutIn(cs: seq<NamedCache>, name: string, url: string, resp: Response): seq<NamedCache>
  {
    if cs == [] then [NamedCache(name, map[url := resp])]
    else if cs[0].name == name then [cs[0].(entries := cs[0].entries[url := resp])] + cs[1..]
    else [cs[0]] + PutIn(cs[1..], name, url, resp)
  }

  /** Whether a network response is stored: it exists, has status 200 and is same-origin ("basic"). */
  predicate Cacheable(network: Option<Response>)
  {
    network.Some? && network.value.status == 200 && network.value.kind == "basic"
  }

  /**
   * The fetch handler. A hit is answered from the cache and the network is not
   * used. On a miss the network answers, and a cacheable response to a GET
   * request is also stored in the current cache (`cache.put` rejects any other
   * method, so nothing is stored for one).
   */
  function CacheFirst(cs: seq<NamedCache>, req: Request, network: Option<Response>): Served
  {
    match MatchIn(cs, req)
    case Some(hit) => Served(Some(hit), cs, false)
    case None =>
      if Cacheable(network) && req.verb == "GET" then
        Served(network, PutIn(cs, CACHE_NAME, req.url, network.value), true)
      else Served(network, cs, true)
  }

  /** The caches that survive activation: those whose name is in the keep-list. */
  function Purged(cs: seq<NamedCache>, keep: seq<string>): seq<NamedCache>
  {
    Filter(cs, KeptBy(keep))
  }

  function KeptBy(keep: seq<string>): NamedCache -> bool
  {
    (c: NamedCache) => c.name in keep
  }

  /** `caches.delete(name)`. */
  function WithoutCache(cs: seq<NamedCache>, name: string): seq<NamedCache>
  {
    Filter(cs, NotNamed(name))
  }

  function NotNamed(name: string): NamedCache -> bool
  {
    (c: NamedCache) => c.name != name
  }

  // ---------------------------------------------------------------- lemmas

  /**
   * Storing a response for a URL no cache has makes it the answer for that
   * URL, and leaves the answer for every other URL as it was.
   */
  lemma {:induction false} PutThenHit(cs: seq<NamedCache>, name: string, url: string, resp: Response)
    requires FirstHit(cs, url) == None
    ensures FirstHit(PutIn(cs, name, url, resp), url) == Some(resp)
    ensures forall u :: u != url ==> FirstHit(PutIn(cs, name, url, resp), u) == FirstHit(cs, u)
  {
    if cs != [] && cs[0].name != name {
      PutThenHit(cs[1..], name, url, resp);
      var r := PutIn(cs, name, url, resp);
      assert r[0] == cs[0] && r[1..] == PutIn(cs[1..], name, url, resp);
    } else if cs != [] {
      var r := PutIn(cs, name, url, resp);
      assert r[1..] == cs[1..];
    }
  }

  /**
   * The fetch policy over all inputs: a hit is the answer whatever the network
   * would say, and nothing changes; on a miss the page gets the network's
   * response itself; the caches change only by storing a cacheable response to
   * a GET request under the current cache name.
   */
  lemma CacheFirstSpec(cs: seq<NamedCache>, req: Request, network: Option<Response>, other: Option<Response>)
    ensures MatchIn(cs, req).Some? ==>
      CacheFirst(cs, req, network) == CacheFirst(cs, req, other) == Served(MatchIn(cs, req), cs, false)
    ensures MatchIn(cs, req).None? ==> CacheFirst(cs, req, network).answer == network
    ensures CacheFirst(cs, req, network).caches != cs ==>
      && MatchIn(cs, req).None? && req.verb == "GET" && Cacheable(network)
      && CacheFirst(cs, req, network).caches == PutIn(cs, CACHE_NAME, req.url, network.value)
  {
  }

  /** A stored response answers the next request for the same URL, with no network. */
  lemma CachedResponseServedNext(cs: seq<NamedCache>, req: Request, network: Option<Response>, later: Option<Response>)
    requires MatchIn(cs, req).None? && req.verb == "GET" && Cacheable(network)
    ensures var after := CacheFirst(cs, req, network).caches;
      && CacheFirst(after, req, later) == Served(network, after, false)
      && forall r: Request :: r.url != req.url ==> MatchIn(after, r) == MatchIn(cs, r)
  {
    PutThenHit(cs, CACHE_NAME, req.url, network.value);
  }

  /** Activation keeps exactly the caches named in the keep-list, in their order and with their contents. */
  lemma PurgedSpec(cs: seq<NamedCache>, keep: seq<string>)
    ensures IsSubsequence(Purged(cs, keep), cs)
    ensures forall c: NamedCache :: c in Purged(cs, keep) <==> c in cs && c.name in keep
  {
    FilterIsSubsequence(cs, KeptBy(keep));
    forall c ensures c in Purged(cs, keep) <==> c in cs && c.name in keep {
      FilterMembership(cs, KeptBy(keep), c);
    }
  }

  /**
   * Keeping the names of the one-element list `[CACHE_NAME]` (service-worker.js)
   * is the same as deleting every name other than `CACHE_NAME` (sw.js).
   */
  lemma SingleKeepListIsNameTest(cs: seq<NamedCache>)
    ensures Purged(cs, [CACHE_NAME]) == Filter(cs, (c: NamedCache) => c.name == CACHE_NAME)
  {
    FilterCongruent(cs, KeptBy([CACHE_NAME]), (c: NamedCache) => c.name == CACHE_NAME);
  }

  /** Whether a cache survives once the names in `seen` have been visited. */
  function Survives(keep: seq<string>, seen: seq<string>): NamedCache -> bool
  {
    (c: NamedCache) => c.name in keep || c.name !in seen
  }

  /** Visiting one more name deletes exactly the caches of that name when it is not kept. */
  lemma SurvivesStep(cs: seq<NamedCache>, keep: seq<string>, names: seq<string>, i: int)
    requires 0 <= i < |names|
    ensures names[i] !in keep ==>
      WithoutCache(Filter(cs, Survives(keep, names[..i])), names[i]) == Filter(cs, Survives(keep, names[..i + 1]))
    ensures names[i] in keep ==>
      Filter(cs, Survives(keep, names[..i])) == Filter(cs, Survives(keep, names[..i + 1]))
  {
    var n := names[i];
    assert names[..i + 1] == names[..i] + [n];
    if n !in keep {
      FilterFilter(cs, Survives(keep, names[..i]), NotNamed(n), Survives(keep, names[..i + 1]));
    } else {
      assert forall k :: 0 <= k < |cs| ==>
        Survives(keep, names[..i])(cs[k]) == Survives(keep, names[..i + 1])(cs[k]);
      FilterCongruent(cs, Survives(keep, names[..i]), Survives(keep, names[..i + 1]));
    }
  }

  // ---------------------------------------------------------------- the store

  /** The worker's Cache Storage. */
  class CacheStorage {
    var caches: seq<NamedCache>

    constructor ()
      ensures caches == []
    {
      caches := [];
    }

    function Match(req: Request): Option<Response>
      reads this
    {
      MatchIn(caches, req)
    }

    /** The `activate` handler: every cache whose name is not kept is deleted, one name at a time. */
    method Activate(keep: seq<string>)
      modifies this
      ensures caches == Purged(old(caches), keep)
    {
      ghost var orig := caches;
      var names := Names(caches);
      var i := 0;
      FilterAll(orig, Survives(keep, names[..0]));
      while i < |names|
        invariant 0 <= i <= |names|
        invariant caches == Filter(orig, Survives(keep, names[..i]))
      {
        SurvivesStep(orig, keep, names, i);
        if names[i] !in keep {
          caches := WithoutCache(caches, names[i]);
        }
        i := i + 1;
      }
      assert names[..i] == names;
      assert forall k :: 0 <= k < |orig| ==> orig[k].name == names[k];
      FilterCongruent(orig, Survives(keep, names), KeptBy(keep));
    }

    /** The `fetch` handler, with `network` standing for what `fetch(request)` resolves to. */
    method Respond(req: Request, network: Option<Response>) returns (answer: Option<Response>)
      modifies this
      ensures var s := CacheFirst(old(caches), req, network);
        answer == s.answer && caches == s.caches
    {
      var hit := MatchIn(caches, req);
      if hit.Some? {
        return hit;
      }
      if network.None? {
        return None;
      }
      var response := network.value;
      if response.status != 200 || response.kind != "basic" {
        return network;
      }
      if req.verb == "GET" {
        caches := PutIn(caches, CACHE_NAME, req.url, response);
      }
      return network;
    }
  }
}
