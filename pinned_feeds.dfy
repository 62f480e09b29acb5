/**
 * The pinned-feed aggregator: resolve each pinned URI to its `FeedSourceInfo`,
 * preferring the query cache, and publish `[Following stub] + results` only
 * when every resolution succeeded.
 *
 * The aggregation runs in two phases, as `fetchFeedInfo` does: a synchronous
 * pass that looks every URI up in the cache and collects either the cached value
 * or a pending fetch (`reqs`), and then the gathering of all of them
 * (`Promise.all`), during which each successful fetch is written to the cache.
 * The fetches are taken one after the other here; the model is sequential.
 */
module PinnedFeeds {
  import opened Wrappers
  import opened FeedSource

  /** A query-cache key. */
  type QueryKey = seq<string>

  /** `feedSourceInfoQueryKey({uri})`: the query name followed by the URI. */
  function FeedSourceInfoQueryKey(uri: string): QueryKey {
    ["getFeedSourceInfo", uri]
  }

  /** The key is the query name followed by the URI. */
  lemma FeedSourceInfoQueryKeyShape(uri: string)
    ensures var key := FeedSourceInfoQueryKey(uri);
      |key| == 2 && key[0] == "getFeedSourceInfo" && key[1] == uri
  {
  }

  /** Distinct URIs never share a cache entry. */
  lemma QueryKeyInjective(a: string, b: string)
    requires FeedSourceInfoQueryKey(a) == FeedSourceInfoQueryKey(b)
    ensures a == b
  {
  }

  /** `FOLLOWING_FEED_STUB`, the synthetic "Following" entry that always comes first. */
  const FollowingFeedStub: FeedSourceInfo := FeedInfo(
    uri := "",
    route := Route("/", "Home", map[]),
    cid := "",
    avatar := Some(""),
    displayName := "Following",
    description := RichText("", []),
    creatorDid := "",
    creatorHandle := "",
    likeCount := Some(0),
    likeUri := Some(""))

  /**
   * The stub is a `feed` entry named "Following" that routes to `/` (route
   * `Home`, no params), with empty identity fields, an empty description, an
   * empty avatar and like URI, and a like count of 0.
   */
  lemma FollowingFeedStubFields()
    ensures var stub := FollowingFeedStub;
      && KindOf(stub) == Feed && stub.displayName == "Following"
      && stub.uri == "" && stub.cid == "" && stub.creatorDid == "" && stub.creatorHandle == ""
      && stub.route == Route("/", "Home", map[])
      && stub.avatar == Some("") && stub.description == RichText("", [])
      && stub.likeCount == Some(0) && stub.likeUri == Some("")
  {
  }

  type Cache = map<QueryKey, FeedSourceInfo>

  // ------------------------------------------------------------ specification

  /** One element of `reqs`: a cached value, or the URI whose fetch is pending. */
  datatype Request = Cached(info: FeedSourceInfo) | Pending(uri: string)

  /** What the first pass collects for one URI. */
  function RequestFor(cache: Cache, uri: string): Request {
    var key := FeedSourceInfoQueryKey(uri);
    if key in cache then Cached(cache[key]) else Pending(uri)
  }

  /** What the first pass collects for all URIs, in order. */
  function Requests(cache: Cache, uris: seq<string>): (reqs: seq<Request>)
    ensures |reqs| == |uris|
    ensures forall i :: 0 <= i < |uris| ==> reqs[i] == RequestFor(cache, uris[i])
  {
    if uris == [] then []
    else Requests(cache, uris[..|uris| - 1]) + [RequestFor(cache, uris[|uris| - 1])]
  }

  /** How one request settles. */
  function Settle(env: Collaborators, agent: Agent, req: Request): Result<FeedSourceInfo> {
    match req
    case Cached(info) => Ok(info)
    case Pending(uri) => Resolve(env, agent, uri)
  }

  /** `Promise.all(reqs)`: every value in order, or nothing when any request fails. */
  function Gather(env: Collaborators, agent: Agent, reqs: seq<Request>): Option<seq<FeedSourceInfo>> {
    if reqs == [] then Some([])
    else
      match (Gather(env, agent, reqs[..|reqs| - 1]), Settle(env, agent, reqs[|reqs| - 1]))
      case (Some(views), Ok(v)) => Some(views + [v])
      case _ => None
  }

  /** The cache after every pending fetch has settled: each success is stored under its key. */
  function Fill(env: Collaborators, agent: Agent, cache: Cache, reqs: seq<Request>): Cache {
    if reqs == [] then cache
    else
      var before := Fill(env, agent, cache, reqs[..|reqs| - 1]);
      match reqs[|reqs| - 1]
      case Cached(_) => before
      case Pending(uri) =>
        match Resolve(env, agent, uri)
        case Ok(v) => before[FeedSourceInfoQueryKey(uri) := v]
        case Err(_) => before
  }

  /** The URIs whose fetch is issued, in order. */
  function PendingUris(reqs: seq<Request>): seq<string> {
    if reqs == [] then []
    else
      PendingUris(reqs[..|reqs| - 1])
      + match reqs[|reqs| - 1] case Cached(_) => [] case Pending(uri) => [uri]
  }

  /** The published list after one aggregation over `uris`, given the list published before. */
  function Published(env: Collaborators, agent: Agent, cache: Cache, uris: seq<string>, tabs: seq<FeedSourceInfo>): seq<FeedSourceInfo> {
    match Gather(env, agent, Requests(cache, uris))
    case Some(views) => [FollowingFeedStub] + views
    case None => tabs
  }

  /** The cache after one aggregation over `uris`. */
  function CacheAfter(env: Collaborators, agent: Agent, cache: Cache, uris: seq<string>): Cache {
    Fill(env, agent, cache, Requests(cache, uris))
  }

  /** The URIs one aggregation over `uris` fetches. */
  function Fetched(cache: Cache, uris: seq<string>): seq<string> {
    PendingUris(Requests(cache, uris))
  }

  /** What the aggregation yields for one URI: the cached value, or the URI resolved. */
  function Entry(env: Collaborators, agent: Agent, cache: Cache, uri: string): Result<FeedSourceInfo> {
    Settle(env, agent, RequestFor(cache, uri))
  }

  // ------------------------------------------------------------------- lemmas

  /**
   * `Promise.all` succeeds exactly when every request succeeds, and then yields
   * one value per request, in order.
   */
  lemma {:induction false} GatherSpec(env: Collaborators, agent: Agent, reqs: seq<Request>)
    ensures Gather(env, agent, reqs).Some? <==> forall k :: 0 <= k < |reqs| ==> Settle(env, agent, reqs[k]).Ok?
    ensures Gather(env, agent, reqs).Some? ==>
      var views := Gather(env, agent, reqs).value;
      |views| == |reqs| && forall k :: 0 <= k < |reqs| ==> views[k] == Settle(env, agent, reqs[k]).value
  {
    if reqs != [] {
      var init := reqs[..|reqs| - 1];
      GatherSpec(env, agent, init);
      assert forall k :: 0 <= k < |init| ==> init[k] == reqs[k];
    }
  }

  /** Every pinned URI has a cached or resolvable entry. */
  predicate AllEntriesOk(env: Collaborators, agent: Agent, cache: Cache, uris: seq<string>) {
    forall i {:trigger Entry(env, agent, cache, uris[i])} :: 0 <= i < |uris| ==> Entry(env, agent, cache, uris[i]).Ok?
  }

  /**
   * The published list: when every entry resolves it is the stub followed by one
   * entry per pinned URI in pinned order (the cached value where there is one);
   * when some entry fails it is the list published before.
   */
  lemma PublishedSpec(env: Collaborators, agent: Agent, cache: Cache, uris: seq<string>, tabs: seq<FeedSourceInfo>)
    ensures AllEntriesOk(env, agent, cache, uris) ==>
      var out := Published(env, agent, cache, uris, tabs);
      |out| == 1 + |uris| && out[0] == FollowingFeedStub
      && forall i :: 0 <= i < |uris| ==> out[i + 1] == Entry(env, agent, cache, uris[i]).value
    ensures !AllEntriesOk(env, agent, cache, uris) ==> Published(env, agent, cache, uris, tabs) == tabs
  {
    if AllEntriesOk(env, agent, cache, uris) {
      PublishedWhenAllOk(env, agent, cache, uris, tabs);
    } else {
      PublishedWhenOneFails(env, agent, cache, uris, tabs);
    }
  }

  /** Every entry resolves: the stub, then the entries in pinned order. */
  lemma PublishedWhenAllOk(env: Collaborators, agent: Agent, cache: Cache, uris: seq<string>, tabs: seq<FeedSourceInfo>)
    requires AllEntriesOk(env, agent, cache, uris)
    ensures |Published(env, agent, cache, uris, tabs)| == 1 + |uris|
    ensures Published(env, agent, cache, uris, tabs)[0] == FollowingFeedStub
    ensures forall i :: 0 <= i < |uris| ==> Published(env, agent, cache, uris, tabs)[i + 1] == Entry(env, agent, cache, uris[i]).value
  {
    PublishedShape(env, agent, cache, uris, tabs);
    forall i | 0 <= i < |uris|
      ensures Published(env, agent, cache, uris, tabs)[i + 1] == Entry(env, agent, cache, uris[i]).value
    {
      PublishedAt(env, agent, cache, uris, tabs, i);
    }
  }

  /** Every entry resolves: the stub comes first, followed by one tab per pinned URI. */
  lemma PublishedShape(env: Collaborators, agent: Agent, cache: Cache, uris: seq<string>, tabs: seq<FeedSourceInfo>)
    requires AllEntriesOk(env, agent, cache, uris)
    ensures |Published(env, agent, cache, uris, tabs)| == 1 + |uris|
    ensures Published(env, agent, cache, uris, tabs)[0] == FollowingFeedStub
  {
    var views := GatherEntries(env, agent, cache, uris);
    PublishedOfGathered(env, agent, cache, uris, tabs, views);
  }

  /** Every entry resolves: the tab after the stub at position `i` is the entry of the `i`-th pinned URI. */
  lemma PublishedAt(env: Collaborators, agent: Agent, cache: Cache, uris: seq<string>, tabs: seq<FeedSourceInfo>, i: nat)
    requires AllEntriesOk(env, agent, cache, uris) && i < |uris|
    ensures |Published(env, agent, cache, uris, tabs)| == 1 + |uris|
    ensures Published(env, agent, cache, uris, tabs)[i + 1] == Entry(env, agent, cache, uris[i]).value
  {
    var views := GatherEntries(env, agent, cache, uris);
    PublishedOfGathered(env, agent, cache, uris, tabs, views);
  }

  /** When every entry resolves, `Promise.all` yields the entries in pinned order. */
  lemma {:induction false} GatherEntries(env: Collaborators, agent: Agent, cache: Cache, uris: seq<string>) returns (views: seq<FeedSourceInfo>)
    requires AllEntriesOk(env, agent, cache, uris)
    ensures Gather(env, agent, Requests(cache, uris)) == Some(views)
    ensures |views| == |uris| && forall i :: 0 <= i < |uris| ==> views[i] == Entry(env, agent, cache, uris[i]).value
  {
    if uris == [] {
      views := [];
    } else {
      var n := |uris|;
      var init := uris[..n - 1];
      assert AllEntriesOk(env, agent, cache, init) by {
        forall i | 0 <= i < |init| ensures Entry(env, agent, cache, init[i]).Ok? {
          assert init[i] == uris[i];
        }
      }
      var before := GatherEntries(env, agent, cache, init);
      var reqs := Requests(cache, uris);
      assert reqs[..n - 1] == Requests(cache, init);
      assert Settle(env, agent, reqs[n - 1]) == Entry(env, agent, cache, uris[n - 1]);
      views := before + [Entry(env, agent, cache, uris[n - 1]).value];
      forall i | 0 <= i < n - 1 ensures views[i] == Entry(env, agent, cache, uris[i]).value {
        assert views[i] == before[i] && init[i] == uris[i];
      }
    }
  }

  /** A successful `Promise.all` publishes the stub followed by the gathered values. */
  lemma PublishedOfGathered(env: Collaborators, agent: Agent, cache: Cache, uris: seq<string>, tabs: seq<FeedSourceInfo>, views: seq<FeedSourceInfo>)
    requires Gather(env, agent, Requests(cache, uris)) == Some(views)
    ensures Published(env, agent, cache, uris, tabs) == [FollowingFeedStub] + views
  {
  }

  /** Some entry fails: the tabs published before stay. */
  lemma PublishedWhenOneFails(env: Collaborators, agent: Agent, cache: Cache, uris: seq<string>, tabs: seq<FeedSourceInfo>)
    requires !AllEntriesOk(env, agent, cache, uris)
    ensures Published(env, agent, cache, uris, tabs) == tabs
  {
    var reqs := Requests(cache, uris);
    EntriesAreSettled(env, agent, cache, uris);
    var i :| 0 <= i < |uris| && !Entry(env, agent, cache, uris[i]).Ok?;
    assert !Settle(env, agent, reqs[i]).Ok?;
    GatherSpec(env, agent, reqs);
  }

  /** The entry of each pinned URI is how its collected request settles. */
  lemma EntriesAreSettled(env: Collaborators, agent: Agent, cache: Cache, uris: seq<string>)
    ensures var reqs := Requests(cache, uris);
      forall i :: 0 <= i < |uris| ==> Entry(env, agent, cache, uris[i]) == Settle(env, agent, reqs[i])
  {
    var reqs := Requests(cache, uris);
    forall i | 0 <= i < |uris| ensures Entry(env, agent, cache, uris[i]) == Settle(env, agent, reqs[i]) {
      assert reqs[i] == RequestFor(cache, uris[i]);
    }
  }

  /** The tabs are non-empty and start with the Following stub. */
  predicate StubFirst(tabs: seq<FeedSourceInfo>) {
    |tabs| >= 1 && tabs[0] == FollowingFeedStub
  }

  /** An aggregation keeps the stub first, whether it succeeds or fails. */
  lemma PublishedKeepsStubFirst(env: Collaborators, agent: Agent, cache: Cache, uris: seq<string>, tabs: seq<FeedSourceInfo>)
    requires StubFirst(tabs)
    ensures StubFirst(Published(env, agent, cache, uris, tabs))
  {
    PublishedSpec(env, agent, cache, uris, tabs);
  }

  /** A pinned URI that is already cached yields the cached value, whatever the server would say. */
  lemma CachedEntryWins(env: Collaborators, agent: Agent, cache: Cache, uris: seq<string>, tabs: seq<FeedSourceInfo>, i: nat)
    requires i < |uris| && FeedSourceInfoQueryKey(uris[i]) in cache
    requires AllEntriesOk(env, agent, cache, uris)
    ensures |Published(env, agent, cache, uris, tabs)| == 1 + |uris|
    ensures Published(env, agent, cache, uris, tabs)[i + 1] == cache[FeedSourceInfoQueryKey(uris[i])]
  {
    PublishedSpec(env, agent, cache, uris, tabs);
  }

  /** A resolved entry has the kind its URI is classified as. */
  lemma PublishedKindsFollowClassification(env: Collaborators, agent: Agent, cache: Cache, uris: seq<string>, tabs: seq<FeedSourceInfo>, i: nat)
    requires i < |uris| && FeedSourceInfoQueryKey(uris[i]) !in cache
    requires AllEntriesOk(env, agent, cache, uris)
    ensures |Published(env, agent, cache, uris, tabs)| == 1 + |uris|
    ensures KindOf(Published(env, agent, cache, uris, tabs)[i + 1]) == GetFeedTypeFromUri(env, uris[i])
  {
    PublishedSpec(env, agent, cache, uris, tabs);
  }

  /** No pinned URIs: only the stub is published. */
  lemma NoPinnedPublishesStub(env: Collaborators, agent: Agent, cache: Cache, tabs: seq<FeedSourceInfo>)
    ensures Published(env, agent, cache, [], tabs) == [FollowingFeedStub]
  {
  }

  /** Exactly the URIs that are not cached are fetched; cached ones never are. */
  lemma {:induction false} PendingUrisSpec(cache: Cache, uris: seq<string>)
    ensures forall u :: u in PendingUris(Requests(cache, uris)) <==> u in uris && FeedSourceInfoQueryKey(u) !in cache
  {
    if uris != [] {
      var init := uris[..|uris| - 1];
      PendingUrisSpec(cache, init);
      assert Requests(cache, uris)[..|uris| - 1] == Requests(cache, init);
      assert uris == init + [uris[|uris| - 1]];
    }
  }

  /** The fetched URIs are the uncached ones. */
  lemma FetchedSpec(cache: Cache, uris: seq<string>, u: string)
    ensures u in Fetched(cache, uris) <==> u in uris && FeedSourceInfoQueryKey(u) !in cache
  {
    PendingUrisSpec(cache, uris);
  }

  /** A request list whose pending URIs are all uncached in `cache`. */
  predicate PendingUncached(cache: Cache, reqs: seq<Request>) {
    forall k :: 0 <= k < |reqs| && reqs[k].Pending? ==> FeedSourceInfoQueryKey(reqs[k].uri) !in cache
  }

  /**
   * Filling only adds entries: what was cached stays cached with the same value,
   * and every new key belongs to a pending URI that resolved.
   */
  lemma {:induction false} FillSpec(env: Collaborators, agent: Agent, cache: Cache, reqs: seq<Request>)
    requires PendingUncached(cache, reqs)
    ensures var filled := Fill(env, agent, cache, reqs);
      (forall key :: key in cache ==> key in filled && filled[key] == cache[key])
      && (forall key :: key in filled && key !in cache ==>
            exists k :: 0 <= k < |reqs| && reqs[k].Pending? && key == FeedSourceInfoQueryKey(reqs[k].uri)
              && Resolve(env, agent, reqs[k].uri) == Ok(filled[key]))
  {
    if reqs != [] {
      var init := reqs[..|reqs| - 1];
      assert forall k :: 0 <= k < |init| ==> init[k] == reqs[k];
      FillSpec(env, agent, cache, init);
      var before := Fill(env, agent, cache, init);
      var filled := Fill(env, agent, cache, reqs);
      var last := |reqs| - 1;
      forall key | key in filled && key !in cache
        ensures exists k :: 0 <= k < |reqs| && reqs[k].Pending? && key == FeedSourceInfoQueryKey(reqs[k].uri)
                  && Resolve(env, agent, reqs[k].uri) == Ok(filled[key])
      {
        if reqs[last].Pending? && key == FeedSourceInfoQueryKey(reqs[last].uri) && Resolve(env, agent, reqs[last].uri).Ok? {
          assert Resolve(env, agent, reqs[last].uri) == Ok(filled[key]);
        } else {
          assert key in before && filled[key] == before[key];
          var k :| 0 <= k < |init| && init[k].Pending? && key == FeedSourceInfoQueryKey(init[k].uri)
                   && Resolve(env, agent, init[k].uri) == Ok(before[key]);
          assert reqs[k] == init[k];
        }
      }
    }
  }

  /** Every pending URI that resolved is in the filled cache, under its key. */
  lemma {:induction false} FillStoresResolved(env: Collaborators, agent: Agent, cache: Cache, reqs: seq<Request>, k: nat)
    requires k < |reqs| && reqs[k].Pending? && Resolve(env, agent, reqs[k].uri).Ok?
    ensures FeedSourceInfoQueryKey(reqs[k].uri) in Fill(env, agent, cache, reqs)
    ensures Fill(env, agent, cache, reqs)[FeedSourceInfoQueryKey(reqs[k].uri)] == Resolve(env, agent, reqs[k].uri).value
  {
    var last := |reqs| - 1;
    var init := reqs[..last];
    var key := FeedSourceInfoQueryKey(reqs[k].uri);
    if k < last {
      assert init[k] == reqs[k];
      FillStoresResolved(env, agent, cache, init, k);
      if reqs[last].Pending? && FeedSourceInfoQueryKey(reqs[last].uri) == key {
        QueryKeyInjective(reqs[last].uri, reqs[k].uri);
      }
    }
  }

  /**
   * The cache after an aggregation keeps every earlier entry unchanged (no
   * revalidation), and holds every pinned URI that resolved.
   */
  lemma CacheAfterSpec(env: Collaborators, agent: Agent, cache: Cache, uris: seq<string>)
    ensures var after := CacheAfter(env, agent, cache, uris);
      (forall key :: key in cache ==> key in after && after[key] == cache[key])
      && (forall i :: 0 <= i < |uris| && Entry(env, agent, cache, uris[i]).Ok? ==>
            FeedSourceInfoQueryKey(uris[i]) in after
            && after[FeedSourceInfoQueryKey(uris[i])] == Entry(env, agent, cache, uris[i]).value)
  {
    var reqs := Requests(cache, uris);
    FillSpec(env, agent, cache, reqs);
    forall i | 0 <= i < |uris| && Entry(env, agent, cache, uris[i]).Ok?
      ensures FeedSourceInfoQueryKey(uris[i]) in CacheAfter(env, agent, cache, uris)
      ensures CacheAfter(env, agent, cache, uris)[FeedSourceInfoQueryKey(uris[i])] == Entry(env, agent, cache, uris[i]).value
    {
      if reqs[i].Pending? {
        FillStoresResolved(env, agent, cache, reqs, i);
      }
    }
  }

  /**
   * A successful aggregation is stable: run again over the same URIs with the
   * cache it left behind, it fetches nothing, leaves the cache as it is and
   * publishes the same list.
   */
  lemma RefreshIsStable(env: Collaborators, agent: Agent, cache: Cache, uris: seq<string>, tabs: seq<FeedSourceInfo>, tabs': seq<FeedSourceInfo>)
    requires AllEntriesOk(env, agent, cache, uris)
    ensures var after := CacheAfter(env, agent, cache, uris);
      Fetched(after, uris) == []
      && CacheAfter(env, agent, after, uris) == after
      && Published(env, agent, after, uris, tabs') == Published(env, agent, cache, uris, tabs)
  {
    var after := CacheAfter(env, agent, cache, uris);
    CacheAfterSpec(env, agent, cache, uris);
    var reqs := Requests(after, uris);
    assert forall k :: 0 <= k < |reqs| ==> reqs[k].Cached?;
    NothingPendingFillsNothing(env, agent, after, reqs);
    PublishedSpec(env, agent, cache, uris, tabs);
    PublishedSpec(env, agent, after, uris, tabs');
    forall i | 0 <= i < |uris|
      ensures Entry(env, agent, after, uris[i]) == Entry(env, agent, cache, uris[i])
    {
      var e := Entry(env, agent, cache, uris[i]);
      assert e == Ok(e.value);
    }
    var out := Published(env, agent, cache, uris, tabs);
    var out' := Published(env, agent, after, uris, tabs');
    assert |out| == |out'|;
    forall n | 0 <= n < |out| ensures out[n] == out'[n] {
      if n > 0 {
        assert out[n] == Entry(env, agent, cache, uris[n - 1]).value;
      }
    }
  }

  /** Without pending requests nothing is fetched and the cache is left as it is. */
  lemma {:induction false} NothingPendingFillsNothing(env: Collaborators, agent: Agent, cache: Cache, reqs: seq<Request>)
    requires forall k :: 0 <= k < |reqs| ==> reqs[k].Cached?
    ensures PendingUris(reqs) == []
    ensures Fill(env, agent, cache, reqs) == cache
  {
    if reqs != [] {
      var init := reqs[..|reqs| - 1];
      assert forall k :: 0 <= k < |init| ==> init[k] == reqs[k];
      NothingPendingFillsNothing(env, agent, cache, init);
    }
  }

  // -------------------------------------------------------------------- state

  /** The query client's cache of feed-source infos. */
  class QueryClient {
    var feedSourceInfos: Cache

    constructor ()
      ensures feedSourceInfos == map[]
    {
      feedSourceInfos := map[];
    }

    /** `getQueryData(key)`: the cached value, if any. */
    method GetQueryData(key: QueryKey) returns (cached: Option<FeedSourceInfo>)
      ensures cached.Some? <==> key in feedSourceInfos
      ensures cached.Some? ==> cached.value == feedSourceInfos[key]
    {
      cached := if key in feedSourceInfos then Some(feedSourceInfos[key]) else None;
    }

    /** `fetchQuery({queryKey, queryFn})`: run the query and store a successful result. */
    method FetchQuery(key: QueryKey, queryFn: () -> Result<FeedSourceInfo>) returns (r: Result<FeedSourceInfo>)
      modifies this
      ensures r == queryFn()
      ensures feedSourceInfos == if r.Ok? then old(feedSourceInfos)[key := r.value] else old(feedSourceInfos)
    {
      r := queryFn();
      if r.Ok? {
        feedSourceInfos := feedSourceInfos[key := r.value];
      }
    }
  }

  /** The state behind `usePinnedFeedsInfos`: the published tabs. */
  class PinnedFeedsInfos {
    var tabs: seq<FeedSourceInfo>
    const queryClient: QueryClient

    /** The object invariant: the Following stub is always the first tab. */
    ghost predicate Valid()
      reads this
    {
      StubFirst(tabs)
    }

    constructor (queryClient: QueryClient)
      ensures this.queryClient == queryClient
      ensures tabs == [FollowingFeedStub]
      ensures Valid()
    {
      this.queryClient := queryClient;
      tabs := [FollowingFeedStub];
    }

    /**
     * The effect that runs when the pinned URIs change: nothing happens while
     * there is no pinned list; otherwise one aggregation runs.
     */
    method OnPinnedChanged(env: Collaborators, agent: Agent, pinned: Option<seq<string>>) returns (fetched: seq<string>)
      requires Valid()
      modifies this, queryClient
      ensures Valid()
      ensures pinned.None? ==>
        tabs == old(tabs) && queryClient.feedSourceInfos == old(queryClient.feedSourceInfos) && fetched == []
      ensures pinned.Some? ==>
        && tabs == Published(env, agent, old(queryClient.feedSourceInfos), pinned.value, old(tabs))
        && queryClient.feedSourceInfos == CacheAfter(env, agent, old(queryClient.feedSourceInfos), pinned.value)
        && fetched == Fetched(old(queryClient.feedSourceInfos), pinned.value)
    {
      fetched := [];
      if pinned.Some? {
        fetched := FetchFeedInfo(env, agent, pinned.value);
      }
    }

    /** `fetchFeedInfo`: one aggregation over `uris`; returns the URIs it fetched. */
    method FetchFeedInfo(env: Collaborators, agent: Agent, uris: seq<string>) returns (fetched: seq<string>)
      requires Valid()
      modifies this, queryClient
      ensures Valid()
      ensures tabs == Published(env, agent, old(queryClient.feedSourceInfos), uris, old(tabs))
      ensures queryClient.feedSourceInfos == CacheAfter(env, agent, old(queryClient.feedSourceInfos), uris)
      ensures fetched == Fetched(old(queryClient.feedSourceInfos), uris)
    {
      var reqs := CollectRequests(uris);
      var views;
      views, fetched := SettleAll(env, agent, reqs);
      if views.Some? {
        tabs := [FollowingFeedStub] + views.value;
      }
      PublishedKeepsStubFirst(env, agent, old(queryClient.feedSourceInfos), uris, old(tabs));
    }

    /** The first pass: look every URI up; collect the cached value or a pending fetch. */
    method CollectRequests(uris: seq<string>) returns (reqs: seq<Request>)
      ensures reqs == Requests(queryClient.feedSourceInfos, uris)
    {
      reqs := [];
      for i := 0 to |uris|
        invariant reqs == Requests(queryClient.feedSourceInfos, uris[..i])
      {
        var uri := uris[i];
        var cached := queryClient.GetQueryData(FeedSourceInfoQueryKey(uri));
        if cached.Some? {
          reqs := reqs + [Cached(cached.value)];
        } else {
          reqs := reqs + [Pending(uri)];
        }
        assert uris[..i + 1][..i] == uris[..i];
      }
      assert uris[..|uris|] == uris;
    }

    /**
     * The second pass, `Promise.all(reqs)`: every pending fetch is issued and
     * stores its result on success; the values come back in order, or nothing
     * when any request failed.
     */
    method SettleAll(env: Collaborators, agent: Agent, reqs: seq<Request>) returns (views: Option<seq<FeedSourceInfo>>, fetched: seq<string>)
      modifies queryClient
      ensures views == Gather(env, agent, reqs)
      ensures queryClient.feedSourceInfos == Fill(env, agent, old(queryClient.feedSourceInfos), reqs)
      ensures fetched == PendingUris(reqs)
    {
      ghost var cache := queryClient.feedSourceInfos;
      views := Some([]);
      fetched := [];
      for j := 0 to |reqs|
        invariant queryClient.feedSourceInfos == Fill(env, agent, cache, reqs[..j])
        invariant views == Gather(env, agent, reqs[..j])
        invariant fetched == PendingUris(reqs[..j])
      {
        assert reqs[..j + 1][..j] == reqs[..j];
        var r;
        match reqs[j] {
          case Cached(info) =>
            r := Ok(info);
          case Pending(uri) =>
            r := queryClient.FetchQuery(FeedSourceInfoQueryKey(uri), () => Resolve(env, agent, uri));
            fetched := fetched + [uri];
        }
        views := if views.Some? && r.Ok? then Some(views.value + [r.value]) else None;
      }
      assert reqs[..|reqs|] == reqs;
    }
  }
}
