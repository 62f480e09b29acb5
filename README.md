# Feed sources and pinned-feed aggregation, modelled in Dafny

This project models the feed-source logic of the Bluesky client's
`src/state/queries/feed.ts`. It covers two parts.

1. **Feed-source normalisation.** A feed generator or a curated list is described
   by one tagged union, `FeedSourceInfo` (`feed` | `list`). `getFeedTypeFromUri`
   decides the kind of an AT-URI. It answers `feed` when the URI's pathname contains
   `app.bsky.feed.generator` anywhere, and `list` otherwise. `hydrateFeedGenerator`
   and `hydrateList` turn a server view into a `FeedSourceInfo`:
   - they build the route `/profile/{host}/{feed|lists}/{rkey}` and pass it to the route table;
   - they pick the display name, or fall back to `Feed by @…` / `User List by @…`;
   - they default the description text and facets;
   - they copy the identity fields through unchanged.

   Resolving a URI means classifying it, fetching the generator or the list
   (a page of one item), and hydrating the answer.
2. **Pinned-feed aggregation** (`fetchFeedInfo` inside `usePinnedFeedsInfos`).
   A first pass looks up each pinned URI in the query cache. It collects either the
   cached value or a pending fetch. A second pass (`Promise.all`) settles them all,
   and each successful fetch is stored in the cache. The published tabs become
   `[FOLLOWING_FEED_STUB] + results` only when every entry resolved. Otherwise the
   previous tabs stay. The tabs start as `[FOLLOWING_FEED_STUB]`, and nothing happens
   while there is no pinned list.

Layout:
- `wrappers.dfy`: `Option`, `Result` (a settled promise) and `FetchError`.
- `js_strings.dfy`: `String.prototype.includes`, plus splitting and joining on `/`.
- `feed_source.dfy`: module `FeedSource`, the data model, classification, routes,
  hydrators and the resolve dispatch.
- `pinned_feeds.dfy`: module `PinnedFeeds`, with two classes:
  - `QueryClient`, whose field is the cache;
  - `PinnedFeedsInfos`, whose field is the published tabs.

  Each pass of the aggregation is a method with a loop, proved against the
  specification functions `Requests`, `Gather`, `Fill` and `PendingUris`.

Libraries whose code is not part of this model are inputs to the model, as a
`Collaborators` record of total functions:
- AT-URI parsing (host, collection, record key, pathname);
- `router.matchPath`;
- `sanitizeDisplayName`;
- `sanitizeHandle`.

The two remote endpoints are an `Agent` record of functions that return `Ok` or `Err`.
`RichText` is modelled as the record of the text and facets its constructor is given.

Two behaviours of the code are easy to miss:
- The display name falls back whenever the server name is falsy, so an empty name
  falls back too (feed.ts:87-89, 124-126).
- The kind of a source is decided by a substring test on the whole pathname, not by
  the collection alone (feed.ts:132). Lemma `ClassifyList` pins down the
  consequence: a list whose record key contains `app.bsky.feed.generator` is taken
  for a feed (`ListWithFeedRkeyIsClassifiedFeed`). The hydrators, in contrast,
  choose the route segment by comparing the collection for equality.

The published tabs always start with the Following stub, from construction on,
whether a run succeeds or fails (`StubFirst`, kept by every method of
`PinnedFeedsInfos` through its `Valid()` invariant).

## Model

| member | source | states |
|---|---|---|
| `JsStrings.IncludesIffOccurs` | src/state/queries/feed.ts:132 | `pathname.includes(nsid)` holds exactly when the NSID occurs at some index of the pathname |
| `FeedSource.GetFeedTypeFromUri` | src/state/queries/feed.ts:130-133 | the type is `feed` iff the parsed pathname contains `app.bsky.feed.generator` at some index, and `list` iff it occurs nowhere; the function is total |
| `FeedSource.ClassifyFeedGenerator` | src/state/queries/feed.ts:63-66 | a well-formed URI in the feed-generator collection is always classified `feed` |
| `FeedSource.ClassifyList` | src/state/queries/feed.ts:130-133 | a well-formed URI in the list collection is classified `feed` exactly when its record key contains the feed NSID (both directions) |
| `FeedSource.ListWithFeedRkeyIsClassifiedFeed` | src/state/queries/feed.ts:130-133 | concrete case: a list whose record key is `app.bsky.feed.generator` is classified `feed` |
| `FeedSource.RouteSegment` | src/state/queries/feed.ts:72-73 | the route segment is `feed` or `lists`, and it is `feed` iff the collection equals `app.bsky.feed.generator` |
| `FeedSource.ProfileHrefRoundTrip` | src/state/queries/feed.ts:74 | for a slash-free host and record key, `/profile/{host}/{seg}/{rkey}` is recognised as a profile path and decodes to exactly those three pieces |
| `FeedSource.MatchProfileHrefSound` | src/state/queries/feed.ts:105 | every path recognised as a profile path is exactly `/profile/{host}/{seg}/{rkey}` of the pieces it decodes to |
| `FeedSource.RouteFor` | src/state/queries/feed.ts:71-85 | the href is the profile path of the URI's host, segment and record key; it decodes back to them when they are clean pieces; name and params are the two parts of `matchPath(href)` |
| `FeedSource.DisplayName` | src/state/queries/feed.ts:87-89 | a truthy server name is shown sanitised; an absent or empty one gives the fallback prefix followed by the handle sanitised with `@` |
| `FeedSource.Description` | src/state/queries/feed.ts:90-93 | the text is the server description or `""`; the facets are the server facets or the empty sequence |
| `FeedSource.HydrateFeedGenerator` | src/state/queries/feed.ts:68-99 | the variant is always `feed`; uri, cid, avatar, creator did and handle, like count and viewer like are copied unchanged; route, name and description follow the rules above with fallback `Feed by ` |
| `FeedSource.HydrateList` | src/state/queries/feed.ts:101-128 | the variant is always `list` (so no like fields); uri, cid, avatar and creator fields are copied unchanged; route, name and description follow the rules above with fallback `User List by ` |
| `FeedSource.FeedFallbackName` | src/state/queries/feed.ts:87-89 | a generator whose server name is `""` is shown as `Feed by ` + the sanitised `@handle` |
| `FeedSource.HydratedRouteFollowsCollection` | src/state/queries/feed.ts:102-115 | a hydrated source's href decodes to its URI's host and record key, with segment `feed` exactly for the feed-generator collection |
| `FeedSource.Resolve` | src/state/queries/feed.ts:245-259 | a resolved source has the kind its URI is classified as; a `feed` URI goes to the generator fetch and a `list` URI to the list fetch with limit 1; a fetch failure is passed on unchanged |
| `FeedSource.ResolvedKindFollowsCollection` | src/state/queries/feed.ts:141-156 | for a well-formed generator or list URI whose record key lacks the feed NSID, the resolved variant is `feed` iff the collection is the feed-generator one, and the route segment agrees with the variant |
| `PinnedFeeds.QueryKeyInjective` | src/state/queries/feed.ts:58-61 | distinct URIs have distinct `['getFeedSourceInfo', uri]` cache keys |
| `PinnedFeeds.Requests` | src/state/queries/feed.ts:234-264 | the first pass yields one request per pinned URI, in order: the cached value when the key is cached, a pending fetch otherwise |
| `PinnedFeeds.GatherSpec` | src/state/queries/feed.ts:266 | `Promise.all` succeeds iff every request succeeds, and then yields one value per request, in request order |
| `PinnedFeeds.PublishedSpec` | src/state/queries/feed.ts:266-268 | if every entry resolves, the tabs are the stub followed by one entry per pinned URI in pinned order (length 1 + pinned); if any fails, the tabs are unchanged |
| `PinnedFeeds.PublishedWhenAllOk` | src/state/queries/feed.ts:266-268 | when every entry resolves, the tabs are the stub followed by the entries in pinned order, one per pinned URI |
| `PinnedFeeds.GatherEntries` | src/state/queries/feed.ts:232-266 | when every pinned URI has a cached or resolvable entry, `Promise.all` over the collected requests yields exactly those entries, one per pinned URI, in pinned order |
| `PinnedFeeds.PublishedShape` | src/state/queries/feed.ts:266-268 | when every entry resolves, the published tabs have one more element than the pinned list and begin with the Following stub |
| `PinnedFeeds.PublishedAt` | src/state/queries/feed.ts:266-268 | when every entry resolves, the tab at position `i + 1` is the entry of the `i`-th pinned URI |
| `PinnedFeeds.PublishedWhenOneFails` | src/state/queries/feed.ts:266-268 | when some entry fails, `setTabs` is never reached and the tabs published before stay |
| `PinnedFeeds.PublishedKeepsStubFirst` | src/state/queries/feed.ts:221-268 | if the tabs start with the stub, so do the tabs after an aggregation, whether it succeeds (`[stub].concat(views)`) or fails (old tabs kept); the tabs are never empty |
| `PinnedFeeds.CachedEntryWins` | src/state/queries/feed.ts:235-240 | a pinned URI that is already cached is published with its cached value |
| `PinnedFeeds.PublishedKindsFollowClassification` | src/state/queries/feed.ts:242-262 | an entry that was fetched has the kind `getFeedTypeFromUri` gives its URI |
| `PinnedFeeds.NoPinnedPublishesStub` | src/state/queries/feed.ts:268 | an empty pinned list publishes exactly `[FOLLOWING_FEED_STUB]` |
| `PinnedFeeds.PendingUrisSpec` | src/state/queries/feed.ts:234-264 | a URI is fetched iff it is pinned and not cached |
| `PinnedFeeds.FetchedSpec` | src/state/queries/feed.ts:239-263 | an aggregation fetches a URI exactly when it is pinned and uncached; cached URIs are never fetched |
| `PinnedFeeds.FillSpec` | src/state/queries/feed.ts:242-262 | settling the requests only adds cache entries: existing entries keep their value, and each new key belongs to a pending URI whose resolution produced its value |
| `PinnedFeeds.FillStoresResolved` | src/state/queries/feed.ts:243-261 | every pending URI that resolved is in the cache afterwards, under its key, with the resolved value |
| `PinnedFeeds.CacheAfterSpec` | src/state/queries/feed.ts:234-264 | after an aggregation, every earlier entry is unchanged (no revalidation), and every pinned URI that resolved is cached |
| `PinnedFeeds.RefreshIsStable` | src/state/queries/feed.ts:231-269 | after a successful aggregation, a second one over the same URIs fetches nothing, leaves the cache unchanged and publishes the same tabs |
| `PinnedFeeds.QueryClient.GetQueryData` | src/state/queries/feed.ts:235-237 | returns the cached value iff the key is cached |
| `PinnedFeeds.QueryClient.FetchQuery` | src/state/queries/feed.ts:243-261 | returns the query function's result and stores it under the key exactly when it succeeded |
| `PinnedFeeds.PinnedFeedsInfos.constructor` | src/state/queries/feed.ts:221-223 | the tabs start as `[FOLLOWING_FEED_STUB]`, so the stub-first invariant `Valid()` holds from the start |
| `PinnedFeeds.PinnedFeedsInfos.OnPinnedChanged` | src/state/queries/feed.ts:227-229 | with no pinned list, nothing changes and nothing is fetched; otherwise one aggregation runs; the stub stays the first tab |
| `PinnedFeeds.PinnedFeedsInfos.FetchFeedInfo` | src/state/queries/feed.ts:231-269 | the new tabs, the new cache and the fetched URIs are those the specification functions give for the old cache and old tabs; the stub stays the first tab |
| `PinnedFeeds.PinnedFeedsInfos.CollectRequests` | src/state/queries/feed.ts:234-240 | the cache lookups of the loop: one request per URI, exactly `Requests(cache, uris)`, each the cached value or a fetch still to be made; the lookups themselves change nothing (the fetches the source starts in this loop are made in `SettleAll`) |
| `PinnedFeeds.PinnedFeedsInfos.SettleAll` | src/state/queries/feed.ts:242-266 | the fetches of the uncached URIs, made in pinned order, and the wait for all of them: the result is `Gather(reqs)`, the cache becomes `Fill` of the old cache, and the fetched URIs are `PendingUris(reqs)` |
| `PinnedFeeds.FeedSourceInfoQueryKeyShape` | src/state/queries/feed.ts:58-61 | the cache key of a feed source is the query name `getFeedSourceInfo` followed by its URI |
| `PinnedFeeds.FollowingFeedStubFields` | src/state/queries/feed.ts:200-216 | the stub is a `feed` entry named `Following`, routed to `/` (name `Home`, no params), with empty uri, cid, creator did and handle, avatar `""`, like count 0, like URI `""`, and description text `""` with no facets (the source passes no facets at all) |

## Left out

- React state and effects: `useState`, `useEffect` and the dependency arrays. The `JSON.stringify` key that re-runs the effect on reordering is not modelled either. The model has one method per effect run, and the tabs are a field.
- react-query internals (`useQuery`, `useInfiniteQuery`, `useMutation`, staleness, refetch on mount, garbage collection). The model's cache never evicts an entry. react-query drops a query that has had no observers for its gc time, and the next aggregation then fetches that URI again, so `RefreshIsStable` and `CachedEntryWins` describe the cache while its entries are still held. Only the cache lookup and the store after a successful fetch are modelled. `useFeedSourceInfoQuery` is modelled through its query function (`Resolve`).
- Concurrency: `Promise.all` and overlapping recomputations. The fetches run one after the other, so the last-finisher-wins race between two recomputations is not modelled. react-query shares one in-flight fetch for a URI pinned twice. The model fetches that URI twice, and both fetches give the same value because resolution is a function.
- Network calls (`getFeedGenerator`, `getList`): they are the `Agent` functions. A fetch is deterministic in the model.
- `useGetPopularFeedsQuery` and `useSearchPopularFeedsMutation`: they only pass the server's cursor through with a fixed limit of 10. Any paging guarantee belongs to the server.
- AT-URI parsing, `router.matchPath`, `sanitizeDisplayName` and `sanitizeHandle` are uninterpreted collaborators, because their code is not part of this model. `MatchProfileHref` is a reference decoder of the profile path shape. It is not the route table.
- `RichText` is modelled as the record of its constructor's arguments. Any normalisation the library applies to the text or the facets is not captured. The stub's `new RichText({text: ''})` passes no facets at all; the model gives it the empty sequence.
- `parseUri` is assumed to succeed on every string. `new AtUri(...)` is a library constructor that may reject a malformed URI. Inside the query function, that rejection would fail the entry's fetch, and the old tabs would stay. The model cannot express that failure.
- Fetch timing: the source starts each uncached URI's fetch inside the lookup loop, and `Promise.all` only waits for them. The model makes the fetches in the second pass (`SettleAll`), in pinned order, after all lookups. Under the sequential, deterministic model the outcome is the same: every lookup still sees the cache as it was before any fetch completed.
- Defensive copying of the facets array (`.slice()`): the model works on values, so it does not capture aliasing.
- `likeCount` is an unbounded integer. JavaScript numbers are not modelled.
- src/state/shell/color-mode.tsx is not part of this model. It is a React context over the persisted store, with no logic beyond setting a value and writing it.
