/**
 * Feed sources: the unified description of a feed generator or a curated list,
 * how the kind of a source is read off its AT-URI, how a server view is
 * normalised ("hydrated") into a `FeedSourceInfo`, and how a URI is resolved by
 * dispatching on its kind.
 *
 * The libraries the code calls and whose code is not part of this model (AT-URI
 * parsing, the route table's `matchPath`, the display-name and handle sanitisers)
 * are passed in as a `Collaborators` record of total functions; the two remote
 * endpoints are an `Agent` record.
 */
module FeedSource {
  import opened Wrappers
  import opened JsStrings

  // ---------------------------------------------------------------- data model

  /** The parts of an AT-URI `at://{hostname}/{collection}/{rkey}`. */
  datatype AtUri = AtUri(hostname: string, collection: string, rkey: string, pathname: string)

  /** A rich-text annotation; its contents are opaque here. */
  datatype Facet = Facet(byteStart: int, byteEnd: int, features: seq<string>)

  /** A `RichText` value: plain text plus its annotations. */
  datatype RichText = RichText(text: string, facets: seq<Facet>)

  datatype Creator = Creator(did: string, handle: string)

  datatype GeneratorViewerState = GeneratorViewerState(like: Option<string>)

  /** The server's description of a feed generator. */
  datatype GeneratorView = GeneratorView(
    uri: string,
    cid: string,
    displayName: Option<string>,
    description: Option<string>,
    descriptionFacets: Option<seq<Facet>>,
    avatar: Option<string>,
    creator: Creator,
    likeCount: Option<int>,
    viewer: Option<GeneratorViewerState>)

  /** The server's description of a curated list. */
  datatype ListView = ListView(
    uri: string,
    cid: string,
    name: Option<string>,
    description: Option<string>,
    descriptionFacets: Option<seq<Facet>>,
    avatar: Option<string>,
    creator: Creator)

  /** A resolved UI route: the path and what the route table made of it. */
  datatype Route = Route(href: string, name: string, params: map<string, string>)

  datatype FeedType = Feed | List

  /** The tagged union `FeedSourceInfo`: a `feed` variant and a `list` variant. */
  datatype FeedSourceInfo =
    | FeedInfo(
        uri: string,
        route: Route,
        cid: string,
        avatar: Option<string>,
        displayName: string,
        description: RichText,
        creatorDid: string,
        creatorHandle: string,
        likeCount: Option<int>,
        likeUri: Option<string>)
    | ListInfo(
        uri: string,
        route: Route,
        cid: string,
        avatar: Option<string>,
        displayName: string,
        description: RichText,
        creatorDid: string,
        creatorHandle: string)

  /** The `type` tag of a `FeedSourceInfo`. */
  function KindOf(info: FeedSourceInfo): FeedType {
    if info.FeedInfo? then Feed else List
  }

  /** The library functions the hydrators call, left uninterpreted. */
  datatype Collaborators = Collaborators(
    parseUri: string -> AtUri,
    matchPath: string -> (string, map<string, string>),
    sanitizeDisplayName: string -> string,
    sanitizeHandle: (string, string) -> string)

  /** The two remote endpoints; `getList` also takes the page size. */
  datatype Agent = Agent(
    getFeedGenerator: string -> Result<GeneratorView>,
    getList: (string, nat) -> Result<ListView>)

  /** The collection NSIDs of the two kinds of feed source. */
  const FeedNSID: string := "app.bsky.feed.generator"
  const ListNSID: string := "app.bsky.graph.list"

  /** The page size the list fetch asks for. */
  const ListFetchLimit: nat := 1

  // ---------------------------------------------------------- classification

  /**
   * `getFeedTypeFromUri`: a source is a feed exactly when the URI's pathname
   * contains the feed-generator NSID anywhere.
   */
  function GetFeedTypeFromUri(env: Collaborators, uri: string): (t: FeedType)
    ensures t == Feed <==> exists i :: OccursAt(env.parseUri(uri).pathname, FeedNSID, i)
    ensures t == List <==> forall i :: !OccursAt(env.parseUri(uri).pathname, FeedNSID, i)
  {
    var pathname := env.parseUri(uri).pathname;
    IncludesIffOccurs(pathname, FeedNSID);
    if Includes(pathname, FeedNSID) then Feed else List
  }

  /** The pathname of a parsed AT-URI is `/{collection}/{rkey}`. */
  predicate PathnameWellFormed(u: AtUri) {
    u.pathname == "/" + u.collection + "/" + u.rkey
  }

  /** A feed-generator URI is always classified as a feed. */
  lemma ClassifyFeedGenerator(env: Collaborators, uri: string)
    requires PathnameWellFormed(env.parseUri(uri))
    requires env.parseUri(uri).collection == FeedNSID
    ensures GetFeedTypeFromUri(env, uri) == Feed
  {
    var u := env.parseUri(uri);
    assert u.pathname[1..1 + |FeedNSID|] == FeedNSID;
    assert OccursAt(u.pathname, FeedNSID, 1);
  }

  /**
   * A list URI is classified as a feed exactly when its record key contains the
   * feed-generator NSID: the test looks at the whole pathname, not at the
   * collection alone.
   */
  lemma ClassifyList(env: Collaborators, uri: string)
    requires PathnameWellFormed(env.parseUri(uri))
    requires env.parseUri(uri).collection == ListNSID
    ensures GetFeedTypeFromUri(env, uri) == Feed <==> Includes(env.parseUri(uri).rkey, FeedNSID)
  {
    var u := env.parseUri(uri);
    var head := "/" + ListNSID;
    assert u.pathname == head + ['/'] + u.rkey;
    assert |head| < |FeedNSID| && '/' !in FeedNSID;
    IncludesAfterShortHead(head, '/', u.rkey, FeedNSID);
    IncludesIffOccurs(u.pathname, FeedNSID);
  }

  /** Concretely: a list whose record key is the feed NSID is taken for a feed. */
  lemma ListWithFeedRkeyIsClassifiedFeed(env: Collaborators, uri: string)
    requires env.parseUri(uri) == AtUri("alice.test", ListNSID, FeedNSID, "/" + ListNSID + "/" + FeedNSID)
    ensures GetFeedTypeFromUri(env, uri) == Feed
  {
    assert FeedNSID <= FeedNSID;
    ClassifyList(env, uri);
  }

  // ------------------------------------------------------------------- routes

  /** The path segment of a source's route, chosen by its collection. */
  function RouteSegment(collection: string): (seg: string)
    ensures seg == "feed" || seg == "lists"
    ensures seg == "feed" <==> collection == FeedNSID
  {
    if collection == FeedNSID then "feed" else "lists"
  }

  /** `/profile/{host}/{seg}/{rkey}`. */
  function ProfileHref(hostname: string, seg: string, rkey: string): string {
    "/profile/" + hostname + "/" + seg + "/" + rkey
  }

  /** A non-empty path piece without '/'. */
  predicate PathPiece(s: string) {
    s != [] && '/' !in s
  }

  /**
   * The path shape the route table must recognise: the host, the segment and the
   * record key of a `/profile/{host}/{feed|lists}/{rkey}` path.
   */
  function MatchProfileHref(href: string): Option<(string, string, string)> {
    var parts := Split(href, '/');
    if |parts| == 5 && parts[0] == [] && parts[1] == "profile" && PathPiece(parts[2])
       && (parts[3] == "feed" || parts[3] == "lists") && PathPiece(parts[4])
    then Some((parts[2], parts[3], parts[4]))
    else None
  }

  /** A profile path built from clean pieces is recognised, and gives its pieces back. */
  lemma ProfileHrefRoundTrip(hostname: string, seg: string, rkey: string)
    requires PathPiece(hostname) && PathPiece(rkey)
    requires seg == "feed" || seg == "lists"
    ensures MatchProfileHref(ProfileHref(hostname, seg, rkey)) == Some((hostname, seg, rkey))
  {
    var parts := ProfileHrefPieces(hostname, seg, rkey);
    assert parts[0] == [] && parts[1] == "profile";
  }

  /** A profile path built from clean pieces splits into exactly those pieces. */
  lemma ProfileHrefPieces(hostname: string, seg: string, rkey: string) returns (parts: seq<string>)
    requires PathPiece(hostname) && PathPiece(rkey)
    requires seg == "feed" || seg == "lists"
    ensures parts == Split(ProfileHref(hostname, seg, rkey), '/')
    ensures parts == [[], "profile", hostname, seg, rkey]
  {
    var t3 := seg + ['/'] + rkey;
    var t2 := hostname + ['/'] + t3;
    var t1 := "profile" + ['/'] + t2;
    var href := ProfileHref(hostname, seg, rkey);
    assert "/profile/" == ['/'] + "profile" + ['/'];
    assert href == [] + ['/'] + t1;
    SplitSeparatorFree(rkey, '/');
    SplitAfterPiece(seg, '/', rkey);
    assert Split(t3, '/') == [seg, rkey];
    SplitAfterPiece(hostname, '/', t3);
    assert Split(t2, '/') == [hostname, seg, rkey];
    SplitAfterPiece("profile", '/', t2);
    assert Split(t1, '/') == ["profile", hostname, seg, rkey];
    SplitAfterPiece([], '/', t1);
    parts := Split(href, '/');
  }

  /** Every recognised path is exactly the profile path of its pieces. */
  lemma MatchProfileHrefSound(href: string)
    requires MatchProfileHref(href).Some?
    ensures var (h, seg, k) := MatchProfileHref(href).value;
      href == ProfileHref(h, seg, k) && PathPiece(h) && PathPiece(k)
  {
    var parts := Split(href, '/');
    JoinSplit(href, '/');
    assert Join(parts[4..], '/') == parts[4];
    assert Join(parts[3..], '/') == parts[3] + ['/'] + parts[4] by {
      assert parts[3..][1..] == parts[4..];
    }
    assert Join(parts[2..], '/') == parts[2] + ['/'] + Join(parts[3..], '/') by {
      assert parts[2..][1..] == parts[3..];
    }
    assert Join(parts[1..], '/') == parts[1] + ['/'] + Join(parts[2..], '/') by {
      assert parts[1..][1..] == parts[2..];
    }
  }

  /**
   * The route of a source with URI `uri`: the profile path of its host, segment
   * and record key, and what the route table matched it to.
   */
  function RouteFor(env: Collaborators, uri: string): (route: Route)
    ensures var u := env.parseUri(uri);
      route.href == ProfileHref(u.hostname, RouteSegment(u.collection), u.rkey)
    ensures var u := env.parseUri(uri);
      PathPiece(u.hostname) && PathPiece(u.rkey) ==>
        MatchProfileHref(route.href) == Some((u.hostname, RouteSegment(u.collection), u.rkey))
    ensures env.matchPath(route.href) == (route.name, route.params)
  {
    var u := env.parseUri(uri);
    var href := ProfileHref(u.hostname, RouteSegment(u.collection), u.rkey);
    assert PathPiece(u.hostname) && PathPiece(u.rkey) ==>
      MatchProfileHref(href) == Some((u.hostname, RouteSegment(u.collection), u.rkey)) by {
      if PathPiece(u.hostname) && PathPiece(u.rkey) {
        ProfileHrefRoundTrip(u.hostname, RouteSegment(u.collection), u.rkey);
      }
    }
    var matched := env.matchPath(href);
    Route(href, matched.0, matched.1)
  }

  // ---------------------------------------------------------------- hydration

  /** JavaScript truthiness of an optional string: present and non-empty. */
  predicate Truthy(s: Option<string>) {
    s.Some? && s.value != []
  }

  /**
   * The display name: the sanitised server name when it is truthy, otherwise
   * `fallbackPrefix` followed by the creator's handle sanitised with prefix '@'.
   */
  function DisplayName(env: Collaborators, name: Option<string>, fallbackPrefix: string, handle: string): (r: string)
    ensures Truthy(name) ==> r == env.sanitizeDisplayName(name.value)
    ensures !Truthy(name) ==> r == fallbackPrefix + env.sanitizeHandle(handle, "@")
  {
    if Truthy(name) then env.sanitizeDisplayName(name.value)
    else fallbackPrefix + env.sanitizeHandle(handle, "@")
  }

  /** The description: the server text or "", and the server facets or none. */
  function Description(text: Option<string>, facets: Option<seq<Facet>>): (d: RichText)
    ensures d.text == if Truthy(text) then text.value else ""
    ensures d.facets == if facets.Some? then facets.value else []
  {
    RichText(if Truthy(text) then text.value else "", facets.GetOr([]))
  }

  /** `hydrateFeedGenerator`: normalise a feed generator view. */
  function HydrateFeedGenerator(env: Collaborators, view: GeneratorView): (info: FeedSourceInfo)
    ensures info.FeedInfo?
    ensures info.uri == view.uri && info.cid == view.cid && info.avatar == view.avatar
    ensures info.creatorDid == view.creator.did && info.creatorHandle == view.creator.handle
    ensures info.likeCount == view.likeCount
    ensures info.likeUri == if view.viewer.Some? then view.viewer.value.like else None
    ensures info.route == RouteFor(env, view.uri)
    ensures info.displayName == DisplayName(env, view.displayName, "Feed by ", view.creator.handle)
    ensures info.description == Description(view.description, view.descriptionFacets)
  {
    FeedInfo(
      uri := view.uri,
      route := RouteFor(env, view.uri),
      cid := view.cid,
      avatar := view.avatar,
      displayName := DisplayName(env, view.displayName, "Feed by ", view.creator.handle),
      description := Description(view.description, view.descriptionFacets),
      creatorDid := view.creator.did,
      creatorHandle := view.creator.handle,
      likeCount := view.likeCount,
      likeUri := if view.viewer.Some? then view.viewer.value.like else None)
  }

  /** `hydrateList`: normalise a list view; a list has no like fields. */
  function HydrateList(env: Collaborators, view: ListView): (info: FeedSourceInfo)
    ensures info.ListInfo?
    ensures info.uri == view.uri && info.cid == view.cid && info.avatar == view.avatar
    ensures info.creatorDid == view.creator.did && info.creatorHandle == view.creator.handle
    ensures info.route == RouteFor(env, view.uri)
    ensures info.displayName == DisplayName(env, view.name, "User List by ", view.creator.handle)
    ensures info.description == Description(view.description, view.descriptionFacets)
  {
    ListInfo(
      uri := view.uri,
      route := RouteFor(env, view.uri),
      cid := view.cid,
      avatar := view.avatar,
      displayName := DisplayName(env, view.name, "User List by ", view.creator.handle),
      description := Description(view.description, view.descriptionFacets),
      creatorDid := view.creator.did,
      creatorHandle := view.creator.handle)
  }

  /** A feed generator that sends an empty name is shown as "Feed by @handle". */
  lemma FeedFallbackName(env: Collaborators, view: GeneratorView)
    requires view.displayName == Some("")
    ensures HydrateFeedGenerator(env, view).displayName == "Feed by " + env.sanitizeHandle(view.creator.handle, "@")
  {
  }

  /**
   * For a source whose URI is well formed, the route segment of the hydrated
   * info is "feed" exactly when the URI names the feed-generator collection, and
   * the route table sees `/profile/{host}/{seg}/{rkey}`.
   */
  lemma HydratedRouteFollowsCollection(env: Collaborators, info: FeedSourceInfo)
    requires PathPiece(env.parseUri(info.uri).hostname) && PathPiece(env.parseUri(info.uri).rkey)
    requires info.route == RouteFor(env, info.uri)
    ensures var u := env.parseUri(info.uri);
      MatchProfileHref(info.route.href).Some?
      && MatchProfileHref(info.route.href).value.0 == u.hostname
      && MatchProfileHref(info.route.href).value.2 == u.rkey
      && (MatchProfileHref(info.route.href).value.1 == "feed" <==> u.collection == FeedNSID)
  {
  }

  // --------------------------------------------------------------- resolution

  /**
   * The resolve step: classify the URI, fetch the generator or the list (a page
   * of one item) and hydrate it; a failed fetch is passed on unchanged.
   */
  function Resolve(env: Collaborators, agent: Agent, uri: string): (r: Result<FeedSourceInfo>)
    ensures r.Ok? ==> KindOf(r.value) == GetFeedTypeFromUri(env, uri)
    ensures GetFeedTypeFromUri(env, uri) == Feed ==>
      match agent.getFeedGenerator(uri)
      case Ok(view) => r == Ok(HydrateFeedGenerator(env, view))
      case Err(e) => r == Err(e)
    ensures GetFeedTypeFromUri(env, uri) == List ==>
      match agent.getList(uri, ListFetchLimit)
      case Ok(view) => r == Ok(HydrateList(env, view))
      case Err(e) => r == Err(e)
  {
    match GetFeedTypeFromUri(env, uri)
    case Feed =>
      (match agent.getFeedGenerator(uri)
       case Ok(view) => Ok(HydrateFeedGenerator(env, view))
       case Err(e) => Err(e))
    case List =>
      (match agent.getList(uri, ListFetchLimit)
       case Ok(view) => Ok(HydrateList(env, view))
       case Err(e) => Err(e))
  }

  /**
   * For a well-formed feed-generator or list URI whose record key does not
   * contain the feed NSID, a resolved source has the kind its collection names,
   * and when the server echoes the URI its route segment agrees with that kind.
   */
  lemma ResolvedKindFollowsCollection(env: Collaborators, agent: Agent, uri: string)
    requires PathnameWellFormed(env.parseUri(uri))
    requires env.parseUri(uri).collection == FeedNSID || env.parseUri(uri).collection == ListNSID
    requires !Includes(env.parseUri(uri).rkey, FeedNSID)
    requires Resolve(env, agent, uri).Ok?
    ensures var info := Resolve(env, agent, uri).value;
      (info.FeedInfo? <==> env.parseUri(uri).collection == FeedNSID)
      && (info.uri == uri ==> (RouteSegment(env.parseUri(info.uri).collection) == "feed" <==> info.FeedInfo?))
  {
    if env.parseUri(uri).collection == FeedNSID {
      ClassifyFeedGenerator(env, uri);
    } else {
      ClassifyList(env, uri);
    }
  }
}
