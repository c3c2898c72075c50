/**
 * The route resolver behind `/api/v1/route?path=...&site=...`. It turns a
 * path alias into the entity behind it, or into the target of a redirect,
 * and answers with a JSON:API document and an HTTP status code.
 *
 * The request goes through these stages in order:
 * - a missing path is refused;
 * - the route cache is tried first;
 * - then a redirect matching the path;
 * - then the alias system.
 *
 * An entity found through an alias is cached under the path's cache id,
 * with the entity's cache tags. Every alias lookup is handed to the
 * subscribers of the GET_ROUTE event, which may rewrite the code and the
 * response.
 *
 * The outside world is a `Services` value of oracles: the alias manager,
 * the API helper, the redirect repository, access checks, the site helper,
 * the event dispatcher and the hash function. The cache is a map from
 * cache ids to entries, passed in and returned.
 */
module RouteResolver {
  import opened PhpValues
  import opened PhpStrings
  import opened RedirectUrls

  const HttpOk := 200
  const HttpBadRequest := 400
  const HttpForbidden := 403
  const HttpNotFound := 404

  const PathNotFound := "Path not found."
  const PathRequired := "URL query parameter \"path\" is required."
  const PermissionDenied := "Permission denied."
  const SiteIdRequired := "You must include a site id in the To url."
  const CachePrefix := "tide_api:route:path:"

  const DataKey := StrKey("data")
  const DataIdPath := [DataKey, StrKey("id")]
  const DataTypePath := [DataKey, StrKey("type")]
  const AttributesPath := [DataKey, StrKey("attributes")]
  const EntityIdPath := [DataKey, StrKey("entity_id")]
  const ErrorsPath := [StrKey("errors")]

  /** What the route cache holds under a cache id: the attributes, the URI they came from, the tags. */
  datatype CacheEntry = CacheEntry(jsonResponse: Value, uri: string, tags: seq<string>)

  type Cache = map<string, CacheEntry>

  /** A redirect matching the path: its target URL and its status code. */
  datatype Redirect = Redirect(url: string, statusCode: int)

  /** What the resolver reads off an entity. */
  datatype Entity = Entity(entityType: string, id: Value, bundle: string, uuid: string, cacheTags: seq<string>)

  /** The code, the response and the verdict of the GET_ROUTE event after its subscribers ran. */
  datatype EventResult = EventResult(code: int, jsonResponse: Value, ok: bool)

  /**
   * The services the controller calls.
   * - `selfLink` is the absolute URL of the route endpoint.
   * - `hash` is sha256.
   * - `access(uri)` is the current user's access to the URL of `uri`.
   * - `findMatchingRedirect` is the redirect repository; the language is an input of the oracle.
   * - `siteBaseUrl(id)` is the base URL of the site term with that id.
   * - `pathByAlias`, `findUrlFromPath`, `findEntityFromUrl` and `findEndpoint` are the alias
   *   manager and the API helper, with URLs identified by their URI strings.
   * - `dispatch` runs the GET_ROUTE subscribers on a response, an entity and a code.
   * - `canonicalNodeUri(id)` is the URI of the canonical route of node `id`.
   * - `failure` is the message of an exception raised by the cache backend, if it raises one.
   */
  datatype Services = Services(
    selfLink: string,
    hash: string -> string,
    access: string -> bool,
    findMatchingRedirect: string -> Option<Redirect>,
    hasSiteHelper: bool,
    siteBaseUrl: string -> string,
    pathByAlias: string -> string,
    findUrlFromPath: string -> Option<string>,
    findEntityFromUrl: string -> Option<Entity>,
    findEndpoint: Entity -> Value,
    dispatch: (Value, Option<Entity>, int) -> EventResult,
    canonicalNodeUri: Value -> string,
    failure: Option<string>)

  /** The status code, the JSON document and the route cache after a request. */
  datatype RouteResult = RouteResult(code: int, response: Value, cache: Cache)

  // ---------------------------------------------------------------------
  // The response document

  /** The document every request starts from: a route resource with its self link, and a not-found error. */
  function InitialResponse(selfLink: string): Value {
    Arr([
      Entry(DataKey, Arr([
        Entry(StrKey("type"), Str("route")),
        Entry(StrKey("links"), Arr([Entry(StrKey("self"), Str(selfLink))]))])),
      Entry(StrKey("errors"), ListOf([Str(PathNotFound)]))])
  }

  /** `$json_response['errors'] = [$message]`. */
  function WithError(response: Value, message: string): Value {
    SetPath(response, ErrorsPath, ListOf([Str(message)]))
  }

  /** The attributes are set and the errors removed. */
  function Succeeded(response: Value, attributes: Value): Value {
    UnsetPath(SetPath(response, AttributesPath, attributes), ErrorsPath)
  }

  /** The cache id of a path on a site (an absent site reads as ""). */
  function CacheId(path: string, site: string, hash: string -> string): string {
    CachePrefix + hash(path + site)
  }

  /** The initial document with the request's cache id as `data.id`. */
  function Identified(selfLink: string, cid: string): Value {
    SetPath(InitialResponse(selfLink), DataIdPath, Str(cid))
  }

  /** PHP's `if ($path)` on the query parameter, absent or a string. */
  predicate PathGiven(path: Option<string>) {
    path.Some? && Truthy(Str(path.value))
  }

  function RedirectAttributes(statusCode: int, kind: Value, url: string): Value {
    Arr([
      Entry(StrKey("status_code"), Int(statusCode)),
      Entry(StrKey("type"), kind),
      Entry(StrKey("redirect_url"), Str(url))])
  }

  function EntityAttributes(e: Entity, endpoint: Value): Value {
    Arr([
      Entry(StrKey("entity_type"), Str(e.entityType)),
      Entry(StrKey("entity_id"), e.id),
      Entry(StrKey("bundle"), Str(e.bundle)),
      Entry(StrKey("uuid"), Str(e.uuid)),
      Entry(StrKey("endpoint"), endpoint)])
  }

  // ---------------------------------------------------------------------
  // The stages

  /** A cache hit: the cached attributes when the user may access the cached URI, else 403. */
  function CacheHit(response: Value, entry: CacheEntry, cache: Cache, s: Services): RouteResult {
    if s.access(entry.uri) then RouteResult(HttpOk, Succeeded(response, entry.jsonResponse), cache)
    else RouteResult(HttpForbidden, WithError(response, PermissionDenied), cache)
  }

  /**
   * A matching redirect. Without the site helper, the type is not computed
   * (PHP reads an undefined variable as NULL) and the URL is kept. With it,
   * the target is classified, and a target without a site id is refused.
   */
  function RedirectRoute(response: Value, redirect: Redirect, site: string, cache: Cache, s: Services): RouteResult {
    if !s.hasSiteHelper then
      RouteResult(HttpOk, Succeeded(response, RedirectAttributes(redirect.statusCode, Null, redirect.url)), cache)
    else
      match Classify(redirect.url, site, s.siteBaseUrl)
      case MissingSiteId => RouteResult(HttpBadRequest, WithError(response, SiteIdRequired), cache)
      case Classified(kind, url) =>
        RouteResult(HttpOk, Succeeded(response, RedirectAttributes(redirect.statusCode, Str(KindName(kind)), url)), cache)
  }

  /** The alias stage before the event: the code, the response, the entity found and the cache. */
  datatype Resolution = Resolution(code: int, response: Value, entity: Option<Entity>, cache: Cache)

  /**
   * The alias is resolved to a URL. When the user may access it and it
   * names an entity, the entity's attributes are answered and cached under
   * `cid` with the entity's cache tags. An unknown path or an URL without
   * an entity keeps 404, an inaccessible URL gives 403.
   */
  function ResolveAlias(response: Value, path: string, cid: string, cache: Cache, s: Services): Resolution {
    match s.findUrlFromPath(s.pathByAlias(path))
    case None => Resolution(HttpNotFound, response, None, cache)
    case Some(uri) =>
      if !s.access(uri) then Resolution(HttpForbidden, WithError(response, PermissionDenied), None, cache)
      else
        match s.findEntityFromUrl(uri)
        case None => Resolution(HttpNotFound, response, None, cache)
        case Some(e) =>
          var attributes := EntityAttributes(e, s.findEndpoint(e));
          Resolution(HttpOk, Succeeded(response, attributes), Some(e), cache[cid := CacheEntry(attributes, uri, e.cacheTags)])
  }

  /**
   * The GET_ROUTE event, which the alias stage always reaches with a code
   * other than 400. The event's code and response are answered. When the
   * event is ok, the canonical URL of the node named by
   * `data.entity_id` of the event's response is looked up, and its attributes are
   * cached under `cid` with the tags of the entity found there. Otherwise
   * the response loses `data.type` and `data.id`.
   */
  function AfterEvent(res: Resolution, cid: string, s: Services): RouteResult {
    var ev := s.dispatch(res.response, res.entity, res.code);
    if ev.ok then
      var uri := s.canonicalNodeUri(LookupOrNull(ev.jsonResponse, EntityIdPath));
      var cache' := match s.findEntityFromUrl(uri)
        case None => res.cache
        case Some(e) => res.cache[cid := CacheEntry(LookupOrNull(ev.jsonResponse, AttributesPath), uri, e.cacheTags)];
      RouteResult(ev.code, ev.jsonResponse, cache')
    else
      RouteResult(ev.code, UnsetPath(UnsetPath(ev.jsonResponse, DataTypePath), DataIdPath), res.cache)
  }

  /** The alias stage of a request for `path`. */
  function AliasStage(path: string, site: string, cache: Cache, s: Services): Resolution {
    var cid := CacheId(path, site, s.hash);
    ResolveAlias(Identified(s.selfLink, cid), path, cid, cache, s)
  }

  /** The whole request, as a function of the query, the cache and the services. */
  function Route(path: Option<string>, site: string, cache: Cache, s: Services): RouteResult {
    var response := InitialResponse(s.selfLink);
    if !PathGiven(path) then RouteResult(HttpBadRequest, WithError(response, PathRequired), cache)
    else
      var cid := CacheId(path.value, site, s.hash);
      var response' := Identified(s.selfLink, cid);
      if s.failure.Some? then RouteResult(HttpBadRequest, WithError(response', s.failure.value), cache)
      else if cid in cache then CacheHit(response', cache[cid], cache, s)
      else if path.value != "/" && s.findMatchingRedirect(path.value).Some? then
        RedirectRoute(response', s.findMatchingRedirect(path.value).value, site, cache, s)
      else AfterEvent(AliasStage(path.value, site, cache, s), cid, s)
  }

  // ---------------------------------------------------------------------
  // The controller

  /** `getRoute`, step by step as the controller runs it. */
  method GetRoute(path: Option<string>, site: string, cache: Cache, s: Services)
    returns (code: int, response: Value, cache': Cache)
    ensures RouteResult(code, response, cache') == Route(path, site, cache, s)
  {
    code := HttpNotFound;
    var entity: Option<Entity> := None;
    response := InitialResponse(s.selfLink);
    cache' := cache;
    if PathGiven(path) {
      var p := path.value;
      var cid := CacheId(p, site, s.hash);
      response := SetPath(response, DataIdPath, Str(cid));
      if s.failure.Some? {
        code := HttpBadRequest;
        response := WithError(response, s.failure.value);
      } else if cid in cache' {
        var entry := cache'[cid];
        if s.access(entry.uri) {
          code := HttpOk;
          response := SetPath(response, AttributesPath, entry.jsonResponse);
          response := UnsetPath(response, ErrorsPath);
        } else {
          code := HttpForbidden;
          response := WithError(response, PermissionDenied);
        }
      } else {
        var redirect := if p != "/" then s.findMatchingRedirect(p) else None;
        if redirect.Some? {
          var url := redirect.value.url;
          var kind := Null;
          if s.hasSiteHelper {
            match Classify(url, site, s.siteBaseUrl)
            case MissingSiteId =>
              code := HttpBadRequest;
              response := WithError(response, SiteIdRequired);
            case Classified(k, u) =>
              kind := Str(KindName(k));
              url := u;
          }
          if code != HttpBadRequest {
            response := SetPath(response, AttributesPath, RedirectAttributes(redirect.value.statusCode, kind, url));
            code := HttpOk;
            response := UnsetPath(response, ErrorsPath);
          }
        } else {
          var found := s.findUrlFromPath(s.pathByAlias(p));
          if found.Some? {
            var uri := found.value;
            if s.access(uri) {
              entity := s.findEntityFromUrl(uri);
              if entity.Some? {
                var attributes := EntityAttributes(entity.value, s.findEndpoint(entity.value));
                response := SetPath(response, AttributesPath, attributes);
                cache' := cache'[cid := CacheEntry(attributes, uri, entity.value.cacheTags)];
                code := HttpOk;
                response := UnsetPath(response, ErrorsPath);
              }
            } else {
              code := HttpForbidden;
              response := WithError(response, PermissionDenied);
            }
          }
          if code != HttpBadRequest {
            var ev := s.dispatch(response, entity, code);
            code := ev.code;
            response := ev.jsonResponse;
            if ev.ok {
              var uri := s.canonicalNodeUri(LookupOrNull(response, EntityIdPath));
              var cacheEntity := s.findEntityFromUrl(uri);
              if cacheEntity.Some? {
                cache' := cache'[cid := CacheEntry(LookupOrNull(response, AttributesPath), uri, cacheEntity.value.cacheTags)];
              }
            } else {
              response := UnsetPath(response, DataTypePath);
              response := UnsetPath(response, DataIdPath);
            }
          }
        }
      }
    } else {
      code := HttpBadRequest;
      response := WithError(response, PathRequired);
    }
  }

  // ---------------------------------------------------------------------
  // What the response holds

  /** The initial document has no `data.id`, no attributes and no `data.entity_id`. */
  lemma InitialResponseReads(selfLink: string)
    ensures Lookup(InitialResponse(selfLink), DataIdPath) == None
    ensures Lookup(InitialResponse(selfLink), AttributesPath) == None
    ensures Lookup(InitialResponse(selfLink), EntityIdPath) == None
  {
    var es := InitialResponse(selfLink).entries;
    var data := es[0].val.entries;
    assert Get(es, DataKey) == Some(Arr(data));
    forall k | k in {StrKey("id"), StrKey("attributes"), StrKey("entity_id")}
      ensures Get(data, k) == None
    {
      assert Get(data[1..], k) == Get(data[2..], k);
    }
  }

  /** The document once the cache id is known: it carries `data.id` and no attributes. */
  lemma IdentifiedResponse(selfLink: string, cid: string)
    ensures var r := Identified(selfLink, cid);
      Lookup(r, DataIdPath) == Some(Str(cid)) && Lookup(r, AttributesPath) == None && Lookup(r, EntityIdPath) == None
  {
    InitialResponseReads(selfLink);
    LookupSetPathSame(InitialResponse(selfLink), DataIdPath, Str(cid));
    LookupSetPathOther(InitialResponse(selfLink), DataIdPath, Str(cid), AttributesPath);
    LookupSetPathOther(InitialResponse(selfLink), DataIdPath, Str(cid), EntityIdPath);
  }

  /** An error replaces the list of errors and touches neither `data.id` nor the attributes. */
  lemma WithErrorReads(response: Value, message: string)
    ensures Lookup(WithError(response, message), ErrorsPath) == Some(ListOf([Str(message)]))
    ensures Lookup(WithError(response, message), DataIdPath) == Lookup(response, DataIdPath)
    ensures Lookup(WithError(response, message), AttributesPath) == Lookup(response, AttributesPath)
    ensures Lookup(WithError(response, message), EntityIdPath) == Lookup(response, EntityIdPath)
  {
    LookupSetPathOther(response, ErrorsPath, ListOf([Str(message)]), EntityIdPath);
    LookupSetPathSame(response, ErrorsPath, ListOf([Str(message)]));
    LookupSetPathOther(response, ErrorsPath, ListOf([Str(message)]), DataIdPath);
    LookupSetPathOther(response, ErrorsPath, ListOf([Str(message)]), AttributesPath);
  }

  /** A success carries the attributes, no errors, and the same `data.id`. */
  lemma SucceededReads(response: Value, attributes: Value)
    ensures Lookup(Succeeded(response, attributes), AttributesPath) == Some(attributes)
    ensures Lookup(Succeeded(response, attributes), ErrorsPath) == None
    ensures Lookup(Succeeded(response, attributes), DataIdPath) == Lookup(response, DataIdPath)
    ensures Lookup(Succeeded(response, attributes), EntityIdPath) == Lookup(response, EntityIdPath)
  {
    LookupSetPathOther(response, AttributesPath, attributes, EntityIdPath);
    var withAttributes := SetPath(response, AttributesPath, attributes);
    LookupSetPathSame(response, AttributesPath, attributes);
    LookupSetPathOther(response, AttributesPath, attributes, DataIdPath);
    LookupUnsetPath(withAttributes, ErrorsPath);
    LookupUnsetPathOther(withAttributes, ErrorsPath, AttributesPath);
    LookupUnsetPathOther(withAttributes, ErrorsPath, DataIdPath);
    LookupUnsetPathOther(withAttributes, ErrorsPath, EntityIdPath);
  }

  // ---------------------------------------------------------------------
  // Properties of a request

  /** Without a path (or with "" or "0"), the request is refused with 400 and nothing is cached. */
  lemma RouteRequiresPath(path: Option<string>, site: string, cache: Cache, s: Services)
    requires !PathGiven(path)
    ensures var r := Route(path, site, cache, s);
      r.code == HttpBadRequest && r.cache == cache &&
      Lookup(r.response, ErrorsPath) == Some(ListOf([Str(PathRequired)])) && Lookup(r.response, DataIdPath) == None
  {
    InitialResponseReads(s.selfLink);
    WithErrorReads(InitialResponse(s.selfLink), PathRequired);
  }

  /** An exception raised while reading the cache gives 400 with its message, and nothing is cached. */
  lemma RouteCacheFailure(path: Option<string>, site: string, cache: Cache, s: Services)
    requires PathGiven(path) && s.failure.Some?
    ensures var r := Route(path, site, cache, s);
      r.code == HttpBadRequest && r.cache == cache &&
      Lookup(r.response, ErrorsPath) == Some(ListOf([Str(s.failure.value)])) &&
      Lookup(r.response, DataIdPath) == Some(Str(CacheId(path.value, site, s.hash)))
  {
    var cid := CacheId(path.value, site, s.hash);
    IdentifiedResponse(s.selfLink, cid);
    WithErrorReads(Identified(s.selfLink, cid), s.failure.value);
  }

  /**
   * A cached route is answered from the cache, and the cache is left as it
   * is: with the cached attributes and 200 when the user may access the
   * cached URI, with 403 and no attributes otherwise.
   */
  lemma RouteCacheHit(path: Option<string>, site: string, cache: Cache, s: Services)
    requires PathGiven(path) && s.failure.None? && CacheId(path.value, site, s.hash) in cache
    ensures var cid := CacheId(path.value, site, s.hash);
      var entry := cache[cid];
      var r := Route(path, site, cache, s);
      r.cache == cache && Lookup(r.response, DataIdPath) == Some(Str(cid)) &&
      (s.access(entry.uri) ==>
        r.code == HttpOk && Lookup(r.response, AttributesPath) == Some(entry.jsonResponse) &&
        Lookup(r.response, ErrorsPath) == None) &&
      (!s.access(entry.uri) ==>
        r.code == HttpForbidden && Lookup(r.response, AttributesPath) == None &&
        Lookup(r.response, ErrorsPath) == Some(ListOf([Str(PermissionDenied)])))
  {
    var cid := CacheId(path.value, site, s.hash);
    var response := Identified(s.selfLink, cid);
    IdentifiedResponse(s.selfLink, cid);
    SucceededReads(response, cache[cid].jsonResponse);
    WithErrorReads(response, PermissionDenied);
  }

  /** The root path is never looked up among the redirects. */
  lemma RouteRootSkipsRedirects(site: string, cache: Cache, s: Services, redirects: string -> Option<Redirect>)
    ensures Route(Some("/"), site, cache, s) == Route(Some("/"), site, cache, s.(findMatchingRedirect := redirects))
  {
  }

  /**
   * A matching redirect on a cache miss answers the redirect and caches
   * nothing. Without the site helper the target is passed on untyped. With
   * it, the classified target and its type are answered, and that type is
   * never "external-site". A target without a site id is refused with 400.
   */
  lemma RouteRedirect(path: Option<string>, site: string, cache: Cache, s: Services, redirect: Redirect)
    requires PathGiven(path) && s.failure.None? && CacheId(path.value, site, s.hash) !in cache
    requires path.value != "/" && s.findMatchingRedirect(path.value) == Some(redirect)
    ensures var r := Route(path, site, cache, s);
      var c := Classify(redirect.url, site, s.siteBaseUrl);
      r.cache == cache && Lookup(r.response, DataIdPath) == Some(Str(CacheId(path.value, site, s.hash))) &&
      (!s.hasSiteHelper ==>
        r.code == HttpOk && Lookup(r.response, ErrorsPath) == None &&
        Lookup(r.response, AttributesPath) == Some(RedirectAttributes(redirect.statusCode, Null, redirect.url))) &&
      (s.hasSiteHelper && c.MissingSiteId? ==>
        r.code == HttpBadRequest && Lookup(r.response, AttributesPath) == None &&
        Lookup(r.response, ErrorsPath) == Some(ListOf([Str(SiteIdRequired)]))) &&
      (s.hasSiteHelper && c.Classified? ==>
        r.code == HttpOk && Lookup(r.response, ErrorsPath) == None && c.kind != ExternalSite &&
        Lookup(r.response, AttributesPath) == Some(RedirectAttributes(redirect.statusCode, Str(KindName(c.kind)), c.url)))
  {
    var cid := CacheId(path.value, site, s.hash);
    var response := Identified(s.selfLink, cid);
    IdentifiedResponse(s.selfLink, cid);
    var c := Classify(redirect.url, site, s.siteBaseUrl);
    if !s.hasSiteHelper {
      SucceededReads(response, RedirectAttributes(redirect.statusCode, Null, redirect.url));
    } else if c.MissingSiteId? {
      WithErrorReads(response, SiteIdRequired);
    } else {
      SucceededReads(response, RedirectAttributes(redirect.statusCode, Str(KindName(c.kind)), c.url));
    }
  }

  /** A redirect to a page of the requested site answers it as internal, without the site prefix. */
  lemma RouteRedirectOwnSite(path: Option<string>, site: string, cache: Cache, s: Services, rest: string, statusCode: int)
    requires PathGiven(path) && s.failure.None? && CacheId(path.value, site, s.hash) !in cache
    requires path.value != "/" && s.findMatchingRedirect(path.value) == Some(Redirect(SitePrefix(site) + rest, statusCode))
    requires s.hasSiteHelper && '/' !in site && (rest == "" || rest[0] == '/')
    ensures var r := Route(path, site, cache, s);
      r.code == HttpOk &&
      Lookup(r.response, AttributesPath) == Some(RedirectAttributes(statusCode, Str("internal"), if rest == "" then "/" else rest))
  {
    ClassifyOwnSite(site, rest, s.siteBaseUrl);
    RouteRedirect(path, site, cache, s, Redirect(SitePrefix(site) + rest, statusCode));
  }

  /** A redirect to a page of another site answers it as external, on that site's base URL. */
  lemma RouteRedirectOtherSite(path: Option<string>, site: string, cache: Cache, s: Services, id: string, rest: string, statusCode: int)
    requires PathGiven(path) && s.failure.None? && CacheId(path.value, site, s.hash) !in cache
    requires path.value != "/" && s.findMatchingRedirect(path.value) == Some(Redirect(SitePrefix(id) + rest, statusCode))
    requires s.hasSiteHelper && '/' !in id && id != site && IsNumeric(id) && (rest == "" || rest[0] == '/')
    ensures var r := Route(path, site, cache, s);
      r.code == HttpOk &&
      Lookup(r.response, AttributesPath) == Some(RedirectAttributes(statusCode, Str("external"), s.siteBaseUrl(id) + rest))
  {
    ClassifyOtherSite(site, id, rest, s.siteBaseUrl);
    RouteRedirect(path, site, cache, s, Redirect(SitePrefix(id) + rest, statusCode));
  }

  /** The GET_ROUTE event has no subscriber that changes anything: it passes code and response on, as ok. */
  ghost predicate NoSubscribers(s: Services) {
    forall x, e, c :: s.dispatch(x, e, c) == EventResult(c, x, true)
  }

  /** A request that reaches the alias stage: a path, no exception, a cache miss and no redirect to follow. */
  predicate ReachesAlias(path: Option<string>, site: string, cache: Cache, s: Services) {
    PathGiven(path) && s.failure.None? && CacheId(path.value, site, s.hash) !in cache &&
    (path.value == "/" || s.findMatchingRedirect(path.value).None?)
  }

  /**
   * The alias stage never ends with 400, so the event is always
   * dispatched. It ends with 200 exactly when the path leads to an
   * accessible URL with an entity, which is then answered and cached
   * under `cid` with the entity's tags. An inaccessible URL gives 403
   * and an error. An unknown path, or an URL without an entity, keeps
   * the response and 404. Otherwise nothing is cached.
   */
  lemma ResolveAliasOutcome(response: Value, path: string, cid: string, cache: Cache, s: Services)
    ensures var res := ResolveAlias(response, path, cid, cache, s);
      var url := s.findUrlFromPath(s.pathByAlias(path));
      res.code in {HttpOk, HttpForbidden, HttpNotFound} &&
      (res.code == HttpOk <==> url.Some? && s.access(url.value) && s.findEntityFromUrl(url.value).Some?) &&
      (res.code == HttpOk ==>
        var e := s.findEntityFromUrl(url.value).value;
        var attributes := EntityAttributes(e, s.findEndpoint(e));
        res.entity == Some(e) && res.cache == cache[cid := CacheEntry(attributes, url.value, e.cacheTags)] &&
        Lookup(res.response, AttributesPath) == Some(attributes) && Lookup(res.response, ErrorsPath) == None) &&
      (res.code != HttpOk ==> res.entity == None && res.cache == cache) &&
      (res.code == HttpForbidden <==> url.Some? && !s.access(url.value)) &&
      (res.code == HttpForbidden ==> Lookup(res.response, ErrorsPath) == Some(ListOf([Str(PermissionDenied)]))) &&
      (res.code == HttpNotFound ==> res.response == response) &&
      Lookup(res.response, DataIdPath) == Lookup(response, DataIdPath) &&
      Lookup(res.response, EntityIdPath) == Lookup(response, EntityIdPath)
  {
    var url := s.findUrlFromPath(s.pathByAlias(path));
    if url.Some? && s.access(url.value) && s.findEntityFromUrl(url.value).Some? {
      var e := s.findEntityFromUrl(url.value).value;
      SucceededReads(response, EntityAttributes(e, s.findEndpoint(e)));
    } else if url.Some? && !s.access(url.value) {
      WithErrorReads(response, PermissionDenied);
    }
  }

  /**
   * After the alias stage the event decides the code. A refusing event
   * caches nothing beyond the alias stage and strips `data.type` and
   * `data.id`. An accepting event's response is answered as it is, and
   * only `cid` of the cache can change. The URL cached then is the
   * canonical URL of the node named by `data.entity_id` of the event's
   * response. When no entity is found there, nothing beyond the alias stage is cached.
   */
  lemma RouteEvent(path: Option<string>, site: string, cache: Cache, s: Services)
    requires ReachesAlias(path, site, cache, s)
    ensures var cid := CacheId(path.value, site, s.hash);
      var res := AliasStage(path.value, site, cache, s);
      var ev := s.dispatch(res.response, res.entity, res.code);
      var r := Route(path, site, cache, s);
      r.code == ev.code &&
      (!ev.ok ==> r.cache == res.cache && Lookup(r.response, DataTypePath) == None && Lookup(r.response, DataIdPath) == None) &&
      (ev.ok ==> r.response == ev.jsonResponse && r.cache - {cid} == cache - {cid}) &&
      (ev.ok && s.findEntityFromUrl(s.canonicalNodeUri(LookupOrNull(ev.jsonResponse, EntityIdPath))).None? ==> r.cache == res.cache)
  {
    var cid := CacheId(path.value, site, s.hash);
    var res := AliasStage(path.value, site, cache, s);
    var ev := s.dispatch(res.response, res.entity, res.code);
    ResolveAliasOutcome(Identified(s.selfLink, cid), path.value, cid, cache, s);
    if !ev.ok {
      var stripped := UnsetPath(ev.jsonResponse, DataTypePath);
      LookupUnsetPath(ev.jsonResponse, DataTypePath);
      LookupUnsetPathOther(stripped, DataIdPath, DataTypePath);
      LookupUnsetPath(stripped, DataIdPath);
    } else {
      assert res.cache - {cid} == cache - {cid};
    }
  }

  /**
   * The alias stage hands the event a response without `data.entity_id`
   * (the entity id is under `data.attributes`). An event that passes the
   * response on therefore makes the resolver look up the canonical URL of
   * node NULL.
   */
  lemma AliasStageLacksEntityId(path: string, site: string, cache: Cache, s: Services)
    ensures Lookup(AliasStage(path, site, cache, s).response, EntityIdPath) == None
  {
    var cid := CacheId(path, site, s.hash);
    IdentifiedResponse(s.selfLink, cid);
    ResolveAliasOutcome(Identified(s.selfLink, cid), path, cid, cache, s);
  }

  /**
   * With no subscriber to the event, and no entity behind the canonical URL
   * of node NULL, a path leading to an accessible entity is answered with
   * its attributes and 200, and they are cached under the path's cache id
   * with the entity's URI and tags.
   */
  lemma RouteAliasWithoutSubscribers(path: Option<string>, site: string, cache: Cache, s: Services, uri: string, e: Entity)
    requires ReachesAlias(path, site, cache, s) && NoSubscribers(s)
    requires s.findEntityFromUrl(s.canonicalNodeUri(Null)).None?
    requires s.findUrlFromPath(s.pathByAlias(path.value)) == Some(uri) && s.access(uri) && s.findEntityFromUrl(uri) == Some(e)
    ensures var r := Route(path, site, cache, s);
      var attributes := EntityAttributes(e, s.findEndpoint(e));
      r.code == HttpOk && Lookup(r.response, AttributesPath) == Some(attributes) && Lookup(r.response, ErrorsPath) == None &&
      r.cache == cache[CacheId(path.value, site, s.hash) := CacheEntry(attributes, uri, e.cacheTags)]
  {
    var cid := CacheId(path.value, site, s.hash);
    var res := AliasStage(path.value, site, cache, s);
    ResolveAliasOutcome(Identified(s.selfLink, cid), path.value, cid, cache, s);
    AliasStageLacksEntityId(path.value, site, cache, s);
    assert s.dispatch(res.response, res.entity, res.code) == EventResult(res.code, res.response, true);
    RouteEvent(path, site, cache, s);
  }

  /**
   * The cache changes only under the request's own cache id, only on a
   * cache miss, and never without a path or on an exception.
   */
  lemma RouteCacheFrame(path: Option<string>, site: string, cache: Cache, s: Services)
    ensures var r := Route(path, site, cache, s);
      (!PathGiven(path) || s.failure.Some? ==> r.cache == cache) &&
      (PathGiven(path) ==>
        var cid := CacheId(path.value, site, s.hash);
        r.cache - {cid} == cache - {cid} && (cid in cache ==> r.cache == cache))
  {
    if ReachesAlias(path, site, cache, s) {
      var cid := CacheId(path.value, site, s.hash);
      ResolveAliasOutcome(Identified(s.selfLink, cid), path.value, cid, cache, s);
      RouteEvent(path, site, cache, s);
      var res := AliasStage(path.value, site, cache, s);
      assert res.cache - {cid} == cache - {cid};
    }
  }

  /**
   * Whatever a request cached is answered by the next request for the same
   * path and site: with 200 and the cached attributes, when the user may
   * access the cached URI.
   */
  lemma RouteCacheReplay(path: Option<string>, site: string, cache: Cache, s: Services)
    requires PathGiven(path) && s.failure.None?
    ensures var cid := CacheId(path.value, site, s.hash);
      var cache' := Route(path, site, cache, s).cache;
      var again := Route(path, site, cache', s);
      cid in cache' && s.access(cache'[cid].uri) ==>
        again.code == HttpOk && Lookup(again.response, AttributesPath) == Some(cache'[cid].jsonResponse) && again.cache == cache'
  {
    var cid := CacheId(path.value, site, s.hash);
    var cache' := Route(path, site, cache, s).cache;
    if cid in cache' {
      RouteCacheHit(path, site, cache', s);
    }
  }
}
