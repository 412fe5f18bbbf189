/** The authenticated command gateway: the plugin's class with its stored API
    key, its fixed table of four routes, the permission check, the four
    handlers, and the dispatch that ties a request to a handler. */
module Gateway {
  import opened Wrappers
  import opened Php
  import opened Site
  import opened Rest

  const Namespace := "wpsage/v1"

  /** A route's permission callback: the API-key check, or `__return_true`. */
  datatype Permission = ApiKeyCheck | Open

  /** A route's callback. */
  datatype Handler = SiteInfoHandler | HealthHandler | SqlHandler | PhpHandler

  datatype Route = Route(namespace: string, path: string, httpMethod: string, permission: Permission, handler: Handler)

  predicate Matches(route: Route, namespace: string, path: string, httpMethod: string) {
    route.namespace == namespace && route.path == path && route.httpMethod == httpMethod
  }

  /** The first route of `routes` registered for this namespace, path and method. */
  function FindRoute(routes: seq<Route>, namespace: string, path: string, httpMethod: string): (found: Option<Route>)
    ensures found.Some? ==> found.value in routes && Matches(found.value, namespace, path, httpMethod)
    ensures found.None? <==> forall k :: 0 <= k < |routes| ==> !Matches(routes[k], namespace, path, httpMethod)
  {
    if routes == [] then None
    else if Matches(routes[0], namespace, path, httpMethod) then Some(routes[0])
    else FindRoute(routes[1..], namespace, path, httpMethod)
  }

  /** The outcome of a permission callback: `true`, or the error to send back. */
  datatype Verdict = Granted | Denied(error: WpError)

  const Forbidden := WpError("rest_forbidden", "Invalid API Key", 403)
  const InvalidQuery := WpError("invalid_query", "SQL query is required", 400)
  const InvalidCode := WpError("invalid_code", "PHP code is required", 400)
  const HealthMessage := "WPSage API is functioning correctly"

  /** The key a request supplies: its `api_key` query parameter, or the empty
      string when there is none. */
  function ProvidedKey(apiKeyParam: Option<string>): (key: string)
    ensures apiKeyParam.None? ==> key == ""
    ensures apiKeyParam.Some? ==> key == apiKeyParam.value
  {
    apiKeyParam.GetOr("")
  }

  /** `$_GET['api_key']` as the permission check and the health probe read it:
      before WordPress dispatches a REST request it has passed every `$_GET`
      value through `addslashes()` (its "magic quotes"), so this is the
      client's value with a backslash before each quote, double quote and
      backslash, and each NUL written as a backslash and `0`. */
  function QueryApiKey(req: Request): (param: Option<string>)
    ensures param.None? <==> req.apiKeyParam.None?
    ensures param.Some? ==> param.value == AddSlashes(req.apiKeyParam.value)
  {
    if req.apiKeyParam.None? then None else Some(AddSlashes(req.apiKeyParam.value))
  }

  /** `isset($params[$name]) ? $params[$name] : ''` on the JSON body. */
  function Param(jsonParams: map<string, string>, name: string): (value: string)
    ensures name !in jsonParams ==> value == ""
    ensures name in jsonParams ==> value == jsonParams[name]
  {
    if name in jsonParams then jsonParams[name] else ""
  }

  /** The operations the (disabled) SQL whitelist names. */
  const AllowedOperations := ["SELECT", "SHOW", "DESCRIBE", "DESC"]

  /** `strtoupper(substr(trim($query), 0, 6))`: computed for every query and
      then never used. */
  function Operation(query: string): (op: string)
    ensures |op| <= 6
  {
    ToUpper(Prefix(Trim(query), 6))
  }

  /** The plugin object. Its one piece of state is the API key, read from the
      `wpsage_api_key` option when the object is built and never changed. */
  class OptionsAccess {
    const apiKey: string

    /** Captures `get_option('wpsage_api_key', '')`: the stored option, or the
        empty string when the option does not exist. */
    constructor (storedKey: Option<string>)
      ensures apiKey == storedKey.GetOr("")
    {
      apiKey := storedKey.GetOr("");
    }

    /** The routes `register_api_endpoints` registers, in registration order. */
    static function RegisterApiEndpoints(): (routes: seq<Route>)
      ensures |routes| == 4
      ensures forall k :: 0 <= k < |routes| ==> routes[k].namespace == Namespace
      ensures forall k :: 0 <= k < |routes| ==> (routes[k].permission == Open <==> routes[k].handler == HealthHandler)
    {
      [ Route(Namespace, "/site-info", "GET", ApiKeyCheck, SiteInfoHandler),
        Route(Namespace, "/health", "GET", Open, HealthHandler),
        Route(Namespace, "/run-sql", "POST", ApiKeyCheck, SqlHandler),
        Route(Namespace, "/run-php", "POST", ApiKeyCheck, PhpHandler) ]
    }

    /** `check_permission`: a strict comparison of the supplied key, the value
        of `$_GET['api_key']`, with the stored one. */
    function CheckPermission(apiKeyParam: Option<string>): (v: Verdict)
      ensures v.Granted? <==> ProvidedKey(apiKeyParam) == apiKey
      ensures v.Denied? ==> v.error == Forbidden
    {
      if ProvidedKey(apiKeyParam) != apiKey then Denied(Forbidden) else Granted
    }

    /** `get_health_check`: always a 200 reply; it reports whether the supplied
        key is the stored one only when the supplied key is not `empty()`. */
    function GetHealthCheck(apiKeyParam: Option<string>, now: string): (r: Reply)
      ensures r.Response? && r.status == 200 && r.body.HealthBody?
      ensures r.body.status == "ok" && r.body.message == HealthMessage && r.body.timestamp == now
      ensures r.body.apiKeyValid.Some? <==> !Empty(ProvidedKey(apiKeyParam))
      ensures r.body.apiKeyValid.Some? ==> (r.body.apiKeyValid.value <==> ProvidedKey(apiKeyParam) == apiKey)
    {
      var provided := ProvidedKey(apiKeyParam);
      var valid := if !Empty(provided) then Some(provided == apiKey) else None;
      Response(200, HealthBody("ok", HealthMessage, now, valid))
    }

    /** `run_sql_query`: rejects an `empty()` query, otherwise hands the literal
        query to the database and returns its rows unchanged, or its last error. */
    function RunSqlQuery(jsonParams: map<string, string>, db: Database): (r: Reply)
      ensures var query := Param(jsonParams, "query");
              && (Empty(query) ==> r == Error(InvalidQuery))
              && (!Empty(query) ==>
                    && (r.Response? <==> db(query).results.Some?)
                    && (r.Response? ==> r.status == 200 && r.body == RowsBody(db(query).results.value))
                    && (r.Error? ==> r.error == WpError("query_error", db(query).lastError, 500)))
      ensures !r.Unrouted?
    {
      var query := Param(jsonParams, "query");
      if Empty(query) then Error(InvalidQuery)
      else
        var outcome := db(query);
        if outcome.results.None? then Error(WpError("query_error", outcome.lastError, 500))
        else Response(200, RowsBody(outcome.results.value))
    }

    /** `run_php_code`: rejects `empty()` code, otherwise evaluates it and
        returns what it printed and what it returned. */
    function RunPhpCode(jsonParams: map<string, string>, eval: Evaluator): (r: Reply)
      ensures var code := Param(jsonParams, "code");
              && (Empty(code) <==> r.Error?)
              && (r.Error? ==> r.error == InvalidCode)
              && (r.Response? ==> r.status == 200 &&
                                  r.body == EvaluationBody(eval(code).output, eval(code).returnValue))
      ensures !r.Unrouted?
    {
      var code := Param(jsonParams, "code");
      if Empty(code) then Error(InvalidCode)
      else
        var evaluation := eval(code);
        Response(200, EvaluationBody(evaluation.output, evaluation.returnValue))
    }

    /** `get_favicon`: the site icon URL, or the empty string when the accessor
        gives a falsy value. */
    function GetFavicon(siteIconUrl: Option<string>): (url: string)
      ensures url == "" <==> siteIconUrl.None? || Empty(siteIconUrl.value)
      ensures url != "" ==> siteIconUrl == Some(url)
    {
      OrEmpty(siteIconUrl)
    }

    /** `get_site_logo`: the custom logo's image URL, or the empty string when
        the accessor gives a falsy value. */
    function GetSiteLogo(logoUrl: Option<string>): (url: string)
      ensures url == "" <==> logoUrl.None? || Empty(logoUrl.value)
      ensures url != "" ==> logoUrl == Some(url)
    {
      OrEmpty(logoUrl)
    }

    /** `get_plugin_info`: one record per installed plugin, marked active when
        its path is in the active-plugins list. */
    method GetPluginInfo(installed: seq<InstalledPlugin>, active: seq<string>) returns (info: seq<PluginRecord>)
      ensures IsPluginInfo(installed, active, info)
    {
      info := [];
      for k := 0 to |installed|
        invariant IsPluginInfo(installed[..k], active, info)
      {
        info := info + [PluginRecordOf(installed[k], active)];
      }
      assert installed[..|installed|] == installed;
    }

    /** `get_wordpress_posts`: one record per post the provider returned. */
    method GetWordpressPosts(posts: seq<Post>, authorNames: map<int, string>) returns (data: seq<PostRecord>)
      ensures IsPostInfo(posts, authorNames, data)
    {
      data := [];
      for k := 0 to |posts|
        invariant IsPostInfo(posts[..k], authorNames, data)
      {
        var post := posts[k];
        data := data + [PostRecord(post.id, post.title, post.date, AuthorName(authorNames, post.authorId), post.excerpt)];
      }
      assert posts[..|posts|] == posts;
    }

    /** `get_menu_info`: one record per navigation menu. */
    method GetMenuInfo(menus: seq<NavMenu>, locations: map<string, int>) returns (data: seq<MenuRecord>)
      ensures IsMenuInfo(menus, locations, data)
    {
      data := [];
      for k := 0 to |menus|
        invariant IsMenuInfo(menus[..k], locations, data)
      {
        var menu := menus[k];
        data := data + [MenuRecord(menu.termId, menu.name, menu.slug, locations)];
      }
      assert menus[..|menus|] == menus;
    }

    /** `get_widget_info`: for each registered sidebar, the names of its
        assigned widgets that exist in the widget registry. */
    method GetWidgetInfo(sidebars: seq<Sidebar>, sidebarsWidgets: map<string, seq<string>>,
                         registry: map<string, string>) returns (data: seq<SidebarRecord>)
      ensures IsWidgetInfo(sidebars, sidebarsWidgets, registry, data)
    {
      data := [];
      for k := 0 to |sidebars|
        invariant IsWidgetInfo(sidebars[..k], sidebarsWidgets, registry, data)
      {
        var sidebar := sidebars[k];
        var names: seq<string> := [];
        if sidebar.id in sidebarsWidgets {
          var ids := sidebarsWidgets[sidebar.id];
          for j := 0 to |ids|
            invariant names == RegisteredNames(ids[..j], registry)
          {
            assert ids[..j + 1] == ids[..j] + [ids[j]];
            RegisteredNamesAppend(ids[..j], [ids[j]], registry);
            if ids[j] in registry {
              names := names + [registry[ids[j]]];
            }
          }
          assert ids[..|ids|] == ids;
        }
        data := data + [SidebarRecord(sidebar.name, sidebar.id, names)];
      }
      assert sidebars[..|sidebars|] == sidebars;
    }

    /** `s` is the snapshot of `site`: the agent name, the general and theme
        info as read, each list section as its predicate states, and the
        favicon and logo with their fallback. */
    ghost predicate IsSnapshotOf(site: SiteData, s: Snapshot) {
      && s.agentName == AgentName
      && s.generalInfo == site.general
      && s.themeInfo == site.theme
      && IsPluginInfo(site.plugins, site.activePlugins, s.pluginInfo)
      && IsPostInfo(site.posts, site.authorNames, s.posts)
      && IsMenuInfo(site.menus, site.menuLocations, s.menus)
      && IsWidgetInfo(site.sidebars, site.sidebarsWidgets, site.registeredWidgets, s.widgets)
      && s.favicon == GetFavicon(site.siteIconUrl)
      && s.siteLogo == GetSiteLogo(site.logoUrl)
    }

    /** `get_site_info`: the nine-key snapshot, always with status 200. */
    method GetSiteInfo(site: SiteData) returns (r: Reply)
      ensures r.Response? && r.status == 200 && r.body.SnapshotBody?
      ensures IsSnapshotOf(site, r.body.snapshot)
    {
      var plugins := GetPluginInfo(site.plugins, site.activePlugins);
      var posts := GetWordpressPosts(site.posts, site.authorNames);
      var menus := GetMenuInfo(site.menus, site.menuLocations);
      var widgets := GetWidgetInfo(site.sidebars, site.sidebarsWidgets, site.registeredWidgets);
      var snapshot := Snapshot(AgentName, site.general, site.theme, plugins, posts, menus, widgets,
                               GetFavicon(site.siteIconUrl), GetSiteLogo(site.logoUrl));
      r := Response(200, SnapshotBody(snapshot));
    }
  }

  /** The host side of a request: the site data and the two backends, and
      the clock reading `current_time('mysql')`. */
  datatype Host = Host(site: SiteData, db: Database, eval: Evaluator, now: string)

  /** The registered route a request reaches, if any. */
  function RouteOf(req: Request): Option<Route> {
    FindRoute(OptionsAccess.RegisterApiEndpoints(), req.namespace, req.path, req.httpMethod)
  }

  /** The request reaches a route whose permission callback is the API-key check. */
  predicate Guarded(req: Request) {
    RouteOf(req).Some? && RouteOf(req).value.permission == ApiKeyCheck
  }

  /** The framework's handling of a request: find the registered route, run its
      permission callback, and on `true` run its callback. Both the permission
      check and the health probe see the key as `$_GET` holds it. */
  method Serve(gateway: OptionsAccess, req: Request, host: Host) returns (r: Reply)
    ensures r.Unrouted? <==> RouteOf(req).None?
    ensures r == Error(Forbidden) <==> Guarded(req) && ProvidedKey(QueryApiKey(req)) != gateway.apiKey
    ensures RouteOf(req).Some? && RouteOf(req).value.handler == HealthHandler ==>
              r == gateway.GetHealthCheck(QueryApiKey(req), host.now)
    ensures RouteOf(req).Some? && RouteOf(req).value.handler == SiteInfoHandler &&
            ProvidedKey(QueryApiKey(req)) == gateway.apiKey ==>
              r.Response? && r.status == 200 && r.body.SnapshotBody? &&
              gateway.IsSnapshotOf(host.site, r.body.snapshot)
    ensures RouteOf(req).Some? && RouteOf(req).value.handler == SqlHandler &&
            ProvidedKey(QueryApiKey(req)) == gateway.apiKey ==>
              r == gateway.RunSqlQuery(req.jsonParams, host.db)
    ensures RouteOf(req).Some? && RouteOf(req).value.handler == PhpHandler &&
            ProvidedKey(QueryApiKey(req)) == gateway.apiKey ==>
              r == gateway.RunPhpCode(req.jsonParams, host.eval)
  {
    var route := RouteOf(req);
    if route.None? {
      return Unrouted;
    }
    var apiKeyParam := QueryApiKey(req);
    if route.value.permission == ApiKeyCheck {
      var verdict := gateway.CheckPermission(apiKeyParam);
      if verdict.Denied? {
        return Error(verdict.error);
      }
    }
    match route.value.handler
    case SiteInfoHandler => r := gateway.GetSiteInfo(host.site);
    case HealthHandler => r := gateway.GetHealthCheck(apiKeyParam, host.now);
    case SqlHandler => r := gateway.RunSqlQuery(req.jsonParams, host.db);
    case PhpHandler => r := gateway.RunPhpCode(req.jsonParams, host.eval);
  }
}
