/** Properties of the gateway that relate several of its operations, or that
    pin down the behaviour at its edges: the fixed route policy, the open
    guard when no key is configured, what the health probe reveals, the
    validation that runs before either backend, and the absence of any SQL
    operation whitelist. */
module GatewayProperties {
  import opened Wrappers
  import opened Php
  import opened Site
  import opened Rest
  import opened Gateway

  // ---- Route policy ----

  /** Exactly four (namespace, path, method) triples reach a handler, and only
      the health probe skips the key check. */
  lemma RoutePolicy(namespace: string, path: string, httpMethod: string)
    ensures var route := FindRoute(OptionsAccess.RegisterApiEndpoints(), namespace, path, httpMethod);
            && (route.Some? <==>
                  namespace == Namespace &&
                  ((path == "/site-info" && httpMethod == "GET") ||
                   (path == "/health" && httpMethod == "GET") ||
                   (path == "/run-sql" && httpMethod == "POST") ||
                   (path == "/run-php" && httpMethod == "POST")))
            && (route.Some? ==> (route.value.permission == Open <==> path == "/health"))
            && (route.Some? && path == "/site-info" ==> route.value.handler == SiteInfoHandler)
            && (route.Some? && path == "/health" ==> route.value.handler == HealthHandler)
            && (route.Some? && path == "/run-sql" ==> route.value.handler == SqlHandler)
            && (route.Some? && path == "/run-php" ==> route.value.handler == PhpHandler)
  {
    var routes := OptionsAccess.RegisterApiEndpoints();
    var route := FindRoute(routes, namespace, path, httpMethod);
    if route.Some? {
      var k :| 0 <= k < |routes| && routes[k] == route.value;
    }
  }

  // ---- The permission check ----

  /** A request without an `api_key` parameter is treated exactly like one
      that supplies the empty string. */
  lemma AbsentKeyIsEmptyKey(gateway: OptionsAccess)
    ensures gateway.CheckPermission(None) == gateway.CheckPermission(Some(""))
  {
  }

  /** With no key configured (the option unset or saved empty), a request
      that supplies no key passes the check. The second clause is the premise
      of the 403 clause of `Serve`, so `Serve` never refuses such a request and
      every guarded route is open. */
  lemma UnsetKeyOpensGuardedRoutes(gateway: OptionsAccess, req: Request)
    requires gateway.apiKey == "" && req.apiKeyParam.None?
    ensures gateway.CheckPermission(QueryApiKey(req)) == Granted
    ensures Guarded(req) ==> ProvidedKey(QueryApiKey(req)) == gateway.apiKey
  {
  }

  /** A configured key with a quote, a double quote, a backslash or a NUL in
      it is refused when the client sends it exactly as configured: the
      client's copy reaches `$_GET` with slashes added, so the permission check
      refuses it and the health probe calls it invalid. */
  lemma QuotedKeyNeverMatches(gateway: OptionsAccess, req: Request, now: string)
    requires exists k :: 0 <= k < |gateway.apiKey| && NeedsSlash(gateway.apiKey[k])
    requires req.apiKeyParam == Some(gateway.apiKey)
    ensures gateway.CheckPermission(QueryApiKey(req)) == Denied(Forbidden)
    ensures gateway.GetHealthCheck(QueryApiKey(req), now).body.apiKeyValid == Some(false)
  {
  }

  /** A request passes the check only if its key, with slashes added, is the
      configured key: a configured key can only ever be matched when it is
      `addslashes` of some string. */
  lemma KeyMatchesOnlyWhenSlashed(gateway: OptionsAccess, req: Request)
    requires req.apiKeyParam.Some?
    requires gateway.CheckPermission(QueryApiKey(req)) == Granted
    ensures gateway.apiKey == AddSlashes(req.apiKeyParam.value)
  {
  }

  /** A configured key that is `addslashes` of some string is matched by the
      client that sends that string, and by no other: `stripslashes` of the
      configured key is the one key that works. The configured key `\'` is
      matched by the client key `'`. */
  lemma SlashedKeyMatchesItsSource(gateway: OptionsAccess, req: Request, client: string)
    requires gateway.apiKey == AddSlashes(client)
    requires req.apiKeyParam.Some?
    ensures gateway.CheckPermission(QueryApiKey(req)) == Granted <==> req.apiKeyParam.value == client
  {
    StripAddSlashes(client);
    StripAddSlashes(req.apiKeyParam.value);
  }

  /** A NUL sent by the client reaches `$_GET` as a backslash and `0`, so it
      matches the configured key made of those two characters. */
  lemma NulKeyMatchesBackslashZero(gateway: OptionsAccess, req: Request)
    requires gateway.apiKey == ['\\', '0']
    requires req.apiKeyParam == Some([0 as char])
    ensures gateway.CheckPermission(QueryApiKey(req)) == Granted
  {
    assert AddSlashes([0 as char]) == ['\\', '0'] + AddSlashes([]);
  }

  /** A configured key without such characters reaches `$_GET` unchanged, so
      the client that sends it is granted. */
  lemma PlainKeyMatches(gateway: OptionsAccess, req: Request)
    requires forall k :: 0 <= k < |gateway.apiKey| ==> !NeedsSlash(gateway.apiKey[k])
    requires req.apiKeyParam == Some(gateway.apiKey)
    ensures gateway.CheckPermission(QueryApiKey(req)) == Granted
  {
  }

  /** With a key configured, a request that supplies none is refused. */
  lemma ConfiguredKeyRefusesMissingParam(gateway: OptionsAccess)
    requires gateway.apiKey != ""
    ensures gateway.CheckPermission(None) == Denied(Forbidden)
  {
  }

  // ---- What the health probe reveals ----

  /** Whenever the probe reports on the key, it reports exactly the verdict the
      permission check would give for that key. */
  lemma HealthAgreesWithGuard(gateway: OptionsAccess, apiKeyParam: Option<string>, now: string)
    requires !Empty(ProvidedKey(apiKeyParam))
    ensures gateway.GetHealthCheck(apiKeyParam, now).body.apiKeyValid
            == Some(gateway.CheckPermission(apiKeyParam).Granted?)
  {
  }

  /** The key "0" is `empty()`: even when it is the configured key and passes
      the permission check, the probe says nothing about it. */
  lemma HealthSilentOnZeroKey(gateway: OptionsAccess, now: string)
    requires gateway.apiKey == "0"
    ensures gateway.CheckPermission(Some("0")) == Granted
    ensures gateway.GetHealthCheck(Some("0"), now).body.apiKeyValid == None
  {
  }

  /** The probe's three documented cases: a matching key, a wrong key, no key. */
  lemma HealthExamples(gateway: OptionsAccess, now: string)
    requires gateway.apiKey == "x"
    ensures gateway.GetHealthCheck(Some("x"), now).body.apiKeyValid == Some(true)
    ensures gateway.GetHealthCheck(Some("y"), now).body.apiKeyValid == Some(false)
    ensures gateway.GetHealthCheck(None, now).body.apiKeyValid == None
  {
  }

  // ---- Validation before the backends ----

  /** A missing or `empty()` query is refused whatever the database would do:
      the database is not consulted. */
  lemma RejectedQueryNeverReachesDatabase(gateway: OptionsAccess, jsonParams: map<string, string>, db1: Database, db2: Database)
    requires Empty(Param(jsonParams, "query"))
    ensures gateway.RunSqlQuery(jsonParams, db1) == gateway.RunSqlQuery(jsonParams, db2) == Error(InvalidQuery)
  {
  }

  /** Missing or `empty()` code is refused whatever `eval` would do: nothing is
      evaluated. */
  lemma RejectedCodeNeverReachesEval(gateway: OptionsAccess, jsonParams: map<string, string>, eval1: Evaluator, eval2: Evaluator)
    requires Empty(Param(jsonParams, "code"))
    ensures gateway.RunPhpCode(jsonParams, eval1) == gateway.RunPhpCode(jsonParams, eval2) == Error(InvalidCode)
  {
  }

  /** The query "0" is `empty()` and is refused, although it is a valid SQL
      expression. */
  lemma ZeroQueryRefused(gateway: OptionsAccess, db: Database)
    ensures gateway.RunSqlQuery(map["query" := "0"], db) == Error(InvalidQuery)
  {
  }

  // ---- No SQL operation whitelist ----

  /** The computed operation never matters: two accepted queries the database
      answers alike get the same reply, whatever their leading keyword. */
  lemma OperationHasNoEffect(gateway: OptionsAccess, params1: map<string, string>, params2: map<string, string>, db: Database)
    requires !Empty(Param(params1, "query")) && !Empty(Param(params2, "query"))
    requires db(Param(params1, "query")) == db(Param(params2, "query"))
    ensures gateway.RunSqlQuery(params1, db) == gateway.RunSqlQuery(params2, db)
  {
  }

  /** A statement outside the whitelist's operations is run, and its result
      returned, like any other. */
  lemma MutatingQueryRuns(gateway: OptionsAccess, db: Database)
    requires db("DROP TABLE wp_users").results.Some?
    ensures Operation("DROP TABLE wp_users") !in AllowedOperations
    ensures gateway.RunSqlQuery(map["query" := "DROP TABLE wp_users"], db)
            == Response(200, RowsBody(db("DROP TABLE wp_users").results.value))
  {
    OperationOfPlainQuery("DROP TABLE wp_users", "DROP T");
  }

  /** The operation of a query that has no surrounding whitespace and starts
      with six characters that are not lower-case letters is those six. */
  lemma OperationOfPlainQuery(query: string, op: string)
    requires |query| >= 6 && op == query[..6]
    requires !IsTrimmed(query[0]) && !IsTrimmed(query[|query| - 1])
    requires forall k :: 0 <= k < 6 ==> !('a' <= op[k] <= 'z')
    ensures Operation(query) == op
  {
    assert TrimStart(query) == query;
    assert TrimEnd(query) == query;
    assert Prefix(Trim(query), 6) == op;
  }

  /** The disabled whitelist compares the first six characters with whole
      keywords, so had it been enabled it would have let through a SELECT but
      refused SHOW and DESCRIBE statements. */
  lemma DisabledWhitelistReadsSixCharacters()
    ensures Operation("SELECT * FROM wp_posts") in AllowedOperations
    ensures Operation("SHOW TABLES") !in AllowedOperations
    ensures Operation("DESCRIBE wp_posts") !in AllowedOperations
  {
    OperationOfPlainQuery("SELECT * FROM wp_posts", "SELECT");
    OperationOfPlainQuery("SHOW TABLES", "SHOW T");
    OperationOfPlainQuery("DESCRIBE wp_posts", "DESCRI");
  }

  // ---- The snapshot ----

  /** A sidebar that has no widgets assigned lists no widgets. */
  lemma UnassignedSidebarListsNothing(sidebar: Sidebar, assignments: map<string, seq<string>>,
                                      registry: map<string, string>)
    requires sidebar.id !in assignments
    ensures SidebarRecordOf(sidebar, assignments, registry).widgets == []
  {
  }

  /** Each plugin record is active exactly when its path is in the active list. */
  lemma PluginActiveIffListed(installed: seq<InstalledPlugin>, active: seq<string>, info: seq<PluginRecord>, k: nat)
    requires IsPluginInfo(installed, active, info) && k < |installed|
    ensures info[k].isActive <==> installed[k].path in active
  {
  }

  /** Every section of the snapshot is a function of the site data, so two
      requests over unchanged data get equal snapshots. */
  lemma SnapshotSectionsDetermined(site: SiteData, s1: Snapshot, s2: Snapshot)
    requires IsPluginInfo(site.plugins, site.activePlugins, s1.pluginInfo)
    requires IsPluginInfo(site.plugins, site.activePlugins, s2.pluginInfo)
    requires IsPostInfo(site.posts, site.authorNames, s1.posts)
    requires IsPostInfo(site.posts, site.authorNames, s2.posts)
    requires IsMenuInfo(site.menus, site.menuLocations, s1.menus)
    requires IsMenuInfo(site.menus, site.menuLocations, s2.menus)
    requires IsWidgetInfo(site.sidebars, site.sidebarsWidgets, site.registeredWidgets, s1.widgets)
    requires IsWidgetInfo(site.sidebars, site.sidebarsWidgets, site.registeredWidgets, s2.widgets)
    ensures s1.pluginInfo == s2.pluginInfo && s1.posts == s2.posts
    ensures s1.menus == s2.menus && s1.widgets == s2.widgets
  {
  }

  /** With no provider data at all, every list section is empty rather than missing. */
  lemma EmptySiteGivesEmptySections(site: SiteData, s: Snapshot)
    requires site.plugins == [] && site.posts == [] && site.menus == [] && site.sidebars == []
    requires IsPluginInfo(site.plugins, site.activePlugins, s.pluginInfo)
    requires IsPostInfo(site.posts, site.authorNames, s.posts)
    requires IsMenuInfo(site.menus, site.menuLocations, s.menus)
    requires IsWidgetInfo(site.sidebars, site.sidebarsWidgets, site.registeredWidgets, s.widgets)
    ensures s.pluginInfo == [] && s.posts == [] && s.menus == [] && s.widgets == []
  {
  }
}
