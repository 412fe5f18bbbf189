# WPSage command gateway, modelled in Dafny

The WPSage WordPress plugin (`wpsage-plugin.php`) exposes four REST routes
under the `wpsage/v1` namespace. An external agent uses them to read a
snapshot of the site, to probe liveness, to run arbitrary SQL and to run
arbitrary PHP. Three of the routes are guarded by one shared API key. The key
is read from the `wpsage_api_key` option when the plugin object is built.

This project models the decision layer of that gateway:

- The plugin class `WPSage_Options_Access` is the Dafny class
  `Gateway.OptionsAccess`. Its one field, `apiKey`, is a `const` captured by
  the constructor.
- The route table is modelled, and so is the strict key comparison of
  `check_permission`.
- Each handler's validation and response shaping is modelled, with the
  database and `eval` as backend values the caller supplies.
- The loops that build the plugin, post, menu and widget sections of the
  site snapshot are methods with loop invariants. They are proved against
  predicates in module `Site`.
- `Gateway.Serve` stands for WordPress's own dispatch. It finds the route,
  runs the permission callback and then runs the handler.

Modules:

- `Wrappers`: `Option`.
- `Php`: the PHP behaviour the decisions depend on: `empty()` on strings
  (`""` and `"0"`), `$x ? $x : ''`, `addslashes`, and `trim`, `substr` and
  `strtoupper` on characters.
- `Site`: the provider data, the snapshot records and the section
  predicates. It also holds the widget-name filter and its lemmas.
- `Rest`: request, reply, error, PHP values, and the two backends.
- `Gateway`: the class, the route table and the dispatch.
- `GatewayProperties`: lemmas that relate operations or pin down edge cases.

Results worth knowing:

- If no key is configured (the option is unset or empty), a request without
  an `api_key` parameter passes the check. All three guarded routes are then
  open (`GatewayProperties.UnsetKeyOpensGuardedRoutes`, `Gateway.Serve`).
- The key `"0"` never gets an `api_key_valid` field from the health probe,
  even when `"0"` is the configured key and passes the check
  (`GatewayProperties.HealthSilentOnZeroKey`). The next section says why.
- `run_sql_query` applies no operation whitelist: a `DROP TABLE` runs like a
  `SELECT`. The whitelist in the source is commented out. It would also have
  been wrong if enabled, because it compares six characters with whole
  keywords. `SHOW TABLES` reads as `SHOW T` and `DESCRIBE x` as `DESCRI`, so
  only SELECT statements would pass
  (`GatewayProperties.DisabledWhitelistReadsSixCharacters`). The model keeps
  the whitelist disabled, as the source has it.

Three checks use PHP's `empty()`, under which `"0"` counts as empty:

- The health probe tests `!empty($provided_key)` (wpsage-plugin.php:89), so the
  key `"0"` is treated as absent.
- The query check (line 102) and the code check (line 127) also use `empty()`,
  so the query `"0"` and the code `"0"` are refused with 400.

The plugin reads the key from `$_GET['api_key']` (lines 54 and 88). Before
WordPress dispatches a REST request, and so before `check_permission` and
`get_health_check` run, it passes every `$_GET` value through `addslashes()`.
So the plugin sees the client's key with a backslash before each quote, double
quote and backslash, and each NUL written as a backslash and `0`.
`Gateway.Serve` applies that step (`Gateway.QueryApiKey`). Consequences:

- A configured key that contains one of those characters is refused when the
  client sends it exactly as configured, and the health probe calls it invalid
  (`GatewayProperties.QuotedKeyNeverMatches`).
- A configured key can only be matched if it is `addslashes` of some string
  (`GatewayProperties.KeyMatchesOnlyWhenSlashed`). When it is, exactly one
  client key works: its `stripslashes` (`GatewayProperties.SlashedKeyMatchesItsSource`).
  For example, the configured key `\'` is matched by the client key `'`, and the
  configured key `\0` by a client NUL (`GatewayProperties.NulKeyMatchesBackslashZero`).

## Model

| member | source | states |
|---|---|---|
| `Gateway.OptionsAccess.constructor` | wpsage-plugin.php:20-21 | the key is the stored `wpsage_api_key` option, or `""` when the option does not exist |
| `Gateway.OptionsAccess.RegisterApiEndpoints` | wpsage-plugin.php:27-51 | four routes, all in `wpsage/v1`; a route is open exactly when it is the health route |
| `Gateway.FindRoute` | wpsage-plugin.php:27-51 | a found route is registered and matches namespace, path and method; nothing is found exactly when no registered route matches |
| `GatewayProperties.RoutePolicy` | wpsage-plugin.php:27-51 | exactly GET /site-info, GET /health, POST /run-sql and POST /run-php reach a handler, each its own; only /health skips the key check |
| `Gateway.OptionsAccess.CheckPermission` | wpsage-plugin.php:53-59 | granted iff the supplied key (`""` when the parameter is absent) equals the stored key; otherwise the 403 `rest_forbidden` "Invalid API Key" error |
| `Gateway.ProvidedKey` | wpsage-plugin.php:54 | the supplied key is the parameter's value, or `""` when the parameter is absent |
| `Php.AddSlashes` | wpsage-plugin.php:54 | `addslashes`: a backslash before each quote, double quote and backslash, a NUL written as backslash and `0`; never shorter than the input, longer exactly when the input holds such a character, otherwise unchanged |
| `Php.StripAddSlashes` | wpsage-plugin.php:54 | `stripslashes` undoes `addslashes`, so two different client keys never reach `$_GET` as the same string |
| `Gateway.QueryApiKey` | wpsage-plugin.php:54 | `$_GET['api_key']` is present exactly when the client sent the parameter, and then it is the client's value with slashes added |
| `GatewayProperties.QuotedKeyNeverMatches` | wpsage-plugin.php:53-59 | a configured key containing a quote, double quote, backslash or NUL, sent exactly as configured, is refused with 403, and the health probe reports it invalid |
| `GatewayProperties.KeyMatchesOnlyWhenSlashed` | wpsage-plugin.php:53-59 | a request passes the check only if the configured key is its key with slashes added |
| `GatewayProperties.SlashedKeyMatchesItsSource` | wpsage-plugin.php:53-59 | a configured key that is `addslashes(c)` is granted to exactly the client key `c` |
| `GatewayProperties.NulKeyMatchesBackslashZero` | wpsage-plugin.php:53-59 | the configured key backslash-`0` is granted to a client that sends a NUL |
| `GatewayProperties.PlainKeyMatches` | wpsage-plugin.php:53-59 | a configured key without such characters, sent verbatim, is granted |
| `GatewayProperties.AbsentKeyIsEmptyKey` | wpsage-plugin.php:54 | a missing `api_key` parameter is judged exactly like an empty one |
| `GatewayProperties.UnsetKeyOpensGuardedRoutes` | wpsage-plugin.php:53-59 | with the stored key `""`, a request with no key passes the check on every guarded route |
| `GatewayProperties.ConfiguredKeyRefusesMissingParam` | wpsage-plugin.php:53-59 | with a non-empty stored key, a request with no key gets the 403 error |
| `Gateway.OptionsAccess.GetHealthCheck` | wpsage-plugin.php:81-94 | always 200 with status `ok`, the fixed message and the given timestamp; `api_key_valid` is present iff the supplied key is not `empty()`, and then it is `supplied == stored` |
| `Php.Empty` | wpsage-plugin.php:89 | `empty()` on a string: an empty string has at most one character, and that character is `0` |
| `GatewayProperties.HealthAgreesWithGuard` | wpsage-plugin.php:88-90 | when the probe reports on a key, it reports exactly the permission check's verdict for it |
| `GatewayProperties.HealthSilentOnZeroKey` | wpsage-plugin.php:88-91 | with stored key `"0"`, the key `"0"` passes the check, yet the probe omits `api_key_valid` |
| `GatewayProperties.HealthExamples` | wpsage-plugin.php:81-94 | stored `"x"`: key `"x"` gives true, key `"y"` gives false, no key gives no field |
| `Gateway.OptionsAccess.RunSqlQuery` | wpsage-plugin.php:96-121 | an `empty()` or missing query gives 400 `invalid_query`; otherwise a 200 reply iff the store returns rows, carrying those rows unchanged, and a 500 `query_error` with the store's last error otherwise |
| `Gateway.Param` | wpsage-plugin.php:100 | a body field's value, or `""` when the field is absent or `null` |
| `GatewayProperties.RejectedQueryNeverReachesDatabase` | wpsage-plugin.php:99-104 | a refused query gets the same 400 reply whatever the database would answer, so the database is not consulted |
| `GatewayProperties.ZeroQueryRefused` | wpsage-plugin.php:100-104 | the query `"0"` is refused with 400 |
| `Gateway.Operation` | wpsage-plugin.php:108 | the computed operation has at most six characters |
| `GatewayProperties.OperationHasNoEffect` | wpsage-plugin.php:106-120 | two accepted queries the database answers alike get the same reply, whatever their operation |
| `GatewayProperties.MutatingQueryRuns` | wpsage-plugin.php:106-120 | `DROP TABLE wp_users` is outside the whitelist's operations and still runs, its rows returned with 200 |
| `GatewayProperties.OperationOfPlainQuery` | wpsage-plugin.php:108 | a query with no surrounding whitespace whose first six characters are not lower-case letters has those six characters as its operation |
| `GatewayProperties.DisabledWhitelistReadsSixCharacters` | wpsage-plugin.php:107-112 | under the commented-out whitelist, a SELECT statement would pass but SHOW and DESCRIBE statements would not |
| `Gateway.OptionsAccess.RunPhpCode` | wpsage-plugin.php:123-142 | refused with 400 `invalid_code` iff the code is missing or `empty()`; otherwise 200 with exactly the output and return value of evaluating that code |
| `GatewayProperties.RejectedCodeNeverReachesEval` | wpsage-plugin.php:124-129 | refused code gets the same 400 reply whatever `eval` would do, so nothing is evaluated |
| `Php.OrEmpty` | wpsage-plugin.php:340-349 | `""` iff the accessor value is falsy (`false`, `""`, `"0"`), else that value; never `"0"` |
| `Gateway.OptionsAccess.GetFavicon` | wpsage-plugin.php:340-343 | `""` iff the site icon URL is falsy, otherwise that URL |
| `Gateway.OptionsAccess.GetSiteLogo` | wpsage-plugin.php:345-349 | `""` iff the logo image URL is falsy, otherwise that URL |
| `Php.TrimStart` | wpsage-plugin.php:108 | `ltrim`: a suffix of the input that starts with no blank, and everything removed is blank |
| `Php.TrimEnd` | wpsage-plugin.php:108 | `rtrim`: a prefix of the input that ends with no blank, and everything removed is blank |
| `Php.Trim` | wpsage-plugin.php:108 | `trim`: no longer than the input, with no strippable character at either end |
| `Php.Prefix` | wpsage-plugin.php:108 | `substr($s, 0, $n)` on characters: a prefix of the input whose length is the smaller of n and the input length |
| `Php.ToUpper` | wpsage-plugin.php:108 | `strtoupper` as in PHP 8.2 and later: same length, each character upper-cased on its own |
| `Gateway.OptionsAccess.GetPluginInfo` | wpsage-plugin.php:175-193 | one record per installed plugin, in order, with its header fields and `is_active` |
| `GatewayProperties.PluginActiveIffListed` | wpsage-plugin.php:189 | a plugin record is active iff the plugin's path is in the active-plugins list |
| `Site.AuthorName` | wpsage-plugin.php:208 | the author's display name, or `""` for an unknown user |
| `Gateway.OptionsAccess.GetWordpressPosts` | wpsage-plugin.php:195-213 | one record per post the provider returned, in order |
| `Gateway.OptionsAccess.GetMenuInfo` | wpsage-plugin.php:303-315 | one record per menu, in order, each carrying the whole theme-location map |
| `Gateway.OptionsAccess.GetWidgetInfo` | wpsage-plugin.php:317-338 | one record per registered sidebar, in registry order, with its name, its id and the names of its assigned, registered widgets |
| `Site.RegisteredNames` | wpsage-plugin.php:324-329 | the listed names are no more than the assigned ids |
| `Site.RegisteredNamesAppend` | wpsage-plugin.php:325-329 | filtering distributes over concatenation of the assigned ids |
| `Site.RegisteredNamesMember` | wpsage-plugin.php:324-329 | a name is listed iff some assigned id is registered under it |
| `Site.RegisteredNamesAllKnown` | wpsage-plugin.php:325-329 | when every assigned id is registered, the list is their names, position by position |
| `Site.RegisteredNamesNoneKnown` | wpsage-plugin.php:325-329 | when no assigned id is registered, the list is empty |
| `Site.RegisteredNamesKeepOrder` | wpsage-plugin.php:325-329 | two registered ids keep their assignment order in the list |
| `GatewayProperties.UnassignedSidebarListsNothing` | wpsage-plugin.php:324 | a sidebar with no assignment lists no widgets |
| `Gateway.OptionsAccess.GetSiteInfo` | wpsage-plugin.php:61-79 | always 200 with the nine-key snapshot: agent name `WPSage`, general and theme info as read, each list section as its predicate states, favicon and logo with their fallback |
| `GatewayProperties.SnapshotSectionsDetermined` | wpsage-plugin.php:61-79 | the list sections are determined by the site data, so repeated requests over unchanged data get equal snapshots |
| `GatewayProperties.EmptySiteGivesEmptySections` | wpsage-plugin.php:61-79 | with no provider data, every list section is empty, not missing |
| `Gateway.Serve` | wpsage-plugin.php:27-59 | no registered route gives no reply of the plugin's own; the 403 error is returned iff the route is guarded and the key in `$_GET` is not the stored one; /health always reaches its handler with that key; with the right key, /site-info returns 200 with the snapshot of the site data, and /run-sql and /run-php return their handler's reply |

## Left out

- `eval` and output buffering are the `Evaluator` parameter. Faults raised by the evaluated code, and its side effects, are not modelled.
- `$wpdb->get_results` and `$wpdb->last_error` are the `Database` parameter.
- The WordPress accessors are fields of `SiteData`. Their values are taken as given.
- The 10-post limit and the post order are query arguments to WordPress, not logic of the plugin.
- `get_general_info` and `get_theme_info` only copy accessor values into fixed keys. Their results are the records `GeneralInfo` and `ThemeInfo`.
- `get_site_logo` reads a theme mod and then an attachment URL. Both calls are one input, `logoUrl`.
- `wp_get_sidebars_widgets()` is called once per sidebar in the source. The model reads it once, assuming it does not change during a request.
- `current_time('mysql')` is the `now` input of the health probe.
- The hook wiring, the admin menu, the settings registration and the settings page are left out. They are framework plumbing and HTML.
- `get_wordpress_pages`, `get_user_info`, `get_media_info`, `get_comment_info` and `get_taxonomy_info` are left out. No route reaches them, because their lines in `get_site_info` are commented out.
- Only string values are modelled for the `query` and `code` fields and the `api_key` parameter. A JSON `null` counts as absent, as `isset` treats it.
- `Rest.Value` has no floating-point case.
- Php.Prefix: strings are modelled as sequences of characters, not bytes. `Prefix` agrees with `substr` only on ASCII. For a query that starts with multi-byte UTF-8 characters, `substr($q, 0, 6)` keeps six bytes, while `Prefix` keeps six characters. `$operation` is never used, so no reply depends on this.
- Php.ToUpper: it models the locale-independent `strtoupper` of PHP 8.2 and later. Before 8.2 the result depended on the locale.
- `addslashes()` on `$_GET` is done by WordPress core (`wp_magic_quotes()`, before REST dispatch), not by this plugin. The model takes that step as given in `Gateway.QueryApiKey`.
- Gateway.Serve: route matching is exact and case-sensitive. WordPress's case-insensitive path match, HEAD-as-GET handling, trailing-slash handling and argument validation are not modelled. Its "no route" reply is only marked `Unrouted`.
- Gateway.OptionsAccess.GetPluginInfo: `in_array` compares loosely, but the model compares paths exactly. For two strings, PHP's `==` differs from `===` only when both are numeric strings. Plugin paths end in `.php`, so they never are.
- Gateway.OptionsAccess.GetSiteInfo: the nine snapshot keys are fixed by the `Snapshot` datatype's fields, so no contract lists them one by one.
- Concurrency and timeouts are not modelled. The source has neither.
