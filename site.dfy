/** The site data the introspection handler reads, and the sections of the
    snapshot it builds from them. Every WordPress accessor becomes a field of
    `SiteData`; the loops that turn accessor results into snapshot sections are
    specified here by predicates over whole sequences, and the methods of
    `Gateway.OptionsAccess` are proved against them. */
module Site {
  import opened Wrappers

  // ---- What the site data provider returns ----

  /** The eleven values `get_general_info` reads from `get_bloginfo`,
      `get_site_url`, `get_home_url` and `get_option`. */
  datatype GeneralInfo = GeneralInfo(
    siteTitle: string, tagline: string, wpVersion: string, siteUrl: string,
    homeUrl: string, adminEmail: string, language: string, timezone: string,
    dateFormat: string, timeFormat: string, postsPerPage: string)

  /** The nine values `get_theme_info` reads from the active theme. */
  datatype ThemeInfo = ThemeInfo(
    name: string, version: string, author: string, authorUri: string,
    template: string, stylesheet: string, screenshot: string,
    description: string, tags: seq<string>)

  /** One entry of `get_plugins()`: the plugin's path (the array key) and its header. */
  datatype InstalledPlugin = InstalledPlugin(
    path: string, name: string, version: string, author: string, description: string)

  /** One published post as `get_posts` returns it, with its excerpt. */
  datatype Post = Post(id: int, title: string, date: string, authorId: int, excerpt: string)

  /** One navigation menu term of `wp_get_nav_menus()`. */
  datatype NavMenu = NavMenu(termId: int, name: string, slug: string)

  /** One entry of the registered-sidebars registry. */
  datatype Sidebar = Sidebar(id: string, name: string)

  /** Everything the snapshot is assembled from, in the provider's own order.
      `sidebarsWidgets` is `wp_get_sidebars_widgets()` (sidebar id to assigned
      widget ids), `registeredWidgets` maps a registered widget id to its name,
      `authorNames` maps a user id to its display name, and the two URLs are
      `None` where the accessor returns `false`. */
  datatype SiteData = SiteData(
    general: GeneralInfo,
    theme: ThemeInfo,
    plugins: seq<InstalledPlugin>,
    activePlugins: seq<string>,
    posts: seq<Post>,
    authorNames: map<int, string>,
    menus: seq<NavMenu>,
    menuLocations: map<string, int>,
    sidebars: seq<Sidebar>,
    sidebarsWidgets: map<string, seq<string>>,
    registeredWidgets: map<string, string>,
    siteIconUrl: Option<string>,
    logoUrl: Option<string>)

  // ---- The snapshot ----

  datatype PluginRecord = PluginRecord(
    name: string, version: string, author: string, description: string, isActive: bool)

  datatype PostRecord = PostRecord(
    id: int, title: string, date: string, author: string, excerpt: string)

  datatype MenuRecord = MenuRecord(
    id: int, name: string, slug: string, locations: map<string, int>)

  datatype SidebarRecord = SidebarRecord(name: string, id: string, widgets: seq<string>)

  /** The body of a `/site-info` response: always these nine keys. */
  datatype Snapshot = Snapshot(
    agentName: string,
    generalInfo: GeneralInfo,
    themeInfo: ThemeInfo,
    pluginInfo: seq<PluginRecord>,
    posts: seq<PostRecord>,
    menus: seq<MenuRecord>,
    widgets: seq<SidebarRecord>,
    favicon: string,
    siteLogo: string)

  const AgentName := "WPSage"

  // ---- Plugins ----

  /** The record for one installed plugin: its header fields, and whether its
      path is in the active-plugins list. */
  function PluginRecordOf(p: InstalledPlugin, active: seq<string>): PluginRecord {
    PluginRecord(p.name, p.version, p.author, p.description, p.path in active)
  }

  /** `info` is the plugin section for these installed and active plugins: one
      record per installed plugin, in the provider's order. */
  ghost predicate IsPluginInfo(installed: seq<InstalledPlugin>, active: seq<string>, info: seq<PluginRecord>) {
    |info| == |installed| &&
    forall k :: 0 <= k < |info| ==> info[k] == PluginRecordOf(installed[k], active)
  }

  // ---- Posts ----

  /** `get_the_author_meta('display_name', id)`: the empty string for an unknown user. */
  function AuthorName(authorNames: map<int, string>, id: int): (name: string)
    ensures id !in authorNames ==> name == ""
    ensures id in authorNames ==> name == authorNames[id]
  {
    if id in authorNames then authorNames[id] else ""
  }

  function PostRecordOf(p: Post, authorNames: map<int, string>): PostRecord {
    PostRecord(p.id, p.title, p.date, AuthorName(authorNames, p.authorId), p.excerpt)
  }

  /** `data` is the post section: one record per post the provider returned, in its order. */
  ghost predicate IsPostInfo(posts: seq<Post>, authorNames: map<int, string>, data: seq<PostRecord>) {
    |data| == |posts| &&
    forall k :: 0 <= k < |data| ==> data[k] == PostRecordOf(posts[k], authorNames)
  }

  // ---- Menus ----

  function MenuRecordOf(m: NavMenu, locations: map<string, int>): MenuRecord {
    MenuRecord(m.termId, m.name, m.slug, locations)
  }

  /** `data` is the menu section: one record per menu, each carrying the whole
      theme-location map, not only the locations of that menu. */
  ghost predicate IsMenuInfo(menus: seq<NavMenu>, locations: map<string, int>, data: seq<MenuRecord>) {
    |data| == |menus| &&
    forall k :: 0 <= k < |data| ==> data[k] == MenuRecordOf(menus[k], locations)
  }

  // ---- Widgets ----

  /** The names of the widget ids in `ids` that exist in the widget registry,
      in the order of `ids`; ids the registry does not know are skipped. */
  function RegisteredNames(ids: seq<string>, registry: map<string, string>): (names: seq<string>)
    ensures |names| <= |ids|
  {
    if ids == [] then []
    else (if ids[0] in registry then [registry[ids[0]]] else []) + RegisteredNames(ids[1..], registry)
  }

  /** The widget names listed for one sidebar: none when no widgets are assigned to it. */
  function AssignedNames(sidebarId: string, assignments: map<string, seq<string>>, registry: map<string, string>): seq<string> {
    if sidebarId in assignments then RegisteredNames(assignments[sidebarId], registry) else []
  }

  function SidebarRecordOf(s: Sidebar, assignments: map<string, seq<string>>, registry: map<string, string>): SidebarRecord {
    SidebarRecord(s.name, s.id, AssignedNames(s.id, assignments, registry))
  }

  /** `data` is the widget section: one record per registered sidebar, in
      registry order. */
  ghost predicate IsWidgetInfo(sidebars: seq<Sidebar>, assignments: map<string, seq<string>>,
                               registry: map<string, string>, data: seq<SidebarRecord>) {
    |data| == |sidebars| &&
    forall k :: 0 <= k < |data| ==> data[k] == SidebarRecordOf(sidebars[k], assignments, registry)
  }

  /** Filtering distributes over concatenation, so the names keep the order of the ids. */
  lemma {:induction false} RegisteredNamesAppend(a: seq<string>, b: seq<string>, registry: map<string, string>)
    ensures RegisteredNames(a + b, registry) == RegisteredNames(a, registry) + RegisteredNames(b, registry)
  {
    if a == [] {
      assert a + b == b;
    } else {
      assert (a + b)[0] == a[0];
      assert (a + b)[1..] == a[1..] + b;
      RegisteredNamesAppend(a[1..], b, registry);
    }
  }

  /** A name is listed exactly when some assigned id is registered under that name. */
  lemma {:induction false} RegisteredNamesMember(ids: seq<string>, registry: map<string, string>, name: string)
    ensures name in RegisteredNames(ids, registry) <==>
            exists k :: 0 <= k < |ids| && ids[k] in registry && registry[ids[k]] == name
  {
    if ids != [] {
      RegisteredNamesMember(ids[1..], registry, name);
      if exists k :: 0 <= k < |ids| && ids[k] in registry && registry[ids[k]] == name {
        var k :| 0 <= k < |ids| && ids[k] in registry && registry[ids[k]] == name;
        if k > 0 {
          assert ids[1..][k - 1] == ids[k];
        }
      }
      if exists k :: 0 <= k < |ids[1..]| && ids[1..][k] in registry && registry[ids[1..][k]] == name {
        var k :| 0 <= k < |ids[1..]| && ids[1..][k] in registry && registry[ids[1..][k]] == name;
        assert ids[k + 1] == ids[1..][k];
      }
    }
  }

  /** When every assigned id is registered, the list is exactly their names, position by position. */
  lemma {:induction false} RegisteredNamesAllKnown(ids: seq<string>, registry: map<string, string>)
    requires forall k :: 0 <= k < |ids| ==> ids[k] in registry
    ensures |RegisteredNames(ids, registry)| == |ids|
    ensures forall k :: 0 <= k < |ids| ==> RegisteredNames(ids, registry)[k] == registry[ids[k]]
  {
    if ids != [] {
      RegisteredNamesAllKnown(ids[1..], registry);
    }
  }

  /** When none of the assigned ids is registered, the sidebar lists no widgets. */
  lemma {:induction false} RegisteredNamesNoneKnown(ids: seq<string>, registry: map<string, string>)
    requires forall k :: 0 <= k < |ids| ==> ids[k] !in registry
    ensures RegisteredNames(ids, registry) == []
  {
    if ids != [] {
      RegisteredNamesNoneKnown(ids[1..], registry);
    }
  }

  /** Two registered ids, assigned in one order, have their names listed in that order. */
  lemma RegisteredNamesKeepOrder(ids: seq<string>, registry: map<string, string>, i: nat, j: nat)
    requires i < j < |ids| && ids[i] in registry && ids[j] in registry
    ensures var names := RegisteredNames(ids, registry);
            exists p, q :: 0 <= p < q < |names| && names[p] == registry[ids[i]] && names[q] == registry[ids[j]]
  {
    var front, back := ids[..j], ids[j..];
    assert ids == front + back;
    RegisteredNamesAppend(front, back, registry);
    RegisteredNamesMember(front, registry, registry[ids[i]]);
    assert front[i] == ids[i];
    var names, f := RegisteredNames(ids, registry), RegisteredNames(front, registry);
    var p :| 0 <= p < |f| && f[p] == registry[ids[i]];
    assert back[0] == ids[j];
    assert RegisteredNames(back, registry)[0] == registry[ids[j]];
    assert names[p] == registry[ids[i]] && names[|f|] == registry[ids[j]];
  }
}
