/**
 * `index.ts`: the current plugin. `createPlugin` closes over the options
 * and a registry it rebuilds when Vite resolves its configuration; here
 * that closure state is the class `Plugin`.
 */
module IndexPlugin {
  import opened JsString
  import opened JsMap
  import opened VirtualEntry

  // ---------------------------------------------------------------------
  // HTML synthesis

  /** The destructuring default `renderHTML` uses when the lookup found nothing. */
  const Unregistered: VirtualItem := VirtualItem("", "", "", "", "")

  /** What the regex is applied to: a string result is trimmed first. */
  function Checked(result: Page): Page {
    match result
    case Text(s) => Text(Trim(s))
    case NonText(_) => result
  }

  /** The page the hook produced from the skeleton, as it will be tested. */
  function HookResult(render: Render, item: VirtualItem): Page {
    Checked(render(RenderOption(BuildHTML(RemoveFirst(item.entry, item.root)), item.name, item.entry)))
  }

  /**
   * `renderHTML`: an `.html` entry is read from disk (`None` when the file
   * is missing); any other entry gets the skeleton whose script is the
   * entry without its root, unless the hook returned something that looks
   * like an HTML document, which is then used instead.
   */
  function RenderHTML(found: Option<VirtualItem>, render: Option<Render>, files: map<string, string>): (r: Option<Page>)
    ensures var item := found.GetOr(Unregistered);
      EndsWith(item.entry, ".html") ==>
        && (r.Some? <==> item.entry in files)
        && (r.Some? ==> r.value == Text(files[item.entry]))
    ensures var item := found.GetOr(Unregistered);
      !EndsWith(item.entry, ".html") ==> r.Some? && LooksLikeHtml(Shown(r.value))
    ensures var item := found.GetOr(Unregistered);
      !EndsWith(item.entry, ".html") && (render.None? || !LooksLikeHtml(Shown(HookResult(render.value, item)))) ==>
        r == Some(Text(BuildHTML(RemoveFirst(item.entry, item.root))))
    ensures var item := found.GetOr(Unregistered);
      !EndsWith(item.entry, ".html") && render.Some? && LooksLikeHtml(Shown(HookResult(render.value, item))) ==>
        r == Some(HookResult(render.value, item))
  {
    var item := found.GetOr(Unregistered);
    if !EndsWith(item.entry, ".html") then
      var html := BuildHTML(RemoveFirst(item.entry, item.root));
      if render.Some? then
        var result := HookResult(render.value, item);
        if LooksLikeHtml(Shown(result)) then Some(result) else Some(Text(html))
      else Some(Text(html))
    else
      match ReadHtml(files, item.entry)
      case None => None
      case Some(text) => Some(Text(text))
  }

  // ---------------------------------------------------------------------
  // Registry with the synthesised index page

  /** The item inserted for a project's own `index.html`. */
  function IndexItem(root: string, indexPath: string): VirtualItem {
    VirtualItem(indexPath, "./index.html", "index", WrapVirtualId("index"), root)
  }

  /**
   * `configResolved` adds the project's `index.html` when it exists and the
   * map has no key `index` (the raw word, not a virtual id).
   */
  function WithIndex(m: VirtualMap, root: string, indexPath: string, files: map<string, string>): (r: VirtualMap)
    requires m.Valid()
    ensures r.Valid()
  {
    if indexPath in files && !m.Has("index") then m.Set("index", IndexItem(root, indexPath)) else m
  }

  /** The registry `configResolved` leaves behind. */
  function Configured(root: string, entry: Option<EntrySpec>, indexPath: string, files: map<string, string>): (r: VirtualMap)
    ensures r.Valid()
  {
    WithIndex(Registry(root, FormatEntry(entry)), root, indexPath, files)
  }

  /**
   * The entries never occupy the raw key `index`, so an existing
   * `index.html` is always added, at the end and under that raw key, and
   * nothing else changes.
   */
  lemma IndexSynthesis(root: string, entries: seq<FormattedEntry>, indexPath: string, files: map<string, string>)
    ensures "index" !in Registry(root, entries).items
    ensures var m := Registry(root, entries); var r := WithIndex(m, root, indexPath, files);
      && (indexPath in files ==> r.keys == m.keys + ["index"] && r.items == m.items["index" := IndexItem(root, indexPath)])
      && (indexPath !in files ==> r == m)
  {
    var m := Registry(root, entries);
    RegistryWellFormed(root, entries);
    forall k | k in m.items
      ensures k != "index"
    {
      WrapIsReserved(m.items[k].name);
    }
  }

  /**
   * Every configured item keeps its id derived from its name, so the build
   * inputs name each page once and point it at its own virtual id.
   */
  lemma ConfiguredInputs(root: string, entry: Option<EntrySpec>, indexPath: string, files: map<string, string>)
    ensures var m := Configured(root, entry, indexPath, files);
      && IdsMatchNames(m)
      && (forall k :: k in m.items ==> (m.items[k].name in Inputs(m) <==> m.items[k].name != ProtoKey))
      && (forall name :: name in Inputs(m) ==> Inputs(m)[name] == WrapVirtualId(name))
  {
    RegistryWellFormed(root, FormatEntry(entry));
    InputsNameToId(Configured(root, entry, indexPath, files));
  }

  /**
   * Outside the virtual namespace, the configured registry claims exactly
   * the bare id `index`, and only when the project's `index.html` exists:
   * that id resolves to itself and loads the file as a module.
   */
  lemma ConfiguredResolves(root: string, entry: Option<EntrySpec>, indexPath: string,
                           files: map<string, string>, id: string)
    requires !StartsWith(id, Prefix)
    ensures var m := Configured(root, entry, indexPath, files);
      && (ResolveId(m, id).Some? <==> id == "index" && indexPath in files)
      && (Load(m, id).Some? <==> id == "index" && indexPath in files)
      && (id == "index" && indexPath in files ==>
            ResolveId(m, id) == Some("index") && Load(m, id) == Some("import \"" + indexPath + "\";"))
  {
    IndexSynthesis(root, FormatEntry(entry), indexPath, files);
    OnlyVirtualIdsResolve(root, FormatEntry(entry), id);
  }

  /** No configured HTML name is a registered key, the raw `index` included. */
  lemma ConfiguredHtmlNamesUnregistered(root: string, entry: Option<EntrySpec>, indexPath: string, files: map<string, string>)
    ensures HtmlNamesUnregistered(Configured(root, entry, indexPath, files))
  {
    var m := Registry(root, FormatEntry(entry));
    RegistryDotSeparated(root, FormatEntry(entry));
    IndexKeepsDotSeparated(m, root, indexPath, files);
    DotSeparates(Configured(root, entry, indexPath, files));
  }

  /** Adding the raw `index` key, whose HTML name starts with `.`, keeps keys and HTML names apart. */
  lemma IndexKeepsDotSeparated(m: VirtualMap, root: string, indexPath: string, files: map<string, string>)
    requires m.Valid() && DotSeparated(m)
    ensures DotSeparated(WithIndex(m, root, indexPath, files))
  {
    assert "index"[0] == 'i' && "./index.html"[0] == '.';
  }

  // ---------------------------------------------------------------------
  // Dev server routing

  /** `url.replace(/(\.htm|\/)$/, "")`: one trailing `.htm` or `/` goes, when there is one. */
  function StripHtmOrSlash(url: string): (r: string)
    ensures r == url || url == r + ".htm" || url == r + "/"
    ensures r == url <==> !EndsWith(url, ".htm") && !EndsWith(url, "/")
  {
    if EndsWith(url, ".htm") then url[..|url| - 4]
    else if EndsWith(url, "/") then url[..|url| - 1]
    else url
  }

  /** The path the middleware looks up: the site root and `/index.html` become `index`. */
  function NormalizeUrl(url: string): (r: string)
    ensures url == "/" || url == "/index.html" ==> r == "index"
    ensures url != "/" && url != "/index.html" ==> r == url || url == r + ".htm" || url == r + "/"
    ensures url != "/" && url != "/index.html" ==> (r == url <==> !EndsWith(url, ".htm") && !EndsWith(url, "/"))
  {
    if url == "/" || url == "/index.html" then "index" else StripHtmOrSlash(url)
  }

  /** Route `i` is in the URL and no earlier route is. */
  predicate FirstIncludedAt(keys: seq<string>, url: string, i: int) {
    && 0 <= i < |keys|
    && Includes(url, keys[i])
    && forall j :: 0 <= j < i ==> !Includes(url, keys[j])
  }

  /**
   * `foundId`: the first route, in registry order, that occurs anywhere in
   * the URL.
   */
  function FoundId(keys: seq<string>, url: string): (r: Option<string>)
    ensures r.Some? ==> exists i :: FirstIncludedAt(keys, url, i) && keys[i] == r.value
    ensures r.None? <==> forall i :: 0 <= i < |keys| ==> !Includes(url, keys[i])
    decreases |keys|
  {
    if keys == [] then None
    else if Includes(url, keys[0]) then
      assert FirstIncludedAt(keys, url, 0);
      Some(keys[0])
    else
      var r := FoundId(keys[1..], url);
      assert r.Some? ==> exists i :: FirstIncludedAt(keys, url, i) && keys[i] == r.value by {
        if r.Some? {
          var i :| FirstIncludedAt(keys[1..], url, i) && keys[1..][i] == r.value;
          forall j | 0 <= j < i + 1
            ensures !Includes(url, keys[j])
          {
            if j > 0 {
              assert keys[j] == keys[1..][j - 1];
            }
          }
          assert FirstIncludedAt(keys, url, i + 1);
        }
      }
      assert r.None? ==> forall i :: 0 <= i < |keys| ==> !Includes(url, keys[i]) by {
        if r.None? {
          forall i | 0 <= i < |keys|
            ensures !Includes(url, keys[i])
          {
            if i > 0 {
              assert keys[i] == keys[1..][i - 1];
            }
          }
        }
      }
      r
  }

  /** The page the route resolved to, before the truthiness test. */
  function LookupHtml(virtual: VirtualMap, routes: seq<string>, render: Option<Render>,
                      files: map<string, string>, originalUrl: string): Option<Page>
  {
    var id := FoundId(routes, NormalizeUrl(PathOf(originalUrl)));
    if id.Some? && id.value != "" then RenderHTML(virtual.Get(WrapVirtualId(id.value)), render, files)
    else None
  }

  /** What the dev middleware does with one request. */
  function DevRoute(virtual: VirtualMap, routes: seq<string>, render: Option<Render>,
                    files: map<string, string>, req: Request): Response
  {
    if !Handles(req) then Next
    else
      var html := LookupHtml(virtual, routes, render, files, req.originalUrl);
      if Truthy(html) then ServeHtml(req.originalUrl, html)
      else
        match OriginOf(req)
        case None => Thrown
        case Some(origin) => Listing(BuildNotFound(routes, req.originalUrl, origin))
  }

  /**
   * A handled request is served exactly when a route matched and rendered
   * to something truthy; otherwise the listing names every route, numbered
   * from 1, unless neither `Origin` nor `Host` was sent.
   */
  lemma DevRouteOutcome(virtual: VirtualMap, routes: seq<string>, render: Option<Render>,
                        files: map<string, string>, req: Request)
    ensures var out := DevRoute(virtual, routes, render, files, req);
      && (out == Next <==> !Handles(req))
      && (out.ServeHtml? <==> Handles(req) && Truthy(LookupHtml(virtual, routes, render, files, req.originalUrl)))
      && (out.ServeHtml? ==> out.url == req.originalUrl)
      && (out.Thrown? <==> Handles(req) && !Truthy(LookupHtml(virtual, routes, render, files, req.originalUrl))
                           && OriginOf(req).None?)
      && (out.Listing? ==> forall i :: 0 <= i < |routes| ==>
            Includes(out.page, LinkLine(i + 1, OriginOf(req).value, routes[i])))
  {
  }

  /**
   * Over any registry `getEntries` builds, a request whose normalised path
   * first contains route `i` is rendered with the item stored under key
   * `i`; a path that contains no route renders nothing.
   */
  lemma ServedIsFoundItem(root: string, entries: seq<FormattedEntry>, render: Option<Render>,
                          files: map<string, string>, originalUrl: string)
    ensures var m := Registry(root, entries); var url := NormalizeUrl(PathOf(originalUrl));
      forall i :: FirstIncludedAt(Routes(m), url, i) ==>
        LookupHtml(m, Routes(m), render, files, originalUrl) == RenderHTML(Some(m.items[m.keys[i]]), render, files)
    ensures var m := Registry(root, entries); var url := NormalizeUrl(PathOf(originalUrl));
      (forall i :: 0 <= i < |Routes(m)| ==> !Includes(url, Routes(m)[i])) ==>
        LookupHtml(m, Routes(m), render, files, originalUrl) == None
  {
    var m := Registry(root, entries);
    var url := NormalizeUrl(PathOf(originalUrl));
    forall i | FirstIncludedAt(Routes(m), url, i)
      ensures LookupHtml(m, Routes(m), render, files, originalUrl) == RenderHTML(Some(m.items[m.keys[i]]), render, files)
    {
      FoundIdAt(Routes(m), url, i);
      RouteWrapsToKey(root, entries, i);
      assert m.keys[i] in m.items;
    }
  }

  /**
   * The history-router fallback of the comment in `configureServer`: with
   * the route `/base` registered, `/base`, `/base/sub` and `/base/sub/path`
   * all resolve to it, while `/other` and `/other/sub/path` resolve to nothing.
   */
  lemma SpaFallbackExample()
    ensures FoundId(["/base"], "/base") == Some("/base")
    ensures FoundId(["/base"], "/base/sub") == Some("/base")
    ensures FoundId(["/base"], "/base/sub/path") == Some("/base")
    ensures FoundId(["/base"], "/other") == None
    ensures FoundId(["/base"], "/other/sub/path") == None
  {
    ResolvesByPrefix("/base", "");
    ResolvesByPrefix("/base", "/sub");
    ResolvesByPrefix("/base", "/sub/path");
    assert "/base" + "" == "/base";
    MissesOther("/other");
    MissesOther("/other/sub/path");
  }

  lemma ResolvesByPrefix(base: string, rest: string)
    ensures FoundId([base], base + rest) == Some(base)
  {
    assert (base + rest)[..|base|] == base;
    IncludesAt(base + rest, base, 0);
  }

  /** `/base` occurs in no URL whose only `b` is not preceded by a `/`. */
  lemma MissesOther(url: string)
    requires url == "/other" || url == "/other/sub/path"
    ensures FoundId(["/base"], url) == None
  {
    assert forall j :: 0 < j < |url| ==> url[j] != 'b' || url[j - 1] != '/';
    forall j: nat | j + 5 <= |url|
      ensures !OccursAt(url, "/base", j)
    {
      assert url[j..j + 5][0] == url[j] && url[j..j + 5][1] == url[j + 1];
    }
  }

  /**
   * The raw `index` key of the synthesised page is listed as the route
   * `index`, and the requests for `/` and `/index.html` find it; the
   * middleware then asks for the WRAPPED id, which no entry holds unless one
   * derived the name `index` itself. The lookup misses, `renderHTML`
   * falls back to its empty default, and the served page is the skeleton
   * with an empty script `src` instead of the project's `index.html`.
   */
  lemma IndexRequestRendersDefault(root: string, entry: Option<EntrySpec>, indexPath: string,
                                   render: Option<Render>, files: map<string, string>, req: Request)
    requires indexPath in files
    requires WrapVirtualId("index") !in Registry(root, FormatEntry(entry)).items
    requires Handles(req) && PathOf(req.originalUrl) in {"/", "/index.html"}
    ensures var m := Configured(root, entry, indexPath, files);
      && "index" in m.items && m.items["index"].entry == indexPath
      && DevRoute(m, Routes(m), render, files, req) == ServeHtml(req.originalUrl, RenderHTML(None, render, files))
  {
    var entries := FormatEntry(entry);
    var m := Configured(root, entry, indexPath, files);
    IndexSynthesis(root, entries, indexPath, files);
    IndexRouteFound(root, entries, m);
    RootUrlIsIndex(req.originalUrl);
    WrapIsReserved("index");
    assert m.Get(WrapVirtualId("index")).None?;
    DefaultIsTruthy(render, files);
    assert LookupHtml(m, Routes(m), render, files, req.originalUrl) == RenderHTML(None, render, files);
  }

  /**
   * When an entry does derive the name `index` (`entry: "index.ts"`, say),
   * the same raw route is found for `/` and `/index.html`, and the wrapped
   * lookup now hits: the request is rendered with that entry's item.
   */
  lemma IndexRequestFindsIndexEntry(root: string, entry: Option<EntrySpec>, indexPath: string,
                                    render: Option<Render>, files: map<string, string>, req: Request)
    requires indexPath in files
    requires WrapVirtualId("index") in Registry(root, FormatEntry(entry)).items
    requires Handles(req) && PathOf(req.originalUrl) in {"/", "/index.html"}
    ensures var m := Configured(root, entry, indexPath, files);
      && WrapVirtualId("index") in m.items
      && LookupHtml(m, Routes(m), render, files, req.originalUrl)
         == RenderHTML(Some(m.items[WrapVirtualId("index")]), render, files)
  {
    var entries := FormatEntry(entry);
    var m := Configured(root, entry, indexPath, files);
    IndexSynthesis(root, entries, indexPath, files);
    IndexRouteFound(root, entries, m);
    RootUrlIsIndex(req.originalUrl);
    WrapIsReserved("index");
    assert m.Get(WrapVirtualId("index")) == Some(m.items[WrapVirtualId("index")]);
  }

  /**
   * Without a render hook, the page served for `/` or `/index.html` is the
   * skeleton with an empty script `src`, not the project's `index.html`.
   */
  lemma IndexRequestServesEmptySkeleton(root: string, entry: Option<EntrySpec>, indexPath: string,
                                        files: map<string, string>, req: Request)
    requires indexPath in files
    requires WrapVirtualId("index") !in Registry(root, FormatEntry(entry)).items
    requires Handles(req) && PathOf(req.originalUrl) in {"/", "/index.html"}
    ensures var m := Configured(root, entry, indexPath, files);
      DevRoute(m, Routes(m), None, files, req) == ServeHtml(req.originalUrl, Some(Text(BuildHTML(""))))
  {
    IndexRequestRendersDefault(root, entry, indexPath, None, files, req);
    DefaultRendersEmptySkeleton(files);
  }

  /**
   * The build input of the synthesised page is the wrapped id of `index`,
   * which Rollup then fails to resolve unless an entry derived that name.
   */
  lemma IndexInputUnresolved(root: string, entry: Option<EntrySpec>, indexPath: string, files: map<string, string>)
    requires indexPath in files
    requires WrapVirtualId("index") !in Registry(root, FormatEntry(entry)).items
    ensures var m := Configured(root, entry, indexPath, files);
      && "index" in Inputs(m) && Inputs(m)["index"] == WrapVirtualId("index")
      && ResolveId(m, Inputs(m)["index"]).None?
  {
    var m := Configured(root, entry, indexPath, files);
    IndexSynthesis(root, FormatEntry(entry), indexPath, files);
    ConfiguredInputs(root, entry, indexPath, files);
    assert m.items["index"].name == "index";
    WrapIsReserved("index");
  }

  /** Whatever the hook does, the default item renders to a truthy page. */
  lemma DefaultIsTruthy(render: Option<Render>, files: map<string, string>)
    ensures Truthy(RenderHTML(None, render, files))
  {
    assert !EndsWith("", ".html");
    var r := RenderHTML(None, render, files);
    HtmlStartsWithAngle(Shown(r.value));
  }

  lemma RootUrlIsIndex(originalUrl: string)
    requires PathOf(originalUrl) in {"/", "/index.html"}
    ensures NormalizeUrl(PathOf(originalUrl)) == "index"
  {
  }

  /** The empty default item renders, without a hook, to the skeleton with an empty `src`, which is truthy. */
  lemma DefaultRendersEmptySkeleton(files: map<string, string>)
    ensures RenderHTML(None, None, files) == Some(Text(BuildHTML("")))
    ensures Truthy(RenderHTML(None, None, files))
  {
    RemoveEmpty("");
    assert !EndsWith("", ".html");
  }

  /** With the raw key appended, the URL `index` finds the route `index` and no entry's route. */
  lemma IndexRouteFound(root: string, entries: seq<FormattedEntry>, m: VirtualMap)
    requires m.keys == Registry(root, entries).keys + ["index"]
    ensures FoundId(Routes(m), "index") == Some("index")
  {
    var reg := Registry(root, entries);
    RegistryWellFormed(root, entries);
    var routes := Routes(m);
    forall i | 0 <= i < |reg.keys|
      ensures !Includes("index", routes[i])
    {
      var k := reg.keys[i];
      assert k in reg.items;
      assert WellFormedItem(root, k, reg.items[k]);
      UnwrapWrap(reg.items[k].name);
      SlashNotInIndex(routes[i]);
    }
    NoPrefixInIndex();
    assert routes[|reg.keys|] == "index";
    IncludesAt("index", "index", 0);
    FoundIdAt(routes, "index", |reg.keys|);
  }

  lemma SlashNotInIndex(p: string)
    requires StartsWith(p, "/")
    ensures !Includes("index", p)
  {
    assert p[0] == '/';
    ExcludedByFirst("index", p);
  }

  lemma NoPrefixInIndex()
    ensures !Includes("index", Prefix)
    ensures UnwrapVirtualId("index") == "index"
  {
    assert Prefix[0] == '\0';
    ExcludedByFirst("index", Prefix);
  }

  /** If route `i` is in the URL and no earlier route is, `foundId` picks route `i`. */
  lemma {:induction false} FoundIdAt(keys: seq<string>, url: string, i: nat)
    requires FirstIncludedAt(keys, url, i)
    ensures FoundId(keys, url) == Some(keys[i])
    decreases i
  {
    if i > 0 {
      assert keys[1..][i - 1] == keys[i];
      FoundIdAt(keys[1..], url, i - 1);
    }
  }

  // ---------------------------------------------------------------------
  // The plugin object

  /** The state `createPlugin` closes over. */
  class Plugin {
    const entry: Option<EntrySpec>
    const render: Option<Render>
    /** The registry; `configResolved` reassigns it. */
    var virtual: VirtualMap
    /** The route names `configureServer` captured from the registry. */
    var routes: seq<string>

    constructor (entry: Option<EntrySpec>, render: Option<Render>)
      ensures this.entry == entry && this.render == render
      ensures virtual == Empty() && routes == []
    {
      this.entry := entry;
      this.render := render;
      virtual := Empty();
      routes := [];
    }

    /**
     * `configResolved`: rebuilds the registry from the entries, adds the
     * project's `index.html` when it exists (`indexPath` is
     * `path.resolve(root, "index.html")`, `files` the file system), and for
     * a build sets the Rollup inputs and wraps Vite's HTML plugin.
     */
    method ConfigResolved(config: Config, indexPath: string, files: map<string, string>)
      modifies this, config
      ensures virtual == Configured(config.root, entry, indexPath, files)
      ensures routes == old(routes)
      ensures config.command == Build ==> config.input == Inputs(virtual)
      ensures config.command == Build ==> config.plugins == PatchPlugins(old(config.plugins))
      ensures config.command != Build ==> config.input == old(config.input) && config.plugins == old(config.plugins)
    {
      var root := config.root;
      var m := BuildRegistry(root, FormatEntry(entry));
      if indexPath in files && !m.Has("index") {
        m := m.Set("index", IndexItem(root, indexPath));
      }
      assert m == Configured(root, entry, indexPath, files);
      virtual := m;
      ConfigureBuild(config, m);
    }

    /** `configureServer`: captures the route names of the registry. */
    method ConfigureServer()
      modifies this`routes
      ensures routes == Routes(virtual)
    {
      routes := Routes(virtual);
    }

    /** The middleware `configureServer` installs, one request at a time. */
    method Middleware(req: Request, files: map<string, string>) returns (out: Response)
      ensures out == DevRoute(virtual, routes, render, files, req)
    {
      if req.writableEnded {
        return Next;
      }
      var accept := req.accept;
      if accept == Some("*/*") {
        return Next;
      }
      if accept.None? || accept.value == "" || !StartsWith(accept.value, "text/html") {
        return Next;
      }
      assert Handles(req);
      var url := PathOf(req.originalUrl);
      var html: Option<Page> := None;
      if url == "/" || url == "/index.html" {
        url := "index";
      } else {
        url := StripHtmOrSlash(url);
      }
      assert url == NormalizeUrl(PathOf(req.originalUrl));
      var id := FoundId(routes, url);
      if id.Some? && id.value != "" {
        var found := virtual.Get(WrapVirtualId(id.value));
        html := RenderHTML(found, render, files);
      }
      assert html == LookupHtml(virtual, routes, render, files, req.originalUrl);
      if !Truthy(html) {
        var origin := OriginOf(req);
        if origin.None? {
          return Thrown;
        }
        return Listing(BuildNotFound(routes, req.originalUrl, origin.value));
      }
      out := ServeHtml(req.originalUrl, html);
    }

    /**
     * The wrapped `transform` of Vite's HTML plugin: the code and id it
     * passes on to the original. A registered id becomes its HTML name and
     * its code the rendered page; any other call passes through.
     */
    method Transform(code: string, id: string, files: map<string, string>) returns (fwdCode: Option<Page>, fwdId: string)
      ensures virtual.Has(id) ==> fwdId == virtual.items[id].htmlName
      ensures virtual.Has(id) ==> fwdCode == RenderHTML(Some(virtual.items[id]), render, files)
      ensures !virtual.Has(id) ==> fwdId == id && fwdCode == Some(Text(code))
    {
      fwdCode, fwdId := Some(Text(code)), id;
      if virtual.Has(id) {
        var found := virtual.items[id];
        fwdId := found.htmlName;
        fwdCode := RenderHTML(Some(found), render, files);
      }
    }

    /**
     * The wrapped `generateBundle`: every chunk whose facade module is a
     * registered id has it replaced, in place, by the item's HTML name
     * before the original runs on the bundle.
     */
    method GenerateBundle(bundle: array<OutputItem>)
      modifies bundle
      ensures forall i :: 0 <= i < bundle.Length ==> bundle[i] == RewriteFacade(virtual, old(bundle[i]))
    {
      RewriteFacades(virtual, bundle);
    }
  }
}
