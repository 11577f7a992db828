/**
 * `main.js`: the earlier CommonJS version of the plugin. It shares the
 * entry flattening, the registry and the build patches with `index.ts`,
 * but renders without trimming, has no synthesised `index` page, and its
 * dev server looks routes up exactly instead of by containment.
 */
module LegacyPlugin {
  import opened JsString
  import opened JsMap
  import opened VirtualEntry
  import IndexPlugin

  // ---------------------------------------------------------------------
  // HTML synthesis

  /** The hook's page, tested as it was returned. */
  function HookResult(render: Render, item: VirtualItem): Page {
    render(RenderOption(BuildHTML(RemoveFirst(item.entry, item.root)), item.name, item.entry))
  }

  /**
   * `renderHTML`: an `.html` entry is read from disk when it exists; any
   * other entry gets the skeleton, unless the hook's result, untrimmed,
   * looks like an HTML document.
   */
  function RenderHTML(item: VirtualItem, render: Option<Render>, files: map<string, string>): (r: Option<Page>)
    ensures EndsWith(item.entry, ".html") ==>
      && (r.Some? <==> item.entry in files)
      && (r.Some? ==> r.value == Text(files[item.entry]))
    ensures !EndsWith(item.entry, ".html") ==> r.Some? && LooksLikeHtml(Shown(r.value))
    ensures !EndsWith(item.entry, ".html") && (render.None? || !LooksLikeHtml(Shown(HookResult(render.value, item)))) ==>
      r == Some(Text(BuildHTML(RemoveFirst(item.entry, item.root))))
    ensures !EndsWith(item.entry, ".html") && render.Some? && LooksLikeHtml(Shown(HookResult(render.value, item))) ==>
      r == Some(HookResult(render.value, item))
  {
    if EndsWith(item.entry, ".html") then
      if item.entry in files then Some(Text(files[item.entry])) else None
    else
      var html := BuildHTML(RemoveFirst(item.entry, item.root));
      if render.Some? && LooksLikeHtml(Shown(HookResult(render.value, item))) then Some(HookResult(render.value, item))
      else Some(Text(html))
  }

  /**
   * `trim` is the one difference between the two renderers: a hook page
   * that is a document after leading blanks is used by `index.ts`, while
   * `main.js` falls back to the skeleton.
   */
  lemma TrimDecides(item: VirtualItem, render: Render, files: map<string, string>, doc: string)
    requires !EndsWith(item.entry, ".html")
    requires LooksLikeHtml(doc) && !IsJsSpace(doc[|doc| - 1])
    requires HookResult(render, item) == Text(" " + doc)
    ensures IndexPlugin.RenderHTML(Some(item), Some(render), files) == Some(Text(doc))
    ensures RenderHTML(item, Some(render), files) == Some(Text(BuildHTML(RemoveFirst(item.entry, item.root))))
  {
    IndexKeepsTrimmed(item, render, files, doc);
    HtmlStartsWithAngle(" " + doc);
    assert (" " + doc)[0] == ' ';
  }

  lemma IndexKeepsTrimmed(item: VirtualItem, render: Render, files: map<string, string>, doc: string)
    requires !EndsWith(item.entry, ".html")
    requires LooksLikeHtml(doc) && !IsJsSpace(doc[|doc| - 1])
    requires HookResult(render, item) == Text(" " + doc)
    ensures IndexPlugin.RenderHTML(Some(item), Some(render), files) == Some(Text(doc))
  {
    HtmlStartsWithAngle(doc);
    TrimsToDoc(doc);
    assert IndexPlugin.HookResult(render, item) == IndexPlugin.Checked(Text(" " + doc)) == Text(doc);
  }

  /** A leading blank is exactly what `trim` removes from a page with no blanks at its ends. */
  lemma TrimsToDoc(doc: string)
    requires doc != [] && !IsJsSpace(doc[0]) && !IsJsSpace(doc[|doc| - 1])
    ensures Trim(" " + doc) == doc
  {
    var t := " " + doc;
    assert t != [] && t[0] == ' ' && t[1..] == doc;
    assert TrimStart(t) == TrimStart(doc);
    assert TrimStart(doc) == doc;
    assert TrimEnd(doc) == doc;
  }

  // ---------------------------------------------------------------------
  // Dev server routing

  /** The id a request path is looked up under: its first `.html` removed, then wrapped. */
  function LookupKey(originalUrl: string): string {
    WrapVirtualId(RemoveFirst(PathOf(originalUrl), ".html"))
  }

  /** One line of the listing: a link to a route. */
  function ListItem(origin: string, route: string): string {
    "<li> <a href='" + origin + route + "'>" + origin + route + "</a></li>"
  }

  /** The list items, joined with nothing between them. */
  function ListItems(routes: seq<string>, origin: string): (r: string)
    ensures forall i :: 0 <= i < |routes| ==> Includes(r, ListItem(origin, routes[i]))
  {
    if routes == [] then ""
    else
      var rest := ListItems(routes[1..], origin);
      var r := ListItem(origin, routes[0]) + rest;
      assert forall i :: 0 <= i < |routes| ==> Includes(r, ListItem(origin, routes[i])) by {
        forall i | 0 <= i < |routes|
          ensures Includes(r, ListItem(origin, routes[i]))
        {
          if i == 0 {
            IncludesInside("", ListItem(origin, routes[0]), rest, ListItem(origin, routes[0]));
            assert "" + ListItem(origin, routes[0]) + rest == r;
          } else {
            assert routes[i] == routes[1..][i - 1];
            IncludesInside(ListItem(origin, routes[0]), rest, "", ListItem(origin, routes[i]));
            assert ListItem(origin, routes[0]) + rest + "" == r;
          }
        }
      }
      r
  }

  const SorryHead: string := "\n\t\t\t\t<h1>Sorry, Request path'"
  const SorryTail: string := "'not found</h1>\n\t\t\t\t<h3>Available paths: </h3>\n\t\t\t\t<ul>"

  /** The not-found page `main.js` writes inline. */
  function ListingPage(routes: seq<string>, originalUrl: string, origin: string): (r: string)
    ensures Includes(r, SorryHead + originalUrl + SorryTail)
    ensures forall i :: 0 <= i < |routes| ==> Includes(r, ListItem(origin, routes[i]))
    ensures EndsWith(r, "</ul>")
  {
    ListingShape(SorryHead + originalUrl + SorryTail, ListItems(routes, origin), routes, origin);
    SorryHead + originalUrl + SorryTail + ListItems(routes, origin) + "</ul>"
  }

  lemma ListingShape(head: string, items: string, routes: seq<string>, origin: string)
    requires forall i :: 0 <= i < |routes| ==> Includes(items, ListItem(origin, routes[i]))
    ensures var r := head + items + "</ul>";
      && Includes(r, head)
      && (forall i :: 0 <= i < |routes| ==> Includes(r, ListItem(origin, routes[i])))
      && EndsWith(r, "</ul>")
  {
    var r := head + items + "</ul>";
    assert r[|r| - 5..] == "</ul>";
    assert r == "" + head + (items + "</ul>");
    IncludesInside("", head, items + "</ul>", head);
    forall i | 0 <= i < |routes|
      ensures Includes(r, ListItem(origin, routes[i]))
    {
      IncludesInside(head, items, "</ul>", ListItem(origin, routes[i]));
    }
  }

  /**
   * What the dev middleware does with one request. The route list is read
   * from the registry at the time of the request.
   */
  function DevRoute(virtual: VirtualMap, render: Option<Render>, files: map<string, string>, req: Request): Response
  {
    if !Handles(req) then Next
    else
      match virtual.Get(LookupKey(req.originalUrl))
      case Some(found) => ServeHtml(PathOf(req.originalUrl), RenderHTML(found, render, files))
      case None =>
        match OriginOf(req)
        case None => Thrown
        case Some(origin) => Listing(ListingPage(Routes(virtual), req.originalUrl, origin))
  }

  /**
   * A handled request is served exactly when its path, with the first
   * `.html` removed, is a registered route, and then under that path
   * without the query; otherwise it gets the listing of every route.
   */
  lemma DevRouteOutcome(virtual: VirtualMap, render: Option<Render>, files: map<string, string>, req: Request)
    ensures var out := DevRoute(virtual, render, files, req);
      && (out == Next <==> !Handles(req))
      && (out.ServeHtml? <==> Handles(req) && LookupKey(req.originalUrl) in virtual.items)
      && (out.ServeHtml? ==>
            out.url == PathOf(req.originalUrl) && out.html == RenderHTML(virtual.items[LookupKey(req.originalUrl)], render, files))
      && (out.Thrown? <==> Handles(req) && LookupKey(req.originalUrl) !in virtual.items && OriginOf(req).None?)
      && (out.Listing? ==> forall i :: 0 <= i < |virtual.keys| ==>
            Includes(out.page, ListItem(OriginOf(req).value, UnwrapVirtualId(virtual.keys[i]))))
  {
  }

  /**
   * Lookup is exact: a path that is precisely a route (and holds no `.html`)
   * is served by that route's item; the same path with `.html` appended is
   * served by the same item.
   */
  lemma ExactRoute(virtual: VirtualMap, name: string, suffix: string, req: Request)
    requires !Includes(Slashed(name), ".html")
    requires suffix == "" || suffix == ".html"
    requires PathOf(req.originalUrl) == Slashed(name) + suffix
    ensures LookupKey(req.originalUrl) == WrapVirtualId(name)
  {
    var path := Slashed(name);
    if suffix == "" {
      assert path + suffix == path;
      assert RemoveFirst(path, ".html") == path;
    } else {
      HtmlFirstAtEnd(path);
    }
    assert Slashed(path) == path;
    WrapInjective(path, name);
  }

  /** Appending `.html` to a string free of it puts the first occurrence at the end. */
  lemma HtmlFirstAtEnd(s: string)
    requires !Includes(s, ".html")
    ensures RemoveFirst(s + ".html", ".html") == s
  {
    var t := s + ".html";
    assert OccursAt(t, ".html", |s|);
    // an earlier occurrence would lie inside `s` or put a `.` of `.html` on
    // the appended `.`, where the pattern has `h`, `t`, `m` or `l`
    forall j: nat | j < |s|
      ensures !OccursAt(t, ".html", j)
    {
      if j + 5 <= |s| {
        assert t[j..j + 5] == s[j..j + 5];
        assert !OccursAt(s, ".html", j);
      } else {
        assert t[|s|] == '.';
        assert t[j..j + 5][|s| - j] == t[|s|];
      }
    }
    IncludesAt(t, ".html", |s|);
    assert IndexOf(t, ".html") == Some(|s|);
    assert t[..|s|] == s && t[|s| + 5..] == [];
  }

  /**
   * The history-router fallback is new in `index.ts`: with a single route
   * `base` registered, any longer path under it (say `/base/sub/path` under
   * `/base`) is served there, while `main.js` finds no route for it.
   */
  lemma PrefixFallbackIsNew(virtual: VirtualMap, base: string, files: map<string, string>, req: Request)
    requires virtual.Valid() && virtual.keys == [WrapVirtualId(base)]
    requires !EndsWith(virtual.items[WrapVirtualId(base)].entry, ".html")
    requires StartsWith(base, "/")
    requires Handles(req)
    requires var path := PathOf(req.originalUrl);
      StartsWith(path, base) && path != base && !Includes(path, ".html") && !EndsWith(path, "/") && !EndsWith(path, ".htm")
    ensures IndexPlugin.DevRoute(virtual, Routes(virtual), None, files, req).ServeHtml?
    ensures !DevRoute(virtual, None, files, req).ServeHtml?
  {
    IndexServesExtension(virtual, base, files, PathOf(req.originalUrl));
    assert Truthy(IndexPlugin.LookupHtml(virtual, Routes(virtual), None, files, req.originalUrl));
    LegacyMissesExtension(base, req.originalUrl);
    assert LookupKey(req.originalUrl) !in virtual.keys;
  }

  lemma IndexServesExtension(virtual: VirtualMap, base: string, files: map<string, string>, path: string)
    requires virtual.Valid() && virtual.keys == [WrapVirtualId(base)]
    requires !EndsWith(virtual.items[WrapVirtualId(base)].entry, ".html")
    requires StartsWith(base, "/")
    requires StartsWith(path, base) && path != base && !Includes(path, ".html") && !EndsWith(path, "/") && !EndsWith(path, ".htm")
    ensures IndexPlugin.NormalizeUrl(path) == path
    ensures IndexPlugin.FoundId(Routes(virtual), path) == Some(base)
    ensures Truthy(IndexPlugin.RenderHTML(virtual.Get(WrapVirtualId(base)), None, files))
  {
    UnwrapWrap(base);
    assert Routes(virtual) == [base];
    IncludesAt(path, base, 0);
    assert IndexPlugin.FirstIncludedAt([base], path, 0);
    IndexPlugin.FoundIdAt([base], path, 0);
    NotIndexHtml(path);
  }

  /** A path without `.html` is not `/index.html`. */
  lemma NotIndexHtml(path: string)
    requires !Includes(path, ".html")
    ensures path != "/index.html"
  {
    var p := "/index.html";
    assert p[6..11] == ".html";
    IncludesAt(p, ".html", 6);
  }

  /** `main.js` looks up the path itself, which is another route than `base`. */
  lemma LegacyMissesExtension(base: string, originalUrl: string)
    requires StartsWith(base, "/")
    requires var path := PathOf(originalUrl);
      StartsWith(path, base) && path != base && !Includes(path, ".html")
    ensures LookupKey(originalUrl) != WrapVirtualId(base)
  {
    var path := PathOf(originalUrl);
    assert path[0] == base[0] == '/';
    WrapInjective(path, base);
  }

  // ---------------------------------------------------------------------
  // The plugin object

  /** The state `createPlugin` closes over; `options.entry` is required here. */
  class Plugin {
    const entry: EntrySpec
    const render: Option<Render>
    /** The registry; `configResolved` reassigns it. */
    var virtual: VirtualMap

    constructor (entry: EntrySpec, render: Option<Render>)
      ensures this.entry == entry && this.render == render
      ensures virtual == Empty()
    {
      this.entry := entry;
      this.render := render;
      virtual := Empty();
    }

    /**
     * `configResolved`: rebuilds the registry from the entries and, for a
     * build, sets the Rollup inputs and wraps Vite's HTML plugin.
     */
    method ConfigResolved(config: Config)
      modifies this`virtual, config
      ensures virtual == Registry(config.root, Flatten(entry))
      ensures config.command == Build ==> config.input == Inputs(virtual)
      ensures config.command == Build ==> config.plugins == PatchPlugins(old(config.plugins))
      ensures config.command != Build ==> config.input == old(config.input) && config.plugins == old(config.plugins)
    {
      var m := BuildRegistry(config.root, Flatten(entry));
      virtual := m;
      ConfigureBuild(config, m);
    }

    /** The middleware `configureServer` installs, one request at a time. */
    method Middleware(req: Request, files: map<string, string>) returns (out: Response)
      ensures out == DevRoute(virtual, render, files, req)
    {
      if req.writableEnded {
        return Next;
      }
      var accept := req.accept;
      if accept == Some("*/*") {
        return Next;
      }
      if accept.None? || accept.value == "" || !StartsWith(accept.value, "text/html") {
        return Next;
      }
      var url := PathOf(req.originalUrl);
      var found := virtual.Get(WrapVirtualId(RemoveFirst(url, ".html")));
      if found.None? {
        var origin := OriginOf(req);
        if origin.None? {
          return Thrown;
        }
        return Listing(ListingPage(Routes(virtual), req.originalUrl, origin.value));
      }
      out := ServeHtml(url, RenderHTML(found.value, render, files));
    }

    /** The wrapped `transform` of Vite's HTML plugin: the code and id passed to the original. */
    method Transform(code: string, id: string, files: map<string, string>) returns (fwdCode: Option<Page>, fwdId: string)
      ensures virtual.Has(id) ==> fwdId == virtual.items[id].htmlName
      ensures virtual.Has(id) ==> fwdCode == RenderHTML(virtual.items[id], render, files)
      ensures !virtual.Has(id) ==> fwdId == id && fwdCode == Some(Text(code))
    {
      fwdCode, fwdId := Some(Text(code)), id;
      if virtual.Has(id) {
        var found := virtual.items[id];
        fwdId := found.htmlName;
        fwdCode := RenderHTML(found, render, files);
      }
    }

    /** The wrapped `generateBundle`: registered facade modules become HTML names, in place. */
    method GenerateBundle(bundle: array<OutputItem>)
      modifies bundle
      ensures forall i :: 0 <= i < bundle.Length ==> bundle[i] == RewriteFacade(virtual, old(bundle[i]))
    {
      RewriteFacades(virtual, bundle);
    }
  }
}
