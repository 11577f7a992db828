# vite-plugin-virtual-entry, modelled in Dafny

`vite-plugin-virtual-entry` is a Vite plugin that serves a page for each
script entry without an HTML file of its own. It flattens the user's
`entry` option into name/path pairs. Each pair gets a route name and a
virtual module id (`\0virtual__<plugin>__/<name>`). The plugin then:

- in development, answers `text/html` requests with a skeleton page that
  loads the entry, or with a page from the user's `render` hook, or else
  with a listing of the available routes;
- in a build, registers the virtual ids as Rollup inputs and wraps Vite's
  own HTML plugin, so virtual modules are transformed and emitted under
  `./<name>.html`.

The repository holds two versions of the plugin:

- `index.ts`, the current one;
- `main.js`, an older CommonJS one.

The model covers both.

| file | module | what it holds |
|---|---|---|
| `jsstring.dfy` | `JsString` | The JavaScript string built-ins the plugin uses. A string pattern in `replace` removes only its first occurrence, and an empty pattern removes nothing. Also `includes`, `split("?")[0]`, `trim` over ECMAScript white space, and the ASCII-only case folding of an `/i` regex. |
| `jsmap.dfy` | `JsMap` | A JavaScript `Map` as a value: keys in insertion order, and `set` keeps a present key in its first position. |
| `virtualentry.dfy` | `VirtualEntry` | Everything the two versions share: the page templates, virtual ids, route-name derivation, entry flattening, the registry (`getEntries`), Rollup inputs, the `load`/`resolveId` hooks, the bundle rewrite, request filtering and origin, and the build configuration. |
| `indexplugin.dfy` | `IndexPlugin` | `index.ts`'s `createPlugin`: `renderHTML` with `trim` and its default item, the synthesised `index` page, routing by `foundId`, and the class `Plugin` holding the closure's state. |
| `legacyplugin.dfy` | `LegacyPlugin` | `main.js`'s `createPlugin`: `renderHTML` without `trim`, exact route lookup, its inline not-found page, and lemmas that compare it with `index.ts`. |

Modelling choices:

- The file system is a map from existing paths to their contents.
- `path.resolve(root, "index.html")` is a parameter.
- The `render` hook is any total function from its option to a page. A
  result that is not a string is represented by its `String(...)` form,
  which is what the regular expression tests.
- The original `transform` and `generateBundle` of Vite's HTML plugin are
  not modelled. The model states the arguments the wrappers pass on to
  them.

## Model

| member | source | states |
|---|---|---|
| JsString.RemoveFirst | index.ts:59-61 | `s.replace(p, "")` with a string pattern: the result is `s` when `p` does not occur; otherwise it is `s` with exactly the first occurrence cut out. |
| JsString.BeforeFirst | index.ts:244 | `split("?")[0]` is a prefix of the URL that holds no `?`, and it ends where the first `?` is. |
| JsString.Trim | index.ts:166 | The trimmed string is a contiguous piece of the input with only ECMAScript white space before and after it, and it neither starts nor ends with white space. |
| JsString.NatToString | index.ts:37-42 | The number printed before each link is decimal text with no leading zero that reads back as the number itself. |
| JsMap.OrderedMap.Set | index.ts:117 | `Map.set` keeps the map valid. The value is replaced or added. A present key keeps its place; a new key is appended. |
| VirtualEntry.BuildHTML | index.ts:21-28 | The skeleton page passes the HTML test. Its `src` attribute holds exactly the entry. |
| VirtualEntry.LooksLikeHtml | index.ts:128 | The regex `/^(<(html\|!doctype))/i`: the text begins with `<html` or `<!doctype`, ASCII letters compared without case. `BuildHTML` and `HtmlStartsWithAngle` state what passes it. `main.js:75` is the same regex. |
| VirtualEntry.HtmlStartsWithAngle | index.ts:128 | Anything the case-insensitive `/^(<(html\|!doctype))/i` accepts begins with `<`. |
| VirtualEntry.BuildNotFound | index.ts:30-46 | The not-found page has a numbered link `n.<a href='origin+name'>` for every route, in order from 1. It has an apology naming the URL unless the URL is `/`, in which case it goes straight to the listing. |
| VirtualEntry.LinksInclude | index.ts:37-42 | Every route's link line, numbered from 1, is part of the joined listing. |
| VirtualEntry.ReadHtml | index.ts:49-53 | A file is read only when its name is non-empty, ends in `.html` and exists; what is read is its contents. |
| VirtualEntry.WrapVirtualId | index.ts:55-58 | A virtual id begins with the reserved prefix followed by `/`. |
| VirtualEntry.UnwrapWrap | index.ts:54-61 | Unwrapping a wrapped name gives the name with a leading `/` ensured, so it always starts with `/`. |
| VirtualEntry.WrapInjective | index.ts:55-58 | Two names share a virtual id exactly when they agree once a leading `/` is ensured. |
| VirtualEntry.WrapIsReserved | index.ts:55-58 | No virtual id is the bare word `index` or a path starting with `./`. |
| VirtualEntry.UnwrapVirtualId | index.ts:59-61 | An id without the prefix is unchanged. An id that starts with the prefix loses exactly the prefix. |
| VirtualEntry.GetEntryName | index.ts:62-68 | After the first occurrence of `root` is removed, the name splits into a leading part, the route name, a trailing part and an extension. The leading part is nothing, `./` or `/`; the trailing part is nothing or `/`; the extension is nothing or one of `.html .js .ts .jsx .tsx`. Each part is removed whenever it is present: an empty leading part means the text starts with neither `./` nor `/`, `/` means it does not start with `./`, an empty extension means none of the five ends the text, and an empty trailing part means no `/` precedes the extension. The route name is never longer than the input. |
| VirtualEntry.EntryNameNotIdempotent | index.ts:62-68 | Deriving again is not a no-op: `a.ts.ts` gives `a.ts`, which gives `a`. |
| VirtualEntry.TsNameDerives | index.ts:62-68 | A plain relative name with a `.ts` extension derives to the name without the extension. |
| VirtualEntry.Flatten | main.js:43-57 | Flattening gives one name/path pair per string in the entry, however deeply arrays nest. |
| VirtualEntry.FlattenNested | index.ts:99-105 | Flattening an array with a nested array equals flattening with the nested items spliced in, as `.flat()` does. |
| VirtualEntry.FormatEntry | index.ts:97-110 | A missing or empty-string entry gives no pairs. Any other entry gives the same pairs as `main.js`'s flattening. |
| VirtualEntry.Registry | index.ts:112-125 | The `reduce` into a fresh `Map` gives a valid map. |
| VirtualEntry.RegistryWellFormed | index.ts:112-125 | Every item is stored under its own virtual id, which is its name wrapped. Its HTML name is `./<name>.html`, and it carries the given root. |
| VirtualEntry.RegistryKeys | index.ts:112-125 | An id is registered exactly when some entry derives to it. |
| VirtualEntry.RegistryLastWriteWins | index.ts:112-125 | Among entries deriving the same id, the last one is stored. |
| VirtualEntry.DeriveName | index.ts:113-115 | The route name of one entry: its name's derivation, or, when that is `index`, the derivation of its path without a leading `.`. `IndexNameDefersToPath` and `IndexNameStays` state its two cases. |
| VirtualEntry.MakeItem | index.ts:116-123 | The item stored for one entry. `RegistryWellFormed` and `RegistryLastWriteWins` state its fields. |
| VirtualEntry.IndexNameDefersToPath | index.ts:113-115 | An entry named `index` takes its route name from its path: `{index: "/src/admin/main.ts"}` under root `/src` becomes `admin/main`, with HTML name `./admin/main.html`. |
| VirtualEntry.IndexNameStays | index.ts:62-68 | The name `index` under root `/src` derives to `index` itself, which is what sends such an entry to its path. |
| VirtualEntry.BuildRegistry | index.ts:112-125 | The loop over the formatted entries builds exactly the registry `Registry` describes. |
| VirtualEntry.Inputs | index.ts:81-89 | The object `getInputs` reduces the map's values into: `acc[name] = virtualId` in key order, where the name `__proto__` reaches `Object.prototype`'s setter and stores nothing. `InputsOfSpec` states its contents. `main.js:31-40` is the same code. |
| VirtualEntry.InputsOfSpec | index.ts:81-89 | The build inputs hold a name exactly when some item has that name and the name is not `__proto__`, and its value is the id of the last such item in key order. |
| VirtualEntry.InputsNameToId | index.ts:81-89 | When ids follow names, an item's name is an input exactly when it is not `__proto__`, and each input maps to its own name's virtual id. |
| VirtualEntry.ProtoEntryHasNoInput | index.ts:81-89 | The entry `__proto__.ts` is registered under the route name `__proto__`, and the build inputs are empty. |
| VirtualEntry.GetInputs | index.ts:81-89 | The accumulator loop computes exactly the inputs `Inputs` describes. |
| VirtualEntry.Load | index.ts:147-151 | `load` answers exactly for registered ids, with an `import` of the item's entry. `main.js:80-84` is the same code. |
| VirtualEntry.ResolveId | index.ts:152-154 | `resolveId` claims exactly the registered ids, as themselves. `main.js:85-87` is the same code. |
| VirtualEntry.EntryLoads | index.ts:147-154 | The entry stored last under an id is the one that id resolves to and loads. |
| VirtualEntry.OnlyVirtualIdsResolve | main.js:80-87 | In a registry as `getEntries` builds it, which is all `main.js` registers, an id without the virtual prefix is never resolved or loaded. `index.ts` adds the raw key `index` (`ConfiguredResolves`). |
| VirtualEntry.Routes | index.ts:233 | The route list has one route per registry key, in key order, each the key unwrapped. |
| VirtualEntry.RouteWrapsToKey | index.ts:233 | In a registry as `getEntries` builds it, every listed route is non-empty and wraps back to the key it was listed from, so the dev lookup by `wrapVirtualId(id)` finds that key's item. |
| VirtualEntry.RewriteFacade | index.ts:214-223 | A chunk is changed only when its facade module is a registered id, and then that module becomes the item's HTML name. Nothing else about the chunk changes. |
| VirtualEntry.NoVirtualIdLeaks | index.ts:209-226 | If no HTML name is a registered id, no chunk's facade module is a registered id after the rewrite. |
| VirtualEntry.RegistryHtmlNamesUnregistered | index.ts:112-125 | No item's HTML name is a registered id. |
| VirtualEntry.RewriteFacades | index.ts:214-223 | The `for…in` loop rewrites every chunk of the bundle in place, by `RewriteFacade`. |
| VirtualEntry.Handles | index.ts:239-242 | The three `next()` guards: the response is open and `Accept` is present, not `*/*`, non-empty and starts with `text/html`. `HandlesOnlyHtml` states what this reduces to. `main.js:150-153` is the same code. |
| VirtualEntry.HandlesOnlyHtml | index.ts:239-242 | A request is handled exactly when the response is open and `Accept` starts with `text/html`. The bare wildcard is therefore never handled. |
| VirtualEntry.PathOf | index.ts:244 | The looked-up path is the URL up to its first `?`, and the whole URL when there is none. |
| VirtualEntry.OriginOf | index.ts:130-141 | An origin exists exactly when a non-empty `Origin` or any `Host` header was sent. It is that header (`Origin` first) unchanged when it already starts with `http://` or `https://`, and otherwise that header with `http://` put in front. |
| VirtualEntry.ConfigureBuild | index.ts:191-230 | For a build, the Rollup input becomes the registry's name-to-id object and the plugin list is patched; for `serve`, both are left as they were. `main.js:108-137` is the same code. |
| VirtualEntry.PatchPlugins | index.ts:195-228 | The plugin list keeps its length and names. Exactly the plugins named `vite:build-html` get their hooks wrapped once more. |
| IndexPlugin.RenderHTML | index.ts:155-178 | An `.html` entry gives the file's contents, or nothing when the file is missing. Any other entry gives either the hook's trimmed result, when that passes the HTML test, or the skeleton for the entry without its root. The result then always passes the HTML test. A lookup that found nothing renders the empty default item. |
| IndexPlugin.WithIndex | index.ts:181-190 | The map with the project's `index.html` added under the raw key `index` when the file exists and that key is absent; it stays a valid map. `IndexSynthesis` states when and how it changes. |
| IndexPlugin.Configured | index.ts:180-190 | The registry `configResolved` leaves behind, a valid map. `IndexSynthesis`, `ConfiguredInputs` and `ConfiguredResolves` state its contents. |
| IndexPlugin.IndexSynthesis | index.ts:179-190 | The entries never occupy the raw key `index`. So an existing `index.html` is always appended under that raw key, and nothing else changes; without the file the registry is unchanged. |
| IndexPlugin.ConfiguredResolves | index.ts:147-154 | Outside the virtual namespace the configured registry claims exactly the bare id `index`, and only when `index.html` exists; that id resolves to itself and loads `import "<indexPath>";`. |
| IndexPlugin.ConfiguredInputs | index.ts:191-193 | With the synthesised page included, every configured item's name other than `__proto__` is a build input pointing at that name's virtual id. |
| IndexPlugin.ConfiguredHtmlNamesUnregistered | index.ts:179-190 | No HTML name collides with a registered key, the raw `index` included. |
| IndexPlugin.StripHtmOrSlash | index.ts:270 | Exactly one trailing `.htm` or `/` is removed when the path ends with one, and the path is unchanged exactly when it ends with neither. |
| IndexPlugin.NormalizeUrl | index.ts:266-271 | `/` and `/index.html` become `index`; any other path loses exactly one trailing `.htm` or `/`, and only when it has one. |
| IndexPlugin.FoundId | index.ts:234-236 | `foundId` returns the first route, in registry order, contained anywhere in the URL, and nothing exactly when no route is contained. |
| IndexPlugin.FoundIdAt | index.ts:234-236 | A route contained in the URL, with no earlier route contained, is the one chosen. |
| IndexPlugin.SpaFallbackExample | index.ts:245-265 | With the route `/base`, the URLs `/base`, `/base/sub` and `/base/sub/path` resolve to it, while `/other` and `/other/sub/path` resolve to nothing. |
| IndexPlugin.LookupHtml | index.ts:266-276 | The page the route found for the normalised path renders to, before the truthiness test. `ServedIsFoundItem` states which item that is. |
| IndexPlugin.DevRoute | index.ts:238-280 | The outcome of one request in the dev middleware. `DevRouteOutcome` states its cases. |
| IndexPlugin.DevRouteOutcome | index.ts:238-280 | Unhandled requests pass on. A handled request is served, under its original URL, exactly when the route it resolves to renders to something truthy. Otherwise the handler throws if neither `Origin` nor `Host` is usable, and else it lists every route, numbered from 1. |
| IndexPlugin.ServedIsFoundItem | index.ts:272-276 | Over any registry `getEntries` builds, a request whose normalised path first contains route `i` is rendered with the item stored under key `i`, and a path containing no route renders nothing. |
| IndexPlugin.DefaultRendersEmptySkeleton | index.ts:156-160 | When the lookup found nothing, `renderHTML` renders the empty default item, without a hook, as the skeleton with an empty `src`. That page is truthy, so it is served. |
| IndexPlugin.IndexRequestRendersDefault | index.ts:181-190 | With `index.html` on disk and no entry deriving `index`, the raw `index` key holds the file, and a request for `/` or `/index.html` resolves to the raw `index` route. The lookup by wrapped id then misses, so, with or without a hook, what is served is the rendering of the empty default item, never the project's `index.html`. |
| IndexPlugin.IndexRequestFindsIndexEntry | index.ts:181-190 | With `index.html` on disk and an entry deriving the route name `index`, a request for `/` or `/index.html` finds the raw `index` route, and the lookup by wrapped id then finds that entry's item, which is what gets rendered. |
| IndexPlugin.IndexRequestServesEmptySkeleton | index.ts:181-190 | Without a render hook, that page is the skeleton with an empty `src`. |
| IndexPlugin.IndexInputUnresolved | index.ts:181-193 | In a build, the synthesised page's Rollup input is the wrapped id of `index`, which `resolveId` does not claim, since only the raw key is registered. |
| IndexPlugin.Plugin.ConfigResolved | index.ts:179-230 | The registry becomes the entries' registry plus the synthesised page. For a build, the Rollup input becomes its inputs and the plugin list is patched; for `serve`, the configuration is untouched. |
| IndexPlugin.Plugin.ConfigureServer | index.ts:232-233 | The route list is captured from the registry as it is at that moment. |
| IndexPlugin.Plugin.Middleware | index.ts:238-280 | The middleware's step-by-step handling of a request gives exactly the outcome `DevRoute` describes. |
| IndexPlugin.Plugin.Transform | index.ts:200-208 | For a registered id, the original hook receives the item's HTML name and the rendered page. Any other call passes through unchanged. |
| IndexPlugin.Plugin.GenerateBundle | index.ts:209-226 | Every chunk of the bundle is rewritten in place by `RewriteFacade` before the original hook runs. |
| LegacyPlugin.RenderHTML | main.js:88-105 | An `.html` entry gives the file's contents when it exists. Any other entry gives the hook's result, untrimmed, when it passes the HTML test, and otherwise the skeleton; either way the result passes the HTML test. |
| LegacyPlugin.TrimDecides | main.js:93-95 | The two renderers differ by `trim`: a hook page that is a document after one leading blank is used by `index.ts`, while `main.js` falls back to the skeleton. |
| LegacyPlugin.IndexKeepsTrimmed | index.ts:164-166 | A hook page that is an HTML document after one leading blank is served by `index.ts` with the blank trimmed off. |
| LegacyPlugin.ListingPage | main.js:163-166 | The not-found page names the requested URL, links every route, and ends the list. |
| LegacyPlugin.ListItems | main.js:141-148 | The joined list holds a link item for every route. |
| LegacyPlugin.LookupKey | main.js:155-156 | The id looked up for a request: the path before `?`, its first `.html` removed, wrapped. `ExactRoute` and `LegacyMissesExtension` state which ids it gives. |
| LegacyPlugin.DevRoute | main.js:149-172 | The outcome of one request in `main.js`'s dev middleware. `DevRouteOutcome` states its cases. |
| LegacyPlugin.DevRouteOutcome | main.js:149-172 | A handled request is served exactly when its path, with its first `.html` removed, is a registered route. It is then served under the path without the query, with that item's rendering. Otherwise it gets the listing of every current route, or throws without an origin. |
| LegacyPlugin.ExactRoute | main.js:155-156 | A path that is exactly a route holding no `.html`, with or without `.html` appended, is looked up under that route's id. |
| LegacyPlugin.LegacyMissesExtension | main.js:155-156 | A path that extends a route (and holds no `.html`) is looked up under an id other than that route's. |
| LegacyPlugin.HtmlFirstAtEnd | main.js:156 | Appending `.html` to a path that holds none puts the first occurrence at the end, so `replace` strips just that. |
| LegacyPlugin.PrefixFallbackIsNew | main.js:149-172 | With a single route `base` registered, a request for any longer path under it (such as `/base/sub/path` under `/base`) is served by `index.ts`, while `main.js` finds no route for it. This holds for paths without `.html` and without a trailing `/` or `.htm`. |
| LegacyPlugin.IndexServesExtension | index.ts:266-276 | With the single route `base`, a path that extends it (without `.html`, a trailing `/` or `.htm`) is left as it is by normalisation, finds `base`, and renders to a truthy page. |
| LegacyPlugin.Plugin.ConfigResolved | main.js:106-139 | The registry becomes the flattened entries' registry, with no synthesised page. For a build, the inputs are set and the plugin list is patched. |
| LegacyPlugin.Plugin.Middleware | main.js:149-172 | The middleware's handling of a request gives exactly the outcome `DevRoute` describes. |
| LegacyPlugin.Plugin.Transform | main.js:114-122 | For a registered id, the original hook receives the item's HTML name and the page from the untrimmed renderer. Any other call passes through. |
| LegacyPlugin.Plugin.GenerateBundle | main.js:123-135 | Every chunk whose facade module is registered gets the item's HTML name, in place. |

## Behaviour as written

These points follow the code, even where the plugin's documented behaviour
suggests otherwise:

- Removing `root` from a name or path removes its first occurrence
  anywhere, not only a leading one.
- Entries with an empty name or path are not rejected. They go through
  the same derivation as any other entry. The one exception is a
  top-level `entry` that is missing or the empty string in `index.ts`,
  which yields no pages.
- Route-name derivation is not idempotent (`EntryNameNotIdempotent`).
- `main.js` tests the hook's result without trimming it (`TrimDecides`).
- `index.ts` stores the synthesised page under the raw key `index`, while
  every lookup in the dev server wraps the id first. When no entry derives
  the route name `index`, a request for `/` therefore renders the empty
  default item: without a render hook it gets the skeleton page with an
  empty script `src` (`IndexRequestServesEmptySkeleton`); with a hook it
  gets whatever the hook makes of that item, if it passes the HTML test
  (`IndexRequestRendersDefault`). In a build, when no entry derives the
  route name `index`, the input Rollup receives for that page is the
  wrapped id of `index`, which `resolveId` does not claim
  (`IndexInputUnresolved`). When an entry does derive `index` (such as
  `entry: "index.ts"`), the wrapped lookup hits and `/` is rendered with
  that entry's page (`IndexRequestFindsIndexEntry`). The model keeps this
  behaviour.
- The same raw key makes `index.ts`'s `resolveId` and `load` claim the
  bare module id `index` whenever `index.html` exists: `import "index"`
  loads the project's `index.html` as a module (`ConfiguredResolves`).
- `getInputs` assigns into a plain `{}` object. A page whose route name is
  `__proto__` (the entry `__proto__.ts`, say) reaches the setter that
  `Object.prototype` holds under that name, which ignores a string, so
  that page gets no build input (`ProtoEntryHasNoInput`).

## Left out

- File-system access (`fs.existsSync`, `fs.readFileSync`) and `path.resolve`. They are a map of existing files and a parameter.
- The HTTP plumbing. `next()`, `res.setHeader`/`res.end` and `server.transformIndexHtml` become the outcome values `Next`, `Listing` and `ServeHtml`; what Vite does with the page afterwards is not modelled.
- `async`/`await`, and `console.log` of the fallback warning.
- The bodies of Vite's original `transform` and `generateBundle`. Only the arguments passed to them are modelled.
- `createPlugin` returning `null` when called without options (`index.ts`), and `main.js` throwing when `entry` is missing. In the model, `main.js`'s `entry` is required.
- Key order of the Rollup input object. It is modelled as a map, and only its contents are stated.
- Entry values that are not strings inside an object entry. Only string paths are modelled.
- `Accept` headers given as arrays. The header is modelled as one optional string.
- Exceptions thrown by a user `render` hook. The hook is a total function.
- The Vite and Rollup type declarations (`index.ts:1-20`, `index.ts:70-95`). They carry no behaviour.
