/**
 * The pure logic of the plugin that both `index.ts` and its older variant
 * `main.js` share: HTML templates, virtual module ids, route-name
 * derivation, entry flattening, the registry the plugin builds from the
 * flattened entries, the projection of that registry to Rollup inputs, the
 * rewrite of bundle chunks, and the request filter of the dev middleware.
 */
module VirtualEntry {
  import opened JsString
  import opened JsMap

  const PluginName: string := "vite-plugin-multi-virtual-html"

  /** The reserved prefix of every virtual module id; its first character is NUL. */
  const Prefix: string := "\0virtual__" + PluginName + "__"

  // ---------------------------------------------------------------------
  // HTML templates

  const Doctype: string := "<!DOCTYPE"
  const SkeletonHead: string :=
    Doctype + " html>\n<html>\n<head></head>\n" + "<body><script type=\"module\" src=\""
  const SkeletonTail: string := "\"></script></body>\n</html>\n"

  /** The case-insensitive test `/^(\<(html|!doctype))/i`. */
  predicate LooksLikeHtml(s: string) {
    StartsWithIgnoringCase(s, "<html") || StartsWithIgnoringCase(s, "<!doctype")
  }

  /** Whatever passes the test begins with `<`: no letter folds onto it. */
  lemma HtmlStartsWithAngle(s: string)
    ensures LooksLikeHtml(s) ==> s != [] && s[0] == '<'
  {
    assert "<html"[0] == '<' && "<!doctype"[0] == '<';
  }

  lemma DoctypeLooksLikeHtml(s: string)
    requires StartsWith(s, Doctype)
    ensures LooksLikeHtml(s)
  {
    assert s[..9] == Doctype;
    assert s[0] == '<' && s[1] == '!' && s[2] == 'D' && s[3] == 'O' && s[4] == 'C';
    assert s[5] == 'T' && s[6] == 'Y' && s[7] == 'P' && s[8] == 'E';
  }

  /** The built-in page: one module script whose `src` is `entry`. */
  function BuildHTML(entry: string): (r: string)
    ensures LooksLikeHtml(r)
    ensures |r| == |SkeletonHead| + |entry| + |SkeletonTail|
    ensures r[|SkeletonHead|..|SkeletonHead| + |entry|] == entry
  {
    var r := SkeletonHead + entry + SkeletonTail;
    assert r[..|Doctype|] == Doctype;
    DoctypeLooksLikeHtml(r);
    r
  }

  const NotFoundHead: string := "<!DOCTYPE html>\n<html>\n<head></head>\n<body>\n"
  const ListingHeading: string := "\n<h3>Available paths: </h3>\n"
  const NotFoundTail: string := "\n</body>\n</html>\n"

  function Apology(url: string): string {
    " <h2>Sorry, Request path'" + url + "'not found</h2>"
  }

  /** One numbered line of the listing; `n` is the 1-based position. */
  function LinkLine(n: nat, origin: string, name: string): string {
    "<div>" + NatToString(n) + ".<a href='" + origin + name + "'>" + origin + name + "</a></div>"
  }

  function Links(keys: seq<string>, origin: string, n: nat): string
    decreases |keys|
  {
    if keys == [] then "" else LinkLine(n, origin, keys[0]) + Links(keys[1..], origin, n + 1)
  }

  lemma {:induction false} LinksInclude(keys: seq<string>, origin: string, n: nat, i: nat)
    requires i < |keys|
    ensures Includes(Links(keys, origin, n), LinkLine(n + i, origin, keys[i]))
    decreases |keys|
  {
    var line := LinkLine(n, origin, keys[0]);
    var rest := Links(keys[1..], origin, n + 1);
    if i == 0 {
      assert (line + rest)[..|line|] == line;
      IncludesAt(line + rest, line, 0);
    } else {
      LinksInclude(keys[1..], origin, n + 1, i - 1);
      IncludesInside(line, rest, "", LinkLine(n + i, origin, keys[i]));
      assert line + rest + "" == line + rest;
    }
  }

  /** An occurrence inside `s` is an occurrence inside any text that has `s` in it. */
  lemma IncludesInside(a: string, s: string, b: string, p: string)
    requires Includes(s, p)
    ensures Includes(a + s + b, p)
  {
    var k := IndexOf(s, p).value;
    var t := a + s + b;
    assert t[|a| + k..|a| + k + |p|] == s[k..k + |p|];
    IncludesAt(t, p, |a| + k);
  }

  /**
   * The page that lists every registered route when a request matched
   * none: an apology naming the request path unless that path is `/`, then
   * one numbered link per key, in the order given.
   */
  function BuildNotFound(keys: seq<string>, url: string, origin: string): (r: string)
    ensures forall i :: 0 <= i < |keys| ==> Includes(r, LinkLine(i + 1, origin, keys[i]))
    ensures url != "/" ==> Includes(r, Apology(url))
    ensures url == "/" ==> StartsWith(r, NotFoundHead + ListingHeading)
  {
    var heading := if url != "/" then Apology(url) else "";
    NotFoundShape(heading, keys, origin);
    NotFoundHead + heading + ListingHeading + Links(keys, origin, 1) + NotFoundTail
  }

  lemma NotFoundShape(heading: string, keys: seq<string>, origin: string)
    ensures var r := NotFoundHead + heading + ListingHeading + Links(keys, origin, 1) + NotFoundTail;
      && (forall i :: 0 <= i < |keys| ==> Includes(r, LinkLine(i + 1, origin, keys[i])))
      && Includes(r, heading)
      && (heading == "" ==> StartsWith(r, NotFoundHead + ListingHeading))
  {
    var listing := Links(keys, origin, 1);
    var before := NotFoundHead + heading + ListingHeading;
    var r := NotFoundHead + heading + ListingHeading + listing + NotFoundTail;
    assert r == before + listing + NotFoundTail;
    forall i | 0 <= i < |keys|
      ensures Includes(r, LinkLine(i + 1, origin, keys[i]))
    {
      LinksInclude(keys, origin, 1, i);
      IncludesInside(before, listing, NotFoundTail, LinkLine(i + 1, origin, keys[i]));
    }
    assert r[|NotFoundHead|..|NotFoundHead| + |heading|] == heading;
    IncludesAt(r, heading, |NotFoundHead|);
    if heading == "" {
      assert r[..|NotFoundHead + ListingHeading|] == NotFoundHead + ListingHeading;
    }
  }

  // ---------------------------------------------------------------------
  // File system oracle

  /**
   * `readHtml` in `index.ts`: a file is read only when its name is a
   * non-empty `.html` path; `files` maps each existing path to its contents.
   */
  function ReadHtml(files: map<string, string>, filename: string): (r: Option<string>)
    ensures r.Some? <==> filename != "" && EndsWith(filename, ".html") && filename in files
    ensures r.Some? ==> r.value == files[filename]
  {
    if filename == "" || !EndsWith(filename, ".html") then None
    else if filename !in files then None
    else Some(files[filename])
  }

  // ---------------------------------------------------------------------
  // Virtual module ids

  /** `name` with a `/` put in front unless it has one already. */
  function Slashed(name: string): (r: string)
    ensures StartsWith(r, "/")
  {
    if StartsWith(name, "/") then name else "/" + name
  }

  /** `wrapVirtualId` (`generateVirtualId` in `main.js`). */
  function WrapVirtualId(name: string): (r: string)
    ensures StartsWith(r, Prefix) && |r| > |Prefix| && r[|Prefix|] == '/'
  {
    var r := Prefix + Slashed(name);
    assert r[..|Prefix|] == Prefix;
    r
  }

  /** `unwrapVirtualId`: the first occurrence of the prefix is removed, wherever it is. */
  function UnwrapVirtualId(id: string): (r: string)
    ensures !Includes(id, Prefix) ==> r == id
    ensures StartsWith(id, Prefix) ==> r == id[|Prefix|..]
  {
    assert StartsWith(id, Prefix) ==> OccursAt(id, Prefix, 0);
    RemoveFirst(id, Prefix)
  }

  lemma UnwrapWrap(name: string)
    ensures UnwrapVirtualId(WrapVirtualId(name)) == Slashed(name)
    ensures StartsWith(UnwrapVirtualId(WrapVirtualId(name)), "/")
    ensures StartsWith(name, "/") ==> UnwrapVirtualId(WrapVirtualId(name)) == name
    ensures !StartsWith(name, "/") ==> UnwrapVirtualId(WrapVirtualId(name)) == "/" + name
  {
    var id := WrapVirtualId(name);
    assert id[|Prefix|..] == Slashed(name);
  }

  /** Two names share a virtual id exactly when they agree once a leading `/` is ensured. */
  lemma WrapInjective(a: string, b: string)
    ensures WrapVirtualId(a) == WrapVirtualId(b) <==> Slashed(a) == Slashed(b)
  {
    if WrapVirtualId(a) == WrapVirtualId(b) {
      UnwrapWrap(a);
      UnwrapWrap(b);
    }
  }

  /** No virtual id is a path starting with `.` or the bare word `index`. */
  lemma WrapIsReserved(name: string)
    ensures WrapVirtualId(name) != "index"
    ensures !StartsWith(WrapVirtualId(name), "./")
  {
    var id := WrapVirtualId(name);
    assert id[0] == Prefix[0] == '\0';
  }

  // ---------------------------------------------------------------------
  // Route-name derivation

  /** `.replace(/^((\.)?\/)/, "")`: one leading `./`, or else one leading `/`. */
  function StripLeadingSlash(s: string): string {
    if StartsWith(s, "./") then s[2..] else if StartsWith(s, "/") then s[1..] else s
  }

  const Extensions: seq<string> := [".html", ".js", ".ts", ".jsx", ".tsx"]

  /** `.replace(/\.(html|js|ts|jsx|tsx)$/, "")`: at most one of these suffixes can match. */
  function StripExtension(s: string): string {
    if EndsWith(s, ".html") then s[..|s| - 5]
    else if EndsWith(s, ".jsx") || EndsWith(s, ".tsx") then s[..|s| - 4]
    else if EndsWith(s, ".js") || EndsWith(s, ".ts") then s[..|s| - 3]
    else s
  }

  /** `.replace(/(\/)$/, "")`. */
  function StripTrailingSlash(s: string): string {
    if EndsWith(s, "/") then s[..|s| - 1] else s
  }


  predicate IsLeadingPart(s: string) { s == "" || s == "./" || s == "/" }
  predicate IsExtensionPart(s: string) {
    s == "" || s in Extensions
  }
  predicate IsTrailingPart(s: string) { s == "" || s == "/" }

  /**
   * Each removed part is as long as the rules allow: no leading part is
   * left behind when `./` or `/` begins the text, no extension when the
   * text after the leading part ends with one, and no trailing `/` when the
   * text before the extension ends with one.
   */
  predicate MaximalParts(s0: string, lead: string, tail: string, ext: string)
    requires |lead| + |ext| <= |s0|
  {
    && (lead == "" ==> !StartsWith(s0, "./") && !StartsWith(s0, "/"))
    && (lead == "/" ==> !StartsWith(s0, "./"))
    && (ext == "" ==> forall e :: e in Extensions ==> !EndsWith(s0[|lead|..], e))
    && (tail == "" ==> !EndsWith(s0[|lead|..|s0| - |ext|], "/"))
  }

  /**
   * `getEntryName`: removes the first occurrence of `root`, then one
   * leading `./` or `/`, then one script or HTML extension, then one
   * trailing `/`. What it keeps is a contiguous piece of the name once
   * `root` is gone: before it the leading part, after it the trailing `/`
   * and then the extension, each removed once and each removed whenever
   * present.
   */
  function GetEntryName(name: string, root: string): (r: string)
    ensures |r| <= |name|
    ensures exists lead, tail, ext ::
      && IsLeadingPart(lead) && IsTrailingPart(tail) && IsExtensionPart(ext)
      && RemoveFirst(name, root) == lead + r + tail + ext
      && MaximalParts(RemoveFirst(name, root), lead, tail, ext)
  {
    var s0 := RemoveFirst(name, root);
    DerivationSplits(s0);
    StripTrailingSlash(StripExtension(StripLeadingSlash(s0)))
  }

  lemma DerivationSplits(s0: string)
    ensures exists lead, tail, ext ::
      && IsLeadingPart(lead) && IsTrailingPart(tail) && IsExtensionPart(ext)
      && s0 == lead + StripTrailingSlash(StripExtension(StripLeadingSlash(s0))) + tail + ext
      && MaximalParts(s0, lead, tail, ext)
  {
    var lead, tail, ext := SplitDerivation(s0);
  }

  lemma SplitDerivation(s0: string) returns (lead: string, tail: string, ext: string)
    ensures IsLeadingPart(lead) && IsTrailingPart(tail) && IsExtensionPart(ext)
    ensures s0 == lead + StripTrailingSlash(StripExtension(StripLeadingSlash(s0))) + tail + ext
    ensures MaximalParts(s0, lead, tail, ext)
  {
    var s1 := StripLeadingSlash(s0);
    var s2 := StripExtension(s1);
    lead := LeadingSplit(s0);
    ext := ExtensionSplit(s1);
    tail := TrailingSplit(s2);
    Regroup(s0, s1, s2, StripTrailingSlash(s2), lead, tail, ext);
    MaximalFromSteps(s0, s1, s2, lead, tail, ext);
  }

  /** The maximality of each removed part, read off the three steps it came from. */
  lemma MaximalFromSteps(s0: string, s1: string, s2: string, lead: string, tail: string, ext: string)
    requires s0 == lead + s1 && s1 == s2 + ext
    requires lead == "" ==> !StartsWith(s0, "./") && !StartsWith(s0, "/")
    requires lead == "/" ==> !StartsWith(s0, "./")
    requires ext == "" ==> forall e :: e in Extensions ==> !EndsWith(s1, e)
    requires tail == "" ==> !EndsWith(s2, "/")
    ensures MaximalParts(s0, lead, tail, ext)
  {
    assert s0[|lead|..] == s1;
    assert s0[|lead|..|s0| - |ext|] == s2;
  }

  lemma Regroup(s0: string, s1: string, s2: string, s3: string, lead: string, tail: string, ext: string)
    requires s0 == lead + s1 && s1 == s2 + ext && s2 == s3 + tail
    ensures s0 == lead + s3 + tail + ext
  {
  }

  lemma LeadingSplit(s: string) returns (lead: string)
    ensures IsLeadingPart(lead) && s == lead + StripLeadingSlash(s)
    ensures lead == "" ==> !StartsWith(s, "./") && !StartsWith(s, "/")
    ensures lead == "/" ==> !StartsWith(s, "./")
  {
    lead := if StartsWith(s, "./") then "./" else if StartsWith(s, "/") then "/" else "";
  }

  lemma ExtensionSplit(s: string) returns (ext: string)
    ensures IsExtensionPart(ext) && s == StripExtension(s) + ext
    ensures ext == "" ==> forall e :: e in Extensions ==> !EndsWith(s, e)
  {
    ext :=
      if EndsWith(s, ".html") then ".html"
      else if EndsWith(s, ".jsx") then ".jsx"
      else if EndsWith(s, ".tsx") then ".tsx"
      else if EndsWith(s, ".js") then ".js"
      else if EndsWith(s, ".ts") then ".ts"
      else "";
  }

  lemma TrailingSplit(s: string) returns (tail: string)
    ensures IsTrailingPart(tail) && s == StripTrailingSlash(s) + tail
    ensures tail == "" ==> !EndsWith(s, "/")
  {
    tail := if EndsWith(s, "/") then "/" else "";
  }

  // Single steps of the derivation on names of a known shape.

  lemma RemoveAbsent(s: string, p: string)
    requires p != [] && p[0] !in s
    ensures RemoveFirst(s, p) == s
  {
    assert forall j :: 0 <= j && j + |p| <= |s| ==> s[j..j + |p|][0] == s[j];
  }

  lemma RemoveEmpty(s: string)
    ensures RemoveFirst(s, "") == s
  {
    assert OccursAt(s, "", 0);
  }

  lemma RemoveLeading(s: string, p: string)
    requires StartsWith(s, p)
    ensures RemoveFirst(s, p) == s[|p|..]
  {
    assert OccursAt(s, p, 0);
  }

  lemma NoLeadingSlash(s: string)
    requires s != [] && s[0] != '.' && s[0] != '/'
    ensures StripLeadingSlash(s) == s
  {
    assert "./"[0] == '.' && "/"[0] == '/';
  }

  lemma OneLeadingSlash(s: string)
    requires s != [] && s[0] == '/'
    ensures StripLeadingSlash(s) == s[1..]
  {
    assert "./"[0] == '.';
    assert s[..1] == "/";
  }

  /** A suffix whose last character differs from the string's last character is not a suffix. */
  lemma LastCharRules(s: string, p: string)
    requires s != [] && p != [] && s[|s| - 1] != p[|p| - 1]
    ensures !EndsWith(s, p)
  {
    if |p| <= |s| {
      assert s[|s| - |p|..][|p| - 1] == s[|s| - 1];
    }
  }

  lemma NoExtension(s: string)
    requires '.' !in s
    ensures StripExtension(s) == s
  {
    assert forall k :: 0 <= k <= |s| ==> s[k..] == [] || s[k..][0] != '.';
  }

  lemma TsExtension(base: string)
    ensures StripExtension(base + ".ts") == base
  {
    var s := base + ".ts";
    assert s[|s| - 3..] == ".ts";
    assert s[|s| - 1] == 's';
    assert ".html"[4] == 'l' && ".jsx"[3] == 'x' && ".tsx"[3] == 'x';
    LastCharRules(s, ".html");
    LastCharRules(s, ".jsx");
    LastCharRules(s, ".tsx");
    assert s[..|s| - 3] == base;
  }

  lemma NoTrailingSlash(s: string)
    requires s != [] && s[|s| - 1] != '/'
    ensures StripTrailingSlash(s) == s
  {
    LastCharRules(s, "/");
  }

  /** A plain relative name with a `.ts` extension derives to the name without it. */
  lemma TsNameDerives(base: string)
    requires base != [] && base[0] != '.' && base[0] != '/' && base[|base| - 1] != '/'
    ensures GetEntryName(base + ".ts", "") == base
  {
    var s := base + ".ts";
    RemoveEmpty(s);
    assert s[0] == base[0];
    NoLeadingSlash(s);
    TsExtension(base);
    NoTrailingSlash(base);
  }

  /**
   * Deriving a route name twice is not the same as deriving it once:
   * `a.ts.ts` loses one extension per derivation.
   */
  lemma EntryNameNotIdempotent()
    ensures GetEntryName("a.ts.ts", "") == "a.ts"
    ensures GetEntryName(GetEntryName("a.ts.ts", ""), "") == "a"
  {
    DoubleTsDerives();
    SingleTsDerives();
  }

  lemma DoubleTsDerives()
    ensures GetEntryName("a.ts.ts", "") == "a.ts"
  {
    assert "a.ts"[0] == 'a' && "a.ts"[3] == 's';
    TsNameDerives("a.ts");
    assert "a.ts" + ".ts" == "a.ts.ts";
  }

  lemma SingleTsDerives()
    ensures GetEntryName("a.ts", "") == "a"
  {
    TsNameDerives("a");
    assert "a" + ".ts" == "a.ts";
  }

  // ---------------------------------------------------------------------
  // Entry flattening

  /** What a user may pass as `entry`: a path, a name-to-path object, or an array of these. */
  datatype EntrySpec =
    | File(path: string)
    | Named(pairs: seq<(string, string)>)  // the object's properties in iteration order
    | List(items: seq<EntrySpec>)

  datatype FormattedEntry = FormattedEntry(name: string, entry: string)

  /** How many paths a specification holds, counted independently of flattening. */
  function LeafCount(e: EntrySpec): nat
    decreases e, 1
  {
    match e
    case File(_) => 1
    case Named(pairs) => |pairs|
    case List(items) => LeafCountAll(items)
  }

  function LeafCountAll(items: seq<EntrySpec>): nat
    decreases items, 0
  {
    if items == [] then 0 else LeafCount(items[0]) + LeafCountAll(items[1..])
  }

  function PairsToEntries(pairs: seq<(string, string)>): (r: seq<FormattedEntry>)
    ensures |r| == |pairs|
    ensures forall i :: 0 <= i < |pairs| ==> r[i] == FormattedEntry(pairs[i].0, pairs[i].1)
  {
    seq(|pairs|, i requires 0 <= i < |pairs| => FormattedEntry(pairs[i].0, pairs[i].1))
  }

  /**
   * `formatEntry` applied to a present entry, which is all of it in
   * `main.js`; in `index.ts` it is the same once the top-level falsy check
   * has passed. A string stands for itself as both name and path.
   */
  function Flatten(e: EntrySpec): (r: seq<FormattedEntry>)
    ensures |r| == LeafCount(e)
    decreases e, 1
  {
    match e
    case File(p) => [FormattedEntry(p, p)]
    case Named(pairs) => PairsToEntries(pairs)
    case List(items) => FlattenAll(items)
  }

  /** The `map(...).flat()` over an array of specifications. */
  function FlattenAll(items: seq<EntrySpec>): (r: seq<FormattedEntry>)
    ensures |r| == LeafCountAll(items)
    decreases items, 0
  {
    if items == [] then [] else Flatten(items[0]) + FlattenAll(items[1..])
  }

  /** Flattening an array is flattening its two halves one after the other. */
  lemma {:induction false} FlattenAllAppend(a: seq<EntrySpec>, b: seq<EntrySpec>)
    ensures FlattenAll(a + b) == FlattenAll(a) + FlattenAll(b)
    decreases |a|
  {
    if a == [] {
      assert a + b == b;
    } else {
      assert (a + b)[0] == a[0];
      assert (a + b)[1..] == a[1..] + b;
      FlattenAllAppend(a[1..], b);
    }
  }

  /** Nesting is transparent: an array inside an array flattens in place. */
  lemma FlattenNested(a: seq<EntrySpec>, inner: seq<EntrySpec>, b: seq<EntrySpec>)
    ensures Flatten(List(a + [List(inner)] + b)) == FlattenAll(a) + FlattenAll(inner) + FlattenAll(b)
  {
    var single := [List(inner)];
    FlattenAllAppend(a + single, b);
    FlattenAllAppend(a, single);
    assert single[1..] == [];
    assert FlattenAll(single) == Flatten(List(inner)) + FlattenAll([]);
    assert FlattenAll(single) == FlattenAll(inner);
  }

  /**
   * `formatEntry` in `index.ts`: a missing or empty-string entry gives
   * nothing; anything else flattens as `main.js` does.
   */
  function FormatEntry(entry: Option<EntrySpec>): (r: seq<FormattedEntry>)
    ensures entry.None? || entry == Some(File("")) ==> r == []
    ensures entry.Some? && entry != Some(File("")) ==> |r| == LeafCount(entry.value)
    ensures entry.Some? && entry != Some(File("")) ==> r == Flatten(entry.value)
  {
    match entry
    case None => []
    case Some(File(p)) => if p == "" then [] else [FormattedEntry(p, p)]
    case Some(e) => Flatten(e)
  }

  // ---------------------------------------------------------------------
  // Registry

  datatype VirtualItem = VirtualItem(
    entry: string,
    htmlName: string,
    name: string,
    virtualId: string,
    root: string)

  type VirtualMap = OrderedMap<VirtualItem>

  /** `entry.replace(/^(\.)/, "")`. */
  function StripLeadingDot(entry: string): string {
    if StartsWith(entry, ".") then entry[1..] else entry
  }

  /** The route name of an entry: its derived name, or its path's when the name derives to `index`. */
  function DeriveName(root: string, e: FormattedEntry): string {
    var name := GetEntryName(e.name, root);
    if name == "index" then GetEntryName(StripLeadingDot(e.entry), root) else name
  }

  function HtmlName(name: string): string {
    "./" + name + ".html"
  }

  /** The item the reducer in `getEntries` stores for one formatted entry. */
  function MakeItem(root: string, e: FormattedEntry): VirtualItem {
    var name := DeriveName(root, e);
    VirtualItem(StripLeadingDot(e.entry), HtmlName(name), name, WrapVirtualId(name), root)
  }

  function KeyOf(root: string, e: FormattedEntry): string {
    WrapVirtualId(DeriveName(root, e))
  }

  /** The map `getEntries` reduces the formatted entries into, one `set` per entry. */
  function Registry(root: string, entries: seq<FormattedEntry>): (r: VirtualMap)
    ensures r.Valid()
    decreases |entries|
  {
    if entries == [] then Empty()
    else
      var last := entries[|entries| - 1];
      Registry(root, entries[..|entries| - 1]).Set(KeyOf(root, last), MakeItem(root, last))
  }

  /** Every item's id is derived from its own name. */
  ghost predicate IdsMatchNames(m: VirtualMap) {
    forall k :: k in m.items ==> m.items[k].virtualId == WrapVirtualId(m.items[k].name)
  }

  /**
   * An item as `getEntries` makes it: stored under its own virtual id, with
   * the HTML name built from its name, and the given root.
   */
  ghost predicate WellFormedItem(root: string, k: string, item: VirtualItem) {
    && item.virtualId == k
    && k == WrapVirtualId(item.name)
    && item.htmlName == HtmlName(item.name)
    && item.root == root
  }

  lemma {:induction false} RegistryWellFormed(root: string, entries: seq<FormattedEntry>)
    ensures forall k :: k in Registry(root, entries).items ==>
      WellFormedItem(root, k, Registry(root, entries).items[k])
    ensures IdsMatchNames(Registry(root, entries))
    decreases |entries|
  {
    if entries != [] {
      RegistryWellFormed(root, entries[..|entries| - 1]);
    }
  }

  /** The registry has a key exactly for each entry's derived id. */
  lemma {:induction false} RegistryKeys(root: string, entries: seq<FormattedEntry>, k: string)
    ensures k in Registry(root, entries).items <==>
      exists i :: 0 <= i < |entries| && KeyOf(root, entries[i]) == k
    decreases |entries|
  {
    if entries != [] {
      var init := entries[..|entries| - 1];
      RegistryKeys(root, init, k);
      if k in Registry(root, init).items {
        var i :| 0 <= i < |init| && KeyOf(root, init[i]) == k;
        assert entries[i] == init[i];
      }
      if exists i :: 0 <= i < |entries| && KeyOf(root, entries[i]) == k {
        var i :| 0 <= i < |entries| && KeyOf(root, entries[i]) == k;
        if i < |init| {
          assert init[i] == entries[i];
        }
      }
    }
  }

  /** Same derived name, last entry wins: an entry not overridden later is the one stored. */
  lemma {:induction false} RegistryLastWriteWins(root: string, entries: seq<FormattedEntry>, i: nat)
    requires i < |entries|
    requires forall j :: i < j < |entries| ==> KeyOf(root, entries[j]) != KeyOf(root, entries[i])
    ensures KeyOf(root, entries[i]) in Registry(root, entries).items
    ensures Registry(root, entries).items[KeyOf(root, entries[i])] == MakeItem(root, entries[i])
    decreases |entries|
  {
    if i < |entries| - 1 {
      var init := entries[..|entries| - 1];
      assert init[i] == entries[i];
      RegistryLastWriteWins(root, init, i);
    }
  }

  /**
   * The name `index` defers to the entry's path: `{index: "/src/admin/main.ts"}`
   * under root `/src` becomes the route `admin/main`.
   */
  lemma IndexNameDefersToPath()
    ensures MakeItem("/src", FormattedEntry("index", "/src/admin/main.ts")).name == "admin/main"
    ensures MakeItem("/src", FormattedEntry("index", "/src/admin/main.ts")).htmlName == "./" + "admin/main" + ".html"
  {
    var path := "/src/admin/main.ts";
    IndexNameStays();
    AdminMainPath();
    assert path[0] == '/';
    NoLeadingDot(path);
  }

  lemma NoLeadingDot(s: string)
    requires s != [] && s[0] != '.'
    ensures StripLeadingDot(s) == s
  {
    assert "."[0] == '.';
  }

  lemma IndexNameStays()
    ensures GetEntryName("index", "/src") == "index"
  {
    var n := "index";
    assert n[0] == 'i' && n[4] == 'x';
    assert "/src"[0] == '/';
    RemoveAbsent(n, "/src");
    NoLeadingSlash(n);
    NoExtension(n);
    NoTrailingSlash(n);
  }

  lemma AdminMainPath()
    ensures GetEntryName("/src/admin/main.ts", "/src") == "admin/main"
  {
    var path := "/src/admin/main.ts";
    assert path[..4] == "/src";
    RemoveLeading(path, "/src");
    var s0 := "/admin/main.ts";
    assert path[4..] == s0;
    assert s0[0] == '/';
    OneLeadingSlash(s0);
    assert s0[1..] == "admin/main" + ".ts";
    TsExtension("admin/main");
    assert "admin/main"[9] == 'n';
    NoTrailingSlash("admin/main");
  }

  /** `reduce` over the formatted entries into a fresh `Map`. */
  method BuildRegistry(root: string, entries: seq<FormattedEntry>) returns (m: VirtualMap)
    ensures m == Registry(root, entries)
  {
    m := Empty();
    var i := 0;
    while i < |entries|
      invariant 0 <= i <= |entries|
      invariant m == Registry(root, entries[..i])
    {
      var e := entries[i];
      RegistryStep(root, entries, i);
      m := m.Set(KeyOf(root, e), MakeItem(root, e));
      i := i + 1;
    }
    assert entries[..i] == entries;
  }

  /** One more entry is one more `set`. */
  lemma RegistryStep(root: string, entries: seq<FormattedEntry>, i: nat)
    requires i < |entries|
    ensures Registry(root, entries[..i + 1])
         == Registry(root, entries[..i]).Set(KeyOf(root, entries[i]), MakeItem(root, entries[i]))
  {
    assert entries[..i + 1][..i] == entries[..i];
  }

  // ---------------------------------------------------------------------
  // Rollup inputs

  /**
   * The one name a plain `{}` accumulator does not store: `acc.__proto__ = id`
   * calls the setter `Object.prototype` holds under that name, which ignores
   * a string, so no property is created.
   */
  const ProtoKey: string := "__proto__"

  /** `acc[name] = virtualId` on a plain object. */
  function AssignInput(acc: map<string, string>, name: string, virtualId: string): map<string, string> {
    if name == ProtoKey then acc else acc[name := virtualId]
  }

  /** The object `getInputs` builds from the first `n` values of the map, in key order. */
  function InputsOf(m: VirtualMap, n: nat): map<string, string>
    requires m.Valid() && n <= |m.keys|
  {
    if n == 0 then map[]
    else
      var item := m.items[m.keys[n - 1]];
      AssignInput(InputsOf(m, n - 1), item.name, item.virtualId)
  }

  function Inputs(m: VirtualMap): map<string, string>
    requires m.Valid()
  {
    InputsOf(m, |m.keys|)
  }

  /**
   * `getInputs` gives one input per item name other than `__proto__`; a
   * name held by several items maps to the id of the last of them in key
   * order.
   */
  lemma {:induction false} InputsOfSpec(m: VirtualMap, n: nat, name: string)
    requires m.Valid() && n <= |m.keys|
    ensures name in InputsOf(m, n) <==> name != ProtoKey && exists i :: 0 <= i < n && m.items[m.keys[i]].name == name
    ensures name in InputsOf(m, n) ==> exists i :: (
      && 0 <= i < n
      && m.items[m.keys[i]].name == name
      && InputsOf(m, n)[name] == m.items[m.keys[i]].virtualId
      && forall j :: i < j < n ==> m.items[m.keys[j]].name != name)
  {
    if n > 0 {
      InputsOfSpec(m, n - 1, name);
    }
  }

  /**
   * When ids follow names, the inputs map every item name but `__proto__`
   * to that name's virtual id.
   */
  lemma InputsNameToId(m: VirtualMap)
    requires m.Valid() && IdsMatchNames(m)
    ensures forall k :: k in m.items ==> (m.items[k].name in Inputs(m) <==> m.items[k].name != ProtoKey)
    ensures forall name :: name in Inputs(m) ==> Inputs(m)[name] == WrapVirtualId(name)
  {
    forall k | k in m.items
      ensures m.items[k].name in Inputs(m) <==> m.items[k].name != ProtoKey
    {
      var i :| 0 <= i < |m.keys| && m.keys[i] == k;
      InputsOfSpec(m, |m.keys|, m.items[k].name);
    }
    forall name | name in Inputs(m)
      ensures Inputs(m)[name] == WrapVirtualId(name)
    {
      InputsOfSpec(m, |m.keys|, name);
    }
  }

  /** The entry `__proto__.ts` gets a page but no build input. */
  lemma ProtoEntryHasNoInput()
    ensures var m := Registry("", [FormattedEntry(ProtoKey + ".ts", ProtoKey + ".ts")]);
      && |m.keys| == 1 && m.items[m.keys[0]].name == ProtoKey
      && Inputs(m) == map[]
  {
    var e := FormattedEntry(ProtoKey + ".ts", ProtoKey + ".ts");
    ProtoNameDerives(e);
    SingleEntryRegistry("", e);
    var m := Registry("", [e]);
    assert m.items[m.keys[0]].name == ProtoKey;
    assert Inputs(m) == AssignInput(InputsOf(m, 0), ProtoKey, m.items[m.keys[0]].virtualId);
  }

  lemma ProtoNameDerives(e: FormattedEntry)
    requires e.name == ProtoKey + ".ts"
    ensures DeriveName("", e) == ProtoKey
  {
    assert ProtoKey[0] == '_' && ProtoKey[8] == '_';
    TsNameDerives(ProtoKey);
    assert "index"[0] == 'i';
  }

  lemma SingleEntryRegistry(root: string, e: FormattedEntry)
    ensures Registry(root, [e]).keys == [KeyOf(root, e)]
    ensures Registry(root, [e]).items == map[KeyOf(root, e) := MakeItem(root, e)]
  {
    assert [e][..0] == [];
  }

  /** `getInputs`: the accumulator loop over `virtual.values()`. */
  method GetInputs(m: VirtualMap) returns (input: map<string, string>)
    requires m.Valid()
    ensures input == Inputs(m)
  {
    input := map[];
    var i := 0;
    while i < |m.keys|
      invariant 0 <= i <= |m.keys|
      invariant input == InputsOf(m, i)
    {
      var item := m.items[m.keys[i]];
      if item.name != ProtoKey {
        input := input[item.name := item.virtualId];
      }
      i := i + 1;
    }
  }

  // ---------------------------------------------------------------------
  // Module hooks

  /** The `load` hook: a registered id loads as a module importing its entry. */
  function Load(m: VirtualMap, id: string): (r: Option<string>)
    ensures r.Some? <==> m.Has(id)
    ensures r.Some? ==> r.value == "import \"" + m.items[id].entry + "\";"
  {
    if !m.Has(id) then None else Some("import \"" + m.items[id].entry + "\";")
  }

  /** The `resolveId` hook: a registered id resolves to itself, anything else to `null`. */
  function ResolveId(m: VirtualMap, id: string): (r: Option<string>)
    ensures r == Some(id) <==> m.Has(id)
    ensures r.None? <==> !m.Has(id)
  {
    if m.Has(id) then Some(id) else None
  }

  /** The entry stored last under its id is the one that id loads and resolves to. */
  lemma EntryLoads(root: string, entries: seq<FormattedEntry>, i: nat)
    requires i < |entries|
    requires forall j :: i < j < |entries| ==> KeyOf(root, entries[j]) != KeyOf(root, entries[i])
    ensures var m, k := Registry(root, entries), KeyOf(root, entries[i]);
      && ResolveId(m, k) == Some(k)
      && Load(m, k) == Some("import \"" + StripLeadingDot(entries[i].entry) + "\";")
  {
    RegistryLastWriteWins(root, entries, i);
  }

  /**
   * Only virtual ids are claimed by a registry as `getEntries` builds it,
   * which is all of `main.js`'s: any other module id is left to Vite and
   * the other plugins. (`index.ts` adds the raw key `index`; see
   * `IndexPlugin.ConfiguredResolves`.)
   */
  lemma OnlyVirtualIdsResolve(root: string, entries: seq<FormattedEntry>, id: string)
    requires !StartsWith(id, Prefix)
    ensures ResolveId(Registry(root, entries), id) == None
    ensures Load(Registry(root, entries), id) == None
  {
    RegistryWellFormed(root, entries);
  }

  /** The route names `configureServer` lists: each key with the virtual prefix removed. */
  function Routes(m: VirtualMap): (r: seq<string>)
    ensures |r| == |m.keys|
    ensures forall i :: 0 <= i < |m.keys| ==> r[i] == UnwrapVirtualId(m.keys[i])
  {
    seq(|m.keys|, i requires 0 <= i < |m.keys| => UnwrapVirtualId(m.keys[i]))
  }

  /** Wrapping a listed route gives back its key: the dev lookup finds the item the route came from. */
  lemma RouteWrapsToKey(root: string, entries: seq<FormattedEntry>, i: nat)
    requires i < |Registry(root, entries).keys|
    ensures var m := Registry(root, entries);
      && Routes(m)[i] != ""
      && WrapVirtualId(Routes(m)[i]) == m.keys[i]
  {
    var m := Registry(root, entries);
    var k := m.keys[i];
    assert k in m.items;
    RegistryWellFormed(root, entries);
    var name := m.items[k].name;
    UnwrapWrap(name);
    assert Slashed(Slashed(name)) == Slashed(name);
    WrapInjective(Slashed(name), name);
  }

  // ---------------------------------------------------------------------
  // Build output

  /** An entry of Rollup's output bundle; assets have no facade module. */
  datatype OutputItem = OutputItem(fileName: string, facadeModuleId: Option<string>)

  /** What the patched `generateBundle` does to one bundle entry. */
  function RewriteFacade(m: VirtualMap, item: OutputItem): (r: OutputItem)
    ensures r.fileName == item.fileName
    ensures r != item <==> item.facadeModuleId.Some? && item.facadeModuleId.value != ""
                           && m.Has(item.facadeModuleId.value)
                           && m.items[item.facadeModuleId.value].htmlName != item.facadeModuleId.value
    ensures r != item ==> r.facadeModuleId == Some(m.items[item.facadeModuleId.value].htmlName)
  {
    match item.facadeModuleId
    case None => item
    case Some(id) =>
      if id != "" && m.Has(id) then item.(facadeModuleId := Some(m.items[id].htmlName)) else item
  }

  /** No item's HTML name is itself a registered id. */
  ghost predicate HtmlNamesUnregistered(m: VirtualMap) {
    forall k :: k in m.items ==> m.items[k].htmlName !in m.items
  }

  /** After the rewrite, no chunk's facade module is a registered virtual id. */
  lemma NoVirtualIdLeaks(m: VirtualMap, item: OutputItem)
    requires HtmlNamesUnregistered(m)
    ensures var f := RewriteFacade(m, item).facadeModuleId; f.None? || f.value == "" || f.value !in m.items
  {
  }

  /** Keys of a registry are virtual ids; HTML names start with `./`, so they never collide. */
  lemma RegistryHtmlNamesUnregistered(root: string, entries: seq<FormattedEntry>)
    ensures HtmlNamesUnregistered(Registry(root, entries))
  {
    RegistryDotSeparated(root, entries);
    DotSeparates(Registry(root, entries));
  }

  /** No key starts with `.`, and every HTML name does. */
  ghost predicate DotSeparated(m: VirtualMap) {
    && (forall k :: k in m.items ==> k != [] && k[0] != '.')
    && (forall k :: k in m.items ==> m.items[k].htmlName != [] && m.items[k].htmlName[0] == '.')
  }

  lemma RegistryDotSeparated(root: string, entries: seq<FormattedEntry>)
    ensures DotSeparated(Registry(root, entries))
  {
    var m := Registry(root, entries);
    RegistryWellFormed(root, entries);
    forall k | k in m.items
      ensures k != [] && k[0] != '.' && m.items[k].htmlName != [] && m.items[k].htmlName[0] == '.'
    {
      assert WellFormedItem(root, k, m.items[k]);
      assert k[0] == Prefix[0];
    }
  }

  /** Names that start with `.` cannot be keys that do not. */
  lemma DotSeparates(m: VirtualMap)
    requires DotSeparated(m)
    ensures HtmlNamesUnregistered(m)
  {
  }

  /** The `for…in` loop of the patched `generateBundle`, rewriting chunks in place. */
  method RewriteFacades(m: VirtualMap, bundle: array<OutputItem>)
    modifies bundle
    ensures forall i :: 0 <= i < bundle.Length ==> bundle[i] == RewriteFacade(m, old(bundle[i]))
  {
    var i := 0;
    while i < bundle.Length
      invariant 0 <= i <= bundle.Length
      invariant forall j :: 0 <= j < i ==> bundle[j] == RewriteFacade(m, old(bundle[j]))
      invariant forall j :: i <= j < bundle.Length ==> bundle[j] == old(bundle[j])
    {
      var chunk := bundle[i];
      if chunk.facadeModuleId.Some? && chunk.facadeModuleId.value != "" {
        var id := chunk.facadeModuleId.value;
        if m.Has(id) {
          bundle[i] := chunk.(facadeModuleId := Some(m.items[id].htmlName));
        }
      }
      i := i + 1;
    }
  }

  // ---------------------------------------------------------------------
  // Dev server requests

  /** The parts of an incoming request and its response the middleware looks at. */
  datatype Request = Request(
    originalUrl: string,
    accept: Option<string>,
    origin: Option<string>,
    host: Option<string>,
    writableEnded: bool)

  /** A non-string hook result is represented by `String(value)`, which is what the regex tests. */
  datatype Page = Text(text: string) | NonText(shown: string)

  /** What a render hook is called with. */
  datatype RenderOption = RenderOption(html: string, name: string, entry: string)

  /** `options.render`: any function of the option; what it does inside is not modelled. */
  type Render = RenderOption -> Page

  function Shown(p: Page): string {
    match p
    case Text(s) => s
    case NonText(s) => s
  }

  /** JavaScript truthiness of what `renderHTML` returned (`null` is `None`). */
  predicate Truthy(html: Option<Page>) {
    html.Some? && html.value != Text("")
  }

  datatype Response =
    | Next                                        // passed on to the next middleware
    | ServeHtml(url: string, html: Option<Page>)  // handed to `transformIndexHtml(url, html)`
    | Listing(page: string)                       // the not-found page, sent as text/html
    | Thrown                                      // the handler threw a TypeError

  /**
   * The middleware handles a request only when the response is still open
   * and the `Accept` header is present, is not the bare wildcard, and starts
   * with `text/html`.
   */
  predicate Handles(req: Request) {
    && !req.writableEnded
    && req.accept.Some?
    && req.accept.value != "*/*"
    && req.accept.value != ""
    && StartsWith(req.accept.value, "text/html")
  }

  /** Only `text/html` requests are handled; the bare wildcard never is. */
  lemma HandlesOnlyHtml(req: Request)
    ensures Handles(req) <==>
      !req.writableEnded && req.accept.Some? && StartsWith(req.accept.value, "text/html")
  {
    if req.accept.Some? && StartsWith(req.accept.value, "text/html") {
      assert req.accept.value[..9] == "text/html";
      assert req.accept.value != "*/*";
    }
  }

  /** The query string is dropped: `originalUrl.split("?")[0]`. */
  function PathOf(originalUrl: string): (r: string)
    ensures StartsWith(originalUrl, r) && '?' !in r
    ensures '?' !in originalUrl ==> r == originalUrl
  {
    BeforeFirst(originalUrl, '?')
  }

  /**
   * `origin || host`, given an `http://` scheme unless it already names one;
   * `None` when both are missing or empty, where `origin.startsWith` throws.
   */
  function OriginOf(req: Request): (r: Option<string>)
    ensures r.Some? <==> (req.origin.Some? && req.origin.value != "") || req.host.Some?
    ensures r.Some? ==> StartsWith(r.value, "http://") || StartsWith(r.value, "https://")
    ensures r.Some? ==> var h := OriginHeader(req).value;
      && (r.value == h || r.value == "http://" + h)
      && (r.value == h <==> StartsWith(h, "http://") || StartsWith(h, "https://"))
  {
    match OriginHeader(req)
    case None => None
    case Some(s) =>
      if StartsWith(s, "http://") || StartsWith(s, "https://") then Some(s)
      else
        var t := "http://" + s;
        assert t[..7] == "http://";
        Some(t)
  }

  /** `origin || host`: a missing or empty `Origin` header defers to `Host`. */
  function OriginHeader(req: Request): Option<string> {
    if req.origin.Some? && req.origin.value != "" then req.origin else req.host
  }

  // ---------------------------------------------------------------------
  // Build configuration

  datatype Command = Build | Serve

  /**
   * A plugin of the resolved configuration; `wrapped` counts how many times
   * this plugin's `transform` and `generateBundle` were replaced by the
   * virtual-entry wrappers, which forward to the hooks they replaced.
   */
  datatype HostPlugin = HostPlugin(name: string, wrapped: nat)

  const BuildHtmlPlugin: string := "vite:build-html"

  /** `config.plugins.map(...)`: only Vite's own HTML plugin gets wrapped, in place. */
  function PatchPlugins(plugins: seq<HostPlugin>): (r: seq<HostPlugin>)
    ensures |r| == |plugins|
    ensures forall i :: 0 <= i < |plugins| ==> r[i].name == plugins[i].name
    ensures forall i :: 0 <= i < |plugins| ==>
      r[i].wrapped == if plugins[i].name == BuildHtmlPlugin then plugins[i].wrapped + 1 else plugins[i].wrapped
  {
    seq(|plugins|, i requires 0 <= i < |plugins| =>
      if plugins[i].name == BuildHtmlPlugin then plugins[i].(wrapped := plugins[i].wrapped + 1)
      else plugins[i])
  }

  /** The part of Vite's resolved configuration the plugin reads and overwrites. */
  class Config {
    const root: string
    const command: Command
    var input: map<string, string>
    var plugins: seq<HostPlugin>

    constructor (root: string, command: Command, input: map<string, string>, plugins: seq<HostPlugin>)
      ensures this.root == root && this.command == command
      ensures this.input == input && this.plugins == plugins
    {
      this.root := root;
      this.command := command;
      this.input := input;
      this.plugins := plugins;
    }
  }

  /**
   * The build branch of `configResolved`: the Rollup inputs become the
   * registry's name-to-id object and Vite's HTML plugin is wrapped; a
   * `serve` configuration is left as it was.
   */
  method ConfigureBuild(config: Config, m: VirtualMap)
    requires m.Valid()
    modifies config
    ensures config.command == Build ==> config.input == Inputs(m)
    ensures config.command == Build ==> config.plugins == PatchPlugins(old(config.plugins))
    ensures config.command != Build ==> config.input == old(config.input) && config.plugins == old(config.plugins)
  {
    if config.command == Build {
      var input := GetInputs(m);
      config.input := input;
      config.plugins := PatchPlugins(config.plugins);
    }
  }
}
