/**
 * The content-addressed registry of extracted stylesheets and the two hooks that
 * serve them: `resolveId` marks a virtual specifier as internal by prefixing NUL,
 * and `load` recovers the registry key from the id and returns the stored text.
 * `load` also answers the server-components request for the style cache module
 * with a stub that fails at first use.
 */
module VirtualCss {
  import opened Wrappers
  import opened JsString
  import opened ViteConfig

  /** The scheme prefix of every virtual stylesheet specifier. */
  const VirtualName: string := "virtual:vite-plugin-compiled-react"

  /** The md5 hex digest (`createHash('md5').update(code).digest('hex')`), injected. */
  type Digest = string -> string

  const HexDigits: string := "0123456789abcdef"

  /** What an md5 hex digest looks like: 32 lower-case hexadecimal digits. */
  predicate IsHexDigest(d: string) {
    |d| == 32 && forall i :: 0 <= i < |d| ==> d[i] in HexDigits
  }

  /** `hash(code)`: characters 2 to 8 of the digest. For a real digest that is seven hex digits. */
  function Hash(digest: Digest, code: string): (h: string)
    ensures IsHexDigest(digest(code)) ==> |h| == 7 && forall i :: 0 <= i < |h| ==> h[i] in HexDigits
    ensures IsHexDigest(digest(code)) ==> h == digest(code)[2..9]
  {
    Substring(digest(code), 2, 9)
  }

  /** The stylesheet text of one module: its rules joined by newlines. */
  function StylesheetText(rules: seq<string>): string {
    Join(rules, "\n")
  }

  /** The registry key of a rule list: the hash of its stylesheet text, with `.css`. */
  function FileId(digest: Digest, rules: seq<string>): string {
    Hash(digest, StylesheetText(rules)) + ".css"
  }

  /** The specifier the extraction visitor imports: `virtual:vite-plugin-compiled-react:<fileId>`. */
  function ImportSource(fileId: string): string {
    VirtualName + ":" + fileId
  }

  /** The id under which the module graph knows a registered stylesheet (`\0` + the specifier). */
  function ModuleId(fileId: string): string {
    "\0" + ImportSource(fileId)
  }

  /** The registry after `virtualCssFiles.set(fileId, styleRules.join('\n'))`. */
  function Register(files: map<string, string>, digest: Digest, rules: seq<string>): (r: map<string, string>)
    ensures r.Keys == files.Keys + {FileId(digest, rules)}
    ensures r[FileId(digest, rules)] == StylesheetText(rules)
    ensures forall k :: k in files && k != FileId(digest, rules) ==> r[k] == files[k]
  {
    files[FileId(digest, rules) := StylesheetText(rules)]
  }

  /** The module-level `virtualCssFiles` map; it lives as long as the process. */
  class CssRegistry {
    var files: map<string, string>

    constructor ()
      ensures files == map[]
    {
      files := map[];
    }

    /** `virtualCssFiles.set(key, css)` */
    method Set(key: string, css: string)
      modifies this
      ensures files == old(files)[key := css]
    {
      files := files[key := css];
    }
  }

  /** The `resolveId` hook: a virtual specifier becomes `\0` + itself; anything else is not ours. */
  function ResolveId(source: string): (r: Option<string>)
    ensures r.Some? <==> StartsWith(source, VirtualName)
    ensures r.Some? ==> r.value == "\0" + source && Includes(r.value, VirtualName)
  {
    if StartsWith(source, VirtualName) then
      assert OccursAt("\0" + source, VirtualName, 1);
      Some("\0" + source)
    else None
  }

  /** `id.split(':').pop()?.split('?')[0]`: the text after the last `:`, cut at the first `?`. */
  function VirtualKey(id: string): (key: string)
    ensures ':' !in key && '?' !in key
  {
    var pieces := Split(id, ':');
    var last := pieces[|pieces| - 1];
    SplitPiecesFree(id, ':');
    assert ':' !in last;
    SplitPiecesFree(last, '?');
    var key := Split(last, '?')[0];
    assert ':' !in key by {
      SplitKeepsAbsent(last, '?', ':');
    }
    key
  }

  /** A JavaScript line terminator, which `.` in a regular expression does not match. */
  predicate IsLineTerminator(c: char) {
    c == '\n' || c == '\r' || c == '\U{2028}' || c == '\U{2029}'
  }

  /**
   * `/@compiled\/react\/dist\/.*\/style-cache.js/` matches `id` with the literal
   * prefix at `i` and `/style-cache` at `j` (the `.` before `js` matches any one character).
   */
  predicate StyleCacheMatchAt(id: string, i: int, j: int) {
    && OccursAt(id, "@compiled/react/dist/", i)
    && i + 21 <= j
    && OccursAt(id, "/style-cache", j)
    && j + 15 <= |id|
    && !IsLineTerminator(id[j + 12])
    && id[j + 13..j + 15] == "js"
    && forall k :: i + 21 <= k < j ==> !IsLineTerminator(id[k])
  }

  predicate MatchesStyleCache(id: string) {
    exists i, j | 0 <= i <= j <= |id| :: StyleCacheMatchAt(id, i, j)
  }

  /** The pattern accepts the style cache module of a published build of `@compiled/react`. */
  lemma StyleCacheMatchesDistPath()
    ensures MatchesStyleCache("@compiled/react/dist/esm/style-cache.js")
  {
    var id := "@compiled/react/dist/esm/style-cache.js";
    assert forall k :: 21 <= k < 24 ==> !IsLineTerminator(id[k]);
    assert StyleCacheMatchAt(id, 0, 24);
  }

  /** `.*` is followed by its own `/`: the cache module directly under `dist` does not match. */
  lemma StyleCacheNeedsSubdirectory()
    ensures !MatchesStyleCache("@compiled/react/dist/style-cache.js")
  {
  }

  /** The environment runs React server components. */
  predicate IsServerComponents(env: Environment) {
    "react-server" in env.conditions || env.name == "rsc"
  }

  /** The replacement for the style cache module under server components. */
  const StyleCacheStub: string :=
    "export default {};\n"
    + "                export const useCache = () => {\n"
    + "                  throw new Error(\"Please set extract: true in compiled plugin options for RSC support\");\n"
    + "                };\n"
    + "                "

  /** The `load` hook, reading the registry contents `files`; None is `undefined`. */
  function Load(files: map<string, string>, env: Environment, id: string): (r: Option<string>)
    ensures Includes(id, VirtualName) ==>
      r == if VirtualKey(id) in files && VirtualKey(id) != "" then Some(files[VirtualKey(id)]) else None
    ensures !Includes(id, VirtualName) ==>
      (r.Some? <==> IsServerComponents(env) && MatchesStyleCache(id)) && (r.Some? ==> r.value == StyleCacheStub)
  {
    if Includes(id, VirtualName) then
      var fileId := VirtualKey(id);
      if fileId == "" then None
      else if fileId in files then Some(files[fileId]) else None
    else if IsServerComponents(env) && MatchesStyleCache(id) then
      Some(StyleCacheStub)
    else None
  }

  /** The key `load` recovers from an id that ends in `:` + key. */
  lemma VirtualKeyOf(prefix: string, key: string)
    requires ':' !in key && '?' !in key
    ensures VirtualKey(prefix + [':'] + key) == key
  {
    SplitLast(prefix, ':', key);
    SplitWithoutSeparator(key, '?');
  }

  /** The key `load` recovers from an id that ends in `:` + key + `?` + a query. */
  lemma VirtualKeyOfQueried(prefix: string, key: string, query: string)
    requires ':' !in key && '?' !in key && ':' !in query
    ensures VirtualKey(prefix + [':'] + (key + ['?'] + query)) == key
  {
    var tail := key + ['?'] + query;
    assert ':' !in tail;
    SplitLast(prefix, ':', tail);
    SplitFirst(key, '?', query);
  }

  /** A registry key never holds `:` or `?`, so `load` recovers it whole. */
  lemma FileIdShape(digest: Digest, rules: seq<string>)
    requires IsHexDigest(digest(StylesheetText(rules)))
    ensures var id := FileId(digest, rules); |id| == 11 && ':' !in id && '?' !in id
  {
    var h := Hash(digest, StylesheetText(rules));
    forall i | 0 <= i < |h| ensures h[i] != ':' && h[i] != '?' {
      assert h[i] in HexDigits;
    }
  }

  /**
   * Round trip: once a rule list is registered, resolving and loading the specifier the
   * extraction visitor imports (with or without a query suffix) gives the joined rules back.
   */
  lemma RegisteredStylesheetLoads(files: map<string, string>, digest: Digest, rules: seq<string>,
                                  env: Environment, query: string)
    requires IsHexDigest(digest(StylesheetText(rules)))
    requires ':' !in query
    ensures var src := ImportSource(FileId(digest, rules));
      && ResolveId(src) == Some(ModuleId(FileId(digest, rules)))
      && Load(Register(files, digest, rules), env, ModuleId(FileId(digest, rules))) == Some(StylesheetText(rules))
      && Load(Register(files, digest, rules), env, ModuleId(FileId(digest, rules)) + "?" + query) == Some(StylesheetText(rules))
  {
    var key := FileId(digest, rules);
    FileIdShape(digest, rules);
    assert StartsWith(ImportSource(key), VirtualName);
    VirtualIdsAreRecognised(key, query);
  }

  /** The id of a key, with or without a query, is one `load` treats as virtual and parses back to the key. */
  lemma VirtualIdsAreRecognised(key: string, query: string)
    requires ':' !in key && '?' !in key && ':' !in query
    ensures Includes(ModuleId(key), VirtualName) && VirtualKey(ModuleId(key)) == key
    ensures Includes(ModuleId(key) + "?" + query, VirtualName) && VirtualKey(ModuleId(key) + "?" + query) == key
  {
    VirtualIdsContainName(key, query);
    ModuleIdSplits(key, query);
    VirtualKeyOf("\0" + VirtualName, key);
    VirtualKeyOfQueried("\0" + VirtualName, key, query);
  }

  lemma ModuleIdSplits(key: string, query: string)
    ensures ModuleId(key) == ("\0" + VirtualName) + [':'] + key
    ensures ModuleId(key) + "?" + query == ("\0" + VirtualName) + [':'] + (key + ['?'] + query)
  {
  }

  lemma VirtualIdsContainName(key: string, query: string)
    ensures Includes(ModuleId(key), VirtualName)
    ensures Includes(ModuleId(key) + "?" + query, VirtualName)
  {
    assert OccursAt(ModuleId(key), VirtualName, 1);
    assert OccursAt(ModuleId(key) + "?" + query, VirtualName, 1);
  }

  /** A key that was never registered loads as nothing. */
  lemma UnregisteredKeyLoadsNothing(files: map<string, string>, env: Environment, key: string, query: string)
    requires ':' !in key && '?' !in key && ':' !in query
    requires key !in files
    ensures Load(files, env, ModuleId(key)) == None
    ensures Load(files, env, ModuleId(key) + "?" + query) == None
  {
    VirtualIdsAreRecognised(key, query);
  }

  /**
   * Content addressing: rule lists with the same stylesheet text share one key, and
   * registering a rule list twice leaves the registry as registering it once.
   */
  lemma RegisterIsContentAddressed(files: map<string, string>, digest: Digest, rules1: seq<string>, rules2: seq<string>)
    requires StylesheetText(rules1) == StylesheetText(rules2)
    ensures FileId(digest, rules1) == FileId(digest, rules2)
    ensures Register(files, digest, rules2) == Register(files, digest, rules1)
    ensures Register(Register(files, digest, rules1), digest, rules2) == Register(files, digest, rules1)
  {
  }
}
