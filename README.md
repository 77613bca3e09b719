# vite-plugin-compiled-react, modelled in Dafny

This project models the Vite plugin that runs the Compiled CSS-in-JS babel pipeline
inside `@vitejs/plugin-react`. `compiled(options)` returns a plugin object. Its closure
variables (`command`, `root`, the module-resolver alias table) become the fields of the
class `CompiledPlugin.Plugin`, and each hook becomes a method or function:

- `config` records the command.
- `configResolved` records the root. It folds Vite's alias array into the dictionary
  handed to babel-plugin-module-resolver (`AliasTable`).
- `api.reactBabel` appends the passes to `babelConfig.plugins` in a fixed order. Whether
  the two extraction passes are added depends on the `extract` option and the command
  (`Passes`).
- The runtime-import visitor prepends `import '@compiled/react'` to component files.
- The extraction visitor registers each file's style rules under a content hash. It then
  prepends an import of the matching virtual specifier.
- `resolveId` and `load` serve those virtual stylesheets from the module-level registry.
  Under React server components, `load` also answers the style-cache module with a stub
  (`VirtualCss`).
- `hotUpdate` invalidates every module that is, or directly imports, a module lying
  within one importer hop of a change and within one importer hop of a registered
  stylesheet's graph node (`Invalidation`).

The older plugin in `src/index.ts` is modelled in `LegacyPlugin`. It records `outDir` and
`root`, and builds a shorter pass list with its own strip-runtime option choice.

The JavaScript string builtins the code relies on are written out in `JsString`:
`startsWith`, `includes`, `replace` with a string pattern, `split` on one character,
`join` and `substring`. `IndexOf` is a helper behind `includes` and `replace`; its
first-occurrence contract is what the lemmas about `replace` rest on. `replace` and
`split` are described by lemmas: the first occurrence only, the piece count, the
first and last pieces, and the round trip through `join`. `Join` is a plain
definition. `Substring` clamps and swaps its bounds as JavaScript does, but its
contract states only the in-range case, which is the only one the plugin uses
(`substring(2, 9)` of a 32-digit digest). The md5 digest is an injected function
`VirtualCss.Digest`. Vite's module graph is a value holding the id lookup and the importer
sets.

The model follows the code at two points where a plain-words description of the plugin
reads differently:

- `replacement.replace(root, '.')` replaces the FIRST occurrence of the root anywhere in
  the replacement, not only a leading directory. `AliasTable.RootReplacedAtFirstOccurrence`
  states this. With root `/app`, a replacement `/application/src` becomes `.lication/src`.
- When several modules import one shared virtual stylesheet, sharing the sheet alone
  does not invalidate the other modules or their importers. As `Invalidation.InvalidatedIff`
  states, a module is invalidated when it is, or directly imports, a module within one
  importer hop of the change and within one importer hop of a stylesheet node.
  `Invalidation.SharedStylesheetScenario` shows this: B imports the same sheet as the
  changed module A, and B is left alone. `Invalidation.SharedStylesheetImporterChain`
  shows the other side: once B also imports A, B and B's importer are invalidated too.

## Model

| member | source | states |
|---|---|---|
| JsString.IndexOfFrom | vite-plugin-compiled-react/src/index.ts:128 | the result is -1 exactly when the pattern occurs nowhere from `k` on; otherwise it is an occurrence at or after `k` with none before it |
| JsString.Includes | vite-plugin-compiled-react/src/index.ts:128 | `includes` holds exactly when the pattern occurs at some index |
| JsString.ReplaceFirstAbsent | vite-plugin-compiled-react/src/index.ts:80 | `replace` leaves a string without the pattern unchanged |
| JsString.ReplaceFirstAt | vite-plugin-compiled-react/src/index.ts:80 | `replace` rewrites only the first occurrence of the pattern and keeps the text around it |
| JsString.ReplaceFirst | vite-plugin-compiled-react/src/index.ts:80 | `replace` with a string pattern: the text before the first occurrence, the replacement, then the text after it; its contract is carried by ReplaceFirstAt and ReplaceFirstAbsent |
| JsString.Split | vite-plugin-compiled-react/src/index.ts:129 | `split` on one character, read from the front; it always returns at least one piece, and the Split lemmas state the rest |
| JsString.SplitPiecesFree | vite-plugin-compiled-react/src/index.ts:129 | no piece of `split(c)` contains `c` |
| JsString.SplitKeepsAbsent | vite-plugin-compiled-react/src/index.ts:129 | a character missing from the string is missing from every piece |
| JsString.SplitCount | vite-plugin-compiled-react/src/index.ts:79 | `split(c)` has one more piece than the string has `c` characters |
| JsString.SplitJoin | vite-plugin-compiled-react/src/index.ts:129 | joining the pieces with the separator gives back the original string |
| JsString.Join | vite-plugin-compiled-react/src/index.ts:191 | `join`: the parts with the separator between neighbours (a definition; SplitJoin is its partner) |
| JsString.Substring | vite-plugin-compiled-react/src/index.ts:43 | for in-range bounds `substring` is the slice; it is never longer than the string |
| JsString.SplitWithoutSeparator | vite-plugin-compiled-react/src/index.ts:129 | a string without the separator splits into itself alone |
| JsString.SplitFirst | vite-plugin-compiled-react/src/index.ts:129 | `split(...)[0]` is the text before the first separator |
| JsString.SplitLast | vite-plugin-compiled-react/src/index.ts:129 | `pop()` of the split is the text after the last separator, and there are at least two pieces |
| VirtualCss.Hash | vite-plugin-compiled-react/src/index.ts:42-44 | for a 32-hex-digit digest the hash is the digest's characters 2 to 8: seven hex digits |
| VirtualCss.Register | vite-plugin-compiled-react/src/index.ts:189-193 | the registry gains the key `hash(join) + '.css'` holding the joined rules; every other key keeps its value |
| VirtualCss.CssRegistry.Set | vite-plugin-compiled-react/src/index.ts:193 | `virtualCssFiles.set` updates one key of the map |
| VirtualCss.ResolveId | vite-plugin-compiled-react/src/index.ts:86-90 | an id is returned exactly when the specifier starts with the virtual name; it is `\0` + the specifier and still contains the name |
| VirtualCss.VirtualKey | vite-plugin-compiled-react/src/index.ts:129 | the recovered key contains neither `:` nor `?` |
| VirtualCss.Load | vite-plugin-compiled-react/src/index.ts:127-147 | an id containing the virtual name gets the registry value of its key (nothing for an empty or unknown key), even under server components; any other id gets the stub exactly when the environment runs server components and the id matches the style-cache pattern |
| VirtualCss.StyleCacheMatchAt | vite-plugin-compiled-react/src/index.ts:139 | one match of the style-cache regex: the literal prefix, any run of non-line-terminators for `.*`, `/style-cache`, any one character for `.`, then `js` |
| VirtualCss.MatchesStyleCache | vite-plugin-compiled-react/src/index.ts:139 | `test` holds when some match exists anywhere in the id |
| VirtualCss.StyleCacheMatchesDistPath | vite-plugin-compiled-react/src/index.ts:139 | the pattern accepts `@compiled/react/dist/esm/style-cache.js` |
| VirtualCss.StyleCacheNeedsSubdirectory | vite-plugin-compiled-react/src/index.ts:139 | the pattern needs a `/` after `.*`, so `@compiled/react/dist/style-cache.js` does not match |
| VirtualCss.VirtualKeyOf | vite-plugin-compiled-react/src/index.ts:129 | for an id ending in `:` + key, `load` recovers that key |
| VirtualCss.VirtualKeyOfQueried | vite-plugin-compiled-react/src/index.ts:129 | for an id ending in `:` + key + `?` + query, `load` recovers that key |
| VirtualCss.FileIdShape | vite-plugin-compiled-react/src/index.ts:192 | a registry key is eleven characters with no `:` or `?` |
| VirtualCss.RegisteredStylesheetLoads | vite-plugin-compiled-react/src/index.ts:127-133 | after registration, the imported specifier resolves to the id the graph uses, and loading it (with or without a query) returns the joined rules |
| VirtualCss.VirtualIdsAreRecognised | vite-plugin-compiled-react/src/index.ts:128-129 | the resolved id of a key, with or without a query, is treated as virtual and parses back to the key |
| VirtualCss.UnregisteredKeyLoadsNothing | vite-plugin-compiled-react/src/index.ts:130-133 | an unregistered key loads as undefined |
| VirtualCss.RegisterIsContentAddressed | vite-plugin-compiled-react/src/index.ts:189-193 | rule lists with the same text share one key; registering twice equals registering once |
| AliasTable.NormalizeReplacement | vite-plugin-compiled-react/src/index.ts:79-81 | a replacement with at most one `/` is kept verbatim; one with two or more has its first occurrence of the root replaced by `.` |
| AliasTable.AddAlias | vite-plugin-compiled-react/src/index.ts:73-83 | an entry whose sides are both non-empty strings overwrites its key with the normalized replacement; any other entry changes nothing |
| AliasTable.BuildAliases | vite-plugin-compiled-react/src/index.ts:72-84 | the table after the loop: AddAlias applied to each entry in order (a definition; the BuildAliases lemmas state what it holds) |
| AliasTable.BuildAliasesHas | vite-plugin-compiled-react/src/index.ts:72-84 | after the loop, a key is in the table exactly when it was before or some kept entry names it |
| AliasTable.BuildAliasesKeeps | vite-plugin-compiled-react/src/index.ts:72-84 | a key no kept entry names keeps its old value |
| AliasTable.BuildAliasesLastWins | vite-plugin-compiled-react/src/index.ts:72-84 | the last kept entry for a key decides its value |
| AliasTable.BuildAliasesKeys | vite-plugin-compiled-react/src/index.ts:72-84 | the keys afterwards are the old keys plus the keys of kept entries, and nothing else |
| AliasTable.RootReplacedAtFirstOccurrence | vite-plugin-compiled-react/src/index.ts:79-80 | `p + root + q` with no earlier occurrence of the root becomes `p + "." + q`, whether or not the root is a leading directory |
| Invalidation.ModuleGraph.InvalidateModule | vite-plugin-compiled-react/src/index.ts:124 | `invalidateModule` adds the module to the stale set |
| Invalidation.WithImportersAdd | vite-plugin-compiled-react/src/index.ts:94-97 | adding a module with its importers adds exactly that module and its direct importers |
| Invalidation.AddWithImporters | vite-plugin-compiled-react/src/index.ts:94-97 | the add-then-add-importers step yields the set plus the module plus its direct importers |
| Invalidation.InvalidationSet | vite-plugin-compiled-react/src/index.ts:92-121 | the set the three loops build: the changed modules and the stylesheet nodes, each widened by their importers, intersected, and widened once more (InvalidatedIff is its partner) |
| Invalidation.CollectOriginal | vite-plugin-compiled-react/src/index.ts:92-98 | `originalMods` is the changed modules with their direct importers |
| Invalidation.CollectStylesheetImporters | vite-plugin-compiled-react/src/index.ts:100-111 | `virtualCssImporterMods` is the graph nodes of registry keys the graph knows, with their direct importers |
| Invalidation.CollectToInvalidate | vite-plugin-compiled-react/src/index.ts:113-121 | `modsToInvalidate` is the intersection of the two sets with its direct importers |
| Invalidation.ComputeInvalidation | vite-plugin-compiled-react/src/index.ts:92-121 | the three loops compute the invalidation set |
| Invalidation.InvalidatedIff | vite-plugin-compiled-react/src/index.ts:92-121 | a module is invalidated exactly when it is, or directly imports, a module that is within one hop of a change and within one hop of a stylesheet node |
| Invalidation.NoStylesheetNodeNoInvalidation | vite-plugin-compiled-react/src/index.ts:100-121 | if no registered key has a graph node, nothing is invalidated |
| Invalidation.ChangedStylesheetImporterInvalidated | vite-plugin-compiled-react/src/index.ts:92-121 | a changed module importing a registered sheet is invalidated, and so are its importers |
| Invalidation.InvalidationIsLocal | vite-plugin-compiled-react/src/index.ts:92-121 | every invalidated module is within two importer hops of a change and of a stylesheet node |
| Invalidation.SharedStylesheetScenario | vite-plugin-compiled-react/src/index.ts:91-126 | with A and B sharing a sheet, P importing A and C unrelated, a change to A invalidates exactly A and P |
| Invalidation.SharedStylesheetImporterChain | vite-plugin-compiled-react/src/index.ts:91-126 | with A and B sharing a sheet, B importing A and Q importing B, a change to A invalidates exactly A, B and Q |
| Passes.BaseOf | vite-plugin-compiled-react/src/index.ts:51 | the base options are every option except `extract`, unchanged |
| Passes.ExtractionEnabled | vite-plugin-compiled-react/src/index.ts:174-179 | the extraction passes run for `extract: true`, or for the object form under `serve`/`build` whose flag is set, and never otherwise |
| Passes.AppendedPasses | vite-plugin-compiled-react/src/index.ts:150-206 | the appended list is the injection visitor, module-resolver `{root, alias}` and compiled `{importReact: false, ...}`; strip-runtime `{compiledRequireExclude: true}` and the extraction visitor follow exactly when extraction is enabled; no other pass is added |
| Passes.ExtractModesFollowCommand | vite-plugin-compiled-react/src/index.ts:174-179 | each mode flag decides only under its own command; `true` enables under every command; `false` and undefined never do |
| Passes.IsComponentFile | vite-plugin-compiled-react/src/index.ts:159 | the filename test holds exactly for names ending in `.jsx` or `.tsx` |
| Passes.InjectsRuntime | vite-plugin-compiled-react/src/index.ts:153-161 | the import is injected exactly for component files whose path contains neither `node_modules` nor `extractAssets` |
| Passes.BabelConfig.Push | vite-plugin-compiled-react/src/index.ts:150 | `plugins.push` appends one pass |
| Passes.ProgramPath.UnshiftContainer | vite-plugin-compiled-react/src/index.ts:160 | `unshiftContainer('body', s)` prepends one statement |
| CompiledPlugin.Plugin.constructor | vite-plugin-compiled-react/src/index.ts:51-54 | the plugin starts with an empty command, no root and an empty alias table |
| CompiledPlugin.Plugin.Config | vite-plugin-compiled-react/src/index.ts:58-59 | `config` records the command and changes nothing else |
| CompiledPlugin.Plugin.ConfigResolved | vite-plugin-compiled-react/src/index.ts:67-85 | the root is recorded; for an array alias option the table becomes the fold of its entries, otherwise it is unchanged |
| CompiledPlugin.Plugin.HotUpdate | vite-plugin-compiled-react/src/index.ts:91-126 | exactly the invalidation set for the changed modules and the registry's keys is marked stale |
| CompiledPlugin.Plugin.ReactBabel | vite-plugin-compiled-react/src/index.ts:149-207 | the existing passes are kept and the appended passes follow them |
| CompiledPlugin.Plugin.InjectRuntimeImport | vite-plugin-compiled-react/src/index.ts:152-162 | the body gains the runtime import at the front exactly when the file qualifies, and is unchanged otherwise |
| CompiledPlugin.Plugin.ExtractStylesheet | vite-plugin-compiled-react/src/index.ts:188-201 | with no rules, nothing changes; otherwise the rules are registered and one import of the virtual specifier of their key is prepended |
| LegacyPlugin.BaseOf | src/index.ts:63 | the base options are every option except `extract`, unchanged |
| LegacyPlugin.StripRuntimeOptions | src/index.ts:86 | an object `extract` is passed through; otherwise the options extract into the root with an empty destination |
| LegacyPlugin.AppendedPasses | src/index.ts:80-88 | module-resolver with the host alias, then the compiled plugin with the base options; strip-runtime third exactly for a build with a truthy `extract` |
| LegacyPlugin.NoStripRuntimeWhenServing | src/index.ts:83 | strip-runtime is never appended for `serve` |
| LegacyPlugin.StripRuntimeForBuild | src/index.ts:83-88 | for a build, strip-runtime is appended exactly when `extract` is `true` or an object |
| LegacyPlugin.BabelConfig.Push | src/index.ts:81 | `plugins.push` appends one pass |
| LegacyPlugin.Plugin.constructor | src/index.ts:60-63 | `outDir` and `root` start empty and the base options drop `extract` |
| LegacyPlugin.Plugin.ConfigResolved | src/index.ts:74-77 | `outDir` and `root` are taken from the resolved config |
| LegacyPlugin.Plugin.ReactBabel | src/index.ts:79-89 | the existing passes are kept and the legacy passes follow them |

## Left out

- md5 (`createHash`) is the injected function `VirtualCss.Digest`. Nothing is claimed about collisions. The properties about the hash require only that the digest is 32 lower-case hex digits.
- The babel AST and the external babel plugins are left out. Passes are tagged values. A program body is a sequence of statements, and only import declarations are told apart.
- The shared `importDeclaration` node object is modelled as the value `Passes.RuntimeImport`. Node identity is not modelled.
- Vite's module graph is a value, and `invalidateModule` only records the module. The order in which the three `Set`s are walked is not modelled, because the result is a set either way.
- The `config` hooks return `ssr.noExternal`. This is a constant with no logic, so it is not modelled.
- The legacy plugin's `buildEnd` (fast-glob search and un-awaited `rm`) is filesystem I/O and is not modelled.
- The RSC stub is kept as the exact text `load` returns. Its behaviour as JavaScript is not modelled.
- The alias dictionary is shared by reference with module-resolver in the source. Here each `ModuleResolver` pass holds the table's value at the time `reactBabel` ran, so later `configResolved` calls are not seen by earlier passes.
- AliasTable.BuildAliases, CompiledPlugin.Plugin.ConfigResolved and the `ModuleResolver` pass keep the alias table as a map, so its key order is not modelled. The JavaScript object keeps each key at the position of its first insertion, even after an overwrite, and puts integer-like keys first. babel-plugin-module-resolver reads the keys in that order and uses the first match, so two configurations that differ only in entry order give the same map here but can resolve differently.
- Object-key quirks of a plain JavaScript dictionary (`__proto__` and similar keys) are not modelled. The alias table is a map from strings to strings.
- Strings are sequences of Unicode scalar values here, while JavaScript strings are UTF-16 code units. The two differ only for characters outside the Basic Multilingual Plane: there, `substring` indices and the regex `.` at vite-plugin-compiled-react/src/index.ts:139 count code units in JavaScript but whole characters here.
- A RegExp `find` or `replacement` is represented by its source text only. It is always skipped, as in the code.
- Option keys outside the declared option types are not modelled. `...baseOptions` forwards any extra key a caller passes (for example `debug`) to the Compiled babel plugin, but the options datatypes hold only the declared keys.
- Compiled's own option types: `cache`, `optimizeCss` and `addComponentName` are passed on unchanged. Callbacks (`onIncludedFiles`, `onFoundStyleRules`) are opaque references.
- An undefined `this.filename` in the runtime-import visitor (the regexes would then test the text `undefined`) is not modelled. The filename is always a string.
- The example application and the type augmentation `src/types.d.ts` are not part of this model.
