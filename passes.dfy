/**
 * The babel pass list `api.reactBabel` appends to, the plugin options that decide it,
 * and the decisions the two Program visitors take. Passes are opaque tagged values; a
 * program body is a sequence of statements of which only imports are told apart.
 */
module Passes {
  import opened Wrappers
  import opened JsString

  /** `cache?: boolean | 'single-pass'` */
  datatype CacheOption = CacheFlag(flag: bool) | SinglePass

  /** `extract?: { build: boolean; serve: boolean } | boolean` */
  datatype ExtractOption = ExtractFlag(flag: bool) | ExtractModes(build: bool, serve: bool)

  /** A caller-supplied function (`onIncludedFiles`), kept as an opaque reference. */
  type CallbackRef = nat

  /** `CompiledPluginOptions`; None is a property left undefined. */
  datatype PluginOptions = PluginOptions(
    cache: Option<CacheOption>,
    optimizeCss: Option<bool>,
    onIncludedFiles: Option<CallbackRef>,
    addComponentName: Option<bool>,
    extract: Option<ExtractOption>)

  /** `baseOptions`: the options without `extract`. */
  datatype BaseOptions = BaseOptions(
    cache: Option<CacheOption>,
    optimizeCss: Option<bool>,
    onIncludedFiles: Option<CallbackRef>,
    addComponentName: Option<bool>)

  /** `const { extract, ...baseOptions } = options`: every option but `extract` is kept as given. */
  function BaseOf(o: PluginOptions): (b: BaseOptions)
    ensures b.cache == o.cache && b.optimizeCss == o.optimizeCss
    ensures b.onIncludedFiles == o.onIncludedFiles && b.addComponentName == o.addComponentName
  {
    BaseOptions(o.cache, o.optimizeCss, o.onIncludedFiles, o.addComponentName)
  }

  /** `{ importReact: false, ...baseOptions }` as handed to @compiled/babel-plugin. */
  datatype CompiledOptions = CompiledOptions(importReact: bool, base: BaseOptions)

  /** One entry of `babelConfig.plugins`. */
  datatype Pass =
    | InjectRuntimeVisitor                                   // the first Program visitor
    | ModuleResolver(root: Option<string>, alias: map<string, string>)
    | CompiledBabel(options: CompiledOptions)
    | StripRuntime(compiledRequireExclude: bool)
    | ExtractCssVisitor                                      // the Program exit visitor
    | Foreign(name: string)                                  // a pass some other plugin added

  /** JavaScript truthiness of `options.extract`: an object is truthy whatever its flags. */
  predicate ExtractTruthy(extract: Option<ExtractOption>) {
    match extract
    case None => false
    case Some(ExtractFlag(f)) => f
    case Some(ExtractModes(_, _)) => true
  }

  /** `options.extract.serve` / `.build`: undefined, so falsy, on a boolean. */
  predicate ServeFlag(extract: Option<ExtractOption>) {
    extract.Some? && extract.value.ExtractModes? && extract.value.serve
  }

  predicate BuildFlag(extract: Option<ExtractOption>) {
    extract.Some? && extract.value.ExtractModes? && extract.value.build
  }

  /**
   * The guard of the extraction passes. With `extract: true` they run under every
   * command; with the object form they run under `serve` or `build` exactly when that
   * flag is set, and under no other command; otherwise they never run.
   */
  predicate ExtractionEnabled(extract: Option<ExtractOption>, command: string)
    ensures ExtractionEnabled(extract, command) <==>
      || extract == Some(ExtractFlag(true))
      || (exists b, s :: extract == Some(ExtractModes(b, s)) &&
            ((command == "serve" && s) || (command == "build" && b)))
  {
    ExtractTruthy(extract) &&
    (extract == Some(ExtractFlag(true)) ||
     (command == "serve" && ServeFlag(extract)) ||
     (command == "build" && BuildFlag(extract)))
  }

  /**
   * The passes `reactBabel` appends, in order: the runtime-import visitor, the module
   * resolver, the Compiled babel plugin, and, when extraction is enabled, strip-runtime
   * followed by the extraction visitor. No pass of another plugin is added.
   */
  function AppendedPasses(root: Option<string>, alias: map<string, string>, base: BaseOptions,
                          extract: Option<ExtractOption>, command: string): (r: seq<Pass>)
    ensures |r| == if ExtractionEnabled(extract, command) then 5 else 3
    ensures r[0] == InjectRuntimeVisitor && r[1] == ModuleResolver(root, alias)
    ensures r[2] == CompiledBabel(CompiledOptions(false, base))
    ensures |r| == 5 ==> r[3] == StripRuntime(true) && r[4] == ExtractCssVisitor
    ensures forall i :: 0 <= i < |r| ==> !r[i].Foreign?
  {
    var always := [InjectRuntimeVisitor, ModuleResolver(root, alias), CompiledBabel(CompiledOptions(false, base))];
    if ExtractionEnabled(extract, command) then always + [StripRuntime(true), ExtractCssVisitor]
    else always
  }

  /** A mode flag decides the extraction passes only under its own command. */
  lemma ExtractModesFollowCommand(b: bool, s: bool, command: string)
    ensures ExtractionEnabled(Some(ExtractModes(b, s)), "build") == b
    ensures ExtractionEnabled(Some(ExtractModes(b, s)), "serve") == s
    ensures command != "build" && command != "serve" ==> !ExtractionEnabled(Some(ExtractModes(b, s)), command)
    ensures ExtractionEnabled(Some(ExtractFlag(true)), command)
    ensures !ExtractionEnabled(Some(ExtractFlag(false)), command) && !ExtractionEnabled(None, command)
  {
  }

  /** `/\.[jt]sx$/.test(filename)` */
  predicate IsComponentFile(filename: string)
    ensures IsComponentFile(filename) <==> EndsWith(filename, ".jsx") || EndsWith(filename, ".tsx")
  {
    var n := |filename|;
    n >= 4 && filename[n - 4] == '.' && (filename[n - 3] == 'j' || filename[n - 3] == 't') &&
    filename[n - 2] == 's' && filename[n - 1] == 'x'
  }

  /**
   * The runtime-import visitor prepends its import exactly for component files whose
   * path mentions neither `node_modules` nor `extractAssets`.
   */
  predicate InjectsRuntime(filename: string)
    ensures InjectsRuntime(filename) <==>
      && (EndsWith(filename, ".jsx") || EndsWith(filename, ".tsx"))
      && (forall i :: !OccursAt(filename, "node_modules", i))
      && (forall i :: !OccursAt(filename, "extractAssets", i))
  {
    if Includes(filename, "node_modules") || Includes(filename, "extractAssets") then false
    else IsComponentFile(filename)
  }

  /** A statement of a program body; only import declarations matter here. */
  datatype Statement = ImportDeclaration(source: string) | OtherStatement(node: nat)

  /** `t.importDeclaration([], t.stringLiteral('@compiled/react'))` */
  const RuntimeImport: Statement := ImportDeclaration("@compiled/react")

  /** `babelConfig`, whose `plugins` list the hook extends in place. */
  class BabelConfig {
    var plugins: seq<Pass>

    constructor (plugins: seq<Pass>)
      ensures this.plugins == plugins
    {
      this.plugins := plugins;
    }

    /** `babelConfig.plugins.push(p)` */
    method Push(p: Pass)
      modifies this
      ensures plugins == old(plugins) + [p]
    {
      plugins := plugins + [p];
    }
  }

  /** The Program path a visitor receives; `unshiftContainer('body', s)` prepends to its body. */
  class ProgramPath {
    var body: seq<Statement>

    constructor (body: seq<Statement>)
      ensures this.body == body
    {
      this.body := body;
    }

    method UnshiftContainer(s: Statement)
      modifies this
      ensures body == [s] + old(body)
    {
      body := [s] + body;
    }
  }
}
