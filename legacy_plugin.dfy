/**
 * The older plugin of `src/index.ts`: `configResolved` records the output directory and
 * the root, and `api.reactBabel` appends module-resolver and the Compiled babel plugin,
 * then strip-runtime for builds with extraction on. Its strip-runtime options are the
 * `extract` object itself, or a default that extracts into the root directory.
 */
module LegacyPlugin {
  import opened Wrappers
  import opened ViteConfig
  import Passes

  /** `extractStylesToDirectory: { source, dest }` */
  datatype Directories = Directories(source: string, dest: string)

  /** `CompiledPluginExtractOptions`; None is a property left undefined. */
  datatype ExtractOptions = ExtractOptions(
    onFoundStyleRules: Option<Passes.CallbackRef>,
    compiledRequireExclude: Option<bool>,
    extractStylesToDirectory: Option<Directories>)

  /** `extract?: boolean | CompiledPluginExtractOptions` */
  datatype Extract = ExtractFlag(flag: bool) | ExtractObject(options: ExtractOptions)

  /** `CompiledPluginOptions` of this plugin. */
  datatype Options = Options(
    importReact: Option<bool>,
    cache: Option<Passes.CacheOption>,
    optimizeCss: Option<bool>,
    onIncludedFiles: Option<Passes.CallbackRef>,
    addComponentName: Option<bool>,
    extract: Option<Extract>)

  /** `baseOptions`: the options without `extract`. */
  datatype BaseOptions = BaseOptions(
    importReact: Option<bool>,
    cache: Option<Passes.CacheOption>,
    optimizeCss: Option<bool>,
    onIncludedFiles: Option<Passes.CallbackRef>,
    addComponentName: Option<bool>)

  /** `const { extract, ...baseOptions } = options`: every option but `extract` is kept as given. */
  function BaseOf(o: Options): (b: BaseOptions)
    ensures b.importReact == o.importReact && b.cache == o.cache && b.optimizeCss == o.optimizeCss
    ensures b.onIncludedFiles == o.onIncludedFiles && b.addComponentName == o.addComponentName
  {
    BaseOptions(o.importReact, o.cache, o.optimizeCss, o.onIncludedFiles, o.addComponentName)
  }

  /** One entry of `babelConfig.plugins`, named by package as the source does. */
  datatype Pass =
    | ModuleResolver(alias: AliasOption)        // "babel-plugin-module-resolver"
    | CompiledBabel(base: BaseOptions)          // "@compiled/babel-plugin"
    | StripRuntime(stripOptions: ExtractOptions) // "@compiled/babel-plugin-strip-runtime"
    | Foreign(name: string)                     // a pass some other plugin added

  /** JavaScript truthiness of `options.extract`. */
  predicate ExtractTruthy(extract: Option<Extract>) {
    match extract
    case None => false
    case Some(ExtractFlag(f)) => f
    case Some(ExtractObject(_)) => true
  }

  /** The default strip-runtime options: extract into `root` with an empty destination. */
  function DefaultExtractOptions(root: string): ExtractOptions {
    ExtractOptions(None, None, Some(Directories(root, "")))
  }

  /**
   * The strip-runtime options: an `extract` object is passed on unchanged; otherwise
   * the stylesheets go to the root directory captured by `configResolved`.
   */
  function StripRuntimeOptions(extract: Extract, root: string): (o: ExtractOptions)
    ensures extract.ExtractObject? ==> o == extract.options
    ensures extract.ExtractFlag? ==>
      o.extractStylesToDirectory == Some(Directories(root, "")) && o.onFoundStyleRules == None &&
      o.compiledRequireExclude == None
  {
    match extract
    case ExtractObject(options) => options
    case ExtractFlag(_) => DefaultExtractOptions(root)
  }

  /**
   * The passes `reactBabel` appends, in order: module-resolver with the host's alias
   * option, the Compiled babel plugin with the base options, and strip-runtime only for
   * a build with a truthy `extract`.
   */
  function AppendedPasses(alias: AliasOption, base: BaseOptions, extract: Option<Extract>,
                          command: string, root: string): (r: seq<Pass>)
    ensures |r| == if command == "build" && ExtractTruthy(extract) then 3 else 2
    ensures r[0] == ModuleResolver(alias) && r[1] == CompiledBabel(base)
    ensures |r| == 3 ==> extract.Some? && r[2] == StripRuntime(StripRuntimeOptions(extract.value, root))
    ensures forall i :: 0 <= i < |r| ==> !r[i].Foreign?
  {
    var always := [ModuleResolver(alias), CompiledBabel(base)];
    if command == "build" && ExtractTruthy(extract) then
      always + [StripRuntime(StripRuntimeOptions(extract.value, root))]
    else always
  }

  /** Strip-runtime never runs for the dev server, whatever `extract` says. */
  lemma NoStripRuntimeWhenServing(alias: AliasOption, base: BaseOptions, extract: Option<Extract>, root: string)
    ensures forall i :: 0 <= i < |AppendedPasses(alias, base, extract, "serve", root)| ==>
      !AppendedPasses(alias, base, extract, "serve", root)[i].StripRuntime?
  {
  }

  /** Strip-runtime runs for a build exactly when `extract` is `true` or an object. */
  lemma StripRuntimeForBuild(alias: AliasOption, base: BaseOptions, extract: Option<Extract>, root: string)
    ensures |AppendedPasses(alias, base, extract, "build", root)| == 3 <==>
      extract == Some(ExtractFlag(true)) || (extract.Some? && extract.value.ExtractObject?)
  {
  }

  /** `babelConfig`, whose `plugins` list the hook extends in place. */
  class BabelConfig {
    var plugins: seq<Pass>

    constructor (plugins: seq<Pass>)
      ensures this.plugins == plugins
    {
      this.plugins := plugins;
    }

    /** `babelConfig.plugins.push(p)` */
    method Push(p: Pass)
      modifies this
      ensures plugins == old(plugins) + [p]
    {
      plugins := plugins + [p];
    }
  }

  /** The plugin object; the closure variables `outDir` and `root` are its fields. */
  class Plugin {
    const options: Options
    const baseOptions: BaseOptions
    var outDir: string
    var root: string

    /** `compiled(options)` */
    constructor (options: Options)
      ensures this.options == options && baseOptions == BaseOf(options)
      ensures outDir == "" && root == ""
    {
      this.options := options;
      baseOptions := BaseOf(options);
      outDir := "";
      root := "";
    }

    /** The `configResolved` hook captures `build.outDir` and `root`, and nothing else. */
    method ConfigResolved(config: ResolvedConfig)
      modifies this
      ensures outDir == config.outDir && root == config.root
    {
      outDir := config.outDir;
      root := config.root;
    }

    /**
     * `api.reactBabel(babelConfig, context, config)`: appends this plugin's passes after
     * those already in the list, which are left as they were.
     */
    method ReactBabel(babelConfig: BabelConfig, config: ResolvedConfig)
      modifies babelConfig
      ensures babelConfig.plugins ==
        old(babelConfig.plugins) + AppendedPasses(config.alias, baseOptions, options.extract, config.command, root)
    {
      var alias := config.alias;
      babelConfig.Push(ModuleResolver(alias));
      babelConfig.Push(CompiledBabel(baseOptions));
      if config.command == "build" && ExtractTruthy(options.extract) {
        babelConfig.Push(StripRuntime(
          if options.extract.value.ExtractObject? then options.extract.value.options
          else DefaultExtractOptions(root)));
      }
    }
  }
}
