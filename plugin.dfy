/**
 * The plugin object `compiled(options)` returns, as a class: the closure variables
 * `command`, `root` and `moduleResolverPluginAlias` are its fields, and each hook that
 * changes state is a method. The module-level `virtualCssFiles` map is the registry
 * handed to the constructor, so several plugin instances may share one.
 */
module CompiledPlugin {
  import opened Wrappers
  import opened JsString
  import opened ViteConfig
  import opened VirtualCss
  import opened AliasTable
  import opened Invalidation
  import opened Passes

  class Plugin {
    const options: PluginOptions
    const baseOptions: BaseOptions
    const digest: Digest
    const registry: CssRegistry
    var command: string
    var root: Option<string>
    var alias: map<string, string>

    /** `compiled(options)` */
    constructor (options: PluginOptions, digest: Digest, registry: CssRegistry)
      ensures this.options == options && baseOptions == BaseOf(options)
      ensures this.digest == digest && this.registry == registry
      ensures command == "" && root == None && alias == map[]
    {
      this.options := options;
      baseOptions := BaseOf(options);
      this.digest := digest;
      this.registry := registry;
      command := "";
      root := None;
      alias := map[];
    }

    /** The `config` hook records the command; its returned `ssr` settings are not modelled. */
    method Config(envCommand: string)
      modifies this
      ensures command == envCommand && root == old(root) && alias == old(alias)
    {
      command := envCommand;
    }

    /**
     * The `configResolved` hook: records the root and, when the alias option is an array,
     * folds its entries into the alias table (which keeps what earlier calls put there).
     */
    method ConfigResolved(config: ResolvedConfig)
      modifies this
      ensures root == Some(config.root) && command == old(command)
      ensures alias == if config.alias.AliasArray? then BuildAliases(old(alias), config.alias.entries, config.root)
                       else old(alias)
    {
      root := Some(config.root);
      if !config.alias.AliasArray? {
        return;
      }
      var entries := config.alias.entries;
      for n := 0 to |entries|
        invariant alias == BuildAliases(old(alias), entries[..n], config.root)
        invariant root == Some(config.root) && command == old(command)
      {
        assert entries[..n + 1][..n] == entries[..n];
        var e := entries[n];
        if e.find.Truthy() && e.replacement.Truthy() {
          if !e.replacement.Text? || !e.find.Text? {
            continue;
          }
          var replacement := NormalizeReplacement(e.replacement.s, config.root);
          alias := alias[e.find.s := replacement];
        }
      }
      assert entries[..|entries|] == entries;
    }

    /**
     * The `hotUpdate` hook: marks stale exactly the modules of the invalidation set
     * computed from the changed modules and the registry's keys, and no other.
     */
    method HotUpdate(changed: seq<ModuleNode>, moduleGraph: ModuleGraph)
      modifies moduleGraph
      ensures moduleGraph.invalidated ==
        old(moduleGraph.invalidated) + InvalidationSet(moduleGraph.shape, changed, registry.files.Keys)
    {
      var modsToInvalidate := ComputeInvalidation(moduleGraph.shape, changed, registry.files.Keys);
      var rest := modsToInvalidate;
      while rest != {}
        invariant rest <= modsToInvalidate
        invariant moduleGraph.invalidated == old(moduleGraph.invalidated) + (modsToInvalidate - rest)
        decreases rest
      {
        var mod :| mod in rest;
        moduleGraph.InvalidateModule(mod);
        rest := rest - {mod};
      }
    }

    /**
     * `api.reactBabel`: appends this plugin's passes after those already in the list,
     * which are left as they were.
     */
    method ReactBabel(babelConfig: BabelConfig)
      modifies babelConfig
      ensures babelConfig.plugins ==
        old(babelConfig.plugins) + AppendedPasses(root, alias, baseOptions, options.extract, command)
    {
      babelConfig.Push(InjectRuntimeVisitor);
      babelConfig.Push(ModuleResolver(root, alias));
      babelConfig.Push(CompiledBabel(CompiledOptions(false, baseOptions)));
      if ExtractTruthy(options.extract) &&
         (options.extract == Some(ExtractFlag(true)) ||
          (command == "serve" && ServeFlag(options.extract)) ||
          (command == "build" && BuildFlag(options.extract)))
      {
        babelConfig.Push(StripRuntime(true));
        babelConfig.Push(ExtractCssVisitor);
      }
    }

    /** The runtime-import visitor's `Program` callback for the file `filename`. */
    method InjectRuntimeImport(program: ProgramPath, filename: string)
      modifies program
      ensures program.body == if InjectsRuntime(filename) then [RuntimeImport] + old(program.body)
                              else old(program.body)
    {
      if Includes(filename, "node_modules") || Includes(filename, "extractAssets") {
        return;
      }
      if IsComponentFile(filename) {
        program.UnshiftContainer(RuntimeImport);
      }
    }

    /**
     * The extraction visitor's `Program.exit` callback. With no style rules it changes
     * nothing; otherwise it registers the joined rules under their hash and prepends one
     * import of the matching virtual specifier.
     */
    method ExtractStylesheet(program: ProgramPath, styleRules: seq<string>)
      modifies program, registry
      ensures |styleRules| == 0 ==> registry.files == old(registry.files) && program.body == old(program.body)
      ensures |styleRules| > 0 ==> registry.files == Register(old(registry.files), digest, styleRules)
      ensures |styleRules| > 0 ==>
        program.body == [ImportDeclaration(ImportSource(FileId(digest, styleRules)))] + old(program.body)
    {
      if |styleRules| > 0 {
        var code := StylesheetText(styleRules);
        var fileId := Hash(digest, code) + ".css";
        registry.Set(fileId, StylesheetText(styleRules));
        program.UnshiftContainer(ImportDeclaration(VirtualName + ":" + fileId));
      }
    }
  }
}
