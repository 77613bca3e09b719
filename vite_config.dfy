/**
 * The parts of Vite's resolved configuration and environment that the plugin reads.
 * Values whose JavaScript type varies (an alias `find` is a string or a RegExp, and
 * either side may be absent) are tagged so that the plugin's truthiness and
 * `typeof` tests can be written out.
 */
module ViteConfig {

  /** One side of an alias entry as JavaScript sees it. */
  datatype AliasValue =
    | Text(s: string)        // a string
    | Pattern(source: string) // a RegExp object
    | Absent                  // undefined
  {
    /** JavaScript truthiness: the empty string and undefined are falsy, objects are truthy. */
    predicate Truthy() {
      match this
      case Text(s) => s != ""
      case Pattern(_) => true
      case Absent => false
    }
  }

  datatype AliasEntry = AliasEntry(find: AliasValue, replacement: AliasValue)

  /** `config.resolve.alias`: Vite's array form, or a plain record that is not an array. */
  datatype AliasOption =
    | AliasArray(entries: seq<AliasEntry>)
    | AliasRecord(record: map<string, string>)

  /** The resolved configuration: `command`, `root`, `build.outDir` and `resolve.alias`. */
  datatype ResolvedConfig = ResolvedConfig(command: string, root: string, outDir: string, alias: AliasOption)

  /** The environment a module is loaded in: its `name` and `config.resolve.conditions`. */
  datatype Environment = Environment(name: string, conditions: seq<string>)
}
