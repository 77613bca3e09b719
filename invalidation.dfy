/**
 * The `hotUpdate` walk. Vite's module graph is given as a value (the id lookup and
 * each node's importer set); the walk builds
 *   original = the changed modules and their direct importers,
 *   touched  = the graph nodes of registered stylesheets and their direct importers,
 * and invalidates `original * touched` together with the direct importers of those.
 */
module Invalidation {
  import opened VirtualCss

  /** A handle standing for one `EnvironmentModuleNode` object of the module graph. */
  type ModuleNode = nat

  /** What the walk reads of the graph: `getModuleById` and each node's `importers`. */
  datatype Graph = Graph(byId: map<string, ModuleNode>, importers: map<ModuleNode, set<ModuleNode>>)
  {
    /** `mod.importers`; a node the map does not mention has none. */
    function ImportersOf(m: ModuleNode): set<ModuleNode> {
      if m in importers then importers[m] else {}
    }
  }

  /** `this.environment.moduleGraph`: its shape, and the modules marked stale so far. */
  class ModuleGraph {
    const shape: Graph
    var invalidated: set<ModuleNode>

    constructor (shape: Graph)
      ensures this.shape == shape && invalidated == {}
    {
      this.shape := shape;
      invalidated := {};
    }

    /** `invalidateModule(mod)` */
    method InvalidateModule(mod: ModuleNode)
      modifies this
      ensures invalidated == old(invalidated) + {mod}
    {
      invalidated := invalidated + {mod};
    }
  }

  /** The modules of `s` and their direct importers: one hop, no further. */
  function WithImporters(g: Graph, s: set<ModuleNode>): set<ModuleNode> {
    s + set m, i | m in s && i in g.ImportersOf(m) :: i
  }

  /** The graph nodes that exist for registered stylesheet keys. */
  function StylesheetNodes(g: Graph, keys: set<string>): set<ModuleNode> {
    set k | k in keys && ModuleId(k) in g.byId :: g.byId[ModuleId(k)]
  }

  function Changed(changed: seq<ModuleNode>): set<ModuleNode> {
    set m | m in changed
  }

  /** The modules hotUpdate invalidates for one change event. */
  function InvalidationSet(g: Graph, changed: seq<ModuleNode>, keys: set<string>): set<ModuleNode> {
    var original := WithImporters(g, Changed(changed));
    var touched := WithImporters(g, StylesheetNodes(g, keys));
    WithImporters(g, original * touched)
  }

  /** Adding one module with its importers adds exactly that module and its importers. */
  lemma WithImportersAdd(g: Graph, s: set<ModuleNode>, m: ModuleNode)
    ensures WithImporters(g, s + {m}) == WithImporters(g, s) + {m} + g.ImportersOf(m)
  {
    var lhs := WithImporters(g, s + {m});
    var rhs := WithImporters(g, s) + {m} + g.ImportersOf(m);
    forall i | i in lhs ensures i in rhs {
      if i !in s + {m} {
        var m' :| m' in s + {m} && i in g.ImportersOf(m');
      }
    }
  }

  /** `set.add(mod)` followed by the loop adding each of `mod.importers`. */
  method AddWithImporters(g: Graph, acc: set<ModuleNode>, m: ModuleNode) returns (r: set<ModuleNode>)
    ensures r == acc + {m} + g.ImportersOf(m)
  {
    r := acc + {m};
    var rest := g.ImportersOf(m);
    while rest != {}
      invariant rest <= g.ImportersOf(m)
      invariant r == acc + {m} + (g.ImportersOf(m) - rest)
      decreases rest
    {
      var importer :| importer in rest;
      r := r + {importer};
      rest := rest - {importer};
    }
  }

  /** The first loop of `hotUpdate`: `originalMods`, the changed modules and their importers. */
  method CollectOriginal(g: Graph, changed: seq<ModuleNode>) returns (originalMods: set<ModuleNode>)
    ensures originalMods == WithImporters(g, Changed(changed))
  {
    originalMods := {};
    for n := 0 to |changed|
      invariant originalMods == WithImporters(g, Changed(changed[..n]))
    {
      WithImportersAdd(g, Changed(changed[..n]), changed[n]);
      assert Changed(changed[..n + 1]) == Changed(changed[..n]) + {changed[n]} by {
        assert changed[..n + 1] == changed[..n] + [changed[n]];
      }
      originalMods := AddWithImporters(g, originalMods, changed[n]);
    }
    assert changed[..|changed|] == changed;
  }

  /**
   * The second loop: `virtualCssImporterMods`, the graph nodes of the registry keys that
   * the graph knows, and their importers.
   */
  method CollectStylesheetImporters(g: Graph, keys: set<string>) returns (virtualCssImporterMods: set<ModuleNode>)
    ensures virtualCssImporterMods == WithImporters(g, StylesheetNodes(g, keys))
  {
    virtualCssImporterMods := {};
    var cssIds := keys;
    while cssIds != {}
      invariant cssIds <= keys
      invariant virtualCssImporterMods == WithImporters(g, StylesheetNodes(g, keys - cssIds))
      decreases cssIds
    {
      var cssId :| cssId in cssIds;
      var done := keys - cssIds;
      var id := ModuleId(cssId);
      if id in g.byId {
        var mod := g.byId[id];
        assert StylesheetNodes(g, done + {cssId}) == StylesheetNodes(g, done) + {mod};
        WithImportersAdd(g, StylesheetNodes(g, done), mod);
        virtualCssImporterMods := AddWithImporters(g, virtualCssImporterMods, mod);
      } else {
        assert StylesheetNodes(g, done + {cssId}) == StylesheetNodes(g, done);
      }
      assert keys - (cssIds - {cssId}) == done + {cssId};
      cssIds := cssIds - {cssId};
    }
  }

  /**
   * The third loop: `modsToInvalidate`, the modules of `originalMods` that are also in
   * `virtualCssImporterMods`, and their importers.
   */
  method CollectToInvalidate(g: Graph, originalMods: set<ModuleNode>, virtualCssImporterMods: set<ModuleNode>)
    returns (modsToInvalidate: set<ModuleNode>)
    ensures modsToInvalidate == WithImporters(g, originalMods * virtualCssImporterMods)
  {
    modsToInvalidate := {};
    var rest := originalMods;
    while rest != {}
      invariant rest <= originalMods
      invariant modsToInvalidate == WithImporters(g, (originalMods - rest) * virtualCssImporterMods)
      decreases rest
    {
      var mod :| mod in rest;
      var done := (originalMods - rest) * virtualCssImporterMods;
      if mod in virtualCssImporterMods {
        assert (originalMods - (rest - {mod})) * virtualCssImporterMods == done + {mod};
        WithImportersAdd(g, done, mod);
        modsToInvalidate := AddWithImporters(g, modsToInvalidate, mod);
      } else {
        assert (originalMods - (rest - {mod})) * virtualCssImporterMods == done;
      }
      rest := rest - {mod};
    }
  }

  /** The three loops of `hotUpdate` in order; `keys` are the registry's keys. */
  method ComputeInvalidation(g: Graph, changed: seq<ModuleNode>, keys: set<string>) returns (modsToInvalidate: set<ModuleNode>)
    ensures modsToInvalidate == InvalidationSet(g, changed, keys)
  {
    var originalMods := CollectOriginal(g, changed);
    var virtualCssImporterMods := CollectStylesheetImporters(g, keys);
    modsToInvalidate := CollectToInvalidate(g, originalMods, virtualCssImporterMods);
  }

  /** Module `m` is changed or directly imports a changed module. */
  ghost predicate NearChange(g: Graph, changed: seq<ModuleNode>, m: ModuleNode) {
    m in changed || exists c :: c in changed && m in g.ImportersOf(c)
  }

  /** Module `m` is a registered stylesheet's node or directly imports one. */
  ghost predicate NearStylesheet(g: Graph, keys: set<string>, m: ModuleNode) {
    exists k :: k in keys && ModuleId(k) in g.byId &&
      (m == g.byId[ModuleId(k)] || m in g.ImportersOf(g.byId[ModuleId(k)]))
  }

  /**
   * The invalidated modules, in terms of importer edges: `n` is invalidated exactly when
   * it is, or directly imports, a module that is both near a change and near a stylesheet.
   */
  lemma InvalidatedIff(g: Graph, changed: seq<ModuleNode>, keys: set<string>, n: ModuleNode)
    ensures n in InvalidationSet(g, changed, keys) <==>
      exists m :: NearChange(g, changed, m) && NearStylesheet(g, keys, m) && (n == m || n in g.ImportersOf(m))
  {
    var original := WithImporters(g, Changed(changed));
    var touched := WithImporters(g, StylesheetNodes(g, keys));
    forall m ensures m in original <==> NearChange(g, changed, m) {
      if m in original && m !in Changed(changed) {
        var c :| c in Changed(changed) && m in g.ImportersOf(c);
      }
    }
    forall m ensures m in touched <==> NearStylesheet(g, keys, m) {
      if m in touched {
        if m in StylesheetNodes(g, keys) {
          var k :| k in keys && ModuleId(k) in g.byId && g.byId[ModuleId(k)] == m;
        } else {
          var v :| v in StylesheetNodes(g, keys) && m in g.ImportersOf(v);
          var k :| k in keys && ModuleId(k) in g.byId && g.byId[ModuleId(k)] == v;
        }
      }
      if NearStylesheet(g, keys, m) {
        var k :| k in keys && ModuleId(k) in g.byId &&
          (m == g.byId[ModuleId(k)] || m in g.ImportersOf(g.byId[ModuleId(k)]));
        assert g.byId[ModuleId(k)] in StylesheetNodes(g, keys);
      }
    }
    if n in InvalidationSet(g, changed, keys) && n !in original * touched {
      var m :| m in original * touched && n in g.ImportersOf(m);
    }
  }

  /** If no registered stylesheet has a graph node, a change invalidates nothing. */
  lemma NoStylesheetNodeNoInvalidation(g: Graph, changed: seq<ModuleNode>, keys: set<string>)
    requires forall k :: k in keys ==> ModuleId(k) !in g.byId
    ensures InvalidationSet(g, changed, keys) == {}
  {
    assert StylesheetNodes(g, keys) == {};
    assert WithImporters(g, {}) == {};
  }

  /**
   * A changed module that imports a registered stylesheet is invalidated, and so is
   * every module that imports it.
   */
  lemma ChangedStylesheetImporterInvalidated(g: Graph, changed: seq<ModuleNode>, keys: set<string>, c: ModuleNode, k: string)
    requires c in changed
    requires k in keys && ModuleId(k) in g.byId && c in g.ImportersOf(g.byId[ModuleId(k)])
    ensures c in InvalidationSet(g, changed, keys)
    ensures g.ImportersOf(c) <= InvalidationSet(g, changed, keys)
  {
    var v := g.byId[ModuleId(k)];
    assert v in StylesheetNodes(g, keys);
    assert c in WithImporters(g, StylesheetNodes(g, keys));
    assert c in WithImporters(g, Changed(changed));
  }

  /**
   * The walk stays local: every invalidated module is within two importer hops of a
   * changed module and within two importer hops of a registered stylesheet's node.
   */
  lemma InvalidationIsLocal(g: Graph, changed: seq<ModuleNode>, keys: set<string>)
    ensures InvalidationSet(g, changed, keys) <= WithImporters(g, WithImporters(g, Changed(changed)))
    ensures InvalidationSet(g, changed, keys) <= WithImporters(g, WithImporters(g, StylesheetNodes(g, keys)))
  {
    var original := WithImporters(g, Changed(changed));
    var touched := WithImporters(g, StylesheetNodes(g, keys));
    forall n | n in InvalidationSet(g, changed, keys)
      ensures n in WithImporters(g, original) && n in WithImporters(g, touched)
    {
      if n !in original * touched {
        var m :| m in original * touched && n in g.ImportersOf(m);
      }
    }
  }

  /**
   * Modules A (1) and B (2) both import the stylesheet V (0), module P (4) imports A, and
   * C (3) is unrelated. A change to A invalidates A and P; it leaves B and C alone.
   */
  lemma SharedStylesheetScenario(key: string)
    ensures var g := Graph(map[ModuleId(key) := 0], map[0 := {1, 2}, 1 := {4}]);
      InvalidationSet(g, [1], {key}) == {1, 4}
  {
    var g := Graph(map[ModuleId(key) := 0], map[0 := {1, 2}, 1 := {4}]);
    assert Changed([1]) == {1};
    assert StylesheetNodes(g, {key}) == {0};
    assert g.ImportersOf(0) == {1, 2} && g.ImportersOf(1) == {4};
    assert WithImporters(g, {1}) == {1, 4} by { WithImportersAdd(g, {}, 1); }
    assert WithImporters(g, {0}) == {0, 1, 2} by { WithImportersAdd(g, {}, 0); }
    assert {1, 4} * {0, 1, 2} == {1};
  }

  /**
   * As above, but B (2) also imports A, and Q (5) imports B. A change to A now reaches B
   * and B's importer Q, through the import of A rather than through the shared sheet.
   */
  lemma SharedStylesheetImporterChain(key: string)
    ensures var g := Graph(map[ModuleId(key) := 0], map[0 := {1, 2}, 1 := {2}, 2 := {5}]);
      InvalidationSet(g, [1], {key}) == {1, 2, 5}
  {
    var g := Graph(map[ModuleId(key) := 0], map[0 := {1, 2}, 1 := {2}, 2 := {5}]);
    assert Changed([1]) == {1};
    assert StylesheetNodes(g, {key}) == {0};
    assert g.ImportersOf(0) == {1, 2} && g.ImportersOf(1) == {2} && g.ImportersOf(2) == {5};
    assert WithImporters(g, {1}) == {1, 2} by { WithImportersAdd(g, {}, 1); }
    assert WithImporters(g, {0}) == {0, 1, 2} by { WithImportersAdd(g, {}, 0); }
    assert {1, 2} * {0, 1, 2} == {1, 2};
    assert WithImporters(g, {1, 2}) == {1, 2, 5} by {
      WithImportersAdd(g, {}, 1);
      WithImportersAdd(g, {1}, 2);
      assert {1} + {2} == {1, 2};
    }
  }
}
