/**
 * The alias table `configResolved` hands to babel-plugin-module-resolver: the entries
 * of Vite's alias array are folded, in order, into a string-to-string dictionary. An
 * entry is kept only when both sides are non-empty strings; a replacement spread over
 * more than two `/`-separated segments has the first occurrence of the project root
 * replaced by `.`.
 */
module AliasTable {
  import opened JsString
  import opened ViteConfig

  /** `replacement.split('/').length > 2 ? replacement.replace(root, '.') : replacement` */
  function NormalizeReplacement(replacement: string, root: string): (r: string)
    ensures multiset(replacement)['/'] <= 1 ==> r == replacement
    ensures multiset(replacement)['/'] >= 2 ==> r == ReplaceFirst(replacement, root, ".")
  {
    SplitCount(replacement, '/');
    if |Split(replacement, '/')| > 2 then ReplaceFirst(replacement, root, ".") else replacement
  }

  /** Entry `e` is kept: both its sides are non-empty strings. */
  predicate Accepted(e: AliasEntry) {
    e.find.Text? && e.find.s != "" && e.replacement.Text? && e.replacement.s != ""
  }

  /** Entry `e` puts key `k` into the table. */
  predicate Defines(e: AliasEntry, k: string) {
    Accepted(e) && e.find.s == k
  }

  /** One iteration of the loop over `config.resolve.alias`: a kept entry overwrites its key. */
  function AddAlias(table: map<string, string>, e: AliasEntry, root: string): (r: map<string, string>)
    ensures Accepted(e) ==> r == table[e.find.s := NormalizeReplacement(e.replacement.s, root)]
    ensures !Accepted(e) ==> r == table
  {
    if e.find.Truthy() && e.replacement.Truthy() then
      if !e.replacement.Text? || !e.find.Text? then table
      else table[e.find.s := NormalizeReplacement(e.replacement.s, root)]
    else table
  }

  /** The table after the loop has visited `entries` in order, starting from `table`. */
  function BuildAliases(table: map<string, string>, entries: seq<AliasEntry>, root: string): map<string, string>
    decreases |entries|
  {
    if entries == [] then table
    else AddAlias(BuildAliases(table, entries[..|entries| - 1], root), entries[|entries| - 1], root)
  }

  /** The table holds `k` exactly when it did before or some entry defines `k`. */
  lemma {:induction false} BuildAliasesHas(table: map<string, string>, entries: seq<AliasEntry>, root: string, k: string)
    ensures k in BuildAliases(table, entries, root) <==>
      k in table || exists j :: 0 <= j < |entries| && Defines(entries[j], k)
    decreases |entries|
  {
    if entries != [] {
      var n := |entries| - 1;
      var init := entries[..n];
      BuildAliasesHas(table, init, root, k);
      var before := BuildAliases(table, init, root);
      assert BuildAliases(table, entries, root) == AddAlias(before, entries[n], root);
      if Defines(entries[n], k) {
        assert k in AddAlias(before, entries[n], root);
      } else {
        assert k in AddAlias(before, entries[n], root) <==> k in before;
        if j :| 0 <= j < |entries| && Defines(entries[j], k) {
          assert j < n && init[j] == entries[j];
        }
        if j :| 0 <= j < n && Defines(init[j], k) {
          assert init[j] == entries[j];
        }
      }
    }
  }

  /** A key that no entry defines keeps its old value. */
  lemma {:induction false} BuildAliasesKeeps(table: map<string, string>, entries: seq<AliasEntry>, root: string, k: string)
    requires k in table
    requires forall j :: 0 <= j < |entries| ==> !Defines(entries[j], k)
    ensures k in BuildAliases(table, entries, root) && BuildAliases(table, entries, root)[k] == table[k]
    decreases |entries|
  {
    if entries != [] {
      var n := |entries| - 1;
      var init := entries[..n];
      assert forall j :: 0 <= j < n ==> init[j] == entries[j];
      BuildAliasesKeeps(table, init, root, k);
      var before := BuildAliases(table, init, root);
      assert BuildAliases(table, entries, root) == AddAlias(before, entries[n], root);
      assert !Defines(entries[n], k);
    }
  }

  /** Later entries overwrite earlier ones: the LAST entry that defines `k` decides its value. */
  lemma {:induction false} BuildAliasesLastWins(table: map<string, string>, entries: seq<AliasEntry>, root: string, k: string, j: nat)
    requires j < |entries| && Defines(entries[j], k)
    requires forall j' :: j < j' < |entries| ==> !Defines(entries[j'], k)
    ensures k in BuildAliases(table, entries, root)
    ensures BuildAliases(table, entries, root)[k] == NormalizeReplacement(entries[j].replacement.s, root)
    decreases |entries|
  {
    var n := |entries| - 1;
    var before := BuildAliases(table, entries[..n], root);
    assert BuildAliases(table, entries, root) == AddAlias(before, entries[n], root);
    if j < n {
      assert forall i :: 0 <= i < n ==> entries[..n][i] == entries[i];
      BuildAliasesLastWins(table, entries[..n], root, k, j);
      assert !Defines(entries[n], k);
    }
  }

  /** The keys the kept entries among `entries` name. */
  function KeptKeys(entries: seq<AliasEntry>): set<string> {
    set j | 0 <= j < |entries| && Accepted(entries[j]) :: entries[j].find.s
  }

  /** Only the keys of kept entries are added: nothing else enters the table. */
  lemma {:induction false} BuildAliasesKeys(table: map<string, string>, entries: seq<AliasEntry>, root: string)
    ensures BuildAliases(table, entries, root).Keys == table.Keys + KeptKeys(entries)
    decreases |entries|
  {
    if entries != [] {
      var n := |entries| - 1;
      var init := entries[..n];
      BuildAliasesKeys(table, init, root);
      assert forall j :: 0 <= j < n ==> init[j] == entries[j];
      var added := if Accepted(entries[n]) then {entries[n].find.s} else {};
      assert KeptKeys(entries) == KeptKeys(init) + added by {
        forall k | k in KeptKeys(entries) ensures k in KeptKeys(init) + added {
          var j :| 0 <= j < |entries| && Accepted(entries[j]) && entries[j].find.s == k;
          if j < n { assert init[j] == entries[j]; }
        }
      }
    }
  }

  /**
   * The root is replaced wherever it first occurs, not only as a leading directory: a
   * replacement `p + root + q` in which the root does not occur earlier becomes `p + "." + q`,
   * whatever `p` is and whether or not `q` starts a new path segment.
   */
  lemma RootReplacedAtFirstOccurrence(p: string, root: string, q: string)
    requires multiset(p + root + q)['/'] >= 2
    requires forall j :: 0 <= j < |p| ==> !OccursAt(p + root + q, root, j)
    ensures NormalizeReplacement(p + root + q, root) == p + "." + q
  {
    var s := p + root + q;
    assert OccursAt(s, root, |p|) by { assert s[|p|..|p| + |root|] == root; }
    ReplaceFirstAt(s, root, ".", |p|);
    assert s[..|p|] == p && s[|p| + |root|..] == q;
  }
}
