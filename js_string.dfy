/**
 * The JavaScript string built-ins the plugin calls: `startsWith`, `includes`, `replace`
 * with a string pattern, `split` on a one-character separator, `Array.prototype.join`
 * and `substring`. `EndsWith`, `OccursAt` and `IndexOf` are helpers for stating them.
 * `IndexOfFrom`, `Includes` and `Substring` carry their meaning as contracts; the
 * meaning of `ReplaceFirst`, `Split` and `Join` is given by the lemmas about them.
 */
module JsString {

  /** `s.startsWith(p)` */
  predicate StartsWith(s: string, p: string) {
    |p| <= |s| && s[..|p|] == p
  }

  /** `s.endsWith(p)` */
  predicate EndsWith(s: string, p: string) {
    |p| <= |s| && s[|s| - |p|..] == p
  }

  /** `p` occurs in `s` starting at index `i`. */
  predicate OccursAt(s: string, p: string, i: int) {
    0 <= i && i + |p| <= |s| && s[i..i + |p|] == p
  }

  /** `s.indexOf(p, k)`: the first occurrence of `p` at or after `k`, or -1. */
  function IndexOfFrom(s: string, p: string, k: nat): (r: int)
    requires k <= |s|
    ensures r == -1 || (k <= r && OccursAt(s, p, r))
    ensures r == -1 <==> forall i :: k <= i ==> !OccursAt(s, p, i)
    ensures forall i :: k <= i < r ==> !OccursAt(s, p, i)
    decreases |s| - k
  {
    if k + |p| > |s| then -1
    else if s[k..k + |p|] == p then k
    else IndexOfFrom(s, p, k + 1)
  }

  /** `s.indexOf(p)`. An empty `p` is found at 0. */
  function IndexOf(s: string, p: string): int {
    IndexOfFrom(s, p, 0)
  }

  /** `s.includes(p)` */
  predicate Includes(s: string, p: string)
    ensures Includes(s, p) <==> exists i :: OccursAt(s, p, i)
  {
    IndexOf(s, p) != -1
  }

  /**
   * `s.replace(pat, rep)` with a string pattern and a replacement free of `$`: only the
   * FIRST occurrence of `pat` is replaced (ReplaceFirstAt), and the string is unchanged
   * when `pat` does not occur (ReplaceFirstAbsent). JavaScript expands `$&`, `` $` ``,
   * `$'` and `$$` in a replacement string; `rep` is inserted literally here.
   */
  function ReplaceFirst(s: string, pat: string, rep: string): string {
    var i := IndexOf(s, pat);
    if i == -1 then s else s[..i] + rep + s[i + |pat|..]
  }

  lemma ReplaceFirstAbsent(s: string, pat: string, rep: string)
    requires forall i :: !OccursAt(s, pat, i)
    ensures ReplaceFirst(s, pat, rep) == s
  {
  }

  lemma ReplaceFirstAt(s: string, pat: string, rep: string, i: nat)
    requires OccursAt(s, pat, i)
    requires forall j :: 0 <= j < i ==> !OccursAt(s, pat, j)
    ensures ReplaceFirst(s, pat, rep) == s[..i] + rep + s[i + |pat|..]
  {
  }

  /** `parts.join(sep)` */
  function Join(parts: seq<string>, sep: string): string
    decreases |parts|
  {
    if |parts| == 0 then ""
    else if |parts| == 1 then parts[0]
    else parts[0] + sep + Join(parts[1..], sep)
  }

  /**
   * `s.split(c)` for a one-character separator, read from the front: a separator starts
   * a new piece, any other character joins the first piece.
   */
  function Split(s: string, c: char): (r: seq<string>)
    ensures |r| >= 1
    decreases |s|
  {
    if |s| == 0 then [""]
    else
      var r := Split(s[1..], c);
      if s[0] == c then [""] + r else [[s[0]] + r[0]] + r[1..]
  }

  /** No piece of `split` holds the separator. */
  lemma {:induction false} SplitPiecesFree(s: string, c: char)
    ensures forall k :: 0 <= k < |Split(s, c)| ==> c !in Split(s, c)[k]
    decreases |s|
  {
    if |s| > 0 {
      SplitPiecesFree(s[1..], c);
      var r := Split(s[1..], c);
      if s[0] != c {
        assert c !in [s[0]] + r[0];
      }
    }
  }

  /** A character missing from the string is missing from every piece of its `split`. */
  lemma {:induction false} SplitKeepsAbsent(s: string, c: char, d: char)
    requires d !in s
    ensures forall k :: 0 <= k < |Split(s, c)| ==> d !in Split(s, c)[k]
    decreases |s|
  {
    if |s| > 0 {
      assert d !in s[1..];
      SplitKeepsAbsent(s[1..], c, d);
      var r := Split(s[1..], c);
      if s[0] != c {
        assert d !in [s[0]] + r[0];
      }
    }
  }

  /** `split` gives one piece more than there are separators. */
  lemma {:induction false} SplitCount(s: string, c: char)
    ensures |Split(s, c)| == multiset(s)[c] + 1
    decreases |s|
  {
    if |s| > 0 {
      SplitCount(s[1..], c);
      assert s == [s[0]] + s[1..];
      assert multiset(s) == multiset{s[0]} + multiset(s[1..]);
    }
  }

  /** Prefixing the first part prefixes the joined text. */
  lemma JoinPrefix(a: char, parts: seq<string>, sep: string)
    requires |parts| >= 1
    ensures Join([[a] + parts[0]] + parts[1..], sep) == [a] + Join(parts, sep)
  {
    var q := [[a] + parts[0]] + parts[1..];
    assert q[1..] == parts[1..];
  }

  /** `split` loses nothing: joining the pieces back with the separator gives the string. */
  lemma {:induction false} SplitJoin(s: string, c: char)
    ensures Join(Split(s, c), [c]) == s
    decreases |s|
  {
    if |s| > 0 {
      SplitJoin(s[1..], c);
      var r := Split(s[1..], c);
      if s[0] == c {
        assert ([""] + r)[1..] == r;
      } else {
        JoinPrefix(s[0], r, [c]);
      }
      assert s == [s[0]] + s[1..];
    }
  }

  /** `s.substring(start, end)`: both bounds clamped to the string, swapped when reversed. */
  function Substring(s: string, start: int, end: int): (r: string)
    ensures 0 <= start <= end <= |s| ==> r == s[start..end]
    ensures |r| <= |s|
  {
    var a := if start < 0 then 0 else if start > |s| then |s| else start;
    var b := if end < 0 then 0 else if end > |s| then |s| else end;
    if a <= b then s[a..b] else s[b..a]
  }

  /** Without the separator, `split` gives the whole string back. */
  lemma {:induction false} SplitWithoutSeparator(s: string, c: char)
    requires c !in s
    ensures Split(s, c) == [s]
    decreases |s|
  {
    if |s| > 0 {
      assert c !in s[1..];
      SplitWithoutSeparator(s[1..], c);
      assert s == [s[0]] + s[1..];
    }
  }

  /** The first piece of `split` is the text before the first separator. */
  lemma {:induction false} SplitFirst(t: string, c: char, u: string)
    requires c !in t
    ensures Split(t + [c] + u, c)[0] == t
    decreases |t|
  {
    var s := t + [c] + u;
    if |t| > 0 {
      assert s[1..] == t[1..] + [c] + u;
      SplitFirst(t[1..], c, u);
      assert t == [t[0]] + t[1..];
    } else {
      assert s[0] == c;
    }
  }

  /** The last piece of `split` is the text after the last separator. */
  lemma {:induction false} SplitLast(u: string, c: char, t: string)
    requires c !in t
    ensures var r := Split(u + [c] + t, c); |r| >= 2 && r[|r| - 1] == t
    decreases |u|
  {
    var s := u + [c] + t;
    if |u| > 0 {
      assert s[1..] == u[1..] + [c] + t;
      SplitLast(u[1..], c, t);
    } else {
      assert s[0] == c && s[1..] == t;
      SplitWithoutSeparator(t, c);
    }
  }
}
