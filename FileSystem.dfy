/**
 * An abstract file system for the `create` command: a map from paths (lists
 * of components) to entries, and the fs-extra operations bin/cli.js performs
 * on it (`existsSync`, `remove`, `ensureDir`, `copy`, `readJson`, `writeJson`).
 * A path exists when it, or anything below it, has an entry.
 */
module FileSystem {
  import opened Wrappers
  import opened Json

  type Path = seq<string>

  /** File contents: text that parses as JSON, or text that does not. */
  datatype Content = JsonText(value: Json) | RawText(text: string)

  datatype Entry = Dir | File(content: Content)

  type Tree = map<Path, Entry>

  predicate IsPrefix(p: Path, q: Path)
  {
    |p| <= |q| && q[..|p|] == p
  }

  /** A prefix of a path fixes its first components. */
  lemma PrefixesCompare(a: Path, b: Path, q: Path)
    ensures IsPrefix(a, q) && IsPrefix(b, q) && |a| <= |b| ==> IsPrefix(a, b)
  {
    if IsPrefix(a, q) && IsPrefix(b, q) && |a| <= |b| {
      assert b[..|a|] == q[..|b|][..|a|];
    }
  }

  lemma PrefixTrans(a: Path, b: Path, c: Path)
    ensures IsPrefix(a, b) && IsPrefix(b, c) ==> IsPrefix(a, c)
  {
    if IsPrefix(a, b) && IsPrefix(b, c) {
      assert c[..|a|] == c[..|b|][..|a|];
    }
  }

  /** `u` holds the same entries as `t` everywhere outside `dir`. */
  ghost predicate SameOutside(t: Tree, u: Tree, dir: Path)
  {
    forall p :: !IsPrefix(dir, p) ==> (p in u <==> p in t) && (p in u ==> u[p] == t[p])
  }

  /** Changes below `dir` do not affect whether an unrelated path exists. */
  lemma ExistsAway(t: Tree, u: Tree, dir: Path, p: Path)
    requires SameOutside(t, u, dir)
    requires !IsPrefix(dir, p) && !IsPrefix(p, dir)
    ensures Exists(u, p) <==> Exists(t, p)
  {
    forall q | IsPrefix(p, q) && IsPrefix(dir, q)
      ensures false
    {
      if |p| <= |dir| {
        PrefixesCompare(p, dir, q);
      } else {
        PrefixesCompare(dir, p, q);
      }
    }
  }

  /** `fs.existsSync(p)`. */
  predicate Exists(t: Tree, p: Path)
  {
    exists q :: q in t && IsPrefix(p, q)
  }

  /** `fs.remove(p)`: `p` and everything below it disappear, nothing else changes. */
  function Removed(t: Tree, p: Path): (r: Tree)
    ensures forall q :: q in r <==> q in t && !IsPrefix(p, q)
    ensures forall q :: q in r ==> r[q] == t[q]
    ensures !Exists(r, p)
    ensures SameOutside(t, r, p)
  {
    map q | q in t && !IsPrefix(p, q) :: t[q]
  }

  /** `fs.ensureDir(p)` on a path that is not a file: `p` becomes a directory. */
  function WithDir(t: Tree, p: Path): (r: Tree)
    ensures p in r && r.Keys == t.Keys + {p}
    ensures forall q :: q in t ==> r[q] == t[q]
    ensures SameOutside(t, r, p)
  {
    if p in t then t else t[p := Dir]
  }

  /** The entries below `src`, moved below `dst`. */
  function Relocated(t: Tree, src: Path, dst: Path): Tree
  {
    var targets := set q | q in t && IsPrefix(src, q) :: dst + q[|src|..];
    assert forall p :: p in targets ==> src + p[|dst|..] in t by {
      forall p | p in targets
        ensures src + p[|dst|..] in t
      {
        var q :| q in t && IsPrefix(src, q) && p == dst + q[|src|..];
        assert p[|dst|..] == q[|src|..];
        assert q == q[..|src|] + q[|src|..];
      }
    }
    map p | p in targets :: t[src + p[|dst|..]]
  }

  /** Every entry at `src + s` arrives at `dst + s`. */
  lemma RelocatedTo(t: Tree, src: Path, dst: Path, s: Path)
    requires src + s in t
    ensures dst + s in Relocated(t, src, dst)
    ensures Relocated(t, src, dst)[dst + s] == t[src + s]
  {
    var q := src + s;
    assert IsPrefix(src, q) && q[|src|..] == s;
    assert (dst + s)[|dst|..] == s;
  }

  /** Every relocated entry lies below `dst` and comes from the same place below `src`. */
  lemma RelocatedFrom(t: Tree, src: Path, dst: Path, p: Path)
    requires p in Relocated(t, src, dst)
    ensures IsPrefix(dst, p)
    ensures src + p[|dst|..] in t
    ensures Relocated(t, src, dst)[p] == t[src + p[|dst|..]]
  {
    var q :| q in t && IsPrefix(src, q) && p == dst + q[|src|..];
    assert p[..|dst|] == dst;
    assert p[|dst|..] == q[|src|..];
    assert q == q[..|src|] + q[|src|..];
  }

  /**
   * fs-extra refuses to copy a directory into itself or below itself, and to
   * copy a file over the directory `ensureDir` has just made.
   */
  predicate CopyFails(t: Tree, src: Path, dst: Path)
  {
    IsPrefix(src, dst) || (src in t && t[src].File?)
  }

  /** `fs.copy(src, dst)`: the tree below `src` is written below `dst`, overwriting. */
  function Copied(t: Tree, src: Path, dst: Path): (r: Tree)
    ensures SameOutside(t, r, dst)
  {
    CopiedOutside(t, src, dst);
    t + Relocated(t, src, dst)
  }

  lemma CopiedOutside(t: Tree, src: Path, dst: Path)
    ensures SameOutside(t, t + Relocated(t, src, dst), dst)
  {
    forall p | p in Relocated(t, src, dst)
      ensures IsPrefix(dst, p)
    {
      RelocatedFrom(t, src, dst, p);
    }
  }

  /** `fs.readJson(p)`: the parsed value, or None when reading or parsing throws. */
  function ReadJson(t: Tree, p: Path): Option<Json>
  {
    if p in t && t[p].File? && t[p].content.JsonText? then Some(t[p].content.value) else None
  }

  /** The file system the command works on, changed in place by each operation. */
  class FileSystem {
    var tree: Tree

    constructor (t: Tree)
      ensures tree == t
    {
      tree := t;
    }

    predicate PathExists(p: Path)
      reads this
    {
      Exists(tree, p)
    }

    method Remove(p: Path)
      modifies this
      ensures tree == Removed(old(tree), p)
      ensures !PathExists(p)
    {
      tree := Removed(tree, p);
    }

    method EnsureDir(p: Path)
      modifies this
      ensures tree == WithDir(old(tree), p)
      ensures PathExists(p)
    {
      tree := WithDir(tree, p);
      assert IsPrefix(p, p);
    }

    /** Returns false, changing nothing, when fs-extra would throw. */
    method Copy(src: Path, dst: Path) returns (ok: bool)
      modifies this
      ensures ok == !CopyFails(old(tree), src, dst)
      ensures tree == if ok then Copied(old(tree), src, dst) else old(tree)
    {
      ok := !CopyFails(tree, src, dst);
      if ok {
        tree := Copied(tree, src, dst);
      }
    }

    method WriteJson(p: Path, v: Json)
      modifies this
      ensures tree == old(tree)[p := File(JsonText(v))]
    {
      tree := tree[p := File(JsonText(v))];
    }
  }
}
