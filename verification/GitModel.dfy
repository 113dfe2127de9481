/**
 An abstract Git: trees as maps from paths to contents, commits named by what they hold, diffs
 that know the texts they replace, and a three-way merge by path.
 */
module GitModel {
  import opened Collections
  import opened Options

  type Tree = map<string, string>

  /** A commit is known by its tree and its parent, as its hash is. */
  datatype Commit = Root(tree: Tree) | Child(tree: Tree, parent: Commit)

  datatype Change = Change(before: Option<string>, after: Option<string>)

  type Patch = map<string, Change>

  /**
   What the model leaves open: merging two texts, applying a patch to other texts, whether the
   changed paths of a worktree and a source are plain text files, and whether a patch is small.
   */
  datatype Git = Git(
    blend: (Option<string>, string, string) -> Option<string>,
    fuzzy: (Patch, Tree) -> Option<Tree>,
    plain: (Tree, Tree, Tree) -> bool,
    small: Patch -> bool)

  function Depth(c: Commit): nat {
    match c
    case Root(_) => 0
    case Child(_, parent) => 1 + Depth(parent)
  }

  // ---------------------------------------------------------------- diff and apply

  function Diff(a: Tree, b: Tree): Patch {
    map p | p in a.Keys + b.Keys && Get(a, p) != Get(b, p) :: Change(Get(a, p), Get(b, p))
  }

  /** Equal trees have no diff, and no others. */
  lemma {:induction false} DiffIsEmpty(a: Tree, b: Tree)
    ensures Diff(a, b) == map[] <==> a == b
  {
    if Diff(a, b) == map[] {
      forall p ensures Get(a, p) == Get(b, p) { assert p !in Diff(a, b); }
      SameMap(a, b);
    }
  }

  /** The tree holds what the patch replaces. */
  predicate Applies(patch: Patch, t: Tree) { forall p | p in patch :: Get(t, p) == patch[p].before }

  function Patched(patch: Patch, t: Tree): Tree {
    map p | p in t.Keys + patch.Keys && (p in patch ==> patch[p].after.Some?)
      :: if p in patch then patch[p].after.value else t[p]
  }

  /** `git apply`: all or nothing; on other texts it may still find a place for the hunks. */
  function GitApply(g: Git, patch: Patch, t: Tree): Option<Tree> {
    if Applies(patch, t) then Some(Patched(patch, t)) else g.fuzzy(patch, t)
  }

  function Reversed(patch: Patch): Patch { map p | p in patch :: Change(patch[p].after, patch[p].before) }

  /** A diff applied to its first tree gives its second, and reversed it gives the first back. */
  lemma {:induction false} ApplyInvertsDiff(g: Git, a: Tree, b: Tree)
    ensures GitApply(g, Diff(a, b), a) == Some(b)
    ensures GitApply(g, Reversed(Diff(a, b)), b) == Some(a)
  {
    forall p ensures Get(Patched(Diff(a, b), a), p) == Get(b, p) { }
    SameMap(Patched(Diff(a, b), a), b);
    forall p ensures Get(Patched(Reversed(Diff(a, b)), b), p) == Get(a, p) { }
    SameMap(Patched(Reversed(Diff(a, b)), b), a);
  }

  /** A patch that applies exactly to a tree changes it only where it says. */
  lemma {:induction false} AppliedElsewhere(g: Git, a: Tree, b: Tree, t: Tree)
    requires Applies(Diff(a, b), t)
    ensures GitApply(g, Diff(a, b), t).Some?
    ensures GitApply(g, Diff(a, b), t) == Some(b) <==> t == a
  {
    var r := Patched(Diff(a, b), t);
    if r == b {
      forall p ensures Get(t, p) == Get(a, p) {
        assert Get(r, p) == Get(b, p);
        if p !in Diff(a, b) { assert Get(r, p) == Get(t, p); }
      }
      SameMap(t, a);
    }
    if t == a { ApplyInvertsDiff(g, a, b); }
  }

  // ---------------------------------------------------------------- merge

  datatype Merged = Clean(tree: Tree) | Conflict

  /** One path of the merge; `None` is a conflict. */
  function MergePath(g: Git, base: Option<string>, ours: Option<string>, theirs: Option<string>): Option<Option<string>> {
    if ours == theirs then Some(ours)
    else if ours == base then Some(theirs)
    else if theirs == base then Some(ours)
    else if ours.Some? && theirs.Some? then
      var text := g.blend(base, ours.value, theirs.value);
      if text.Some? then Some(text) else None
    else None
  }

  function MergeTrees(g: Git, base: Tree, ours: Tree, theirs: Tree): Merged {
    var paths := base.Keys + ours.Keys + theirs.Keys;
    if exists p | p in paths :: MergePath(g, Get(base, p), Get(ours, p), Get(theirs, p)).None? then Conflict
    else Clean(map p | p in paths && MergePath(g, Get(base, p), Get(ours, p), Get(theirs, p)).value.Some?
                 :: MergePath(g, Get(base, p), Get(ours, p), Get(theirs, p)).value.value)
  }

  lemma {:induction false} MergedAt(g: Git, base: Tree, ours: Tree, theirs: Tree, p: string)
    requires MergeTrees(g, base, ours, theirs).Clean?
    ensures MergePath(g, Get(base, p), Get(ours, p), Get(theirs, p)) == Some(Get(MergeTrees(g, base, ours, theirs).tree, p))
  {
    if p in base.Keys + ours.Keys + theirs.Keys {
      assert MergePath(g, Get(base, p), Get(ours, p), Get(theirs, p)).Some?;
    }
  }

  /** Both sides changed the path differently, and no text comes of it: one side removed it, or the texts do not blend. */
  ghost predicate Clash(g: Git, base: Tree, ours: Tree, theirs: Tree, p: string) {
    var b, o, t := Get(base, p), Get(ours, p), Get(theirs, p);
    && o != t && o != b && t != b
    && (o.None? || t.None? || g.blend(b, o.value, t.value).None?)
  }

  /** At one path: a side that did not change it yields to the other, equal changes stand, different texts are blended. */
  ghost predicate CombinesAt(g: Git, base: Tree, ours: Tree, theirs: Tree, merged: Tree, p: string) {
    var b, o, t, m := Get(base, p), Get(ours, p), Get(theirs, p), Get(merged, p);
    && (o == b ==> m == t)
    && (t == b ==> m == o)
    && (o == t ==> m == o)
    && (o != b && t != b && o != t ==> o.Some? && t.Some? && m.Some? && m == g.blend(b, o.value, t.value))
  }

  ghost predicate Combines(g: Git, base: Tree, ours: Tree, theirs: Tree, merged: Tree) {
    forall p :: CombinesAt(g, base, ours, theirs, merged, p)
  }

  ghost predicate Clashes(g: Git, base: Tree, ours: Tree, theirs: Tree) { exists p :: Clash(g, base, ours, theirs, p) }

  /** A merge is clean exactly when no path clashes, and then every path combines the two sides. */
  lemma {:induction false} MergeCombines(g: Git, base: Tree, ours: Tree, theirs: Tree)
    ensures MergeTrees(g, base, ours, theirs).Conflict? <==> Clashes(g, base, ours, theirs)
    ensures MergeTrees(g, base, ours, theirs).Clean? ==> Combines(g, base, ours, theirs, MergeTrees(g, base, ours, theirs).tree)
  {
    var m := MergeTrees(g, base, ours, theirs);
    forall p ensures Clash(g, base, ours, theirs, p) <==> MergePath(g, Get(base, p), Get(ours, p), Get(theirs, p)).None? { }
    if m.Conflict? {
      var p :| p in base.Keys + ours.Keys + theirs.Keys && MergePath(g, Get(base, p), Get(ours, p), Get(theirs, p)).None?;
      assert Clash(g, base, ours, theirs, p);
    } else {
      forall p ensures CombinesAt(g, base, ours, theirs, m.tree, p) && !Clash(g, base, ours, theirs, p) {
        MergedAt(g, base, ours, theirs, p);
      }
    }
  }

  /** The patch to deliver touches only paths that the candidate changed. */
  lemma {:induction false} DeliversOnlyOurChanges(g: Git, base: Tree, ours: Tree, theirs: Tree, p: string)
    requires MergeTrees(g, base, ours, theirs).Clean? && p in Diff(theirs, MergeTrees(g, base, ours, theirs).tree)
    ensures Get(ours, p) != Get(base, p)
  {
    MergedAt(g, base, ours, theirs, p);
  }

  /** When the source did not move, the merge is the candidate itself. */
  lemma {:induction false} UnmovedSourceTakesOurs(g: Git, base: Tree, ours: Tree)
    ensures MergeTrees(g, base, ours, base) == Clean(ours)
  {
    var m := MergeTrees(g, base, ours, base);
    assert m.Clean?;
    forall p ensures Get(m.tree, p) == Get(ours, p) { MergedAt(g, base, ours, base, p); }
    SameMap(m.tree, ours);
  }

  /** A file that the candidate added is in every clean merge. */
  lemma {:induction false} AddedFilesSurvive(g: Git, base: Tree, ours: Tree, theirs: Tree, p: string)
    requires MergeTrees(g, base, ours, theirs).Clean? && p in ours && p !in base
    ensures p in MergeTrees(g, base, ours, theirs).tree
  {
    MergedAt(g, base, ours, theirs, p);
    assert Get(MergeTrees(g, base, ours, theirs).tree, p).Some?;
  }

  // ---------------------------------------------------------------- a worktree

  /** `git reset --hard c` from the commit `head`: tracked files follow, untracked ones stay. */
  function ResetHard(head: Commit, c: Commit, work: Tree): Tree {
    map p | p in work.Keys + c.tree.Keys && (p in c.tree || p !in head.tree)
      :: if p in c.tree then c.tree[p] else work[p]
  }

  /** `git clean -fdx`: what the commit does not track goes. */
  function Cleaned(head: Commit, work: Tree): Tree { map p | p in work && p in head.tree :: work[p] }

  /** What a hard reset and a clean do to one path. */
  lemma {:induction false} ResetAt(head: Commit, c: Commit, work: Tree, p: string)
    ensures Get(ResetHard(head, c, work), p) ==
            if p in c.tree then Some(c.tree[p]) else if p in head.tree then None else Get(work, p)
    ensures Get(Cleaned(c, work), p) == if p in c.tree then Get(work, p) else None
  {
  }

  /** Resetting to a clean merge of the worktree's own tree leaves exactly the merge. */
  lemma {:induction false} ResetToMerge(g: Git, head: Commit, c: Commit, work: Tree, theirs: Tree)
    requires MergeTrees(g, head.tree, work, theirs) == Clean(c.tree)
    ensures ResetHard(head, c, work) == c.tree
  {
    forall p ensures Get(ResetHard(head, c, work), p) == Get(c.tree, p) {
      if p in work && p !in head.tree { AddedFilesSurvive(g, head.tree, work, theirs, p); }
    }
    SameMap(ResetHard(head, c, work), c.tree);
  }

  lemma {:induction false} ResetAndClean(head: Commit, c: Commit, work: Tree)
    ensures Cleaned(c, ResetHard(head, c, work)) == c.tree
  {
    forall p ensures Get(Cleaned(c, ResetHard(head, c, work)), p) == Get(c.tree, p) { }
    SameMap(Cleaned(c, ResetHard(head, c, work)), c.tree);
  }
}
