/**
 Workspace-relative POSIX paths: the text form that callers send and the component form
 that the file system is indexed by.
 */
module Paths {
  import opened Options

  /** The components of a relative path. */
  type Path = seq<string>

  function Split(s: string): (r: Path)
    ensures r != []
  {
    if s == "" then [""]
    else
      var front, c := Split(s[..|s| - 1]), s[|s| - 1];
      if c == '/' then front + [""] else front[|front| - 1 := front[|front| - 1] + [c]]
  }

  function Join(p: Path): string
    requires p != []
  {
    if |p| == 1 then p[0] else Join(p[..|p| - 1]) + "/" + p[|p| - 1]
  }

  lemma {:induction false} JoinSplit(s: string)
    ensures Join(Split(s)) == s
  {
    if s != "" {
      var front, c := Split(s[..|s| - 1]), s[|s| - 1];
      JoinSplit(s[..|s| - 1]);
      assert s == s[..|s| - 1] + [c];
      if c == '/' {
        assert Split(s)[..|front|] == front;
      } else if |front| > 1 {
        assert Split(s)[..|front| - 1] == front[..|front| - 1];
      }
    }
  }

  /** Components without separators are read back from the text that joins them. */
  lemma {:induction false} SplitJoin(p: Path)
    requires p != [] && forall i | 0 <= i < |p| :: '/' !in p[i]
    ensures Split(Join(p)) == p
  {
    var front, last := p[..|p| - 1], p[|p| - 1];
    if front == [] {
      SplitAppend("", last);
      assert Split("") == [""] && "" + last == last && p == [last];
    } else {
      SplitJoin(front);
      var s := Join(front) + "/";
      assert s[..|s| - 1] == Join(front);
      assert Split(s) == front + [""];
      SplitAppend(s, last);
      assert (front + [""])[..|front|] == front;
      assert "" + last == last;
    }
  }

  /** Text without a separator goes on in the last component. */
  lemma {:induction false} SplitAppend(s: string, t: string)
    requires '/' !in t
    ensures Split(s + t) == Split(s)[..|Split(s)| - 1] + [Split(s)[|Split(s)| - 1] + t]
  {
    if t == "" {
      assert s + t == s && Split(s)[|Split(s)| - 1] + t == Split(s)[|Split(s)| - 1];
    } else {
      var front, c := t[..|t| - 1], t[|t| - 1];
      SplitAppend(s, front);
      assert (s + t)[..|s + t| - 1] == s + front && c in t;
      assert front + [c] == t;
      var x := Split(s)[|Split(s)| - 1];
      assert x + front + [c] == x + t;
    }
  }

  /** No component of a split text holds a separator. */
  lemma {:induction false} NoSeparator(s: string)
    ensures forall i | 0 <= i < |Split(s)| :: '/' !in Split(s)[i]
  {
    if s != "" {
      NoSeparator(s[..|s| - 1]);
      var p, q, n := Split(s[..|s| - 1]), Split(s), |Split(s[..|s| - 1])| - 1;
      forall i | 0 <= i < |q| ensures '/' !in q[i] {
        if i < n { assert q[i] == p[i]; } else if i == n { assert '/' !in p[n]; }
      }
    }
  }

  predicate Holds(p: Path, c: char) { exists i | 0 <= i < |p| :: c in p[i] }

  /** Every other character of the text is in a component. */
  lemma {:induction false} SplitCharacters(s: string, c: char)
    requires c != '/'
    ensures c in s <==> Holds(Split(s), c)
  {
    if s != "" {
      hide Split, Holds;
      var front, d := s[..|s| - 1], s[|s| - 1];
      SplitCharacters(front, c);
      LastCharacter(s, c);
      assert c in s <==> c in front || c == d;
    } else {
      assert Split(s) == [""];
    }
  }

  lemma {:induction false} LastCharacter(s: string, c: char)
    requires s != "" && c != '/'
    ensures Holds(Split(s), c) <==> Holds(Split(s[..|s| - 1]), c) || c == s[|s| - 1]
  {
    var p, q, d := Split(s[..|s| - 1]), Split(s), s[|s| - 1];
    var n := |p| - 1;
    assert forall i | 0 <= i < n :: q[i] == p[i];
    assert d == '/' ==> q[n] == p[n] && |q| == n + 2 && q[n + 1] == "";
    assert d != '/' ==> q[n] == p[n] + [d] && |q| == n + 1;
    assert c in p[n] + [d] <==> c in p[n] || c == d;
    if i :| 0 <= i < |p| && c in p[i] { assert c in q[i]; }
    if c == d { assert c in q[n]; }
  }

  /** Two texts name the same components only if they are the same text. */
  lemma {:induction false} SplitIsInjective(a: string, b: string)
    requires Split(a) == Split(b)
    ensures a == b
  {
    JoinSplit(a);
    JoinSplit(b);
  }

  /** The first `k` components. */
  function Ancestor(p: Path, k: nat): Path
    requires k <= |p|
  {
    p[..k]
  }

  predicate IsAncestor(a: Path, p: Path) { |a| < |p| && p[..|a|] == a }

  /** Whether `p` is `root` or lies below it. */
  predicate Below(p: Path, root: Path) { root <= p }

  /** Every path once, and each after its parents. */
  ghost predicate InDepthOrder(dirs: seq<Path>, all: set<Path>) {
    && (forall p :: p in dirs <==> p in all)
    && (forall i, j | 0 <= i < j < |dirs| :: dirs[i] != dirs[j] && |dirs[i]| <= |dirs[j]|)
  }

  lemma {:induction false} SomeShallowest(s: set<Path>) returns (best: Path)
    requires s != {}
    ensures best in s && forall q | q in s :: |best| <= |q|
    decreases s
  {
    best :| best in s;
    var x, rest := best, s - {best};
    assert forall q | q in s :: q == x || q in rest;
    if rest != {} {
      var other := SomeShallowest(rest);
      if |other| < |x| { best := other; }
    }
  }

  /** Sorting by the number of components: outer paths first. */
  method ByDepth(required: set<Path>) returns (dirs: seq<Path>)
    ensures InDepthOrder(dirs, required)
  {
    dirs := [];
    var left := required;
    while left != {}
      invariant left <= required
      invariant InDepthOrder(dirs, required - left)
      invariant forall p, q | p in dirs && q in left :: |p| <= |q|
      decreases |left|
    {
      ghost var best := SomeShallowest(left);
      var p :| p in left && forall q | q in left :: |p| <= |q|;
      dirs := dirs + [p];
      left := left - {p};
    }
  }
}
