/** Paths, reachability and cycles in a finite directed graph given by its successor lists. */
module Graph {
  type Graph = map<string, seq<string>>

  function Succ(g: Graph, a: string): seq<string> { if a in g then g[a] else [] }

  ghost predicate IsPath(g: Graph, p: seq<string>, a: string, b: string) {
    && |p| > 0 && p[0] == a && p[|p| - 1] == b
    && (forall i :: 0 <= i < |p| - 1 ==> p[i + 1] in Succ(g, p[i]))
  }

  /** There is a path, possibly of no steps. */
  ghost predicate Reach(g: Graph, a: string, b: string) {
    exists p :: IsPath(g, p, a, b)
  }

  /** There is a path of at least one step. */
  ghost predicate Proper(g: Graph, a: string, b: string) {
    exists c <- Succ(g, a) :: Reach(g, c, b)
  }

  /** Nothing that `a` reaches lies on a cycle. */
  ghost predicate Acyclic(g: Graph, a: string) {
    forall x :: Reach(g, a, x) ==> !Proper(g, x, x)
  }

  lemma ReachSelf(g: Graph, a: string)
    ensures Reach(g, a, a)
  {
    assert IsPath(g, [a], a, a);
  }

  lemma ReachJoin(g: Graph, a: string, b: string, c: string)
    requires Reach(g, a, b) && Reach(g, b, c)
    ensures Reach(g, a, c)
  {
    var p :| IsPath(g, p, a, b);
    var q :| IsPath(g, q, b, c);
    var r := p + q[1..];
    forall i | 0 <= i < |r| - 1 ensures r[i + 1] in Succ(g, r[i]) {
      if i >= |p| - 1 { assert r[i] == q[i - |p| + 1] && r[i + 1] == q[i - |p| + 2]; }
    }
    assert IsPath(g, r, a, c);
  }

  lemma ReachEdge(g: Graph, a: string, b: string)
    requires b in Succ(g, a)
    ensures Reach(g, a, b)
  {
    assert IsPath(g, [a, b], a, b);
  }

  lemma ReachSplit(g: Graph, a: string, b: string)
    ensures Reach(g, a, b) <==> a == b || Proper(g, a, b)
  {
    ReachSelf(g, a);
    if Proper(g, a, b) {
      var c :| c in Succ(g, a) && Reach(g, c, b);
      ReachEdge(g, a, c);
      ReachJoin(g, a, c, b);
    }
    if Reach(g, a, b) && a != b {
      var p :| IsPath(g, p, a, b);
      assert IsPath(g, p[1..], p[1], b);
    }
  }

  lemma ProperJoin(g: Graph, a: string, b: string, c: string)
    requires Reach(g, a, b) && Reach(g, b, c) && (Proper(g, a, b) || Proper(g, b, c))
    ensures Proper(g, a, c)
  {
    if Proper(g, a, b) {
      var x :| x in Succ(g, a) && Reach(g, x, b);
      ReachJoin(g, x, b, c);
    } else {
      ReachSplit(g, a, b);
    }
  }

  /** A set closed under successors holds everything its members reach. */
  lemma ClosedReach(g: Graph, s: set<string>, a: string, b: string)
    requires forall x <- s :: forall y <- Succ(g, x) :: y in s
    requires a in s && Reach(g, a, b)
    ensures b in s
  {
    var p :| IsPath(g, p, a, b);
    ClosedPath(g, s, p);
  }

  lemma {:induction false} ClosedPath(g: Graph, s: set<string>, p: seq<string>)
    requires forall x <- s :: forall y <- Succ(g, x) :: y in s
    requires |p| > 0 && p[0] in s && forall i :: 0 <= i < |p| - 1 ==> p[i + 1] in Succ(g, p[i])
    ensures p[|p| - 1] in s
    decreases |p|
  {
    if |p| > 1 { ClosedPath(g, s, p[1..]); }
  }

  lemma LastStep(g: Graph, a: string, b: string) returns (x: string)
    requires Proper(g, a, b)
    ensures Reach(g, a, x) && b in Succ(g, x)
  {
    var c :| c in Succ(g, a) && Reach(g, c, b);
    var p :| IsPath(g, p, c, b);
    var q := [a] + p;
    x := q[|q| - 2];
    assert IsPath(g, q[..|q| - 1], a, x);
  }

  /** Among finitely many nodes none of which reaches a cycle, some node leads to none of them. */
  lemma {:induction false} SomethingLast(g: Graph, s: set<string>) returns (m: string)
    requires s != {} && forall x <- s :: Acyclic(g, x)
    ensures m in s && forall y <- Succ(g, m) :: y !in s
    decreases |s|
  {
    var x :| x in s;
    var below := set y | y in s && Proper(g, x, y);
    ReachSelf(g, x);
    assert x !in below;
    if below == {} {
      m := x;
      forall y | y in Succ(g, m) ensures y !in s {
        ReachSelf(g, y);
        assert Proper(g, x, y) && y !in below;
      }
    } else {
      assert below <= s - {x};
      assert |below| <= |s - {x}| by { Smaller(below, s - {x}); }
      m := SomethingLast(g, below);
      forall y | y in Succ(g, m) ensures y !in s {
        ReachSplit(g, x, m);
        ReachEdge(g, m, y);
        ProperJoin(g, x, m, y);
      }
    }
  }

  lemma {:induction false} Smaller(s: set<string>, t: set<string>)
    requires s <= t
    ensures |s| <= |t|
    decreases s
  {
    if s != {} {
      var x :| x in s;
      Smaller(s - {x}, t - {x});
    }
  }
}
