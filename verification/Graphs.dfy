/**
 Directed graphs given by their successor sets: chains, cycles, and the length
 of the longest chain from a node.
 */
module Graphs {

  type Graph = map<string, set<string>>

  predicate Edge(g: Graph, a: string, b: string)
  {
    a in g && b in g[a]
  }

  /** A chain of edges. */
  ghost predicate Path(g: Graph, p: seq<string>)
  {
    p != [] && forall i :: 0 <= i < |p| - 1 ==> Edge(g, p[i], p[i + 1])
  }

  ghost predicate PathBetween(g: Graph, a: string, b: string, p: seq<string>)
  {
    Path(g, p) && p[0] == a && p[|p| - 1] == b
  }

  ghost predicate Reachable(g: Graph, targets: set<string>, b: string)
  {
    exists a, p :: a in targets && PathBetween(g, a, b, p)
  }

  ghost predicate OnCycle(g: Graph, a: string)
  {
    exists p :: |p| >= 2 && PathBetween(g, a, a, p)
  }

  ghost predicate PathOfLength(g: Graph, a: string, n: nat, p: seq<string>)
  {
    Path(g, p) && p[0] == a && |p| == n + 1
  }

  ghost predicate HasPath(g: Graph, a: string, n: nat)
  {
    exists p :: PathOfLength(g, a, n, p)
  }

  /** The longest chain from `a` has exactly `n` edges. */
  ghost predicate LongestPath(g: Graph, a: string, n: nat)
  {
    HasPath(g, a, n) && forall m: nat :: HasPath(g, a, m) ==> m <= n
  }

  ghost predicate Closed(g: Graph, S: set<string>)
  {
    forall a, b :: a in S && Edge(g, a, b) ==> b in S
  }

  lemma Join(g: Graph, p: seq<string>, q: seq<string>)
    requires Path(g, p) && Path(g, q) && p[|p| - 1] == q[0]
    ensures Path(g, p[..|p| - 1] + q)
  {
    var r := p[..|p| - 1] + q;
    forall i | 0 <= i < |r| - 1 ensures Edge(g, r[i], r[i + 1]) {
      if i < |p| - 1 {
        assert Edge(g, p[i], p[i + 1]);
      } else {
        var k := i - (|p| - 1);
        assert Edge(g, q[k], q[k + 1]);
      }
    }
  }

  lemma Piece(g: Graph, p: seq<string>, i: nat, j: nat)
    requires Path(g, p) && i < j <= |p|
    ensures Path(g, p[i..j])
  {
    var c := p[i..j];
    forall k | 0 <= k < |c| - 1 ensures Edge(g, c[k], c[k + 1]) {
      assert Edge(g, p[i + k], p[i + k + 1]);
    }
  }

  lemma TargetReachable(g: Graph, targets: set<string>, a: string)
    requires a in targets
    ensures Reachable(g, targets, a)
  {
    assert PathBetween(g, a, a, [a]);
  }

  lemma ReachableStep(g: Graph, targets: set<string>, b: string, c: string)
    requires Reachable(g, targets, b) && Edge(g, b, c)
    ensures Reachable(g, targets, c)
  {
    var a, p :| a in targets && PathBetween(g, a, b, p);
    var e := [b, c];
    assert Path(g, e);
    Join(g, p, e);
    assert PathBetween(g, a, c, p[..|p| - 1] + e);
  }

  lemma {:induction false} PathStays(g: Graph, S: set<string>, p: seq<string>)
    requires Closed(g, S) && Path(g, p) && p[0] in S
    ensures p[|p| - 1] in S
  {
    if |p| > 1 {
      Piece(g, p, 0, |p| - 1);
      PathStays(g, S, p[..|p| - 1]);
      assert Edge(g, p[|p| - 2], p[|p| - 2 + 1]);
    }
  }

  /** What is reachable lies in every closed set that holds the targets: it is the least one. */
  lemma ReachableIsLeast(g: Graph, targets: set<string>, S: set<string>)
    requires targets <= S && Closed(g, S)
    ensures forall b :: Reachable(g, targets, b) ==> b in S
  {
    forall b | Reachable(g, targets, b) ensures b in S {
      var a, p :| a in targets && PathBetween(g, a, b, p);
      PathStays(g, S, p);
    }
  }

  lemma HasPathCons(g: Graph, a: string, b: string, n: nat)
    requires Edge(g, a, b) && HasPath(g, b, n)
    ensures HasPath(g, a, n + 1)
  {
    var p :| PathOfLength(g, b, n, p);
    assert Path(g, [a, b]);
    Join(g, [a, b], p);
    assert [a, b][..1] == [a];
    assert PathOfLength(g, a, n + 1, [a] + p);
  }

  lemma HasPathTail(g: Graph, a: string, n: nat) returns (b: string)
    requires HasPath(g, a, n + 1)
    ensures Edge(g, a, b) && HasPath(g, b, n)
  {
    var p :| PathOfLength(g, a, n + 1, p);
    Piece(g, p, 1, |p|);
    b := p[1];
    assert Edge(g, p[0], p[0 + 1]);
    assert PathOfLength(g, b, n, p[1..]);
  }

  /** A node whose chains are bounded is on no cycle: a cycle could be walked once more. */
  lemma LevelledIsAcyclic(g: Graph, a: string, n: nat)
    requires LongestPath(g, a, n)
    ensures !OnCycle(g, a)
  {
    if OnCycle(g, a) {
      var c :| |c| >= 2 && PathBetween(g, a, a, c);
      var q :| PathOfLength(g, a, n, q);
      Join(g, c, q);
      var r := c[..|c| - 1] + q;
      PathMeasured(g, a, r);
      assert false;
    }
  }

  lemma PathMeasured(g: Graph, a: string, p: seq<string>)
    requires Path(g, p) && p[0] == a
    ensures HasPath(g, a, |p| - 1)
  {
    assert PathOfLength(g, a, |p| - 1, p);
  }

  /** The level of a node whose successors all lie below level `n` and which starts a chain of `n` edges. */
  lemma LevelFromSuccessors(g: Graph, a: string, n: nat)
    requires HasPath(g, a, n)
    requires forall b :: Edge(g, a, b) ==> exists m: nat :: m < n && LongestPath(g, b, m)
    ensures LongestPath(g, a, n)
  {
    forall k: nat | HasPath(g, a, k) ensures k <= n {
      if k > 0 {
        var b := HasPathTail(g, a, k - 1);
        var m: nat :| m < n && LongestPath(g, b, m);
        assert k - 1 <= m;
      }
    }
  }

  lemma LongestPathUnique(g: Graph, a: string, m: nat, n: nat)
    requires LongestPath(g, a, m) && LongestPath(g, a, n)
    ensures m == n
  {
  }

  // A non-empty set in which every node has a successor contains a cycle.

  ghost predicate SuccessorIn(g: Graph, S: set<string>, a: string)
  {
    exists b :: b in S && Edge(g, a, b)
  }

  ghost predicate NoExit(g: Graph, S: set<string>)
  {
    forall a {:trigger SuccessorIn(g, S, a)} :: a in S ==> SuccessorIn(g, S, a)
  }

  lemma {:induction false} LongWalk(g: Graph, S: set<string>, a: string, n: nat) returns (p: seq<string>)
    requires a in S && NoExit(g, S)
    ensures PathOfLength(g, a, n, p) && forall x :: x in p ==> x in S
    decreases n
  {
    if n == 0 {
      p := [a];
    } else {
      assert SuccessorIn(g, S, a);
      var b :| b in S && Edge(g, a, b);
      var q := LongWalk(g, S, b, n - 1);
      assert Path(g, [a, b]);
      Join(g, [a, b], q);
      assert [a, b][..1] == [a];
      p := [a] + q;
    }
  }

  lemma {:induction false} NoRepeatFits(p: seq<string>, S: set<string>)
    requires forall x :: x in p ==> x in S
    requires forall i, j :: 0 <= i < j < |p| ==> p[i] != p[j]
    ensures |p| <= |S|
  {
    if p != [] {
      var last := p[|p| - 1];
      assert last in p;
      forall x | x in p[..|p| - 1] ensures x in S - {last} {
        var i :| 0 <= i < |p| - 1 && p[i] == x;
      }
      NoRepeatFits(p[..|p| - 1], S - {last});
    }
  }

  lemma Repeats(p: seq<string>, S: set<string>) returns (i: nat, j: nat)
    requires (forall x :: x in p ==> x in S) && |p| > |S|
    ensures i < j < |p| && p[i] == p[j]
  {
    if forall i, j :: 0 <= i < j < |p| ==> p[i] != p[j] {
      NoRepeatFits(p, S);
      assert false;
    }
    i, j :| 0 <= i < j < |p| && p[i] == p[j];
  }

  lemma CycleExists(g: Graph, S: set<string>) returns (a: string)
    requires S != {} && NoExit(g, S)
    ensures a in S && OnCycle(g, a)
  {
    var start :| start in S;
    var p := LongWalk(g, S, start, |S|);
    var i, j := Repeats(p, S);
    Piece(g, p, i, j + 1);
    a := p[i];
    assert p[i] in p;
    assert PathBetween(g, a, a, p[i..j + 1]);
  }
}
