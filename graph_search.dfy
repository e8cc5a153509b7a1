/**
 * Breadth-first search over an import map (each node to the nodes it
 * imports). Every generation of the source delegates its transitive queries
 * to a breadth-first search library: reachability (`bfs_reach`), the
 * shortest path to a target (`bfs`) and the shortest cycle back to the start
 * (`bfs_loop`). This module gives one level-by-level search with its
 * specification: the nodes reached are exactly those at the end of an
 * import path from a start node, and a path returned has no more nodes
 * than any other path from a start node to a target. Which of several
 * equally short paths is returned is not specified.
 */
module GraphSearch {
  import opened Wrappers

  /** The nodes a node imports; a node without an entry imports nothing. */
  function Succs<T(!new)>(g: map<T, set<T>>, x: T): set<T>
  {
    if x in g then g[x] else {}
  }

  /** Every node imported by a node of `xs`. */
  function Next<T(!new)>(g: map<T, set<T>>, xs: set<T>): set<T>
  {
    set x, y | x in xs && x in g && y in g[x] :: y
  }

  /** Every node imported by some node. */
  function Targets<T(!new)>(g: map<T, set<T>>): set<T>
  {
    Next(g, g.Keys)
  }

  /** A non-empty sequence of nodes, each importing the next. */
  ghost predicate IsPath<T(!new)>(g: map<T, set<T>>, p: seq<T>)
    decreases |p|
  {
    |p| > 0 && (|p| == 1 || (IsPath(g, p[..|p| - 1]) && p[|p| - 1] in Succs(g, p[|p| - 2])))
  }

  /** The step-by-step reading of a path: each node imports the next. */
  lemma {:induction false} PathSteps<T(!new)>(g: map<T, set<T>>, p: seq<T>)
    requires |p| > 0
    ensures IsPath(g, p) <==> forall i :: 0 <= i < |p| - 1 ==> p[i + 1] in Succs(g, p[i])
    decreases |p|
  {
    if |p| > 1 {
      var q := p[..|p| - 1];
      PathSteps(g, q);
      assert forall i :: 0 <= i < |q| ==> q[i] == p[i];
    }
  }

  /** A sequence read backwards. */
  function Backwards<T>(p: seq<T>): (r: seq<T>)
    ensures |r| == |p| && forall i :: 0 <= i < |p| ==> r[i] == p[|p| - 1 - i]
  {
    seq(|p|, i requires 0 <= i < |p| => p[|p| - 1 - i])
  }

  /** A path that starts in `starts` and ends in `targets`. */
  ghost predicate Connects<T(!new)>(g: map<T, set<T>>, starts: set<T>, targets: set<T>, p: seq<T>)
  {
    IsPath(g, p) && p[0] in starts && p[|p| - 1] in targets
  }

  /** Some path leads from `starts` to `x`. */
  ghost predicate Reachable<T(!new)>(g: map<T, set<T>>, starts: set<T>, x: T)
  {
    exists p :: Connects(g, starts, {x}, p)
  }

  lemma NextOfUnion<T(!new)>(g: map<T, set<T>>, a: set<T>, b: set<T>)
    ensures Next(g, a + b) == Next(g, a) + Next(g, b)
  {
  }

  lemma InNext<T(!new)>(g: map<T, set<T>>, xs: set<T>, x: T, y: T)
    requires x in xs && y in Succs(g, x)
    ensures y in Next(g, xs)
  {
  }

  /** A path without its last node. */
  lemma Shorten<T(!new)>(g: map<T, set<T>>, q: seq<T>)
    requires IsPath(g, q) && |q| > 1
    ensures IsPath(g, q[..|q| - 1]) && q[..|q| - 1][0] == q[0]
    ensures q[|q| - 1] in Succs(g, q[..|q| - 1][|q| - 2])
  {
  }

  /** A path extended by one import. */
  lemma Extend<T(!new)>(g: map<T, set<T>>, starts: set<T>, p: seq<T>, v: T)
    requires IsPath(g, p) && p[0] in starts && v in Succs(g, p[|p| - 1])
    ensures Connects(g, starts, {v}, p + [v])
  {
    assert (p + [v])[..|p|] == p;
  }

  /** A set that holds the start nodes and everything its nodes import holds the end of every path from a start node. */
  lemma {:induction false} ClosedHoldsPaths<T(!new)>(g: map<T, set<T>>, starts: set<T>, closed: set<T>, q: seq<T>)
    requires starts <= closed && Next(g, closed) <= closed
    requires IsPath(g, q) && q[0] in starts
    ensures q[|q| - 1] in closed
    decreases |q|
  {
    if |q| > 1 {
      Shorten(g, q);
      ClosedHoldsPaths(g, starts, closed, q[..|q| - 1]);
    }
  }

  /**
   * What the search knows after `n` levels: every path of at most `n`
   * imports from a start node ends at a visited node, and the nodes visited
   * before the last level have all their imports visited.
   */
  ghost predicate Level<T(!new)>(g: map<T, set<T>>, starts: set<T>, n: nat, visited: set<T>, frontier: set<T>)
  {
    && starts <= visited
    && frontier <= visited
    && Next(g, visited - frontier) <= visited
    && (forall q :: IsPath(g, q) && q[0] in starts && |q| <= n + 1 ==> q[|q| - 1] in visited)
  }

  /** Every visited node has a recorded path of at most `n` imports from a start node to it. */
  ghost predicate PathsSound<T(!new)>(g: map<T, set<T>>, starts: set<T>, n: nat, visited: set<T>, paths: map<T, seq<T>>)
  {
    && (forall v :: v in visited ==> v in paths)
    && (forall v {:trigger paths[v]} :: v in visited && v in paths ==> Connects(g, starts, {v}, paths[v]) && |paths[v]| <= n + 1)
  }

  /** One level of the search: the new nodes, each with a path through a frontier node. */
  method Expand<T(!new)>(g: map<T, set<T>>, starts: set<T>, n: nat, visited: set<T>, frontier: set<T>, paths: map<T, seq<T>>)
    returns (newly: set<T>, paths': map<T, seq<T>>)
    requires Level(g, starts, n, visited, frontier)
    requires PathsSound(g, starts, n, visited, paths)
    ensures newly == Next(g, frontier) - visited
    ensures Level(g, starts, n + 1, visited + newly, newly)
    ensures PathsSound(g, starts, n + 1, visited + newly, paths')
  {
    newly := Next(g, frontier) - visited;
    paths' := ExtendPaths(g, starts, n, visited, frontier, paths, newly);
    ExpandLevel(g, starts, n, visited, frontier, newly);
  }

  /** A path for each new node: the path of a frontier node that imports it, extended by the new node. */
  method ExtendPaths<T(!new)>(g: map<T, set<T>>, starts: set<T>, n: nat, visited: set<T>, frontier: set<T>, paths: map<T, seq<T>>, newly: set<T>)
    returns (paths': map<T, seq<T>>)
    requires frontier <= visited
    requires PathsSound(g, starts, n, visited, paths)
    requires newly <= Next(g, frontier) && newly !! visited
    ensures PathsSound(g, starts, n + 1, visited + newly, paths')
  {
    paths' := paths;
    var todo := newly;
    while todo != {}
      invariant todo <= newly
      invariant forall v :: v in visited || (v in newly && v !in todo) ==> v in paths'
      invariant forall v {:trigger paths'[v]} :: v in visited && v in paths' ==> paths'[v] == paths[v]
      invariant forall v {:trigger paths'[v]} :: v in newly && v !in todo && v in paths' ==>
        Connects(g, starts, {v}, paths'[v]) && |paths'[v]| <= n + 2
      decreases |todo|
    {
      var v :| v in todo;
      var u :| u in frontier && v in Succs(g, u);
      Extend(g, starts, paths[u], v);
      paths' := paths'[v := paths[u] + [v]];
      todo := todo - {v};
    }
  }

  lemma ExpandLevel<T(!new)>(g: map<T, set<T>>, starts: set<T>, n: nat, visited: set<T>, frontier: set<T>, newly: set<T>)
    requires Level(g, starts, n, visited, frontier)
    requires newly == Next(g, frontier) - visited
    ensures Level(g, starts, n + 1, visited + newly, newly)
  {
    NextOfUnion(g, visited - frontier, frontier);
    assert visited == (visited - frontier) + frontier;
    assert (visited + newly) - newly == visited;
    forall q | IsPath(g, q) && q[0] in starts && |q| <= n + 2
      ensures q[|q| - 1] in visited + newly
    {
      if |q| == n + 2 {
        Shorten(g, q);
        var u := q[..|q| - 1][|q| - 2];
        if u in frontier {
          InNext(g, frontier, u, q[|q| - 1]);
        } else {
          InNext(g, visited - frontier, u, q[|q| - 1]);
        }
      }
    }
  }

  /** Every node with a path is reachable. */
  lemma PathsReachable<T(!new)>(g: map<T, set<T>>, starts: set<T>, n: nat, visited: set<T>, paths: map<T, seq<T>>)
    requires PathsSound(g, starts, n, visited, paths)
    ensures forall v {:trigger Reachable(g, starts, v)} :: v in visited ==> Reachable(g, starts, v)
  {
    forall v | v in visited
      ensures Reachable(g, starts, v)
    {
      assert Connects(g, starts, {v}, paths[v]);
    }
  }

  /** When no visited node is a target, no path of at most `n` imports reaches one. */
  lemma NoTargetYet<T(!new)>(g: map<T, set<T>>, starts: set<T>, targets: set<T>, n: nat, visited: set<T>, frontier: set<T>)
    requires Level(g, starts, n, visited, frontier)
    requires visited !! targets
    ensures forall q :: Connects(g, starts, targets, q) ==> |q| >= n + 2
  {
  }

  /** When a level adds nothing, every path from a start node stays among the visited nodes. */
  lemma ExhaustedIsComplete<T(!new)>(g: map<T, set<T>>, starts: set<T>, targets: set<T>, n: nat, visited: set<T>, frontier: set<T>)
    requires Level(g, starts, n, visited, frontier)
    requires Next(g, frontier) - visited == {}
    requires visited !! targets
    ensures forall q :: IsPath(g, q) && q[0] in starts ==> q[|q| - 1] !in targets && q[|q| - 1] in visited
  {
    forall y | y in Next(g, frontier)
      ensures y in visited
    {
      assert y !in Next(g, frontier) - visited;
    }
    assert Next(g, visited) <= visited by {
      NextOfUnion(g, visited - frontier, frontier);
      assert visited == (visited - frontier) + frontier;
    }
    forall q | IsPath(g, q) && q[0] in starts
      ensures q[|q| - 1] in visited && q[|q| - 1] !in targets
    {
      ClosedHoldsPaths(g, starts, visited, q);
    }
  }

  /**
   * The search from `starts` towards `targets`, level by level. The result
   * is a shortest path from a start node to a target, or nothing when no
   * path leads to a target; `visited` is every node the search reached.
   */
  method Search<T(!new)>(g: map<T, set<T>>, starts: set<T>, targets: set<T>) returns (r: Option<seq<T>>, visited: set<T>)
    ensures r.Some? ==> Connects(g, starts, targets, r.value)
    ensures r.Some? ==> forall q :: Connects(g, starts, targets, q) ==> |r.value| <= |q|
    ensures r.None? ==> forall q :: IsPath(g, q) && q[0] in starts ==> q[|q| - 1] !in targets && q[|q| - 1] in visited
    ensures forall v {:trigger Reachable(g, starts, v)} :: v in visited ==> Reachable(g, starts, v)
  {
    var n: nat := 0;
    visited := starts;
    var frontier := starts;
    var paths := StartPaths(g, starts);
    ghost var universe := starts + Targets(g);
    while true
      invariant Level(g, starts, n, visited, frontier)
      invariant PathsSound(g, starts, n, visited, paths)
      invariant visited <= universe
      invariant forall q :: Connects(g, starts, targets, q) ==> |q| >= n + 1
      decreases |universe - visited|
    {
      if t :| t in visited && t in targets {
        FoundIsShortest(g, starts, targets, n, visited, paths, t);
        PathsReachable(g, starts, n, visited, paths);
        r := Some(paths[t]);
        return;
      }
      NoTargetYet(g, starts, targets, n, visited, frontier);
      var newly, paths' := Expand(g, starts, n, visited, frontier, paths);
      if newly == {} {
        ExhaustedIsComplete(g, starts, targets, n, visited, frontier);
        PathsReachable(g, starts, n, visited, paths);
        r := None;
        return;
      }
      Shrinks(g, starts, visited, newly, frontier, universe);
      visited, frontier, paths, n := visited + newly, newly, paths', n + 1;
    }
  }

  /** Each start node as a path of its own. */
  method StartPaths<T(!new)>(g: map<T, set<T>>, starts: set<T>) returns (paths: map<T, seq<T>>)
    ensures Level(g, starts, 0, starts, starts)
    ensures PathsSound(g, starts, 0, starts, paths)
  {
    paths := map v | v in starts :: [v];
  }

  /** A visited target, when no path of fewer than `n` imports reaches a target, has a shortest path. */
  lemma FoundIsShortest<T(!new)>(g: map<T, set<T>>, starts: set<T>, targets: set<T>, n: nat, visited: set<T>, paths: map<T, seq<T>>, t: T)
    requires PathsSound(g, starts, n, visited, paths)
    requires forall q :: Connects(g, starts, targets, q) ==> |q| >= n + 1
    requires t in visited && t in targets
    ensures t in paths && Connects(g, starts, targets, paths[t])
    ensures forall q :: Connects(g, starts, targets, q) ==> |paths[t]| <= |q|
  {
    assert Connects(g, starts, {t}, paths[t]);
  }

  lemma Shrinks<T(!new)>(g: map<T, set<T>>, starts: set<T>, visited: set<T>, newly: set<T>, frontier: set<T>, universe: set<T>)
    requires universe == starts + Targets(g) && visited <= universe
    requires newly == Next(g, frontier) - visited && newly != {}
    ensures visited + newly <= universe
    ensures |universe - (visited + newly)| < |universe - visited|
  {
    assert Next(g, frontier) <= universe;
    assert universe - (visited + newly) < universe - visited;
  }

  /** `bfs_reach`: every node reachable from `starts`, the start nodes included. */
  method Reach<T(!new)>(g: map<T, set<T>>, starts: set<T>) returns (reached: set<T>)
    ensures forall x :: x in reached <==> Reachable(g, starts, x)
  {
    var r;
    r, reached := Search(g, starts, {});
    forall x | Reachable(g, starts, x)
      ensures x in reached
    {
      var p :| Connects(g, starts, {x}, p);
    }
  }

  /** `bfs` with a single target: a shortest path from `from` to `to`. */
  method ShortestPath<T(!new)>(g: map<T, set<T>>, from: T, to: T) returns (r: Option<seq<T>>)
    ensures r.Some? ==> Connects(g, {from}, {to}, r.value)
    ensures r.Some? ==> forall q :: Connects(g, {from}, {to}, q) ==> |r.value| <= |q|
    ensures r.None? ==> forall q :: !Connects(g, {from}, {to}, q)
  {
    var visited;
    r, visited := Search(g, {from}, {to});
  }

  /**
   * `bfs_loop`: a shortest cycle through `from`, as a path that starts and
   * ends at `from` and has at least one import.
   */
  method ShortestCycle<T(!new)>(g: map<T, set<T>>, from: T) returns (r: Option<seq<T>>)
    ensures r.Some? ==> |r.value| >= 2 && Connects(g, {from}, {from}, r.value)
    ensures r.Some? ==> forall q :: |q| >= 2 && Connects(g, {from}, {from}, q) ==> |r.value| <= |q|
    ensures r.None? ==> forall q :: |q| >= 2 ==> !Connects(g, {from}, {from}, q)
  {
    var rest, visited := Search(g, Succs(g, from), {from});
    if rest.Some? {
      r := Some([from] + rest.value);
      CycleFromRest(g, from, rest.value);
      forall q | |q| >= 2 && Connects(g, {from}, {from}, q)
        ensures |r.value| <= |q|
      {
        RestOfCycle(g, from, q);
      }
    } else {
      r := None;
      forall q | |q| >= 2
        ensures !Connects(g, {from}, {from}, q)
      {
        if Connects(g, {from}, {from}, q) {
          RestOfCycle(g, from, q);
        }
      }
    }
  }

  lemma CycleFromRest<T(!new)>(g: map<T, set<T>>, from: T, p: seq<T>)
    requires Connects(g, Succs(g, from), {from}, p)
    ensures Connects(g, {from}, {from}, [from] + p)
  {
    var q := [from] + p;
    PathSteps(g, p);
    PathSteps(g, q);
    forall i | 0 <= i < |q| - 1
      ensures q[i + 1] in Succs(g, q[i])
    {
      if i > 0 {
        assert q[i] == p[i - 1] && q[i + 1] == p[i];
      }
    }
  }

  lemma RestOfCycle<T(!new)>(g: map<T, set<T>>, from: T, q: seq<T>)
    requires |q| >= 2 && Connects(g, {from}, {from}, q)
    ensures Connects(g, Succs(g, from), {from}, q[1..])
  {
    var p := q[1..];
    PathSteps(g, q);
    PathSteps(g, p);
    assert q[1] in Succs(g, q[0]);
    forall i | 0 <= i < |p| - 1
      ensures p[i + 1] in Succs(g, p[i])
    {
      assert p[i] == q[i + 1] && p[i + 1] == q[i + 2];
    }
  }
}
