/** Depth-first search for import cycles, with the sets of nodes being visited and already visited. */
module CycleFinder {

  /** The keys in insertion order and their dependencies; a dependency need not be a key. */
  datatype Graph<N> = Graph(keys: seq<N>, edges: map<N, seq<N>>)

  function Dependencies<N(==)>(g: Graph<N>, n: N): seq<N> {
    if n in g.keys && n in g.edges then g.edges[n] else []
  }

  /** `b` is listed as a dependency of the key `a`. */
  predicate Edge<N(==)>(g: Graph<N>, a: N, b: N) {
    a in g.keys && a in g.edges && b in g.edges[a]
  }

  ghost predicate Path<N>(g: Graph<N>, walk: seq<N>) {
    forall i :: 0 <= i < |walk| - 1 ==> Edge(g, walk[i], walk[i + 1])
  }

  /** A walk along real edges that ends where it began. */
  ghost predicate ClosedWalk<N>(g: Graph<N>, walk: seq<N>) {
    |walk| >= 2 && walk[0] == walk[|walk| - 1] && Path(g, walk)
  }

  ghost predicate Distinct<N>(s: seq<N>) {
    forall i, j :: 0 <= i < j < |s| ==> s[i] != s[j]
  }

  /** A closed walk that passes no node twice. */
  ghost predicate SimpleCycle<N>(g: Graph<N>, walk: seq<N>) {
    ClosedWalk(g, walk) && Distinct(walk[..|walk| - 1])
  }

  ghost predicate Cyclic<N(!new)>(g: Graph<N>) {
    exists walk :: ClosedWalk(g, walk)
  }

  function Elements<N(==)>(s: seq<N>): set<N> {
    set x | x in s
  }

  /** Everything the search can come across. */
  ghost function Nodes<N>(g: Graph<N>): (nodes: set<N>)
    ensures Elements(g.keys) <= nodes && Closed(g, nodes)
  {
    Elements(g.keys) + set n, d | n in g.keys && d in Dependencies(g, n) :: d
  }

  ghost predicate Closed<N>(g: Graph<N>, nodes: set<N>) {
    forall n, d :: n in nodes && d in Dependencies(g, n) ==> d in nodes
  }

  function IndexOf<N(==)>(s: seq<N>, x: N): (i: nat)
    requires x in s
    ensures i < |s| && s[i] == x
    ensures forall k :: 0 <= k < i ==> s[k] != x
  {
    if s[0] == x then 0 else 1 + IndexOf(s[1..], x)
  }

  /** Only keys have dependencies, so every closed walk stays among the keys. */
  lemma ClosedWalksStayOnKeys<N>(g: Graph<N>, walk: seq<N>)
    requires ClosedWalk(g, walk)
    ensures forall i :: 0 <= i < |walk| ==> walk[i] in g.keys
  {
    forall i | 0 <= i < |walk| - 1
      ensures walk[i] in g.keys
    {
      assert Edge(g, walk[i], walk[i + 1]);
    }
  }

  // ----- What the search keeps -----

  /** Some reported cycle ends with the edge from `a` to `b`. */
  ghost predicate Closes<N>(cycles: seq<seq<N>>, a: N, b: N) {
    exists i :: 0 <= i < |cycles| && |cycles[i]| >= 2 && cycles[i][|cycles[i]| - 2..] == [a, b]
  }

  /** Every finished node comes after each of its dependencies, or a reported cycle ends with that edge. */
  ghost predicate DependenciesFirst<N>(g: Graph<N>, finished: seq<N>, cycles: seq<seq<N>>) {
    forall i, d :: 0 <= i < |finished| && d in Dependencies(g, finished[i]) ==>
      d in finished[..i] || Closes(cycles, finished[i], d)
  }

  /** No edge of the walk ends a reported cycle. */
  ghost predicate Overlooked<N>(cycles: seq<seq<N>>, walk: seq<N>) {
    forall k :: 0 <= k < |walk| - 1 ==> !Closes(cycles, walk[k], walk[k + 1])
  }

  lemma ClosesAppends<N>(cycles: seq<seq<N>>, more: seq<seq<N>>, a: N, b: N)
    requires Closes(cycles, a, b) && cycles <= more
    ensures Closes(more, a, b)
  {
    var i :| 0 <= i < |cycles| && |cycles[i]| >= 2 && cycles[i][|cycles[i]| - 2..] == [a, b];
    assert more[i] == cycles[i];
  }

  lemma ReportsKeepOrder<N>(g: Graph<N>, finished: seq<N>, cycles: seq<seq<N>>, more: seq<seq<N>>)
    requires DependenciesFirst(g, finished, cycles) && cycles <= more
    ensures DependenciesFirst(g, finished, more)
  {
    forall i, d | 0 <= i < |finished| && d in Dependencies(g, finished[i]) && d !in finished[..i]
      ensures Closes(more, finished[i], d)
    {
      ClosesAppends(cycles, more, finished[i], d);
    }
  }

  ghost predicate AllSimpleCycles<N>(g: Graph<N>, cycles: seq<seq<N>>) {
    forall c :: c in cycles ==> SimpleCycle(g, c)
  }

  /** The back edge from the top of the stack closes a simple cycle. */
  lemma BackEdgeClosesCycle<N>(g: Graph<N>, stack: seq<N>, file: N)
    requires Path(g, stack + [file]) && Distinct(stack) && file in stack
    ensures SimpleCycle(g, stack[IndexOf(stack, file)..] + [file])
  {
    var at := IndexOf(stack, file);
    var walk := stack[at..] + [file];
    assert walk == (stack + [file])[at..];
    assert walk[..|walk| - 1] == stack[at..];
  }

  /** In such an order the position drops by at least one along every edge of an overlooked walk. */
  lemma {:induction false} PositionDrops<N>(g: Graph<N>, finished: seq<N>, cycles: seq<seq<N>>, walk: seq<N>, k: nat)
    requires DependenciesFirst(g, finished, cycles) && Overlooked(cycles, walk)
    requires Path(g, walk) && k < |walk| && walk[0] in finished
    ensures walk[k] in finished && (k > 0 ==> IndexOf(finished, walk[k]) < IndexOf(finished, walk[0]))
  {
    if k > 0 {
      PositionDrops(g, finished, cycles, walk, k - 1);
      var at := IndexOf(finished, walk[k - 1]);
      assert Edge(g, finished[at], walk[k - 1 + 1]);
      assert walk[k] in finished[..at];
      var j :| 0 <= j < at && finished[j] == walk[k];
    }
  }

  /** If every key is finished in such an order, every closed walk has an edge that ends a reported cycle. */
  lemma EveryClosedWalkIsReported<N(!new)>(g: Graph<N>, finished: seq<N>, cycles: seq<seq<N>>)
    requires DependenciesFirst(g, finished, cycles) && Elements(g.keys) <= Elements(finished)
    ensures forall walk :: ClosedWalk(g, walk) ==> !Overlooked(cycles, walk)
  {
    forall walk | ClosedWalk(g, walk) && Overlooked(cycles, walk)
      ensures false
    {
      assert Edge(g, walk[0], walk[0 + 1]);
      assert walk[0] in Elements(g.keys);
      PositionDrops(g, finished, cycles, walk, |walk| - 1);
    }
  }

  lemma PathExtends<N>(g: Graph<N>, walk: seq<N>, next: N)
    requires walk != [] && Path(g, walk) && next in Dependencies(g, walk[|walk| - 1])
    ensures Path(g, walk + [next])
  {
  }

  lemma FinishedExtends<N>(g: Graph<N>, finished: seq<N>, cycles: seq<seq<N>>, file: N)
    requires DependenciesFirst(g, finished, cycles)
    requires forall d :: d in Dependencies(g, file) ==> d in finished || Closes(cycles, file, d)
    ensures DependenciesFirst(g, finished + [file], cycles)
  {
    var finished' := finished + [file];
    forall i, d | 0 <= i < |finished'| && d in Dependencies(g, finished'[i])
      ensures d in finished'[..i] || Closes(cycles, finished'[i], d)
    {
      assert finished'[..i] == finished[..i];
      assert finished[..|finished|] == finished;
    }
  }

  lemma ElementsAppend<N>(s: seq<N>, x: N)
    ensures Elements(s + [x]) == Elements(s) + {x}
    ensures Distinct(s) && x !in s ==> Distinct(s + [x])
  {
  }

  /** The nodes being visited are exactly those on the stack, and no node was entered twice. */
  ghost predicate Tracking<N>(stack: seq<N>, visiting: set<N>, visited: set<N>, expanded: seq<N>, finished: seq<N>) {
    && visiting == Elements(stack) && Distinct(stack)
    && visiting !! visited
    && Elements(expanded) == visiting + visited && Distinct(expanded)
    && Elements(finished) == visited
  }

  lemma EnterTracks<N>(stack: seq<N>, visiting: set<N>, visited: set<N>, expanded: seq<N>, finished: seq<N>, file: N)
    requires Tracking(stack, visiting, visited, expanded, finished)
    requires file !in visiting && file !in visited
    ensures Tracking(stack + [file], visiting + {file}, visited, expanded + [file], finished)
  {
    ElementsAppend(stack, file);
    ElementsAppend(expanded, file);
  }

  lemma LeaveTracks<N>(stack: seq<N>, visiting: set<N>, visited: set<N>, expanded: seq<N>, finished: seq<N>, file: N)
    requires Distinct(stack) && file !in stack
    requires Tracking(stack + [file], visiting, visited, expanded, finished)
    ensures Tracking(stack, visiting - {file}, visited + {file}, expanded, finished + [file])
  {
    ElementsAppend(stack, file);
    ElementsAppend(finished, file);
  }

  // ----- The search -----

  class Finder<N(==, !new)> {
    const g: Graph<N>
    var visiting: set<N>
    var visited: set<N>
    var cycles: seq<seq<N>>
    ghost var expanded: seq<N>
    ghost var finished: seq<N>
    ghost var unseen: set<N>

    constructor (g: Graph<N>)
      ensures this.g == g && unseen == Nodes(g) && visiting == {} && visited == {} && cycles == []
      ensures expanded == [] && finished == []
    {
      this.g := g;
      unseen := Nodes(g);
      visiting, visited, cycles := {}, {}, [];
      expanded, finished := [], [];
    }

    ghost predicate Tracks(stack: seq<N>)
      reads this
    {
      Tracking(stack, visiting, visited, expanded, finished)
    }

    ghost predicate Correct()
      reads this
    {
      AllSimpleCycles(g, cycles) && DependenciesFirst(g, finished, cycles)
    }

    /** Every node is unseen, being visited or visited; `unseen` only shrinks. */
    ghost predicate Covers(nodes: set<N>)
      reads this
    {
      Closed(g, nodes) && nodes == unseen + visiting + visited
    }

    /** Every dependency of `file` has been visited, or a reported cycle ends with the edge to it. */
    ghost predicate Followed(file: N)
      reads this
    {
      forall d :: d in Dependencies(g, file) ==> d in visited || Closes(cycles, file, d)
    }

    method Enter(file: N, stack: seq<N>, ghost nodes: set<N>)
      requires Tracks(stack) && file !in visiting && file !in visited && file in nodes && Covers(nodes)
      modifies this`visiting, this`expanded, this`unseen
      ensures Tracks(stack + [file]) && Covers(nodes) && unseen == old(unseen) - {file} && file in old(unseen)
    {
      EnterTracks(stack, visiting, visited, expanded, finished, file);
      visiting := visiting + {file};
      expanded := expanded + [file];
      unseen := unseen - {file};
    }

    method Leave(file: N, stack: seq<N>, ghost nodes: set<N>)
      requires Tracks(stack + [file]) && Correct() && Covers(nodes)
      requires Followed(file)
      modifies this`visiting, this`visited, this`finished
      ensures Tracks(stack) && Correct() && Covers(nodes) && visited == old(visited) + {file}
    {
      assert (stack + [file])[|stack|] == file;
      assert forall i :: 0 <= i < |stack| ==> (stack + [file])[i] == stack[i];
      LeaveTracks(stack, visiting, visited, expanded, finished, file);
      FinishedExtends(g, finished, cycles, file);
      visiting := visiting - {file};
      visited := visited + {file};
      finished := finished + [file];
    }

    method Report(file: N, stack: seq<N>)
      requires Correct() && Path(g, stack + [file]) && Distinct(stack) && file in stack
      modifies this`cycles
      ensures Correct() && cycles == old(cycles) + [stack[IndexOf(stack, file)..] + [file]]
      ensures Closes(cycles, stack[|stack| - 1], file)
    {
      BackEdgeClosesCycle(g, stack, file);
      ReportsKeepOrder(g, finished, cycles, cycles + [stack[IndexOf(stack, file)..] + [file]]);
      cycles := cycles + [stack[IndexOf(stack, file)..] + [file]];
      assert cycles[|cycles| - 1] == stack[IndexOf(stack, file)..] + [file];
    }

    method VisitDependencies(file: N, path: seq<N>, ghost nodes: set<N>)
      requires Tracks(path) && Correct() && Covers(nodes)
      requires Path(g, path) && path != [] && path[|path| - 1] == file && file in nodes
      modifies this
      ensures Tracks(path) && Correct() && Covers(nodes)
      ensures unseen <= old(unseen) && old(visited) <= visited && old(cycles) <= cycles
      ensures Followed(file)
      decreases unseen, 1
    {
      var dependencies := Dependencies(g, file);
      var i := 0;
      while i < |dependencies|
        invariant 0 <= i <= |dependencies|
        invariant Tracks(path) && Correct() && Covers(nodes)
        invariant unseen <= old(unseen) && old(visited) <= visited && old(cycles) <= cycles
        invariant forall k :: 0 <= k < i ==> dependencies[k] in visited || Closes(cycles, file, dependencies[k])
      {
        PathExtends(g, path, dependencies[i]);
        ghost var before := cycles;
        Visit(dependencies[i], path, nodes);
        forall k | 0 <= k < i && Closes(before, file, dependencies[k])
          ensures Closes(cycles, file, dependencies[k])
        {
          ClosesAppends(before, cycles, file, dependencies[k]);
        }
        i := i + 1;
      }
    }

    method Visit(file: N, stack: seq<N>, ghost nodes: set<N>)
      requires Tracks(stack) && Correct() && Covers(nodes)
      requires Path(g, stack + [file]) && file in nodes
      modifies this
      ensures Tracks(stack) && Correct() && Covers(nodes)
      ensures unseen <= old(unseen) && old(visited) <= visited && old(cycles) <= cycles
      ensures file in visited || (stack != [] && Closes(cycles, stack[|stack| - 1], file))
      decreases unseen, 0
    {
      if file in visiting {
        Report(file, stack);
        return;
      }
      if file in visited {
        return;
      }
      Enter(file, stack, nodes);
      VisitDependencies(file, stack + [file], nodes);
      Leave(file, stack, nodes);
    }
  }

  /**
   Every reported list is a closed walk with distinct interior nodes; every closed walk of the graph has an
   edge that ends a reported one, so no cycle would survive if those edges were removed; and the list is
   empty exactly when the graph has no closed walk.
   */
  method VisitCycles<N(==, !new)>(g: Graph<N>) returns (cycles: seq<seq<N>>)
    ensures AllSimpleCycles(g, cycles)
    ensures forall walk :: ClosedWalk(g, walk) ==> exists k :: 0 <= k < |walk| - 1 && Closes(cycles, walk[k], walk[k + 1])
    ensures cycles == [] <==> !Cyclic(g)
  {
    var finder := new Finder(g);
    ghost var nodes := Nodes(g);
    var i := 0;
    while i < |g.keys|
      invariant 0 <= i <= |g.keys|
      invariant finder.Tracks([]) && finder.Correct() && finder.Covers(nodes)
      invariant forall k :: 0 <= k < i ==> g.keys[k] in finder.visited
    {
      finder.Visit(g.keys[i], [], nodes);
      i := i + 1;
    }
    cycles := finder.cycles;
    EveryClosedWalkIsReported(g, finder.finished, cycles);
    assert cycles != [] ==> cycles[0] in cycles;
  }
}
