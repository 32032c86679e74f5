/** The two worklist searches over possibly cyclic graphs: supertypes of a Java type, and the memory
    of a process tree. */
module Worklists {
  import opened Sequences

  // ------------------------------------------------------- reachability

  ghost predicate IsPath<T(!new)>(succ: T -> seq<T>, path: seq<T>)
  {
    path != [] && forall i :: 0 <= i < |path| - 1 ==> path[i + 1] in succ(path[i])
  }

  /** b can be reached from a over at least `edges` edges. */
  ghost predicate Reaches<T(!new)>(succ: T -> seq<T>, a: T, b: T, edges: nat)
  {
    exists path :: IsPath(succ, path) && |path| > edges && path[0] == a && path[|path| - 1] == b
  }

  lemma ReachesNow<T(!new)>(succ: T -> seq<T>, a: T)
    ensures Reaches(succ, a, a, 0)
  {
    assert IsPath(succ, [a]) && [a][|[a]| - 1] == a;
  }

  lemma ReachesFurther<T(!new)>(succ: T -> seq<T>, a: T, b: T, c: T)
    requires Reaches(succ, a, b, 0) && c in succ(b)
    ensures Reaches(succ, a, c, 0) && Reaches(succ, a, c, 1)
  {
    var path :| IsPath(succ, path) && |path| > 0 && path[0] == a && path[|path| - 1] == b;
    var longer := path + [c];
    assert IsPath(succ, longer) && longer[0] == a && longer[|longer| - 1] == c;
  }

  /** A set that contains everything one step from its members, and from a, contains everything
      reachable from a. */
  lemma {:induction false} ClosedContainsPath<T(!new)>(succ: T -> seq<T>, path: seq<T>, closed: set<T>)
    requires IsPath(succ, path)
    requires forall x :: x in succ(path[0]) ==> x in closed
    requires forall x, y :: x in closed && y in succ(x) ==> y in closed
    ensures forall i :: 1 <= i < |path| ==> path[i] in closed
  {
    if |path| > 1 {
      var n := |path| - 1;
      assert forall i :: 0 <= i < n ==> path[..n][i] == path[i];
      assert IsPath(succ, path[..n]);
      ClosedContainsPath(succ, path[..n], closed);
      assert path[n - 1 + 1] in succ(path[n - 1]);
    }
  }

  // ---------------------------------------------------- Java supertypes

  /** Declared types with the supertypes they name. */
  type TypeGraph = map<string, seq<string>>

  function Supers(graph: TypeGraph): string -> seq<string>
  {
    (t: string) => if t in graph then graph[t] else []
  }

  function Named(graph: TypeGraph): set<string>
  {
    set t, s | t in graph && s in graph[t] :: s
  }

  /** Everything on the stack was discovered, and everything discovered but no longer on the stack has
      had all its supertypes discovered. */
  ghost predicate Searching(graph: TypeGraph, t: string, seen: set<string>, stack: seq<string>)
  {
    && seen <= Named(graph)
    && (forall s :: s in seen ==> Reaches(Supers(graph), t, s, 1))
    && (forall x :: x in stack ==> x == t || x in seen)
    && (forall x, s :: (x == t || x in seen) && x !in stack && s in Supers(graph)(x) ==> s in seen)
  }

  /** Marks the supertypes not seen before and pushes each of them once. */
  method Discover(supers: seq<string>, seen: set<string>, stack: seq<string>)
    returns (seen': set<string>, stack': seq<string>)
    ensures seen' == seen + set s | s in supers
    ensures forall x :: x in stack' <==> x in stack || (x in seen' && x !in seen)
    ensures seen' == seen ==> stack' == stack
  {
    seen', stack' := seen, stack;
    for i := 0 to |supers|
      invariant seen' == seen + set s | s in supers[..i]
      invariant forall x :: x in stack' <==> x in stack || (x in seen' && x !in seen)
      invariant seen' == seen ==> stack' == stack
    {
      assert supers[..i + 1] == supers[..i] + [supers[i]];
      if supers[i] !in seen' {
        seen' := seen' + {supers[i]};
        stack' := stack' + [supers[i]];
      }
    }
    assert supers[..|supers|] == supers;
  }

  lemma ReachesWeaker<T(!new)>(succ: T -> seq<T>, a: T, b: T)
    requires Reaches(succ, a, b, 1)
    ensures Reaches(succ, a, b, 0)
  {
    var path :| IsPath(succ, path) && |path| > 1 && path[0] == a && path[|path| - 1] == b;
  }

  lemma SearchStep(graph: TypeGraph, t: string, seen: set<string>, below: seq<string>, node: string,
                   seen': set<string>, stack': seq<string>)
    requires Searching(graph, t, seen, below + [node])
    requires seen' == seen + set s | s in Supers(graph)(node)
    requires forall x :: x in stack' <==> x in below || (x in seen' && x !in seen)
    ensures Searching(graph, t, seen', stack')
  {
    var succ := Supers(graph);
    assert node in below + [node];
    assert Reaches(succ, t, node, 0) by {
      ReachesNow(succ, t);
      if node in seen {
        ReachesWeaker(succ, t, node);
      }
    }
    forall s | s in succ(node) ensures Reaches(succ, t, s, 1) && s in Named(graph) {
      ReachesFurther(succ, t, node, s);
      assert node in graph && s in graph[node];
    }
    forall x, s | (x == t || x in seen') && x !in stack' && s in succ(x) ensures s in seen' {
      if x != node {
        assert x !in below + [node];
      }
    }
  }

  lemma SearchDone(graph: TypeGraph, t: string, seen: set<string>)
    requires Searching(graph, t, seen, [])
    ensures forall s :: s in seen <==> Reaches(Supers(graph), t, s, 1)
  {
    var succ := Supers(graph);
    forall s | Reaches(succ, t, s, 1) ensures s in seen {
      var path :| IsPath(succ, path) && |path| > 1 && path[0] == t && path[|path| - 1] == s;
      ClosedContainsPath(succ, path, seen);
    }
  }

  /** The types reached from t over one or more edges, and only those; t itself exactly when it lies
      on a cycle. */
  method JavaAncestors(t: string, graph: TypeGraph) returns (seen: set<string>)
    ensures forall s :: s in seen <==> Reaches(Supers(graph), t, s, 1)
  {
    seen := {};
    var stack := [t];
    while stack != []
      invariant Searching(graph, t, seen, stack)
      decreases Named(graph) - seen, |stack|
    {
      var below, node := stack[..|stack| - 1], stack[|stack| - 1];
      assert stack == below + [node];
      var seen', stack' := Discover(Supers(graph)(node), seen, below);
      SearchStep(graph, t, seen, below, node, seen', stack');
      seen, stack := seen', stack';
    }
    SearchDone(graph, t, seen);
  }

  /** A receiver type is acceptable when it is the owner, one of the owner's repository subtypes, or a
      repository-declared supertype of the owner. */
  method JavaReceiverRelated(t: string, owner: string, graph: TypeGraph) returns (related: bool)
    ensures related <==> t == owner || Reaches(Supers(graph), t, owner, 1)
                         || (t in graph && Reaches(Supers(graph), owner, t, 1))
  {
    if t == owner {
      return true;
    }
    var ancestors := JavaAncestors(t, graph);
    if owner in ancestors {
      return true;
    }
    var above := JavaAncestors(owner, graph);
    related := t in graph && t in above;
  }

  // -------------------------------------------------------- process tree

  datatype Process = Process(pid: int, ppid: int, rss: int)

  /** The lines of the process listing; None is a line that does not parse. */
  type Listing = seq<Option<Process>>

  function Children(ps: Listing): map<int, seq<int>>
  {
    if ps == [] then map[]
    else
      var before, last := Children(ps[..|ps| - 1]), ps[|ps| - 1];
      if last.None? then before
      else
        var p := last.value;
        before[p.ppid := (if p.ppid in before then before[p.ppid] else []) + [p.pid]]
  }

  function RssByPid(ps: Listing): map<int, int>
  {
    if ps == [] then map[]
    else
      var before, last := RssByPid(ps[..|ps| - 1]), ps[|ps| - 1];
      if last.None? then before else before[last.value.pid := last.value.rss]
  }

  function ChildrenOf(children: map<int, seq<int>>): int -> seq<int>
  {
    (pid: int) => if pid in children then children[pid] else []
  }

  function RssOf(rss: map<int, int>): int -> int
  {
    (pid: int) => if pid in rss then rss[pid] else 0
  }

  /** The child lists say exactly who names whom as parent. */
  lemma {:induction false} ChildrenAreListed(ps: Listing, parent: int, child: int)
    ensures child in ChildrenOf(Children(ps))(parent)
       <==> exists i :: 0 <= i < |ps| && ps[i].Some? && ps[i].value.pid == child && ps[i].value.ppid == parent
  {
    if ps != [] {
      var n := |ps| - 1;
      ChildrenAreListed(ps[..n], parent, child);
      if i :| 0 <= i < n && ps[..n][i].Some? && ps[..n][i].value.pid == child && ps[..n][i].value.ppid == parent {
        assert ps[i] == ps[..n][i];
      }
      if i :| 0 <= i < n && ps[i].Some? && ps[i].value.pid == child && ps[i].value.ppid == parent {
        assert ps[i] == ps[..n][i];
      }
    }
  }

  method ReadListing(ps: Listing) returns (children: map<int, seq<int>>, rss: map<int, int>)
    ensures children == Children(ps) && rss == RssByPid(ps)
  {
    children, rss := map[], map[];
    for i := 0 to |ps|
      invariant children == Children(ps[..i]) && rss == RssByPid(ps[..i])
    {
      assert ps[..i + 1][..i] == ps[..i];
      if ps[i].Some? {
        var p := ps[i].value;
        children := children[p.ppid := (if p.ppid in children then children[p.ppid] else []) + [p.pid]];
        rss := rss[p.pid := p.rss];
      }
    }
    assert ps[..|ps|] == ps;
  }

  function Listed(children: map<int, seq<int>>, root: int): set<int>
  {
    {root} + set p, c | p in children && c in children[p] :: c
  }

  /** `visited` lists every process reachable from the root exactly once. */
  ghost predicate Covers(children: map<int, seq<int>>, root: int, visited: seq<int>)
  {
    && Distinct(visited)
    && forall pid :: pid in visited <==> Reaches(ChildrenOf(children), root, pid, 0)
  }

  ghost predicate Walking(children: map<int, seq<int>>, root: int, visited: seq<int>, seen: set<int>, stack: seq<int>)
  {
    && Distinct(visited) && (forall pid :: pid in visited <==> pid in seen)
    && seen <= Listed(children, root)
    && (forall pid :: pid in seen || pid in stack ==> Reaches(ChildrenOf(children), root, pid, 0))
    && (root in seen || root in stack)
    && (forall x, c :: x in seen && c in ChildrenOf(children)(x) ==> c in seen || c in stack)
  }

  lemma WalkSkips(children: map<int, seq<int>>, root: int, visited: seq<int>, seen: set<int>, rest: seq<int>, pid: int)
    requires Walking(children, root, visited, seen, rest + [pid]) && pid in seen
    ensures Walking(children, root, visited, seen, rest)
  {}

  lemma WalkStep(children: map<int, seq<int>>, root: int, visited: seq<int>, seen: set<int>, rest: seq<int>, pid: int)
    requires Walking(children, root, visited, seen, rest + [pid]) && pid !in seen
    ensures Walking(children, root, visited + [pid], seen + {pid}, rest + ChildrenOf(children)(pid))
  {
    var succ := ChildrenOf(children);
    assert pid in rest + [pid];
    ReachedIsListed(children, root, pid);
    forall c | c in succ(pid) ensures Reaches(succ, root, c, 0) {
      ReachesFurther(succ, root, pid, c);
    }
  }

  lemma ReachedIsListed(children: map<int, seq<int>>, root: int, pid: int)
    requires Reaches(ChildrenOf(children), root, pid, 0)
    ensures pid in Listed(children, root)
  {
    var succ := ChildrenOf(children);
    var path :| IsPath(succ, path) && |path| > 0 && path[0] == root && path[|path| - 1] == pid;
    if |path| > 1 {
      var parent := path[|path| - 2];
      assert path[|path| - 2 + 1] in succ(parent);
      assert parent in children && pid in children[parent];
    }
  }

  lemma WalkDone(children: map<int, seq<int>>, root: int, visited: seq<int>, seen: set<int>)
    requires Walking(children, root, visited, seen, [])
    ensures Covers(children, root, visited)
  {
    var succ := ChildrenOf(children);
    forall x: int, c: int | x in seen && c in succ(x) ensures c in seen {
      var none: seq<int> := [];
      assert c in seen || c in none;
    }
    forall pid | Reaches(succ, root, pid, 0) ensures pid in visited {
      var path :| IsPath(succ, path) && |path| > 0 && path[0] == root && path[|path| - 1] == pid;
      ClosedContainsPath(succ, path, seen);
    }
  }

  /** The resident memory of everything below the root, each process counted once however often it is
      listed or reached; 0 when the listing command cannot run. */
  method RssKbTree(root: int, listing: Option<Listing>) returns (total: int)
    ensures listing.None? ==> total == 0
    ensures listing.Some? ==> var ps := listing.value;
      exists visited :: Covers(Children(ps), root, visited) && total == Sum(visited, RssOf(RssByPid(ps)))
  {
    if listing.None? {
      return 0;
    }
    var children, rss := ReadListing(listing.value);
    ghost var visited: seq<int> := [];
    var seen: set<int> := {};
    var stack := [root];
    total := 0;
    ReachesNow(ChildrenOf(children), root);
    while stack != []
      invariant Walking(children, root, visited, seen, stack)
      invariant total == Sum(visited, RssOf(rss))
      decreases Listed(children, root) - seen, |stack|
    {
      var pid := stack[|stack| - 1];
      assert stack == stack[..|stack| - 1] + [pid];
      stack := stack[..|stack| - 1];
      if pid in seen {
        WalkSkips(children, root, visited, seen, stack, pid);
        continue;
      }
      WalkStep(children, root, visited, seen, stack, pid);
      seen := seen + {pid};
      SumAppend(visited, pid, RssOf(rss));
      visited := visited + [pid];
      total := total + RssOf(rss)(pid);
      stack := stack + (if pid in children then children[pid] else []);
    }
    WalkDone(children, root, visited, seen);
  }

  /** Any two such listings have the same sum, so the total is well defined. */
  lemma TotalUnique(children: map<int, seq<int>>, root: int, a: seq<int>, b: seq<int>, rss: map<int, int>)
    requires Covers(children, root, a) && Covers(children, root, b)
    ensures Sum(a, RssOf(rss)) == Sum(b, RssOf(rss))
  {
    DistinctCounts(a);
    DistinctCounts(b);
    forall x: int ensures multiset(a)[x] == multiset(b)[x] {
      assert x in a <==> x in b;
      assert (x in multiset(a) <==> x in a) && (x in multiset(b) <==> x in b);
    }
    SumPermutation(a, b, RssOf(rss));
  }
}
