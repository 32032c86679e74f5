/** What the ground-truth pipeline knows of a repository: its paths, names and edges, and every test on
    the text of its files as a parameter. */
module Corpus {
  import opened Sequences
  import opened Strings

  const MIN_NAME_LEN: nat := 4

  datatype Kind = Calls | Usage | Imports

  /** A caller, with the lines it spans. */
  datatype Source = Source(name: string, file: string, line: nat, endLine: nat, labels: set<string>)

  /** A target definition. */
  datatype Key = Key(name: string, file: string, line: nat)

  datatype Edge = Edge(target: Key, targetEnd: nat, source: Source)

  /** A line on which a name occurs. */
  datatype Hit = Hit(file: string, line: nat)

  /** Tests of a line for a name: a call behind a dot, any call, and a call without receiver; an import
      clause; a use clause that is private or `pub`, one of restricted visibility like `pub(crate)` that
      names it behind a path, and a restricted one that names it bare, as in a list in braces; a
      reference behind `::` or behind a dot; and a line that defines the name. */
  datatype Shape =
    | DottedCall | BareCall | PlainCall
    | ImportClause | PlainUse | RestrictedPath | RestrictedBare
    | ColonRef | DotRef | Definition

  datatype Repo = Repo(
    // paths
    parts: string -> seq<string>, isAux: string -> bool, isPrimary: string -> bool, stem: string -> string,
    versioned: bool, versionKey: string -> (string, string),
    // names
    lower: string -> string, pathShaped: string -> bool, stdlib: set<string>, stoplist: set<string>,
    isIdentifier: string -> bool,
    // language
    python: bool, java: bool, hasPrivate: bool,
    // text
    isPrivate: (string, nat) -> bool, mentions: (string, string) -> bool,
    staticImport: (string, string) -> Option<string>,
    hits: string -> seq<Hit>, textualDefs: string -> nat,
    comment: Hit -> bool, shape: (Shape, string, Hit) -> bool, importish: Hit -> bool,
    fromModule: (string, Hit) -> Option<string>, moduleMatches: (string, string, string) -> bool,
    shadowed: (Key, Hit) -> bool, overridden: (string, nat) -> bool, badReceiver: (Key, string, Hit) -> bool,
    missed: (Key, bool, seq<Source>) -> nat)

  // ----------------------------------------------- directory and version

  /** The path up to and including its first auxiliary directory; the last part is the file. */
  function AuxRoot(r: Repo, parts: seq<string>): Option<seq<string>>
  {
    if |parts| <= 1 then None
    else if r.isAux(parts[0]) then Some([parts[0]])
    else
      var below := AuxRoot(r, parts[1..]);
      if below.None? then None else Some([parts[0]] + below.value)
  }

  predicate DirOk(r: Repo, file: string, callers: set<string>)
  {
    var root := AuxRoot(r, r.parts(file));
    if root.Some? then forall f :: f in callers ==> f == file || root.value < r.parts(f)
    else r.isPrimary(file)
  }

  predicate VersionViolation(r: Repo, file: string, caller: string)
  {
    var (major, sub) := r.versionKey(file);
    var (callerMajor, callerSub) := r.versionKey(caller);
    && r.versioned
    && (callerMajor != major || (major == "v4" && (sub == "classic" || sub == "mini") && callerSub != sub))
  }

  function Files(sources: seq<Source>): set<string>
  {
    set s | s in sources :: s.file
  }

  // -------------------------------------------------------- unique names

  function Occurrences(defs: seq<string>, name: string): nat
  {
    if defs == [] then 0
    else Occurrences(defs[..|defs| - 1], name) + if defs[|defs| - 1] == name then 1 else 0
  }

  predicate NameAllowed(r: Repo, classNames: set<string>, name: string)
  {
    && |name| >= MIN_NAME_LEN && r.lower(name) !in r.stoplist && r.lower(name) !in r.stdlib
    && !("__" <= name) && r.isIdentifier(name) && name !in classNames
  }

  method UniqueNames(r: Repo, defs: seq<string>, classNames: set<string>)
    returns (ok: set<string>, counts: map<string, nat>)
    ensures forall n :: n in ok <==> Occurrences(defs, n) == 1 && NameAllowed(r, classNames, n)
    ensures forall n :: Occurrences(defs, n) == if n in counts then counts[n] else 0
  {
    counts := map[];
    for i := 0 to |defs|
      invariant forall n :: Occurrences(defs[..i], n) == if n in counts then counts[n] else 0
    {
      assert defs[..i + 1][..i] == defs[..i];
      var n := defs[i];
      counts := counts[n := (if n in counts then counts[n] else 0) + 1];
    }
    assert defs[..|defs|] == defs;
    ok := set n | n in counts && counts[n] == 1 && NameAllowed(r, classNames, n);
  }

  // ------------------------------------------------------------- sources

  function Dedup(sources: seq<Source>): seq<Source>
  {
    if sources == [] then []
    else
      var front, last := Dedup(sources[..|sources| - 1]), sources[|sources| - 1];
      if exists s :: s in front && SameSource(s, last) then front else front + [last]
  }

  predicate SameSource(s: Source, t: Source)
  {
    s.name == t.name && s.file == t.file && s.line == t.line
  }

  /** Order by file, then line, then name. */
  predicate SourceLe(s: Source, t: Source)
  {
    if s.file != t.file then LexLe(s.file, t.file)
    else if s.line != t.line then s.line < t.line
    else LexLe(s.name, t.name)
  }

  lemma SourceLeIsOrder()
    ensures TotalPreorder(SourceLe)
  {
    LexIsTotalOrder();
  }

  function DedupSources(sources: seq<Source>): seq<Source>
  {
    Sort(Dedup(sources), SourceLe)
  }

  lemma {:induction false} DedupFiles(sources: seq<Source>)
    ensures Files(Dedup(sources)) == Files(sources)
  {
    if sources != [] {
      var n := |sources| - 1;
      DedupFiles(sources[..n]);
      assert sources == sources[..n] + [sources[n]];
      var front, last := Dedup(sources[..n]), sources[n];
      assert Files(sources) == Files(sources[..n]) + {last.file};
      if s :| s in front && SameSource(s, last) {
        assert last.file in Files(front);
      } else {
        assert Files(front + [last]) == Files(front) + {last.file};
      }
    }
  }

  /** Deduplication and sorting keep the set of caller files. */
  lemma DedupSourcesFiles(sources: seq<Source>)
    ensures Files(DedupSources(sources)) == Files(sources)
  {
    DedupFiles(sources);
    SourceLeIsOrder();
    SortSorts(Dedup(sources), SourceLe);
    forall s ensures s in DedupSources(sources) <==> s in Dedup(sources) {
      assert s in multiset(DedupSources(sources)) <==> s in multiset(Dedup(sources));
    }
  }

  predicate IsPseudo(s: Source) { "File" in s.labels || "Module" in s.labels }

  // --------------------------------------------------------------- edges

  /** Edges are told apart by target and by the source's name, file and line. */
  predicate SameEdge(e: Edge, f: Edge)
  {
    e.target == f.target && SameSource(e.source, f.source)
  }

  predicate Occurs(edges: seq<Edge>, e: Edge)
  {
    exists f :: f in edges && SameEdge(f, e)
  }

  ghost predicate Apart(edges: seq<Edge>)
  {
    forall i, j :: 0 <= i < j < |edges| ==> !SameEdge(edges[i], edges[j])
  }

  lemma ApartAppend(edges: seq<Edge>, last: Edge)
    requires Apart(edges) && !Occurs(edges, last)
    ensures Apart(edges + [last])
  {
    forall i | 0 <= i < |edges| ensures !SameEdge(edges[i], last) {
      assert edges[i] in edges;
    }
  }

  /** The first of each kind of equal edges. */
  function DistinctEdges(edges: seq<Edge>): seq<Edge>
  {
    if edges == [] then []
    else
      var front, last := DistinctEdges(edges[..|edges| - 1]), edges[|edges| - 1];
      if Occurs(front, last) then front else front + [last]
  }

  lemma {:induction false} DistinctEdgesHold(edges: seq<Edge>)
    ensures forall e :: e in DistinctEdges(edges) ==> e in edges
    ensures forall e :: Occurs(DistinctEdges(edges), e) <==> Occurs(edges, e)
    ensures Apart(DistinctEdges(edges))
  {
    if edges != [] {
      var n := |edges| - 1;
      DistinctEdgesHold(edges[..n]);
      var front, last := DistinctEdges(edges[..n]), edges[n];
      assert edges == edges[..n] + [last];
      if !Occurs(front, last) {
        ApartAppend(front, last);
      }
      forall e ensures Occurs(DistinctEdges(edges), e) <==> Occurs(edges, e) {
        OccursAppend(edges[..n], last, e);
        OccursAppend(front, last, e);
        if Occurs(front, last) && SameEdge(last, e) {
          var f :| f in front && SameEdge(f, last);
          assert SameEdge(f, e);
        }
      }
    }
  }

  lemma OccursAppend(edges: seq<Edge>, last: Edge, e: Edge)
    ensures Occurs(edges + [last], e) <==> Occurs(edges, e) || SameEdge(last, e)
  {
    assert last in edges + [last];
    if Occurs(edges, e) {
      var f :| f in edges && SameEdge(f, e);
      assert f in edges + [last];
    }
  }

  function OccursIn(edges: seq<Edge>): Edge -> bool { (e: Edge) => Occurs(edges, e) }

  /** The first run's edges, each once, without those that some later run lacks. */
  method IntersectRuns(runs: seq<seq<Edge>>) returns (edges: seq<Edge>)
    requires runs != []
    ensures forall e :: Occurs(edges, e) <==> InEvery(runs, e)
    ensures Apart(edges) && edges == Intersection(runs)
  {
    edges := DistinctEdges(runs[0]);
    DistinctEdgesHold(runs[0]);
    assert runs[..1] == [runs[0]] && runs[..1][..0] == [];
    for i := 1 to |runs|
      invariant edges == Intersection(runs[..i])
    {
      assert runs[..i + 1][..i] == runs[..i];
      edges := Filter(edges, OccursIn(runs[i]));
    }
    assert runs[..|runs|] == runs;
    IntersectionHolds(runs);
  }

  function Intersection(runs: seq<seq<Edge>>): seq<Edge>
    requires runs != []
  {
    if |runs| == 1 then DistinctEdges(runs[0])
    else Filter(Intersection(runs[..|runs| - 1]), OccursIn(runs[|runs| - 1]))
  }

  lemma IntersectStep(before: seq<Edge>, run: seq<Edge>, e: Edge)
    ensures Occurs(Filter(before, OccursIn(run)), e) <==> Occurs(before, e) && Occurs(run, e)
  {
    if f :| f in before && SameEdge(f, e) {
      if g :| g in run && SameEdge(g, f) {
        assert SameEdge(g, e) && f in Filter(before, OccursIn(run));
      }
      if g :| g in run && SameEdge(g, e) {
        assert SameEdge(g, f) && OccursIn(run)(f);
      }
    }
  }

  ghost predicate InEvery(runs: seq<seq<Edge>>, e: Edge)
  {
    forall i :: 0 <= i < |runs| ==> Occurs(runs[i], e)
  }

  lemma InEveryStep(runs: seq<seq<Edge>>, e: Edge)
    requires runs != []
    ensures InEvery(runs, e) <==> InEvery(runs[..|runs| - 1], e) && Occurs(runs[|runs| - 1], e)
  {
    var front := runs[..|runs| - 1];
    if InEvery(front, e) {
      forall i | 0 <= i < |runs| - 1 ensures Occurs(runs[i], e) {
        assert front[i] == runs[i] && Occurs(front[i], e);
      }
    }
  }

  lemma {:induction false} IntersectionHolds(runs: seq<seq<Edge>>)
    requires runs != []
    ensures forall e :: Occurs(Intersection(runs), e) <==> InEvery(runs, e)
    ensures Apart(Intersection(runs))
  {
    var n := |runs| - 1;
    if n == 0 {
      DistinctEdgesHold(runs[0]);
    } else {
      IntersectionHolds(runs[..n]);
      FilterKeepsApart(Intersection(runs[..n]), OccursIn(runs[n]));
      forall e ensures Occurs(Intersection(runs), e) <==> InEvery(runs, e) {
        IntersectStep(Intersection(runs[..n]), runs[n], e);
        InEveryStep(runs, e);
      }
    }
  }

  lemma {:induction false} FilterKeepsApart(edges: seq<Edge>, p: Edge -> bool)
    requires Apart(edges)
    ensures Apart(Filter(edges, p))
  {
    if edges != [] {
      var n := |edges| - 1;
      FilterKeepsApart(edges[..n], p);
      if p(edges[n]) {
        forall f | f in Filter(edges[..n], p) ensures !SameEdge(f, edges[n]) {
          var i :| 0 <= i < n && edges[..n][i] == f;
          assert !SameEdge(edges[i], edges[n]);
        }
        ApartAppend(Filter(edges[..n], p), edges[n]);
      }
    }
  }

  // ------------------------------------------------------------- grouping

  /** The edges of the uniquely named targets by definition, in order. */
  function EdgesOf(edges: seq<Edge>, key: Key): seq<Edge>
  {
    if edges == [] then []
    else
      var last := edges[|edges| - 1];
      EdgesOf(edges[..|edges| - 1], key) + if last.target == key then [last] else []
  }

  function Grouped(edges: seq<Edge>, unique: set<string>): map<Key, seq<Edge>>
  {
    if edges == [] then map[]
    else
      var before, e := Grouped(edges[..|edges| - 1], unique), edges[|edges| - 1];
      if e.target.name !in unique then before
      else before[e.target := (if e.target in before then before[e.target] else []) + [e]]
  }

  predicate IsTarget(edges: seq<Edge>, key: Key)
  {
    exists e :: e in edges && e.target == key
  }

  lemma {:induction false} GroupedHolds(edges: seq<Edge>, unique: set<string>, key: Key)
    ensures key in Grouped(edges, unique) <==> key.name in unique && IsTarget(edges, key)
    ensures key in Grouped(edges, unique) ==> Grouped(edges, unique)[key] == EdgesOf(edges, key) != []
    ensures EdgesOf(edges, key) == [] <==> !IsTarget(edges, key)
    ensures forall e :: e in EdgesOf(edges, key) <==> e in edges && e.target == key
  {
    if edges != [] {
      var n := |edges| - 1;
      GroupedHolds(edges[..n], unique, key);
      assert edges == edges[..n] + [edges[n]];
    }
  }

  /** The groups and their keys, each once. */
  method GroupEdges(edges: seq<Edge>, unique: set<string>) returns (byTarget: map<Key, seq<Edge>>, keys: seq<Key>)
    ensures byTarget == Grouped(edges, unique)
    ensures Distinct(keys) && Elements(keys) == byTarget.Keys
  {
    byTarget, keys := map[], [];
    for i := 0 to |edges|
      invariant byTarget == Grouped(edges[..i], unique)
      invariant Distinct(keys) && Elements(keys) == byTarget.Keys
    {
      assert edges[..i + 1][..i] == edges[..i];
      var e := edges[i];
      if e.target.name in unique {
        if e.target !in byTarget {
          assert e.target !in Elements(keys);
          DistinctConcat(keys, [e.target]);
          keys := keys + [e.target];
        }
        var before := if e.target in byTarget then byTarget[e.target] else [];
        byTarget := byTarget[e.target := before + [e]];
      }
    }
    assert edges[..|edges|] == edges;
  }

  /** Order by name, then file, then line. */
  predicate KeyLe(a: Key, b: Key)
  {
    if a.name != b.name then LexLe(a.name, b.name)
    else if a.file != b.file then LexLe(a.file, b.file)
    else a.line <= b.line
  }

  lemma KeyLeIsOrder()
    ensures TotalPreorder(KeyLe) && Antisymmetric(KeyLe)
  {
    LexIsTotalOrder();
  }
}
