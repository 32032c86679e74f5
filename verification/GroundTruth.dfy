/** Building ground-truth candidates from the edges an oracle reports for one repository. */
module GroundTruth {
  import opened Sequences
  import opened Strings
  import opened Corpus

  /** What one build of the oracle reports: the edges of each indexing run, the names of all
      definitions and classes, the owner class of each method and the definitions labelled methods. */
  datatype Index = Index(
    runs: seq<seq<Edge>>, defs: seq<string>, classNames: set<string>, owners: map<Key, string>, methods: set<Key>)

  /** A target under judgement. `end` is its last line, `defs` how often its name is defined. */
  datatype Context = Context(kind: Kind, key: Key, end: nat, owner: Option<string>, isMethod: bool, defs: nat)

  datatype Target = Target(
    symbol: string, file: string, line: nat, callers: seq<Source>, minCount: nat,
    expectMembers: set<string>, fileEvidence: set<string>,
    owner: Option<string>, isMethod: bool, oracleDefs: nat, evidence: seq<Hit>)

  function TargetKey(t: Target): Key { Key(t.symbol, t.file, t.line) }

  function Max(a: nat, b: nat): nat { if a >= b then a else b }

  // ------------------------------------------------------------- evidence

  predicate CallOk(r: Repo, c: Context, h: Hit)
  {
    if c.isMethod then
      r.shape(DottedCall, c.key.name, h) || (h.file == c.key.file && r.shape(BareCall, c.key.name, h))
    else r.shape(PlainCall, c.key.name, h)
  }

  predicate InUseClause(r: Repo, c: Context, h: Hit)
  {
    || r.shape(PlainUse, c.key.name, h) || r.shape(RestrictedPath, c.key.name, h)
    || r.shape(RestrictedBare, c.key.name, h)
  }

  predicate ReferenceOk(r: Repo, c: Context, h: Hit)
  {
    || InUseClause(r, c, h) || r.shape(ImportClause, c.key.name, h)
    || match r.fromModule(c.key.name, h)
       case Some(m) => !r.python || r.moduleMatches(m, h.file, c.key.file)
       case None => r.shape(ColonRef, c.key.name, h) || (c.isMethod && r.shape(DotRef, c.key.name, h))
  }

  predicate Accepted(r: Repo, c: Context, h: Hit)
  {
    CallOk(r, c, h) || (c.kind != Calls && ReferenceOk(r, c, h))
  }

  predicate InSpan(s: Source, h: Hit)
  {
    s.line > 0 && !IsPseudo(s) ==> s.line <= h.line <= Max(s.endLine, s.line)
  }

  predicate OwnDefinition(c: Context, h: Hit)
  {
    h.file == c.key.file && c.key.line <= h.line <= Max(c.end, c.key.line)
  }

  predicate Admissible(r: Repo, c: Context, s: Source, h: Hit)
  {
    && h.file == s.file && InSpan(s, h) && !OwnDefinition(c, h) && !r.comment(h)
    && Accepted(r, c, h) && !r.shape(Definition, c.key.name, h)
  }

  function AdmissibleFor(r: Repo, c: Context, s: Source): Hit -> bool
  {
    (h: Hit) => Admissible(r, c, s, h)
  }

  function First(hits: seq<Hit>, p: Hit -> bool): (h: Option<Hit>)
    ensures h.Some? ==> h.value in hits && p(h.value)
    ensures h.None? ==> forall x :: x in hits ==> !p(x)
  {
    if hits == [] then None else if p(hits[0]) then Some(hits[0]) else First(hits[1..], p)
  }

  /** The first admissible line for a source. */
  function EvidenceFor(r: Repo, c: Context, s: Source): Option<Hit>
  {
    First(r.hits(c.key.name), AdmissibleFor(r, c, s))
  }

  predicate Verifiable(r: Repo, c: Context, s: Source)
  {
    EvidenceFor(r, c, s).Some? && !r.shadowed(c.key, EvidenceFor(r, c, s).value)
  }

  function LineFor(r: Repo, c: Context): Source -> Hit
  {
    (s: Source) => var h := EvidenceFor(r, c, s); if h.Some? then h.value else Hit("", 0)
  }

  datatype Reason =
    | Direction | CrossVersion | ModuleLine0 | OwnerUnmentioned | PrivateCrossFile | ForeignImport | NoHits
    | ShadowedOrMultidef | Unverified | ExternalOverride | MissedBeyondTolerance

  /** Verification accepts a target's sources all together or not at all, and blames the first that
      has no evidence or shadowed evidence. */
  method VerifySources(r: Repo, c: Context, sources: seq<Source>) returns (evidence: Option<seq<Hit>>, blame: Reason)
    ensures evidence.Some? <==> forall s :: s in sources ==> Verifiable(r, c, s)
    ensures evidence.Some? ==> evidence.value == Mapped(sources, LineFor(r, c))
    ensures evidence.None? ==> exists s ::
      && s in sources && !Verifiable(r, c, s)
      && blame == if EvidenceFor(r, c, s).None? then Unverified else ShadowedOrMultidef
  {
    var found := [];
    for i := 0 to |sources|
      invariant found == Mapped(sources[..i], LineFor(r, c))
      invariant forall j :: 0 <= j < i ==> Verifiable(r, c, sources[j])
    {
      var s := sources[i];
      assert s in sources && sources[..i + 1] == sources[..i] + [s];
      var h := EvidenceFor(r, c, s);
      if h.None? {
        return None, Unverified;
      }
      if r.shadowed(c.key, h.value) {
        return None, ShadowedOrMultidef;
      }
      found := found + [h.value];
    }
    assert sources[..|sources|] == sources;
    return Some(found), Unverified;
  }

  // --------------------------------------------------------------- filters

  /** The owner class has a plain name that a caller's file never mentions. */
  predicate OwnerMissing(r: Repo, c: Context, s: Source)
  {
    && c.owner.Some? && c.owner.value != "" && r.isIdentifier(c.owner.value)
    && s.file != c.key.file && !r.mentions(c.owner.value, s.file)
  }

  /** A caller's file statically imports the name from another class. */
  predicate ImportsForeign(r: Repo, c: Context, s: Source)
  {
    && r.java && s.file != c.key.file
    && var import_ := r.staticImport(c.key.name, s.file);
       import_.Some? && import_.value != (if c.owner.Some? then c.owner.value else "")
  }

  function OwnerName(r: Repo, owner: Option<string>, file: string): string
  {
    if owner.Some? && owner.value != "" then owner.value else r.stem(file)
  }

  predicate Overrides(r: Repo, isMethod: bool, file: string, line: nat)
  {
    r.java && isMethod && r.overridden(file, line)
  }

  predicate BadEvidence(r: Repo, c: Context, evidence: seq<Hit>)
  {
    && Overrides(r, c.isMethod, c.key.file, c.key.line)
    && exists h :: h in evidence && r.badReceiver(c.key, OwnerName(r, c.owner, c.key.file), h)
  }

  predicate TooManyMissed(r: Repo, c: Context, sources: seq<Source>)
  {
    c.kind == Calls && r.missed(c.key, c.isMethod, sources) > Max(3, 2 * |sources|)
  }

  /** The sources show the filter named. */
  predicate Blamed(r: Repo, c: Context, sources: seq<Source>, reason: Reason)
  {
    match reason
    case Direction => !DirOk(r, c.key.file, Files(sources))
    case CrossVersion => exists s :: s in sources && VersionViolation(r, c.key.file, s.file)
    case ModuleLine0 => exists s :: s in sources && "Module" in s.labels && s.line == 0
    case OwnerUnmentioned => exists s :: s in sources && OwnerMissing(r, c, s)
    case PrivateCrossFile =>
      r.hasPrivate && r.isPrivate(c.key.file, c.key.line) && exists s :: s in sources && s.file != c.key.file
    case ForeignImport => exists s :: s in sources && ImportsForeign(r, c, s)
    case NoHits => r.hits(c.key.name) == []
    case ShadowedOrMultidef =>
      || r.textualDefs(c.key.name) > c.defs
      || exists s :: s in sources && EvidenceFor(r, c, s).Some? && !Verifiable(r, c, s)
    case Unverified => exists s :: s in sources && EvidenceFor(r, c, s).None?
    case ExternalOverride => BadEvidence(r, c, Mapped(sources, LineFor(r, c)))
    case MissedBeyondTolerance => TooManyMissed(r, c, sources)
  }

  /** A target passes when no filter has anything to blame. */
  ghost predicate Passes(r: Repo, c: Context, sources: seq<Source>)
  {
    forall reason: Reason :: !Blamed(r, c, sources, reason)
  }

  function TargetFor(r: Repo, c: Context, sources: seq<Source>): Target
  {
    Target(c.key.name, c.key.file, c.key.line, sources, |sources|,
           set s | s in sources && !IsPseudo(s) :: s.name,
           set s | s in sources && IsPseudo(s) :: s.file,
           c.owner, c.isMethod, c.defs, Mapped(sources, LineFor(r, c)))
  }

  datatype Verdict = Survives(target: Target) | Rejected(reason: Reason)

  /** The order in which the filters are applied. Verification tells two reasons apart source by source. */
  function Rank(reason: Reason): nat
  {
    match reason
    case Direction => 0
    case CrossVersion => 1
    case ModuleLine0 => 2
    case OwnerUnmentioned => 3
    case PrivateCrossFile => 4
    case ForeignImport => 5
    case NoHits => 6
    case ShadowedOrMultidef => 7
    case Unverified => 7
    case ExternalOverride => 8
    case MissedBeyondTolerance => 9
  }

  /** No filter applied before the reason's has anything to blame. */
  ghost predicate FirstBlamed(r: Repo, c: Context, sources: seq<Source>, reason: Reason)
  {
    && Blamed(r, c, sources, reason)
    && forall earlier: Reason :: Rank(earlier) < Rank(reason) ==> !Blamed(r, c, sources, earlier)
  }

  predicate NeedsNoText(reason: Reason)
  {
    match reason
    case Direction | CrossVersion | ModuleLine0 | OwnerUnmentioned | PrivateCrossFile | ForeignImport => true
    case _ => false
  }

  predicate FailsBeforeText(r: Repo, c: Context, sources: seq<Source>, reason: Reason)
  {
    NeedsNoText(reason) && Blamed(r, c, sources, reason)
  }

  const CALLER_FILTERS := [Direction, CrossVersion, ModuleLine0, OwnerUnmentioned, PrivateCrossFile, ForeignImport]

  lemma CallerFiltersRanked(reason: Reason)
    ensures |CALLER_FILTERS| == 6 && forall i :: 0 <= i < 6 ==>
      Rank(CALLER_FILTERS[i]) == i && NeedsNoText(CALLER_FILTERS[i])
    ensures NeedsNoText(reason) <==> Rank(reason) < 6
    ensures Rank(reason) < 6 ==> CALLER_FILTERS[Rank(reason)] == reason
  {
    assert CALLER_FILTERS[0] == Direction && CALLER_FILTERS[1] == CrossVersion && CALLER_FILTERS[2] == ModuleLine0;
    assert CALLER_FILTERS[3] == OwnerUnmentioned && CALLER_FILTERS[4] == PrivateCrossFile;
    assert CALLER_FILTERS[5] == ForeignImport;
  }

  /** The filters that need no occurrence of the name, in the order of the source; the first that fails
      is blamed. */
  method CheckCallers(r: Repo, c: Context, sources: seq<Source>) returns (blame: Option<Reason>)
    ensures blame.None? <==> forall reason: Reason :: !FailsBeforeText(r, c, sources, reason)
    ensures blame.Some? ==> FailsBeforeText(r, c, sources, blame.value) && FirstBlamed(r, c, sources, blame.value)
  {
    CallerFiltersRanked(Direction);
    for i := 0 to |CALLER_FILTERS|
      invariant forall j :: 0 <= j < i ==> !Blamed(r, c, sources, CALLER_FILTERS[j])
    {
      var reason := CALLER_FILTERS[i];
      if Blamed(r, c, sources, reason) {
        forall earlier: Reason | Rank(earlier) < Rank(reason) ensures !Blamed(r, c, sources, earlier) {
          CallerFiltersRanked(earlier);
        }
        assert FailsBeforeText(r, c, sources, reason);
        return Some(reason);
      }
    }
    forall reason: Reason ensures !FailsBeforeText(r, c, sources, reason) {
      CallerFiltersRanked(reason);
    }
    return None;
  }

  lemma BlamesNobody(r: Repo, c: Context, sources: seq<Source>)
    requires forall reason: Reason :: !FailsBeforeText(r, c, sources, reason)
    requires !Blamed(r, c, sources, NoHits) && !Blamed(r, c, sources, ShadowedOrMultidef)
      && !Blamed(r, c, sources, Unverified)
    requires !Blamed(r, c, sources, ExternalOverride) && !Blamed(r, c, sources, MissedBeyondTolerance)
    ensures Passes(r, c, sources)
  {
    forall reason: Reason ensures !Blamed(r, c, sources, reason) {
      assert !FailsBeforeText(r, c, sources, reason);
    }
  }

  lemma BlamedFirst(r: Repo, c: Context, sources: seq<Source>, reason: Reason)
    requires forall early: Reason :: !FailsBeforeText(r, c, sources, early)
    requires Blamed(r, c, sources, reason) && Rank(reason) >= 6
    requires Rank(reason) > 6 ==> !Blamed(r, c, sources, NoHits)
    requires Rank(reason) > 7 ==> !Blamed(r, c, sources, ShadowedOrMultidef) && !Blamed(r, c, sources, Unverified)
    requires Rank(reason) > 8 ==> !Blamed(r, c, sources, ExternalOverride)
    ensures FirstBlamed(r, c, sources, reason)
  {
    forall earlier: Reason | Rank(earlier) < Rank(reason) ensures !Blamed(r, c, sources, earlier) {
      CallerFiltersRanked(earlier);
      assert !FailsBeforeText(r, c, sources, earlier);
    }
  }

  /** The filters that look at the text, once the callers have passed. */
  method CheckText(r: Repo, c: Context, sources: seq<Source>) returns (v: Verdict)
    requires forall early: Reason :: !FailsBeforeText(r, c, sources, early)
    ensures v.Survives? <==> Passes(r, c, sources)
    ensures v.Survives? ==> v.target == TargetFor(r, c, sources)
    ensures v.Rejected? ==> FirstBlamed(r, c, sources, v.reason)
  {
    if r.hits(c.key.name) == [] {
      BlamedFirst(r, c, sources, NoHits);
      return Rejected(NoHits);
    }
    if r.textualDefs(c.key.name) > c.defs {
      BlamedFirst(r, c, sources, ShadowedOrMultidef);
      return Rejected(ShadowedOrMultidef);
    }
    var evidence, blame := VerifySources(r, c, sources);
    if evidence.None? {
      BlamedFirst(r, c, sources, blame);
      return Rejected(blame);
    }
    if BadEvidence(r, c, evidence.value) {
      BlamedFirst(r, c, sources, ExternalOverride);
      return Rejected(ExternalOverride);
    }
    if TooManyMissed(r, c, sources) {
      BlamedFirst(r, c, sources, MissedBeyondTolerance);
      return Rejected(MissedBeyondTolerance);
    }
    BlamesNobody(r, c, sources);
    v := Survives(TargetFor(r, c, sources));
  }

  /** A target survives exactly when it passes every filter, and is written with its sources and the
      line found for each; otherwise the reason names the first filter that it fails. */
  method JudgeTarget(r: Repo, c: Context, sources: seq<Source>) returns (v: Verdict)
    ensures v.Survives? <==> Passes(r, c, sources)
    ensures v.Survives? ==> v.target == TargetFor(r, c, sources)
    ensures v.Rejected? ==> FirstBlamed(r, c, sources, v.reason)
  {
    var early := CheckCallers(r, c, sources);
    if early.Some? {
      v := Rejected(early.value);
    } else {
      v := CheckText(r, c, sources);
    }
  }

  // ------------------------------------------------------------- building

  function OwnerIn(x: Index, key: Key): Option<string>
  {
    if key in x.owners then Some(x.owners[key]) else None
  }

  function SourcesOf(edges: seq<Edge>): seq<Source>
  {
    seq(|edges|, i requires 0 <= i < |edges| => edges[i].source)
  }

  function ContextFor(kind: Kind, x: Index, key: Key, edges: seq<Edge>): Context
    requires edges != []
  {
    Context(kind, key, edges[0].targetEnd, OwnerIn(x, key), key in x.owners || key in x.methods,
            Occurrences(x.defs, key.name))
  }

  /** The candidate for a definition, if the edges into it pass. */
  ghost function Candidate(r: Repo, kind: Kind, x: Index, key: Key, edges: seq<Edge>): Option<Target>
    requires edges != []
  {
    var c, sources := ContextFor(kind, x, key, edges), DedupSources(SourcesOf(edges));
    if Passes(r, c, sources) then Some(TargetFor(r, c, sources)) else None
  }

  ghost function CandidateIn(r: Repo, kind: Kind, x: Index, edges: seq<Edge>, key: Key): Option<Target>
  {
    if EdgesOf(edges, key) == [] then None else Candidate(r, kind, x, key, EdgesOf(edges, key))
  }

  /** The candidates of some definitions, in their order. */
  ghost function Survivors(candidate: Key -> Option<Target>, keys: seq<Key>): seq<Target>
  {
    if keys == [] then []
    else
      var n := |keys| - 1;
      Survivors(candidate, keys[..n]) + if candidate(keys[n]).Some? then [candidate(keys[n]).value] else []
  }

  ghost predicate KeepsKeys(candidate: Key -> Option<Target>)
  {
    forall k :: candidate(k).Some? ==> TargetKey(candidate(k).value) == k
  }

  lemma {:induction false} SurvivorsHold(candidate: Key -> Option<Target>, keys: seq<Key>)
    requires KeepsKeys(candidate)
    ensures forall t :: t in Survivors(candidate, keys) <==> TargetKey(t) in keys && candidate(TargetKey(t)) == Some(t)
  {
    if keys != [] {
      var n := |keys| - 1;
      SurvivorsHold(candidate, keys[..n]);
      assert keys == keys[..n] + [keys[n]];
    }
  }

  lemma SurvivorsAppend(candidate: Key -> Option<Target>, keys: seq<Key>, key: Key)
    ensures Survivors(candidate, keys + [key])
         == Survivors(candidate, keys) + if candidate(key).Some? then [candidate(key).value] else []
  {
    assert (keys + [key])[..|keys|] == keys;
  }

  ghost predicate KeysSorted(targets: seq<Target>)
  {
    forall i, j :: 0 <= i < j < |targets| ==>
      TargetKey(targets[i]) != TargetKey(targets[j]) && KeyLe(TargetKey(targets[i]), TargetKey(targets[j]))
  }

  lemma KeysSortedAppend(front: seq<Target>, last: Target)
    requires KeysSorted(front)
    requires forall t :: t in front ==> TargetKey(t) != TargetKey(last) && KeyLe(TargetKey(t), TargetKey(last))
    ensures KeysSorted(front + [last])
  {
  }

  lemma {:induction false} SurvivorsSorted(candidate: Key -> Option<Target>, keys: seq<Key>)
    requires KeepsKeys(candidate) && Distinct(keys) && Sorted(keys, KeyLe)
    ensures KeysSorted(Survivors(candidate, keys))
  {
    if keys != [] {
      var n := |keys| - 1;
      SurvivorsSorted(candidate, keys[..n]);
      SurvivorsHold(candidate, keys[..n]);
      forall t | t in Survivors(candidate, keys[..n]) ensures TargetKey(t) != keys[n] && KeyLe(TargetKey(t), keys[n]) {
        var i :| 0 <= i < n && keys[..n][i] == TargetKey(t);
        assert keys[i] == TargetKey(t);
      }
      if candidate(keys[n]).Some? {
        KeysSortedAppend(Survivors(candidate, keys[..n]), candidate(keys[n]).value);
      }
    }
  }

  ghost function CandidateAt(r: Repo, kind: Kind, x: Index, edges: seq<Edge>): Key -> Option<Target>
  {
    (key: Key) => CandidateIn(r, kind, x, edges, key)
  }

  /** The function yields the candidates; the trigger keeps it folded elsewhere. */
  ghost predicate IsCandidates(candidate: Key -> Option<Target>, r: Repo, kind: Kind, x: Index, edges: seq<Edge>)
  {
    forall key {:trigger CandidateIn(r, kind, x, edges, key)} :: candidate(key) == CandidateIn(r, kind, x, edges, key)
  }

  lemma CandidatesKeepKeys(candidate: Key -> Option<Target>, r: Repo, kind: Kind, x: Index, edges: seq<Edge>)
    requires IsCandidates(candidate, r, kind, x, edges)
    ensures KeepsKeys(candidate)
  {
    forall k ensures candidate(k).Some? ==> TargetKey(candidate(k).value) == k {
      assert candidate(k) == CandidateIn(r, kind, x, edges, k);
    }
  }

  method JudgeKey(r: Repo, kind: Kind, x: Index, key: Key, group: seq<Edge>) returns (v: Verdict)
    requires group != []
    ensures Candidate(r, kind, x, key, group) == if v.Survives? then Some(v.target) else None
  {
    v := JudgeTarget(r, ContextFor(kind, x, key, group), DedupSources(SourcesOf(group)));
  }

  lemma JudgedIn(r: Repo, kind: Kind, x: Index, edges: seq<Edge>, key: Key, group: seq<Edge>)
    requires group == EdgesOf(edges, key) != []
    ensures CandidateIn(r, kind, x, edges, key) == Candidate(r, kind, x, key, group)
  {
  }

  /** Judges one more group and files the verdict. */
  method FileVerdict(r: Repo, kind: Kind, x: Index, ghost edges: seq<Edge>, ghost candidate: Key -> Option<Target>,
                     group: seq<Edge>, ghost keys: seq<Key>, key: Key,
                     survivors: seq<Target>, rejected: multiset<Reason>)
    returns (survivors': seq<Target>, rejected': multiset<Reason>)
    requires IsCandidates(candidate, r, kind, x, edges) && group == EdgesOf(edges, key) != []
    requires survivors == Survivors(candidate, keys) && |survivors| + |rejected| == |keys|
    ensures survivors' == Survivors(candidate, keys + [key])
    ensures |survivors'| + |rejected'| == |keys| + 1
  {
    SurvivorsAppend(candidate, keys, key);
    JudgedIn(r, kind, x, edges, key, group);
    var v := JudgeKey(r, kind, x, key, group);
    if v.Survives? {
      survivors', rejected' := survivors + [v.target], rejected;
    } else {
      survivors', rejected' := survivors + [], rejected + multiset{v.reason};
    }
  }

  /** Judges the groups in the order of the keys. Every group survives or is counted as rejected. */
  method JudgeAll(r: Repo, kind: Kind, x: Index, ghost edges: seq<Edge>, ghost candidate: Key -> Option<Target>,
                  byTarget: map<Key, seq<Edge>>, keys: seq<Key>)
    returns (survivors: seq<Target>, rejected: multiset<Reason>)
    requires IsCandidates(candidate, r, kind, x, edges)
    requires forall k :: k in keys ==> k in byTarget && byTarget[k] == EdgesOf(edges, k) != []
    ensures survivors == Survivors(candidate, keys)
    ensures |survivors| + |rejected| == |keys|
  {
    survivors, rejected := [], multiset{};
    for i := 0 to |keys|
      invariant survivors == Survivors(candidate, keys[..i])
      invariant |survivors| + |rejected| == i
    {
      assert keys[..i + 1] == keys[..i] + [keys[i]];
      assert keys[i] in keys;
      survivors, rejected :=
        FileVerdict(r, kind, x, edges, candidate, byTarget[keys[i]], keys[..i], keys[i], survivors, rejected);
    }
    assert keys[..|keys|] == keys;
  }

  /** A build reports the target and its candidate is t. */
  ghost predicate Reports(r: Repo, kind: Kind, x: Index, t: Target)
    requires x.runs != []
  {
    var edges := Intersection(x.runs);
    && Occurrences(x.defs, t.symbol) == 1 && NameAllowed(r, x.classNames, t.symbol)
    && IsTarget(edges, TargetKey(t)) && CandidateIn(r, kind, x, edges, TargetKey(t)) == Some(t)
  }

  /** The uniquely named definitions that some edge of every run reaches. */
  ghost function Groups(r: Repo, x: Index): set<Key>
    requires x.runs != []
  {
    set e | e in Intersection(x.runs) && Occurrences(x.defs, e.target.name) == 1
           && NameAllowed(r, x.classNames, e.target.name)
      :: e.target
  }

  /** The edges of all runs, grouped, judged and sorted: the survivors are exactly the reported targets,
      each once and in the order of name, file and line. */
  method BuildCandidates(r: Repo, kind: Kind, x: Index) returns (survivors: seq<Target>, rejected: multiset<Reason>)
    requires x.runs != []
    ensures forall t :: t in survivors <==> Reports(r, kind, x, t)
    ensures KeysSorted(survivors)
    ensures |survivors| + |rejected| == |Groups(r, x)|
  {
    var edges := IntersectRuns(x.runs);
    var unique, counts := UniqueNames(r, x.defs, x.classNames);
    var byTarget, found := GroupEdges(edges, unique);
    var keys := Sort(found, KeyLe);
    SortedKeys(found);
    forall k: Key
      ensures k in keys <==> k.name in unique && IsTarget(edges, k)
      ensures k in keys ==> k in byTarget && byTarget[k] == EdgesOf(edges, k) != []
    {
      GroupedHolds(edges, unique, k);
      assert k in found <==> k in Elements(found);
    }
    ghost var candidate := CandidateAt(r, kind, x, edges);
    CandidatesKeepKeys(candidate, r, kind, x, edges);
    survivors, rejected := JudgeAll(r, kind, x, edges, candidate, byTarget, keys);
    SurvivorsHold(candidate, keys);
    SurvivorsSorted(candidate, keys);
    DistinctSize(keys);
    assert Elements(keys) == Groups(r, x);
  }

  lemma SortedKeys(found: seq<Key>)
    requires Distinct(found)
    ensures var keys := Sort(found, KeyLe);
      Distinct(keys) && Sorted(keys, KeyLe) && forall k :: k in keys <==> k in found
  {
    KeyLeIsOrder();
    SortSorts(found, KeyLe);
    PermutedDistinct(found, Sort(found, KeyLe));
  }
}
