/** The stability intersection of independent builds and the separately coded audit of what is written. */
module GroundTruthAudit {
  import opened Sequences
  import opened Strings
  import opened Corpus
  import opened GroundTruth

  const MIN_USAGE_SURVIVORS: nat := 15

  // ---------------------------------------------- stability intersection

  /** A build's targets by key; a later target with the same key replaces an earlier one. */
  function ByTargetKey(targets: seq<Target>): map<Key, Target>
  {
    if targets == [] then map[]
    else
      var last := targets[|targets| - 1];
      ByTargetKey(targets[..|targets| - 1])[TargetKey(last) := last]
  }

  /** The first build's entry for the key is the same, field for field, in every other build. */
  predicate Stable(key: Key, first: map<Key, Target>, others: seq<map<Key, Target>>)
  {
    key in first && forall i :: 0 <= i < |others| ==> key in others[i] && others[i][key] == first[key]
  }

  function StableTarget(builds: seq<seq<Target>>): Target -> bool
    requires builds != []
  {
    var first := ByTargetKey(builds[0]);
    var others := seq(|builds| - 1, i requires 0 <= i < |builds| - 1 => ByTargetKey(builds[i + 1]));
    (t: Target) => Stable(TargetKey(t), first, others)
  }

  method StableKeys(builds: seq<seq<Target>>) returns (stable: set<Key>)
    requires builds != []
    ensures var first := ByTargetKey(builds[0]);
      forall k :: k in stable <==> k in first && forall j :: 1 <= j < |builds| ==>
        k in ByTargetKey(builds[j]) && ByTargetKey(builds[j])[k] == first[k]
  {
    var first := ByTargetKey(builds[0]);
    stable := first.Keys;
    for i := 1 to |builds|
      invariant forall k :: k in stable <==>
        k in first && forall j :: 1 <= j < i ==> k in ByTargetKey(builds[j]) && ByTargetKey(builds[j])[k] == first[k]
    {
      var other := ByTargetKey(builds[i]);
      stable := set k | k in stable && k in other && other[k] == first[k];
    }
  }

  /** Keeps the targets of the first build that every build agrees on; nothing is added or changed. */
  method StabilityIntersect(builds: seq<seq<Target>>) returns (kept: seq<Target>, dropped: nat)
    requires builds != []
    ensures kept == Filter(builds[0], StableTarget(builds))
    ensures dropped + |kept| == |builds[0]|
  {
    var stable := StableKeys(builds);
    StableEverywhere(builds, stable);
    kept, dropped := KeepStable(builds[0], stable, StableTarget(builds));
  }

  method KeepStable(targets: seq<Target>, stable: set<Key>, ghost agreed: Target -> bool)
    returns (kept: seq<Target>, dropped: nat)
    requires forall t :: TargetKey(t) in stable <==> agreed(t)
    ensures kept == Filter(targets, agreed) && dropped + |kept| == |targets|
  {
    kept, dropped := [], 0;
    for i := 0 to |targets|
      invariant kept == Filter(targets[..i], agreed)
      invariant dropped + |kept| == i
    {
      var t := targets[i];
      assert targets[..i + 1] == targets[..i] + [t];
      FilterAppend(targets[..i], t, agreed);
      if TargetKey(t) in stable {
        kept := kept + [t];
      } else {
        dropped := dropped + 1;
      }
    }
    assert targets[..|targets|] == targets;
  }

  lemma StableEverywhere(builds: seq<seq<Target>>, stable: set<Key>)
    requires builds != []
    requires var first := ByTargetKey(builds[0]);
      forall k :: k in stable <==> k in first && forall j :: 1 <= j < |builds| ==>
        k in ByTargetKey(builds[j]) && ByTargetKey(builds[j])[k] == first[k]
    ensures forall t :: TargetKey(t) in stable <==> StableTarget(builds)(t)
  {
    var first := ByTargetKey(builds[0]);
    var others := seq(|builds| - 1, i requires 0 <= i < |builds| - 1 => ByTargetKey(builds[i + 1]));
    forall k: Key ensures k in stable <==> Stable(k, first, others) {
      if Stable(k, first, others) {
        forall j | 1 <= j < |builds| ensures k in ByTargetKey(builds[j]) && ByTargetKey(builds[j])[k] == first[k] {
          assert others[j - 1] == ByTargetKey(builds[j]);
        }
      }
    }
  }

  /** Too few survivors of kind USAGE are not trusted at all. */
  function UsageFloor(kind: Kind, targets: seq<Target>): seq<Target>
  {
    if kind == Usage && |targets| < MIN_USAGE_SURVIVORS then [] else targets
  }

  // --------------------------------------------------------------- audit

  /** Scans 1 to 8 of the audit; the sixth makes two tests. */
  datatype Scan =
    | DirectionScan | StdlibScan | VisibilityScan | PseudoScan | MultidefScan | ShapeScan | ShadowScan
    | VersionScan | OverrideScan

  function CallerFiles(t: Target): set<string>
  {
    Files(t.callers) + t.fileEvidence
  }

  predicate DottedRef(r: Repo, name: string, h: Hit)
  {
    r.shape(ColonRef, name, h) || r.shape(DotRef, name, h)
  }

  /** Evidence for a method in another file must be dotted, or an import where calls are not asked for. */
  predicate Shapeless(r: Repo, kind: Kind, t: Target, h: Hit)
  {
    && t.isMethod && h.file != t.file
    && if kind == Calls then !r.shape(DottedCall, t.symbol, h) else !DottedRef(r, t.symbol, h) && !r.importish(h)
  }

  /** What each scan reports of a written target. */
  predicate Caught(r: Repo, kind: Kind, t: Target, scan: Scan)
  {
    match scan
    case DirectionScan => !DirOk(r, t.file, CallerFiles(t))
    case StdlibScan => r.lower(t.symbol) in r.stdlib || r.lower(t.symbol) in r.stoplist
    case VisibilityScan =>
      r.hasPrivate && r.isPrivate(t.file, t.line) && exists f :: f in CallerFiles(t) && f != t.file
    case PseudoScan => exists member :: member in t.expectMembers && PseudoMember(r, t, member)
    case MultidefScan => r.textualDefs(t.symbol) > t.oracleDefs
    case ShapeScan => exists h :: h in t.evidence && Shapeless(r, kind, t, h)
    case ShadowScan => exists h :: h in t.evidence && r.shadowed(TargetKey(t), h)
    case VersionScan => exists f :: f in CallerFiles(t) && VersionViolation(r, t.file, f)
    case OverrideScan =>
      && Overrides(r, t.isMethod, t.file, t.line)
      && exists h :: h in t.evidence && r.badReceiver(TargetKey(t), OwnerName(r, t.owner, t.file), h)
  }

  /** An expected member that names a File or Module caller, or looks like a path. */
  predicate PseudoMember(r: Repo, t: Target, member: string)
  {
    r.pathShaped(member) || exists s :: s in t.callers && IsPseudo(s) && s.name == member
  }

  const SCANS := [
    DirectionScan, StdlibScan, VisibilityScan, PseudoScan, MultidefScan, ShapeScan, ShadowScan,
    VersionScan, OverrideScan]

  lemma AllScans(scan: Scan)
    ensures scan in SCANS
  {
    assert SCANS[0] == DirectionScan && SCANS[1] == StdlibScan && SCANS[2] == VisibilityScan && SCANS[3] == PseudoScan;
    assert SCANS[4] == MultidefScan && SCANS[5] == ShapeScan && SCANS[6] == ShadowScan && SCANS[7] == VersionScan;
    assert SCANS[8] == OverrideScan;
  }

  function PseudoIn(r: Repo, t: Target): string -> bool { (member: string) => PseudoMember(r, t, member) }
  function ShapelessIn(r: Repo, kind: Kind, t: Target): Hit -> bool { (h: Hit) => Shapeless(r, kind, t, h) }
  function ShadowedIn(r: Repo, t: Target): Hit -> bool { (h: Hit) => r.shadowed(TargetKey(t), h) }

  function BadReceiverIn(r: Repo, t: Target): Hit -> bool
  {
    (h: Hit) => r.badReceiver(TargetKey(t), OwnerName(r, t.owner, t.file), h)
  }

  function Among(members: set<string>, p: string -> bool): set<string>
  {
    set member | member in members && p(member)
  }

  /** How often a scan reports a target: once, once a member or once a line of evidence. */
  function HitCount(r: Repo, kind: Kind, t: Target, scan: Scan): nat
  {
    match scan
    case PseudoScan => |Among(t.expectMembers, PseudoIn(r, t))|
    case ShapeScan => |Filter(t.evidence, ShapelessIn(r, kind, t))|
    case ShadowScan => |Filter(t.evidence, ShadowedIn(r, t))|
    case OverrideScan =>
      if Overrides(r, t.isMethod, t.file, t.line) then |Filter(t.evidence, BadReceiverIn(r, t))| else 0
    case _ => if Caught(r, kind, t, scan) then 1 else 0
  }

  lemma FilterHits(hits: seq<Hit>, p: Hit -> bool)
    ensures |Filter(hits, p)| > 0 <==> exists h :: h in hits && p(h)
  {
    if h :| h in hits && p(h) {
      assert h in Filter(hits, p);
    }
    if |Filter(hits, p)| > 0 {
      assert Filter(hits, p)[0] in Filter(hits, p);
    }
  }

  lemma AmongMembers(members: set<string>, p: string -> bool)
    ensures |Among(members, p)| > 0 <==> exists member :: member in members && p(member)
  {
    if member :| member in members && p(member) {
      assert member in Among(members, p);
    }
    if Among(members, p) != {} {
      var member :| member in Among(members, p);
      assert member in members && p(member);
    }
  }

  /** A scan catches a target exactly when it reports it at least once. */
  lemma CaughtIffHit(r: Repo, kind: Kind, t: Target, scan: Scan)
    ensures Caught(r, kind, t, scan) <==> HitCount(r, kind, t, scan) > 0
  {
    match scan
    case PseudoScan => AmongMembers(t.expectMembers, PseudoIn(r, t));
    case ShapeScan => FilterHits(t.evidence, ShapelessIn(r, kind, t));
    case ShadowScan => FilterHits(t.evidence, ShadowedIn(r, t));
    case OverrideScan => FilterHits(t.evidence, BadReceiverIn(r, t));
    case _ =>
  }

  method CountMembers(members: set<string>, p: string -> bool) returns (n: nat)
    ensures n == |Among(members, p)|
  {
    n := 0;
    var todo := members;
    while todo != {}
      invariant todo <= members && n == |Among(members - todo, p)|
      decreases |todo|
    {
      var member :| member in todo;
      ghost var before := Among(members - todo, p);
      todo := todo - {member};
      if p(member) {
        n := n + 1;
        assert Among(members - todo, p) == before + {member};
      } else {
        assert Among(members - todo, p) == before;
      }
    }
    assert members - todo == members;
  }

  method CountHits(hits: seq<Hit>, p: Hit -> bool) returns (n: nat)
    ensures n == |Filter(hits, p)|
  {
    n := 0;
    for i := 0 to |hits|
      invariant n == |Filter(hits[..i], p)|
    {
      assert hits[..i + 1] == hits[..i] + [hits[i]];
      FilterAppend(hits[..i], hits[i], p);
      if p(hits[i]) {
        n := n + 1;
      }
    }
    assert hits[..|hits|] == hits;
  }

  method CountScan(r: Repo, kind: Kind, t: Target, scan: Scan) returns (n: nat)
    ensures n == HitCount(r, kind, t, scan)
  {
    n := 0;
    match scan {
      case PseudoScan => n := CountMembers(t.expectMembers, PseudoIn(r, t));
      case ShapeScan => n := CountHits(t.evidence, ShapelessIn(r, kind, t));
      case ShadowScan => n := CountHits(t.evidence, ShadowedIn(r, t));
      case OverrideScan =>
        if Overrides(r, t.isMethod, t.file, t.line) {
          n := CountHits(t.evidence, BadReceiverIn(r, t));
        }
      case _ =>
        if Caught(r, kind, t, scan) {
          n := 1;
        }
    }
  }

  ghost function CountIn(r: Repo, kind: Kind, t: Target): Scan -> int
  {
    (scan: Scan) => HitCount(r, kind, t, scan)
  }

  /** The hits of all scans on one target. */
  ghost function HitsOn(r: Repo, kind: Kind): Target -> int
  {
    (t: Target) => Sum(SCANS, CountIn(r, kind, t))
  }

  method AuditTarget(r: Repo, kind: Kind, t: Target) returns (hits: set<Scan>, total: nat)
    ensures forall scan :: scan in hits <==> Caught(r, kind, t, scan)
    ensures total == HitsOn(r, kind)(t)
  {
    hits, total := {}, 0;
    var scans := SCANS;
    for k := 0 to |scans|
      invariant forall scan :: scan in hits <==> scan in scans[..k] && HitCount(r, kind, t, scan) > 0
      invariant total == Sum(scans[..k], CountIn(r, kind, t))
    {
      var scan := scans[k];
      assert scans[..k + 1] == scans[..k] + [scan];
      SumAppend(scans[..k], scan, CountIn(r, kind, t));
      var n := CountScan(r, kind, t, scan);
      if n > 0 {
        hits := hits + {scan};
      }
      total := total + n;
    }
    assert scans[..|scans|] == scans;
    forall scan: Scan ensures scan in hits <==> Caught(r, kind, t, scan) {
      AllScans(scan);
      CaughtIffHit(r, kind, t, scan);
    }
  }

  /** Reports exactly which scans catch which written targets, and how many hits there are in all. */
  method Audit(r: Repo, kind: Kind, targets: seq<Target>) returns (hits: set<(Target, Scan)>, total: nat)
    ensures forall t, scan :: (t, scan) in hits <==> t in targets && Caught(r, kind, t, scan)
    ensures total == Sum(targets, HitsOn(r, kind))
  {
    hits, total := {}, 0;
    for i := 0 to |targets|
      invariant forall t, scan :: (t, scan) in hits <==> t in targets[..i] && Caught(r, kind, t, scan)
      invariant total == Sum(targets[..i], HitsOn(r, kind))
    {
      assert targets[..i + 1] == targets[..i] + [targets[i]];
      SumAppend(targets[..i], targets[i], HitsOn(r, kind));
      var found, n := AuditTarget(r, kind, targets[i]);
      hits := hits + set scan | scan in found :: (targets[i], scan);
      total := total + n;
    }
    assert targets[..|targets|] == targets;
  }

  // ------------------------------------- what the build filters guarantee

  /** The written caller files are the files of the sources that were judged: the file evidence adds
      none. */
  lemma CallerFilesAreSourceFiles(r: Repo, c: Context, sources: seq<Source>)
    ensures CallerFiles(TargetFor(r, c, sources)) == Files(sources)
  {
  }

  /** Every written evidence line was found for some source and is not shadowed. */
  lemma EvidenceFound(r: Repo, c: Context, sources: seq<Source>, h: Hit)
    requires Passes(r, c, sources) && h in TargetFor(r, c, sources).evidence
    ensures Accepted(r, c, h) && !r.shadowed(c.key, h)
  {
    var i :| 0 <= i < |sources| && LineFor(r, c)(sources[i]) == h;
    var s := sources[i];
    assert s in sources;
    assert !Blamed(r, c, sources, Unverified) && !Blamed(r, c, sources, ShadowedOrMultidef);
    assert EvidenceFor(r, c, s).Some? && Verifiable(r, c, s);
  }

  /** The scans that the build filters rule out for every kind of edge. */
  predicate RuledOut(scan: Scan) { !scan.PseudoScan? && !scan.ShapeScan? }

  lemma SourcesClean(r: Repo, c: Context, sources: seq<Source>)
    requires Passes(r, c, sources)
    ensures forall scan :: scan in {DirectionScan, VisibilityScan, MultidefScan, VersionScan}
              ==> !Caught(r, c.kind, TargetFor(r, c, sources), scan)
  {
    CallerFilesAreSourceFiles(r, c, sources);
    assert !Blamed(r, c, sources, Direction) && !Blamed(r, c, sources, CrossVersion);
    assert !Blamed(r, c, sources, PrivateCrossFile) && !Blamed(r, c, sources, ShadowedOrMultidef);
    forall f | f in Files(sources)
      ensures !VersionViolation(r, c.key.file, f)
      ensures r.hasPrivate && r.isPrivate(c.key.file, c.key.line) ==> f == c.key.file
    {
      var s :| s in sources && s.file == f;
    }
  }

  lemma EvidenceClean(r: Repo, c: Context, sources: seq<Source>)
    requires Passes(r, c, sources)
    ensures !Caught(r, c.kind, TargetFor(r, c, sources), ShadowScan)
    ensures !Caught(r, c.kind, TargetFor(r, c, sources), OverrideScan)
  {
    var t := TargetFor(r, c, sources);
    assert TargetKey(t) == c.key;
    forall h | h in t.evidence ensures !r.shadowed(c.key, h) {
      EvidenceFound(r, c, sources, h);
    }
    assert !Blamed(r, c, sources, ExternalOverride);
  }

  /** A candidate passes scans 1, 2, 3, 5, 7 and 8 and the shadowing half of scan 6. */
  lemma CandidateIsClean(r: Repo, c: Context, sources: seq<Source>, classNames: set<string>, scan: Scan)
    requires Passes(r, c, sources) && NameAllowed(r, classNames, c.key.name) && RuledOut(scan)
    ensures !Caught(r, c.kind, TargetFor(r, c, sources), scan)
  {
    SourcesClean(r, c, sources);
    EvidenceClean(r, c, sources);
  }

  /** How the line tests of build and audit fit together: imports of both languages and plain use
      clauses are import-shaped and restricted ones are not, a dotted call is a dotted reference, and a
      restricted use clause refers to the name as its form says. */
  ghost predicate TestsAgree(r: Repo)
  {
    forall name, h ::
      && (r.shape(ImportClause, name, h) || r.fromModule(name, h).Some? || r.shape(PlainUse, name, h) ==>
          r.importish(h))
      && (r.shape(DottedCall, name, h) || r.shape(RestrictedPath, name, h) ==> DottedRef(r, name, h))
      && (r.shape(RestrictedBare, name, h) ==> !r.importish(h) && !DottedRef(r, name, h))
  }

  /** The shape half of scan 6: never for calls nor for functions, and otherwise exactly for evidence in
      another file's use clause of restricted visibility that names the target bare. */
  lemma ShapeScanIff(r: Repo, c: Context, sources: seq<Source>)
    requires Passes(r, c, sources) && TestsAgree(r)
    ensures var t := TargetFor(r, c, sources);
      Caught(r, c.kind, t, ShapeScan) <==>
        && c.kind != Calls && c.isMethod
        && exists h :: h in t.evidence && h.file != c.key.file && r.shape(RestrictedBare, c.key.name, h)
  {
    var t := TargetFor(r, c, sources);
    forall h | h in t.evidence
      ensures Shapeless(r, c.kind, t, h)
         <==> c.kind != Calls && c.isMethod && h.file != c.key.file && r.shape(RestrictedBare, c.key.name, h)
    {
      EvidenceFound(r, c, sources, h);
    }
  }

  /** Scan 4 is clean exactly when no proper caller's name is path-shaped or borne by a File or Module
      caller too. */
  lemma PseudoScanIff(r: Repo, c: Context, sources: seq<Source>)
    ensures !Caught(r, c.kind, TargetFor(r, c, sources), PseudoScan) <==>
      forall s, p :: s in sources && p in sources && !IsPseudo(s)
        ==> !r.pathShaped(s.name) && (IsPseudo(p) ==> p.name != s.name)
  {
    var t := TargetFor(r, c, sources);
    forall s | s in sources && !IsPseudo(s) ensures s.name in t.expectMembers {
    }
    if Caught(r, c.kind, t, PseudoScan) {
      var member :| member in t.expectMembers && PseudoMember(r, t, member);
      var s :| s in sources && !IsPseudo(s) && s.name == member;
      if !r.pathShaped(member) {
        var p :| p in t.callers && IsPseudo(p) && p.name == member;
        assert p in sources;
      }
    }
  }

  // ------------------------------------------------------- whole pipeline

  method BuildRuns(r: Repo, kind: Kind, runs: seq<Index>) returns (builds: seq<seq<Target>>)
    requires forall i :: 0 <= i < |runs| ==> runs[i].runs != []
    ensures |builds| == |runs|
    ensures forall i :: 0 <= i < |runs| ==>
      KeysSorted(builds[i]) && forall t :: t in builds[i] <==> Reports(r, kind, runs[i], t)
  {
    builds := [];
    for i := 0 to |runs|
      invariant |builds| == i
      invariant forall j :: 0 <= j < i ==>
        KeysSorted(builds[j]) && forall t :: t in builds[j] <==> Reports(r, kind, runs[j], t)
    {
      var build, rejected := BuildCandidates(r, kind, runs[i]);
      builds := builds + [build];
    }
  }

  /** A target every build reports is stable, and a kept target is reported by every build. */
  lemma StableIffReported(r: Repo, kind: Kind, runs: seq<Index>, builds: seq<seq<Target>>, t: Target)
    requires |builds| == |runs| > 0
    requires forall i :: 0 <= i < |runs| ==> runs[i].runs != [] && KeysSorted(builds[i])
    requires forall i :: 0 <= i < |runs| ==> forall u :: u in builds[i] <==> Reports(r, kind, runs[i], u)
    ensures t in Filter(builds[0], StableTarget(builds))
      <==> forall i :: 0 <= i < |runs| ==> Reports(r, kind, runs[i], t)
  {
    if t in Filter(builds[0], StableTarget(builds)) {
      var agreed := AgreedEntry(builds, t);
      KeyUnique(builds[0], agreed, t);
    }
    if forall i :: 0 <= i < |runs| ==> Reports(r, kind, runs[i], t) {
      InAllIsStable(builds, t);
    }
  }

  lemma KeyUnique(targets: seq<Target>, a: Target, b: Target)
    requires KeysSorted(targets) && a in targets && b in targets && TargetKey(a) == TargetKey(b)
    ensures a == b
  {
    var i :| 0 <= i < |targets| && targets[i] == a;
    var j :| 0 <= j < |targets| && targets[j] == b;
    assert i == j;
  }

  lemma InAllIsStable(builds: seq<seq<Target>>, t: Target)
    requires builds != [] && forall i :: 0 <= i < |builds| ==> KeysSorted(builds[i]) && t in builds[i]
    ensures t in Filter(builds[0], StableTarget(builds))
  {
    var key := TargetKey(t);
    forall i | 0 <= i < |builds| ensures key in ByTargetKey(builds[i]) && ByTargetKey(builds[i])[key] == t {
      ByTargetKeyHolds(builds[i], key);
      KeyUnique(builds[i], ByTargetKey(builds[i])[key], t);
    }
  }

  lemma KeysSortedFront(targets: seq<Target>, n: nat, t: Target)
    requires KeysSorted(targets) && n < |targets| && t in targets[..n]
    ensures TargetKey(t) != TargetKey(targets[n]) && KeyLe(TargetKey(t), TargetKey(targets[n]))
  {
    var i :| 0 <= i < n && targets[..n][i] == t;
    assert targets[i] == t;
  }

  lemma {:induction false} FilterKeysSorted(targets: seq<Target>, p: Target -> bool)
    requires KeysSorted(targets)
    ensures KeysSorted(Filter(targets, p))
  {
    if targets != [] {
      var n := |targets| - 1;
      FilterKeysSorted(targets[..n], p);
      if p(targets[n]) {
        forall t | t in Filter(targets[..n], p)
          ensures TargetKey(t) != TargetKey(targets[n]) && KeyLe(TargetKey(t), TargetKey(targets[n]))
        {
          KeysSortedFront(targets, n, t);
        }
        KeysSortedAppend(Filter(targets[..n], p), targets[n]);
      }
    }
  }

  lemma ReportedIsClean(r: Repo, kind: Kind, x: Index, t: Target, scan: Scan)
    requires x.runs != [] && Reports(r, kind, x, t)
    ensures RuledOut(scan) ==> !Caught(r, kind, t, scan)
    ensures scan == ShapeScan && kind == Calls && TestsAgree(r) ==> !Caught(r, kind, t, scan)
  {
    var group := EdgesOf(Intersection(x.runs), TargetKey(t));
    var c, sources := ContextFor(kind, x, TargetKey(t), group), DedupSources(SourcesOf(group));
    assert Passes(r, c, sources) && t == TargetFor(r, c, sources);
    if RuledOut(scan) {
      CandidateIsClean(r, c, sources, x.classNames, scan);
    }
    if TestsAgree(r) {
      ShapeScanIff(r, c, sources);
    }
  }

  /** The caller files the audit reads are the files of all edges into the target that every run of the
      build reported, although duplicates were dropped. */
  lemma ReportedFiles(r: Repo, kind: Kind, x: Index, t: Target)
    requires x.runs != [] && Reports(r, kind, x, t)
    ensures CallerFiles(t) == Files(SourcesOf(EdgesOf(Intersection(x.runs), TargetKey(t))))
  {
    var group := EdgesOf(Intersection(x.runs), TargetKey(t));
    var c, sources := ContextFor(kind, x, TargetKey(t), group), DedupSources(SourcesOf(group));
    CallerFilesAreSourceFiles(r, c, sources);
    DedupSourcesFiles(SourcesOf(group));
  }

  /** Several independent builds, their intersection, the usage floor, and the audit of what is
      written. What is kept is exactly what every build reports alike, in order. Whatever the oracle
      reports, the audit hits on scan 4 and on the shape half of scan 6 at most, and on the latter not
      for calls. */
  method BuildAndAudit(r: Repo, kind: Kind, runs: seq<Index>)
    returns (kept: seq<Target>, written: seq<Target>, hits: set<(Target, Scan)>, total: nat)
    requires runs != [] && forall i :: 0 <= i < |runs| ==> runs[i].runs != []
    ensures forall t :: t in kept <==> forall i :: 0 <= i < |runs| ==> Reports(r, kind, runs[i], t)
    ensures KeysSorted(kept)
    ensures written == if kind == Usage && |kept| < MIN_USAGE_SURVIVORS then [] else kept
    ensures forall t, scan :: (t, scan) in hits <==> t in written && Caught(r, kind, t, scan)
    ensures total == Sum(written, HitsOn(r, kind))
    ensures forall t, scan :: (t, scan) in hits ==> scan == PseudoScan || scan == ShapeScan
    ensures kind == Calls && TestsAgree(r) ==> forall t, scan :: (t, scan) in hits ==> scan == PseudoScan
  {
    var builds := BuildRuns(r, kind, runs);
    var dropped;
    kept, dropped := StabilityIntersect(builds);
    FilterKeysSorted(builds[0], StableTarget(builds));
    written := UsageFloor(kind, kept);
    hits, total := Audit(r, kind, written);
    forall t ensures t in kept <==> forall i :: 0 <= i < |runs| ==> Reports(r, kind, runs[i], t) {
      StableIffReported(r, kind, runs, builds, t);
    }
    forall t, scan | (t, scan) in hits
      ensures scan == PseudoScan || scan == ShapeScan
      ensures kind == Calls && TestsAgree(r) ==> scan == PseudoScan
    {
      assert t in kept && Reports(r, kind, runs[0], t);
      ReportedIsClean(r, kind, runs[0], t, scan);
    }
  }

  lemma {:induction false} ByTargetKeyHolds(targets: seq<Target>, key: Key)
    ensures key in ByTargetKey(targets) ==>
      ByTargetKey(targets)[key] in targets && TargetKey(ByTargetKey(targets)[key]) == key
    ensures forall t :: t in targets && TargetKey(t) == key ==> key in ByTargetKey(targets)
  {
    if targets != [] {
      ByTargetKeyHolds(targets[..|targets| - 1], key);
      assert targets == targets[..|targets| - 1] + [targets[|targets| - 1]];
    }
  }

  /** The entry all builds agree on under a kept target's key. */
  lemma AgreedEntry(builds: seq<seq<Target>>, t: Target) returns (agreed: Target)
    requires builds != [] && t in Filter(builds[0], StableTarget(builds))
    ensures TargetKey(agreed) == TargetKey(t)
    ensures forall i :: 0 <= i < |builds| ==> agreed in builds[i]
  {
    var key := TargetKey(t);
    var first := ByTargetKey(builds[0]);
    var others := seq(|builds| - 1, i requires 0 <= i < |builds| - 1 => ByTargetKey(builds[i + 1]));
    assert Stable(key, first, others);
    agreed := first[key];
    forall i | 0 <= i < |builds| ensures agreed in builds[i] {
      ByTargetKeyHolds(builds[i], key);
      if i > 0 {
        assert others[i - 1] == ByTargetKey(builds[i]);
      }
    }
    ByTargetKeyHolds(builds[0], key);
  }

  // ---------------------------------------- scans the filters do not imply

  /** A repository without auxiliary directories, versions, private lines, reserved names or Java; its
      line tests all fail but `shapes`. */
  function PlainRepo(hits: seq<Hit>, shapes: Shape -> bool): Repo
  {
    Repo(
      file => [file], _ => false, _ => true, file => file, false, _ => ("", ""),
      name => name, _ => false, {}, {}, _ => true,
      false, false, false,
      (_, _) => false, (_, _) => true, (_, _) => None, _ => hits, _ => 1,
      _ => false, (shape, _, _) => shapes(shape), _ => false, (_, _) => None, (_, _, _) => false,
      (_, _) => false, (_, _) => false, (_, _, _) => false, (_, _, _) => 0)
  }

  lemma PlainPasses(hits: seq<Hit>, shapes: Shape -> bool, c: Context, sources: seq<Source>)
    requires hits != [] && c.defs == 1 && c.owner.None? && |c.key.name| >= MIN_NAME_LEN && c.key.name[0] != '_'
    requires forall s :: s in sources ==>
      !("Module" in s.labels && s.line == 0) && EvidenceFor(PlainRepo(hits, shapes), c, s).Some?
    ensures Passes(PlainRepo(hits, shapes), c, sources) && NameAllowed(PlainRepo(hits, shapes), {}, c.key.name)
  {
    var r := PlainRepo(hits, shapes);
    assert AuxRoot(r, r.parts(c.key.file)) == None;
    forall reason: Reason ensures !Blamed(r, c, sources, reason) {
    }
  }

  lemma EvidenceExists(r: Repo, c: Context, s: Source, h: Hit)
    requires h in r.hits(c.key.name) && Admissible(r, c, s, h)
    ensures EvidenceFor(r, c, s).Some?
  {
  }

  function OneShape(shape: Shape): Shape -> bool { (s: Shape) => s == shape }

  /** A build whose single run reports one edge into `key` from each source. */
  function OneBuild(key: Key, end: nat, sources: seq<Source>, methods: set<Key>): Index
  {
    Index([EdgesFrom(key, end, sources)], [key.name], {}, map[], methods)
  }

  function EdgesFrom(key: Key, end: nat, sources: seq<Source>): seq<Edge>
  {
    seq(|sources|, i requires 0 <= i < |sources| => Edge(key, end, sources[i]))
  }

  ghost predicate SourcesApart(sources: seq<Source>)
  {
    forall i, j :: 0 <= i < j < |sources| ==> !SameSource(sources[i], sources[j])
  }

  lemma {:induction false} ApartEdgesStay(edges: seq<Edge>)
    requires Apart(edges)
    ensures DistinctEdges(edges) == edges
  {
    if edges != [] {
      var n := |edges| - 1;
      ApartEdgesStay(edges[..n]);
      assert edges == edges[..n] + [edges[n]];
      forall f | f in edges[..n] ensures !SameEdge(f, edges[n]) {
        var i :| 0 <= i < n && edges[..n][i] == f;
        assert edges[i] == f;
      }
    }
  }

  lemma {:induction false} EdgesFromOne(edges: seq<Edge>, key: Key)
    requires forall e :: e in edges ==> e.target == key
    ensures EdgesOf(edges, key) == edges
  {
    if edges != [] {
      var n := |edges| - 1;
      EdgesFromOne(edges[..n], key);
      assert edges == edges[..n] + [edges[n]];
    }
  }

  lemma {:induction false} ApartSourcesStay(sources: seq<Source>)
    requires SourcesApart(sources)
    ensures Dedup(sources) == sources
  {
    if sources != [] {
      var n := |sources| - 1;
      ApartSourcesStay(sources[..n]);
      assert sources == sources[..n] + [sources[n]];
      forall s | s in sources[..n] ensures !SameSource(s, sources[n]) {
        var i :| 0 <= i < n && sources[..n][i] == s;
        assert sources[i] == s;
      }
    }
  }

  lemma SortedSourcesStay(sources: seq<Source>)
    requires SourcesApart(sources)
    ensures forall s :: s in DedupSources(sources) <==> s in sources
  {
    ApartSourcesStay(sources);
    SourceLeIsOrder();
    SortSorts(sources, SourceLe);
    forall s ensures s in DedupSources(sources) <==> s in sources {
      assert s in multiset(DedupSources(sources)) <==> s in multiset(sources);
    }
  }

  lemma {:induction false} EdgesFromApart(key: Key, end: nat, sources: seq<Source>)
    requires SourcesApart(sources)
    ensures Apart(EdgesFrom(key, end, sources)) && SourcesOf(EdgesFrom(key, end, sources)) == sources
  {
  }

  lemma {:induction false} OneRun(edges: seq<Edge>)
    requires Apart(edges)
    ensures Intersection([edges]) == edges
  {
    ApartEdgesStay(edges);
  }

  lemma {:induction false} OneBuildGroup(key: Key, end: nat, sources: seq<Source>, methods: set<Key>)
    requires sources != [] && SourcesApart(sources)
    ensures var edges := EdgesFrom(key, end, sources);
      && Intersection(OneBuild(key, end, sources, methods).runs) == edges
      && EdgesOf(edges, key) == edges && SourcesOf(edges) == sources && IsTarget(edges, key)
  {
    var edges := EdgesFrom(key, end, sources);
    EdgesFromApart(key, end, sources);
    OneRun(edges);
    EdgesFromOne(edges, key);
    assert edges[0] in edges;
  }

  function OneContext(kind: Kind, key: Key, end: nat, methods: set<Key>): Context
  {
    Context(kind, key, end, None, key in methods, 1)
  }

  /** Such a build reports its target if the target passes. */
  lemma OneBuildReports(r: Repo, kind: Kind, key: Key, end: nat, sources: seq<Source>, methods: set<Key>)
    requires sources != [] && SourcesApart(sources) && NameAllowed(r, {}, key.name)
    requires Passes(r, OneContext(kind, key, end, methods), DedupSources(sources))
    ensures Reports(r, kind, OneBuild(key, end, sources, methods),
                    TargetFor(r, OneContext(kind, key, end, methods), DedupSources(sources)))
  {
    var x, edges := OneBuild(key, end, sources, methods), EdgesFrom(key, end, sources);
    OneBuildGroup(key, end, sources, methods);
    assert [key.name][..0] == [] && Occurrences(x.defs, key.name) == 1;
    assert ContextFor(kind, x, key, edges) == OneContext(kind, key, end, methods);
  }

  const TARGET := Key("target", "a", 1)
  const CALL_LINES := [Hit("a", 6), Hit("b", 3)]
  const FUNCTION_CALLER := Source("caller", "a", 5, 9, {"Function"})
  const MODULE_CALLER := Source("caller", "b", 1, 9, {"Module"})

  lemma CallersFound()
    ensures var r, c := PlainRepo(CALL_LINES, OneShape(PlainCall)), OneContext(Calls, TARGET, 1, {});
      EvidenceFor(r, c, FUNCTION_CALLER).Some? && EvidenceFor(r, c, MODULE_CALLER).Some?
  {
    var r, c := PlainRepo(CALL_LINES, OneShape(PlainCall)), OneContext(Calls, TARGET, 1, {});
    assert CALL_LINES[0] == Hit("a", 6) && CALL_LINES[1] == Hit("b", 3);
    EvidenceExists(r, c, FUNCTION_CALLER, Hit("a", 6));
    EvidenceExists(r, c, MODULE_CALLER, Hit("b", 3));
  }

  const CALLERS := [FUNCTION_CALLER, MODULE_CALLER]

  lemma CallersApart()
    ensures SourcesApart(CALLERS) && |CALLERS| == 2
    ensures forall s :: s in DedupSources(CALLERS) <==> s == FUNCTION_CALLER || s == MODULE_CALLER
  {
    assert CALLERS[0] == FUNCTION_CALLER && CALLERS[1] == MODULE_CALLER && FUNCTION_CALLER.file != MODULE_CALLER.file;
    SortedSourcesStay(CALLERS);
  }

  lemma CallersPass()
    ensures var r := PlainRepo(CALL_LINES, OneShape(PlainCall));
      Passes(r, OneContext(Calls, TARGET, 1, {}), DedupSources(CALLERS)) && NameAllowed(r, {}, TARGET.name)
  {
    var r, c := PlainRepo(CALL_LINES, OneShape(PlainCall)), OneContext(Calls, TARGET, 1, {});
    CallersApart();
    CallersFound();
    forall s | s in DedupSources(CALLERS) ensures !("Module" in s.labels && s.line == 0) && EvidenceFor(r, c, s).Some? {
      assert s == FUNCTION_CALLER || s == MODULE_CALLER;
    }
    PlainPasses(CALL_LINES, OneShape(PlainCall), c, DedupSources(CALLERS));
  }

  /** Scan 4 is not implied: a build reports a target that a function and a module of one name call, and
      the scan catches it. */
  lemma PseudoCallerEscapesFilters() returns (r: Repo, x: Index, t: Target)
    ensures x.runs != [] && Reports(r, Calls, x, t) && Caught(r, Calls, t, PseudoScan)
  {
    var c, sources := OneContext(Calls, TARGET, 1, {}), DedupSources(CALLERS);
    r, x := PlainRepo(CALL_LINES, OneShape(PlainCall)), OneBuild(TARGET, 1, CALLERS, {});
    t := TargetFor(r, c, sources);
    CallersApart();
    CallersPass();
    OneBuildReports(r, Calls, TARGET, 1, CALLERS, {});
    PseudoScanIff(r, c, sources);
    assert !IsPseudo(FUNCTION_CALLER) && IsPseudo(MODULE_CALLER);
  }

  const USE_LINES := [Hit("b", 3)]
  const REEXPORTER := Source("other", "b", 1, 9, {"Function"})

  lemma UseFound()
    ensures EvidenceFor(PlainRepo(USE_LINES, OneShape(RestrictedBare)),
                        OneContext(Imports, TARGET, 1, {TARGET}), REEXPORTER)
         == Some(Hit("b", 3))
  {
    assert USE_LINES[0] == Hit("b", 3);
    EvidenceExists(PlainRepo(USE_LINES, OneShape(RestrictedBare)), OneContext(Imports, TARGET, 1, {TARGET}), REEXPORTER,
                   Hit("b", 3));
  }

  /** Nor is the shape half of scan 6: a build reports a method that another file re-exports by a
      restricted use clause, and the scan catches it. */
  lemma BareUseEscapesFilters() returns (r: Repo, x: Index, t: Target)
    ensures x.runs != [] && Reports(r, Imports, x, t) && Caught(r, Imports, t, ShapeScan) && TestsAgree(r)
  {
    var callers := [REEXPORTER];
    var c, sources := OneContext(Imports, TARGET, 1, {TARGET}), DedupSources(callers);
    r, x := PlainRepo(USE_LINES, OneShape(RestrictedBare)), OneBuild(TARGET, 1, callers, {TARGET});
    t := TargetFor(r, c, sources);
    ReexportApart();
    ReexportPasses();
    ReexportAgrees();
    OneBuildReports(r, Imports, TARGET, 1, callers, {TARGET});
    ReexportCaught();
  }

  lemma ReexportApart()
    ensures SourcesApart([REEXPORTER])
    ensures forall s :: s in DedupSources([REEXPORTER]) <==> s == REEXPORTER
  {
    SortedSourcesStay([REEXPORTER]);
  }

  lemma ReexportPasses()
    ensures var r := PlainRepo(USE_LINES, OneShape(RestrictedBare));
      && Passes(r, OneContext(Imports, TARGET, 1, {TARGET}), DedupSources([REEXPORTER]))
      && NameAllowed(r, {}, TARGET.name)
  {
    var sources := DedupSources([REEXPORTER]);
    ReexportApart();
    UseFound();
    assert !("Module" in REEXPORTER.labels);
    PlainPasses(USE_LINES, OneShape(RestrictedBare), OneContext(Imports, TARGET, 1, {TARGET}), sources);
  }

  lemma ReexportAgrees()
    ensures TestsAgree(PlainRepo(USE_LINES, OneShape(RestrictedBare)))
  {
  }

  lemma ReexportCaught()
    ensures var r, c := PlainRepo(USE_LINES, OneShape(RestrictedBare)), OneContext(Imports, TARGET, 1, {TARGET});
      Caught(r, Imports, TargetFor(r, c, DedupSources([REEXPORTER])), ShapeScan)
  {
    var r, c := PlainRepo(USE_LINES, OneShape(RestrictedBare)), OneContext(Imports, TARGET, 1, {TARGET});
    ReexportApart();
    ReexportPasses();
    ReexportAgrees();
    UseFound();
    EvidenceWritten(r, c, DedupSources([REEXPORTER]), REEXPORTER);
    ShapeScanIff(r, c, DedupSources([REEXPORTER]));
  }

  lemma EvidenceWritten(r: Repo, c: Context, sources: seq<Source>, s: Source)
    requires s in sources && EvidenceFor(r, c, s).Some?
    ensures EvidenceFor(r, c, s).value in TargetFor(r, c, sources).evidence
  {
    var i :| 0 <= i < |sources| && sources[i] == s;
    assert TargetFor(r, c, sources).evidence[i] == EvidenceFor(r, c, s).value;
  }

  /** A target that every one of several builds reports and a scan catches is a hit of the whole
      pipeline. */
  method CaughtIsHit(r: Repo, kind: Kind, x: Index, t: Target, scan: Scan) returns (hits: set<(Target, Scan)>)
    requires x.runs != [] && Reports(r, kind, x, t) && Caught(r, kind, t, scan) && kind != Usage
    ensures (t, scan) in hits
  {
    var kept, written, total;
    kept, written, hits, total := BuildAndAudit(r, kind, [x]);
  }
}
