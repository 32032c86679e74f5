/** Rewriting a release SBOM from the dist files and Cargo.lock, and the separate verification of the
    result. Digest functions are parameters, assumed injective where that matters. */
module Sbom {
  import opened Sequences
  import opened Strings

  const RELEASE_PACKAGE_ID := "SPDXRef-Package-greppy-release"

  /** `short` is the first 24 digits of SHA-256, `identity` the JSON text of a lock identity. */
  datatype Hashes = Hashes(
    sha1: string -> string, sha256: string -> string, short: string -> string,
    identity: (string, string, string) -> string)

  ghost predicate Injective(h: Hashes)
  {
    && (forall a, b :: h.short(a) == h.short(b) ==> a == b)
    && (forall a, b, c, a', b', c' :: h.identity(a, b, c) == h.identity(a', b', c') ==> a == a' && b == b' && c == c')
  }

  // -------------------------------------------------------------- inputs

  datatype DistFile = DistFile(relative: string, content: string)

  datatype LockPackage = LockPackage(name: string, version: string, source: Option<string>, checksum: Option<string>)

  datatype Inputs = Inputs(dist: seq<DistFile>, lock: seq<LockPackage>, target: string)

  function SourceOf(p: LockPackage): string
  {
    if p.source.Some? then p.source.value else "workspace"
  }

  predicate IsWorkspaceGreppy(p: LockPackage) { p.name == "greppy" && p.source.None? }

  function WorkspaceGreppy(lock: seq<LockPackage>): seq<LockPackage>
  {
    Filter(lock, IsWorkspaceGreppy)
  }

  predicate LockParses(lock: seq<LockPackage>)
  {
    lock != [] && forall i :: 0 <= i < |lock| ==> lock[i].name != "" && lock[i].version != ""
  }

  /** What both commands demand of their inputs. */
  predicate InputsReadable(inp: Inputs)
  {
    LockParses(inp.lock) && inp.dist != [] && |WorkspaceGreppy(inp.lock)| == 1
  }

  predicate ChecksumsWellFormed(lock: seq<LockPackage>)
  {
    forall i :: 0 <= i < |lock| ==> lock[i].checksum.Some? ==> IsSha256Text(lock[i].checksum.value)
  }

  function GreppyVersion(lock: seq<LockPackage>): string
    requires |WorkspaceGreppy(lock)| == 1
  {
    WorkspaceGreppy(lock)[0].version
  }

  function CargoId(h: Hashes, p: LockPackage): string
  {
    "SPDXRef-CargoLock-" + h.short(h.identity(p.name, p.version, SourceOf(p)))
  }

  function FileId(h: Hashes, f: DistFile): string
  {
    "SPDXRef-ReleaseFile-" + h.short(f.relative)
  }

  /** The generated identifiers come in three families that never overlap. */
  lemma IdFamilies(h: Hashes, p: LockPackage, f: DistFile)
    ensures CargoId(h, p) != FileId(h, f)
    ensures CargoId(h, p) != RELEASE_PACKAGE_ID && FileId(h, f) != RELEASE_PACKAGE_ID
    ensures CargoId(h, p) != "" && FileId(h, f) != ""
  {
    assert CargoId(h, p)[8] == 'C' && FileId(h, f)[8] == 'R' && RELEASE_PACKAGE_ID[8] == 'P';
  }

  lemma FileIdInjective(h: Hashes, f: DistFile, g: DistFile)
    requires Injective(h) && FileId(h, f) == FileId(h, g)
    ensures f.relative == g.relative
  {
    var n := |"SPDXRef-ReleaseFile-"|;
    assert FileId(h, f)[n..] == h.short(f.relative) && FileId(h, g)[n..] == h.short(g.relative);
  }

  ghost predicate SameIdentity(p: LockPackage, q: LockPackage)
  {
    p.name == q.name && p.version == q.version && SourceOf(p) == SourceOf(q)
  }

  lemma CargoIdInjective(h: Hashes, p: LockPackage, q: LockPackage)
    requires Injective(h)
    ensures CargoId(h, p) == CargoId(h, q) <==> SameIdentity(p, q)
  {
    var n := |"SPDXRef-CargoLock-"|;
    assert CargoId(h, p)[n..] == h.short(h.identity(p.name, p.version, SourceOf(p)));
    assert CargoId(h, q)[n..] == h.short(h.identity(q.name, q.version, SourceOf(q)));
  }

  // ------------------------------------------------------------ document

  datatype Checksum = Checksum(algorithm: string, value: string)

  /** A missing identifier reads as the empty string. */
  datatype Package = Package(
    id: string, name: string, version: string, filesAnalyzed: bool, code: Option<string>,
    comment: string, checksums: seq<Checksum>)

  datatype FileEntry = FileEntry(id: string, fileName: string, checksums: seq<Checksum>)

  datatype Relationship = Relationship(element: string, kind: string, related: string, comment: string)

  datatype Base = Base(
    spdxVersion: string, id: string, dataLicense: string, docNamespace: string, creators: seq<string>)

  datatype Doc = Doc(
    base: Base, packages: seq<Package>, files: seq<FileEntry>,
    relationships: seq<Relationship>, described: seq<string>)

  predicate BaseValid(b: Base)
  {
    && (b.spdxVersion == "SPDX-2.2" || b.spdxVersion == "SPDX-2.3")
    && b.id == "SPDXRef-DOCUMENT" && b.dataLicense == "CC0-1.0"
    && ("https://" <= b.docNamespace || "http://" <= b.docNamespace)
    && b.creators != []
  }

  function ChecksumMap(cs: seq<Checksum>): map<string, string>
  {
    if cs == [] then map[]
    else ChecksumMap(cs[..|cs| - 1])[cs[|cs| - 1].algorithm := cs[|cs| - 1].value]
  }

  function PackageIds(packages: seq<Package>): seq<string>
  {
    seq(|packages|, i requires 0 <= i < |packages| => packages[i].id)
  }

  function FileIds(files: seq<FileEntry>): seq<string>
  {
    seq(|files|, i requires 0 <= i < |files| => files[i].id)
  }

  function Ids(d: Doc): seq<string>
  {
    PackageIds(d.packages) + FileIds(d.files)
  }

  predicate IdsOk(ids: seq<string>)
  {
    "" !in ids && Distinct(ids)
  }

  // ---------------------------------------------------------- generation

  function GeneratedIds(h: Hashes, inp: Inputs): set<string>
  {
    {RELEASE_PACKAGE_ID}
    + (set p | p in inp.lock :: CargoId(h, p))
    + (set f | f in inp.dist :: FileId(h, f))
  }

  function FileSha1s(h: Hashes, dist: seq<DistFile>): seq<string>
  {
    seq(|dist|, i requires 0 <= i < |dist| => h.sha1(dist[i].content))
  }

  /** The package verification code: SHA-1 over the sorted, concatenated file digests. */
  function VerificationCode(h: Hashes, dist: seq<DistFile>): string
  {
    h.sha1(Join(Sort(FileSha1s(h, dist), LexLe)))
  }

  const COMMENT_HEAD := "Greppy release package for "
  const COMMENT_MIDDLE :=
    ". File inventory is generated from dist. Cargo.lock entries describe the locked build graph and "
  const DISCLAIMER := "do not assert"
  const COMMENT_TAIL := " inclusion in the final binary."
  const OTHER_COMMENT :=
    "Resolved by Cargo.lock; the package may be target-, feature-, build-, or development-specific."

  function ReleaseComment(target: string): string
  {
    COMMENT_HEAD + target + COMMENT_MIDDLE + DISCLAIMER + COMMENT_TAIL
  }

  function ReleasePackage(h: Hashes, inp: Inputs): Package
    requires InputsReadable(inp)
  {
    Package(RELEASE_PACKAGE_ID, "greppy", GreppyVersion(inp.lock), true, Some(VerificationCode(h, inp.dist)),
            ReleaseComment(inp.target), [])
  }

  function FileEntryFor(h: Hashes, f: DistFile): FileEntry
  {
    FileEntry(FileId(h, f), "./" + f.relative,
              [Checksum("SHA1", h.sha1(f.content)), Checksum("SHA256", h.sha256(f.content))])
  }

  function ContainsFile(h: Hashes, f: DistFile): Relationship
  {
    Relationship(RELEASE_PACKAGE_ID, "CONTAINS", FileId(h, f), "")
  }

  function LockEntryFor(h: Hashes, p: LockPackage): Package
  {
    Package(CargoId(h, p), p.name, p.version, false, None, "Cargo.lock source: " + SourceOf(p),
            if p.checksum.Some? then [Checksum("SHA256", p.checksum.value)] else [])
  }

  function LocksPackage(h: Hashes, p: LockPackage): Relationship
  {
    Relationship(RELEASE_PACKAGE_ID, "OTHER", CargoId(h, p), OTHER_COMMENT)
  }

  function FileEntries(h: Hashes, dist: seq<DistFile>): seq<FileEntry>
  {
    seq(|dist|, i requires 0 <= i < |dist| => FileEntryFor(h, dist[i]))
  }

  function ContainsAll(h: Hashes, dist: seq<DistFile>): seq<Relationship>
  {
    seq(|dist|, i requires 0 <= i < |dist| => ContainsFile(h, dist[i]))
  }

  function LockEntries(h: Hashes, lock: seq<LockPackage>): seq<Package>
  {
    seq(|lock|, i requires 0 <= i < |lock| => LockEntryFor(h, lock[i]))
  }

  function LocksAll(h: Hashes, lock: seq<LockPackage>): seq<Relationship>
  {
    seq(|lock|, i requires 0 <= i < |lock| => LocksPackage(h, lock[i]))
  }

  function ForeignPackage(ids: set<string>): Package -> bool { (p: Package) => p.id !in ids }
  function ForeignFile(ids: set<string>): FileEntry -> bool { (f: FileEntry) => f.id !in ids }
  function ForeignId(ids: set<string>): string -> bool { (s: string) => s !in ids }
  function ForeignRelationship(ids: set<string>): Relationship -> bool
  {
    (r: Relationship) => r.element !in ids && r.related !in ids
  }

  /** The document without anything that carries or mentions a generated identifier. */
  function Foreign(d: Doc, ids: set<string>): Doc
  {
    Doc(d.base, Filter(d.packages, ForeignPackage(ids)), Filter(d.files, ForeignFile(ids)),
        Filter(d.relationships, ForeignRelationship(ids)), Filter(d.described, ForeignId(ids)))
  }

  /** What a rewrite puts into a document. */
  datatype Parts = Parts(
    release: Package, entries: seq<Package>, files: seq<FileEntry>, relationships: seq<Relationship>)

  function Added(h: Hashes, inp: Inputs): Parts
    requires InputsReadable(inp)
  {
    Parts(ReleasePackage(h, inp), LockEntries(h, inp.lock), FileEntries(h, inp.dist),
          ContainsAll(h, inp.dist) + LocksAll(h, inp.lock))
  }

  function Rewritten(d: Doc, ids: set<string>, parts: Parts): Doc
  {
    var kept := Foreign(d, ids);
    Doc(d.base, kept.packages + [parts.release] + parts.entries, kept.files + parts.files,
        kept.relationships + parts.relationships, kept.described + [RELEASE_PACKAGE_ID])
  }

  function Augmented(h: Hashes, d: Doc, inp: Inputs): Doc
    requires InputsReadable(inp)
  {
    Rewritten(d, GeneratedIds(h, inp), Added(h, inp))
  }

  // -------------------------------------------------------- verification

  function PackageById(packages: seq<Package>): map<string, Package>
  {
    if packages == [] then map[]
    else PackageById(packages[..|packages| - 1])[packages[|packages| - 1].id := packages[|packages| - 1]]
  }

  function FileById(files: seq<FileEntry>): map<string, FileEntry>
  {
    if files == [] then map[]
    else FileById(files[..|files| - 1])[files[|files| - 1].id := files[|files| - 1]]
  }

  predicate Releases(r: Relationship, kind: string)
  {
    r.element == RELEASE_PACKAGE_ID && r.kind == kind
  }

  function Related(relationships: seq<Relationship>, kind: string): set<string>
  {
    set r | r in relationships && Releases(r, kind) :: r.related
  }

  predicate RootOk(h: Hashes, root: Package, inp: Inputs)
    requires InputsReadable(inp)
  {
    && root.name == "greppy" && root.version == GreppyVersion(inp.lock)
    && Contains(root.comment, inp.target) && root.filesAnalyzed
    && root.code == Some(VerificationCode(h, inp.dist))
    && Contains(root.comment, DISCLAIMER)
  }

  predicate HasChecksum(cs: seq<Checksum>, algorithm: string, value: string)
  {
    algorithm in ChecksumMap(cs) && ChecksumMap(cs)[algorithm] == value
  }

  predicate FileOk(h: Hashes, files: map<string, FileEntry>, f: DistFile)
  {
    && FileId(h, f) in files
    && var e := files[FileId(h, f)];
       && e.fileName == "./" + f.relative
       && HasChecksum(e.checksums, "SHA1", h.sha1(f.content))
       && HasChecksum(e.checksums, "SHA256", h.sha256(f.content))
  }

  predicate LockOk(h: Hashes, packages: map<string, Package>, locked: set<string>, p: LockPackage)
  {
    && CargoId(h, p) in packages
    && var e := packages[CargoId(h, p)];
       && e.name == p.name && e.version == p.version
       && e.comment == "Cargo.lock source: " + SourceOf(p)
       && (p.checksum.Some? ==> HasChecksum(e.checksums, "SHA256", p.checksum.value))
       && CargoId(h, p) in locked
  }

  predicate Accepts(h: Hashes, d: Doc, inp: Inputs)
  {
    var packages, files := PackageById(d.packages), FileById(d.files);
    && BaseValid(d.base) && InputsReadable(inp)
    && IdsOk(Ids(d))
    && RELEASE_PACKAGE_ID in packages && RootOk(h, packages[RELEASE_PACKAGE_ID], inp)
    && RELEASE_PACKAGE_ID in d.described
    && Related(d.relationships, "CONTAINS") == (set f | f in inp.dist :: FileId(h, f))
    && (forall i :: 0 <= i < |inp.dist| ==> FileOk(h, files, inp.dist[i]))
    && (forall i :: 0 <= i < |inp.lock| ==> LockOk(h, packages, Related(d.relationships, "OTHER"), inp.lock[i]))
  }
}
