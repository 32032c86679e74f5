/** The SBOM as the file the two release commands work on. */
module SbomFile {
  import opened Sequences
  import opened Strings
  import opened Sbom

  class SbomDocument {
    var base: Base
    var packages: seq<Package>
    var files: seq<FileEntry>
    var relationships: seq<Relationship>
    var described: seq<string>

    ghost function Value(): Doc
      reads this
    {
      Doc(base, packages, files, relationships, described)
    }

    constructor (d: Doc)
      ensures Value() == d
    {
      base, packages, files, relationships, described := d.base, d.packages, d.files, d.relationships, d.described;
    }

    /** Rewrites the document for the given dist files, lock and target, then verifies it. Nothing is
        written when the base or an input is refused; a rewrite that fails verification stays. */
    method Augment(h: Hashes, inp: Inputs) returns (ok: bool)
      modifies this
      ensures var writes := BaseValid(old(base)) && InputsReadable(inp) && ChecksumsWellFormed(inp.lock);
        && (writes ==> Value() == Augmented(h, old(Value()), inp))
        && (!writes ==> Value() == old(Value()))
        && (ok <==> writes && Accepts(h, Value(), inp))
    {
      if !BaseValid(base) || !LockParses(inp.lock) || inp.dist == [] {
        return false;
      }
      if |WorkspaceGreppy(inp.lock)| != 1 {
        return false;
      }
      var wellFormed, d := RewriteLists(h, base, packages, files, relationships, described, inp);
      if !wellFormed {
        return false;
      }
      packages, files, relationships, described := d.packages, d.files, d.relationships, d.described;
      ok := Verify(h, inp);
    }

    /** Verifies the document against dist, lock and target read anew. */
    method Verify(h: Hashes, inp: Inputs) returns (ok: bool)
      ensures ok <==> Accepts(h, Value(), inp)
    {
      if !BaseValid(base) || !InputsReadable(inp) {
        return false;
      }
      var unique := UniqueIds(PackageIds(packages) + FileIds(files));
      if !unique {
        return false;
      }
      var packageById := PackageMap(packages);
      var fileById := FileMap(files);
      if RELEASE_PACKAGE_ID !in packageById || !RootOk(h, packageById[RELEASE_PACKAGE_ID], inp)
         || RELEASE_PACKAGE_ID !in described
      {
        return false;
      }
      if Related(relationships, "CONTAINS") != (set f | f in inp.dist :: FileId(h, f)) {
        return false;
      }
      ok := AllFilesOk(h, inp.dist, fileById);
      if ok {
        ok := AllLocked(h, inp.lock, packageById, Related(relationships, "OTHER"));
      }
    }
  }

  /** Filters the old lists and appends the new entries; stops at a malformed checksum. */
  method RewriteLists(h: Hashes, base: Base, packages: seq<Package>, files: seq<FileEntry>,
                      relationships: seq<Relationship>, described: seq<string>, inp: Inputs)
    returns (ok: bool, d: Doc)
    requires InputsReadable(inp)
    ensures ok <==> ChecksumsWellFormed(inp.lock)
    ensures ok ==> d == Augmented(h, Doc(base, packages, files, relationships, described), inp)
  {
    var ids := GeneratedIds(h, inp);
    var ps := Filter(packages, ForeignPackage(ids));
    var fs := Filter(files, ForeignFile(ids));
    var rs := Filter(relationships, ForeignRelationship(ids));
    var ds := Filter(described, ForeignId(ids)) + [RELEASE_PACKAGE_ID];
    ps := ps + [ReleasePackage(h, inp)];
    fs, rs := AppendFiles(h, inp.dist, fs, rs);
    ok, ps, rs := AppendLock(h, inp.lock, ps, rs);
    d := Doc(base, ps, fs, rs, ds);
    Assembled(Doc(base, packages, files, relationships, described), ids, Added(h, inp),
              ContainsAll(h, inp.dist), LocksAll(h, inp.lock));
  }

  /** The lists as they are built up are those of the rewrite. */
  lemma Assembled(d: Doc, ids: set<string>, parts: Parts, contains: seq<Relationship>, locks: seq<Relationship>)
    requires parts.relationships == contains + locks
    ensures Rewritten(d, ids, parts) == Doc(
      d.base, Filter(d.packages, ForeignPackage(ids)) + [parts.release] + parts.entries,
      Filter(d.files, ForeignFile(ids)) + parts.files,
      Filter(d.relationships, ForeignRelationship(ids)) + contains + locks,
      Filter(d.described, ForeignId(ids)) + [RELEASE_PACKAGE_ID])
  {
    var kept := Filter(d.relationships, ForeignRelationship(ids));
    assert kept + contains + locks == kept + (contains + locks);
  }

  method UniqueIds(ids: seq<string>) returns (ok: bool)
    ensures ok <==> IdsOk(ids)
  {
    var seen: set<string> := {};
    for i := 0 to |ids|
      invariant IdsOk(ids[..i])
      invariant forall x :: x in seen <==> x in ids[..i]
    {
      if ids[i] == "" || ids[i] in seen {
        assert ids[i] in ids[..i] || ids[i] == "";
        return false;
      }
      seen := seen + {ids[i]};
    }
    assert ids[..|ids|] == ids;
    ok := true;
  }

  method PackageMap(packages: seq<Package>) returns (byId: map<string, Package>)
    ensures byId == PackageById(packages)
  {
    byId := map[];
    for i := 0 to |packages|
      invariant byId == PackageById(packages[..i])
    {
      assert packages[..i + 1][..i] == packages[..i];
      byId := byId[packages[i].id := packages[i]];
    }
    assert packages[..|packages|] == packages;
  }

  method FileMap(files: seq<FileEntry>) returns (byId: map<string, FileEntry>)
    ensures byId == FileById(files)
  {
    byId := map[];
    for i := 0 to |files|
      invariant byId == FileById(files[..i])
    {
      assert files[..i + 1][..i] == files[..i];
      byId := byId[files[i].id := files[i]];
    }
    assert files[..|files|] == files;
  }

  method AppendFiles(h: Hashes, dist: seq<DistFile>, fs: seq<FileEntry>, rs: seq<Relationship>)
    returns (fs': seq<FileEntry>, rs': seq<Relationship>)
    ensures fs' == fs + FileEntries(h, dist) && rs' == rs + ContainsAll(h, dist)
  {
    fs', rs' := fs, rs;
    for i := 0 to |dist|
      invariant fs' == fs + FileEntries(h, dist[..i]) && rs' == rs + ContainsAll(h, dist[..i])
    {
      fs' := fs' + [FileEntryFor(h, dist[i])];
      rs' := rs' + [ContainsFile(h, dist[i])];
    }
    assert dist[..|dist|] == dist;
  }

  /** Stops at the first malformed checksum. */
  method AppendLock(h: Hashes, lock: seq<LockPackage>, ps: seq<Package>, rs: seq<Relationship>)
    returns (ok: bool, ps': seq<Package>, rs': seq<Relationship>)
    ensures ok <==> ChecksumsWellFormed(lock)
    ensures ok ==> ps' == ps + LockEntries(h, lock) && rs' == rs + LocksAll(h, lock)
  {
    ps', rs' := ps, rs;
    for i := 0 to |lock|
      invariant ps' == ps + LockEntries(h, lock[..i]) && rs' == rs + LocksAll(h, lock[..i])
      invariant ChecksumsWellFormed(lock[..i])
    {
      if lock[i].checksum.Some? && !IsSha256Text(lock[i].checksum.value) {
        return false, ps', rs';
      }
      ps' := ps' + [LockEntryFor(h, lock[i])];
      rs' := rs' + [LocksPackage(h, lock[i])];
    }
    assert lock[..|lock|] == lock;
    ok := true;
  }

  method AllFilesOk(h: Hashes, dist: seq<DistFile>, byId: map<string, FileEntry>) returns (ok: bool)
    ensures ok <==> forall i :: 0 <= i < |dist| ==> FileOk(h, byId, dist[i])
  {
    for i := 0 to |dist|
      invariant forall j :: 0 <= j < i ==> FileOk(h, byId, dist[j])
    {
      if !FileOk(h, byId, dist[i]) {
        return false;
      }
    }
    ok := true;
  }

  method AllLocked(h: Hashes, lock: seq<LockPackage>, byId: map<string, Package>, locked: set<string>)
    returns (ok: bool)
    ensures ok <==> forall i :: 0 <= i < |lock| ==> LockOk(h, byId, locked, lock[i])
  {
    for i := 0 to |lock|
      invariant forall j :: 0 <= j < i ==> LockOk(h, byId, locked, lock[j])
    {
      if !LockOk(h, byId, locked, lock[i]) {
        return false;
      }
    }
    ok := true;
  }
}
