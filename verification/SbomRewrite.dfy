/** What rewriting an SBOM achieves: acceptance by the verifier, fixpoints and whole sequences. */
module SbomRewrite {
  import opened Sequences
  import opened Strings
  import opened Sbom

  ghost predicate LockDistinct(lock: seq<LockPackage>)
  {
    forall i, j :: 0 <= i < j < |lock| ==> !SameIdentity(lock[i], lock[j])
  }

  /** Paths below one directory never repeat. */
  ghost predicate DistDistinct(dist: seq<DistFile>)
  {
    forall i, j :: 0 <= i < j < |dist| ==> dist[i].relative != dist[j].relative
  }

  // --------------------------------------------------------- identifiers

  function CargoIds(h: Hashes, lock: seq<LockPackage>): seq<string>
  {
    seq(|lock|, i requires 0 <= i < |lock| => CargoId(h, lock[i]))
  }

  function DistIds(h: Hashes, dist: seq<DistFile>): seq<string>
  {
    seq(|dist|, i requires 0 <= i < |dist| => FileId(h, dist[i]))
  }

  lemma CargoIdsDistinct(h: Hashes, lock: seq<LockPackage>)
    requires Injective(h)
    ensures Distinct(CargoIds(h, lock)) <==> LockDistinct(lock)
  {
    forall i, j | 0 <= i < j < |lock|
      ensures CargoIds(h, lock)[i] == CargoIds(h, lock)[j] <==> SameIdentity(lock[i], lock[j])
    {
      CargoIdInjective(h, lock[i], lock[j]);
    }
  }

  lemma DistIdsDistinct(h: Hashes, dist: seq<DistFile>)
    requires Injective(h) && DistDistinct(dist)
    ensures Distinct(DistIds(h, dist))
  {
    forall i, j | 0 <= i < j < |dist| ensures DistIds(h, dist)[i] != DistIds(h, dist)[j] {
      if FileId(h, dist[i]) == FileId(h, dist[j]) {
        FileIdInjective(h, dist[i], dist[j]);
      }
    }
  }

  /** All generated identifiers in the order they are added. */
  function NewIds(h: Hashes, inp: Inputs): seq<string>
  {
    [RELEASE_PACKAGE_ID] + CargoIds(h, inp.lock) + DistIds(h, inp.dist)
  }

  lemma NewIdsOk(h: Hashes, inp: Inputs)
    requires Injective(h) && DistDistinct(inp.dist)
    ensures forall x :: x in NewIds(h, inp) <==> x in GeneratedIds(h, inp)
    ensures "" !in NewIds(h, inp)
    ensures Distinct(NewIds(h, inp)) <==> LockDistinct(inp.lock)
  {
    var cargo, dist := CargoIds(h, inp.lock), DistIds(h, inp.dist);
    NewIdsAreGenerated(h, inp);
    CargoIdsDistinct(h, inp.lock);
    DistIdsDistinct(h, inp.dist);
    forall i, j | 0 <= i < |cargo| && 0 <= j < |dist|
      ensures cargo[i] != dist[j] && cargo[i] != RELEASE_PACKAGE_ID && dist[j] != RELEASE_PACKAGE_ID
      ensures cargo[i] != "" && dist[j] != ""
    {
      IdFamilies(h, inp.lock[i], inp.dist[j]);
    }
    NewIdsFamilies(h, inp);
    DistinctConcat([RELEASE_PACKAGE_ID], cargo);
    DistinctConcat([RELEASE_PACKAGE_ID] + cargo, dist);
  }

  lemma NewIdsFamilies(h: Hashes, inp: Inputs)
    ensures forall x :: x in CargoIds(h, inp.lock) ==> x != RELEASE_PACKAGE_ID && x != "" && x !in DistIds(h, inp.dist)
    ensures forall x :: x in DistIds(h, inp.dist) ==> x != RELEASE_PACKAGE_ID && x != ""
  {
    forall x | x in CargoIds(h, inp.lock)
      ensures x != RELEASE_PACKAGE_ID && x != "" && x !in DistIds(h, inp.dist)
    {
      var i :| 0 <= i < |inp.lock| && CargoId(h, inp.lock[i]) == x;
      IdFamilies(h, inp.lock[i], DistFile("", ""));
      forall j | 0 <= j < |inp.dist| ensures FileId(h, inp.dist[j]) != x {
        IdFamilies(h, inp.lock[i], inp.dist[j]);
      }
    }
    forall x | x in DistIds(h, inp.dist) ensures x != RELEASE_PACKAGE_ID && x != "" {
      var j :| 0 <= j < |inp.dist| && FileId(h, inp.dist[j]) == x;
      IdFamilies(h, LockPackage("", "", None, None), inp.dist[j]);
    }
  }

  lemma NewIdsAreGenerated(h: Hashes, inp: Inputs)
    ensures forall x :: x in NewIds(h, inp) <==> x in GeneratedIds(h, inp)
  {
    forall x | x in GeneratedIds(h, inp) ensures x in NewIds(h, inp) {
      if p :| p in inp.lock && CargoId(h, p) == x {
        var i :| 0 <= i < |inp.lock| && inp.lock[i] == p;
        assert CargoIds(h, inp.lock)[i] == x;
      } else if f :| f in inp.dist && FileId(h, f) == x {
        var i :| 0 <= i < |inp.dist| && inp.dist[i] == f;
        assert DistIds(h, inp.dist)[i] == x;
      }
    }
  }

  lemma RewrittenIds(d: Doc, ids: set<string>, parts: Parts)
    ensures PackageIds(Rewritten(d, ids, parts).packages)
         == PackageIds(Foreign(d, ids).packages) + [parts.release.id] + PackageIds(parts.entries)
    ensures FileIds(Rewritten(d, ids, parts).files) == FileIds(Foreign(d, ids).files) + FileIds(parts.files)
  {
  }

  lemma LockEntryIds(h: Hashes, lock: seq<LockPackage>)
    ensures PackageIds(LockEntries(h, lock)) == CargoIds(h, lock)
  {
  }

  lemma FileEntryIds(h: Hashes, dist: seq<DistFile>)
    ensures FileIds(FileEntries(h, dist)) == DistIds(h, dist)
  {
  }

  lemma AugmentedIds(h: Hashes, d: Doc, inp: Inputs)
    requires InputsReadable(inp)
    ensures multiset(Ids(Augmented(h, d, inp)))
         == multiset(Ids(Foreign(d, GeneratedIds(h, inp)))) + multiset(NewIds(h, inp))
  {
    var kept := Foreign(d, GeneratedIds(h, inp));
    RewrittenIds(d, GeneratedIds(h, inp), Added(h, inp));
    LockEntryIds(h, inp.lock);
    FileEntryIds(h, inp.dist);
    Interleave(PackageIds(kept.packages), [RELEASE_PACKAGE_ID], CargoIds(h, inp.lock),
               FileIds(kept.files), DistIds(h, inp.dist));
  }

  lemma Interleave<T>(a: seq<T>, r: seq<T>, c: seq<T>, b: seq<T>, e: seq<T>)
    ensures multiset((a + r + c) + (b + e)) == multiset(a + b) + multiset(r + c + e)
  {
  }

  lemma ForeignIdsForeign(d: Doc, ids: set<string>)
    ensures forall x :: x in Ids(Foreign(d, ids)) ==> x !in ids
  {
    var kept := Foreign(d, ids);
    forall i | 0 <= i < |kept.packages| ensures kept.packages[i].id !in ids {
      assert kept.packages[i] in kept.packages;
    }
    forall i | 0 <= i < |kept.files| ensures kept.files[i].id !in ids {
      assert kept.files[i] in kept.files;
    }
  }

  /** After a rewrite the identifiers are sound exactly when the surviving foreign ones are and the
      lock lists no identity twice. */
  lemma AugmentedIdsOk(h: Hashes, d: Doc, inp: Inputs)
    requires Injective(h) && InputsReadable(inp) && DistDistinct(inp.dist)
    ensures IdsOk(Ids(Augmented(h, d, inp)))
       <==> IdsOk(Ids(Foreign(d, GeneratedIds(h, inp)))) && LockDistinct(inp.lock)
  {
    var kept, added := Ids(Foreign(d, GeneratedIds(h, inp))), NewIds(h, inp);
    AugmentedIds(h, d, inp);
    assert multiset(kept + added) == multiset(kept) + multiset(added);
    PermutedDistinct(Ids(Augmented(h, d, inp)), kept + added);
    NewIdsOk(h, inp);
    ForeignIdsForeign(d, GeneratedIds(h, inp));
    DistinctConcat(kept, added);
  }

  // ---------------------------------------------------------- acceptance

  lemma {:induction false} PackageFound(packages: seq<Package>, i: nat)
    requires Distinct(PackageIds(packages)) && i < |packages|
    ensures packages[i].id in PackageById(packages) && PackageById(packages)[packages[i].id] == packages[i]
  {
    var n := |packages| - 1;
    if i < n {
      assert PackageIds(packages)[i] != PackageIds(packages)[n];
      assert PackageIds(packages[..n]) == PackageIds(packages)[..n];
      PackageFound(packages[..n], i);
    }
  }

  lemma {:induction false} FileFound(files: seq<FileEntry>, i: nat)
    requires Distinct(FileIds(files)) && i < |files|
    ensures files[i].id in FileById(files) && FileById(files)[files[i].id] == files[i]
  {
    var n := |files| - 1;
    if i < n {
      assert FileIds(files)[i] != FileIds(files)[n];
      assert FileIds(files[..n]) == FileIds(files)[..n];
      FileFound(files[..n], i);
    }
  }

  lemma ReleaseRootOk(h: Hashes, inp: Inputs)
    requires InputsReadable(inp)
    ensures RootOk(h, ReleasePackage(h, inp), inp)
  {
    ContainsBoth(COMMENT_HEAD, inp.target, COMMENT_MIDDLE, DISCLAIMER, COMMENT_TAIL);
  }

  /** What a rewrite keeps relates nothing to the release. */
  lemma RewrittenRelations(d: Doc, ids: set<string>, parts: Parts, kind: string)
    requires RELEASE_PACKAGE_ID in ids
    ensures Related(Rewritten(d, ids, parts).relationships, kind) == Related(parts.relationships, kind)
  {
    var kept := Foreign(d, ids).relationships;
    forall r | r in kept + parts.relationships && Releases(r, kind) ensures r in parts.relationships {
      assert r in kept ==> ForeignRelationship(ids)(r);
    }
  }

  lemma RelatedConcat(a: seq<Relationship>, b: seq<Relationship>, kind: string)
    ensures Related(a + b, kind) == Related(a, kind) + Related(b, kind)
  {
  }

  lemma ContainsRelated(h: Hashes, dist: seq<DistFile>)
    ensures Related(ContainsAll(h, dist), "CONTAINS") == set f | f in dist :: FileId(h, f)
    ensures Related(ContainsAll(h, dist), "OTHER") == {}
  {
    var contains := ContainsAll(h, dist);
    forall f | f in dist ensures FileId(h, f) in Related(contains, "CONTAINS") {
      var i :| 0 <= i < |dist| && dist[i] == f;
      assert contains[i] in contains;
    }
  }

  lemma LocksRelated(h: Hashes, lock: seq<LockPackage>)
    ensures Related(LocksAll(h, lock), "OTHER") == set p | p in lock :: CargoId(h, p)
    ensures Related(LocksAll(h, lock), "CONTAINS") == {}
  {
    var locks := LocksAll(h, lock);
    forall p | p in lock ensures CargoId(h, p) in Related(locks, "OTHER") {
      var i :| 0 <= i < |lock| && lock[i] == p;
      assert locks[i] in locks;
    }
  }

  lemma AugmentedRelations(h: Hashes, d: Doc, inp: Inputs)
    requires InputsReadable(inp)
    ensures Related(Augmented(h, d, inp).relationships, "CONTAINS") == set f | f in inp.dist :: FileId(h, f)
    ensures Related(Augmented(h, d, inp).relationships, "OTHER") == set p | p in inp.lock :: CargoId(h, p)
  {
    forall kind ensures Related(Augmented(h, d, inp).relationships, kind)
                     == Related(ContainsAll(h, inp.dist), kind) + Related(LocksAll(h, inp.lock), kind)
    {
      RewrittenRelations(d, GeneratedIds(h, inp), Added(h, inp), kind);
      RelatedConcat(ContainsAll(h, inp.dist), LocksAll(h, inp.lock), kind);
    }
    ContainsRelated(h, inp.dist);
    LocksRelated(h, inp.lock);
  }

  lemma LiftedChecksums(a: Checksum, b: Checksum)
    requires a.algorithm != b.algorithm
    ensures HasChecksum([a, b], a.algorithm, a.value) && HasChecksum([a, b], b.algorithm, b.value)
    ensures HasChecksum([a], a.algorithm, a.value)
  {
    assert [a, b][..1] == [a] && [a][..0] == [];
  }

  lemma AugmentedFilesOk(h: Hashes, d: Doc, inp: Inputs, i: nat)
    requires InputsReadable(inp) && i < |inp.dist|
    requires Distinct(FileIds(Augmented(h, d, inp).files))
    ensures FileOk(h, FileById(Augmented(h, d, inp).files), inp.dist[i])
  {
    var ids, entry := GeneratedIds(h, inp), FileEntryFor(h, inp.dist[i]);
    assert Added(h, inp).files[i] == entry;
    RewrittenFile(d, ids, Added(h, inp), i);
    FileFound(Augmented(h, d, inp).files, |Foreign(d, ids).files| + i);
    LiftedChecksums(entry.checksums[0], entry.checksums[1]);
  }

  lemma RewrittenPackage(d: Doc, ids: set<string>, parts: Parts, i: nat)
    requires i < |parts.entries|
    ensures var packages, at := Rewritten(d, ids, parts).packages, |Foreign(d, ids).packages| + 1 + i;
      at < |packages| && packages[at] == parts.entries[i]
  {
  }

  lemma RewrittenFile(d: Doc, ids: set<string>, parts: Parts, i: nat)
    requires i < |parts.files|
    ensures var files, at := Rewritten(d, ids, parts).files, |Foreign(d, ids).files| + i;
      at < |files| && files[at] == parts.files[i]
  {
  }

  /** The verifier's table has the entry of every lock package. */
  lemma {:induction false} LockEntryFound(h: Hashes, d: Doc, inp: Inputs, i: nat)
    requires InputsReadable(inp) && i < |inp.lock|
    requires Distinct(PackageIds(Augmented(h, d, inp).packages))
    ensures var byId := PackageById(Augmented(h, d, inp).packages);
      CargoId(h, inp.lock[i]) in byId && byId[CargoId(h, inp.lock[i])] == LockEntryFor(h, inp.lock[i])
  {
    var ids := GeneratedIds(h, inp);
    assert Added(h, inp).entries[i] == LockEntryFor(h, inp.lock[i]);
    RewrittenPackage(d, ids, Added(h, inp), i);
    PackageFound(Augmented(h, d, inp).packages, |Foreign(d, ids).packages| + 1 + i);
  }

  lemma {:induction false} LockRelated(h: Hashes, d: Doc, inp: Inputs, i: nat)
    requires InputsReadable(inp) && i < |inp.lock|
    ensures CargoId(h, inp.lock[i]) in Related(Augmented(h, d, inp).relationships, "OTHER")
  {
    AugmentedRelations(h, d, inp);
    assert inp.lock[i] in inp.lock;
  }

  lemma {:induction false} AugmentedLockOk(h: Hashes, d: Doc, inp: Inputs, i: nat)
    requires InputsReadable(inp) && i < |inp.lock|
    requires Distinct(PackageIds(Augmented(h, d, inp).packages))
    ensures LockOk(h, PackageById(Augmented(h, d, inp).packages),
                   Related(Augmented(h, d, inp).relationships, "OTHER"), inp.lock[i])
  {
    LockEntryFound(h, d, inp, i);
    LockRelated(h, d, inp, i);
    LockEntryOk(h, PackageById(Augmented(h, d, inp).packages),
                Related(Augmented(h, d, inp).relationships, "OTHER"), inp.lock[i]);
  }

  lemma LockEntryOk(h: Hashes, packages: map<string, Package>, locked: set<string>, p: LockPackage)
    requires CargoId(h, p) in packages && packages[CargoId(h, p)] == LockEntryFor(h, p)
    requires CargoId(h, p) in locked
    ensures LockOk(h, packages, locked, p)
  {
    if p.checksum.Some? {
      LiftedChecksums(Checksum("SHA256", p.checksum.value), Checksum("", ""));
    }
  }

  /** A rewrite is accepted by the separately coded verification, for the same inputs, exactly when
      the base is valid, the lock lists no identity twice and the identifiers that survive the
      rewrite are non-empty and unique. */
  lemma AugmentedAcceptedIff(h: Hashes, d: Doc, inp: Inputs)
    requires Injective(h) && InputsReadable(inp) && DistDistinct(inp.dist)
    ensures Accepts(h, Augmented(h, d, inp), inp)
       <==> BaseValid(d.base) && LockDistinct(inp.lock) && IdsOk(Ids(Foreign(d, GeneratedIds(h, inp))))
  {
    var aug := Augmented(h, d, inp);
    AugmentedIdsOk(h, d, inp);
    if IdsOk(Ids(aug)) {
      DistinctConcat(PackageIds(aug.packages), FileIds(aug.files));
      var root := |Foreign(d, GeneratedIds(h, inp)).packages|;
      assert aug.packages[root] == ReleasePackage(h, inp);
      PackageFound(aug.packages, root);
      ReleaseRootOk(h, inp);
      AugmentedRelations(h, d, inp);
      forall i | 0 <= i < |inp.dist| ensures FileOk(h, FileById(aug.files), inp.dist[i]) {
        AugmentedFilesOk(h, d, inp, i);
      }
      forall i | 0 <= i < |inp.lock|
        ensures LockOk(h, PackageById(aug.packages), Related(aug.relationships, "OTHER"), inp.lock[i])
      {
        AugmentedLockOk(h, d, inp, i);
      }
    }
  }

  // ----------------------------------------------- fixpoint and sequences

  /** Everything that is put in carries or mentions a generated identifier. */
  predicate Generated(ids: set<string>, parts: Parts)
  {
    && RELEASE_PACKAGE_ID in ids && parts.release.id in ids
    && (forall p :: p in parts.entries ==> p.id in ids)
    && (forall f :: f in parts.files ==> f.id in ids)
    && (forall r :: r in parts.relationships ==> r.element in ids)
  }

  lemma AddedGenerated(h: Hashes, inp: Inputs)
    requires InputsReadable(inp)
    ensures Generated(GeneratedIds(h, inp), Added(h, inp))
  {
    LockEntriesGenerated(h, inp);
    FileEntriesGenerated(h, inp);
  }

  lemma LockEntriesGenerated(h: Hashes, inp: Inputs)
    ensures forall p :: p in LockEntries(h, inp.lock) ==> p.id in GeneratedIds(h, inp)
  {
    var entries := LockEntries(h, inp.lock);
    forall p | p in entries ensures p.id in GeneratedIds(h, inp) {
      var i :| 0 <= i < |inp.lock| && entries[i] == p;
      assert p.id == CargoId(h, inp.lock[i]) && inp.lock[i] in inp.lock;
    }
  }

  lemma FileEntriesGenerated(h: Hashes, inp: Inputs)
    ensures forall f :: f in FileEntries(h, inp.dist) ==> f.id in GeneratedIds(h, inp)
  {
    var entries := FileEntries(h, inp.dist);
    forall f | f in entries ensures f.id in GeneratedIds(h, inp) {
      var i :| 0 <= i < |inp.dist| && entries[i] == f;
      assert f.id == FileId(h, inp.dist[i]) && inp.dist[i] in inp.dist;
    }
  }

  lemma FilterKeepsPrefix<T>(kept: seq<T>, added: seq<T>, p: T -> bool)
    requires forall x :: x in kept ==> p(x)
    requires forall x :: x in added ==> !p(x)
    ensures Filter(kept + added, p) == kept
  {
    FilterConcat(kept, added, p);
    FilterAll(kept, p);
    FilterNone(added, p);
  }

  lemma ForeignRewritten(d: Doc, ids: set<string>, parts: Parts)
    requires Generated(ids, parts)
    ensures Foreign(Rewritten(d, ids, parts), ids) == Foreign(d, ids)
  {
    var kept := Foreign(d, ids);
    assert kept.packages + [parts.release] + parts.entries == kept.packages + ([parts.release] + parts.entries);
    FilterKeepsPrefix(kept.packages, [parts.release] + parts.entries, ForeignPackage(ids));
    FilterKeepsPrefix(kept.files, parts.files, ForeignFile(ids));
    FilterKeepsPrefix(kept.relationships, parts.relationships, ForeignRelationship(ids));
    FilterKeepsPrefix(kept.described, [RELEASE_PACKAGE_ID], ForeignId(ids));
  }

  /** A rewrite leaves everything foreign to it exactly as it was, in order. */
  lemma ForeignPreserved(h: Hashes, d: Doc, inp: Inputs)
    requires InputsReadable(inp)
    ensures Foreign(Augmented(h, d, inp), GeneratedIds(h, inp)) == Foreign(d, GeneratedIds(h, inp))
  {
    AddedGenerated(h, inp);
    ForeignRewritten(d, GeneratedIds(h, inp), Added(h, inp));
  }

  /** Repeating the same rewrite changes nothing. */
  lemma RewriteIsFixpoint(h: Hashes, d: Doc, inp: Inputs)
    requires InputsReadable(inp)
    ensures Augmented(h, Augmented(h, d, inp), inp) == Augmented(h, d, inp)
  {
    ForeignPreserved(h, d, inp);
  }

  function AugmentedAll(h: Hashes, d: Doc, inputs: seq<Inputs>): Doc
    requires forall i :: 0 <= i < |inputs| ==> InputsReadable(inputs[i])
  {
    if inputs == [] then d
    else Augmented(h, AugmentedAll(h, d, inputs[..|inputs| - 1]), inputs[|inputs| - 1])
  }

  lemma ForeignIdsOk(d: Doc, ids: set<string>)
    requires IdsOk(Ids(d))
    ensures IdsOk(Ids(Foreign(d, ids)))
  {
    var kept := Foreign(d, ids);
    DistinctConcat(PackageIds(d.packages), FileIds(d.files));
    var packageId, fileId := (p: Package) => p.id, (f: FileEntry) => f.id;
    assert PackageIds(d.packages) == Mapped(d.packages, packageId) && FileIds(d.files) == Mapped(d.files, fileId);
    FilterMappedDistinct(d.packages, packageId, ForeignPackage(ids));
    FilterMappedDistinct(d.files, fileId, ForeignFile(ids));
    assert PackageIds(kept.packages) == Mapped(kept.packages, packageId)
      && FileIds(kept.files) == Mapped(kept.files, fileId);
    DistinctConcat(PackageIds(kept.packages), FileIds(kept.files));
  }

  /** From a base document with sound identifiers, any sequence of rewrites with changing dist, lock
      and target keeps the identifiers sound and ends in a document accepted for the last inputs. */
  lemma {:induction false} AnySequenceAccepted(h: Hashes, d: Doc, inputs: seq<Inputs>)
    requires Injective(h) && BaseValid(d.base) && IdsOk(Ids(d))
    requires forall i :: 0 <= i < |inputs| ==>
      InputsReadable(inputs[i]) && DistDistinct(inputs[i].dist) && LockDistinct(inputs[i].lock)
    ensures AugmentedAll(h, d, inputs).base == d.base && IdsOk(Ids(AugmentedAll(h, d, inputs)))
    ensures inputs != [] ==> Accepts(h, AugmentedAll(h, d, inputs), inputs[|inputs| - 1])
  {
    if inputs != [] {
      var n := |inputs| - 1;
      AnySequenceAccepted(h, d, inputs[..n]);
      var before := AugmentedAll(h, d, inputs[..n]);
      ForeignIdsOk(before, GeneratedIds(h, inputs[n]));
      AugmentedAcceptedIff(h, before, inputs[n]);
    }
  }

  /** The verification code does not depend on the order in which the files are listed. */
  lemma CodeOrderBlind(h: Hashes, dist: seq<DistFile>, other: seq<DistFile>)
    requires multiset(dist) == multiset(other)
    ensures VerificationCode(h, dist) == VerificationCode(h, other)
  {
    LexIsTotalOrder();
    var digest := (f: DistFile) => h.sha1(f.content);
    assert FileSha1s(h, dist) == Mapped(dist, digest) && FileSha1s(h, other) == Mapped(other, digest);
    MappedPermutation(dist, other, digest);
    SortPermutation(FileSha1s(h, dist), FileSha1s(h, other), LexLe);
  }
}
