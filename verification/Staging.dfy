/** Staging a release directory from a contract, and verifying a staged directory. */
module Staging {
  import opened Sequences
  import opened Strings
  import opened ChecksumText

  const MANIFEST_NAME := "RELEASE-ASSETS.json"
  const SUMS_NAME := "SHA256SUMS"
  const CONTRACT_SCHEMA := "greppy.release-asset-contract.v1"
  const MANIFEST_SCHEMA := "greppy.release-assets.v1"
  const REPOSITORY := "metric-space-ai/greppy"

  datatype Asset = Asset(name: string, role: string, generated: bool)

  datatype Contract = Contract(schema: string, repository: string, assets: seq<Asset>)

  datatype ManifestAsset = ManifestAsset(name: string, role: string, sha256: Option<string>, size: Option<nat>)

  datatype Manifest = Manifest(
    schema: string, repository: string, commit: string, tag: string, assets: seq<ManifestAsset>)

  /** A file's bytes: raw, text, or the JSON rendering of a manifest. */
  datatype Content = Raw(bytes: string) | Text(text: string) | Json(manifest: Manifest)

  /** The bytes of a file, and the digest of bytes. */
  datatype Digests = Digests(encode: Content -> string, sha256: string -> string)

  function DigestOf(d: Digests, c: Content): string { d.sha256(d.encode(c)) }

  ghost predicate WellFormed(d: Digests)
  {
    forall bytes: string :: IsSha256Text(d.sha256(bytes))
  }

  /** No file of the one directory collides with a different file of the other. */
  ghost predicate CollisionFree(d: Digests, dir: Directory, other: Directory)
  {
    forall m, n :: m in dir && n in other && DigestOf(d, dir[m]) == DigestOf(d, other[n])
      ==> d.encode(dir[m]) == d.encode(other[n])
  }

  type Directory = map<string, Content>

  // ------------------------------------------------------------ contract

  /** A name that is its own last path component. */
  predicate IsBasename(name: string)
  {
    name != "" && name != "." && '/' !in name
  }

  function Names(assets: seq<Asset>): seq<string>
  {
    seq(|assets|, i requires 0 <= i < |assets| => assets[i].name)
  }

  predicate ContractValid(c: Contract)
  {
    && c.schema == CONTRACT_SCHEMA && c.repository == REPOSITORY && c.assets != []
    && (forall i :: 0 <= i < |c.assets| ==> c.assets[i].role != "" && IsBasename(c.assets[i].name))
    && Distinct(Names(c.assets))
    && (set a | a in c.assets && a.generated :: a.name) == {MANIFEST_NAME, SUMS_NAME}
  }

  method LoadContract(c: Contract) returns (ok: bool)
    ensures ok <==> ContractValid(c)
  {
    if c.schema != CONTRACT_SCHEMA || c.repository != REPOSITORY || c.assets == [] {
      return false;
    }
    var names := [];
    for i := 0 to |c.assets|
      invariant names == Names(c.assets[..i])
      invariant forall j :: 0 <= j < i ==> c.assets[j].role != "" && IsBasename(c.assets[j].name)
    {
      var asset := c.assets[i];
      if asset.role == "" || !IsBasename(asset.name) {
        return false;
      }
      names := names + [asset.name];
    }
    assert c.assets[..|c.assets|] == c.assets;
    var generated := set a | a in c.assets && a.generated :: a.name;
    ok := Distinct(names) && generated == {MANIFEST_NAME, SUMS_NAME};
  }

  // ------------------------------------------------------------- staging

  predicate SourcesComplete(c: Contract, sources: Directory)
  {
    forall i :: 0 <= i < |c.assets| ==> !c.assets[i].generated ==> c.assets[i].name in sources
  }

  function Copied(assets: seq<Asset>, sources: Directory): Directory
    requires forall i :: 0 <= i < |assets| ==> !assets[i].generated ==> assets[i].name in sources
  {
    if assets == [] then map[]
    else
      var last := assets[|assets| - 1];
      var before := Copied(assets[..|assets| - 1], sources);
      if last.generated then before else before[last.name := sources[last.name]]
  }

  ghost predicate FirstMissing(c: Contract, sources: Directory, k: nat)
    requires k < |c.assets|
  {
    && !c.assets[k].generated && c.assets[k].name !in sources
    && forall j :: 0 <= j < k ==> !c.assets[j].generated ==> c.assets[j].name in sources
  }

  function Described(a: Asset, dir: Directory, d: Digests): ManifestAsset
  {
    if a.generated || a.name !in dir then ManifestAsset(a.name, a.role, None, None)
    else ManifestAsset(a.name, a.role, Some(DigestOf(d, dir[a.name])), Some(|d.encode(dir[a.name])|))
  }

  function ManifestFor(c: Contract, dir: Directory, d: Digests, commit: string, tag: string): Manifest
  {
    Manifest(MANIFEST_SCHEMA, c.repository, commit, tag,
             seq(|c.assets|, i requires 0 <= i < |c.assets| => Described(c.assets[i], dir, d)))
  }

  predicate IsChecksummed(name: string) { name != SUMS_NAME }

  function ChecksummedNames(c: Contract): seq<string>
  {
    Sort(Filter(Names(c.assets), IsChecksummed), LexLe)
  }

  function DigestIn(dir: Directory, d: Digests): string -> string
  {
    (name: string) => if name in dir then DigestOf(d, dir[name]) else ""
  }

  function SumsText(c: Contract, dir: Directory, d: Digests): string
  {
    Render(Lines(ChecksummedNames(c), DigestIn(dir, d)))
  }

  function WithManifest(c: Contract, sources: Directory, d: Digests, commit: string, tag: string): Directory
    requires SourcesComplete(c, sources)
  {
    var copied := Copied(c.assets, sources);
    copied[MANIFEST_NAME := Json(ManifestFor(c, copied, d, commit, tag))]
  }

  /** The directory a successful staging leaves. */
  function Staged(c: Contract, sources: Directory, d: Digests, commit: string, tag: string): Directory
    requires SourcesComplete(c, sources)
  {
    var dir := WithManifest(c, sources, d, commit, tag);
    dir[SUMS_NAME := Text(SumsText(c, dir, d))]
  }

  // -------------------------------------------------------- verification

  predicate AssetOk(a: Asset, m: ManifestAsset, dir: Directory, d: Digests)
  {
    && m.name == a.name && m.role == a.role
    && if a.generated then m.sha256.None? && m.size.None?
       else a.name in dir && m.sha256 == Some(DigestOf(d, dir[a.name])) && m.size == Some(|d.encode(dir[a.name])|)
  }

  predicate ManifestOk(c: Contract, m: Manifest, dir: Directory, d: Digests, commit: string, tag: string)
  {
    && m.schema == MANIFEST_SCHEMA && m.repository == c.repository && m.commit == commit && m.tag == tag
    && |m.assets| == |c.assets|
    && forall i :: 0 <= i < |c.assets| ==> AssetOk(c.assets[i], m.assets[i], dir, d)
  }

  predicate SumsOk(text: string, dir: Directory, d: Digests)
  {
    IsAscii(text)
    && var entries := ParseAll(SplitLines(text));
       && entries.Some? && entries.value.Keys == dir.Keys - {SUMS_NAME}
       && forall name :: name in entries.value ==> entries.value[name] == DigestIn(dir, d)(name)
  }

  /** The name, manifest and SHA256SUMS parts of verifying a staged directory. */
  predicate Verifies(c: Contract, dir: Directory, d: Digests, commit: string, tag: string)
  {
    && ContractValid(c)
    && dir.Keys == (set name | name in Names(c.assets))
    && MANIFEST_NAME in dir && dir[MANIFEST_NAME].Json?
    && ManifestOk(c, dir[MANIFEST_NAME].manifest, dir, d, commit, tag)
    && SUMS_NAME in dir && dir[SUMS_NAME].Text? && SumsOk(dir[SUMS_NAME].text, dir, d)
  }

  // --------------------------------------------------------------- facts

  lemma {:induction false} CopiedHolds(assets: seq<Asset>, sources: Directory)
    requires forall i :: 0 <= i < |assets| ==> !assets[i].generated ==> assets[i].name in sources
    ensures forall name :: name in Copied(assets, sources) <==>
              exists i :: 0 <= i < |assets| && !assets[i].generated && assets[i].name == name
    ensures forall name :: name in Copied(assets, sources) ==>
              name in sources && Copied(assets, sources)[name] == sources[name]
  {
    if assets != [] {
      var n := |assets| - 1;
      CopiedHolds(assets[..n], sources);
      var before := Copied(assets[..n], sources);
      forall name | name in Copied(assets, sources)
        ensures exists i :: 0 <= i < |assets| && !assets[i].generated && assets[i].name == name
      {
        if name in before {
          var i :| 0 <= i < n && !assets[..n][i].generated && assets[..n][i].name == name;
          assert assets[i] == assets[..n][i];
        }
      }
      forall i | 0 <= i < n && !assets[i].generated ensures assets[i].name in before {
        assert assets[..n][i] == assets[i];
      }
    }
  }

  lemma GeneratedNames(c: Contract, i: nat)
    requires ContractValid(c) && i < |c.assets|
    ensures c.assets[i].generated <==> c.assets[i].name in {MANIFEST_NAME, SUMS_NAME}
  {
    var generated := set a | a in c.assets && a.generated :: a.name;
    assert c.assets[i] in c.assets;
    if c.assets[i].name in generated {
      var a :| a in c.assets && a.generated && a.name == c.assets[i].name;
      var j :| 0 <= j < |c.assets| && c.assets[j] == a;
      assert Names(c.assets)[i] == Names(c.assets)[j];
    }
  }

  lemma BothGenerated(c: Contract)
    requires ContractValid(c)
    ensures MANIFEST_NAME in Names(c.assets) && SUMS_NAME in Names(c.assets)
  {
    forall g | g in {MANIFEST_NAME, SUMS_NAME} ensures g in Names(c.assets) {
      var a :| a in c.assets && a.generated && a.name == g;
      var j :| 0 <= j < |c.assets| && c.assets[j] == a;
      assert Names(c.assets)[j] == g;
    }
  }

  lemma WithManifestKeys(c: Contract, sources: Directory, d: Digests, commit: string, tag: string)
    requires ContractValid(c) && SourcesComplete(c, sources)
    ensures forall name :: name in WithManifest(c, sources, d, commit, tag)
              <==> name in Names(c.assets) && name != SUMS_NAME
  {
    CopiedHolds(c.assets, sources);
    BothGenerated(c);
    forall i | 0 <= i < |c.assets|
      ensures c.assets[i].generated <==> c.assets[i].name in {MANIFEST_NAME, SUMS_NAME}
      ensures Names(c.assets)[i] == c.assets[i].name
    {
      GeneratedNames(c, i);
    }
  }

  lemma StagedManifestOk(c: Contract, sources: Directory, d: Digests, commit: string, tag: string)
    requires ContractValid(c) && SourcesComplete(c, sources)
    ensures var dir := Staged(c, sources, d, commit, tag);
            ManifestOk(c, ManifestFor(c, Copied(c.assets, sources), d, commit, tag), dir, d, commit, tag)
  {
    CopiedHolds(c.assets, sources);
    forall i | 0 <= i < |c.assets|
      ensures AssetOk(c.assets[i], Described(c.assets[i], Copied(c.assets, sources), d),
                      Staged(c, sources, d, commit, tag), d)
    {
      GeneratedNames(c, i);
    }
  }

  lemma ChecksummedNamesHold(c: Contract)
    requires ContractValid(c)
    ensures Distinct(ChecksummedNames(c)) && ChecksummedNames(c) != []
    ensures forall name :: name in ChecksummedNames(c) <==> name in Names(c.assets) && name != SUMS_NAME
  {
    var kept := Filter(Names(c.assets), IsChecksummed);
    LexIsTotalOrder();
    SortSorts(kept, LexLe);
    FilterDistinct(Names(c.assets), IsChecksummed);
    PermutedDistinct(kept, ChecksummedNames(c));
    BothGenerated(c);
    assert MANIFEST_NAME in kept;
  }

  ghost predicate NamesClean(c: Contract)
  {
    forall i :: 0 <= i < |c.assets| ==> c.assets[i].name == SUMS_NAME || CleanName(c.assets[i].name)
  }

  // -------------------------------------------------------- main results

  lemma DigestsOfStaged(c: Contract, sources: Directory, d: Digests, commit: string, tag: string)
    requires ContractValid(c) && SourcesComplete(c, sources) && WellFormed(d) && NamesClean(c)
    ensures Renderable(ChecksummedNames(c), DigestIn(WithManifest(c, sources, d, commit, tag), d))
  {
    var names := ChecksummedNames(c);
    ChecksummedNamesHold(c);
    WithManifestKeys(c, sources, d, commit, tag);
    forall i | 0 <= i < |names|
      ensures CleanName(names[i]) && IsSha256Text(DigestIn(WithManifest(c, sources, d, commit, tag), d)(names[i]))
    {
      assert names[i] in names;
      var j :| 0 <= j < |c.assets| && c.assets[j].name == names[i];
    }
  }

  lemma StagedSumsOk(c: Contract, sources: Directory, d: Digests, commit: string, tag: string)
    requires ContractValid(c) && SourcesComplete(c, sources) && WellFormed(d) && NamesClean(c)
    ensures SumsOk(SumsText(c, WithManifest(c, sources, d, commit, tag), d), Staged(c, sources, d, commit, tag), d)
  {
    var dir, staged := WithManifest(c, sources, d, commit, tag), Staged(c, sources, d, commit, tag);
    var names := ChecksummedNames(c);
    ChecksummedNamesHold(c);
    WithManifestKeys(c, sources, d, commit, tag);
    DigestsOfStaged(c, sources, d, commit, tag);
    SumsRoundTrip(names, DigestIn(dir, d));
    EntriesMatch(SumsText(c, dir, d), names, dir, d, staged[SUMS_NAME]);
  }

  lemma EntriesMatch(text: string, names: seq<string>, dir: Directory, d: Digests, sums: Content)
    requires IsAscii(text)
    requires ParseAll(SplitLines(text)) == Some(map name | name in names :: DigestIn(dir, d)(name))
    requires SUMS_NAME !in dir && forall name :: name in names <==> name in dir
    ensures SumsOk(text, dir[SUMS_NAME := sums], d)
  {
    var entries := map name | name in names :: DigestIn(dir, d)(name);
    assert entries.Keys == dir[SUMS_NAME := sums].Keys - {SUMS_NAME};
  }

  /** If the sums file is accepted then every name but its own fits the line format. */
  lemma AcceptedNamesClean(c: Contract, dir: Directory, d: Digests, text: string)
    requires ContractValid(c) && dir.Keys == (set name | name in Names(c.assets)) && SumsOk(text, dir, d)
    ensures NamesClean(c)
  {
    LinesHaveNoBreaks(text);
    ParsedNamesClean(SplitLines(text));
    forall i | 0 <= i < |c.assets| ensures c.assets[i].name == SUMS_NAME || CleanName(c.assets[i].name) {
      assert Names(c.assets)[i] in Names(c.assets);
      assert c.assets[i].name in dir.Keys;
    }
  }

  /** What staging writes passes verification exactly when every asset name other than SHA256SUMS is
      non-empty ASCII without separators or line breaks. */
  lemma StagedVerifiesIff(c: Contract, sources: Directory, d: Digests, commit: string, tag: string)
    requires ContractValid(c) && SourcesComplete(c, sources) && WellFormed(d)
    ensures Verifies(c, Staged(c, sources, d, commit, tag), d, commit, tag) <==> NamesClean(c)
  {
    var staged := Staged(c, sources, d, commit, tag);
    WithManifestKeys(c, sources, d, commit, tag);
    BothGenerated(c);
    assert staged.Keys == set name | name in Names(c.assets);
    StagedManifestOk(c, sources, d, commit, tag);
    if NamesClean(c) {
      StagedSumsOk(c, sources, d, commit, tag);
    }
    if SumsOk(staged[SUMS_NAME].text, staged, d) {
      AcceptedNamesClean(c, staged, d, staged[SUMS_NAME].text);
    }
  }

  const BACKSLASH_CONTRACT := Contract(CONTRACT_SCHEMA, REPOSITORY, [
    Asset("a\\b", "binary", false), Asset(MANIFEST_NAME, "manifest", true), Asset(SUMS_NAME, "sums", true)])

  lemma BackslashName()
    ensures BACKSLASH_CONTRACT.assets[0].name[1] == '\\' && IsBasename(BACKSLASH_CONTRACT.assets[0].name)
    ensures |BACKSLASH_CONTRACT.assets[0].name| == 3
  {
  }

  lemma BackslashNames()
    ensures Distinct(Names(BACKSLASH_CONTRACT.assets))
    ensures (set a | a in BACKSLASH_CONTRACT.assets && a.generated :: a.name) == {MANIFEST_NAME, SUMS_NAME}
  {
    var assets := BACKSLASH_CONTRACT.assets;
    assert assets[1] in assets && assets[2] in assets;
    assert |MANIFEST_NAME| == 19 && |SUMS_NAME| == 10;
    BackslashName();
  }

  /** The contract check admits more names than the line format: a backslash is part of a basename. */
  lemma ValidNameMayNotFit()
    ensures ContractValid(BACKSLASH_CONTRACT) && !NamesClean(BACKSLASH_CONTRACT)
  {
    BackslashName();
    BackslashNames();
    assert |SUMS_NAME| == 10;
    assert !CleanName(BACKSLASH_CONTRACT.assets[0].name);
  }

  /** Whatever its sources, that contract is accepted and never verifies once staged. */
  lemma ValidContractNotVerified(sources: Directory, d: Digests, commit: string, tag: string)
    requires SourcesComplete(BACKSLASH_CONTRACT, sources) && WellFormed(d)
    ensures ContractValid(BACKSLASH_CONTRACT)
    ensures !Verifies(BACKSLASH_CONTRACT, Staged(BACKSLASH_CONTRACT, sources, d, commit, tag), d, commit, tag)
  {
    ValidNameMayNotFit();
    StagedVerifiesIff(BACKSLASH_CONTRACT, sources, d, commit, tag);
  }

  /** Two accepted directories with the same manifest agree on the bytes of every ordinary asset, unless
      two of their files collide. */
  lemma ManifestFixesAssets(
    c: Contract, dir: Directory, other: Directory, d: Digests, commit: string, tag: string, i: nat)
    requires CollisionFree(d, dir, other) && i < |c.assets| && !c.assets[i].generated
    requires Verifies(c, dir, d, commit, tag) && Verifies(c, other, d, commit, tag)
    requires dir[MANIFEST_NAME] == other[MANIFEST_NAME]
    ensures c.assets[i].name in dir && c.assets[i].name in other
    ensures d.encode(dir[c.assets[i].name]) == d.encode(other[c.assets[i].name])
  {
    var m := dir[MANIFEST_NAME].manifest;
    assert AssetOk(c.assets[i], m.assets[i], dir, d) && AssetOk(c.assets[i], m.assets[i], other, d);
  }

  /** The sums file fixes the bytes of the whole directory, unless two files collide. */
  lemma SumsFixDirectory(c: Contract, dir: Directory, other: Directory, d: Digests, commit: string, tag: string)
    requires CollisionFree(d, dir, other)
    requires Verifies(c, dir, d, commit, tag) && Verifies(c, other, d, commit, tag)
    requires dir[SUMS_NAME] == other[SUMS_NAME]
    ensures dir.Keys == other.Keys && forall name :: name in dir ==> d.encode(dir[name]) == d.encode(other[name])
  {
    var entries := ParseAll(SplitLines(dir[SUMS_NAME].text)).value;
    forall name | name in dir ensures d.encode(dir[name]) == d.encode(other[name]) {
      if name != SUMS_NAME {
        assert name in dir.Keys - {SUMS_NAME} && name in entries.Keys;
        assert DigestOf(d, dir[name]) == DigestIn(dir, d)(name) == entries[name];
        assert DigestOf(d, other[name]) == DigestIn(other, d)(name) == entries[name];
      }
    }
  }

  // ------------------------------------------------------- the directory

  class StagingArea {
    var files: Directory

    constructor ()
      ensures files == map[]
    {
      files := map[];
    }

    /** Copies the ordinary assets, writes the manifest and the sums file, then verifies. A refused
        contract or directory changes nothing, a missing source leaves the assets before it, and the
        sums file, being ASCII text, is left empty when a name is not ASCII. */
    method Stage(c: Contract, sources: Directory, d: Digests, commit: string, tag: string) returns (ok: bool)
      requires WellFormed(d)
      modifies this
      ensures ok <==> ContractValid(c) && old(files) == map[] && SourcesComplete(c, sources) && NamesClean(c)
      ensures ok ==> files == Staged(c, sources, d, commit, tag) && Verifies(c, files, d, commit, tag)
      ensures !ContractValid(c) || old(files) != map[] ==> files == old(files)
      ensures ContractValid(c) && old(files) == map[] && !SourcesComplete(c, sources) ==>
        exists k :: 0 <= k < |c.assets| && FirstMissing(c, sources, k) && files == Copied(c.assets[..k], sources)
      ensures ContractValid(c) && old(files) == map[] && SourcesComplete(c, sources) ==>
        files == if IsAscii(SumsText(c, WithManifest(c, sources, d, commit, tag), d))
                 then Staged(c, sources, d, commit, tag)
                 else WithManifest(c, sources, d, commit, tag)[SUMS_NAME := Text("")]
    {
      var valid := LoadContract(c);
      if !valid || files != map[] {
        return false;
      }
      for i := 0 to |c.assets|
        invariant forall j :: 0 <= j < i ==> !c.assets[j].generated ==> c.assets[j].name in sources
        invariant files == Copied(c.assets[..i], sources)
      {
        assert c.assets[..i + 1][..i] == c.assets[..i];
        if !c.assets[i].generated {
          if c.assets[i].name !in sources {
            assert FirstMissing(c, sources, i);
            return false;
          }
          files := files[c.assets[i].name := sources[c.assets[i].name]];
        }
      }
      assert c.assets[..|c.assets|] == c.assets;
      files := files[MANIFEST_NAME := Json(ManifestFor(c, files, d, commit, tag))];
      var text := SumsText(c, files, d);
      StagedVerifiesIff(c, sources, d, commit, tag);
      if !IsAscii(text) {
        files := files[SUMS_NAME := Text("")];
        return false;
      }
      files := files[SUMS_NAME := Text(text)];
      ok := VerifyStaged(c, d, commit, tag);
    }

    method VerifyStaged(c: Contract, d: Digests, commit: string, tag: string) returns (ok: bool)
      ensures ok <==> Verifies(c, files, d, commit, tag)
    {
      var valid := LoadContract(c);
      if !valid || files.Keys != (set name | name in Names(c.assets)) {
        return false;
      }
      BothGenerated(c);
      if !files[MANIFEST_NAME].Json? || !files[SUMS_NAME].Text? {
        return false;
      }
      var manifestOk := CheckManifest(c, files[MANIFEST_NAME].manifest, files, d, commit, tag);
      if !manifestOk {
        return false;
      }
      var text := files[SUMS_NAME].text;
      var entries := ParseSums(text);
      ok := entries.Some? && entries.value.Keys == files.Keys - {SUMS_NAME}
            && forall name :: name in entries.value ==> entries.value[name] == DigestIn(files, d)(name);
    }
  }

  method CheckManifest(c: Contract, m: Manifest, dir: Directory, d: Digests, commit: string, tag: string)
    returns (ok: bool)
    ensures ok <==> ManifestOk(c, m, dir, d, commit, tag)
  {
    if m.schema != MANIFEST_SCHEMA || m.repository != c.repository || m.commit != commit || m.tag != tag {
      return false;
    }
    if |m.assets| != |c.assets| {
      return false;
    }
    for i := 0 to |c.assets|
      invariant forall j :: 0 <= j < i ==> AssetOk(c.assets[j], m.assets[j], dir, d)
    {
      if !AssetOk(c.assets[i], m.assets[i], dir, d) {
        return false;
      }
    }
    ok := true;
  }
}
