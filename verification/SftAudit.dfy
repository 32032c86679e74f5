/** The provenance join of fine-tuning rows with the raw rows they were made from. Hash, repository
    spelling and stripping are parameters, and nothing is assumed of them. */
module SftAudit {
  import opened Sequences

  const PROMPT_PREFIX := "<|im_start|>user\nbrief:\n"
  const PROMPT_SUFFIX := "<|im_end|>\n<|im_start|>assistant\n"
  const COMPLETION_SUFFIX := "<|im_end|>"

  /** `Invalid` is a row whose JSON, field set or field types are wrong. */
  datatype Raw =
    | Invalid
    | Accepted(lang: string, repo: string, source: string, license: string, summary: seq<string>)
    | Dropped(lang: string, repo: string, source: string)

  datatype Sft = InvalidSft | Sft(prompt: string, completion: string, lang: string, repo: string)

  datatype Env = Env(
    strip: string -> string, sha256: string -> string, canonical: string -> string, denied: set<string>)

  datatype DigestRow = DigestRow(
    completion: string, language: string, license: string, repo: string, row: nat, source: string)

  datatype Report = Report(
    rawTotal: nat, accepted: nat, dropped: nat, duplicates: int, distinctPrompts: nat, sftTotal: nat,
    rawMatches: nat,
    repos: multiset<string>, languages: multiset<string>, licenses: multiset<string>,
    digested: seq<DigestRow>)

  // ------------------------------------------------------- single rows

  predicate NonEmpty(e: Env, text: string) { e.strip(text) != "" }

  predicate OneLine(e: Env, text: string)
  {
    NonEmpty(e, text) && '\n' !in text && '\r' !in text
  }

  predicate RawOk(e: Env, r: Raw)
  {
    && !r.Invalid?
    && NonEmpty(e, r.lang) && NonEmpty(e, r.repo) && NonEmpty(e, r.source)
    && (r.Accepted? ==> 1 <= |r.summary| <= 2 && forall line :: line in r.summary ==> OneLine(e, line))
  }

  predicate SftOk(e: Env, s: Sft)
  {
    && s.Sft?
    && NonEmpty(e, s.prompt) && NonEmpty(e, s.completion) && NonEmpty(e, s.lang) && NonEmpty(e, s.repo)
  }

  function Prompt(e: Env, source: string): string
  {
    PROMPT_PREFIX + e.strip(source) + PROMPT_SUFFIX
  }

  function JoinLines(lines: seq<string>): string
  {
    if lines == [] then "" else if |lines| == 1 then lines[0] else lines[0] + "\n" + JoinLines(lines[1..])
  }

  function Label(summary: seq<string>): string
  {
    JoinLines(summary) + COMPLETION_SUFFIX
  }

  function HasPrompt(e: Env, prompt: string): Raw -> bool
  {
    (r: Raw) => r.Accepted? && Prompt(e, r.source) == prompt
  }

  predicate IsAccepted(r: Raw) { r.Accepted? }
  predicate IsDropped(r: Raw) { r.Dropped? }

  function IsDenied(e: Env): Raw -> bool
  {
    (r: Raw) => !r.Invalid? && e.canonical(r.repo) in e.denied
  }

  function SameOrigin(s: Sft): Raw -> bool
  {
    (r: Raw) => s.Sft? && r.Accepted? && r.lang == s.lang && r.repo == s.repo
  }

  /** The accepted raw rows a fine-tuning row can come from. */
  function Origins(e: Env, raws: seq<Raw>, s: Sft): seq<Raw>
    requires s.Sft?
  {
    Filter(Filter(raws, HasPrompt(e, s.prompt)), SameOrigin(s))
  }

  function Prompts(e: Env, raws: seq<Raw>): set<string>
  {
    set r | r in raws && r.Accepted? :: Prompt(e, r.source)
  }

  // ------------------------------------------------- what the audit accepts

  ghost predicate DigestsUnique(e: Env, raws: seq<Raw>)
  {
    forall a, b :: a in raws && b in raws && !a.Invalid? && !b.Invalid? && e.sha256(a.source) == e.sha256(b.source)
      ==> a.source == b.source
  }

  ghost predicate PromptsUnique(e: Env, raws: seq<Raw>)
  {
    forall a, b :: a in raws && b in raws && a.Accepted? && b.Accepted? && Prompt(e, a.source) == Prompt(e, b.source)
      ==> a.source == b.source
  }

  /** No two raw sources share a digest, and no two accepted ones share a prompt. */
  ghost predicate RawClean(e: Env, raws: seq<Raw>)
  {
    (forall r :: r in raws ==> RawOk(e, r)) && DigestsUnique(e, raws) && PromptsUnique(e, raws)
  }

  /** One fine-tuning row: a single origin, with the same label, from no denied repository. */
  ghost predicate RowClean(e: Env, raws: seq<Raw>, s: Sft)
  {
    && SftOk(e, s)
    && |Origins(e, raws, s)| == 1
    && var raw := Origins(e, raws, s)[0];
    && raw.Accepted? && s.completion == Label(raw.summary)
    && e.canonical(raw.repo) !in e.denied
  }

  function PromptOf(s: Sft): string { if s.Sft? then s.prompt else "" }
  function RepoOf(s: Sft): string { if s.Sft? then s.repo else "" }
  function LangOf(s: Sft): string { if s.Sft? then s.lang else "" }

  function LicenseOf(e: Env, raws: seq<Raw>): Sft -> string
  {
    (s: Sft) =>
      if s.Sft? && Origins(e, raws, s) != [] && Origins(e, raws, s)[0].Accepted?
      then Origins(e, raws, s)[0].license else ""
  }

  ghost predicate RowsClean(e: Env, raws: seq<Raw>, sfts: seq<Sft>)
  {
    && (forall s :: s in sfts ==> RowClean(e, raws, s))
    && Distinct(Mapped(sfts, PromptOf))
  }

  ghost predicate Clean(e: Env, raws: seq<Raw>, sfts: seq<Sft>)
  {
    && RawClean(e, raws)
    && RowsClean(e, raws, sfts)
    && Prompts(e, raws) <= Elements(Mapped(sfts, PromptOf))
  }

  /** Everything the audit reports. */
  ghost function Expected(e: Env, raws: seq<Raw>, sfts: seq<Sft>): Report
  {
    var accepted := |Filter(raws, IsAccepted)|;
    Report(
      |raws|, accepted, |Filter(raws, IsDropped)|, accepted - |sfts|, |sfts|, |sfts|,
      |Filter(raws, IsDenied(e))|,
      multiset(Mapped(sfts, RepoOf)), multiset(Mapped(sfts, LangOf)), multiset(Mapped(sfts, LicenseOf(e, raws))),
      Digested(e, raws, sfts))
  }

  function Digested(e: Env, raws: seq<Raw>, sfts: seq<Sft>): seq<DigestRow>
  {
    if sfts == [] then [] else
      var n := |sfts| - 1;
      Digested(e, raws, sfts[..n]) + [DigestOf(e, raws, sfts[n], |sfts|)]
  }

  function DigestOf(e: Env, raws: seq<Raw>, s: Sft, row: nat): DigestRow
  {
    if s.Sft? && Origins(e, raws, s) != [] && Origins(e, raws, s)[0].Accepted? then
      var raw := Origins(e, raws, s)[0];
      DigestRow(e.sha256(s.completion), raw.lang, raw.license, raw.repo, row, e.sha256(raw.source))
    else
      DigestRow("", "", "", "", row, "")
  }

  // ----------------------------------------------------------- raw rows

  datatype RawIndex = RawIndex(
    index: map<string, seq<Raw>>, accepted: nat, dropped: nat, duplicates: nat, matches: nat)

  ghost predicate DigestsKnown(e: Env, digests: map<string, string>, raws: seq<Raw>)
  {
    && (forall r :: r in raws && !r.Invalid? ==>
        e.sha256(r.source) in digests && digests[e.sha256(r.source)] == r.source)
    && (forall d :: d in digests ==>
        exists r :: r in raws && !r.Invalid? && e.sha256(r.source) == d && r.source == digests[d])
  }

  ghost predicate Indexed(e: Env, index: map<string, seq<Raw>>, raws: seq<Raw>)
  {
    && index.Keys == Prompts(e, raws)
    && forall k :: k in index ==> index[k] == Filter(raws, HasPrompt(e, k))
  }

  lemma DigestStep(e: Env, digests: map<string, string>, raws: seq<Raw>, r: Raw)
    requires DigestsKnown(e, digests, raws) && DigestsUnique(e, raws) && !r.Invalid?
    ensures var d := e.sha256(r.source);
      && (DigestsUnique(e, raws + [r]) <==> (d in digests ==> digests[d] == r.source))
      && (DigestsUnique(e, raws + [r]) ==> DigestsKnown(e, digests[d := r.source], raws + [r]))
  {
    var d := e.sha256(r.source);
    var next := digests[d := r.source];
    if d in digests && digests[d] != r.source {
      var q :| q in raws && !q.Invalid? && e.sha256(q.source) == d && q.source == digests[d];
      assert q in raws + [r] && r in raws + [r];
    } else {
      forall k | k in next
        ensures exists q :: q in raws + [r] && !q.Invalid? && e.sha256(q.source) == k && q.source == next[k]
      {
        if k == d {
          assert r in raws + [r];
        } else {
          var q :| q in raws && !q.Invalid? && e.sha256(q.source) == k && q.source == digests[k];
          assert q in raws + [r];
        }
      }
    }
  }

  lemma PromptsAppend(e: Env, raws: seq<Raw>, r: Raw)
    ensures Prompts(e, raws + [r]) == Prompts(e, raws) + if r.Accepted? then {Prompt(e, r.source)} else {}
  {
    if r.Accepted? {
      assert r in raws + [r];
      assert Prompt(e, r.source) in Prompts(e, raws + [r]);
    }
    forall k | k in Prompts(e, raws) ensures k in Prompts(e, raws + [r]) {
      var q :| q in raws && q.Accepted? && Prompt(e, q.source) == k;
      assert q in raws + [r];
    }
  }

  function Candidates(index: map<string, seq<Raw>>, k: string): seq<Raw>
  {
    if k in index then index[k] else []
  }

  lemma CandidatesAre(e: Env, index: map<string, seq<Raw>>, raws: seq<Raw>, k: string)
    requires Indexed(e, index, raws)
    ensures Candidates(index, k) == Filter(raws, HasPrompt(e, k))
    ensures k in index <==> Candidates(index, k) != []
  {
    if k in index {
      var r :| r in raws && r.Accepted? && Prompt(e, r.source) == k;
      assert r in Filter(raws, HasPrompt(e, k));
    } else {
      FilterNone(raws, HasPrompt(e, k));
    }
  }

  predicate SameSource(candidates: seq<Raw>, source: string)
  {
    forall c :: c in candidates ==> c.Accepted? && c.source == source
  }

  lemma PromptStep(e: Env, raws: seq<Raw>, r: Raw)
    requires PromptsUnique(e, raws) && r.Accepted?
    ensures PromptsUnique(e, raws + [r]) <==> SameSource(Filter(raws, HasPrompt(e, Prompt(e, r.source))), r.source)
  {
    var candidates := Filter(raws, HasPrompt(e, Prompt(e, r.source)));
    if PromptsUnique(e, raws + [r]) {
      forall c | c in candidates ensures c.Accepted? && c.source == r.source {
        assert c in raws + [r] && r in raws + [r];
      }
    }
  }

  lemma IndexStep(e: Env, index: map<string, seq<Raw>>, raws: seq<Raw>, r: Raw)
    requires Indexed(e, index, raws) && r.Accepted?
    ensures var k := Prompt(e, r.source); Indexed(e, index[k := Candidates(index, k) + [r]], raws + [r])
  {
    var k := Prompt(e, r.source);
    var next := index[k := Candidates(index, k) + [r]];
    PromptsAppend(e, raws, r);
    forall j | j in next ensures next[j] == Filter(raws + [r], HasPrompt(e, j)) {
      CandidatesAre(e, index, raws, j);
      AppendAt(e, raws, r, j);
    }
  }

  lemma AppendAt(e: Env, raws: seq<Raw>, r: Raw, prompt: string)
    ensures Filter(raws + [r], HasPrompt(e, prompt))
      == if HasPrompt(e, prompt)(r) then Filter(raws, HasPrompt(e, prompt)) + [r]
         else Filter(raws, HasPrompt(e, prompt))
  {
    FilterAppend(raws, r, HasPrompt(e, prompt));
  }

  /** A row that is not accepted leaves the prompt index as it is. */
  lemma IndexStays(e: Env, index: map<string, seq<Raw>>, raws: seq<Raw>, r: Raw)
    requires Indexed(e, index, raws) && PromptsUnique(e, raws) && !r.Accepted?
    ensures PromptsUnique(e, raws + [r]) && Indexed(e, index, raws + [r])
  {
    PromptsAppend(e, raws, r);
    forall j: string {
      AppendAt(e, raws, r, j);
    }
  }

  ghost predicate Counted(e: Env, x: RawIndex, raws: seq<Raw>)
  {
    && x.accepted == |Filter(raws, IsAccepted)| && x.dropped == |Filter(raws, IsDropped)|
    && x.matches == |Filter(raws, IsDenied(e))|
    && x.accepted == |x.index| + x.duplicates
  }

  function CountRow(e: Env, x: RawIndex, r: Raw, index: map<string, seq<Raw>>, duplicate: bool): RawIndex
    requires !r.Invalid?
  {
    RawIndex(
      index,
      if r.Accepted? then x.accepted + 1 else x.accepted,
      if r.Accepted? then x.dropped else x.dropped + 1,
      if duplicate then x.duplicates + 1 else x.duplicates,
      if e.canonical(r.repo) in e.denied then x.matches + 1 else x.matches)
  }

  lemma CountStep(e: Env, x: RawIndex, raws: seq<Raw>, r: Raw, index: map<string, seq<Raw>>, duplicate: bool)
    requires Counted(e, x, raws) && !r.Invalid?
    requires duplicate ==> r.Accepted?
    requires |index| == |x.index| + if r.Accepted? && !duplicate then 1 else 0
    ensures Counted(e, CountRow(e, x, r, index, duplicate), raws + [r])
  {
    FilterAppend(raws, r, IsAccepted);
    FilterAppend(raws, r, IsDropped);
    FilterAppend(raws, r, IsDenied(e));
  }

  lemma CleanStep(e: Env, raws: seq<Raw>, i: nat)
    requires i < |raws|
    ensures raws[..i + 1] == raws[..i] + [raws[i]]
    ensures RawClean(e, raws) ==> RawClean(e, raws[..i + 1])
  {}

  /** Adds an accepted row under its prompt; None is a second source behind the same prompt. */
  method AddCandidate(e: Env, index: map<string, seq<Raw>>, r: Raw, ghost raws: seq<Raw>)
    returns (y: Option<map<string, seq<Raw>>>, duplicate: bool)
    requires Indexed(e, index, raws) && PromptsUnique(e, raws) && r.Accepted?
    ensures y.Some? <==> PromptsUnique(e, raws + [r])
    ensures y.Some? ==> Indexed(e, y.value, raws + [r]) && |y.value| == |index| + if duplicate then 0 else 1
  {
    var k := Prompt(e, r.source);
    CandidatesAre(e, index, raws, k);
    PromptStep(e, raws, r);
    IndexStep(e, index, raws, r);
    var candidates := Candidates(index, k);
    if !SameSource(candidates, r.source) {
      return None, true;
    }
    return Some(index[k := candidates + [r]]), candidates != [];
  }

  method IndexRaw(e: Env, raws: seq<Raw>) returns (r: Option<RawIndex>)
    ensures r.Some? <==> RawClean(e, raws)
    ensures r.Some? ==> Indexed(e, r.value.index, raws) && Counted(e, r.value, raws)
  {
    var x := RawIndex(map[], 0, 0, 0, 0);
    var digests: map<string, string> := map[];
    for i := 0 to |raws|
      invariant RawClean(e, raws[..i])
      invariant DigestsKnown(e, digests, raws[..i])
      invariant Indexed(e, x.index, raws[..i]) && Counted(e, x, raws[..i])
    {
      var row := raws[i];
      CleanStep(e, raws, i);
      assert row in raws[..i + 1];
      if !RawOk(e, row) {
        return None;
      }
      var digest := e.sha256(row.source);
      DigestStep(e, digests, raws[..i], row);
      if digest in digests && digests[digest] != row.source {
        return None;
      }
      digests := digests[digest := row.source];
      var index, duplicate := x.index, false;
      if row.Accepted? {
        var next, seen := AddCandidate(e, x.index, row, raws[..i]);
        if next.None? {
          return None;
        }
        index, duplicate := next.value, seen;
      } else {
        IndexStays(e, x.index, raws[..i], row);
      }
      CountStep(e, x, raws[..i], row, index, duplicate);
      x := CountRow(e, x, row, index, duplicate);
    }
    assert raws[..|raws|] == raws;
    return Some(x);
  }

  // --------------------------------------------------- fine-tuning rows

  /** The single clean origin of a fine-tuning row, if it has one. */
  method JoinRow(e: Env, index: map<string, seq<Raw>>, s: Sft, ghost raws: seq<Raw>) returns (origin: Option<Raw>)
    requires Indexed(e, index, raws)
    ensures origin.Some? <==> RowClean(e, raws, s)
    ensures origin.Some? ==> origin.value == Origins(e, raws, s)[0]
  {
    if !SftOk(e, s) {
      return None;
    }
    CandidatesAre(e, index, raws, s.prompt);
    if s.prompt !in index {
      assert Origins(e, raws, s) == [];
      return None;
    }
    var matched := Filter(index[s.prompt], SameOrigin(s));
    if |matched| != 1 {
      return None;
    }
    var raw := matched[0];
    assert raw in matched;
    if s.completion != Label(raw.summary) || e.canonical(raw.repo) in e.denied {
      return None;
    }
    return Some(raw);
  }

  lemma RowsStep(e: Env, raws: seq<Raw>, sfts: seq<Sft>, i: nat)
    requires i < |sfts| && RowsClean(e, raws, sfts[..i])
    ensures sfts[..i + 1] == sfts[..i] + [sfts[i]]
    ensures Elements(Mapped(sfts[..i + 1], PromptOf)) == Elements(Mapped(sfts[..i], PromptOf)) + {PromptOf(sfts[i])}
    ensures RowsClean(e, raws, sfts[..i + 1])
      <==> RowClean(e, raws, sfts[i]) && PromptOf(sfts[i]) !in Elements(Mapped(sfts[..i], PromptOf))
    ensures RowsClean(e, raws, sfts) ==> RowsClean(e, raws, sfts[..i + 1])
  {
    var before, s := sfts[..i], sfts[i];
    assert sfts[..i + 1] == before + [s];
    assert s in sfts[..i + 1];
    MappedAppend(before, s, PromptOf);
    DistinctConcat(Mapped(before, PromptOf), [PromptOf(s)]);
    assert Mapped(sfts, PromptOf) == Mapped(sfts[..i + 1], PromptOf) + Mapped(sfts[i + 1..], PromptOf);
    DistinctConcat(Mapped(sfts[..i + 1], PromptOf), Mapped(sfts[i + 1..], PromptOf));
  }

  datatype Join = Join(
    prompts: set<string>, repos: multiset<string>, languages: multiset<string>, licenses: multiset<string>,
    digested: seq<DigestRow>)

  ghost predicate Joined(e: Env, raws: seq<Raw>, sfts: seq<Sft>, j: Join)
  {
    && j.prompts == Elements(Mapped(sfts, PromptOf))
    && j.repos == multiset(Mapped(sfts, RepoOf))
    && j.languages == multiset(Mapped(sfts, LangOf))
    && j.licenses == multiset(Mapped(sfts, LicenseOf(e, raws)))
    && j.digested == Digested(e, raws, sfts)
  }

  function JoinOne(e: Env, j: Join, s: Sft, raw: Raw, row: nat): Join
    requires s.Sft? && raw.Accepted?
  {
    Join(j.prompts + {s.prompt}, j.repos + multiset{raw.repo}, j.languages + multiset{raw.lang},
         j.licenses + multiset{raw.license},
         j.digested + [DigestRow(e.sha256(s.completion), raw.lang, raw.license, raw.repo, row, e.sha256(raw.source))])
  }

  lemma JoinStep(e: Env, raws: seq<Raw>, sfts: seq<Sft>, j: Join, s: Sft)
    requires Joined(e, raws, sfts, j) && RowClean(e, raws, s)
    ensures Joined(e, raws, sfts + [s], JoinOne(e, j, s, Origins(e, raws, s)[0], |sfts| + 1))
  {
    var raw := Origins(e, raws, s)[0];
    assert raw in Origins(e, raws, s);
    MappedAppend(sfts, s, PromptOf);
    MappedAppend(sfts, s, RepoOf);
    MappedAppend(sfts, s, LangOf);
    MappedAppend(sfts, s, LicenseOf(e, raws));
    assert (sfts + [s])[..|sfts|] == sfts;
  }

  method JoinSft(e: Env, index: map<string, seq<Raw>>, sfts: seq<Sft>, ghost raws: seq<Raw>) returns (r: Option<Join>)
    requires Indexed(e, index, raws)
    ensures r.Some? <==> RowsClean(e, raws, sfts)
    ensures r.Some? ==> Joined(e, raws, sfts, r.value)
  {
    var j := Join({}, multiset{}, multiset{}, multiset{}, []);
    for i := 0 to |sfts|
      invariant RowsClean(e, raws, sfts[..i]) && Joined(e, raws, sfts[..i], j)
    {
      RowsStep(e, raws, sfts, i);
      if PromptOf(sfts[i]) in j.prompts {
        return None;
      }
      var origin := JoinRow(e, index, sfts[i], raws);
      if origin.None? {
        return None;
      }
      JoinStep(e, raws, sfts[..i], j, sfts[i]);
      j := JoinOne(e, j, sfts[i], origin.value, i + 1);
    }
    assert sfts[..|sfts|] == sfts;
    return Some(j);
  }

  // ------------------------------------------------------------ the audit

  /** The audit accepts exactly the clean inputs, and reports exactly what they contain. */
  method Audit(e: Env, raws: seq<Raw>, sfts: seq<Sft>) returns (r: Option<Report>)
    ensures r.Some? <==> Clean(e, raws, sfts)
    ensures r.Some? ==> r.value == Expected(e, raws, sfts)
  {
    var indexed := IndexRaw(e, raws);
    if indexed.None? {
      return None;
    }
    var x := indexed.value;
    var joined := JoinSft(e, x.index, sfts, raws);
    if joined.None? {
      return None;
    }
    var j := joined.value;
    if !(x.index.Keys <= j.prompts) {
      return None;
    }
    CleanIsExact(e, raws, sfts);
    r := Some(Report(|raws|, x.accepted, x.dropped, x.duplicates, |x.index|, |sfts|, x.matches,
                     j.repos, j.languages, j.licenses, j.digested));
  }

  /** What a clean pair of inputs means: the fine-tuning prompts are the distinct accepted raw
      prompts, one row each; every raw row is accepted or dropped; distinct sources have distinct
      digests; and each histogram has one entry per fine-tuning row. */
  lemma CleanIsExact(e: Env, raws: seq<Raw>, sfts: seq<Sft>)
    requires Clean(e, raws, sfts)
    ensures Elements(Mapped(sfts, PromptOf)) == Prompts(e, raws) && |sfts| == |Prompts(e, raws)|
    ensures var x := Expected(e, raws, sfts);
      && x.rawTotal == x.accepted + x.dropped && x.accepted == x.sftTotal + x.duplicates && 0 <= x.duplicates
      && |x.repos| == |x.languages| == |x.licenses| == x.sftTotal
  {
    var prompts := Mapped(sfts, PromptOf);
    DistinctSize(prompts);
    forall p | p in Elements(prompts) ensures p in Prompts(e, raws) {
      var i :| 0 <= i < |sfts| && prompts[i] == p;
      var s := sfts[i];
      assert s in sfts && RowClean(e, raws, s);
      assert Origins(e, raws, s)[0] in Origins(e, raws, s);
    }
    assert Elements(prompts) == Prompts(e, raws);
    AcceptedOrDropped(e, raws);
    PromptsAtMostAccepted(e, raws);
  }

  lemma {:induction false} AcceptedOrDropped(e: Env, raws: seq<Raw>)
    requires forall r :: r in raws ==> RawOk(e, r)
    ensures |raws| == |Filter(raws, IsAccepted)| + |Filter(raws, IsDropped)|
  {
    if raws != [] {
      assert raws[|raws| - 1] in raws;
      AcceptedOrDropped(e, raws[..|raws| - 1]);
    }
  }

  function SourcePrompt(e: Env): Raw -> string
  {
    (r: Raw) => if r.Accepted? then Prompt(e, r.source) else ""
  }

  lemma PromptsAtMostAccepted(e: Env, raws: seq<Raw>)
    ensures |Prompts(e, raws)| <= |Filter(raws, IsAccepted)|
    ensures |Prompts(e, raws)| == |Filter(raws, IsAccepted)|
      <==> Distinct(Mapped(Filter(raws, IsAccepted), SourcePrompt(e)))
  {
    var accepted := Filter(raws, IsAccepted);
    var prompts := Mapped(accepted, SourcePrompt(e));
    forall p ensures p in Prompts(e, raws) <==> p in Elements(prompts) {
      if p in Prompts(e, raws) {
        var r :| r in raws && r.Accepted? && Prompt(e, r.source) == p;
        assert r in accepted;
        var i :| 0 <= i < |accepted| && accepted[i] == r;
        assert prompts[i] == p;
      }
      if p in Elements(prompts) {
        var i :| 0 <= i < |prompts| && prompts[i] == p;
        assert accepted[i] in accepted;
      }
    }
    assert Prompts(e, raws) == Elements(prompts);
    DistinctSize(prompts);
  }

  /** Different fine-tuning rows come from different sources. */
  lemma OriginsDiffer(e: Env, raws: seq<Raw>, sfts: seq<Sft>, i: nat, j: nat)
    requires Clean(e, raws, sfts) && i < j < |sfts|
    ensures RowClean(e, raws, sfts[i]) && RowClean(e, raws, sfts[j])
    ensures Origins(e, raws, sfts[i])[0].source != Origins(e, raws, sfts[j])[0].source
    ensures e.sha256(Origins(e, raws, sfts[i])[0].source) != e.sha256(Origins(e, raws, sfts[j])[0].source)
  {
    var s, t := sfts[i], sfts[j];
    assert s in sfts && t in sfts;
    assert Origins(e, raws, s)[0] in Origins(e, raws, s) && Origins(e, raws, t)[0] in Origins(e, raws, t);
    var prompts := Mapped(sfts, PromptOf);
    assert prompts[i] != prompts[j];
  }

  // ------------------------------------------------------------- labels

  /** A label determines the summary it was rendered from. */
  lemma LabelFixesSummary(e: Env, a: Raw, b: Raw)
    requires RawOk(e, a) && RawOk(e, b) && a.Accepted? && b.Accepted?
    requires Label(a.summary) == Label(b.summary)
    ensures a.summary == b.summary
  {
    var x, y := JoinLines(a.summary), JoinLines(b.summary);
    assert |x| == |y|;
    assert x == Label(a.summary)[..|x|] && y == Label(b.summary)[..|y|];
    FirstLine(e, a);
    FirstLine(e, b);
    assert a.summary[0] in a.summary && b.summary[0] in b.summary;
    var m, n := |a.summary[0]|, |b.summary[0]|;
    assert |a.summary| == 2 ==> x[m] == '\n';
    assert |b.summary| == 2 ==> y[n] == '\n';
    assert forall k :: 0 <= k < n ==> y[k] == b.summary[0][k];
    assert forall k :: 0 <= k < m ==> x[k] == a.summary[0][k];
    assert m == n;
    assert a.summary[0] == x[..m] && b.summary[0] == y[..n];
    if |a.summary| == 2 {
      assert a.summary[1] == x[m + 1..] && b.summary[1] == y[n + 1..];
    }
  }

  lemma FirstLine(e: Env, a: Raw)
    requires RawOk(e, a) && a.Accepted?
    ensures JoinLines(a.summary)
      == if |a.summary| == 1 then a.summary[0] else a.summary[0] + "\n" + a.summary[1]
  {}

  // ------------------------------------------------------- order of rows

  /** Neither the verdict nor any count or histogram depends on the order of the rows. */
  lemma OrderBlind(e: Env, raws: seq<Raw>, raws': seq<Raw>, sfts: seq<Sft>, sfts': seq<Sft>)
    requires multiset(raws) == multiset(raws') && multiset(sfts) == multiset(sfts')
    ensures Clean(e, raws, sfts) <==> Clean(e, raws', sfts')
    ensures Clean(e, raws, sfts) ==>
      Expected(e, raws, sfts).(digested := []) == Expected(e, raws', sfts').(digested := [])
  {
    RawOrderBlind(e, raws, raws');
    RowsOrderBlind(e, raws, raws', sfts, sfts');
    if RowsClean(e, raws, sfts) {
      SameSize(raws, raws');
      SameSize(sfts, sfts');
      FilterPermutation(raws, raws', IsAccepted);
      FilterPermutation(raws, raws', IsDropped);
      FilterPermutation(raws, raws', IsDenied(e));
      MappedPermutation(sfts, sfts', RepoOf);
      MappedPermutation(sfts, sfts', LangOf);
      LicensesOrderBlind(e, raws, raws', sfts, sfts');
    }
  }

  lemma RawOrderBlind(e: Env, raws: seq<Raw>, raws': seq<Raw>)
    requires multiset(raws) == multiset(raws')
    ensures RawClean(e, raws) <==> RawClean(e, raws')
    ensures Prompts(e, raws) == Prompts(e, raws')
  {
    PermutedDistinct(raws, raws');
    assert Elements(raws) == Elements(raws');
  }

  lemma RowsOrderBlind(e: Env, raws: seq<Raw>, raws': seq<Raw>, sfts: seq<Sft>, sfts': seq<Sft>)
    requires multiset(raws) == multiset(raws') && multiset(sfts) == multiset(sfts')
    ensures RowsClean(e, raws, sfts) <==> RowsClean(e, raws', sfts')
    ensures Elements(Mapped(sfts, PromptOf)) == Elements(Mapped(sfts', PromptOf))
  {
    PermutedDistinct(sfts, sfts');
    MappedPermutation(sfts, sfts', PromptOf);
    PermutedDistinct(Mapped(sfts, PromptOf), Mapped(sfts', PromptOf));
    forall s ensures RowClean(e, raws, s) <==> RowClean(e, raws', s) {
      RowOrderBlind(e, raws, raws', s);
    }
  }

  lemma SameSize<T>(xs: seq<T>, ys: seq<T>)
    requires multiset(xs) == multiset(ys)
    ensures |xs| == |ys|
  {
    assert |multiset(xs)| == |xs| && |multiset(ys)| == |ys|;
  }

  lemma OriginsOrderBlind(e: Env, raws: seq<Raw>, raws': seq<Raw>, s: Sft)
    requires s.Sft? && multiset(raws) == multiset(raws')
    ensures multiset(Origins(e, raws, s)) == multiset(Origins(e, raws', s))
    ensures |Origins(e, raws, s)| == |Origins(e, raws', s)|
    ensures |Origins(e, raws, s)| == 1 ==> Origins(e, raws, s) == Origins(e, raws', s)
  {
    FilterPermutation(raws, raws', HasPrompt(e, s.prompt));
    FilterPermutation(Filter(raws, HasPrompt(e, s.prompt)), Filter(raws', HasPrompt(e, s.prompt)), SameOrigin(s));
    var a, b := Origins(e, raws, s), Origins(e, raws', s);
    if |a| == 1 {
      PermutedDistinct(a, b);
      assert b[0] in b;
    }
  }

  lemma RowOrderBlind(e: Env, raws: seq<Raw>, raws': seq<Raw>, s: Sft)
    requires multiset(raws) == multiset(raws')
    ensures RowClean(e, raws, s) <==> RowClean(e, raws', s)
  {
    if s.Sft? {
      OriginsOrderBlind(e, raws, raws', s);
    }
  }

  lemma LicensesOrderBlind(e: Env, raws: seq<Raw>, raws': seq<Raw>, sfts: seq<Sft>, sfts': seq<Sft>)
    requires multiset(raws) == multiset(raws') && multiset(sfts) == multiset(sfts')
    requires forall s :: s in sfts ==> RowClean(e, raws, s)
    ensures multiset(Mapped(sfts, LicenseOf(e, raws))) == multiset(Mapped(sfts', LicenseOf(e, raws')))
  {
    forall i | 0 <= i < |sfts| ensures LicenseOf(e, raws)(sfts[i]) == LicenseOf(e, raws')(sfts[i]) {
      assert sfts[i] in sfts;
      OriginsOrderBlind(e, raws, raws', sfts[i]);
    }
    assert Mapped(sfts, LicenseOf(e, raws)) == Mapped(sfts, LicenseOf(e, raws'));
    MappedPermutation(sfts, sfts', LicenseOf(e, raws'));
  }

  // --------------------------------------------------------- uniqueness

  /** Without duplicate sources the raw rows determine the fine-tuning rows up to order. */
  lemma RowsDetermined(e: Env, raws: seq<Raw>, sfts: seq<Sft>, sfts': seq<Sft>)
    requires Clean(e, raws, sfts) && Clean(e, raws, sfts')
    requires Expected(e, raws, sfts).duplicates == 0
    ensures multiset(sfts) == multiset(sfts')
  {
    CleanIsExact(e, raws, sfts);
    CleanIsExact(e, raws, sfts');
    RowsAlsoIn(e, raws, sfts, sfts');
    RowsAlsoIn(e, raws, sfts', sfts);
    CleanDistinct(e, raws, sfts);
    CleanDistinct(e, raws, sfts');
    DistinctCounts(sfts);
    DistinctCounts(sfts');
    var a, b := multiset(sfts), multiset(sfts');
    forall s ensures a[s] == b[s] {
      assert s in a <==> s in sfts;
      assert s in b <==> s in sfts';
    }
    SameCounts(a, b);
  }

  lemma CleanDistinct(e: Env, raws: seq<Raw>, sfts: seq<Sft>)
    requires Clean(e, raws, sfts)
    ensures Distinct(sfts)
  {
    var prompts := Mapped(sfts, PromptOf);
    forall i, j | 0 <= i < j < |sfts| ensures sfts[i] != sfts[j] {
      assert prompts[i] != prompts[j];
    }
  }

  lemma RowsAlsoIn(e: Env, raws: seq<Raw>, sfts: seq<Sft>, sfts': seq<Sft>)
    requires RowsClean(e, raws, sfts) && RowsClean(e, raws, sfts')
    requires Elements(Mapped(sfts, PromptOf)) == Elements(Mapped(sfts', PromptOf))
    requires |Prompts(e, raws)| == |Filter(raws, IsAccepted)|
    ensures forall s :: s in sfts ==> s in sfts'
  {
    forall i | 0 <= i < |sfts| ensures sfts[i] in sfts' {
      var s := sfts[i];
      assert s in sfts;
      var prompts := Mapped(sfts', PromptOf);
      assert Mapped(sfts, PromptOf)[i] in Elements(prompts);
      var j :| 0 <= j < |sfts'| && prompts[j] == PromptOf(s);
      var t := sfts'[j];
      assert t in sfts' && prompts[j] == PromptOf(t);
      assert RowClean(e, raws, s) && RowClean(e, raws, t);
      assert s.Sft? && t.Sft? && PromptOf(t) == PromptOf(s);
      PromptFixesRow(e, raws, s, t);
    }
  }

  lemma PromptFixesRow(e: Env, raws: seq<Raw>, s: Sft, t: Sft)
    requires RowClean(e, raws, s) && RowClean(e, raws, t) && s.prompt == t.prompt
    requires |Prompts(e, raws)| == |Filter(raws, IsAccepted)|
    ensures s == t
  {
    PromptsAtMostAccepted(e, raws);
    var a, b := Origins(e, raws, s)[0], Origins(e, raws, t)[0];
    assert a in Origins(e, raws, s) && b in Origins(e, raws, t);
    var accepted := Filter(raws, IsAccepted);
    assert a in accepted && b in accepted;
    var k :| 0 <= k < |accepted| && accepted[k] == a;
    var l :| 0 <= l < |accepted| && accepted[l] == b;
    var prompts := Mapped(accepted, SourcePrompt(e));
    assert prompts[k] == prompts[l];
  }
}
