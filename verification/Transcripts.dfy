/** Three separately written parsers of one agent transcript: the harness's, the independent
    recomputation's and the coding benchmark's. */
module Transcripts {
  import opened Sequences
  import opened TranscriptLines

  ghost predicate HarnessReads(e: Env, lines: seq<Line>) { forall l :: l in lines ==> HarnessLine(e, l) }
  ghost predicate RecomputeReads(e: Env, lines: seq<Line>) { forall l :: l in lines ==> RecomputeLine(e, l) }
  ghost predicate CodingReads(e: Env, lines: seq<Line>) { forall l :: l in lines ==> CodingLine(e, l) }

  function PartsOf(e: Env, line: Line): seq<Part> { if IsTurn(line) then [PartOf(e, line.json)] else [] }

  /** What the turns of a transcript contribute, in order. */
  function Parts(e: Env, lines: seq<Line>): seq<Part>
  {
    if lines == [] then [] else Parts(e, lines[..|lines| - 1]) + PartsOf(e, lines[|lines| - 1])
  }

  lemma PartsStep(e: Env, lines: seq<Line>, i: nat)
    requires i < |lines|
    ensures lines[..i + 1] == lines[..i] + [lines[i]]
    ensures Parts(e, lines[..i + 1]) == Parts(e, lines[..i]) + PartsOf(e, lines[i])
  {
    assert lines[..i + 1][..i] == lines[..i];
  }

  function InputOf(p: Part): int { p.counts.input }
  function OutputOf(p: Part): int { p.counts.output }
  function CacheReadOf(p: Part): int { p.counts.cacheRead }
  function CacheWriteOf(p: Part): int { p.counts.cacheWrite }
  function CacheWrite1hOf(p: Part): int { p.counts.cacheWrite1h }
  function CacheWrite5mOf(p: Part): int { p.counts.cacheWrite5m }
  function PromptOf(p: Part): int { Prompt(p.counts) }
  function AllCacheWritesOf(p: Part): int { CacheWrites(p.counts) }
  function CharsIn(p: Part): int { p.chars }
  function CallsIn(p: Part): int { p.calls }
  function OpensIn(p: Part): int { p.opens }

  /** The error of the last turn that reports one. */
  function LastError(parts: seq<Part>): Option<Json>
  {
    if parts == [] then None else NextError(LastError(parts[..|parts| - 1]), parts[|parts| - 1])
  }

  function NextError(error: Option<Json>, p: Part): Option<Json>
  {
    if Truthy(p.error) then Some(p.error) else error
  }

  /** The text of the last turn that says anything. */
  function LastAnswer(e: Env, parts: seq<Part>): string
  {
    if parts == [] then "" else NextAnswer(e, LastAnswer(e, parts[..|parts| - 1]), parts[|parts| - 1])
  }

  function NextAnswer(e: Env, answer: string, p: Part): string
  {
    if e.strip(p.text) != "" then p.text else answer
  }

  lemma LastAppend(e: Env, parts: seq<Part>, p: Part)
    ensures LastError(parts + [p]) == NextError(LastError(parts), p)
    ensures LastAnswer(e, parts + [p]) == NextAnswer(e, LastAnswer(e, parts), p)
  {
    assert (parts + [p])[..|parts|] == parts;
  }

  function Same(n: int): int { n }

  lemma {:induction false} SumMapped(parts: seq<Part>, f: Part -> int)
    ensures Sum(Mapped(parts, f), Same) == Sum(parts, f)
  {
    if parts != [] {
      SumMapped(parts[..|parts| - 1], f);
      assert Mapped(parts, f)[..|parts| - 1] == Mapped(parts[..|parts| - 1], f);
    }
  }

  /** Rounds n/4 to the nearest integer, ties to even. */
  function RoundQuarter(n: int): int
  {
    var q, r := n / 4, n % 4;
    if r < 2 then q else if r == 3 then q + 1 else if q % 2 == 0 then q else q + 1
  }

  // ------------------------------------------------------------- harness

  datatype Harness = Harness(
    input: int, output: int, cacheRead: int, cacheWrite: int, cacheWrite1h: int,
    promptInput: int, firstTurnPromptInput: int, variableInput: int, firstTurnInput: int, loopInput: int,
    turns: nat, ctxChars: int, ctxTok: int, toolCalls: int, sourceOpens: int,
    answer: string, error: Option<Json>)

  ghost predicate HarnessCounts(h: Harness, parts: seq<Part>)
  {
    && h.input == Sum(parts, InputOf) && h.output == Sum(parts, OutputOf)
    && h.cacheRead == Sum(parts, CacheReadOf) && h.cacheWrite == Sum(parts, CacheWriteOf)
    && h.cacheWrite1h == Sum(parts, CacheWrite1hOf)
    && h.ctxChars == Sum(parts, CharsIn) && h.toolCalls == Sum(parts, CallsIn)
    && h.sourceOpens == Sum(parts, OpensIn)
    && h.error == LastError(parts)
  }

  const NO_COUNTS := Harness(0, 0, 0, 0, 0, 0, 0, 0, 0, 0, 0, 0, 0, 0, 0, "", None)

  function HarnessAdd(e: Env, h: Harness, n: HarnessShare): Harness
  {
    h.(input := h.input + n.input, output := h.output + n.output,
       cacheRead := h.cacheRead + n.cacheRead, cacheWrite := h.cacheWrite + n.cacheWrite,
       cacheWrite1h := h.cacheWrite1h + n.cacheWrite1h,
       ctxChars := h.ctxChars + n.chars, toolCalls := h.toolCalls + n.calls, sourceOpens := h.sourceOpens + n.opens,
       answer := if e.strip(n.text) != "" then n.text else h.answer,
       error := if Truthy(n.error) then Some(n.error) else h.error)
  }

  lemma HarnessCountsStep(e: Env, h: Harness, parts: seq<Part>, p: Part)
    requires HarnessCounts(h, parts)
    ensures HarnessCounts(HarnessAdd(e, h, HarnessShareOf(p)), parts + [p])
  {
    SumAppend(parts, p, InputOf);
    SumAppend(parts, p, OutputOf);
    SumAppend(parts, p, CacheReadOf);
    SumAppend(parts, p, CacheWriteOf);
    SumAppend(parts, p, CacheWrite1hOf);
    SumAppend(parts, p, CharsIn);
    SumAppend(parts, p, CallsIn);
    SumAppend(parts, p, OpensIn);
    LastAppend(e, parts, p);
  }

  function Head(xs: seq<int>): int { if xs == [] then 0 else xs[0] }
  function Tail(xs: seq<int>): seq<int> { if xs == [] then [] else xs[1..] }

  ghost predicate HarnessState(e: Env, h: Harness, prompts: seq<int>, inputs: seq<int>, parts: seq<Part>)
  {
    && HarnessCounts(h, parts) && h.answer == LastAnswer(e, parts)
    && prompts == Mapped(parts, PromptOf) && inputs == Mapped(parts, InputOf)
  }

  lemma HarnessStateStep(e: Env, h: Harness, prompts: seq<int>, inputs: seq<int>, parts: seq<Part>, p: Part)
    requires HarnessState(e, h, prompts, inputs, parts)
    ensures var n := HarnessShareOf(p);
      HarnessState(e, HarnessAdd(e, h, n), prompts + [n.prompt], inputs + [n.input], parts + [p])
  {
    HarnessCountsStep(e, h, parts, p);
    LastAppend(e, parts, p);
    MappedAppend(parts, p, PromptOf);
    MappedAppend(parts, p, InputOf);
  }

  datatype HarnessSums = HarnessSums(h: Harness, prompts: seq<int>, inputs: seq<int>)

  ghost predicate HarnessSumsOf(e: Env, r: HarnessSums, parts: seq<Part>)
  {
    HarnessState(e, r.h, r.prompts, r.inputs, parts)
  }

  /** Adds one line to the totals; None when the harness raises on it. */
  method HarnessRead(e: Env, line: Line, s: HarnessSums, ghost parts: seq<Part>) returns (r: Option<HarnessSums>)
    requires HarnessSumsOf(e, s, parts)
    ensures r.Some? <==> HarnessLine(e, line)
    ensures r.Some? ==> HarnessSumsOf(e, r.value, parts + PartsOf(e, line))
  {
    if line.Value? && !line.json.Obj? {
      return None;
    }
    if !IsTurn(line) {
      assert parts + PartsOf(e, line) == parts;
      return Some(s);
    }
    var share := HarnessPart(e, line.json);
    if share.None? {
      return None;
    }
    var n := share.value;
    HarnessStateStep(e, s.h, s.prompts, s.inputs, parts, PartOf(e, line.json));
    r := Some(HarnessSums(HarnessAdd(e, s.h, n), s.prompts + [n.prompt], s.inputs + [n.input]));
  }

  method ReadHarness(e: Env, lines: seq<Line>) returns (r: Option<HarnessSums>)
    ensures r.Some? <==> HarnessReads(e, lines)
    ensures r.Some? ==> HarnessSumsOf(e, r.value, Parts(e, lines))
  {
    var s := HarnessSums(NO_COUNTS, [], []);
    for i := 0 to |lines|
      invariant HarnessReads(e, lines[..i]) && HarnessSumsOf(e, s, Parts(e, lines[..i]))
    {
      PartsStep(e, lines, i);
      var next := HarnessRead(e, lines[i], s, Parts(e, lines[..i]));
      if next.None? {
        assert lines[i] in lines;
        return None;
      }
      s := next.value;
    }
    assert lines[..|lines|] == lines;
    r := Some(s);
  }

  method ParseHarness(e: Env, lines: seq<Line>) returns (r: Option<Harness>)
    ensures r.Some? <==> HarnessReads(e, lines)
    ensures r.Some? ==> var parts, h := Parts(e, lines), r.value;
      && HarnessCounts(h, parts)
      && h.promptInput == Sum(parts, PromptOf) && h.turns == |parts|
      && h.firstTurnPromptInput + h.variableInput == h.promptInput
      && h.firstTurnInput + h.loopInput == h.input
      && h.variableInput == Sum(Tail(Mapped(parts, PromptOf)), Same)
      && h.ctxTok == RoundQuarter(h.ctxChars)
      && h.answer == e.strip(LastAnswer(e, parts))
  {
    var sums := ReadHarness(e, lines);
    if sums.None? {
      return None;
    }
    var HarnessSums(h, prompts, inputs) := sums.value;
    HeadAndTail(prompts);
    HeadAndTail(inputs);
    SumMapped(Parts(e, lines), PromptOf);
    SumMapped(Parts(e, lines), InputOf);
    r := Some(h.(promptInput := Sum(prompts, Same), firstTurnPromptInput := Head(prompts),
                 variableInput := Sum(Tail(prompts), Same), firstTurnInput := Head(inputs),
                 loopInput := Sum(Tail(inputs), Same), turns := |prompts|, ctxTok := RoundQuarter(h.ctxChars),
                 answer := e.strip(h.answer)));
  }

  lemma HeadAndTail(xs: seq<int>)
    ensures Head(xs) + Sum(Tail(xs), Same) == Sum(xs, Same)
  {
    if xs != [] {
      assert xs == xs[..1] + xs[1..];
      SumConcat(xs[..1], xs[1..], Same);
    }
  }

  // ------------------------------------------------------- recomputation

  datatype Recomputed = Recomputed(
    ctxChars: int, ctxTok: int, input: int, output: int, toolCalls: int, turns: nat, variableInput: int)

  datatype Lists = Lists(chars: int, calls: int, inputs: seq<int>, outputs: seq<int>, prompts: seq<int>)

  ghost predicate ListsOf(l: Lists, parts: seq<Part>)
  {
    && l.chars == Sum(parts, CharsIn) && l.calls == Sum(parts, CallsIn)
    && l.inputs == Mapped(parts, InputOf) && l.outputs == Mapped(parts, OutputOf)
    && l.prompts == Mapped(parts, PromptOf)
  }

  function ListsAdd(l: Lists, n: RecomputeShare): Lists
  {
    Lists(l.chars + n.chars, l.calls + n.calls, l.inputs + [n.input], l.outputs + [n.output], l.prompts + [n.prompt])
  }

  lemma ListsStep(l: Lists, parts: seq<Part>, p: Part)
    requires ListsOf(l, parts)
    ensures ListsOf(ListsAdd(l, RecomputeShareOf(p)), parts + [p])
  {
    SumAppend(parts, p, CharsIn);
    SumAppend(parts, p, CallsIn);
    MappedAppend(parts, p, InputOf);
    MappedAppend(parts, p, OutputOf);
    MappedAppend(parts, p, PromptOf);
  }

  /** Adds one line to the lists; None when the recomputation raises on it. */
  method RecomputeRead(e: Env, line: Line, l: Lists, ghost parts: seq<Part>) returns (r: Option<Lists>)
    requires ListsOf(l, parts)
    ensures r.Some? <==> RecomputeLine(e, line)
    ensures r.Some? ==> ListsOf(r.value, parts + PartsOf(e, line))
  {
    if line.Value? && !line.json.Obj? {
      return None;
    }
    if !IsTurn(line) {
      assert parts + PartsOf(e, line) == parts;
      return Some(l);
    }
    var share := RecomputePart(e, line.json);
    if share.None? {
      return None;
    }
    ListsStep(l, parts, PartOf(e, line.json));
    r := Some(ListsAdd(l, share.value));
  }

  function RecomputedOf(parts: seq<Part>): Recomputed
  {
    Recomputed(Sum(parts, CharsIn), RoundQuarter(Sum(parts, CharsIn)), Sum(parts, InputOf), Sum(parts, OutputOf),
               Sum(parts, CallsIn), |parts|, Sum(Tail(Mapped(parts, PromptOf)), Same))
  }

  method Recompute(e: Env, lines: seq<Line>) returns (m: Option<Recomputed>)
    ensures m.Some? <==> RecomputeReads(e, lines)
    ensures m.Some? ==> m.value == RecomputedOf(Parts(e, lines))
  {
    var l := Lists(0, 0, [], [], []);
    for i := 0 to |lines|
      invariant RecomputeReads(e, lines[..i]) && ListsOf(l, Parts(e, lines[..i]))
    {
      PartsStep(e, lines, i);
      var next := RecomputeRead(e, lines[i], l, Parts(e, lines[..i]));
      if next.None? {
        assert lines[i] in lines;
        return None;
      }
      l := next.value;
    }
    assert lines[..|lines|] == lines;
    SumMapped(Parts(e, lines), InputOf);
    SumMapped(Parts(e, lines), OutputOf);
    m := Some(Recomputed(l.chars, RoundQuarter(l.chars), Sum(l.inputs, Same), Sum(l.outputs, Same), l.calls, |l.inputs|,
                         Sum(Tail(l.prompts), Same)));
  }

  // ------------------------------------------------------ coding harness

  datatype Coding = Coding(
    inputTokens: int, uncachedInput: int, output: int, cacheRead: int, cacheWrite: int,
    toolCalls: int, sourceOpens: int, turns: nat, error: Option<string>,
    reportedError: bool, lastErrorText: Option<string>)

  function ErrorText(e: Env, error: Option<Json>): Option<string>
  {
    if error.None? then None else Some(Rendered(e, error.value))
  }

  predicate Reported(error: Option<string>) { error.Some? && error.value != "" }

  function Shortened(error: Option<string>): Option<string>
  {
    if error.Some? && |error.value| > 300 then Some(error.value[..300]) else error
  }

  ghost predicate CodingCounts(e: Env, c: Coding, parts: seq<Part>)
  {
    && c.inputTokens == Sum(parts, PromptOf) && c.uncachedInput == Sum(parts, InputOf)
    && c.output == Sum(parts, OutputOf) && c.cacheRead == Sum(parts, CacheReadOf)
    && c.cacheWrite == Sum(parts, AllCacheWritesOf) && c.toolCalls == Sum(parts, CallsIn)
    && c.sourceOpens == Sum(parts, OpensIn) && c.turns == |parts|
    && c.error == ErrorText(e, LastError(parts))
  }

  function CodingAdd(e: Env, c: Coding, n: CodingShare): Coding
  {
    c.(inputTokens := c.inputTokens + n.prompt, uncachedInput := c.uncachedInput + n.input,
       output := c.output + n.output, cacheRead := c.cacheRead + n.cacheRead,
       cacheWrite := c.cacheWrite + n.cacheWrite, toolCalls := c.toolCalls + n.calls,
       sourceOpens := c.sourceOpens + n.opens, turns := c.turns + 1,
       error := if Truthy(n.error) then Some(Rendered(e, n.error)) else c.error)
  }

  lemma CodingCountsStep(e: Env, c: Coding, parts: seq<Part>, p: Part)
    requires CodingCounts(e, c, parts)
    ensures CodingCounts(e, CodingAdd(e, c, CodingShareOf(p)), parts + [p])
  {
    SumAppend(parts, p, PromptOf);
    SumAppend(parts, p, InputOf);
    SumAppend(parts, p, OutputOf);
    SumAppend(parts, p, CacheReadOf);
    SumAppend(parts, p, AllCacheWritesOf);
    SumAppend(parts, p, CallsIn);
    SumAppend(parts, p, OpensIn);
    LastAppend(e, parts, p);
  }

  /** Adds one line to the totals; None when the coding parser raises on it. */
  method CodingRead(e: Env, line: Line, c: Coding, ghost parts: seq<Part>) returns (r: Option<Coding>)
    requires CodingCounts(e, c, parts)
    ensures r.Some? <==> CodingLine(e, line)
    ensures r.Some? ==> CodingCounts(e, r.value, parts + PartsOf(e, line))
  {
    if line.Overlong? || (line.Value? && !line.json.Obj?) {
      return None;
    }
    if !IsTurn(line) {
      assert parts + PartsOf(e, line) == parts;
      return Some(c);
    }
    var share := CodingPart(e, line.json);
    if share.None? {
      return None;
    }
    CodingCountsStep(e, c, parts, PartOf(e, line.json));
    r := Some(CodingAdd(e, c, share.value));
  }

  method ParseCoding(e: Env, lines: seq<Line>) returns (r: Option<Coding>)
    ensures r.Some? <==> CodingReads(e, lines)
    ensures r.Some? ==> CodingCounts(e, r.value, Parts(e, lines))
    ensures r.Some? ==>
      && r.value.reportedError == Reported(r.value.error)
      && r.value.lastErrorText == Shortened(r.value.error)
  {
    var c := Coding(0, 0, 0, 0, 0, 0, 0, 0, None, false, None);
    for i := 0 to |lines|
      invariant CodingReads(e, lines[..i]) && CodingCounts(e, c, Parts(e, lines[..i]))
    {
      PartsStep(e, lines, i);
      var next := CodingRead(e, lines[i], c, Parts(e, lines[..i]));
      if next.None? {
        assert lines[i] in lines;
        return None;
      }
      c := next.value;
    }
    assert lines[..|lines|] == lines;
    r := Some(c.(reportedError := c.error.Some? && c.error.value != "", lastErrorText := Shortened(c.error)));
  }

  // ----------------------------------------------------------- agreement

  lemma {:induction false} PromptSplits(parts: seq<Part>)
    ensures Sum(parts, PromptOf) == Sum(parts, InputOf) + Sum(parts, CacheReadOf) + Sum(parts, AllCacheWritesOf)
    ensures Sum(parts, AllCacheWritesOf)
         == Sum(parts, CacheWriteOf) + Sum(parts, CacheWrite1hOf) + Sum(parts, CacheWrite5mOf)
  {
    if parts != [] {
      PromptSplits(parts[..|parts| - 1]);
    }
  }

  lemma HarnessTurnReadsLeast(e: Env, t: Json)
    requires HarnessTurn(e, t)
    ensures RecomputeTurn(e, t) && CodingTurn(e, t)
  {
    SameMessage(t);
    SameUsage(e, UsageOf(MessageOf(t)));
  }

  /** The harness reads least: what it reads the recomputation reads too, and so does the coding
      parser unless a line holds an overlong number. */
  lemma HarnessReadsLeast(e: Env, lines: seq<Line>)
    requires HarnessReads(e, lines)
    ensures RecomputeReads(e, lines)
    ensures CodingReads(e, lines) <==> Overlong !in lines
  {
    forall l | l in lines ensures RecomputeLine(e, l) && (CodingLine(e, l) <==> !l.Overlong?) {
      assert HarnessLine(e, l);
      if IsTurn(l) {
        HarnessTurnReadsLeast(e, l.json);
      }
    }
  }

  /** The three parsers on one transcript, each with its own condition. Whenever the harness reads it,
      harness and recomputation agree on all seven exact keys; whenever two parsers read it they agree
      on every quantity they share; and the coding parser's input tokens are the uncached, cache-read
      and cache-write tokens together, which exceed the harness's own parts by the 5-minute cache
      writes the harness does not itemise. */
  method CrossCheck(e: Env, lines: seq<Line>) returns (h: Option<Harness>, m: Option<Recomputed>, c: Option<Coding>)
    ensures h.Some? <==> HarnessReads(e, lines)
    ensures m.Some? <==> RecomputeReads(e, lines)
    ensures c.Some? <==> CodingReads(e, lines)
    ensures h.Some? ==> m.Some? && (c.Some? <==> Overlong !in lines)
    ensures h.Some? ==>
      && h.value.ctxChars == m.value.ctxChars && h.value.ctxTok == m.value.ctxTok
      && h.value.input == m.value.input && h.value.output == m.value.output
      && h.value.toolCalls == m.value.toolCalls && h.value.turns == m.value.turns
      && h.value.variableInput == m.value.variableInput
    ensures h.Some? && c.Some? ==>
      && c.value.inputTokens == h.value.promptInput && c.value.uncachedInput == h.value.input
      && c.value.output == h.value.output && c.value.cacheRead == h.value.cacheRead
      && c.value.toolCalls == h.value.toolCalls && c.value.sourceOpens == h.value.sourceOpens
      && c.value.turns == h.value.turns
      && c.value.reportedError == Reported(ErrorText(e, h.value.error))
      && c.value.lastErrorText == Shortened(ErrorText(e, h.value.error))
      && c.value.cacheWrite == h.value.cacheWrite + h.value.cacheWrite1h + Sum(Parts(e, lines), CacheWrite5mOf)
    ensures m.Some? && c.Some? ==>
      && c.value.uncachedInput == m.value.input && c.value.output == m.value.output
      && c.value.toolCalls == m.value.toolCalls && c.value.turns == m.value.turns
    ensures c.Some? ==> c.value.inputTokens == c.value.uncachedInput + c.value.cacheRead + c.value.cacheWrite
  {
    h := ParseHarness(e, lines);
    m := Recompute(e, lines);
    c := ParseCoding(e, lines);
    PromptSplits(Parts(e, lines));
    if h.Some? {
      HarnessReadsLeast(e, lines);
    }
  }

  // ------------------------------------------------------ ways to part

  /** Which of the three parsers read a transcript. */
  ghost predicate ReadBy(e: Env, lines: seq<Line>, harness: bool, recompute: bool, coding: bool)
  {
    HarnessReads(e, lines) == harness && RecomputeReads(e, lines) == recompute && CodingReads(e, lines) == coding
  }

  function TurnWith(key: Key, value: Json): Line
  {
    Value(Obj(map[Key.Type := Str("turn_end"), key := value]))
  }

  function MessageWith(key: Key, value: Json): Line { TurnWith(Key.Message, Obj(map[key := value])) }

  const NULL_TEXT := Obj(map[Key.Type := Str("text"), Key.Text := Null])

  lemma OneLine(e: Env, line: Line)
    ensures ReadBy(e, [line], HarnessLine(e, line), RecomputeLine(e, line), CodingLine(e, line))
  {
    assert line in [line];
  }

  lemma OneTurn(e: Env, key: Key, value: Json)
    requires key != Key.Type
    ensures var line := TurnWith(key, value);
      && IsTurn(line)
      && ReadBy(e, [line], HarnessTurn(e, line.json), RecomputeTurn(e, line.json), CodingTurn(e, line.json))
  {
    OneLine(e, TurnWith(key, value));
  }

  lemma MessageTurn(m: Json)
    requires m.Obj?
    ensures var t := TurnWith(Key.Message, m).json;
      Results(t) == NOTHING && HarnessMessage(t) == m && MessageOf(t) == m
  {
  }

  /** A turn that consists of a message without usage is read by the recomputation, and the others
      depend on the message's content. */
  lemma BareMessage(e: Env, m: Json)
    requires m.Obj? && Key.Usage !in m.fields
    ensures ReadBy(e, [TurnWith(Key.Message, m)], CallsReadable(m) && AnswerReadable(m), true, CallsReadable(m))
  {
    OneTurn(e, Key.Message, m);
    MessageTurn(m);
    NoUsage(e, m);
  }

  lemma NoUsage(e: Env, message: Json)
    requires message.Obj? && Key.Usage !in message.fields
    ensures var u := UsageOf(message); HarnessUsage(e, u) && RecomputeUsage(e, u) && CodingUsage(e, u)
  {
  }

  /** A null message, a null content, a content item that is no object, and a text item whose text is
      null each stop the harness alone. */
  lemma HarnessAloneRaises(e: Env)
    ensures ReadBy(e, [TurnWith(Key.Message, Null)], false, true, true)
    ensures ReadBy(e, [MessageWith(Key.Content, Null)], false, true, true)
    ensures ReadBy(e, [MessageWith(Key.Content, Arr([Num(1.0)]))], false, true, true)
    ensures ReadBy(e, [MessageWith(Key.Content, Arr([NULL_TEXT]))], false, true, true)
  {
    NullMessage(e);
    BareMessage(e, Obj(map[Key.Content := Null]));
    UnreadableItem(e, Num(1.0));
    UnreadableItem(e, NULL_TEXT);
  }

  lemma NullMessage(e: Env)
    ensures ReadBy(e, [TurnWith(Key.Message, Null)], false, true, true)
  {
    var t := TurnWith(Key.Message, Null).json;
    OneTurn(e, Key.Message, Null);
    assert Results(t) == NOTHING && HarnessMessage(t) == Null && MessageOf(t) == EMPTY_OBJECT;
    NoUsage(e, EMPTY_OBJECT);
  }

  lemma UnreadableItem(e: Env, item: Json)
    requires !TextReadable(item) && CallReadable(item)
    ensures ReadBy(e, [MessageWith(Key.Content, Arr([item]))], false, true, true)
  {
    var m := Obj(map[Key.Content := Arr([item])]);
    BareMessage(e, m);
    assert item in Items(Field(m, Key.Content, NOTHING));
  }

  /** Tool results that are text, and a tool-result text chunk whose text is null, stop the harness and
      the recomputation; the coding parser only counts the results. */
  lemma CodingAloneReads(e: Env)
    ensures ReadBy(e, [TurnWith(Key.ToolResults, Str("x"))], false, false, true)
    ensures ReadBy(e, [TurnWith(Key.ToolResults, Arr([Obj(map[Key.Content := Arr([NULL_TEXT])])]))], false, false, true)
  {
    UnreadableResults(e, Str("x"));
    var result := Obj(map[Key.Content := Arr([NULL_TEXT])]);
    assert NULL_TEXT in Items(ContentOf(result));
    assert !ResultReadable(result) && result in [result];
    UnreadableResults(e, Arr([result]));
  }

  lemma UnreadableResults(e: Env, results: Json)
    requires Truthy(results) && Sized(results)
    requires !results.Arr? || exists r :: r in results.items && !ResultReadable(r)
    ensures ReadBy(e, [TurnWith(Key.ToolResults, results)], false, false, true)
  {
    var t := TurnWith(Key.ToolResults, results).json;
    OneTurn(e, Key.ToolResults, results);
    assert Results(t) == results && MessageOf(t) == EMPTY_OBJECT;
    NoUsage(e, EMPTY_OBJECT);
  }

  /** A content that is a number, and shell-call arguments that are no object, stop the harness and the
      coding parser; the recomputation never reads the message's content. */
  lemma RecomputeAloneReads(e: Env)
    ensures ReadBy(e, [MessageWith(Key.Content, Num(1.0))], false, true, false)
    ensures ReadBy(e, [MessageWith(Key.Content, Arr([BadCall()]))], false, true, false)
  {
    BareMessage(e, Obj(map[Key.Content := Num(1.0)]));
    BadCallUnreadable();
    BareMessage(e, Obj(map[Key.Content := Arr([BadCall()])]));
  }

  function BadCall(): Json
  {
    Obj(map[Key.Type := Str("toolCall"), Key.Name := Str("bash"), Key.Arguments := Num(1.0)])
  }

  lemma BadCallUnreadable()
    ensures !CallsReadable(Obj(map[Key.Content := Arr([BadCall()])]))
  {
    var call := BadCall();
    assert Says(call, Key.Type, "toolCall") && Says(call, Key.Name, "bash") && ArgumentsOf(call) == Num(1.0);
    assert call in Items(ContentOf(Obj(map[Key.Content := Arr([call])])));
  }

  /** An overlong number stops the coding parser alone. */
  lemma CodingAloneRaises(e: Env)
    ensures ReadBy(e, [Overlong], true, true, false)
  {
    OneLine(e, Overlong);
  }

  /** A line that is no object, and a token count that is no number, stop all three. */
  lemma NoneReads(e: Env)
    ensures ReadBy(e, [Value(Null)], false, false, false)
    ensures ReadBy(e, [MessageWith(Key.Usage, Obj(map[Key.Input := NonFinite]))], false, false, false)
  {
    OneLine(e, Value(Null));
    NonFiniteInput(e);
    UnreadableUsage(e, Obj(map[Key.Input := NonFinite]));
  }

  lemma UnreadableUsage(e: Env, usage: Json)
    requires Truthy(usage) && Tokens(e, usage, Key.Input).None?
    ensures ReadBy(e, [MessageWith(Key.Usage, usage)], false, false, false)
  {
    var m := Obj(map[Key.Usage := usage]);
    OneTurn(e, Key.Message, m);
    MessageTurn(m);
    UsageGiven(usage);
    InputNeeded(e, usage);
  }

  lemma NonFiniteInput(e: Env)
    ensures Tokens(e, Obj(map[Key.Input := NonFinite]), Key.Input).None?
  {
    var usage := Obj(map[Key.Input := NonFinite]);
    assert Field(usage, Key.Input, Null) == NonFinite;
  }

  lemma UsageGiven(usage: Json)
    requires Truthy(usage)
    ensures UsageOf(Obj(map[Key.Usage := usage])) == usage
  {
  }

  lemma InputNeeded(e: Env, usage: Json)
    requires Tokens(e, usage, Key.Input).None?
    ensures !HarnessUsage(e, usage) && !RecomputeUsage(e, usage) && !CodingUsage(e, usage)
  {
    assert Key.Input in HARNESS_PROMPT_KEYS && Key.Input in RECOMPUTE_PROMPT_KEYS && Key.Input in CODING_PROMPT_KEYS;
  }
}
