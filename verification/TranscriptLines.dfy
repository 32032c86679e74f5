/** One line of an agent transcript as the three parsers read it. A line is arbitrary JSON, and each
    parser raises on other malformed parts of it; None is the exception. */
module TranscriptLines {
  import opened Sequences

  // ---------------------------------------------------------------- JSON

  /** The object keys the parsers look at, and all others. */
  datatype Key =
    | Type | ToolResults | Message | Content | Usage | ErrorMessage | Text | Name | Arguments | Command
    | Input | Output | CacheRead | CacheWrite | CacheWrite1h | CacheWrite5m
    | Other(key: string)

  /** A decoded value. `NonFinite` is an infinity or a not-a-number, which the decoder lets through. */
  datatype Json =
    | Null | Bool(b: bool) | Num(n: real) | NonFinite | Str(s: string)
    | Arr(items: seq<Json>) | Obj(fields: map<Key, Json>)

  /** `Overlong` is a line the decoder rejects for a number with too many digits, with another
      exception than a syntax error. */
  datatype Line = NotJson | Overlong | Value(json: Json)

  /** Reading text as an integer, the test for a command that prints a file, and text forms of values. */
  datatype Env = Env(
    intOf: string -> Option<int>, printsFile: Json -> bool, render: Json -> string, strip: string -> string)

  const NOTHING := Arr([])
  const EMPTY_OBJECT := Obj(map[])

  predicate Truthy(j: Json)
  {
    match j
    case Null => false
    case Bool(b) => b
    case Num(n) => n != 0.0
    case NonFinite => true
    case Str(s) => s != ""
    case Arr(items) => items != []
    case Obj(fields) => fields != map[]
  }

  function OrElse(j: Json, default: Json): Json { if Truthy(j) then j else default }

  predicate HasField(o: Json, key: Key) { o.Obj? && key in o.fields }

  function Field(o: Json, key: Key, default: Json): Json
  {
    if HasField(o, key) then o.fields[key] else default
  }

  predicate Says(o: Json, key: Key, text: string) { HasField(o, key) && o.fields[key] == Str(text) }

  predicate Sized(j: Json) { j.Str? || j.Arr? || j.Obj? }

  function Size(j: Json): nat
  {
    match j
    case Str(s) => |s|
    case Arr(items) => |items|
    case Obj(fields) => |fields|
    case _ => 0
  }

  /** The elements of an array. Text and objects iterate too, but only over text, which every loop here
      either skips or raises on. */
  function Items(j: Json): seq<Json> { if j.Arr? then j.items else [] }

  function Truncate(x: real): int { if x >= 0.0 then x.Floor else -(-x).Floor }

  function IntOf(e: Env, j: Json): Option<int>
  {
    match j
    case Bool(b) => Some(if b then 1 else 0)
    case Num(n) => Some(Truncate(n))
    case Str(s) => e.intOf(s)
    case _ => None
  }

  function Rendered(e: Env, j: Json): string { if j.Str? then j.s else e.render(j) }

  // ------------------------------------------------------- parts of a turn

  function Results(t: Json): Json { OrElse(Field(t, Key.ToolResults, Null), NOTHING) }
  function ContentOf(o: Json): Json { OrElse(Field(o, Key.Content, Null), NOTHING) }

  /** The harness has no fallback for a message that is null. */
  function HarnessMessage(t: Json): Json { Field(t, Key.Message, EMPTY_OBJECT) }
  function MessageOf(t: Json): Json { OrElse(Field(t, Key.Message, Null), EMPTY_OBJECT) }
  function UsageOf(message: Json): Json { OrElse(Field(message, Key.Usage, Null), EMPTY_OBJECT) }

  function Tokens(e: Env, usage: Json, key: Key): Option<int>
  {
    IntOf(e, OrElse(Field(usage, key, Null), Num(0.0)))
  }

  predicate Converts(e: Env, usage: Json, keys: seq<Key>) { forall key :: key in keys ==> Tokens(e, usage, key).Some? }

  function CountAt(e: Env, usage: Json): Key -> int
  {
    key => var n := Tokens(e, usage, key); if n.Some? then n.value else 0
  }

  /** The sum over a list of keys, if every key's count converts. */
  function SumTokens(e: Env, usage: Json, keys: seq<Key>): (n: Option<int>)
    ensures n == if Converts(e, usage, keys) then Some(Sum(keys, CountAt(e, usage))) else None
  {
    if keys == [] then Some(0) else
      var front, last := keys[..|keys| - 1], keys[|keys| - 1];
      var rest, count := SumTokens(e, usage, front), Tokens(e, usage, last);
      assert keys == front + [last];
      if rest.Some? && count.Some? then Some(rest.value + count.value) else None
  }

  // ---------------------------------------------------------- key lists

  /** Each parser lists its prompt-side keys itself. */
  const HARNESS_PROMPT_KEYS :=
    [Key.Input, Key.CacheRead, Key.CacheWrite, Key.CacheWrite1h, Key.CacheWrite5m]
  const RECOMPUTE_PROMPT_KEYS :=
    [Key.Input, Key.CacheRead, Key.CacheWrite, Key.CacheWrite1h, Key.CacheWrite5m]
  const CODING_PROMPT_KEYS :=
    [Key.Input, Key.CacheRead, Key.CacheWrite, Key.CacheWrite1h, Key.CacheWrite5m]
  const CODING_WRITE_KEYS := [Key.CacheWrite, Key.CacheWrite1h, Key.CacheWrite5m]

  ghost predicate HarnessUsage(e: Env, usage: Json)
  {
    && usage.Obj? && Converts(e, usage, HARNESS_PROMPT_KEYS)
    && Converts(e, usage, [Key.Input, Key.Output, Key.CacheRead, Key.CacheWrite, Key.CacheWrite1h])
  }

  ghost predicate RecomputeUsage(e: Env, usage: Json)
  {
    usage.Obj? && Converts(e, usage, [Key.Input, Key.Output]) && Converts(e, usage, RECOMPUTE_PROMPT_KEYS)
  }

  ghost predicate CodingUsage(e: Env, usage: Json)
  {
    && usage.Obj? && Converts(e, usage, [Key.Input, Key.Output, Key.CacheRead])
    && Converts(e, usage, CODING_PROMPT_KEYS) && Converts(e, usage, CODING_WRITE_KEYS)
  }

  /** A usage with the count one under the given key, and no other. */
  function OneToken(key: Key): Json { Obj(map[key := Num(1.0)]) }

  lemma OneTokenAt(e: Env, key: Key, other: Key)
    ensures Tokens(e, OneToken(key), other) == Some(if other == key then 1 else 0)
  {
  }

  lemma {:induction false} OneTokenSum(e: Env, key: Key, keys: seq<Key>)
    ensures SumTokens(e, OneToken(key), keys) == Some(multiset(keys)[key])
  {
    if keys != [] {
      var front, last := keys[..|keys| - 1], keys[|keys| - 1];
      OneTokenSum(e, key, front);
      OneTokenAt(e, key, last);
      assert multiset(keys)[key] == multiset(front)[key] + multiset{last}[key] by {
        assert keys == front + [last];
      }
    }
  }

  ghost predicate SumsAgree(e: Env, keys: seq<Key>, others: seq<Key>)
  {
    forall usage :: SumTokens(e, usage, keys) == SumTokens(e, usage, others)
  }

  /** Two key lists sum alike on every usage exactly when they hold the same keys equally often: a wrong,
      missing or doubled key in one of them shows on some transcript. */
  lemma SumsAgreeIff(e: Env, keys: seq<Key>, others: seq<Key>)
    ensures SumsAgree(e, keys, others) <==> multiset(keys) == multiset(others)
  {
    if SumsAgree(e, keys, others) {
      forall key ensures multiset(keys)[key] == multiset(others)[key] {
        OneTokenSum(e, key, keys);
        OneTokenSum(e, key, others);
        assert SumTokens(e, OneToken(key), keys) == SumTokens(e, OneToken(key), others);
      }
    }
    if multiset(keys) == multiset(others) {
      forall usage ensures SumTokens(e, usage, keys) == SumTokens(e, usage, others) {
        SumPermutation(keys, others, CountAt(e, usage));
        assert forall key :: key in keys <==> key in multiset(others);
        assert forall key :: key in others <==> key in multiset(others);
      }
    }
  }

  // ------------------------------------------------- per-turn quantities

  datatype Counts = Counts(
    input: int, output: int, cacheRead: int, cacheWrite: int, cacheWrite1h: int, cacheWrite5m: int)

  function CountsOf(e: Env, t: Json): Counts
  {
    var at := CountAt(e, UsageOf(MessageOf(t)));
    Counts(at(Key.Input), at(Key.Output), at(Key.CacheRead),
           at(Key.CacheWrite), at(Key.CacheWrite1h), at(Key.CacheWrite5m))
  }

  function CacheWrites(c: Counts): int { c.cacheWrite + c.cacheWrite1h + c.cacheWrite5m }

  /** The tokens a turn was prompted with: fresh, read from the cache and written to it. */
  function Prompt(c: Counts): int { c.input + c.cacheRead + CacheWrites(c) }

  lemma KeyListsSum(e: Env, t: Json)
    ensures var at := CountAt(e, UsageOf(MessageOf(t)));
      && Sum(HARNESS_PROMPT_KEYS, at) == Prompt(CountsOf(e, t))
      && Sum(RECOMPUTE_PROMPT_KEYS, at) == Prompt(CountsOf(e, t))
      && Sum(CODING_PROMPT_KEYS, at) == Prompt(CountsOf(e, t))
      && Sum(CODING_WRITE_KEYS, at) == CacheWrites(CountsOf(e, t))
  {
    var at := CountAt(e, UsageOf(MessageOf(t)));
    SumWrites(at);
    SumPrompt(at);
  }

  lemma SumWrites(at: Key -> int)
    ensures Sum([Key.CacheWrite, Key.CacheWrite1h, Key.CacheWrite5m], at)
         == at(Key.CacheWrite) + at(Key.CacheWrite1h) + at(Key.CacheWrite5m)
  {
    var keys := [Key.CacheWrite, Key.CacheWrite1h];
    assert keys[..1] == [Key.CacheWrite];
    SumAppend(keys, Key.CacheWrite5m, at);
  }

  lemma SumPrompt(at: Key -> int)
    ensures Sum([Key.Input, Key.CacheRead, Key.CacheWrite, Key.CacheWrite1h, Key.CacheWrite5m], at)
         == at(Key.Input) + at(Key.CacheRead) + at(Key.CacheWrite) + at(Key.CacheWrite1h) + at(Key.CacheWrite5m)
  {
    var keys := [Key.Input, Key.CacheRead];
    assert keys[..1] == [Key.Input];
    SumWrites(at);
    SumConcat(keys, [Key.CacheWrite, Key.CacheWrite1h, Key.CacheWrite5m], at);
    assert keys + [Key.CacheWrite, Key.CacheWrite1h, Key.CacheWrite5m]
        == [Key.Input, Key.CacheRead, Key.CacheWrite, Key.CacheWrite1h, Key.CacheWrite5m];
  }

  /** The three parsers convert the same six counts, whatever order and however often. */
  lemma SameUsage(e: Env, usage: Json)
    ensures HarnessUsage(e, usage) <==> RecomputeUsage(e, usage)
    ensures HarnessUsage(e, usage) <==> CodingUsage(e, usage)
  {
    var prompt := HARNESS_PROMPT_KEYS;
    assert prompt == RECOMPUTE_PROMPT_KEYS && prompt == CODING_PROMPT_KEYS;
    assert forall key :: key in CODING_WRITE_KEYS ==> key in prompt;
    assert Key.Input in prompt && Key.CacheRead in prompt && Key.CacheWrite in prompt && Key.CacheWrite1h in prompt;
    assert Key.Output in [Key.Input, Key.Output];
    assert Key.Output in [Key.Input, Key.Output, Key.CacheRead];
    assert Key.Output in [Key.Input, Key.Output, Key.CacheRead, Key.CacheWrite, Key.CacheWrite1h];
  }

  function CallsOf(t: Json): int { Size(Results(t)) }

  function ChunkChars(c: Json): int { if Says(c, Key.Type, "text") then Size(Field(c, Key.Text, Str(""))) else 0 }
  function ResultChars(r: Json): int { Sum(Items(ContentOf(r)), ChunkChars) }
  function CharsOf(t: Json): int { Sum(Items(Results(t)), ResultChars) }

  function ArgumentsOf(item: Json): Json { OrElse(Field(item, Key.Arguments, Null), EMPTY_OBJECT) }

  /** A `read` call opens a source file, and so does a shell command that prints one. */
  function ItemOpens(e: Env): Json -> int
  {
    item =>
      if !Says(item, Key.Type, "toolCall") then 0
      else if Says(item, Key.Name, "read") then 1
      else if Says(item, Key.Name, "bash") && e.printsFile(Field(ArgumentsOf(item), Key.Command, Str(""))) then 1
      else 0
  }

  function OpensOf(e: Env, t: Json): int { Sum(Items(ContentOf(MessageOf(t))), ItemOpens(e)) }

  /** What one turn contributes to the totals. */
  datatype Part = Part(counts: Counts, calls: int, chars: int, opens: int, text: string, error: Json)

  function PartOf(e: Env, t: Json): Part
  {
    Part(CountsOf(e, t), CallsOf(t), CharsOf(t), OpensOf(e, t), AnswerOf(t), ErrorOf(t))
  }

  function ErrorOf(t: Json): Json { Field(MessageOf(t), Key.ErrorMessage, Null) }

  function ItemText(item: Json): string
  {
    var text := Field(item, Key.Text, Str(""));
    if Says(item, Key.Type, "text") && text.Str? then text.s else ""
  }

  function TextOf(items: seq<Json>): string
  {
    if items == [] then "" else TextOf(items[..|items| - 1]) + ItemText(items[|items| - 1])
  }

  function AnswerOf(t: Json): string { TextOf(Items(Field(MessageOf(t), Key.Content, NOTHING))) }

  // ----------------------------------------------------- what is readable

  predicate ChunkReadable(c: Json) { Says(c, Key.Type, "text") ==> Sized(Field(c, Key.Text, Str(""))) }

  ghost predicate ResultReadable(r: Json)
  {
    r.Obj? && Sized(ContentOf(r)) && All(Items(ContentOf(r)), ChunkReadable)
  }

  /** Every tool result is an object whose content can be counted. */
  ghost predicate ResultsReadable(t: Json)
  {
    Results(t).Arr? && All(Results(t).items, ResultReadable)
  }

  /** A shell call's arguments, if there are any, are an object. */
  predicate CallReadable(item: Json)
  {
    Says(item, Key.Type, "toolCall") && Says(item, Key.Name, "bash") ==> ArgumentsOf(item).Obj?
  }

  ghost predicate CallsReadable(message: Json)
  {
    Sized(ContentOf(message)) && All(Items(ContentOf(message)), CallReadable)
  }

  predicate TextReadable(item: Json)
  {
    item.Obj? && (Says(item, Key.Type, "text") ==> Field(item, Key.Text, Str("")).Str?)
  }

  /** The harness joins the message's text without a fallback: the content must iterate over objects
      only, and their text must be text. */
  ghost predicate AnswerReadable(message: Json)
  {
    var content := Field(message, Key.Content, NOTHING);
    Sized(content) && (!content.Arr? ==> Size(content) == 0) && All(Items(content), TextReadable)
  }

  ghost predicate HarnessTurn(e: Env, t: Json)
  {
    && ResultsReadable(t) && HarnessMessage(t).Obj? && CallsReadable(HarnessMessage(t))
    && HarnessUsage(e, UsageOf(HarnessMessage(t))) && AnswerReadable(HarnessMessage(t))
  }

  ghost predicate RecomputeTurn(e: Env, t: Json)
  {
    ResultsReadable(t) && MessageOf(t).Obj? && RecomputeUsage(e, UsageOf(MessageOf(t)))
  }

  ghost predicate CodingTurn(e: Env, t: Json)
  {
    && Sized(Results(t)) && MessageOf(t).Obj?
    && CodingUsage(e, UsageOf(MessageOf(t))) && CallsReadable(MessageOf(t))
  }

  predicate IsTurn(line: Line) { line.Value? && Says(line.json, Key.Type, "turn_end") }

  /** A decoded line that is no object stops every parser. */
  predicate LineIsEvent(line: Line) { line.Value? ==> line.json.Obj? }

  ghost predicate HarnessLine(e: Env, line: Line) { LineIsEvent(line) && (IsTurn(line) ==> HarnessTurn(e, line.json)) }
  ghost predicate RecomputeLine(e: Env, line: Line)
  {
    LineIsEvent(line) && (IsTurn(line) ==> RecomputeTurn(e, line.json))
  }

  /** The coding parser catches syntax errors only. */
  ghost predicate CodingLine(e: Env, line: Line)
  {
    !line.Overlong? && LineIsEvent(line) && (IsTurn(line) ==> CodingTurn(e, line.json))
  }

  // --------------------------------------------------- the harness's loops

  method CountChunks(result: Json) returns (chars: Option<int>)
    ensures chars.Some? <==> ResultReadable(result)
    ensures chars.Some? ==> chars.value == ResultChars(result)
  {
    if !result.Obj? || !Sized(ContentOf(result)) {
      return None;
    }
    var chunks := Items(ContentOf(result));
    var n := 0;
    for i := 0 to |chunks|
      invariant n == Sum(chunks[..i], ChunkChars)
      invariant All(chunks[..i], ChunkReadable)
    {
      PrefixStep(chunks, i, ChunkReadable, ChunkChars);
      if Says(chunks[i], Key.Type, "text") {
        var text := Field(chunks[i], Key.Text, Str(""));
        if !Sized(text) {
          return None;
        }
        n := n + Size(text);
      }
    }
    assert chunks[..|chunks|] == chunks;
    chars := Some(n);
  }

  method CountTextChars(t: Json) returns (chars: Option<int>)
    ensures chars.Some? <==> ResultsReadable(t)
    ensures chars.Some? ==> chars.value == CharsOf(t)
  {
    if !Results(t).Arr? {
      return None;
    }
    var results := Results(t).items;
    var n := 0;
    for i := 0 to |results|
      invariant n == Sum(results[..i], ResultChars)
      invariant All(results[..i], ResultReadable)
    {
      PrefixStep(results, i, ResultReadable, ResultChars);
      var more := CountChunks(results[i]);
      if more.None? {
        return None;
      }
      n := n + more.value;
    }
    assert results[..|results|] == results;
    chars := Some(n);
  }

  method CountSourceOpens(e: Env, message: Json) returns (opens: Option<int>)
    ensures opens.Some? <==> CallsReadable(message)
    ensures opens.Some? ==> opens.value == Sum(Items(ContentOf(message)), ItemOpens(e))
  {
    if !Sized(ContentOf(message)) {
      return None;
    }
    var items := Items(ContentOf(message));
    var n := 0;
    for i := 0 to |items|
      invariant n == Sum(items[..i], ItemOpens(e))
      invariant All(items[..i], CallReadable)
    {
      var item := items[i];
      PrefixStep(items, i, CallReadable, ItemOpens(e));
      if Says(item, Key.Type, "toolCall") {
        if Says(item, Key.Name, "read") {
          n := n + 1;
        } else if Says(item, Key.Name, "bash") {
          if !ArgumentsOf(item).Obj? {
            return None;
          }
          if e.printsFile(Field(ArgumentsOf(item), Key.Command, Str(""))) {
            n := n + 1;
          }
        }
      }
    }
    assert items[..|items|] == items;
    opens := Some(n);
  }

  method JoinText(message: Json) returns (text: Option<string>)
    ensures text.Some? <==> AnswerReadable(message)
    ensures text.Some? ==> text.value == TextOf(Items(Field(message, Key.Content, NOTHING)))
  {
    var content := Field(message, Key.Content, NOTHING);
    if !Sized(content) || (!content.Arr? && Size(content) != 0) {
      return None;
    }
    var items := Items(content);
    var joined := "";
    for i := 0 to |items|
      invariant joined == TextOf(items[..i])
      invariant All(items[..i], TextReadable)
    {
      assert items[..i + 1] == items[..i] + [items[i]];
      assert items[..i + 1][..i] == items[..i];
      if !TextReadable(items[i]) {
        assert items[i] in items;
        return None;
      }
      joined := joined + ItemText(items[i]);
    }
    assert items[..|items|] == items;
    text := Some(joined);
  }

  // ---------------------------------------------- the recomputation's loop

  method RecomputeChars(results: Json) returns (chars: Option<int>)
    ensures chars.Some? <==> results.Arr? && All(results.items, ResultReadable)
    ensures chars.Some? ==> chars.value == Sum(results.items, ResultChars)
  {
    if !results.Arr? {
      return None;
    }
    var n := 0;
    for i := 0 to |results.items|
      invariant n == Sum(results.items[..i], ResultChars)
      invariant All(results.items[..i], ResultReadable)
    {
      var result := results.items[i];
      PrefixStep(results.items, i, ResultReadable, ResultChars);
      if !result.Obj? || !Sized(ContentOf(result)) {
        return None;
      }
      var chunks := Items(ContentOf(result));
      ghost var before := n;
      for k := 0 to |chunks|
        invariant n == before + Sum(chunks[..k], ChunkChars)
        invariant All(chunks[..k], ChunkReadable)
      {
        PrefixStep(chunks, k, ChunkReadable, ChunkChars);
        if Says(chunks[k], Key.Type, "text") {
          if !Sized(Field(chunks[k], Key.Text, Str(""))) {
            return None;
          }
          n := n + Size(Field(chunks[k], Key.Text, Str("")));
        }
      }
      assert chunks[..|chunks|] == chunks;
    }
    assert results.items[..|results.items|] == results.items;
    chars := Some(n);
  }

  // ------------------------------------------------- the coding parser's loop

  method CodingOpens(e: Env, content: Json) returns (opens: Option<int>)
    ensures opens.Some? <==> Sized(content) && All(Items(content), CallReadable)
    ensures opens.Some? ==> opens.value == Sum(Items(content), ItemOpens(e))
  {
    if !Sized(content) {
      return None;
    }
    var items := Items(content);
    var n := 0;
    for i := 0 to |items|
      invariant n == Sum(items[..i], ItemOpens(e))
      invariant All(items[..i], CallReadable)
    {
      var item := items[i];
      PrefixStep(items, i, CallReadable, ItemOpens(e));
      if !Says(item, Key.Type, "toolCall") {
        assert ItemOpens(e)(item) == 0;
        continue;
      }
      var name, arguments := Field(item, Key.Name, Null), ArgumentsOf(item);
      assert forall text :: text != "" ==> (Says(item, Key.Name, text) <==> name == Str(text));
      if name == Str("read") {
        n := n + 1;
      } else if name == Str("bash") {
        if !arguments.Obj? {
          return None;
        }
        if e.printsFile(Field(arguments, Key.Command, Str(""))) {
          n := n + 1;
        }
      }
    }
    assert items[..|items|] == items;
    opens := Some(n);
  }

  // ------------------------------------------------- one turn, three ways

  lemma SameMessage(t: Json)
    requires HarnessMessage(t).Obj?
    ensures HarnessMessage(t) == MessageOf(t)
  {
  }

  /** What each parser takes from a turn. */
  datatype HarnessShare = HarnessShare(
    input: int, output: int, cacheRead: int, cacheWrite: int, cacheWrite1h: int, prompt: int,
    calls: int, chars: int, opens: int, text: string, error: Json)

  datatype RecomputeShare = RecomputeShare(input: int, output: int, prompt: int, calls: int, chars: int)

  datatype CodingShare = CodingShare(
    input: int, prompt: int, output: int, cacheRead: int, cacheWrite: int, calls: int, opens: int, error: Json)

  function HarnessShareOf(p: Part): HarnessShare
  {
    var c := p.counts;
    HarnessShare(c.input, c.output, c.cacheRead, c.cacheWrite, c.cacheWrite1h, Prompt(c),
                 p.calls, p.chars, p.opens, p.text, p.error)
  }

  function RecomputeShareOf(p: Part): RecomputeShare
  {
    RecomputeShare(p.counts.input, p.counts.output, Prompt(p.counts), p.calls, p.chars)
  }

  function CodingShareOf(p: Part): CodingShare
  {
    var c := p.counts;
    CodingShare(c.input, Prompt(c), c.output, c.cacheRead, CacheWrites(c), p.calls, p.opens, p.error)
  }

  method HarnessTokens(e: Env, u: Json) returns (tokens: Option<HarnessShare>)
    requires u.Obj?
    ensures tokens.Some? <==> HarnessUsage(e, u)
    ensures tokens.Some? ==> var n, at := tokens.value, CountAt(e, u);
      && n.input == at(Key.Input) && n.output == at(Key.Output) && n.cacheRead == at(Key.CacheRead)
      && n.cacheWrite == at(Key.CacheWrite) && n.cacheWrite1h == at(Key.CacheWrite1h)
      && n.prompt == Sum(HARNESS_PROMPT_KEYS, at)
  {
    var input, output := Tokens(e, u, Key.Input), Tokens(e, u, Key.Output);
    var read, write := Tokens(e, u, Key.CacheRead), Tokens(e, u, Key.CacheWrite);
    var write1h := Tokens(e, u, Key.CacheWrite1h);
    var prompt := SumTokens(e, u, HARNESS_PROMPT_KEYS);
    if input.None? || output.None? || read.None? || write.None? || write1h.None? || prompt.None? {
      return None;
    }
    tokens := Some(HarnessShare(input.value, output.value, read.value, write.value, write1h.value, prompt.value,
                                0, 0, 0, "", Null));
  }

  method HarnessPart(e: Env, t: Json) returns (share: Option<HarnessShare>)
    ensures share.Some? <==> HarnessTurn(e, t)
    ensures share.Some? ==> share.value == HarnessShareOf(PartOf(e, t))
  {
    var chars := CountTextChars(t);
    var m := HarnessMessage(t);
    if chars.None? || !m.Obj? {
      return None;
    }
    SameMessage(t);
    var opens := CountSourceOpens(e, m);
    if opens.None? || !UsageOf(m).Obj? {
      return None;
    }
    var tokens := HarnessTokens(e, UsageOf(m));
    var text := JoinText(m);
    if tokens.None? || text.None? {
      return None;
    }
    KeyListsSum(e, t);
    share := Some(tokens.value.(calls := Size(Results(t)), chars := chars.value, opens := opens.value,
                                text := text.value, error := Field(m, Key.ErrorMessage, Null)));
  }

  method RecomputeTokens(e: Env, u: Json) returns (tokens: Option<RecomputeShare>)
    requires u.Obj?
    ensures tokens.Some? <==> RecomputeUsage(e, u)
    ensures tokens.Some? ==> var n, at := tokens.value, CountAt(e, u);
      n.input == at(Key.Input) && n.output == at(Key.Output) && n.prompt == Sum(RECOMPUTE_PROMPT_KEYS, at)
  {
    var input, output := Tokens(e, u, Key.Input), Tokens(e, u, Key.Output);
    var prompt := SumTokens(e, u, RECOMPUTE_PROMPT_KEYS);
    if input.None? || output.None? || prompt.None? {
      return None;
    }
    tokens := Some(RecomputeShare(input.value, output.value, prompt.value, 0, 0));
  }

  method RecomputePart(e: Env, t: Json) returns (share: Option<RecomputeShare>)
    ensures share.Some? <==> RecomputeTurn(e, t)
    ensures share.Some? ==> share.value == RecomputeShareOf(PartOf(e, t))
  {
    var chars := RecomputeChars(Results(t));
    var m := MessageOf(t);
    if chars.None? || !m.Obj? || !UsageOf(m).Obj? {
      return None;
    }
    var tokens := RecomputeTokens(e, UsageOf(m));
    if tokens.None? {
      return None;
    }
    KeyListsSum(e, t);
    share := Some(tokens.value.(calls := Size(Results(t)), chars := chars.value));
  }

  method CodingTokens(e: Env, u: Json) returns (tokens: Option<CodingShare>)
    requires u.Obj?
    ensures tokens.Some? <==> CodingUsage(e, u)
    ensures tokens.Some? ==> var n, at := tokens.value, CountAt(e, u);
      && n.input == at(Key.Input) && n.output == at(Key.Output) && n.cacheRead == at(Key.CacheRead)
      && n.prompt == Sum(CODING_PROMPT_KEYS, at) && n.cacheWrite == Sum(CODING_WRITE_KEYS, at)
  {
    var input, prompt := Tokens(e, u, Key.Input), SumTokens(e, u, CODING_PROMPT_KEYS);
    var output, read := Tokens(e, u, Key.Output), Tokens(e, u, Key.CacheRead);
    var write := SumTokens(e, u, CODING_WRITE_KEYS);
    if input.None? || prompt.None? || output.None? || read.None? || write.None? {
      return None;
    }
    tokens := Some(CodingShare(input.value, prompt.value, output.value, read.value, write.value, 0, 0, Null));
  }

  method CodingPart(e: Env, t: Json) returns (share: Option<CodingShare>)
    ensures share.Some? <==> CodingTurn(e, t)
    ensures share.Some? ==> share.value == CodingShareOf(PartOf(e, t))
  {
    var m := MessageOf(t);
    if !Sized(Results(t)) || !m.Obj? || !UsageOf(m).Obj? {
      return None;
    }
    var tokens := CodingTokens(e, UsageOf(m));
    var opens := CodingOpens(e, ContentOf(m));
    if tokens.None? || opens.None? {
      return None;
    }
    KeyListsSum(e, t);
    share := Some(tokens.value.(calls := Size(Results(t)), opens := opens.value,
                                error := Field(m, Key.ErrorMessage, Null)));
  }
}
