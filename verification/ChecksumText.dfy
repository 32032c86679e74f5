/** The SHA256SUMS text format: rendering lines, splitting text into lines and parsing them. */
module ChecksumText {
  import opened Sequences
  import opened Strings

  /** The ASCII characters at which text is split into lines. */
  predicate IsBreak(c: char)
  {
    c in {'\n', '\r', '\U{0B}', '\U{0C}', '\U{1C}', '\U{1D}', '\U{1E}'}
  }

  predicate IsAscii(s: string)
  {
    forall i :: 0 <= i < |s| ==> s[i] < '\U{80}'
  }

  ghost predicate NoBreaks(s: string)
  {
    forall i :: 0 <= i < |s| ==> !IsBreak(s[i])
  }

  function FirstBreak(text: string): (k: nat)
    ensures k <= |text|
    ensures forall i :: 0 <= i < k ==> !IsBreak(text[i])
    ensures k < |text| ==> IsBreak(text[k])
  {
    if text == [] || IsBreak(text[0]) then 0 else 1 + FirstBreak(text[1..])
  }

  /** Splits at every break; a carriage return and the newline after it are one break, and a final
      break starts no further line. */
  function SplitLines(text: string): seq<string>
    decreases |text|
  {
    if text == [] then []
    else
      var k := FirstBreak(text);
      if k == |text| then [text]
      else
        var width := if text[k] == '\r' && k + 1 < |text| && text[k + 1] == '\n' then 2 else 1;
        [text[..k]] + SplitLines(text[k + width..])
  }

  lemma {:induction false} LinesHaveNoBreaks(text: string)
    ensures forall i :: 0 <= i < |SplitLines(text)| ==> NoBreaks(SplitLines(text)[i])
    ensures IsAscii(text) ==> forall i :: 0 <= i < |SplitLines(text)| ==> IsAscii(SplitLines(text)[i])
    decreases |text|
  {
    if text != [] {
      var k := FirstBreak(text);
      if k < |text| {
        var width := if text[k] == '\r' && k + 1 < |text| && text[k + 1] == '\n' then 2 else 1;
        LinesHaveNoBreaks(text[k + width..]);
      }
    }
  }

  /** The lines joined by newlines, with one more at the end. */
  function Render(lines: seq<string>): string
  {
    if lines == [] then "\n"
    else if |lines| == 1 then lines[0] + "\n"
    else lines[0] + "\n" + Render(lines[1..])
  }

  lemma FirstBreakAfter(line: string, rest: string)
    requires NoBreaks(line)
    ensures FirstBreak(line + "\n" + rest) == |line|
  {
    var text := line + "\n" + rest;
    assert text[|line|] == '\n';
    forall i | 0 <= i < |line| ensures !IsBreak(text[i]) {
      assert text[i] == line[i];
    }
  }

  lemma SplitOne(line: string, rest: string)
    requires NoBreaks(line)
    ensures SplitLines(line + "\n" + rest) == [line] + SplitLines(rest)
  {
    var text := line + "\n" + rest;
    FirstBreakAfter(line, rest);
    assert text[..|line|] == line && text[|line| + 1..] == rest && text[|line|] == '\n';
  }

  lemma {:induction false} SplitRender(lines: seq<string>)
    requires lines != [] && forall i :: 0 <= i < |lines| ==> NoBreaks(lines[i])
    ensures SplitLines(Render(lines)) == lines
  {
    if |lines| == 1 {
      SplitOne(lines[0], "");
      assert lines[0] + "\n" == lines[0] + "\n" + "";
    } else {
      SplitRender(lines[1..]);
      SplitOne(lines[0], Render(lines[1..]));
    }
  }

  // ------------------------------------------------------------- parsing

  predicate NameMatches(name: string)
  {
    name != "" && forall i :: 0 <= i < |name| ==> name[i] != '/' && name[i] != '\\'
  }

  /** What the line format can carry. */
  ghost predicate CleanName(name: string)
  {
    NameMatches(name) && NoBreaks(name) && IsAscii(name)
  }

  function Line(digest: string, name: string): string
  {
    digest + "  " + name
  }

  function ParseLine(line: string): Option<(string, string)>
  {
    if |line| > 66 && IsSha256Text(line[..64]) && line[64..66] == "  " && NameMatches(line[66..])
    then Some((line[..64], line[66..])) else None
  }

  lemma ParseRenderedLine(digest: string, name: string)
    requires IsSha256Text(digest) && NameMatches(name)
    ensures ParseLine(Line(digest, name)) == Some((digest, name))
  {
    var line := Line(digest, name);
    assert line[..64] == digest && line[64..66] == "  " && line[66..] == name;
  }

  /** All lines must match and no name may repeat. */
  function ParseAll(lines: seq<string>): Option<map<string, string>>
  {
    if lines == [] then Some(map[])
    else
      var before, last := ParseAll(lines[..|lines| - 1]), ParseLine(lines[|lines| - 1]);
      if before.None? || last.None? || last.value.1 in before.value then None
      else Some(before.value[last.value.1 := last.value.0])
  }

  method ParseSums(text: string) returns (entries: Option<map<string, string>>)
    ensures entries == if IsAscii(text) then ParseAll(SplitLines(text)) else None
  {
    if !IsAscii(text) {
      return None;
    }
    var lines := SplitLines(text);
    var found: map<string, string> := map[];
    for i := 0 to |lines|
      invariant ParseAll(lines[..i]) == Some(found)
    {
      assert lines[..i + 1][..i] == lines[..i];
      var entry := ParseLine(lines[i]);
      if entry.None? || entry.value.1 in found {
        FailurePersists(lines, i + 1);
        return None;
      }
      found := found[entry.value.1 := entry.value.0];
    }
    assert lines[..|lines|] == lines;
    entries := Some(found);
  }

  lemma {:induction false} FailurePersists(lines: seq<string>, i: nat)
    requires i <= |lines| && ParseAll(lines[..i]).None?
    ensures ParseAll(lines).None?
    decreases |lines| - i
  {
    if i < |lines| {
      assert lines[..i + 1][..i] == lines[..i];
      FailurePersists(lines, i + 1);
    } else {
      assert lines[..i] == lines;
    }
  }

  lemma {:induction false} ParsedNamesClean(lines: seq<string>)
    requires ParseAll(lines).Some?
    requires forall i :: 0 <= i < |lines| ==> NoBreaks(lines[i]) && IsAscii(lines[i])
    ensures forall name :: name in ParseAll(lines).value ==> CleanName(name)
  {
    if lines != [] {
      ParsedNamesClean(lines[..|lines| - 1]);
      var line := lines[|lines| - 1];
      var name := line[66..];
      forall i | 0 <= i < |name| ensures !IsBreak(name[i]) && name[i] < '\U{80}' {
        assert name[i] == line[66 + i];
      }
    }
  }

  // ---------------------------------------------------------- round trip

  function Lines(names: seq<string>, digest: string -> string): seq<string>
  {
    seq(|names|, i requires 0 <= i < |names| => Line(digest(names[i]), names[i]))
  }

  ghost predicate Renderable(names: seq<string>, digest: string -> string)
  {
    forall i :: 0 <= i < |names| ==> CleanName(names[i]) && IsSha256Text(digest(names[i]))
  }

  lemma {:induction false} ParseRenderedLines(names: seq<string>, digest: string -> string)
    requires Renderable(names, digest) && Distinct(names)
    ensures ParseAll(Lines(names, digest)) == Some(map name | name in names :: digest(name))
  {
    if names != [] {
      var n := |names| - 1;
      ParseRenderedLines(names[..n], digest);
      assert Lines(names, digest)[..n] == Lines(names[..n], digest);
      ParseRenderedLine(digest(names[n]), names[n]);
      assert names == names[..n] + [names[n]];
      assert (map name | name in names :: digest(name))
          == (map name | name in names[..n] :: digest(name))[names[n] := digest(names[n])];
    }
  }

  lemma LineClean(digest: string, name: string)
    requires IsSha256Text(digest) && CleanName(name)
    ensures NoBreaks(Line(digest, name)) && IsAscii(Line(digest, name))
  {
    var line := Line(digest, name);
    forall i | 0 <= i < |line| ensures !IsBreak(line[i]) && line[i] < '\U{80}' {
      if i < 64 {
        assert line[i] == digest[i] && IsHexDigit(digest[i]);
      } else if i >= 66 {
        assert line[i] == name[i - 66];
      }
    }
  }

  lemma {:induction false} RenderAscii(lines: seq<string>)
    requires forall i :: 0 <= i < |lines| ==> IsAscii(lines[i])
    ensures IsAscii(Render(lines))
  {
    if |lines| > 1 {
      RenderAscii(lines[1..]);
    }
  }

  /** Parsing the rendered file gives back exactly the name-to-digest map. */
  lemma SumsRoundTrip(names: seq<string>, digest: string -> string)
    requires names != [] && Distinct(names) && Renderable(names, digest)
    ensures IsAscii(Render(Lines(names, digest)))
    ensures ParseAll(SplitLines(Render(Lines(names, digest)))) == Some(map name | name in names :: digest(name))
  {
    forall i | 0 <= i < |names| ensures NoBreaks(Lines(names, digest)[i]) && IsAscii(Lines(names, digest)[i]) {
      LineClean(digest(names[i]), names[i]);
    }
    SplitRender(Lines(names, digest));
    RenderAscii(Lines(names, digest));
    ParseRenderedLines(names, digest);
  }
}
