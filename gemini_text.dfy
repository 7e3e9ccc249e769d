/** The clean-up `GeminiClient` applies to a model's text reply: dropping
    a Markdown code fence around it, and, for
    `generate_text_with_web_search`, dropping introduction and conclusion
    sections line by line. */
module GeminiText {
  import opened Py
  import Text

  const Fence: string := "```"

  /** The text after fence stripping: unchanged unless it starts with
      three backticks; otherwise everything up to and including the first
      newline goes, and then everything from the last three backticks on. */
  function Unfenced(text: string): string {
    if !Text.StartsWith(text, Fence) then text
    else
      var nl := Text.Find(text, "\n");
      var body := if nl != -1 then text[nl + 1..] else text;
      var close := Text.RFind(body, Fence);
      if close != -1 then body[..close] else body
  }

  /** The first newline of a text that has one. */
  lemma FirstNewline(text: string)
    requires Text.Find(text, "\n") != -1
    ensures var nl := Text.Find(text, "\n");
      text[nl] == '\n' && '\n' !in text[..nl]
  {
    var nl := Text.Find(text, "\n");
    assert text[nl..nl + 1] == "\n";
    forall i | 0 <= i < nl
      ensures text[i] != '\n'
    {
      assert !Text.OccursAt(text, "\n", i);
      assert text[i..i + 1] == [text[i]];
    }
  }

  /** Cutting the suffix of `text` from `start` at its last fence keeps a
      piece of `text` that ends where that fence begins, with no fence
      after it. */
  lemma CutAtLastFence(text: string, start: nat)
    requires start <= |text|
    ensures var body := text[start..];
      var close := Text.RFind(body, Fence);
      var r := if close != -1 then body[..close] else body;
      start + |r| <= |text| && r == text[start..start + |r|]
      && (start + |r| < |text| ==> Text.OccursAt(text, Fence, start + |r|))
      && forall j :: start + |r| < j <= |text| ==> !Text.OccursAt(text, Fence, j)
  {
    var body := text[start..];
    var close := Text.RFind(body, Fence);
    var r := if close != -1 then body[..close] else body;
    if close != -1 {
      assert body[close..close + |Fence|] == text[start + close..start + close + |Fence|];
    }
    forall j | start + |r| < j <= |text|
      ensures !Text.OccursAt(text, Fence, j)
    {
      if Text.OccursAt(text, Fence, j) {
        assert body[j - start..j - start + |Fence|] == text[j..j + |Fence|];
        assert Text.OccursAt(body, Fence, j - start);
      }
    }
  }

  /** What fence stripping keeps of a fenced text with a first line: a
      piece of `text` that begins right after the first newline and ends
      where the last fence after it begins (or at the end of the text when
      no fence follows the first line). */
  lemma UnfencedShape(text: string)
    requires Text.StartsWith(text, Fence) && Text.Find(text, "\n") != -1
    ensures var start := Text.Find(text, "\n") + 1;
      var r := Unfenced(text);
      start + |r| <= |text| && r == text[start..start + |r|]
      && text[start - 1] == '\n' && '\n' !in text[..start - 1]
      && (start + |r| < |text| ==> Text.OccursAt(text, Fence, start + |r|))
      && forall j :: start + |r| < j <= |text| ==> !Text.OccursAt(text, Fence, j)
  {
    FirstNewline(text);
    CutAtLastFence(text, Text.Find(text, "\n") + 1);
  }

  /** A text that does not open with a fence is left as it is. */
  lemma UnfencedPlain(text: string)
    requires !Text.StartsWith(text, Fence)
    ensures Unfenced(text) == text
  {
  }

  /** The fence-stripping statements of `analyze_reddit_posts_batch` and
      `generate_text_with_web_search`, which reassign the text step by
      step. */
  method StripFence(text: string) returns (r: string)
    ensures r == Unfenced(text)
  {
    r := text;
    if Text.StartsWith(r, Fence) {
      var nl := Text.Find(r, "\n");
      if nl != -1 {
        r := r[nl + 1..];
      }
      var close := Text.RFind(r, Fence);
      if close != -1 {
        r := r[..close];
      }
    }
  }

  const IntroWords: seq<string> := ["introduction", "overview", "background", "context"]
  const ConclusionWords: seq<string> := ["conclusion", "summary", "final thoughts", "in conclusion", "to summarize"]
  const SectionWords: seq<string> := ["introduction", "conclusion", "summary", "overview"]

  /** `any(w in s for w in words)`. */
  predicate AnyIn(words: seq<string>, s: string)
    decreases |words|
  {
    words != [] && (Text.Contains(s, words[0]) || AnyIn(words[1..], s))
  }

  /** A heading line that opens an introduction or a conclusion. */
  predicate OpensSkipped(line: string) {
    '#' in line && (AnyIn(IntroWords, Text.Lower(line)) || AnyIn(ConclusionWords, Text.Lower(line)))
  }

  /** One pass of the section filter's loop body: whether the line is
      kept and the new value of `skip_section`. */
  function FilterStep(line: string, skip: bool): (bool, bool) {
    if OpensSkipped(line) then (false, true)
    else
      var reset := '#' in line && !AnyIn(SectionWords, Text.Lower(line));
      var skipping := if reset then false else skip;
      (!skipping, skipping)
  }

  /** The lines the section filter keeps from `lines`, starting with
      `skip_section` equal to `skip`. */
  function Kept(lines: seq<string>, skip: bool): seq<string>
    decreases |lines|
  {
    if lines == [] then []
    else
      var step := FilterStep(lines[0], skip);
      (if step.0 then [lines[0]] else []) + Kept(lines[1..], step.1)
  }

  /** `a` is a subsequence of `b`: `b` with some elements removed. */
  predicate Subsequence(a: seq<string>, b: seq<string>)
    decreases |b|
  {
    if b == [] then a == []
    else (a != [] && a[0] == b[0] && Subsequence(a[1..], b[1..])) || Subsequence(a, b[1..])
  }

  /** The filter only removes lines: what it keeps is a subsequence of the
      input lines, in their order. */
  lemma {:induction false} KeptSubsequence(lines: seq<string>, skip: bool)
    ensures Subsequence(Kept(lines, skip), lines)
    decreases |lines|
  {
    if lines != [] {
      var step := FilterStep(lines[0], skip);
      var rest := Kept(lines[1..], step.1);
      KeptSubsequence(lines[1..], step.1);
      if step.0 {
        assert Kept(lines, skip) == [lines[0]] + rest;
        assert ([lines[0]] + rest)[1..] == rest;
      } else {
        assert Kept(lines, skip) == rest;
      }
    }
  }

  /** A heading that opens an introduction or a conclusion is always
      dropped and starts skipping. */
  lemma OpeningDropped(line: string, rest: seq<string>, skip: bool)
    requires OpensSkipped(line)
    ensures Kept([line] + rest, skip) == Kept(rest, true)
  {
    assert ([line] + rest)[1..] == rest;
  }

  lemma SectionWordsCovered(s: string)
    ensures AnyIn(SectionWords, s) ==> AnyIn(IntroWords, s) || AnyIn(ConclusionWords, s)
  {
    assert SectionWords[1..][1..][1..][1..] == [];
    assert IntroWords[1..][1..][1..][1..] == [];
  }

  /** Any other heading ends skipping and is kept. */
  lemma HeadingKept(line: string, rest: seq<string>, skip: bool)
    requires '#' in line && !OpensSkipped(line)
    ensures Kept([line] + rest, skip) == [line] + Kept(rest, false)
  {
    SectionWordsCovered(Text.Lower(line));
    assert ([line] + rest)[1..] == rest;
  }

  /** A line without '#' is kept exactly when skipping is off, and leaves
      the flag as it is. */
  lemma BodyLine(line: string, rest: seq<string>, skip: bool)
    requires '#' !in line
    ensures Kept([line] + rest, skip) == (if skip then [] else [line]) + Kept(rest, skip)
  {
    assert ([line] + rest)[1..] == rest;
  }

  /** Text without any '#' passes the filter whole. */
  lemma {:induction false} NoHeadingsKept(lines: seq<string>)
    requires forall i :: 0 <= i < |lines| ==> '#' !in lines[i]
    ensures Kept(lines, false) == lines
    decreases |lines|
  {
    if lines != [] {
      NoHeadingsKept(lines[1..]);
      assert [lines[0]] + lines[1..] == lines;
    }
  }

  /** The text `generate_text_with_web_search` returns for the model's
      reply. */
  function CleanedText(text: string): string {
    Text.Strip(Text.Join(Kept(Text.Split(Unfenced(text), '\n'), false), '\n'))
  }

  /** A reply without '#' loses only its fence and surrounding whitespace. */
  lemma CleanedWithoutHeadings(text: string)
    requires '#' !in Unfenced(text)
    ensures CleanedText(text) == Text.Strip(Unfenced(text))
  {
    var u := Unfenced(text);
    var lines := Text.Split(u, '\n');
    SplitPieces(u, '\n', '#');
    NoHeadingsKept(lines);
    Text.JoinSplit(u, '\n');
  }

  /** A character missing from a string is missing from its pieces. */
  lemma {:induction false} SplitPieces(s: string, sep: char, c: char)
    requires c !in s
    ensures forall i :: 0 <= i < |Text.Split(s, sep)| ==> c !in Text.Split(s, sep)[i]
    decreases |s|
  {
    if s != [] {
      SplitPieces(s[1..], sep, c);
      var rest := Text.Split(s[1..], sep);
      if s[0] != sep {
        var r := [[s[0]] + rest[0]] + rest[1..];
        assert Text.Split(s, sep) == r;
        forall i | 0 <= i < |r|
          ensures c !in r[i]
        {
          if i > 0 {
            assert r[i] == rest[i];
          }
        }
      } else {
        assert Text.Split(s, sep) == [""] + rest;
        forall i | 1 <= i < |Text.Split(s, sep)|
          ensures c !in Text.Split(s, sep)[i]
        {
          assert Text.Split(s, sep)[i] == rest[i - 1];
        }
      }
    }
  }

  /** One line of the section filter moves from the unfiltered rest to
      the kept prefix. */
  lemma KeptStep(lines: seq<string>, i: nat, skip: bool, before: seq<string>)
    requires i < |lines|
    ensures var step := FilterStep(lines[i], skip);
      before + Kept(lines[i..], skip)
      == (before + if step.0 then [lines[i]] else []) + Kept(lines[i + 1..], step.1)
  {
    assert lines[i..][1..] == lines[i + 1..];
    var step := FilterStep(lines[i], skip);
    var tail := Kept(lines[i + 1..], step.1);
    if step.0 {
      assert before + ([lines[i]] + tail) == (before + [lines[i]]) + tail;
    } else {
      assert before + ([] + tail) == (before + []) + tail;
    }
  }

  /** The body of the section filter's loop for one line: an
      introduction or conclusion heading is skipped (`continue`) and sets
      `skip_section`; any other heading clears it; the line is kept when
      the flag is clear. */
  method SectionStep(line: string, skip: bool) returns (keep: bool, skipping: bool)
    ensures (keep, skipping) == FilterStep(line, skip)
  {
    var lower := Text.Lower(line);
    skipping := skip;
    if AnyIn(IntroWords, lower) && '#' in line {
      return false, true;
    }
    if AnyIn(ConclusionWords, lower) && '#' in line {
      return false, true;
    }
    if '#' in line && !AnyIn(SectionWords, lower) {
      skipping := false;
    }
    keep := !skipping;
  }

  /** The loop of the section filter over the reply's lines, which builds
      `filtered_lines` while updating `skip_section`. */
  method KeepLines(lines: seq<string>) returns (filtered: seq<string>)
    ensures filtered == Kept(lines, false)
  {
    filtered := [];
    var skip := false;
    var i := 0;
    while i < |lines|
      invariant 0 <= i <= |lines|
      invariant filtered + Kept(lines[i..], skip) == Kept(lines, false)
    {
      var line := lines[i];
      KeptStep(lines, i, skip, filtered);
      var keep;
      keep, skip := SectionStep(line, skip);
      if keep {
        filtered := filtered + [line];
      }
      i := i + 1;
    }
    assert filtered + [] == filtered;
  }

  /** The section filter of `generate_text_with_web_search`: split into
      lines, keep the lines the `skip_section` flag lets through, join
      them and strip the result. */
  method FilterSections(content: string) returns (r: string)
    ensures r == Text.Strip(Text.Join(Kept(Text.Split(content, '\n'), false), '\n'))
  {
    var filtered := KeepLines(Text.Split(content, '\n'));
    r := Text.Strip(Text.Join(filtered, '\n'));
  }

  /** The keyword arguments google-genai's `Models.generate_content`
      accepts; any other keyword raises TypeError before a request is
      sent. */
  const GenerateContentKeywords: set<string> := {"model", "contents", "config"}

  /** The keywords `generate_text_with_web_search` passes: the settings
      go in three keywords of their own. */
  const WebSearchKeywords: seq<string> :=
    ["model", "contents", "generation_config", "safety_settings", "tools"]

  /** The keywords of the corrected call: the settings go in `config`. */
  const WebSearchKeywordsCorrected: seq<string> := ["model", "contents", "config"]

  /** The reply text of `generate_content` called with `keywords`, where
      `reply` is what the service answers (None when the service call
      raises or the reply has no text): a keyword the SDK does not accept
      raises TypeError, so there is no text. */
  function GenerateContent(keywords: seq<string>, reply: Option<string>): (r: Option<string>)
    ensures (exists k :: k in keywords && k !in GenerateContentKeywords) ==> r.None?
    ensures (forall k :: k in keywords ==> k in GenerateContentKeywords) ==> r == reply
  {
    if forall k :: k in keywords ==> k in GenerateContentKeywords then reply else None
  }

  /** The part of `generate_text_with_web_search` after the SDK call:
      the cleaned reply text, or "" when the call raised (or the reply had
      no text, on which `startswith` raises; the handler answers ""). */
  method CleanReply(reply: Option<string>) returns (r: string)
    ensures r == if reply.Some? then CleanedText(reply.value) else ""
  {
    if reply.None? {
      return "";
    }
    var content := StripFence(reply.value);
    r := FilterSections(content);
  }

  /** `generate_text_with_web_search(prompt)` as written: it passes
      `generation_config`, `safety_settings` and `tools`, which
      `generate_content` does not accept, so the call raises TypeError
      and the handler answers "" whatever the service would reply. */
  method GenerateTextWithWebSearch(reply: Option<string>) returns (r: string)
    ensures r == ""
  {
    WebSearchKeywordRejected();
    var text := GenerateContent(WebSearchKeywords, reply);
    r := CleanReply(text);
  }

  /** The as-written call carries a keyword the SDK rejects. */
  lemma WebSearchKeywordRejected()
    ensures exists k :: k in WebSearchKeywords && k !in GenerateContentKeywords
  {
    assert WebSearchKeywords[2] == "generation_config";
    assert "generation_config" !in GenerateContentKeywords;
  }

  /** The corrected call, with the settings in `config`: the cleaned reply
      text, or "" when the service call raised. */
  method GenerateTextWithWebSearchCorrected(reply: Option<string>) returns (r: string)
    ensures r == if reply.Some? then CleanedText(reply.value) else ""
  {
    var text := GenerateContent(WebSearchKeywordsCorrected, reply);
    r := CleanReply(text);
  }
}
