/** The briefing card (src/components/BriefingCard.tsx): the line-by-line
    markdown renderer and the sources footer, as the blocks and links they
    produce rather than as markup. */
module BriefingCard {
  import opened Wrappers
  import opened Types
  import opened Text
  import Gemini

  /** What one line of the summary renders as. */
  datatype Block = H2(text: string) | H3(text: string) | Bullet(text: string) | Spacer | Paragraph(text: string)

  /** A footer link: `href` and visible caption. */
  datatype Link = Link(href: string, caption: string)

  const H2Prefix: string := "## "
  const H3Prefix: string := "### "

  /** The bullet regex `/^[-*] /`: strips a leading "- " or "* " and nothing else. */
  function StripBulletMarker(line: string): string
  {
    if |line| >= 2 && (line[0] == '-' || line[0] == '*') && line[1] == ' ' then line[2..] else line
  }

  /** `suffix` is what is left of `s` once some leading characters are removed. */
  predicate EndsWith(s: string, suffix: string)
  {
    |suffix| <= |s| && s[|s| - |suffix|..] == suffix
  }

  /** The classification of one line, in the renderer's priority order. */
  function ClassifyLine(line: string): (b: Block)
    ensures b.Spacer? ==> AllWhitespace(line)
    ensures b.Paragraph? ==> b.text == line
    ensures !b.Spacer? ==> EndsWith(line, b.text)
  {
    if StartsWith(line, H2Prefix) then
      ReplacePrefix(line, H2Prefix);
      H2(ReplaceFirst(line, H2Prefix, ""))
    else if StartsWith(line, H3Prefix) then
      ReplacePrefix(line, H3Prefix);
      H3(ReplaceFirst(line, H3Prefix, ""))
    else if StartsWith(line, "- ") || StartsWith(line, "* ") then Bullet(StripBulletMarker(line))
    else if |Trim(line)| == 0 then Spacer
    else Paragraph(line)
  }

  /** An H3 line never starts with the H2 prefix: their third characters differ. */
  lemma H3IsNotH2(line: string)
    requires StartsWith(line, H3Prefix)
    ensures !StartsWith(line, H2Prefix)
  {
    assert line[2] == H3Prefix[2];
  }

  /** Header lines: the matching prefix alone is removed, and a "### " line is
      an H3, never an H2. */
  lemma ClassifyHeaders(line: string)
    ensures ClassifyLine(line).H2? <==> StartsWith(line, "## ")
    ensures ClassifyLine(line).H2? ==> H2Prefix + ClassifyLine(line).text == line
    ensures ClassifyLine(line).H3? <==> StartsWith(line, "### ")
    ensures ClassifyLine(line).H3? ==> H3Prefix + ClassifyLine(line).text == line
  {
    if StartsWith(line, H2Prefix) {
      ReplacePrefix(line, H2Prefix);
      assert line == line[..3] + line[3..];
    } else if StartsWith(line, H3Prefix) {
      ReplacePrefix(line, H3Prefix);
      assert line == line[..4] + line[4..];
    }
    if StartsWith(line, H3Prefix) {
      H3IsNotH2(line);
    }
  }

  /** A line that starts with a non-empty prefix starts with its first character. */
  lemma FirstChar(line: string, prefix: string)
    requires |prefix| > 0
    ensures StartsWith(line, prefix) ==> line[0] == prefix[0]
  {
    if StartsWith(line, prefix) {
      assert line[0] == line[..|prefix|][0];
    }
  }

  /** Bullet lines: a non-header line starting with "- " or "* ", with exactly
      that two-character marker removed. */
  lemma ClassifyBullet(line: string)
    ensures ClassifyLine(line).Bullet? <==>
      !StartsWith(line, "### ") && (StartsWith(line, "- ") || StartsWith(line, "* "))
    ensures ClassifyLine(line).Bullet? ==> |line| >= 2 && line[..2] + ClassifyLine(line).text == line
  {
    FirstChar(line, H2Prefix);
    FirstChar(line, H3Prefix);
    FirstChar(line, "- ");
    FirstChar(line, "* ");
    if StartsWith(line, "- ") || StartsWith(line, "* ") {
      assert ClassifyLine(line) == Bullet(line[2..]);
      assert line == line[..2] + line[2..];
    }
  }

  /** The remaining lines: blank ones become spacers, and any other line a
      paragraph holding the line unchanged. */
  lemma ClassifySpacerOrParagraph(line: string)
    ensures ClassifyLine(line).Spacer? <==>
      !StartsWith(line, "### ") && !StartsWith(line, "- ") && !StartsWith(line, "* ") && AllWhitespace(line)
    ensures ClassifyLine(line).Paragraph? ==> ClassifyLine(line).text == line && !AllWhitespace(line)
  {
    var b := ClassifyLine(line);
    if StartsWith(line, H2Prefix) {
      assert line[0] == line[..3][0] == '#';
      assert b.H2? && !IsWhitespace(line[0]);
    } else if StartsWith(line, H3Prefix) {
      assert b.H3?;
    } else if StartsWith(line, "- ") || StartsWith(line, "* ") {
      assert b.Bullet?;
    } else {
      TrimEmptyIffWhitespace(line);
    }
  }

  /** `content.split('\n').map(classify)`: one block per line, in order. */
  function RenderMarkdown(content: string): (blocks: seq<Block>)
    ensures |blocks| == |Split(content, '\n')|
    ensures forall i :: 0 <= i < |blocks| ==> blocks[i] == ClassifyLine(Split(content, '\n')[i])
  {
    var lines := Split(content, '\n');
    seq(|lines|, i requires 0 <= i < |lines| => ClassifyLine(lines[i]))
  }

  /** The rendered blocks are exactly one per newline-separated line of the
      summary: one more than the number of newlines, and the lines they come
      from join back into the summary. */
  lemma RenderCoversEveryLine(content: string)
    ensures |RenderMarkdown(content)| == Count(content, '\n') + 1
    ensures Join(Split(content, '\n'), '\n') == content
  {
    SplitLength(content, '\n');
    JoinSplit(content, '\n');
  }

  /** The footer: absent for no sources, otherwise one link per source in order. */
  function SourcesFooter(sources: seq<GroundingSource>): (r: Option<seq<Link>>)
    ensures r.Some? <==> |sources| > 0
    ensures r.Some? ==>
              && |r.value| == |sources|
              && forall i :: 0 <= i < |sources| ==> r.value[i] == Link(sources[i].uri, sources[i].title)
  {
    if |sources| > 0 then Some(seq(|sources|, i requires 0 <= i < |sources| => Link(sources[i].uri, sources[i].title)))
    else None
  }

  /** For a fetched briefing the footer shows exactly when the response cited
      at least one chunk with a web uri and title. */
  lemma FooterShownIffUsableChunk(apiKey: Option<string>, resp: Gemini.Response, now: string)
    requires Truthy(apiKey)
    ensures Gemini.FetchDailyBriefing(apiKey, Gemini.Responded(resp), now).result.Success?
    ensures SourcesFooter(Gemini.FetchDailyBriefing(apiKey, Gemini.Responded(resp), now).result.value.sources).Some?
        <==> resp.groundingChunks.Some?
             && exists i :: 0 <= i < |resp.groundingChunks.value| && Gemini.Usable(resp.groundingChunks.value[i].web)
  {
    Gemini.UsableSourcesMembers(if resp.groundingChunks.Some? then resp.groundingChunks.value else []);
  }
}
