/**
 * The journal service (`JournalService`): rendering an entry as markdown,
 * reading an entry back from a markdown file, and the in-memory entries with
 * the current entry.
 *
 * An entry is a dictionary in the application and is updated in place, and
 * the current entry can be the very dictionary stored among the entries, so an
 * entry is an object here. The journal directory's files are a map from path
 * to text. Clocks and date parsing are inputs: `now` is the current time as
 * an ISO string, `shown` an entry's time as "%Y-%m-%d %H:%M", and `readStamp`
 * what `datetime.strptime(..., '%Y-%m-%d %H:%M').isoformat()` returns (None
 * when it raises).
 */
module JournalService {
  import opened Wrappers
  import opened Strings
  import opened Paths
  import opened Sorting
  import OrderedMaps

  datatype EntryData = EntryData(
    id: string,
    title: string,
    content: string,
    timestamp: string,
    tags: seq<string>,
    audioPath: Option<string>)

  /** Python truthiness of an optional path: None and "" are both false. */
  predicate Truthy(p: Option<string>) {
    p.Some? && p.value != ""
  }

  // ---------------------------------------------------------------- rendering

  /** `#tag` with spaces turned into '_'. */
  function TagToken(tag: string): (r: string)
    ensures |r| == |tag| + 1 && r[0] == '#'
  {
    "#" + ReplaceChar(tag, ' ', '_')
  }

  function TagTokens(tags: seq<string>): (r: seq<string>)
    ensures |r| == |tags|
    ensures forall i :: 0 <= i < |tags| ==> r[i] == TagToken(tags[i])
  {
    if |tags| == 0 then [] else [TagToken(tags[0])] + TagTokens(tags[1..])
  }

  /** The tag tokens joined by single spaces. */
  function TagsLine(tags: seq<string>): string {
    Join(TagTokens(tags), " ")
  }

  /** The audio link line: the file's base name under "audio/". */
  function AudioLink(path: string): string {
    "\n\n[Audio](audio/" + BaseName(path) + ")"
  }

  /** The pieces `_format_entry_markdown` joins with newlines. */
  function MarkdownLines(e: EntryData, shown: string): (r: seq<string>)
    ensures |r| >= 3
    ensures r[0] == "# " + e.title + "\n" && r[1] == "*" + shown + "*\n"
    ensures |e.tags| > 0 ==> r[2] == "\n" + TagsLine(e.tags) + "\n"
    ensures |e.tags| == 0 ==> r[2] == "\n" + e.content
    ensures |r| == 3 + (if |e.tags| > 0 then 1 else 0) + (if Truthy(e.audioPath) then 1 else 0)
    ensures Truthy(e.audioPath) ==> r[|r| - 1] == AudioLink(e.audioPath.value)
    ensures !Truthy(e.audioPath) ==> r[|r| - 1] == "\n" + e.content
  {
    ["# " + e.title + "\n", "*" + shown + "*\n"]
    + (if |e.tags| > 0 then ["\n" + TagsLine(e.tags) + "\n"] else [])
    + ["\n" + e.content]
    + (if Truthy(e.audioPath) then [AudioLink(e.audioPath.value)] else [])
  }

  /** The last piece of a join is its ending. */
  lemma {:induction false} JoinEndsWith(parts: seq<string>, sep: string)
    requires |parts| >= 1
    ensures EndsWith(Join(parts, sep), parts[|parts| - 1])
  {
    if |parts| > 1 {
      JoinEndsWith(parts[1..], sep);
      var j := Join(parts, sep);
      var t := Join(parts[1..], sep);
      assert j == parts[0] + sep + t;
      assert j[|j| - |t|..] == t;
    }
  }

  /** A join of three or more pieces, with its first two pieces written out. */
  lemma JoinTwoHeads(parts: seq<string>, sep: string)
    requires |parts| >= 3
    ensures Join(parts, sep) == parts[0] + sep + parts[1] + sep + Join(parts[2..], sep)
  {
    assert parts[1..][1..] == parts[2..];
    assert Join(parts[1..], sep) == parts[1] + sep + Join(parts[2..], sep);
  }

  /** The first piece of a join is its beginning. */
  lemma JoinStartsWith(parts: seq<string>, sep: string)
    requires |parts| >= 1
    ensures StartsWith(Join(parts, sep), parts[0])
  {
    if |parts| > 1 {
      var j := Join(parts, sep);
      assert j == parts[0] + (sep + Join(parts[1..], sep));
      assert j[..|parts[0]|] == parts[0];
    }
  }

  /** `_format_entry_markdown`. */
  function FormatEntryMarkdown(e: EntryData, shown: string): string {
    Join(MarkdownLines(e, shown), "\n")
  }

  /** The rendering starts with the heading line, a blank line, the time line and another blank line. */
  lemma FormatStartsWithHead(e: EntryData, shown: string)
    ensures StartsWith(FormatEntryMarkdown(e, shown), "# " + e.title + "\n\n*" + shown + "*\n\n")
  {
    var lines := MarkdownLines(e, shown);
    var r := Join(lines, "\n");
    JoinTwoHeads(lines, "\n");
    var head := "# " + e.title + "\n\n*" + shown + "*\n\n";
    assert r == head + Join(lines[2..], "\n");
    assert r[..|head|] == head;
  }

  /** The rendering ends with the audio link when there is an audio path, and with the content otherwise. */
  lemma FormatEndsWithLast(e: EntryData, shown: string)
    ensures Truthy(e.audioPath) ==> EndsWith(FormatEntryMarkdown(e, shown), AudioLink(e.audioPath.value))
    ensures !Truthy(e.audioPath) ==> EndsWith(FormatEntryMarkdown(e, shown), "\n" + e.content)
  {
    JoinEndsWith(MarkdownLines(e, shown), "\n");
  }

  // ---------------------------------------------------------------- parsing

  /** `line.startswith('#')`. */
  predicate IsHashLine(line: string) {
    StartsWith(line, "#")
  }

  /** A token of the tags line cleaned up: leading '#'s dropped, '_' back to spaces, trimmed. */
  function CleanTag(token: string): string {
    Strip(ReplaceChar(LStripChars(token, {'#'}), '_', ' '))
  }

  /** The cleaned tokens that start with '#', in order. */
  function TagsOfTokens(tokens: seq<string>): (r: seq<string>)
    ensures |r| <= |tokens|
  {
    if |tokens| == 0 then []
    else (if IsHashLine(tokens[0]) then [CleanTag(tokens[0])] else []) + TagsOfTokens(tokens[1..])
  }

  /** The tags read from a '#' line. */
  function TagsOfLine(line: string): seq<string> {
    TagsOfTokens(SplitWhitespace(line))
  }

  /** Index of the first '#' line, or the length when there is none. */
  function FirstHashLine(body: seq<string>): (k: nat)
    ensures k <= |body|
    ensures k < |body| ==> IsHashLine(body[k])
  {
    if |body| == 0 then 0
    else if IsHashLine(body[0]) then 0
    else 1 + FirstHashLine(body[1..])
  }

  /** No '#' line comes before the first one. */
  lemma {:induction false} FirstHashLineMin(body: seq<string>, j: nat)
    requires j < |body| && IsHashLine(body[j])
    ensures FirstHashLine(body) <= j
  {
    if j > 0 && !IsHashLine(body[0]) {
      FirstHashLineMin(body[1..], j - 1);
    }
  }

  /**
   * The lines after the second split into the tags line and the content
   * lines: only the first '#' line is the tags line; every other line, later
   * '#' lines included, stays in the content.
   */
  function TagLineAndContent(body: seq<string>): (r: (Option<string>, seq<string>))
    ensures var k := FirstHashLine(body);
      && (k == |body| ==> r.0 == None && r.1 == body)
      && (k < |body| ==> r.0 == Some(body[k]) && |r.1| == |body| - 1)
      && (forall i :: 0 <= i < k && i < |r.1| ==> r.1[i] == body[i])
      && (forall i :: k < i < |body| ==> r.1[i - 1] == body[i])
  {
    var k := FirstHashLine(body);
    if k == |body| then (None, body) else (Some(body[k]), body[..k] + body[k + 1..])
  }

  /** The tags read from the tags line, if any, and the content lines. */
  function TagsAndContent(body: seq<string>): (r: (seq<string>, seq<string>))
    ensures var k := FirstHashLine(body);
      && (k == |body| ==> r.0 == [] && r.1 == body)
      && (k < |body| ==> r.0 == TagsOfLine(body[k]) && |r.1| == |body| - 1)
      && (forall i :: 0 <= i < k && i < |r.1| ==> r.1[i] == body[i])
      && (forall i :: k < i < |body| ==> r.1[i - 1] == body[i])
  {
    var split := TagLineAndContent(body);
    (if split.0.Some? then TagsOfLine(split.0.value) else [], split.1)
  }

  /**
   * The `in_tags` loop of `load_entries`: it picks the tags line and collects
   * the content lines (the tags are read from the picked line).
   */
  method SplitTagLine(body: seq<string>) returns (tagLine: Option<string>, contentLines: seq<string>)
    ensures (tagLine, contentLines) == TagLineAndContent(body)
  {
    ghost var k := FirstHashLine(body);
    tagLine := None;
    contentLines := [];
    var i := 0;
    while i < |body|
      invariant 0 <= i <= |body|
      invariant tagLine.None? ==> i <= k && contentLines == body[..i]
      invariant tagLine.Some? ==> k < i && tagLine.value == body[k] && contentLines == body[..k] + body[k + 1..i]
    {
      var line := body[i];
      if tagLine.None? && IsHashLine(line) {
        FirstHashLineMin(body, i);
        assert body[k + 1..i + 1] == [];
        tagLine := Some(line);
      } else {
        if tagLine.Some? {
          assert body[k + 1..i + 1] == body[k + 1..i] + [line];
        } else {
          assert body[..i + 1] == body[..i] + [line];
        }
        contentLines := contentLines + [line];
      }
      i := i + 1;
    }
    assert body[..i] == body;
  }

  /** The path inside an audio link line, when the line is one. */
  function AudioTarget(line: string): (r: Option<string>)
    ensures r.Some? <==> StartsWith(line, "[Audio](") && ')' in line
    ensures r.Some? ==> ')' !in r.value && StartsWith(line[8..], r.value)
  {
    if StartsWith(line, "[Audio](") && ')' in line then
      var parts := Split(line[8..], ')');
      JoinStartsWith(parts, ")");
      JoinSplit(line[8..], ')');
      Some(parts[0])
    else None
  }

  /**
   * The audio path and the content lines without the link: a trailing audio
   * link is taken only when the file it names exists.
   */
  function SplitAudio(contentLines: seq<string>, dir: string, existing: set<string>): (r: (Option<string>, seq<string>))
    ensures r.1 == contentLines || (|contentLines| > 0 && r.1 == contentLines[..|contentLines| - 1])
    ensures r.0.Some? <==> r.1 != contentLines
  {
    var last := if |contentLines| > 0 then contentLines[|contentLines| - 1] else "";
    var target := AudioTarget(last);
    if target.Some? && PathJoin(dir, target.value) in existing then
      (Some(PathJoin(dir, target.value)), contentLines[..|contentLines| - 1])
    else (None, contentLines)
  }

  /** The timestamp read from the second line, or `now`. */
  function ParseTimestamp(lines: seq<string>, now: string, readStamp: string -> Option<string>): string {
    if |lines| > 1 && StartsWith(lines[1], "*") then
      var read := readStamp(StripChars(lines[1], {'*'}));
      if read.Some? then read.value else now
    else now
  }

  /** The entry `load_entries` reads from the lines of a markdown file with the given id. */
  function ParseLines(id: string, lines: seq<string>, dir: string, existing: set<string>, now: string,
                      readStamp: string -> Option<string>): EntryData
    requires |lines| >= 1
  {
    var body := if |lines| > 2 then lines[2..] else [];
    var (tags, contentLines) := TagsAndContent(body);
    var (audioPath, rest) := SplitAudio(contentLines, dir, existing);
    EntryData(id, Strip(LStripChars(lines[0], {'#'})), Strip(Join(rest, "\n")),
              ParseTimestamp(lines, now, readStamp), tags, audioPath)
  }

  /** The entry `load_entries` reads from a markdown file with the given id and text. */
  function ParsedEntry(id: string, text: string, dir: string, existing: set<string>, now: string,
                       readStamp: string -> Option<string>): EntryData
  {
    ParseLines(id, Split(text, '\n'), dir, existing, now, readStamp)
  }

  /** The parsing part of `load_entries` for one file. */
  method ParseEntry(id: string, text: string, dir: string, existing: set<string>, now: string,
                    readStamp: string -> Option<string>) returns (e: EntryData)
    ensures e == ParsedEntry(id, text, dir, existing, now, readStamp)
  {
    var lines := Split(text, '\n');
    var title := Strip(LStripChars(lines[0], {'#'}));
    var timestamp := ParseTimestamp(lines, now, readStamp);
    var tagLine, contentLines := SplitTagLine(if |lines| > 2 then lines[2..] else []);
    var tags := if tagLine.Some? then TagsOfLine(tagLine.value) else [];
    var audioPath, rest := SplitAudio(contentLines, dir, existing).0, SplitAudio(contentLines, dir, existing).1;
    e := EntryData(id, title, Strip(Join(rest, "\n")), timestamp, tags, audioPath);
  }

  // ---------------------------------------------------------------- round trip

  /** A tag that survives rendering and reading back. */
  predicate RoundTrips(tag: string) {
    |tag| > 0 && tag[0] != '#' && Strip(tag) == tag
    && forall i :: 0 <= i < |tag| ==> tag[i] != '_' && (tag[i] == ' ' || !IsSpace(tag[i]))
  }

  lemma TagTokenIsWord(tag: string)
    requires RoundTrips(tag)
    ensures IsWord(TagToken(tag)) && '\n' !in TagToken(tag)
  {
    var t := TagToken(tag);
    forall j | 0 <= j < |t| ensures !IsSpace(t[j]) {
      if j > 0 {
        assert t[j] == ReplaceChar(tag, ' ', '_')[j - 1];
      }
    }
  }

  lemma CleanTagOfToken(tag: string)
    requires RoundTrips(tag)
    ensures CleanTag(TagToken(tag)) == tag
  {
    var w := ReplaceChar(tag, ' ', '_');
    assert !IsSpace(tag[0]);
    HashDropped(w);
    UnderscoresBack(tag);
  }

  /** Dropping the leading '#' of "#" followed by a word that does not start with '#' leaves the word. */
  lemma HashDropped(w: string)
    requires |w| > 0 && w[0] != '#'
    ensures LStripChars("#" + w, {'#'}) == w
  {
    var t := "#" + w;
    assert t[0] == '#' && t[1..] == w;
    assert LStripChars(t, {'#'}) == LStripChars(t[1..], {'#'});
  }

  /** Spaces made '_' come back as spaces when the tag had no '_' of its own. */
  lemma UnderscoresBack(tag: string)
    requires forall i :: 0 <= i < |tag| ==> tag[i] != '_'
    ensures ReplaceChar(ReplaceChar(tag, ' ', '_'), '_', ' ') == tag
  {
  }

  /** Tokens that are all '#' tokens are read back as their cleaned forms. */
  lemma {:induction false} TagsOfHashTokens(tokens: seq<string>, tags: seq<string>)
    requires |tokens| == |tags|
    requires forall i :: 0 <= i < |tokens| ==> IsHashLine(tokens[i]) && CleanTag(tokens[i]) == tags[i]
    ensures TagsOfTokens(tokens) == tags
  {
    if |tokens| > 0 {
      var rest, restTags := tokens[1..], tags[1..];
      forall i | 0 <= i < |rest| ensures IsHashLine(rest[i]) && CleanTag(rest[i]) == restTags[i] {
        assert rest[i] == tokens[i + 1] && restTags[i] == tags[i + 1];
      }
      TagsOfHashTokens(rest, restTags);
      HashTokenFirst(tokens);
      calc {
        TagsOfTokens(tokens);
        [CleanTag(tokens[0])] + TagsOfTokens(rest);
        [tags[0]] + restTags;
        tags;
      }
    }
  }

  /** A leading '#' token contributes its cleaned form first. */
  lemma HashTokenFirst(tokens: seq<string>)
    requires |tokens| > 0 && IsHashLine(tokens[0])
    ensures TagsOfTokens(tokens) == [CleanTag(tokens[0])] + TagsOfTokens(tokens[1..])
  {
  }

  lemma TagsOfTagTokens(tags: seq<string>)
    requires forall i :: 0 <= i < |tags| ==> RoundTrips(tags[i])
    ensures TagsOfTokens(TagTokens(tags)) == tags
  {
    var tokens := TagTokens(tags);
    forall i | 0 <= i < |tokens| ensures IsHashLine(tokens[i]) && CleanTag(tokens[i]) == tags[i] {
      CleanTagOfToken(tags[i]);
    }
    TagsOfHashTokens(tokens, tags);
  }

  /** Tags that round-trip are read back from their own tags line. */
  lemma TagsLineRoundTrip(tags: seq<string>)
    requires forall i :: 0 <= i < |tags| ==> RoundTrips(tags[i])
    ensures TagsOfLine(TagsLine(tags)) == tags
  {
    var tokens := TagTokens(tags);
    forall i | 0 <= i < |tokens| ensures IsWord(tokens[i]) {
      TagTokenIsWord(tags[i]);
    }
    SplitWhitespaceJoin(tokens);
    TagsOfTagTokens(tags);
  }

  /** The tags line is a single line, and a '#' line when there are tags. */
  lemma TagsLineShape(tags: seq<string>)
    requires forall i :: 0 <= i < |tags| ==> RoundTrips(tags[i])
    ensures '\n' !in TagsLine(tags)
    ensures |tags| > 0 ==> IsHashLine(TagsLine(tags))
  {
    var tokens := TagTokens(tags);
    forall i | 0 <= i < |tokens| ensures '\n' !in tokens[i] {
      TagTokenIsWord(tags[i]);
    }
    JoinAvoids(tokens, " ", '\n');
    if |tags| > 0 {
      JoinStartsWith(tokens, " ");
    }
  }

  /** Two newline-terminated pieces joined by newlines split into four lines. */
  lemma SplitTwoPieces(t: string, s: string, rest: string)
    requires '\n' !in t && '\n' !in s
    ensures Split((t + "\n") + "\n" + (s + "\n") + "\n" + rest, '\n') == [t, "", s, ""] + Split(rest, '\n')
  {
    var nl := "\n";
    var x3 := "" + nl + rest;
    var x2 := s + nl + x3;
    var x1 := "" + nl + x2;
    assert (t + nl) + nl + (s + nl) + nl + rest == t + nl + x1;
    SplitAtSeparator(t, x1, '\n');
    SplitAtSeparator("", x2, '\n');
    SplitAtSeparator(s, x3, '\n');
    SplitAtSeparator("", rest, '\n');
  }

  /** A newline-wrapped middle piece splits into a blank line, itself and another blank line. */
  lemma SplitWrapped(m: string, rest: string)
    requires '\n' !in m
    ensures Split(("\n" + m + "\n") + "\n" + rest, '\n') == ["", m, ""] + Split(rest, '\n')
  {
    var nl := "\n";
    var x2 := "" + nl + rest;
    var x1 := m + nl + x2;
    assert ("\n" + m + "\n") + "\n" + rest == "" + nl + x1;
    SplitAtSeparator("", x1, '\n');
    SplitAtSeparator(m, x2, '\n');
    SplitAtSeparator("", rest, '\n');
  }

  /** The rendered text's lines: the title, a blank line, the time, a blank line, then the rest. */
  lemma RenderedLines(e: EntryData, shown: string)
    requires '\n' !in e.title && '\n' !in shown
    ensures var lines := Split(FormatEntryMarkdown(e, shown), '\n');
      |lines| >= 5 && lines[0] == "# " + e.title && lines[1] == "" && lines[2] == "*" + shown + "*" && lines[3] == ""
      && lines[4..] == Split(Join(MarkdownLines(e, shown)[2..], "\n"), '\n')
  {
    var ml := MarkdownLines(e, shown);
    var t := "# " + e.title;
    var s := "*" + shown + "*";
    assert FormatEntryMarkdown(e, shown) == Join(ml, "\n");
    JoinTwoHeads(ml, "\n");
    var rest := Join(ml[2..], "\n");
    assert ml[0] == t + "\n" && ml[1] == s + "\n";
    assert FormatEntryMarkdown(e, shown) == (t + "\n") + "\n" + (s + "\n") + "\n" + rest;
    SplitTwoPieces(t, s, rest);
    var lines := Split(FormatEntryMarkdown(e, shown), '\n');
    assert lines == [t, "", s, ""] + Split(rest, '\n');
  }

  /** With tags, the rest starts with a blank line, the tags line and another blank line. */
  lemma RenderedTagLines(e: EntryData, shown: string)
    requires |e.tags| > 0
    requires forall i :: 0 <= i < |e.tags| ==> RoundTrips(e.tags[i])
    ensures var lines := Split(Join(MarkdownLines(e, shown)[2..], "\n"), '\n');
      |lines| >= 4 && lines[0] == "" && lines[1] == TagsLine(e.tags) && lines[2] == ""
  {
    var ml := MarkdownLines(e, shown)[2..];
    TagsLineShape(e.tags);
    assert Join(ml, "\n") == ml[0] + "\n" + Join(ml[1..], "\n");
    SplitWrapped(TagsLine(e.tags), Join(ml[1..], "\n"));
  }

  /** `strip()` keeps the rendered time line at the head of the content. */
  lemma ContentKeepsTimeLine(body: seq<string>, s: string, dir: string, existing: set<string>)
    requires |body| >= 3 && body[0] == "*" + s + "*"
    ensures var rest := SplitAudio(TagsAndContent(body).1, dir, existing).1;
      StartsWith(Strip(Join(rest, "\n")), "*" + s + "*")
  {
    var cl := TagsAndContent(body).1;
    assert !IsHashLine(body[0]);
    assert cl[0] == body[0] && |cl| >= 2;
    var rest := SplitAudio(cl, dir, existing).1;
    assert rest[0] == body[0];
    JoinStartsWith(rest, "\n");
    StripKeepsPrefix(Join(rest, "\n"), "*" + s + "*");
  }

  /** Dropping the leading '#' of a "# " heading leaves the space and the title. */
  lemma HeadingHashDropped(title: string)
    ensures LStripChars("# " + title, {'#'}) == [' '] + title
  {
    var l0 := "# " + title;
    var tail := [' '] + title;
    assert l0[0] == '#';
    assert LStripChars(l0, {'#'}) == LStripChars(l0[1..], {'#'});
    assert l0[1..] == tail;
    assert tail[0] !in {'#'};
  }

  /** A "# " heading line gives back its trimmed title. */
  lemma TitleOfHeading(title: string)
    requires Strip(title) == title
    ensures Strip(LStripChars("# " + title, {'#'})) == title
  {
    HeadingHashDropped(title);
    StripSpaceHead(' ', title);
  }


  /** Reading lines that start like a rendered entry: the title, `now`, and the time line leading the content. */
  lemma ParseRenderedHead(id: string, lines: seq<string>, title: string, shown: string, dir: string,
                          existing: set<string>, now: string, readStamp: string -> Option<string>)
    requires |lines| >= 5 && lines[0] == "# " + title && lines[1] == "" && lines[2] == "*" + shown + "*"
    requires Strip(title) == title
    ensures var p := ParseLines(id, lines, dir, existing, now, readStamp);
      p.id == id && p.title == title && p.timestamp == now && StartsWith(p.content, "*" + shown + "*")
  {
    TitleOfHeading(title);
    assert !StartsWith(lines[1], "*");
    ContentKeepsTimeLine(lines[2..], shown, dir, existing);
  }

  /** Reading lines whose first '#' line after the time line is the given one: its tags. */
  lemma ParseRenderedTags(id: string, lines: seq<string>, tagLine: string, dir: string,
                          existing: set<string>, now: string, readStamp: string -> Option<string>)
    requires |lines| >= 6 && !IsHashLine(lines[2]) && lines[3] == "" && lines[4] == "" && lines[5] == tagLine
    requires IsHashLine(tagLine)
    ensures ParseLines(id, lines, dir, existing, now, readStamp).tags == TagsOfLine(tagLine)
  {
    var body := lines[2..];
    assert body[0] == lines[2] && body[1] == "" && body[2] == "" && body[3] == tagLine;
    assert FirstHashLine(body) == 3 by {
      assert body[1..][1..][1..] == body[3..];
      assert FirstHashLine(body[3..]) == 0;
      assert FirstHashLine(body[1..][1..]) == 1;
      assert FirstHashLine(body[1..]) == 2;
    }
  }

  /**
   * Rendering then reading back keeps the id and the title, and with tags that
   * round-trip the tags; the timestamp is lost, because the line after the
   * title is blank: the reader uses `now` and the rendered time line stays at
   * the head of the content.
   */
  lemma FormatThenParse(e: EntryData, shown: string, dir: string, existing: set<string>, now: string,
                        readStamp: string -> Option<string>)
    requires '\n' !in e.title && '\n' !in shown && Strip(e.title) == e.title
    requires forall i :: 0 <= i < |e.tags| ==> RoundTrips(e.tags[i])
    ensures var p := ParsedEntry(e.id, FormatEntryMarkdown(e, shown), dir, existing, now, readStamp);
      && p.id == e.id && p.title == e.title
      && p.timestamp == now
      && StartsWith(p.content, "*" + shown + "*")
      && (|e.tags| > 0 ==> p.tags == e.tags)
  {
    var lines := Split(FormatEntryMarkdown(e, shown), '\n');
    var p := ParseLines(e.id, lines, dir, existing, now, readStamp);
    assert ParsedEntry(e.id, FormatEntryMarkdown(e, shown), dir, existing, now, readStamp) == p;
    RenderedLines(e, shown);
    ParseRenderedHead(e.id, lines, e.title, shown, dir, existing, now, readStamp);
    if |e.tags| > 0 {
      RenderedTagsRoundTrip(e, shown, dir, existing, now, readStamp);
    }
  }

  /** With tags that round-trip, the rendered tags line is read back as the same tags. */
  lemma RenderedTagsRoundTrip(e: EntryData, shown: string, dir: string, existing: set<string>, now: string,
                              readStamp: string -> Option<string>)
    requires '\n' !in e.title && '\n' !in shown
    requires |e.tags| > 0 && forall i :: 0 <= i < |e.tags| ==> RoundTrips(e.tags[i])
    ensures ParseLines(e.id, Split(FormatEntryMarkdown(e, shown), '\n'), dir, existing, now, readStamp).tags == e.tags
  {
    var lines := Split(FormatEntryMarkdown(e, shown), '\n');
    RenderedLines(e, shown);
    RenderedTagLines(e, shown);
    TagsLineRoundTrip(e.tags);
    TagsLineShape(e.tags);
    var more := Split(Join(MarkdownLines(e, shown)[2..], "\n"), '\n');
    assert lines[4] == more[0] && lines[5] == more[1] && lines[6] == more[2];
    ParseRenderedTags(e.id, lines, TagsLine(e.tags), dir, existing, now, readStamp);
  }

  /** Without tags, the rest starts with a blank line and then the content's first line. */
  lemma RenderedContentLines(e: EntryData, shown: string)
    requires |e.tags| == 0
    ensures var more := Split(Join(MarkdownLines(e, shown)[2..], "\n"), '\n');
      |more| >= 2 && more[0] == "" && more[1] == Split(e.content, '\n')[0]
  {
    var ml := MarkdownLines(e, shown)[2..];
    assert ml[0] == "\n" + e.content;
    NewlineHeadLines(ml, e.content);
  }

  /** Joined pieces whose first is a newline and `content` split into a blank line and then `content`'s first line. */
  lemma NewlineHeadLines(ml: seq<string>, content: string)
    requires |ml| >= 1 && ml[0] == "\n" + content
    ensures var more := Split(Join(ml, "\n"), '\n');
      |more| >= 2 && more[0] == "" && more[1] == Split(content, '\n')[0]
  {
    if |ml| == 1 {
      assert Join(ml, "\n") == "" + "\n" + content;
      SplitAtSeparator("", content, '\n');
    } else {
      var tail := Join(ml[1..], "\n");
      assert Join(ml, "\n") == "" + "\n" + (content + "\n" + tail);
      SplitAtSeparator("", content + "\n" + tail, '\n');
      SplitPrefix(content, tail, '\n');
    }
  }

  /**
   * Without tags, a content whose first line starts with '#' is read back as
   * tags: the reader cannot tell it from a tags line.
   */
  lemma HeadingContentBecomesTags(e: EntryData, shown: string, dir: string, existing: set<string>, now: string,
                                  readStamp: string -> Option<string>)
    requires '\n' !in e.title && '\n' !in shown
    requires |e.tags| == 0 && StartsWith(e.content, "#")
    ensures var p := ParsedEntry(e.id, FormatEntryMarkdown(e, shown), dir, existing, now, readStamp);
      p.tags == TagsOfLine(Split(e.content, '\n')[0])
  {
    var lines := Split(FormatEntryMarkdown(e, shown), '\n');
    RenderedLines(e, shown);
    RenderedContentLines(e, shown);
    var more := Split(Join(MarkdownLines(e, shown)[2..], "\n"), '\n');
    assert lines[4] == more[0] && lines[5] == more[1];
    var first := Split(e.content, '\n')[0];
    assert IsHashLine(first) by {
      SplitPrefixHead(e.content, '\n');
    }
    assert !IsHashLine(lines[2]) by {
      assert lines[2][0] == '*';
    }
    ParseRenderedTags(e.id, lines, first, dir, existing, now, readStamp);
  }

  /** The first part of a split of `a + c + b` is the first part of the split of `a`. */
  lemma {:induction false} SplitPrefix(a: string, b: string, c: char)
    ensures Split(a + [c] + b, c)[0] == Split(a, c)[0]
  {
    if |a| > 0 {
      var s := a + [c] + b;
      assert s[0] == a[0];
      assert s[1..] == a[1..] + [c] + b;
      SplitPrefix(a[1..], b, c);
    }
  }

  /** A text not starting with the separator starts its first piece. */
  lemma SplitPrefixHead(a: string, c: char)
    requires |a| > 0 && a[0] != c
    ensures |Split(a, c)[0]| > 0 && Split(a, c)[0][0] == a[0]
  {
  }

  // ---------------------------------------------------------------- entries

  /** A stored entry: the dictionary `update_entry` changes in place. */
  class Entry {
    var data: EntryData

    constructor (data: EntryData)
      ensures this.data == data
    {
      this.data := data;
    }
  }

  /** The fields `update_entry` may set (`dict.update`); None leaves a field as it is. */
  datatype EntryUpdate = EntryUpdate(
    id: Option<string>,
    title: Option<string>,
    content: Option<string>,
    timestamp: Option<string>,
    tags: Option<seq<string>>,
    audioPath: Option<Option<string>>)

  function Pick<T>(o: Option<T>, d: T): T {
    if o.Some? then o.value else d
  }

  /** The entry with the given fields merged in. */
  function Merge(d: EntryData, u: EntryUpdate): (r: EntryData)
    ensures u.title.None? ==> r.title == d.title
    ensures u.title.Some? ==> r.title == u.title.value
  {
    EntryData(Pick(u.id, d.id), Pick(u.title, d.title), Pick(u.content, d.content),
              Pick(u.timestamp, d.timestamp), Pick(u.tags, d.tags), Pick(u.audioPath, d.audioPath))
  }

  /** `a.update(u); a.update(v)` is one update with `v` winning over `u`. */
  function Then(u: EntryUpdate, v: EntryUpdate): EntryUpdate {
    EntryUpdate(if v.id.Some? then v.id else u.id,
                if v.title.Some? then v.title else u.title,
                if v.content.Some? then v.content else u.content,
                if v.timestamp.Some? then v.timestamp else u.timestamp,
                if v.tags.Some? then v.tags else u.tags,
                if v.audioPath.Some? then v.audioPath else u.audioPath)
  }

  lemma MergeThen(d: EntryData, u: EntryUpdate, v: EntryUpdate)
    ensures Merge(Merge(d, u), v) == Merge(d, Then(u, v))
    ensures Merge(Merge(d, u), u) == Merge(d, u)
  {
  }

  /** What the service emits. */
  datatype Signal = EntryUpdated(entry: EntryData) | EntryDeleted(id: string) | ErrorOccurred(message: string)

  /** The entry's snapshots in insertion order. */
  function Snapshots(keys: seq<string>, entries: map<string, Entry>): (r: seq<EntryData>)
    requires forall k :: k in keys ==> k in entries
    reads entries.Values
    ensures |r| == |keys|
    ensures forall i :: 0 <= i < |keys| ==> r[i] == entries[keys[i]].data
  {
    if |keys| == 0 then [] else [entries[keys[0]].data] + Snapshots(keys[1..], entries)
  }

  function TimestampKey(e: EntryData): string {
    e.timestamp
  }

  /** The entries `load_entries` reads from a directory listing, in listing order. */
  function Loaded(listing: seq<(string, Option<string>)>, dir: string, existing: set<string>, now: string,
                  readStamp: string -> Option<string>): (r: OrderedMaps.OMap<string, EntryData>)
    ensures OrderedMaps.Valid(r)
  {
    if |listing| == 0 then OrderedMaps.Empty()
    else
      var prev := Loaded(listing[..|listing| - 1], dir, existing, now, readStamp);
      var name := listing[|listing| - 1].0;
      var text := listing[|listing| - 1].1;
      if EndsWith(name, ".md") && text.Some? then
        var id := name[..|name| - 3];
        OrderedMaps.Put(prev, id, ParsedEntry(id, text.value, dir, existing, now, readStamp))
      else prev
  }

  /** One step of the listing: the next file adds its entry, or nothing. */
  lemma LoadedStep(listing: seq<(string, Option<string>)>, i: nat, dir: string, existing: set<string>, now: string,
                   readStamp: string -> Option<string>)
    requires i < |listing|
    ensures var name := listing[i].0;
      var text := listing[i].1;
      var prev := Loaded(listing[..i], dir, existing, now, readStamp);
      Loaded(listing[..i + 1], dir, existing, now, readStamp)
        == if EndsWith(name, ".md") && text.Some? then
             OrderedMaps.Put(prev, name[..|name| - 3], ParsedEntry(name[..|name| - 3], text.value, dir, existing, now, readStamp))
           else prev
  {
    assert listing[..i + 1][..i] == listing[..i];
  }

  /** The values of an updated map are the old ones and the new one. */
  lemma UpdatedValues<K, V>(m: map<K, V>, k: K, v: V)
    ensures m[k := v].Values <= m.Values + {v}
  {
    forall o | o in m[k := v].Values ensures o in m.Values + {v} {
      var j :| j in m[k := v] && m[k := v][j] == o;
      if j != k {
        assert m[j] == o;
      }
    }
  }

  /** The stored entries hold, key for key and in the same order, the given data. */
  ghost predicate Mirrors(entries: OrderedMaps.OMap<string, Entry>, spec: OrderedMaps.OMap<string, EntryData>)
    reads entries.values.Values
  {
    && entries.keys == spec.keys
    && entries.values.Keys == spec.values.Keys
    && forall k :: k in entries.values ==> entries.values[k].data == spec.values[k]
  }

  /** The reading loop of `load_entries`: every readable ".md" file of the listing, parsed, in listing order. */
  method ReadListing(listing: seq<(string, Option<string>)>, dir: string, existing: set<string>, now: string,
                     readStamp: string -> Option<string>) returns (loaded: OrderedMaps.OMap<string, EntryData>)
    ensures loaded == Loaded(listing, dir, existing, now, readStamp)
  {
    loaded := OrderedMaps.Empty();
    var i := 0;
    while i < |listing|
      invariant 0 <= i <= |listing|
      invariant loaded == Loaded(listing[..i], dir, existing, now, readStamp)
    {
      LoadedStep(listing, i, dir, existing, now, readStamp);
      var name := listing[i].0;
      var text := listing[i].1;
      if EndsWith(name, ".md") && text.Some? {
        var id := name[..|name| - 3];
        var data := ParseEntry(id, text.value, dir, existing, now, readStamp);
        loaded := OrderedMaps.Put(loaded, id, data);
      }
      i := i + 1;
    }
    assert listing[..i] == listing;
  }

  /** One new dictionary object per loaded entry, under the same keys in the same order. */
  method NewEntries(loaded: OrderedMaps.OMap<string, EntryData>) returns (entries: OrderedMaps.OMap<string, Entry>)
    requires OrderedMaps.Valid(loaded)
    ensures OrderedMaps.Valid(entries) && Mirrors(entries, loaded)
    ensures fresh(entries.values.Values)
  {
    entries := OrderedMaps.Empty();
    var i := 0;
    while i < |loaded.keys|
      invariant 0 <= i <= |loaded.keys|
      invariant entries.keys == loaded.keys[..i]
      invariant forall k :: k in entries.values <==> k in loaded.keys[..i]
      invariant forall k :: k in entries.values ==> entries.values[k].data == loaded.values[k]
      invariant fresh(entries.values.Values)
    {
      var id := loaded.keys[i];
      var entry := new Entry(loaded.values[id]);
      ghost var before := entries.values;
      assert loaded.keys[..i + 1] == loaded.keys[..i] + [id];
      entries := OrderedMaps.OMap(entries.keys + [id], entries.values[id := entry]);
      UpdatedValues(before, id, entry);
      i := i + 1;
    }
    assert loaded.keys[..i] == loaded.keys;
  }

  /** `JournalService`. */
  /** Which `os.remove` call of `delete_entry` raises, with the exception's text. */
  datatype DeleteFailure = EntryFileRaises(message: string) | AudioFileRaises(message: string)

  /** Removing the entry's own file raises: it exists and its removal is the one that fails. */
  predicate EntryFileRaised(failure: Option<DeleteFailure>, path: string, disk: map<string, string>) {
    failure.Some? && failure.value.EntryFileRaises? && path in disk
  }

  /**
   * Removing the audio file raises: the entry's file was removed, and the
   * audio file is still there and its removal is the one that fails.
   */
  predicate AudioFileRaised(failure: Option<DeleteFailure>, path: string, audio: Option<string>, disk: map<string, string>) {
    failure.Some? && failure.value.AudioFileRaises? && Truthy(audio) && audio.value in disk - {path}
  }

  class JournalService {
    const journalDir: string
    var entries: OrderedMaps.OMap<string, Entry>
    var current: Entry?
    /** The files on disk: path to text. */
    var disk: map<string, string>
    var events: seq<Signal>

    ghost predicate Valid()
      reads this
    {
      OrderedMaps.Valid(entries)
    }

    constructor (journalDir: string, disk: map<string, string>)
      ensures Valid() && this.journalDir == journalDir && this.disk == disk
      ensures entries == OrderedMaps.Empty() && current == null && events == []
    {
      this.journalDir := journalDir;
      entries := OrderedMaps.Empty();
      current := null;
      this.disk := disk;
      events := [];
    }

    function EntryPath(id: string): string {
      PathJoin(journalDir, id + ".md")
    }

    /**
     * `load_entries`: the entries are cleared; with no directory the load
     * fails. When listing the directory raises (`listFailure`), the error is
     * reported and the load fails. Otherwise every readable ".md" file becomes
     * an entry keyed by its name without ".md"; unreadable files are skipped.
     */
    method LoadEntries(dirExists: bool, listFailure: Option<string>, listing: seq<(string, Option<string>)>, now: string,
                       readStamp: string -> Option<string>) returns (ok: bool)
      modifies this`entries, this`events
      ensures Valid() && ok == (dirExists && listFailure.None?)
      ensures !ok ==> entries == OrderedMaps.Empty()
      ensures dirExists && listFailure.Some? ==>
        events == old(events) + [ErrorOccurred("Failed to load journal entries: " + listFailure.value)]
      ensures !(dirExists && listFailure.Some?) ==> events == old(events)
      ensures ok ==> Mirrors(entries, Loaded(listing, journalDir, disk.Keys, now, readStamp))
      ensures fresh(entries.values.Values)
    {
      entries := OrderedMaps.Empty();
      if !dirExists {
        return false;
      }
      if listFailure.Some? {
        events := events + [ErrorOccurred("Failed to load journal entries: " + listFailure.value)];
        return false;
      }
      var loaded := ReadListing(listing, journalDir, disk.Keys, now, readStamp);
      entries := NewEntries(loaded);
      return true;
    }

    /**
     * `update_entry`: an unknown id is refused. Otherwise the fields are merged
     * into the stored entry in place (the current entry sees them when it is
     * that entry), and the file is rewritten: opening it empties it, and a
     * timestamp that cannot be shown then leaves it empty.
     */
    method UpdateEntry(id: string, u: EntryUpdate, openFailure: Option<string>, shown: Result<string>) returns (ok: bool)
      requires Valid()
      modifies this`disk, this`events, if id in entries.values then {entries.values[id]} else {}
      ensures id !in entries.values ==> !ok && disk == old(disk) && events == old(events)
      ensures id in entries.values ==>
        entries.values[id].data == Merge(old(entries.values[id].data), u)
        && (openFailure.Some? ==>
              !ok && disk == old(disk)
              && events == old(events) + [ErrorOccurred("Failed to update journal entry: " + openFailure.value)])
        && (openFailure.None? && shown.Err? ==>
              !ok && disk == old(disk)[EntryPath(id) := ""]
              && events == old(events) + [ErrorOccurred("Failed to update journal entry: " + shown.error)])
        && (openFailure.None? && shown.Ok? ==>
              ok && disk == old(disk)[EntryPath(id) := FormatEntryMarkdown(entries.values[id].data, shown.value)]
              && events == old(events) + [EntryUpdated(entries.values[id].data)])
    {
      if id !in entries.values {
        return false;
      }
      var entry := entries.values[id];
      entry.data := Merge(entry.data, u);
      if openFailure.Some? {
        events := events + [ErrorOccurred("Failed to update journal entry: " + openFailure.value)];
        return false;
      }
      disk := disk[EntryPath(id) := ""];
      if shown.Err? {
        events := events + [ErrorOccurred("Failed to update journal entry: " + shown.error)];
        return false;
      }
      disk := disk[EntryPath(id) := FormatEntryMarkdown(entry.data, shown.value)];
      events := events + [EntryUpdated(entry.data)];
      return true;
    }

    /**
     * `if os.path.exists(path): os.remove(path)`, where `raises` says whether
     * `os.remove` raises; it is only called, and so only raises, when the
     * file exists, and then the file stays.
     */
    method RemoveIfPresent(path: string, raises: bool) returns (raised: bool)
      modifies this`disk
      ensures raised <==> raises && path in old(disk)
      ensures raised ==> disk == old(disk)
      ensures !raised ==> disk == old(disk) - {path}
    {
      if path in disk {
        if raises {
          return true;
        }
        disk := disk - {path};
      } else {
        assert disk == disk - {path};
      }
      raised := false;
    }

    /** The two removals of `delete_entry`: the entry's file, then its audio file; the first that raises ends them. */
    method RemoveEntryFiles(path: string, audioPath: Option<string>, failure: Option<DeleteFailure>) returns (raised: bool)
      modifies this`disk
      ensures raised <==> EntryFileRaised(failure, path, old(disk)) || AudioFileRaised(failure, path, audioPath, old(disk))
      ensures EntryFileRaised(failure, path, old(disk)) ==> disk == old(disk)
      ensures !EntryFileRaised(failure, path, old(disk)) && AudioFileRaised(failure, path, audioPath, old(disk)) ==>
        disk == old(disk) - {path}
      ensures !raised ==> disk == old(disk) - {path} - (if Truthy(audioPath) then {audioPath.value} else {})
    {
      raised := RemoveIfPresent(path, failure.Some? && failure.value.EntryFileRaises?);
      if !raised && Truthy(audioPath) {
        raised := RemoveIfPresent(audioPath.value, failure.Some? && failure.value.AudioFileRaises?);
      }
    }

    /**
     * `delete_entry`: an unknown id is refused. Otherwise the entry's file and
     * then its audio file are removed when present; when a removal raises,
     * what was removed before it stays removed, the entry is kept and the
     * error is reported. Otherwise the entry is dropped and the current entry
     * is cleared when its id is the deleted one.
     */
    method DeleteEntry(id: string, failure: Option<DeleteFailure>) returns (ok: bool)
      requires Valid()
      modifies this`entries, this`current, this`disk, this`events
      ensures Valid()
      ensures id !in old(entries.values) ==> !ok && unchanged(this)
      ensures id in old(entries.values) && EntryFileRaised(failure, EntryPath(id), old(disk)) ==>
        !ok && entries == old(entries) && current == old(current) && disk == old(disk)
        && events == old(events) + [ErrorOccurred("Failed to delete journal entry: " + failure.value.message)]
      ensures id in old(entries.values) && AudioFileRaised(failure, EntryPath(id), old(entries.values[id].data.audioPath), old(disk)) ==>
        !ok && entries == old(entries) && current == old(current) && disk == old(disk) - {EntryPath(id)}
        && events == old(events) + [ErrorOccurred("Failed to delete journal entry: " + failure.value.message)]
      ensures (id in old(entries.values) && !EntryFileRaised(failure, EntryPath(id), old(disk))
               && !AudioFileRaised(failure, EntryPath(id), old(entries.values[id].data.audioPath), old(disk))) ==>
        ok && entries == OrderedMaps.Remove(old(entries), id)
        && disk == old(disk) - {EntryPath(id)}
             - (if Truthy(old(entries.values[id].data.audioPath)) then {old(entries.values[id].data.audioPath.value)} else {})
        && (old(current) != null && old(current.data.id) == id ==> current == null)
        && (old(current) == null || old(current.data.id) != id ==> current == old(current))
        && events == old(events) + [EntryDeleted(id)]
    {
      if id !in entries.values {
        return false;
      }
      var raised := RemoveEntryFiles(EntryPath(id), entries.values[id].data.audioPath, failure);
      if raised {
        events := events + [ErrorOccurred("Failed to delete journal entry: " + failure.value.message)];
        return false;
      }
      entries := OrderedMaps.Remove(entries, id);
      if current != null && current.data.id == id {
        current := null;
      }
      events := events + [EntryDeleted(id)];
      return true;
    }

    /** `get_all_entries`: every entry, newest timestamp first; entries with equal timestamps keep their insertion order. */
    method GetAllEntries() returns (r: seq<EntryData>)
      requires Valid()
      ensures SortedBy(r, TimestampKey, true)
      ensures multiset(r) == multiset(Snapshots(entries.keys, entries.values))
      ensures forall k :: WithKey(r, TimestampKey, k) == WithKey(Snapshots(entries.keys, entries.values), TimestampKey, k)
    {
      r := SortBy(Snapshots(entries.keys, entries.values), TimestampKey, true);
      forall k ensures WithKey(r, TimestampKey, k) == WithKey(Snapshots(entries.keys, entries.values), TimestampKey, k) {
        SortByStable(Snapshots(entries.keys, entries.values), TimestampKey, true, k);
      }
    }
  }
}
