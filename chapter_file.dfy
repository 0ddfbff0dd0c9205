/** The FFmpeg metadata chapter file the timecode logger writes (`chapters.txt`): the
    `;FFMETADATA1` marker, then one `[CHAPTER]` block per chapter in milliseconds, where each
    chapter ends where the next one starts and the last one has no end. */
module ChapterFile {
  import opened Wrappers
  import opened Text

  /** A chapter mark: milliseconds since the recording started, and its title. */
  datatype Chapter = Chapter(time: int, title: string)

  /** What one block of the file says about a chapter. */
  datatype ChapterEntry = ChapterEntry(start: int, end: Option<int>, title: string)

  const Marker: string := ";FFMETADATA1\n"

  /** The entries the file describes: START is the chapter's time, END the next chapter's time. */
  function Entries(chs: seq<Chapter>): (es: seq<ChapterEntry>)
    ensures |es| == |chs|
  {
    seq(|chs|, i requires 0 <= i < |chs| =>
      ChapterEntry(chs[i].time, if i < |chs| - 1 then Some(chs[i + 1].time) else None, chs[i].title))
  }

  function EndLine(chs: seq<Chapter>, i: nat): string
    requires i < |chs|
  {
    if i < |chs| - 1 then "END=" + IntToString(chs[i + 1].time) + "\n" else ""
  }

  /** The block of chapter `i`. */
  function ChapterBlock(chs: seq<Chapter>, i: nat): string
    requires i < |chs|
  {
    "\n[CHAPTER]\n" + "TIMEBASE=1/1000\n" + ("START=" + IntToString(chs[i].time) + "\n")
      + EndLine(chs, i) + ("title=" + chs[i].title + "\n")
  }

  /** The blocks of the first `k` chapters, in order. */
  function ChapterBlocks(chs: seq<Chapter>, k: nat): string
    requires k <= |chs|
  {
    if k == 0 then "" else ChapterBlocks(chs, k - 1) + ChapterBlock(chs, k - 1)
  }

  function ChapterFileText(chs: seq<Chapter>): string
  {
    Marker + ChapterBlocks(chs, |chs|)
  }

  /** Builds the file text chapter by chapter, as the logger's generator does. */
  method BuildChapters(chs: seq<Chapter>) returns (content: string)
    ensures content == ChapterFileText(chs)
  {
    content := Marker;
    var i := 0;
    while i < |chs|
      invariant 0 <= i <= |chs|
      invariant content == Marker + ChapterBlocks(chs, i)
    {
      ghost var before := content;
      content := AppendChapter(content, chs, i);
      BlocksSnoc(chs, i, before, content);
      i := i + 1;
    }
  }

  /** The body of the generator's per-chapter callback: appends the block of chapter `i`, with
      an END line only when a next chapter exists. */
  method AppendChapter(content: string, chs: seq<Chapter>, i: nat) returns (result: string)
    requires i < |chs|
    ensures result == content + ChapterBlock(chs, i)
  {
    var startTimeMs := chs[i].time;
    var endTimeMs: Option<int> := if i < |chs| - 1 then Some(chs[i + 1].time) else None;
    result := content + "\n[CHAPTER]\n";
    result := result + "TIMEBASE=1/1000\n";
    result := result + ("START=" + IntToString(startTimeMs) + "\n");
    ghost var withStart := result;
    if endTimeMs.Some? {
      result := result + ("END=" + IntToString(endTimeMs.value) + "\n");
    }
    assert result == withStart + EndLine(chs, i);
    BlockAppend(content, "START=" + IntToString(startTimeMs) + "\n", EndLine(chs, i), "title=" + chs[i].title + "\n");
    result := result + ("title=" + chs[i].title + "\n");
  }

  lemma BlockAppend(p: string, s: string, e: string, t: string)
    ensures p + "\n[CHAPTER]\n" + "TIMEBASE=1/1000\n" + s + e + t
         == p + ("\n[CHAPTER]\n" + "TIMEBASE=1/1000\n" + s + e + t)
  {
  }

  lemma BlocksSnoc(chs: seq<Chapter>, i: nat, before: string, after: string)
    requires i < |chs| && before == Marker + ChapterBlocks(chs, i)
    requires after == before + ChapterBlock(chs, i)
    ensures after == Marker + ChapterBlocks(chs, i + 1)
  {
    Assoc(Marker, ChapterBlocks(chs, i), ChapterBlock(chs, i));
  }

  lemma Assoc(a: string, b: string, c: string)
    ensures a + b + c == a + (b + c)
  {
  }

  /** Every chapter but the last ends where the next one starts; the last has no end. */
  lemma EndIsNextStart(chs: seq<Chapter>)
    ensures forall i | 0 <= i < |chs| - 1 :: Entries(chs)[i].end == Some(Entries(chs)[i + 1].start)
    ensures |chs| > 0 ==> Entries(chs)[|chs| - 1].end == None
    ensures forall i | 0 <= i < |chs| :: Entries(chs)[i].start == chs[i].time && Entries(chs)[i].title == chs[i].title
  {
  }

  // Reading the file back

  /** The lines of one block: blank, `[CHAPTER]`, the time base, START, END when present, title. */
  function EntryLines(e: ChapterEntry): seq<string>
  {
    ["", "[CHAPTER]", "TIMEBASE=1/1000", "START=" + IntToString(e.start)]
      + (if e.end.Some? then ["END=" + IntToString(e.end.value)] else [])
      + ["title=" + e.title]
  }

  /** The value after `key=` on a line, when the line has that key. */
  function Field(line: string, key: string): Option<string>
  {
    if StartsWith(line, key + "=") then Some(line[|key| + 1..]) else None
  }

  /** The entry of the block the lines start with, and how many lines the block takes. */
  function ReadBlock(lines: seq<string>): (r: Option<(ChapterEntry, nat)>)
    ensures r.Some? ==> 5 <= r.value.1 <= |lines|
  {
    if |lines| < 5 || lines[0] != "" || lines[1] != "[CHAPTER]" || lines[2] != "TIMEBASE=1/1000" then None
    else
      var startText := Field(lines[3], "START");
      var start := if startText.Some? then ParseInt(startText.value) else None;
      var endText := Field(lines[4], "END");
      if start.None? then None
      else if endText.Some? then
        var end := ParseInt(endText.value);
        if |lines| < 6 || end.None? || Field(lines[5], "title").None? then None
        else Some((ChapterEntry(start.value, Some(end.value), Field(lines[5], "title").value), 6))
      else if Field(lines[4], "title").None? then None
      else Some((ChapterEntry(start.value, None, Field(lines[4], "title").value), 5))
  }

  /** The chapter entries of the block lines, front to back. */
  function ReadEntries(lines: seq<string>): Option<seq<ChapterEntry>>
    decreases |lines|
  {
    if |lines| == 0 then Some([])
    else
      match ReadBlock(lines)
      case None => None
      case Some(r) =>
        match ReadEntries(lines[r.1..])
        case None => None
        case Some(rest) => Some([r.0] + rest)
  }

  function ReadChapterFile(content: string): Option<seq<ChapterEntry>>
  {
    var lines := Split(content, '\n');
    if |lines| >= 2 && lines[0] == ";FFMETADATA1" && lines[|lines| - 1] == "" then
      ReadEntries(lines[1..|lines| - 1])
    else None
  }

  predicate OneLineTitles(chs: seq<Chapter>)
  {
    forall i | 0 <= i < |chs| :: '\n' !in chs[i].title
  }

  /** The block lines of the entries, front to back. */
  function LinesFrom(es: seq<ChapterEntry>): seq<string>
  {
    if |es| == 0 then [] else EntryLines(es[0]) + LinesFrom(es[1..])
  }

  lemma {:induction false} LinesFromSnoc(es: seq<ChapterEntry>, e: ChapterEntry)
    ensures LinesFrom(es + [e]) == LinesFrom(es) + EntryLines(e)
  {
    if |es| == 0 {
      assert es + [e] == [e];
      assert [e][1..] == [];
    } else {
      assert (es + [e])[0] == es[0];
      assert (es + [e])[1..] == es[1..] + [e];
      LinesFromSnoc(es[1..], e);
    }
  }

  function EndText(e: ChapterEntry): string
  {
    if e.end.Some? then "END=" + IntToString(e.end.value) + "\n" else ""
  }

  lemma Unlines1(a: string)
    ensures Unlines([a]) == a + "\n"
  {
    assert [a][1..] == [];
    assert Unlines([a]) == a + "\n" + Unlines([]);
  }

  lemma HeadLines(d: string)
    ensures Unlines(["", "[CHAPTER]", "TIMEBASE=1/1000", d]) == "\n[CHAPTER]\n" + "TIMEBASE=1/1000\n" + (d + "\n")
  {
    Unlines4("", "[CHAPTER]", "TIMEBASE=1/1000", d);
    HeadText(d + "\n");
  }

  lemma Unlines4(a: string, b: string, c: string, d: string)
    ensures Unlines([a, b, c, d]) == a + "\n" + (b + "\n" + (c + "\n" + (d + "\n")))
  {
    var l := [a, b, c, d];
    assert l[1..] == [b, c, d];
    assert l[1..][1..] == [c, d];
    assert l[1..][1..][1..] == [d];
    Unlines1(d);
    assert Unlines([c, d]) == c + "\n" + (d + "\n");
    assert Unlines([b, c, d]) == b + "\n" + (c + "\n" + (d + "\n"));
  }

  lemma HeadText(x: string)
    ensures "" + "\n" + ("[CHAPTER]" + "\n" + ("TIMEBASE=1/1000" + "\n" + x)) == "\n[CHAPTER]\n" + "TIMEBASE=1/1000\n" + x
  {
    assert "" + "\n" + ("[CHAPTER]" + "\n") == "\n[CHAPTER]\n";
    assert "TIMEBASE=1/1000" + "\n" == "TIMEBASE=1/1000\n";
  }

  lemma PiecesAssoc(p: string, e: string, t: string)
    ensures p + e + t == p + (e + t)
  {
  }

  /** One entry's lines, each followed by a line break, are its block. */
  lemma EntryText(e: ChapterEntry)
    ensures Unlines(EntryLines(e)) == "\n[CHAPTER]\n" + "TIMEBASE=1/1000\n" + ("START=" + IntToString(e.start) + "\n")
                                    + EndText(e) + ("title=" + e.title + "\n")
  {
    var head := ["", "[CHAPTER]", "TIMEBASE=1/1000", "START=" + IntToString(e.start)];
    var mid := if e.end.Some? then ["END=" + IntToString(e.end.value)] else [];
    var tail := ["title=" + e.title];
    UnlinesAppend(head + mid, tail);
    UnlinesAppend(head, mid);
    HeadLines("START=" + IntToString(e.start));
    Unlines1("title=" + e.title);
    if e.end.Some? {
      Unlines1("END=" + IntToString(e.end.value));
    } else {
      assert Unlines(mid) == "";
    }
  }

  lemma BlockIsEntryText(chs: seq<Chapter>, i: nat)
    requires i < |chs|
    ensures ChapterBlock(chs, i) == Unlines(EntryLines(Entries(chs)[i]))
  {
    var e := Entries(chs)[i];
    assert EndLine(chs, i) == EndText(e);
    EntryText(e);
  }

  lemma LinesPrefix(es: seq<ChapterEntry>, k: nat)
    requires 0 < k <= |es|
    ensures LinesFrom(es[..k]) == LinesFrom(es[..k - 1]) + EntryLines(es[k - 1])
  {
    assert es[..k] == es[..k - 1] + [es[k - 1]];
    LinesFromSnoc(es[..k - 1], es[k - 1]);
  }

  lemma {:induction false} BlocksAsLines(chs: seq<Chapter>, k: nat)
    requires k <= |chs|
    ensures ChapterBlocks(chs, k) == Unlines(LinesFrom(Entries(chs)[..k]))
  {
    var es := Entries(chs);
    if k == 0 {
      assert es[..0] == [];
    } else {
      BlocksAsLines(chs, k - 1);
      BlockIsEntryText(chs, k - 1);
      LinesPrefix(es, k);
      UnlinesStep(ChapterBlocks(chs, k - 1), ChapterBlock(chs, k - 1), LinesFrom(es[..k - 1]), EntryLines(es[k - 1]),
        ChapterBlocks(chs, k), LinesFrom(es[..k]));
    }
  }

  lemma FieldOf(key: string, v: string)
    ensures Field(key + "=" + v, key) == Some(v)
  {
    var line := key + "=" + v;
    assert line[..|key + "="|] == key + "=";
    assert line[|key| + 1..] == v;
  }

  lemma TitleIsNotEnd(t: string)
    ensures Field("title=" + t, "END") == None
  {
    assert ("title=" + t)[0] == 't';
  }

  /** A block reads back as its entry and takes exactly its own lines. */
  lemma ReadBlockOf(e: ChapterEntry, rest: seq<string>)
    ensures ReadBlock(EntryLines(e) + rest) == Some((e, |EntryLines(e)|))
  {
    var lines := EntryLines(e) + rest;
    assert lines[0] == "" && lines[1] == "[CHAPTER]" && lines[2] == "TIMEBASE=1/1000";
    assert lines[3] == "START=" + IntToString(e.start);
    if e.end.Some? {
      assert lines[4] == "END=" + IntToString(e.end.value) && lines[5] == "title=" + e.title;
      ReadBlockWithEnd(lines, e.start, e.end.value, e.title);
    } else {
      assert lines[4] == "title=" + e.title;
      ReadBlockWithoutEnd(lines, e.start, e.title);
    }
  }

  lemma ReadBlockWithEnd(lines: seq<string>, start: int, end: int, title: string)
    requires |lines| >= 6 && lines[0] == "" && lines[1] == "[CHAPTER]" && lines[2] == "TIMEBASE=1/1000"
    requires lines[3] == "START=" + IntToString(start) && lines[4] == "END=" + IntToString(end)
    requires lines[5] == "title=" + title
    ensures ReadBlock(lines) == Some((ChapterEntry(start, Some(end), title), 6))
  {
    FieldOf("START", IntToString(start));
    ParseIntRoundTrip(start);
    FieldOf("END", IntToString(end));
    ParseIntRoundTrip(end);
    FieldOf("title", title);
  }

  lemma ReadBlockWithoutEnd(lines: seq<string>, start: int, title: string)
    requires |lines| >= 5 && lines[0] == "" && lines[1] == "[CHAPTER]" && lines[2] == "TIMEBASE=1/1000"
    requires lines[3] == "START=" + IntToString(start) && lines[4] == "title=" + title
    ensures ReadBlock(lines) == Some((ChapterEntry(start, None, title), 5))
  {
    FieldOf("START", IntToString(start));
    ParseIntRoundTrip(start);
    TitleIsNotEnd(title);
    FieldOf("title", title);
  }

  lemma {:induction false} ReadLinesFrom(es: seq<ChapterEntry>)
    ensures ReadEntries(LinesFrom(es)) == Some(es)
  {
    if |es| > 0 {
      var lines := LinesFrom(es);
      ReadBlockOf(es[0], LinesFrom(es[1..]));
      assert lines[|EntryLines(es[0])|..] == LinesFrom(es[1..]);
      ReadLinesFrom(es[1..]);
      assert es == [es[0]] + es[1..];
    }
  }

  lemma EntryOneLine(e: ChapterEntry)
    requires '\n' !in e.title
    ensures NoLineBreaks(EntryLines(e))
  {
    IntToStringOneLine(e.start);
    if e.end.Some? {
      IntToStringOneLine(e.end.value);
    }
    assert '\n' !in "title=" + e.title;
    assert '\n' !in "START=" + IntToString(e.start);
  }

  lemma {:induction false} LinesFromOneLine(es: seq<ChapterEntry>)
    requires forall i | 0 <= i < |es| :: '\n' !in es[i].title
    ensures NoLineBreaks(LinesFrom(es))
  {
    if |es| > 0 {
      EntryOneLine(es[0]);
      LinesFromOneLine(es[1..]);
      NoLineBreaksAppend(EntryLines(es[0]), LinesFrom(es[1..]));
    }
  }

  lemma FileLines(body: seq<string>)
    requires NoLineBreaks(body)
    ensures Split(Marker + Unlines(body), '\n') == [";FFMETADATA1"] + body + [""]
  {
    UnlinesAppend([";FFMETADATA1"], body);
    Unlines1(";FFMETADATA1");
    assert ";FFMETADATA1" + "\n" == Marker;
    NoLineBreaksAppend([";FFMETADATA1"], body);
    SplitUnlines([";FFMETADATA1"] + body);
  }

  lemma ReadFileLines(content: string, body: seq<string>, es: seq<ChapterEntry>)
    requires Split(content, '\n') == [";FFMETADATA1"] + body + [""]
    requires ReadEntries(body) == Some(es)
    ensures ReadChapterFile(content) == Some(es)
  {
    var lines := [";FFMETADATA1"] + body + [""];
    assert lines[0] == ";FFMETADATA1" && lines[|lines| - 1] == "";
    assert lines[1..|lines| - 1] == body;
  }

  /** The chapter file gives back, for every chapter in order, its START and title, and as END
      the next chapter's START (none for the last). */
  lemma ChapterFileRoundTrip(chs: seq<Chapter>)
    requires OneLineTitles(chs)
    ensures ReadChapterFile(ChapterFileText(chs)) == Some(Entries(chs))
  {
    var es := Entries(chs);
    assert es[..|chs|] == es;
    BlocksAsLines(chs, |chs|);
    LinesFromOneLine(es);
    ReadLinesFrom(es);
    FileLines(LinesFrom(es));
    ReadFileLines(ChapterFileText(chs), LinesFrom(es), es);
  }
}
