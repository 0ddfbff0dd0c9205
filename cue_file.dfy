/** The WebVTT marker file the timecode logger writes (`markers.vtt`): a header, then one
    numbered block per cue with its start and end timestamps and its text. A reader for the
    same layout is the partner that shows the file keeps every cue. */
module CueFile {
  import opened Wrappers
  import opened Text
  import opened TimeFormat

  /** One marker: milliseconds since the recording started, and the action's description. */
  datatype Cue = Cue(startTime: int, endTime: int, text: string)

  const Header: string := "WEBVTT\n\n"

  /** The timing line as the logger writes it: both times with `formatVTTTime`, whose hour
      field is the constant "00". */
  function TimingLineAsWritten(c: Cue): string
  {
    FormatVttTimeAsWritten(c.startTime) + " --> " + FormatVttTimeAsWritten(c.endTime)
  }

  /** The timing line with a real hour field, which WebVTT readers accept at any length of
      recording. */
  function TimingLine(c: Cue): string
  {
    FormatVttTime(c.startTime) + " --> " + FormatVttTime(c.endTime)
  }

  /** The block for the cue numbered `n` (numbering starts at 1), its timing line rendered by
      `timing`. The block functions and their lemmas take the rendering as a parameter so that
      the structure of the file is reasoned about apart from the timestamp arithmetic. */
  function CueBlock(timing: Cue -> string, n: nat, c: Cue): string
  {
    NatToString(n) + "\n" + timing(c) + "\n" + c.text + "\n\n"
  }

  /** The blocks of the first `k` cues, in order. */
  function CueBlocks(timing: Cue -> string, cues: seq<Cue>, k: nat): string
    requires k <= |cues|
  {
    if k == 0 then "" else CueBlocks(timing, cues, k - 1) + CueBlock(timing, k, cues[k - 1])
  }

  /** The marker file as the logger writes it. */
  function WebVttFileAsWritten(cues: seq<Cue>): string
  {
    Header + CueBlocks(TimingLineAsWritten, cues, |cues|)
  }

  /** The marker file with corrected timestamps. */
  function WebVttFile(cues: seq<Cue>): string
  {
    Header + CueBlocks(TimingLine, cues, |cues|)
  }

  /** Builds the file text cue by cue, as the logger's generator does. */
  method BuildWebVtt(cues: seq<Cue>) returns (content: string)
    ensures content == WebVttFileAsWritten(cues)
  {
    content := Header;
    var i := 0;
    while i < |cues|
      invariant 0 <= i <= |cues|
      invariant content == Header + CueBlocks(TimingLineAsWritten, cues, i)
    {
      ghost var before := content;
      var startTime := FormatVttTimeAsWritten(cues[i].startTime);
      var endTime := FormatVttTimeAsWritten(cues[i].endTime);
      content := content + NatToString(i + 1) + "\n";
      content := content + startTime + " --> " + endTime + "\n";
      content := content + cues[i].text + "\n\n";
      BlocksStep(cues, i, before, startTime, endTime);
      i := i + 1;
    }
  }

  lemma BlockAppend(p: string, n: string, s: string, e: string, x: string)
    ensures p + n + "\n" + s + " --> " + e + "\n" + x + "\n\n"
         == p + (n + "\n" + (s + " --> " + e) + "\n" + x + "\n\n")
  {
  }

  /** The loop's three appends add the next cue's block. */
  lemma BlocksStep(cues: seq<Cue>, i: nat, before: string, s: string, e: string)
    requires i < |cues| && before == Header + CueBlocks(TimingLineAsWritten, cues, i)
    requires s == FormatVttTimeAsWritten(cues[i].startTime) && e == FormatVttTimeAsWritten(cues[i].endTime)
    ensures before + NatToString(i + 1) + "\n" + s + " --> " + e + "\n" + cues[i].text + "\n\n"
         == Header + CueBlocks(TimingLineAsWritten, cues, i + 1)
  {
    BlockAppend(before, NatToString(i + 1), s, e, cues[i].text);
    Assoc(Header, CueBlocks(TimingLineAsWritten, cues, i), CueBlock(TimingLineAsWritten, i + 1, cues[i]));
  }

  lemma Assoc(a: string, b: string, c: string)
    ensures a + b + c == a + (b + c)
  {
  }

  // Reading the file back

  /** The four lines of the block for the cue numbered `n`: number, timing, text and a blank line. */
  function CueLines(timing: Cue -> string, n: nat, c: Cue): (lines: seq<string>)
    ensures |lines| == 4
  {
    [NatToString(n), timing(c), c.text, ""]
  }

  /** The lines of the blocks of the first `k` cues. */
  function BlockLines(timing: Cue -> string, cues: seq<Cue>, k: nat): (lines: seq<string>)
    requires k <= |cues|
    ensures |lines| == 4 * k
  {
    if k == 0 then [] else BlockLines(timing, cues, k - 1) + CueLines(timing, k, cues[k - 1])
  }

  /** `start --> end`, each a cue timestamp. */
  function ReadTiming(line: string): Option<(nat, nat)>
  {
    var words := Split(line, ' ');
    if |words| == 3 && words[1] == "-->" then
      match (ParseVttTimestamp(words[0]), ParseVttTimestamp(words[2]))
      case (Some(s), Some(e)) => Some((s, e))
      case _ => None
    else None
  }

  /** The cue numbered `n` from its four lines. */
  function ReadCue(block: seq<string>, n: nat): Option<Cue>
    requires |block| == 4
  {
    if block[0] == NatToString(n) && block[3] == "" then
      match ReadTiming(block[1])
      case Some(t) => Some(Cue(t.0, t.1, block[2]))
      case None => None
    else None
  }

  /** The cues of the block lines, four lines per cue, numbered on from `n`. */
  function ReadCues(lines: seq<string>, n: nat): Option<seq<Cue>>
    decreases |lines|
  {
    if |lines| == 0 then Some([])
    else if |lines| < 4 then None
    else
      match ReadCue(lines[..4], n)
      case None => None
      case Some(c) =>
        match ReadCues(lines[4..], n + 1)
        case None => None
        case Some(rest) => Some([c] + rest)
  }

  function ReadWebVtt(content: string): Option<seq<Cue>>
  {
    var lines := Split(content, '\n');
    if |lines| >= 3 && lines[0] == "WEBVTT" && lines[1] == "" && lines[|lines| - 1] == "" then
      ReadCues(lines[2..|lines| - 1], 1)
    else None
  }

  /** Cues the file can carry: times that are not negative and one-line texts. */
  predicate Writable(cues: seq<Cue>)
  {
    forall i :: 0 <= i < |cues| ==> cues[i].startTime >= 0 && cues[i].endTime >= 0 && '\n' !in cues[i].text
  }

  lemma TimingWords(a: string, b: string)
    requires ' ' !in a && ' ' !in b
    ensures Split(a + " --> " + b, ' ') == [a, "-->", b]
  {
    assert a + " --> " + b == a + [' '] + ("-->" + [' '] + b);
    SplitAppend(a, "-->" + [' '] + b, ' ');
    SplitAppend("-->", b, ' ');
    SplitNoSeparator(b, ' ');
  }

  lemma TimingRoundTrip(c: Cue)
    requires c.startTime >= 0 && c.endTime >= 0
    ensures ReadTiming(TimingLine(c)) == Some((c.startTime as nat, c.endTime as nat))
  {
    VttTimeIsOneWord(c.startTime);
    VttTimeIsOneWord(c.endTime);
    FormatVttTimeRoundTrip(c.startTime);
    FormatVttTimeRoundTrip(c.endTime);
    TimingRead(FormatVttTime(c.startTime), FormatVttTime(c.endTime), c.startTime, c.endTime);
  }

  lemma TimingRead(a: string, b: string, s: nat, e: nat)
    requires ' ' !in a && ' ' !in b
    requires ParseVttTimestamp(a) == Some(s) && ParseVttTimestamp(b) == Some(e)
    ensures ReadTiming(a + " --> " + b) == Some((s, e))
  {
    TimingWords(a, b);
  }

  lemma TimingOneLine(c: Cue)
    requires c.startTime >= 0 && c.endTime >= 0
    ensures '\n' !in TimingLine(c)
  {
    VttTimeIsOneWord(c.startTime);
    VttTimeIsOneWord(c.endTime);
  }

  lemma CueRoundTrip(n: nat, c: Cue)
    requires c.startTime >= 0 && c.endTime >= 0
    ensures ReadCue(CueLines(TimingLine, n, c), n) == Some(c)
  {
    TimingRoundTrip(c);
  }

  /** A readable first block, then readable blocks, read as one more cue in front. */
  lemma ReadCuesCons(lines: seq<string>, n: nat, c: Cue, rest: seq<Cue>)
    requires |lines| >= 4
    requires ReadCue(lines[..4], n) == Some(c) && ReadCues(lines[4..], n + 1) == Some(rest)
    ensures ReadCues(lines, n) == Some([c] + rest)
  {
  }

  /** The four lines of the `j`-th block (counting from 0). */
  function BlockAt(lines: seq<string>, j: nat): seq<string>
    requires 4 * j + 4 <= |lines|
  {
    lines[4 * j..4 * j + 4]
  }

  /** Every block of `lines` reads as the matching cue of `cs`, numbered on from `n`. */
  predicate BlocksRead(lines: seq<string>, cs: seq<Cue>, n: nat)
  {
    |lines| == 4 * |cs| && forall j {:trigger BlockAt(lines, j)} | 0 <= j < |cs| :: ReadCue(BlockAt(lines, j), n + j) == Some(cs[j])
  }

  lemma {:induction false} ReadCuesBlocks(lines: seq<string>, cs: seq<Cue>, n: nat)
    requires BlocksRead(lines, cs, n)
    ensures ReadCues(lines, n) == Some(cs)
    decreases |cs|
  {
    if |cs| > 0 {
      BlocksReadRest(lines, cs, n);
      ReadCuesBlocks(lines[4..], cs[1..], n + 1);
      FirstBlockReads(lines, cs, n);
      ReadCuesCons(lines, n, cs[0], cs[1..]);
      assert cs == [cs[0]] + cs[1..];
    }
  }

  lemma BlocksReadRest(lines: seq<string>, cs: seq<Cue>, n: nat)
    requires BlocksRead(lines, cs, n) && |cs| > 0
    ensures BlocksRead(lines[4..], cs[1..], n + 1)
  {
    var rest := lines[4..];
    forall j | 0 <= j < |cs| - 1
      ensures ReadCue(BlockAt(rest, j), n + 1 + j) == Some(cs[1..][j])
    {
      assert BlockAt(rest, j) == BlockAt(lines, j + 1);
    }
  }

  lemma FirstBlockReads(lines: seq<string>, cs: seq<Cue>, n: nat)
    requires BlocksRead(lines, cs, n) && |cs| > 0
    ensures ReadCue(lines[..4], n) == Some(cs[0])
  {
    assert BlockAt(lines, 0) == lines[..4];
  }

  lemma {:induction false} BlockAtLines(timing: Cue -> string, cues: seq<Cue>, k: nat, j: nat)
    requires j < k <= |cues|
    ensures BlockAt(BlockLines(timing, cues, k), j) == CueLines(timing, j + 1, cues[j])
  {
    BlockAtSnoc(BlockLines(timing, cues, k - 1), CueLines(timing, k, cues[k - 1]), k - 1, j);
    if j < k - 1 {
      BlockAtLines(timing, cues, k - 1, j);
    } else {
      assert j == k - 1 && j + 1 == k;
      assert cues[j] == cues[k - 1];
    }
  }

  lemma BlockAtSnoc(front: seq<string>, block: seq<string>, n: nat, j: nat)
    requires |block| == 4 && |front| == 4 * n && j <= n
    ensures j < n ==> BlockAt(front + block, j) == BlockAt(front, j)
    ensures j == n ==> BlockAt(front + block, j) == block
  {
    var lines := front + block;
    if j < n {
      assert lines[4 * j..4 * j + 4] == front[4 * j..4 * j + 4];
    } else {
      assert lines[4 * j..4 * j + 4] == block;
    }
  }

  lemma BlockLinesRead(cues: seq<Cue>)
    requires Writable(cues)
    ensures BlocksRead(BlockLines(TimingLine, cues, |cues|), cues, 1)
  {
    forall j | 0 <= j < |cues|
      ensures ReadCue(BlockAt(BlockLines(TimingLine, cues, |cues|), j), 1 + j) == Some(cues[j])
    {
      BlockReads(cues, j);
    }
  }

  lemma BlockReads(cues: seq<Cue>, j: nat)
    requires Writable(cues) && j < |cues|
    ensures ReadCue(BlockAt(BlockLines(TimingLine, cues, |cues|), j), j + 1) == Some(cues[j])
  {
    BlockAtLines(TimingLine, cues, |cues|, j);
    CueRoundTrip(j + 1, cues[j]);
  }

  lemma Unlines4(a: string, b: string, c: string)
    ensures Unlines([a, b, c, ""]) == a + "\n" + b + "\n" + c + "\n\n"
  {
    var l := [a, b, c, ""];
    assert l[1..] == [b, c, ""];
    assert l[1..][1..] == [c, ""];
    assert l[1..][1..][1..] == [""];
    assert Unlines([""]) == "\n";
    assert Unlines([c, ""]) == c + "\n\n";
    assert Unlines([b, c, ""]) == b + "\n" + c + "\n\n";
  }

  /** Written as lines, the blocks are the block lines each followed by a line break. */
  lemma {:induction false} BlocksAsLines(timing: Cue -> string, cues: seq<Cue>, k: nat)
    requires k <= |cues|
    ensures CueBlocks(timing, cues, k) == Unlines(BlockLines(timing, cues, k))
  {
    if k > 0 {
      BlocksAsLines(timing, cues, k - 1);
      CueLinesText(timing, k, cues[k - 1]);
      UnlinesStep(CueBlocks(timing, cues, k - 1), CueBlock(timing, k, cues[k - 1]),
        BlockLines(timing, cues, k - 1), CueLines(timing, k, cues[k - 1]),
        CueBlocks(timing, cues, k), BlockLines(timing, cues, k));
    }
  }

  lemma CueLinesText(timing: Cue -> string, n: nat, c: Cue)
    ensures Unlines(CueLines(timing, n, c)) == CueBlock(timing, n, c)
  {
    Unlines4(NatToString(n), timing(c), c.text);
  }

  /** Every cue's timing line and text are one line each. */
  predicate OneLineCues(timing: Cue -> string, cues: seq<Cue>)
  {
    forall i | 0 <= i < |cues| :: '\n' !in timing(cues[i]) && '\n' !in cues[i].text
  }

  lemma {:induction false} BlockLinesOneLine(timing: Cue -> string, cues: seq<Cue>, k: nat)
    requires k <= |cues| && OneLineCues(timing, cues)
    ensures NoLineBreaks(BlockLines(timing, cues, k))
  {
    if k > 0 {
      var c := cues[k - 1];
      BlockLinesOneLine(timing, cues, k - 1);
      NoSeparatorInDigits(NatToString(k), '\n');
      OneLine4(NatToString(k), timing(c), c.text);
      NoLineBreaksAppend(BlockLines(timing, cues, k - 1), CueLines(timing, k, c));
    }
  }

  lemma OneLine4(a: string, b: string, c: string)
    requires '\n' !in a && '\n' !in b && '\n' !in c
    ensures NoLineBreaks([a, b, c, ""])
  {
  }

  lemma WritableOneLine(cues: seq<Cue>)
    requires Writable(cues)
    ensures OneLineCues(TimingLine, cues)
  {
    forall i | 0 <= i < |cues|
      ensures '\n' !in TimingLine(cues[i])
    {
      TimingOneLine(cues[i]);
    }
  }

  /** The header, then the block lines, then the empty text after the last line break. */
  lemma FileLines(body: seq<string>)
    requires NoLineBreaks(body)
    ensures Split(Header + Unlines(body), '\n') == ["WEBVTT", ""] + body + [""]
  {
    UnlinesAppend(["WEBVTT", ""], body);
    Unlines2("WEBVTT", "");
    assert "WEBVTT" + "\n" + "" + "\n" == Header;
    NoLineBreaksAppend(["WEBVTT", ""], body);
    SplitUnlines(["WEBVTT", ""] + body);
  }

  lemma Unlines2(a: string, b: string)
    ensures Unlines([a, b]) == a + "\n" + b + "\n"
  {
    assert [a, b][1..] == [b];
    assert [b][1..] == [];
    assert Unlines([b]) == b + "\n";
  }

  lemma ReadFileLines(content: string, body: seq<string>, cs: seq<Cue>)
    requires Split(content, '\n') == ["WEBVTT", ""] + body + [""]
    requires ReadCues(body, 1) == Some(cs)
    ensures ReadWebVtt(content) == Some(cs)
  {
    var lines := ["WEBVTT", ""] + body + [""];
    assert lines[0] == "WEBVTT" && lines[1] == "" && lines[|lines| - 1] == "";
    assert lines[2..|lines| - 1] == body;
  }

  /** The marker file gives back exactly the cues it was written from. */
  lemma WebVttRoundTrip(cues: seq<Cue>)
    requires Writable(cues)
    ensures ReadWebVtt(WebVttFile(cues)) == Some(cues)
  {
    var body := BlockLines(TimingLine, cues, |cues|);
    BlocksAsLines(TimingLine, cues, |cues|);
    WritableOneLine(cues);
    BlockLinesOneLine(TimingLine, cues, |cues|);
    BlockLinesRead(cues);
    ReadCuesBlocks(body, cues, 1);
    FileLines(body);
    ReadFileLines(WebVttFile(cues), body, cues);
  }

  // The file as written against the corrected file

  /** Cues that start and end within the first hour of the recording. */
  predicate WithinOneHour(cues: seq<Cue>)
  {
    forall i :: 0 <= i < |cues| ==> 0 <= cues[i].startTime < 3600000 && 0 <= cues[i].endTime < 3600000
  }

  /** Two renderings that agree on every cue give the same blocks. */
  lemma {:induction false} CueBlocksAgree(t: Cue -> string, u: Cue -> string, cues: seq<Cue>, k: nat)
    requires k <= |cues|
    requires forall i :: 0 <= i < k ==> t(cues[i]) == u(cues[i])
    ensures CueBlocks(t, cues, k) == CueBlocks(u, cues, k)
  {
    if k > 0 {
      CueBlocksAgree(t, u, cues, k - 1);
    }
  }

  /** Within the first hour the file the logger writes is the corrected file. */
  lemma WebVttAgreesWithinOneHour(cues: seq<Cue>)
    requires WithinOneHour(cues)
    ensures WebVttFileAsWritten(cues) == WebVttFile(cues)
  {
    forall i | 0 <= i < |cues|
      ensures TimingLineAsWritten(cues[i]) == TimingLine(cues[i])
    {
      VttTimeAgreesBelowOneHour(cues[i].startTime);
      VttTimeAgreesBelowOneHour(cues[i].endTime);
    }
    CueBlocksAgree(TimingLineAsWritten, TimingLine, cues, |cues|);
  }

  /** The file the logger writes reads back as its cues when none reaches one hour. */
  lemma WebVttAsWrittenRoundTrip(cues: seq<Cue>)
    requires Writable(cues) && WithinOneHour(cues)
    ensures ReadWebVtt(WebVttFileAsWritten(cues)) == Some(cues)
  {
    WebVttAgreesWithinOneHour(cues);
    WebVttRoundTrip(cues);
  }

  /** A marker at one hour: the logger writes "00:60:00.000" where the corrected file has
      "01:00:00.000", so the two files differ. */
  lemma WebVttDiffersAtOneHour(c: Cue)
    requires c.startTime == 3600000 && c.endTime == 3600000
    ensures WebVttFileAsWritten([c]) != WebVttFile([c])
  {
    FormatVttTimeAsWrittenExample(c.startTime);
    FormatVttTimeHourExample(c.startTime);
    assert TimingLineAsWritten(c) == "00:60:00.000" + " --> " + "00:60:00.000";
    assert TimingLine(c) == "01:00:00.000" + " --> " + "01:00:00.000";
    SecondTimingChar(TimingLineAsWritten, c);
    SecondTimingChar(TimingLine, c);
  }

  /** In a file of one cue, character 11 is the second character of its timing line. */
  lemma SecondTimingChar(timing: Cue -> string, c: Cue)
    requires |timing(c)| >= 2
    ensures (Header + CueBlocks(timing, [c], 1))[11] == timing(c)[1]
  {
    assert NatToString(1) == "1";
    assert CueBlocks(timing, [c], 1) == "1" + "\n" + timing(c) + "\n" + c.text + "\n\n";
    assert (Header + CueBlocks(timing, [c], 1))[10..] == timing(c) + "\n" + c.text + "\n\n";
  }
}
