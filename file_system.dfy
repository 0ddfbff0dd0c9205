/** The file-system manager: timestamped names and output paths, the entry filters of the
    directory listings, and how each file operation reports a failure. The clock arrives as the
    ISO-8601 text `new Date().toISOString()` would give (`iso`); directory listings and the
    outcome of each underlying file call are inputs. */
module FileSystem {
  import opened Wrappers
  import opened Text
  import opened Errors
  import Paths

  // Timestamps

  function DashChar(c: char): char
  {
    if c == ':' || c == '.' then '-' else c
  }

  /** `.replace(/[:.]/g, '-')`: every ':' and '.' becomes '-'. */
  function DashSeparators(s: string): string
  {
    seq(|s|, i requires 0 <= i < |s| => DashChar(s[i]))
  }

  /** `.replace('T', '_')`: only the first 'T' is replaced. */
  function ReplaceFirstT(s: string): (r: string)
    ensures |r| == |s|
    ensures 'T' !in s ==> r == s
  {
    if |s| == 0 then ""
    else if s[0] == 'T' then "_" + s[1..]
    else [s[0]] + ReplaceFirstT(s[1..])
  }

  /** `.slice(0, -5)`: all but the last five characters (nothing, for a shorter string). */
  function DropLastFive(s: string): (r: string)
  {
    if |s| <= 5 then "" else s[..|s| - 5]
  }

  /** `generateTimestamp()`, for the clock reading `iso`. */
  function GenerateTimestamp(iso: string): string
  {
    DropLastFive(ReplaceFirstT(DashSeparators(iso)))
  }

  lemma DashAppend(a: string, b: string)
    ensures DashSeparators(a + b) == DashSeparators(a) + DashSeparators(b)
  {
    assert forall i :: 0 <= i < |a| ==> (a + b)[i] == a[i];
    assert forall i :: |a| <= i < |a + b| ==> (a + b)[i] == b[i - |a|];
  }

  lemma DashSeparatorsFree(s: string)
    ensures ':' !in DashSeparators(s) && '.' !in DashSeparators(s)
  {
    var d := DashSeparators(s);
    assert forall i :: 0 <= i < |d| ==> d[i] == DashChar(s[i]);
  }

  lemma {:induction false} ReplaceFirstTAppend(a: string, b: string)
    requires 'T' !in a
    ensures ReplaceFirstT(a + "T" + b) == a + "_" + b
  {
    if |a| > 0 {
      assert (a + "T" + b)[1..] == a[1..] + "T" + b;
      ReplaceFirstTAppend(a[1..], b);
      assert [a[0]] + a[1..] == a;
    } else {
      assert (a + "T" + b)[1..] == b;
    }
  }

  lemma {:induction false} ReplaceFirstTKeeps(s: string, c: char)
    requires c != '_' && c !in s
    ensures c !in ReplaceFirstT(s)
  {
    if |s| > 0 && s[0] != 'T' {
      ReplaceFirstTKeeps(s[1..], c);
    }
  }

  /** A timestamp never holds ':' or '.', so it is safe inside a file name and never adds an
      extension of its own. */
  lemma TimestampHasNoSeparators(iso: string)
    ensures ':' !in GenerateTimestamp(iso) && '.' !in GenerateTimestamp(iso)
  {
    var d := DashSeparators(iso);
    DashSeparatorsFree(iso);
    ReplaceFirstTKeeps(d, ':');
    ReplaceFirstTKeeps(d, '.');
    var t := ReplaceFirstT(d);
    if |t| > 5 {
      assert forall c :: c in t[..|t| - 5] ==> c in t;
    }
  }

  /** An ISO reading `<date>T<clock>.<ms>Z` becomes `<date>_<clock>` with the clock's ':'
      turned into '-': the milliseconds and the zone letter are cut off. */
  lemma TimestampOfIso(date: string, clock: string, ms: string)
    requires |ms| == 3
    requires 'T' !in date && ':' !in date && '.' !in date
    ensures GenerateTimestamp(date + "T" + clock + "." + ms + "Z") == date + "_" + DashSeparators(clock)
  {
    var tail := DashSeparators("." + ms + "Z");
    var d := DashSeparators(clock);
    DashIso(date, clock, ms);
    ReplaceFirstTAppend(date, d + tail);
    DropTail(date, d, tail);
  }

  lemma DashIso(date: string, clock: string, ms: string)
    requires 'T' !in date && ':' !in date && '.' !in date
    ensures DashSeparators(date + "T" + clock + "." + ms + "Z")
         == date + "T" + (DashSeparators(clock) + DashSeparators("." + ms + "Z"))
  {
    var head := date + "T";
    assert forall c :: c in head ==> c in date || c == 'T';
    DashThree(head, clock, "." + ms + "Z");
    assert date + "T" + clock + "." + ms + "Z" == head + clock + ("." + ms + "Z");
  }

  lemma DashThree(head: string, mid: string, rest: string)
    requires ':' !in head && '.' !in head
    ensures DashSeparators(head + mid + rest) == head + (DashSeparators(mid) + DashSeparators(rest))
  {
    DashAppend(head + mid, rest);
    DashAppend(head, mid);
    DashUnchanged(head);
  }

  lemma DropTail(date: string, d: string, tail: string)
    requires |tail| == 5
    ensures DropLastFive(date + "_" + (d + tail)) == date + "_" + d
  {
    var t := date + "_" + (d + tail);
    assert t == (date + "_" + d) + tail;
    assert t[..|t| - 5] == date + "_" + d;
  }

  lemma DashUnchanged(s: string)
    requires ':' !in s && '.' !in s
    ensures DashSeparators(s) == s
  {
    assert forall i :: 0 <= i < |s| ==> s[i] in s;
  }

  /** The reading of the file-name test. */
  lemma TimestampExample()
    ensures GenerateTimestamp("2024-01-15" + "T" + "10:30:45" + "." + "123" + "Z") == "2024-01-15" + "_" + "10-30-45"
  {
    TimestampOfIso("2024-01-15", "10:30:45", "123");
    ClockDashed();
  }

  lemma ClockDashed()
    ensures DashSeparators("10:30:45") == "10-30-45"
  {
    var d := DashSeparators("10:30:45");
    assert |d| == 8;
    assert forall i :: 0 <= i < 8 ==> d[i] == "10-30-45"[i];
  }

  // Names and paths

  /** `generateTimestampedFilename(prefix, extension)`: `<prefix>_<timestamp>.<extension>`. */
  function GenerateTimestampedFilename(prefix: string, extension: string, iso: string): string
  {
    prefix + "_" + GenerateTimestamp(iso) + "." + extension
  }

  /** The text after the last '.' (all of `s` when it has none). */
  function AfterLastDot(s: string): (r: string)
    ensures '.' !in r
  {
    if |s| == 0 || s[|s| - 1] == '.' then "" else AfterLastDot(s[..|s| - 1]) + [s[|s| - 1]]
  }

  lemma {:induction false} AfterLastDotOfSuffix(a: string, ext: string)
    requires '.' !in ext
    ensures AfterLastDot(a + "." + ext) == ext
    decreases |ext|
  {
    var s := a + "." + ext;
    if |ext| == 0 {
      assert s[|s| - 1] == '.';
    } else {
      assert ext[|ext| - 1] in ext;
      assert s[..|s| - 1] == a + "." + ext[..|ext| - 1];
      assert forall c :: c in ext[..|ext| - 1] ==> c in ext;
      AfterLastDotOfSuffix(a, ext[..|ext| - 1]);
      assert ext[..|ext| - 1] + [ext[|ext| - 1]] == ext;
    }
  }

  /** The generated name starts with the prefix and an underscore, and its extension (the text
      after its last dot) is the requested one: the timestamp adds no dot. */
  lemma TimestampedFilenameParts(prefix: string, extension: string, iso: string)
    requires '.' !in extension
    ensures StartsWith(GenerateTimestampedFilename(prefix, extension, iso), prefix + "_")
    ensures AfterLastDot(GenerateTimestampedFilename(prefix, extension, iso)) == extension
  {
    var name := GenerateTimestampedFilename(prefix, extension, iso);
    assert name == (prefix + "_") + (GenerateTimestamp(iso) + "." + extension);
    assert name[..|prefix + "_"|] == prefix + "_";
    AfterLastDotOfSuffix(prefix + "_" + GenerateTimestamp(iso), extension);
  }

  lemma TimestampedFilenameExample()
    ensures GenerateTimestampedFilename("test", "mp4", "2024-01-15" + "T" + "10:30:45" + "." + "123" + "Z")
         == "test" + "_" + ("2024-01-15" + "_" + "10-30-45") + "." + "mp4"
  {
    TimestampExample();
    NameOf("test", "mp4", "2024-01-15" + "T" + "10:30:45" + "." + "123" + "Z", "2024-01-15" + "_" + "10-30-45");
  }

  lemma NameOf(prefix: string, extension: string, iso: string, ts: string)
    requires GenerateTimestamp(iso) == ts
    ensures GenerateTimestampedFilename(prefix, extension, iso) == prefix + "_" + ts + "." + extension
  {
  }

  /** The timestamp a run directory is named with: the given one unless it is absent or
      empty, else `stamp`, the value `generateTimestamp()` returns at the moment of the call. */
  function ChosenTimestamp(timestamp: Option<string>, stamp: string): string
  {
    if Truthy(timestamp) then timestamp.value else stamp
  }

  /** `getWorkflowOutputDirectory(name, timestamp)`: `output/<name>_<ts>`. */
  function GetWorkflowOutputDirectory(workflowName: string, timestamp: Option<string>, stamp: string): string
  {
    Paths.Join("output", workflowName + "_" + ChosenTimestamp(timestamp, stamp))
  }

  /** The run directory sits directly under `output`, named after the workflow and the
      timestamp; a given non-empty timestamp is used as it is. */
  lemma WorkflowOutputDirectoryShape(workflowName: string, timestamp: Option<string>, stamp: string)
    ensures GetWorkflowOutputDirectory(workflowName, timestamp, stamp) == "output/" + workflowName + "_" + ChosenTimestamp(timestamp, stamp)
    ensures Truthy(timestamp) ==> ChosenTimestamp(timestamp, stamp) == timestamp.value
    ensures !Paths.HasSeparator(workflowName + "_" + ChosenTimestamp(timestamp, stamp)) ==>
      Paths.LastSegment(GetWorkflowOutputDirectory(workflowName, timestamp, stamp)) == workflowName + "_" + ChosenTimestamp(timestamp, stamp)
  {
    var seg := workflowName + "_" + ChosenTimestamp(timestamp, stamp);
    assert !EndsWith("output", "/");
    assert "output" + "/" + seg == "output/" + workflowName + "_" + ChosenTimestamp(timestamp, stamp);
    if !Paths.HasSeparator(seg) {
      Paths.LastSegmentOfJoin("output", seg);
    }
  }

  /** Without a run directory, output goes to a new `output/<name>_<stamp>` directory. */
  lemma BaseDirectoryWithoutRun(workflowName: string, stamp: string)
    ensures BaseDirectory(workflowName, None, stamp) == "output/" + workflowName + "_" + stamp
  {
    WorkflowOutputDirectoryShape(workflowName, None, stamp);
  }

  /** The three kinds of output file `getOutputPath` names. */
  datatype OutputKind = Video | Screenshot | Timecode

  function Extension(kind: OutputKind): string
  {
    match kind
    case Video => "mp4"
    case Timecode => "txt"
    case Screenshot => "png"
  }

  /** The name used when no file name is given: the kind itself. */
  function DefaultName(kind: OutputKind): string
  {
    match kind
    case Video => "video"
    case Timecode => "timecode"
    case Screenshot => "screenshot"
  }

  /** `workflowDir`, unless it is absent or empty, else a fresh run directory. */
  function BaseDirectory(workflowName: string, workflowDir: Option<string>, stamp: string): string
  {
    if Truthy(workflowDir) then workflowDir.value else GetWorkflowOutputDirectory(workflowName, None, stamp)
  }

  /** `getOutputPath(name, type, filename, workflowDir)`: the output name inside the output
      directory. */
  function GetOutputPath(workflowName: string, kind: OutputKind, filename: Option<string>, workflowDir: Option<string>, stamp: string): string
  {
    Paths.Join(OutputDirectory(kind, filename, BaseDirectory(workflowName, workflowDir, stamp)), OutputName(kind, filename))
  }

  /** The directory an output file goes into: the base directory, or its `screenshots`
      sub-directory for a named screenshot. */
  function OutputDirectory(kind: OutputKind, filename: Option<string>, base: string): string
  {
    if kind == Screenshot && Truthy(filename) then Paths.Join(base, "screenshots") else base
  }

  /** The name part of an output path: the given file name, else the kind's name, and then the
      kind's extension, added even when the file name already has one. */
  function OutputName(kind: OutputKind, filename: Option<string>): string
  {
    (if Truthy(filename) then filename.value else DefaultName(kind)) + "." + Extension(kind)
  }

  /** Every output path ends in its kind's extension and starts with its base directory; when
      the name has no separator the file's own name is the output name. */
  lemma OutputPathShape(workflowName: string, kind: OutputKind, filename: Option<string>, workflowDir: Option<string>, stamp: string)
    ensures EndsWith(GetOutputPath(workflowName, kind, filename, workflowDir, stamp), "." + Extension(kind))
    ensures StartsWith(GetOutputPath(workflowName, kind, filename, workflowDir, stamp), BaseDirectory(workflowName, workflowDir, stamp))
    ensures BaseDirectory(workflowName, workflowDir, stamp) != "" && !Paths.HasSeparator(OutputName(kind, filename)) ==>
      Paths.LastSegment(GetOutputPath(workflowName, kind, filename, workflowDir, stamp)) == OutputName(kind, filename)
  {
    JoinedOutputShape(kind, filename, BaseDirectory(workflowName, workflowDir, stamp));
  }

  lemma JoinedOutputShape(kind: OutputKind, filename: Option<string>, base: string)
    ensures EndsWith(Paths.Join(OutputDirectory(kind, filename, base), OutputName(kind, filename)), "." + Extension(kind))
    ensures StartsWith(Paths.Join(OutputDirectory(kind, filename, base), OutputName(kind, filename)), base)
    ensures base != "" && !Paths.HasSeparator(OutputName(kind, filename)) ==>
      Paths.LastSegment(Paths.Join(OutputDirectory(kind, filename, base), OutputName(kind, filename))) == OutputName(kind, filename)
  {
    var dir := OutputDirectory(kind, filename, base);
    var name := OutputName(kind, filename);
    JoinedOutputEnds(kind, filename, dir);
    JoinedOutputStarts(kind, filename, base);
    if base != "" && !Paths.HasSeparator(name) {
      Paths.LastSegmentOfJoin(dir, name);
    }
  }

  lemma JoinedOutputEnds(kind: OutputKind, filename: Option<string>, dir: string)
    ensures EndsWith(Paths.Join(dir, OutputName(kind, filename)), "." + Extension(kind))
  {
    var name := OutputName(kind, filename);
    var stem := if Truthy(filename) then filename.value else DefaultName(kind);
    var ext := "." + Extension(kind);
    assert name == stem + ext;
    SuffixOf(stem, ext);
    EndsWithTrans(Paths.Join(dir, name), name, ext);
  }

  lemma JoinedOutputStarts(kind: OutputKind, filename: Option<string>, base: string)
    ensures StartsWith(Paths.Join(OutputDirectory(kind, filename, base), OutputName(kind, filename)), base)
  {
    var dir := OutputDirectory(kind, filename, base);
    var name := OutputName(kind, filename);
    Paths.JoinStartsWith(base, "screenshots");
    Paths.JoinStartsWith(dir, name);
    StartsWithTrans(Paths.Join(dir, name), dir, base);
  }

  lemma SuffixOf(a: string, b: string)
    ensures EndsWith(a + b, b)
  {
    assert (a + b)[|a + b| - |b|..] == b;
  }

  lemma StartsWithTrans(s: string, t: string, u: string)
    requires StartsWith(s, t) && StartsWith(t, u)
    ensures StartsWith(s, u)
  {
    assert s[..|u|] == s[..|t|][..|u|];
  }

  lemma EndsWithTrans(s: string, t: string, u: string)
    requires EndsWith(s, t) && EndsWith(t, u)
    ensures EndsWith(s, u)
  {
    assert s[|s| - |u|..] == s[|s| - |t|..][|t| - |u|..];
  }

  /** A file name that already has the extension gets it a second time. */
  lemma ExtensionAppendedAgain()
    ensures GetOutputPath("my-workflow", Video, Some("custom-name.mp4"), Some("out"), "2024-01-15_10-30-45") == "out/" + "custom-name.mp4" + ".mp4"
  {
    assert !EndsWith("out", "/");
  }

  // Directory listings

  datatype EntryKind = File | Directory | OtherEntry

  /** One entry of `readdir(directory, {withFileTypes: true})`. */
  datatype DirEntry = DirEntry(name: string, kind: EntryKind)

  /** The names of the entries of one kind, in listing order. */
  function NamesOfKind(entries: seq<DirEntry>, kind: EntryKind): seq<string>
  {
    if |entries| == 0 then []
    else NamesOfKind(entries[..|entries| - 1], kind)
         + (if entries[|entries| - 1].kind == kind then [entries[|entries| - 1].name] else [])
  }

  /** The names that pass a pattern, in order. */
  function Matching(names: seq<string>, pattern: string -> bool): seq<string>
  {
    if |names| == 0 then []
    else Matching(names[..|names| - 1], pattern) + (if pattern(names[|names| - 1]) then [names[|names| - 1]] else [])
  }

  /** `listFiles(directory, pattern)`, given what reading the directory gave. */
  function ListFiles(directory: string, listing: Result<seq<DirEntry>, string>, pattern: Option<string -> bool>)
    : Result<seq<string>, FileSystemError>
  {
    match listing
    case Err(reason) => Err(Wrap(ListFilesOperation, directory, reason))
    case Ok(entries) =>
      var files := NamesOfKind(entries, File);
      if pattern.Some? then Ok(Matching(files, pattern.value)) else Ok(files)
  }

  /** `listDirectories(directory)`. */
  function ListDirectories(directory: string, listing: Result<seq<DirEntry>, string>): Result<seq<string>, FileSystemError>
  {
    match listing
    case Err(reason) => Err(Wrap(ListDirectoriesOperation, directory, reason))
    case Ok(entries) => Ok(NamesOfKind(entries, Directory))
  }

  /** A name is listed exactly when some entry of that kind has it. */
  lemma {:induction false} NamesOfKindMembers(entries: seq<DirEntry>, kind: EntryKind, x: string)
    ensures x in NamesOfKind(entries, kind) <==> exists i :: 0 <= i < |entries| && entries[i].kind == kind && entries[i].name == x
  {
    if |entries| > 0 {
      var front := entries[..|entries| - 1];
      NamesOfKindMembers(front, kind, x);
      if x in NamesOfKind(front, kind) {
        var i :| 0 <= i < |front| && front[i].kind == kind && front[i].name == x;
        assert entries[i] == front[i];
      }
      if exists i :: 0 <= i < |entries| && entries[i].kind == kind && entries[i].name == x {
        var i :| 0 <= i < |entries| && entries[i].kind == kind && entries[i].name == x;
        if i < |front| {
          assert front[i] == entries[i];
        }
      }
    }
  }

  /** Listing a directory whose entries come in two parts lists the parts in order: the filter
      keeps the listing order. */
  lemma {:induction false} NamesOfKindAppend(a: seq<DirEntry>, b: seq<DirEntry>, kind: EntryKind)
    ensures NamesOfKind(a + b, kind) == NamesOfKind(a, kind) + NamesOfKind(b, kind)
    decreases |b|
  {
    if |b| == 0 {
      assert a + b == a;
    } else {
      assert (a + b)[..|a + b| - 1] == a + b[..|b| - 1];
      NamesOfKindAppend(a, b[..|b| - 1], kind);
    }
  }

  /** Files and directories are listed apart: together they are no more than the entries, and
      exactly the entries when there is nothing else in the directory. */
  lemma {:induction false} FilesAndDirectoriesCount(entries: seq<DirEntry>)
    ensures |NamesOfKind(entries, File)| + |NamesOfKind(entries, Directory)| <= |entries|
    ensures (forall i :: 0 <= i < |entries| ==> entries[i].kind != OtherEntry) ==>
      |NamesOfKind(entries, File)| + |NamesOfKind(entries, Directory)| == |entries|
  {
    if |entries| > 0 {
      FilesAndDirectoriesCount(entries[..|entries| - 1]);
    }
  }

  lemma {:induction false} MatchingMembers(names: seq<string>, pattern: string -> bool, x: string)
    ensures x in Matching(names, pattern) <==> x in names && pattern(x)
  {
    if |names| > 0 {
      MatchingMembers(names[..|names| - 1], pattern, x);
      assert names == names[..|names| - 1] + [names[|names| - 1]];
    }
  }

  /** `listFiles` with a pattern lists exactly the files whose names pass it; a failed read is
      wrapped with the directory. */
  lemma ListFilesMembers(directory: string, listing: Result<seq<DirEntry>, string>, pattern: string -> bool, x: string)
    ensures listing.Ok? ==>
      (x in ListFiles(directory, listing, Some(pattern)).value <==>
       pattern(x) && exists i :: 0 <= i < |listing.value| && listing.value[i].kind == File && listing.value[i].name == x)
    ensures listing.Err? ==> ListFiles(directory, listing, Some(pattern)).error.path == Some(directory)
  {
    if listing.Ok? {
      MatchingMembers(NamesOfKind(listing.value, File), pattern, x);
      NamesOfKindMembers(listing.value, File, x);
    }
  }

  /** The listings of the directory tests. */
  lemma ListingExamples()
    ensures ListFiles("/test", Ok([DirEntry("file1.txt", File), DirEntry("file2.js", File), DirEntry("dir", Directory)]), None)
         == Ok(["file1.txt", "file2.js"])
    ensures ListDirectories("/test", Ok([DirEntry("file.txt", File), DirEntry("dir1", Directory), DirEntry("dir2", Directory)]))
         == Ok(["dir1", "dir2"])
  {
    var e1 := [DirEntry("file1.txt", File), DirEntry("file2.js", File), DirEntry("dir", Directory)];
    assert e1[..2][..1][..0] == [];
    assert NamesOfKind(e1[..2][..1], File) == ["file1.txt"];
    assert NamesOfKind(e1[..2], File) == ["file1.txt", "file2.js"];
    assert NamesOfKind(e1, File) == ["file1.txt", "file2.js"];
    var e2 := [DirEntry("file.txt", File), DirEntry("dir1", Directory), DirEntry("dir2", Directory)];
    assert e2[..2][..1][..0] == [];
    assert NamesOfKind(e2[..2][..1], Directory) == [];
    assert NamesOfKind(e2[..2], Directory) == ["dir1"];
    assert NamesOfKind(e2, Directory) == ["dir1", "dir2"];
  }

  // Failures

  /** The operations that wrap a failure of the underlying call. */
  datatype Operation =
    | CreateDirectory | WriteFileOperation | ReadFileOperation | ListFilesOperation
    | ListDirectoriesOperation | CopyFileOperation(source: string, destination: string)
    | DeleteFileOperation | DeleteDirectoryOperation

  function FailurePrefix(op: Operation): string
  {
    match op
    case CreateDirectory => "Failed to create directory: "
    case WriteFileOperation => "Failed to write file: "
    case ReadFileOperation => "Failed to read file: "
    case ListFilesOperation => "Failed to list files: "
    case ListDirectoriesOperation => "Failed to list directories: "
    case CopyFileOperation(source, destination) => "Failed to copy file from " + source + " to " + destination + ": "
    case DeleteFileOperation => "Failed to delete file: "
    case DeleteDirectoryOperation => "Failed to delete directory: "
  }

  /** The `FileSystemError` an operation on `path` throws when its underlying call fails with
      `reason`; `copyFile` records no path. */
  function Wrap(op: Operation, path: string, reason: string): FileSystemError
  {
    FileSystemError(FailurePrefix(op) + reason, if op.CopyFileOperation? then None else Some(path))
  }

  /** `${error}` for a thrown `FileSystemError`: its name, then its message. */
  function ErrorText(e: FileSystemError): string
  {
    "FileSystemError: " + e.message
  }

  /** An operation with one underlying call (`mkdir`, `readFile`, `unlink`, `rmdir`). */
  function Single(op: Operation, path: string, call: Outcome<string>): Outcome<FileSystemError>
  {
    match call
    case Pass => Pass
    case Fail(reason) => Fail(Wrap(op, path, reason))
  }

  /** `writeFile(path, content)`: the parent directory `parent` is created first; a failure of
      either step is wrapped with the file's path, the first one inside its own wrapping. */
  function WriteFile(path: string, parent: string, mkdir: Outcome<string>, write: Outcome<string>): Outcome<FileSystemError>
  {
    match Single(CreateDirectory, parent, mkdir)
    case Fail(inner) => Fail(Wrap(WriteFileOperation, path, ErrorText(inner)))
    case Pass => Single(WriteFileOperation, path, write)
  }

  /** `copyFile(source, destination)`: the same, with no path recorded. */
  function CopyFile(source: string, destination: string, parent: string, mkdir: Outcome<string>, copy: Outcome<string>)
    : Outcome<FileSystemError>
  {
    var op := CopyFileOperation(source, destination);
    match Single(CreateDirectory, parent, mkdir)
    case Fail(inner) => Fail(Wrap(op, destination, ErrorText(inner)))
    case Pass => Single(op, destination, copy)
  }

  /** `exists(path)`: any failure of the access check means "does not exist"; it never throws. */
  function Exists(access: Outcome<string>): bool
  {
    access.Pass?
  }

  /** Every wrapped failure says which operation failed and ends with the cause; it carries the
      path, except for a copy. */
  lemma WrapReportsCause(op: Operation, path: string, reason: string)
    ensures StartsWith(Wrap(op, path, reason).message, "Failed to ")
    ensures EndsWith(Wrap(op, path, reason).message, reason)
    ensures Wrap(op, path, reason).path.Some? <==> !op.CopyFileOperation?
    ensures Wrap(op, path, reason).path.Some? ==> Wrap(op, path, reason).path.value == path
  {
    var p := FailurePrefix(op);
    assert StartsWith(p, "Failed to ");
    StartsWithTrans(p + reason, p, "Failed to ");
    SuffixOf(p, reason);
  }

  /** A write succeeds exactly when both steps do; its failure names the file, not the
      directory, even when the directory could not be created. */
  lemma WriteFileFailure(path: string, parent: string, mkdir: Outcome<string>, write: Outcome<string>)
    ensures WriteFile(path, parent, mkdir, write).Pass? <==> mkdir.Pass? && write.Pass?
    ensures WriteFile(path, parent, mkdir, write).Fail? ==>
      WriteFile(path, parent, mkdir, write).error.path == Some(path)
    ensures mkdir.Fail? ==>
      WriteFile(path, parent, mkdir, write).error.message
        == "Failed to write file: " + "FileSystemError: " + "Failed to create directory: " + mkdir.error
  {
    if mkdir.Fail? {
      assert "Failed to write file: " + ("FileSystemError: " + ("Failed to create directory: " + mkdir.error))
          == "Failed to write file: " + "FileSystemError: " + "Failed to create directory: " + mkdir.error;
    }
  }

  /** A failed copy carries no path. */
  lemma CopyFileFailure(source: string, destination: string, parent: string, mkdir: Outcome<string>, copy: Outcome<string>)
    ensures CopyFile(source, destination, parent, mkdir, copy).Pass? <==> mkdir.Pass? && copy.Pass?
    ensures CopyFile(source, destination, parent, mkdir, copy).Fail? ==>
      CopyFile(source, destination, parent, mkdir, copy).error.path.None?
  {
  }
}
