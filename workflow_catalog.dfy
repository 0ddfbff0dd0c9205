/** The workflow catalogue of the workflow manager: `loadWorkflow`, which reads one workflow
    from `workflows/<name>/actions.json`, and `listWorkflows`, which names, in sorted order,
    the sub-directories of `workflows` that hold such a file. The disk is outside the model:
    it is given as the answers to the calls the two make. */
module WorkflowCatalog {
  import opened Wrappers
  import opened Actions
  import opened Errors
  import opened WorkflowTypes
  import ConfigManager
  import FS = FileSystem
  import Paths

  /** What the catalogue sees of the disk: whether `fs.access` succeeds on a path, what
      reading a file gives, what listing a directory gives, and each workflow's
      configuration file. */
  datatype Disk = Disk(
    access: string -> Outcome<string>,
    read: string -> Result<string, string>,
    listing: string -> Result<seq<FS.DirEntry>, string>,
    workflowConfig: string -> ConfigManager.ConfigFile)

  /** The directory of the workflows. */
  const WorkflowsDir: string := "workflows"

  /** `join('workflows', name, 'actions.json')`. */
  function ActionsPath(name: string): string
  {
    Paths.Join(Paths.Join(WorkflowsDir, name), "actions.json")
  }

  /** The workflow `name` has an actions file. */
  predicate HasActions(disk: Disk, name: string)
  {
    FS.Exists(disk.access(ActionsPath(name)))
  }

  /** The error `loadWorkflow` throws for a workflow without an actions file. */
  function NotFound(name: string): Failure
  {
    Other("Workflow '" + name + "' not found at " + ActionsPath(name))
  }

  // loadWorkflow

  /** `loadWorkflow(name)`: the actions file must exist; it is read (a failure is the file
      system's error) and parsed by `parse`, the model of `JSON.parse` (a syntax error is
      thrown as it is); the parsed actions are taken as they are, and the workflow's own
      configuration, if it has one, is attached. */
  function LoadWorkflow(name: string, disk: Disk, parse: string -> Result<seq<Action>, string>): Result<Workflow, Failure>
  {
    var path := ActionsPath(name);
    if !HasActions(disk, name) then Err(NotFound(name))
    else
      match disk.read(path)
      case Err(reason) => Err(Failure.FileSystem(FS.Wrap(FS.ReadFileOperation, path, reason)))
      case Ok(content) =>
        match parse(content)
        case Err(reason) => Err(Other(reason))
        case Ok(actions) =>
          match ConfigManager.LoadWorkflowConfig(name, disk.workflowConfig(name))
          case Err(e) => Err(Config(e))
          case Ok(config) => Ok(Workflow(name, actions, config))
  }

  /** A workflow loads exactly when its actions file exists, reads and parses, and its
      configuration loads; it is then named `name`, holds the parsed actions unchecked, and
      carries its configuration when there is one. A missing actions file is reported with
      its path; a failed read names the file. */
  lemma LoadWorkflowOutcome(name: string, disk: Disk, parse: string -> Result<seq<Action>, string>)
    ensures var r := LoadWorkflow(name, disk, parse);
      r.Ok? <==>
        HasActions(disk, name) && disk.read(ActionsPath(name)).Ok? && parse(disk.read(ActionsPath(name)).value).Ok?
        && ConfigManager.LoadWorkflowConfig(name, disk.workflowConfig(name)).Ok?
    ensures var r := LoadWorkflow(name, disk, parse);
      r.Ok? ==> r.value.name == name && r.value.actions == parse(disk.read(ActionsPath(name)).value).value
                && r.value.config == ConfigManager.LoadWorkflowConfig(name, disk.workflowConfig(name)).value
    ensures !HasActions(disk, name) ==> LoadWorkflow(name, disk, parse) == Err(NotFound(name))
    ensures var r := LoadWorkflow(name, disk, parse);
      r.Err? && r.error.FileSystem? ==> HasActions(disk, name) && r.error.fileSystem.path == Some(ActionsPath(name))
  {
  }

  // The order of `Array.prototype.sort`

  /** `a` sorts no later than `b`: the default order of `sort`, comparing character by
      character, a proper prefix first. */
  predicate NotAfter(a: string, b: string)
    decreases |a|
  {
    |a| == 0 || (|b| > 0 && (a[0] < b[0] || (a[0] == b[0] && NotAfter(a[1..], b[1..]))))
  }

  /** Any two names are ordered one way or the other. */
  lemma {:induction false} NotAfterTotal(a: string, b: string)
    ensures NotAfter(a, b) || NotAfter(b, a)
    decreases |a|
  {
    if |a| > 0 && |b| > 0 && a[0] == b[0] {
      NotAfterTotal(a[1..], b[1..]);
    }
  }

  /** The order is transitive. */
  lemma {:induction false} NotAfterTransitive(a: string, b: string, c: string)
    requires NotAfter(a, b) && NotAfter(b, c)
    ensures NotAfter(a, c)
    decreases |a|
  {
    if |a| > 0 && a[0] == b[0] && b[0] == c[0] {
      NotAfterTransitive(a[1..], b[1..], c[1..]);
    }
  }

  /** Names in sorted order. */
  predicate Sorted(names: seq<string>)
  {
    forall i, j :: 0 <= i < j < |names| ==> NotAfter(names[i], names[j])
  }

  /** `name` put into the sorted `names` before the first name it does not come after. */
  function Insert(name: string, names: seq<string>): (r: seq<string>)
    ensures multiset(r) == multiset(names) + multiset{name}
  {
    if |names| == 0 then [name]
    else if NotAfter(name, names[0]) then [name] + names
    else
      assert names == [names[0]] + names[1..];
      [names[0]] + Insert(name, names[1..])
  }

  lemma {:induction false} InsertSorted(name: string, names: seq<string>)
    requires Sorted(names)
    ensures Sorted(Insert(name, names))
    decreases |names|
  {
    var r := Insert(name, names);
    if |names| > 0 {
      if NotAfter(name, names[0]) {
        forall j | 1 <= j < |r|
          ensures NotAfter(name, r[j])
        {
          if j > 1 {
            NotAfterTransitive(name, names[0], names[j - 1]);
          }
        }
      } else {
        NotAfterTotal(name, names[0]);
        var rest := names[1..];
        InsertSorted(name, rest);
        forall j | 1 <= j < |r|
          ensures NotAfter(names[0], r[j])
        {
          assert r[j] in multiset(Insert(name, rest));
          assert r[j] in multiset(rest) + multiset{name};
          if r[j] != name {
            var k :| 0 <= k < |rest| && rest[k] == r[j];
            assert names[k + 1] == r[j];
          }
        }
      }
    }
  }

  /** `workflows.sort()`: insertion of each name in turn. */
  function SortNames(names: seq<string>): (r: seq<string>)
    ensures multiset(r) == multiset(names)
  {
    if |names| == 0 then []
    else
      assert names == names[..|names| - 1] + [names[|names| - 1]];
      Insert(names[|names| - 1], SortNames(names[..|names| - 1]))
  }

  /** Sorting gives the same names, in sorted order. */
  lemma {:induction false} SortNamesSorted(names: seq<string>)
    ensures Sorted(SortNames(names))
    ensures multiset(SortNames(names)) == multiset(names)
    decreases |names|
  {
    if |names| > 0 {
      SortNamesSorted(names[..|names| - 1]);
      InsertSorted(names[|names| - 1], SortNames(names[..|names| - 1]));
    }
  }

  // listWorkflows

  /** The directories among `dirs` that hold an actions file, in listing order. */
  function WithActions(disk: Disk, dirs: seq<string>): seq<string>
  {
    if |dirs| == 0 then []
    else WithActions(disk, dirs[..|dirs| - 1]) + (if HasActions(disk, dirs[|dirs| - 1]) then [dirs[|dirs| - 1]] else [])
  }

  /** A directory is kept exactly when it is listed and holds an actions file. */
  lemma {:induction false} WithActionsMembers(disk: Disk, dirs: seq<string>)
    ensures forall n :: n in WithActions(disk, dirs) <==> n in dirs && HasActions(disk, n)
    decreases |dirs|
  {
    if |dirs| > 0 {
      var front := dirs[..|dirs| - 1];
      WithActionsMembers(disk, front);
      assert dirs == front + [dirs[|dirs| - 1]];
    }
  }

  /** What `listWorkflows()` returns: no names when there is no `workflows` directory;
      otherwise the directories in it that hold an actions file, sorted; a failure to list the
      directory is thrown. */
  function WorkflowNames(disk: Disk): Result<seq<string>, Failure>
  {
    if !FS.Exists(disk.access(WorkflowsDir)) then Ok([])
    else
      match FS.ListDirectories(WorkflowsDir, disk.listing(WorkflowsDir))
      case Err(e) => Err(Failure.FileSystem(e))
      case Ok(dirs) => Ok(SortNames(WithActions(disk, dirs)))
  }

  /** The names listed are sorted and are exactly the sub-directories of `workflows` holding an
      actions file, each once per listing entry; there are none without a `workflows`
      directory; and the listing fails only when the directory exists and cannot be read. */
  lemma WorkflowNamesSpec(disk: Disk)
    ensures var r := WorkflowNames(disk); r.Ok? ==> Sorted(r.value)
    ensures !FS.Exists(disk.access(WorkflowsDir)) ==> WorkflowNames(disk) == Ok([])
    ensures var r := WorkflowNames(disk);
      r.Err? <==> FS.Exists(disk.access(WorkflowsDir)) && disk.listing(WorkflowsDir).Err?
    ensures var r := WorkflowNames(disk);
      r.Ok? && FS.Exists(disk.access(WorkflowsDir)) ==>
        var dirs := FS.ListDirectories(WorkflowsDir, disk.listing(WorkflowsDir)).value;
        multiset(r.value) == multiset(WithActions(disk, dirs))
        && forall n :: n in r.value <==> n in dirs && HasActions(disk, n)
  {
    if FS.Exists(disk.access(WorkflowsDir)) && disk.listing(WorkflowsDir).Ok? {
      var dirs := FS.ListDirectories(WorkflowsDir, disk.listing(WorkflowsDir)).value;
      var kept := WithActions(disk, dirs);
      SortNamesSorted(kept);
      WithActionsMembers(disk, dirs);
      forall n
        ensures n in SortNames(kept) <==> n in kept
      {
        assert n in multiset(SortNames(kept)) <==> n in multiset(kept);
      }
    }
  }

  /** Every workflow listed gets past `loadWorkflow`'s existence check: it loads exactly when
      its actions file reads and parses and its configuration loads. */
  lemma ListedWorkflowsLoad(disk: Disk, parse: string -> Result<seq<Action>, string>)
    ensures var r := WorkflowNames(disk);
      r.Ok? ==> forall n :: n in r.value ==>
        HasActions(disk, n) &&
        (LoadWorkflow(n, disk, parse).Ok? <==>
          disk.read(ActionsPath(n)).Ok? && parse(disk.read(ActionsPath(n)).value).Ok?
          && ConfigManager.LoadWorkflowConfig(n, disk.workflowConfig(n)).Ok?)
  {
    WorkflowNamesSpec(disk);
  }

  /** `listWorkflows()`. */
  method ListWorkflows(disk: Disk) returns (r: Result<seq<string>, Failure>)
    ensures r == WorkflowNames(disk)
  {
    if !FS.Exists(disk.access(WorkflowsDir)) {
      return Ok([]);
    }
    var listed := FS.ListDirectories(WorkflowsDir, disk.listing(WorkflowsDir));
    if listed.Err? {
      return Err(Failure.FileSystem(listed.error));
    }
    var dirs := listed.value;
    var workflows: seq<string> := [];
    var i := 0;
    while i < |dirs|
      invariant 0 <= i <= |dirs|
      invariant workflows == WithActions(disk, dirs[..i])
    {
      assert dirs[..i + 1][..i] == dirs[..i];
      if FS.Exists(disk.access(ActionsPath(dirs[i]))) {
        workflows := workflows + [dirs[i]];
      }
      i := i + 1;
    }
    assert dirs[..|dirs|] == dirs;
    return Ok(SortNames(workflows));
  }
}
