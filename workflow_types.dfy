/** A workflow file's content and the records a run takes and returns. */
module WorkflowTypes {
  import opened Wrappers
  import opened Actions
  import opened ConfigTypes
  import opened Errors

  datatype Workflow = Workflow(name: string, actions: seq<Action>, config: Option<WorkflowConfig>)

  datatype ExecutionResult = ExecutionResult(
    success: bool,
    videoPath: Option<string>,
    outputDirectory: Option<string>,
    error: Option<Failure>,
    duration: Option<int>)

  datatype ExecuteOptions = ExecuteOptions(
    saveSession: Option<string>,
    loadSession: Option<string>,
    record: Option<bool>)
}
