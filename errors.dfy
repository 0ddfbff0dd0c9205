/** The program's error classes, as values. */
module Errors {
  import opened Wrappers
  import opened Actions

  /** An action that could not be dispatched or whose handler failed. */
  datatype ExecutionError = ExecutionError(message: string, actionIndex: int, action: Action)

  /** A configuration file that could not be read, parsed or validated. */
  datatype ConfigError = ConfigError(message: string, configPath: Option<string>)

  /** A wrapped file-system failure; `path` is absent where the operation does not record one. */
  datatype FileSystemError = FileSystemError(message: string, path: Option<string>)

  /** Anything thrown inside the workflow run, as the failure result carries it. */
  datatype Failure =
    | Execution(execution: ExecutionError)
    | Config(config: ConfigError)
    | FileSystem(fileSystem: FileSystemError)
    | Other(description: string)
}
