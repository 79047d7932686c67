/**
 * What a backend command hands to the `asdf` executor: the argument vector,
 * the working directory and the configured binary. Running the process is not
 * modelled; each command receives the run's outcome as a parameter.
 */
module Commands {
  import opened Base
  import opened Text
  import opened Types

  /** One call of `run_asdf` / `run_asdf_streaming`. */
  datatype Invocation = Invocation(args: seq<string>, cwd: Option<string>, binary: Option<string>)

  /**
   * `get_config` (src-tauri/src/commands/version.rs): the configured binary path
   * and working directory, both absent when the configuration could not be read
   * (`config` is `None`).
   */
  function GetConfig(config: Option<AppConfig>): (Option<string>, Option<string>) {
    match config
    case None => (None, None)
    case Some(c) => (c.asdfBinaryPath, c.workingDirectory)
  }

  /** `get_asdf_path` (src-tauri/src/commands/plugin.rs): the binary half of `GetConfig`. */
  function GetAsdfPath(config: Option<AppConfig>): (r: Option<string>)
    ensures r == GetConfig(config).0
  {
    if config.Some? then config.value.asdfBinaryPath else None
  }

  /** Rust `Option::or`: `a` when present, otherwise `b`. */
  function Or<T>(a: Option<T>, b: Option<T>): Option<T> {
    if a.Some? then a else b
  }

  /** `Ok(output.stdout.trim().to_string())`, or the executor's error unchanged. */
  function TrimmedOutput(run: Result<string, AppError>): Result<string, AppError> {
    match run
    case Err(e) => Err(e)
    case Ok(out) => Ok(Trim(out))
  }
}
