/**
 * The records exchanged between the Rust backend and the TypeScript front end
 * (src-tauri/src/types.rs, src/lib/types.ts), the persisted settings record
 * (src-tauri/src/config/app_config.rs) and the backend error type.
 */
module Types {
  import opened Base

  /** An installed plugin; `url` and `gitRef` appear only when listed with `--urls` / `--refs`. */
  datatype Plugin = Plugin(name: string, url: Option<string>, gitRef: Option<string>)

  /** An entry of the plugin registry: `asdf plugin list all`. */
  datatype PluginRegistry = PluginRegistry(name: string, url: string)

  /** One row of `asdf current`: the resolved version of a tool and where it was set. */
  datatype CurrentVersion = CurrentVersion(name: string, version: string, source: string, installed: bool)

  /** One row of `asdf latest --all`. */
  datatype LatestInfo = LatestInfo(name: string, latest: string, installedVersion: Option<string>, upToDate: bool)

  /** One row of `asdf shimversions`. */
  datatype ShimVersion = ShimVersion(plugin: string, version: string)

  /** One `KEY=value` line of `asdf env`. */
  datatype EnvVar = EnvVar(key: string, value: string)

  /** The parsed output of `asdf info`. */
  datatype AsdfInfo = AsdfInfo(version: string, os: string, shell: string, asdfDir: string,
                               asdfDataDir: string, plugins: seq<string>)

  /** One line of a `.tool-versions` file: a tool and its version constraints. */
  datatype ToolVersion = ToolVersion(tool: string, versions: seq<string>)

  /** Where a version selection is recorded. */
  datatype SetScope = Local | Home | Parent

  /** What the streaming install pushes to the front end. */
  datatype InstallEvent = Stdout(line: string) | Stderr(line: string) | Finished(success: bool)

  /** A project the user opened; `lastOpened` is seconds since the Unix epoch. */
  datatype RecentProject = RecentProject(path: string, name: string, lastOpened: nat)

  /** The application's persisted settings. */
  datatype AppConfig = AppConfig(
    language: string,
    theme: string,
    asdfBinaryPath: Option<string>,
    workingDirectory: Option<string>,
    keepDownloads: bool,
    notifications: bool,
    recentProjects: seq<RecentProject>)

  /** The backend's error type (src-tauri/src/error.rs); `Io` carries the OS message. */
  datatype AppError =
    | AsdfNotFound(detail: string)
    | AsdfError(exitCode: int, stderr: string)
    | ProcessError(detail: string)
    | ParseError(detail: string)
    | ConfigError(detail: string)
    | Io(detail: string)
}
