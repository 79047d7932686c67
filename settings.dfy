/**
 * `set_working_directory` (src-tauri/src/commands/settings.rs): records the new
 * working directory and moves it to the front of the recent-projects list,
 * which is kept free of duplicates and at most `MaxRecentProjects` long.
 * Reading and writing the configuration file and the clock are parameters.
 */
module Settings {
  import opened Base
  import opened Seqs
  import opened Types
  import opened Paths

  /** `MAX_RECENT_PROJECTS` (src-tauri/src/config/context.rs). */
  const MaxRecentProjects: nat := 10

  /** The projects whose path is not `path`, in their order: `retain(|p| p.path != path)`. */
  function WithoutPath(projects: seq<RecentProject>, path: string): (r: seq<RecentProject>)
    ensures forall k :: 0 <= k < |r| ==> r[k].path != path
    ensures IsSubsequence(r, projects)
    ensures forall p :: p in r <==> p in projects && p.path != path
  {
    var r := Filter(projects, (p: RecentProject) => p.path != path);
    FilterIsSubsequence(projects, (p: RecentProject) => p.path != path);
    forall p ensures p in r <==> p in projects && p.path != path {
      FilterMembers(projects, (p: RecentProject) => p.path != path, p);
    }
    r
  }

  /** The display name of a project: its last path component, or the whole path. */
  function ProjectName(path: string): (name: string)
    ensures FileName(FromString(path)).Some? ==> name == FileName(FromString(path)).value
    ensures FileName(FromString(path)).None? ==> name == path
  {
    FileName(FromString(path)).GetOr(path)
  }

  /**
   * A project directory written as a parent directory, however spelled, and an
   * entry `name` in it is named `name`; `..` is never a project name.
   */
  lemma ProjectNameOfJoin(parent: string, name: string)
    requires IsNormal(name) && '/' !in name && name != ".."
    ensures ProjectName(JoinText(parent, name)) == name
  {
    JoinTextPath(parent, name);
  }

  /** A path that ends in `..` has no file name, so the whole path is the name. */
  lemma ProjectNameOfParentRef(parent: string)
    ensures ProjectName(JoinText(parent, "..")) == JoinText(parent, "..")
  {
    JoinTextPath(parent, "..");
  }

  /**
   * `set_working_directory(path)`, with `read` the configuration as read from
   * disk, `now` the current time in seconds and `write` the outcome of writing
   * the updated configuration back. Either error is returned unchanged.
   */
  method SetWorkingDirectory(read: Result<AppConfig, AppError>, path: string, now: nat, write: Outcome<AppError>)
    returns (r: Result<AppConfig, AppError>)
    ensures read.Err? ==> r == Err(read.error)
    ensures read.Ok? && write.Fail? ==> r == Err(write.error)
    ensures read.Ok? && write.Pass? ==> r.Ok?
    ensures r.Ok? ==>
      var before := read.value;
      var recent := r.value.recentProjects;
      && r.value.workingDirectory == Some(path)
      && r.value.(workingDirectory := before.workingDirectory, recentProjects := before.recentProjects) == before
      && recent != [] && recent[0] == RecentProject(path, ProjectName(path), now)
      && (forall k :: 1 <= k < |recent| ==> recent[k].path != path)
      && |recent| <= MaxRecentProjects
      && |recent| == Min(MaxRecentProjects, 1 + |WithoutPath(before.recentProjects, path)|)
      && recent[1..] == WithoutPath(before.recentProjects, path)[..|recent| - 1]
      && IsSubsequence(recent[1..], before.recentProjects)
  {
    if read.Err? {
      return Err(read.error);
    }
    var config := read.value;
    var kept := WithoutPath(config.recentProjects, path);
    config := config.(workingDirectory := Some(path));
    config := config.(recentProjects := kept);
    var entry := RecentProject(path, ProjectName(path), now);
    config := config.(recentProjects := [entry] + config.recentProjects);
    if |config.recentProjects| > MaxRecentProjects {
      config := config.(recentProjects := config.recentProjects[..MaxRecentProjects]);
    }
    if write.Fail? {
      return Err(write.error);
    }
    FrontThenPrefix(entry, kept, |config.recentProjects|);
    SubsequencePrefix(kept, read.value.recentProjects, |config.recentProjects| - 1);
    return Ok(config);
  }

  function Min(a: nat, b: nat): nat {
    if a <= b then a else b
  }
}
