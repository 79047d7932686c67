# asdf-gui, modelled in Dafny

asdf-gui is a Tauri desktop front end for the `asdf` version manager. This project models its logic in two layers and proves properties of the model.

The Rust backend:
- the line parsers for `asdf` command output (`current`, `plugin list`, `plugin list all`, `list`, `list all`, `latest --all`, `shimversions`, `env`, `info`);
- the `.tool-versions` reader and writer, and the resolution of the `.tool-versions` path for the Local, Home and Parent scopes;
- the argument vectors built for every `asdf` command, including the one error case of `plugin update`;
- the recent-projects update of `set_working_directory`;
- the default configuration and the `.asdfrc` parser.

The React front end:
- the tool-versions editor's row edits and validation warnings;
- the tool-versions page's load/dirty/save state machine;
- the versions page's install session, which folds `Stdout`/`Stderr`/`Finished` events into one line buffer;
- the per-version actions (set local or global, uninstall, show path);
- the available-versions list;
- the plugins page, the dashboard, the add-plugin hook and dialog, and the project picker;
- the two zustand stores, `app-store` and `settings-store`.

Modules follow the source files. Shared modules:
- `Base`: `Option`, `Result`, `Outcome`.
- `Text`: Rust and JavaScript whitespace, `trim`, `split_whitespace`, `lines`, `join`.
- `Seqs`: `filter`, `filter_map`, `map`, `reverse`, subsequences.
- `Types`: the records of `types.rs`, `types.ts` and `app_config.rs`.
- `Paths`: a `PathBuf` as an absolute flag plus components.
- `Gateway`: the front end's calls into the backend.

How the model stands in for the running program:
- **Loops.** Rust parsers written as a `for` loop pushing into a `Vec` are methods with a loop and invariants. Each is proved equal to a `FilterMap` of a per-line function over the lines, and lemmas then state what that per-line function keeps. Iterator-chain parsers are functions.
- **Pages and stores.** Each page, hook and store is a class whose fields mirror the React state.
- **Backend replies.** A reply (the resolved value, or the rejection's message) is a parameter of its handler.
- **Call order.** Every backend call a handler makes is appended to a ghost `calls` trace. So is every action it starts in another component (a store action, a callback prop) and every reload it starts without awaiting it. The handlers' postconditions state the order of those calls.
- **Awaited reloads.** A reload that a handler awaits in its own component (`loadPlugins`, `loadData`, `loadPluginData`) is run inside the handler as that page's load method, with its replies as parameters of the handler.
- **Busy keys.** A handler that holds a busy key across an `await` (`installingKey`, `actionKey`, `adding`, `removingKey`, ...) is split into two methods. `...Begin` runs up to the first `await`. `...End` is the continuation, run once the backend call has settled.

## Model

| member | source | states |
|---|---|---|
| Parser.ParseCurrent | src-tauri/src/asdf/parser.rs:7-33 | the loop collects exactly one record per kept line, in order (`FilterMap` of `CurrentLine` over the lines) |
| Parser.CurrentLineSpec | src-tauri/src/asdf/parser.rs:9-24 | a line yields a record iff it has at least two whitespace tokens. Name and version are tokens 1 and 2 and the source is token 3 or "". `installed` is `token4 == "true"` when a fourth token exists and true otherwise |
| Parser.TokenNeverNotInstalled | src-tauri/src/asdf/parser.rs:19-24 | a whitespace-free token never contains "Not installed", so the default `installed` is always true |
| Parser.ParsePluginList | src-tauri/src/asdf/parser.rs:37-51 | one plugin per kept line, in order |
| Parser.PluginLineSpec | src-tauri/src/asdf/parser.rs:38-49 | every non-blank line yields a plugin. Its name is token 1; url and ref are tokens 2 and 3 when present, else None |
| Parser.ParsePluginListAll | src-tauri/src/asdf/parser.rs:55-72 | one registry entry per kept line, in order |
| Parser.RegistryLineSpec | src-tauri/src/asdf/parser.rs:62-69 | a line is kept iff it has at least two tokens, which become the name and the url |
| Parser.ParseListInstalled | src-tauri/src/asdf/parser.rs:77-91 | one entry per kept line, in order |
| Parser.InstalledLineSpec | src-tauri/src/asdf/parser.rs:79-89 | every non-blank line yields one entry. A leading `*` is stripped, the rest re-trimmed and the entry marked current; otherwise the trimmed line is the version, not current |
| Parser.ParseListAll | src-tauri/src/asdf/parser.rs:95-101 | the result is the `filter_map` of trimmed non-empty lines, in line order |
| Parser.ListAllTrimmed | src-tauri/src/asdf/parser.rs:95-101 | no version `parse_list_all` returns is empty or carries surrounding whitespace |
| Parser.ListAllAsFilterMap | src-tauri/src/asdf/parser.rs:95-101 | trimming every line and then dropping the empty ones equals the per-line `filter_map` |
| Parser.ParseLatestAll | src-tauri/src/asdf/parser.rs:105-128 | one record per kept line, in order |
| Parser.LatestLineSpec | src-tauri/src/asdf/parser.rs:112-119 | a line is kept iff it has at least two tokens. `installed_version` is token 3 when present. `up_to_date` holds iff a third token exists and equals the second |
| Parser.LatestAllUpToDate | src-tauri/src/asdf/parser.rs:116-119 | in every parsed record, `up_to_date` holds iff the installed version is the latest; with no installed version it is false |
| Parser.ParseShimVersions | src-tauri/src/asdf/parser.rs:132-147 | the `filter_map` of `ShimLine` over the lines, so entries follow line order; every plugin and version is a whitespace-free token |
| Parser.ShimLineSpec | src-tauri/src/asdf/parser.rs:136-144 | a line yields an entry iff it has at least two whitespace tokens, and then the plugin is token 1 and the version token 2; trimming the line first changes nothing |
| Parser.ShimLineRoundTrip | src-tauri/src/asdf/parser.rs:129-130 | the documented line `plugin version`, with or without further tokens, parses back to that plugin and version |
| Parser.ParseToolVersions | src-tauri/src/asdf/parser.rs:150-168 | every parsed tool and version is a non-empty token free of whitespace and `#` |
| Parser.ToolVersionLineSpec | src-tauri/src/asdf/parser.rs:151-167 | a line yields an entry iff its text before the first `#` has a token. The tool is the first token and the versions are the rest, possibly none |
| Parser.ToolVersionLineTokens | src-tauri/src/asdf/parser.rs:151-167 | a parsed entry's tool and versions are tokens without `#` |
| Parser.EnvLineSpec | src-tauri/src/asdf/parser.rs:172-187 | a line is kept iff its trimmed form holds `=`. The trimmed line is then key + "=" + value with no `=` in the key; the value may hold `=` |
| Parser.ParseEnv | src-tauri/src/asdf/parser.rs:172-187 | no parsed key contains `=` |
| ToolVersions.SerialiseShape | src-tauri/src/commands/tool_versions.rs:15-28 | the content is "" iff there are no entries; otherwise every entry line, in order, is followed by exactly one "\n" |
| ToolVersions.EntryLineRoundTrip | src-tauri/src/commands/tool_versions.rs:16-20 | the line written for an entry of `#`-free tokens has no newline or `#` and parses back to that entry |
| ToolVersions.RoundTrip | src-tauri/src/commands/tool_versions.rs:15-28 | reading back what `write_tool_versions` writes gives the same entries, whenever every tool and version is a `#`-free token |
| ToolVersions.RewriteParsed | src-tauri/src/commands/tool_versions.rs:15-28 | writing a parsed file and parsing it again gives the same entries: load-then-save is stable |
| ToolVersions.ParentSearchClosest | src-tauri/src/commands/tool_versions.rs:53-72 | the walk toward the root finds a file iff some ancestor-or-self directory holds one. What it finds is the closest such directory: no directory between it and the start holds the file |
| ToolVersions.FoundAt | src-tauri/src/commands/tool_versions.rs:53-72 | the depth at which the walk stops: its file exists, and no directory between the start and it holds one |
| ToolVersions.NotFound | src-tauri/src/commands/tool_versions.rs:53-72 | when the walk reaches the root without a result, no ancestor-or-self directory holds the file |
| ToolVersions.GetToolVersionsPath | src-tauri/src/commands/tool_versions.rs:31-80 | Home gives the home text joined with `.tool-versions`, or the config error when there is no home. Local gives the working directory (or home) text joined with it. Parent gives the closest existing file from that directory up. A file found in the start directory, and the fallback when none exists, keep the start text as written |
| ToolVersions.StartCandidateText | src-tauri/src/commands/tool_versions.rs:62-66 | the joined start text names exactly the first file the walk checks |
| Paths.JoinText | src-tauri/src/commands/tool_versions.rs:48-51 | `join` keeps the base text unchanged as a prefix and ends with the name, adding at most one `/` |
| Paths.JoinTextPath | src-tauri/src/commands/tool_versions.rs:48-51 | the joined text names the same path as joining the base's components with the name |
| Paths.Pop | src-tauri/src/commands/tool_versions.rs:62-71 | `pop` fails exactly at a path without components and otherwise removes the last one |
| Paths.FromString | src-tauri/src/commands/tool_versions.rs:41-52 | a parsed path is absolute iff the text starts with `/`; its components are non-empty, not `.` and hold no `/` |
| Info.ParseAsdfInfo | src-tauri/src/commands/info.rs:35-80 | always succeeds, with the fold of the line step over all lines |
| Info.ScanLine | src-tauri/src/commands/info.rs:45-70 | the loop body is exactly the line step `Step` |
| Info.StripHeader | src-tauri/src/commands/info.rs:47-61 | the value after the first header prefix the line starts with, tagged with its field; none when the line starts with no header prefix |
| Info.LastHeaderWins | src-tauri/src/commands/info.rs:48-62 | each header field holds the trimmed remainder of its last header line, or "" when there is none |
| Info.HeaderStep | src-tauri/src/commands/info.rs:48-62 | a header line sets its field, leaves the other fields and the plugins alone, and closes the plugin section |
| Info.PluginsHeaderIsNoField | src-tauri/src/commands/info.rs:63-64 | the plugin-section header matches none of the five field prefixes |
| Info.PluginSection | src-tauri/src/commands/info.rs:63-69 | after the `ASDF INSTALLED PLUGINS:` line, every following entry line is appended, trimmed and in order, and the section stays open |
| Info.BlankEndsSection | src-tauri/src/commands/info.rs:67-68 | a blank line closes the plugin section and changes nothing else |
| Info.OtherLineIgnored | src-tauri/src/commands/info.rs:45-70 | outside the plugin section, a non-empty line matching no header leaves the scan unchanged |
| Info.NoSectionNoPlugins | src-tauri/src/commands/info.rs:36-43 | without a plugin-section header, the plugin list stays empty |
| Info.PluginsTrimmed | src-tauri/src/commands/info.rs:65-66 | every collected plugin line is non-empty and trimmed |
| Settings.SetWorkingDirectory | src-tauri/src/commands/settings.rs:20-49 | a read or write error is returned unchanged. On success the working directory is the path and no other config field changes. The new head is the project with that path, its name and the given time, and the path occurs nowhere else. The list length is `min(10, 1 + survivors)`. The survivors keep their order and only tail entries are dropped |
| Settings.WithoutPath | src-tauri/src/commands/settings.rs:25 | `retain` keeps exactly the projects with another path, as a subsequence in order |
| Settings.ProjectNameOfJoin | src-tauri/src/commands/settings.rs:27-30 | a project path that ends in an entry `name` (not `..`) is named `name`, however its parent directory is written |
| Settings.ProjectNameOfParentRef | src-tauri/src/commands/settings.rs:27-30 | a path ending in `..` has no file name, so the whole path is the project name |
| Commands.GetAsdfPath | src-tauri/src/commands/plugin.rs:7-11 | the binary path is the configured one, and absent when the config could not be read |
| VersionCommands.Current | src-tauri/src/commands/version.rs:15-23 | runs `current [name]` in the configured directory with the configured binary, and returns the parsed records or the run's error |
| VersionCommands.Install | src-tauri/src/commands/version.rs:26-55 | the args are `install`, then the name and version when given, then `--keep-download` iff asked. An explicit cwd wins over the configured one |
| VersionCommands.InstallNameOrVersion | src-tauri/src/commands/version.rs:36-46 | a value given only as name or only as version yields the same args |
| VersionCommands.InstallKeepDownload | src-tauri/src/commands/version.rs:43-46 | `--keep-download` is the last argument iff it was asked for |
| VersionCommands.Uninstall | src-tauri/src/commands/version.rs:57-62 | runs exactly `uninstall name version` without a directory and returns the trimmed output |
| VersionCommands.SetVersion | src-tauri/src/commands/version.rs:64-85 | runs `set`, the scope flag (`--home`, `--parent` or none), the name and all versions in order |
| VersionCommands.SetArgsDecode | src-tauri/src/commands/version.rs:71-80 | the set args determine name, versions and scope whenever the name is not itself a scope flag |
| VersionCommands.SetArgsFlagName | src-tauri/src/commands/version.rs:71-80 | a Local set for a plugin named `--home` does not decode back to itself: its name reads as the Home flag |
| VersionCommands.Latest | src-tauri/src/commands/version.rs:87-96 | runs `latest name`, with the filter appended last when given |
| VersionCommands.LatestAll | src-tauri/src/commands/version.rs:98-103 | runs `latest --all` and returns the parsed records |
| VersionCommands.ListInstalled | src-tauri/src/commands/version.rs:105-113 | runs `list name` and returns the parsed versions in order with the current marker dropped |
| VersionCommands.ListAll | src-tauri/src/commands/version.rs:115-124 | runs `list all name`, with the filter appended last when given, and returns the parsed versions |
| VersionCommands.WhereInstalled | src-tauri/src/commands/version.rs:126-135 | runs `where name [version]` in the configured directory and returns the trimmed output |
| PluginCommands.PluginList | src-tauri/src/commands/plugin.rs:13-25 | runs `plugin list` with `--urls` iff urls, then `--refs` iff refs, and returns the parsed plugins |
| PluginCommands.ListArgsFlags | src-tauri/src/commands/plugin.rs:16-22 | `--urls` occurs iff urls, `--refs` iff refs, and `--urls` comes first |
| PluginCommands.PluginListAll | src-tauri/src/commands/plugin.rs:27-32 | runs `plugin list all` and returns the parsed registry |
| PluginCommands.PluginAdd | src-tauri/src/commands/plugin.rs:34-43 | runs `plugin add name` plus the git url when given |
| PluginCommands.PluginRemove | src-tauri/src/commands/plugin.rs:45-50 | runs exactly `plugin remove name` |
| PluginCommands.PluginUpdate | src-tauri/src/commands/plugin.rs:52-66 | with `all` it runs `plugin update --all` whatever the name. Otherwise it runs `plugin update name`. With neither, it runs nothing and returns the parse error |
| PluginCommands.UpdateAllIgnoresName | src-tauri/src/commands/plugin.rs:55-56 | `all` yields `--all` regardless of the name |
| AppConfigFile.DefaultConfiguresNothing | src-tauri/src/config/app_config.rs:25-37 | the first-run config is English, the system theme, no binary path or working directory, downloads not kept, notifications on and no recent projects; the commands then run as when reading fails |
| AppConfigFile.AsdfrcLineSpec | src-tauri/src/config/app_config.rs:86-93 | blank and `#` lines are skipped. Another line is kept iff it holds `=`, split at the first `=`, with key and value trimmed |
| AppConfigFile.ParseAsdfrc | src-tauri/src/config/app_config.rs:84-94 | every parsed key is trimmed and free of `=`, and every value is trimmed |
| AppConfigFile.ReadAsdfrc | src-tauri/src/config/app_config.rs:71-97 | no home gives the config error. A missing file (`ASDF_CONFIG_FILE` or `home/.asdfrc`) gives `[]`. Otherwise the parsed pairs |
| Gateway.InstallKey | src/features/tool-versions/tool-versions-page.tsx:116 | the key `plugin@version` splits at `@` back into its two parts |
| Gateway.InstallKeyInjective | src/features/tool-versions/tool-versions-page.tsx:116 | for `@`-free plugin names, equal keys mean the same plugin and version |
| ToolVersionsEditor.AddRowSpec | src/features/tool-versions/tool-versions-editor.tsx:51-57 | no change iff the trimmed tool or version is empty; otherwise exactly one trimmed row `{tool, [version]}` is appended |
| ToolVersionsEditor.RemoveRowSpec | src/features/tool-versions/tool-versions-editor.tsx:62-65 | drops exactly the row at an in-range index, keeping the rest in order; an out-of-range index changes nothing |
| ToolVersionsEditor.RemoveAddedRow | src/features/tool-versions/tool-versions-editor.tsx:51-65 | removing the row just added restores the entries |
| ToolVersionsEditor.UpdateToolSpec | src/features/tool-versions/tool-versions-editor.tsx:67-72 | only the tool at the index changes: its versions and every other row stay, and restoring the old tool undoes the edit |
| ToolVersionsEditor.UpdateVersionSpec | src/features/tool-versions/tool-versions-editor.tsx:74-79 | only the row at the index changes, and its versions become exactly `[value]`, unsplit |
| ToolVersionsEditor.Editor.HandleAddRow | src/features/tool-versions/tool-versions-editor.tsx:51-60 | hands over `AddRow` of the inputs, and clears both inputs exactly when a row was added |
| ToolVersionsEditor.GetValidation | src/features/tool-versions/tool-versions-editor.tsx:81-94 | the loop's warnings are exactly `Validation` |
| ToolVersionsEditor.PluginWarningAlone | src/features/tool-versions/tool-versions-editor.tsx:83-91 | an uninstalled plugin gives exactly one plugin warning. Otherwise there is one `VersionNotInstalled` warning (`VersionWarnings`) per listed version missing from the plugin's set, duplicates counted, and none without a set |
| ToolVersionsEditor.DropMissingClears | src/features/tool-versions/tool-versions-editor.tsx:81-94 | keeping only the installed versions makes an installed plugin's entry warning-free |
| ToolVersionsEditor.NoneMissing | src/features/tool-versions/tool-versions-editor.tsx:87-91 | versions that are all installed give no missing versions |
| ToolVersionsPage.VersionsMapSpec | src/features/tool-versions/tool-versions-page.tsx:41-50 | the map's keys are exactly the listed plugin names (`Names`), and each maps to the set of its installed versions (`InstalledSet`, empty for a failed listing) |
| ToolVersionsPage.OtherEntriesKeepValidation | src/features/tool-versions/tool-versions-page.tsx:125-129 | replacing one plugin's set leaves every other plugin's validation unchanged |
| ToolVersionsPage.InstalledRowClears | src/features/tool-versions/tool-versions-page.tsx:122-129 | after a fresh listing containing the installed version, the row for it has no warnings |
| ToolVersionsPage.Page.constructor | src/features/tool-versions/tool-versions-page.tsx:12-31 | the initial state: no entries, no file, nothing loading, saving or dirty, empty sets and map |
| ToolVersionsPage.Page.LoadValidation | src/features/tool-versions/tool-versions-page.tsx:34-53 | on a listing, the plugins, the name set and `VersionsMap` are stored after one `listInstalled` per plugin in order; a failed listing changes nothing |
| ToolVersionsPage.Page.LoadFile | src/features/tool-versions/tool-versions-page.tsx:55-82 | dirty is cleared and loading ends false. Without a scope or a non-empty path nothing loads. A resolution failure clears the file and entries. A read failure keeps the file with no entries |
| ToolVersionsPage.Page.SelectTab | src/features/tool-versions/tool-versions-page.tsx:85-88 | Local and Home load their scope's file; Custom loads nothing |
| ToolVersionsPage.Page.HandleLoadCustom | src/features/tool-versions/tool-versions-page.tsx:90-94 | loads the trimmed path when it is non-empty, else does nothing |
| ToolVersionsPage.Page.HandleChange | src/features/tool-versions/tool-versions-page.tsx:96-99 | any edit replaces the entries and marks the page dirty |
| ToolVersionsPage.Page.HandleSave | src/features/tool-versions/tool-versions-page.tsx:101-113 | without a file nothing happens. Otherwise the entries are written to the file, and dirty is cleared only when the write succeeds |
| ToolVersionsPage.Page.InstallBegin | src/features/tool-versions/tool-versions-page.tsx:115-119 | holds the key `plugin@version` and starts the install |
| ToolVersionsPage.Page.InstallEnd | src/features/tool-versions/tool-versions-page.tsx:119-135 | the key returns to null in every case. Only a successful install re-lists that plugin and replaces its set; other plugins' sets stay |
| AvailableVersions.EmptyFilterShowsAll | src/features/versions/available-versions.tsx:33-34 | with an empty filter the list is exactly the reverse of the versions |
| AvailableVersions.FilteredSpec | src/features/versions/available-versions.tsx:30-35 | the shown list is a subsequence of the reversed versions and holds exactly those whose lowercase form contains the lowercase filter |
| Seqs.ReverseMembers | src/features/versions/available-versions.tsx:33 | reversing keeps exactly the same members |
| AvailableVersions.RowFlags | src/features/versions/available-versions.tsx:37-106 | row k shows the k-th filtered version. It is installed iff listed installed, has an install button iff not installed, is latest iff equal to the latest, and is disabled iff it is installing |
| VersionActions.KeysDistinct | src/features/versions/use-version-actions.ts:16-36 | the three busy-key shapes never collide, and each determines its version |
| VersionActions.Actions.SetVersionBegin | src/features/versions/use-version-actions.ts:15-19 | holds `local:v` or `global:v`, disabling the buttons, and sets the single version `[v]` in that scope |
| VersionActions.Actions.SetVersionEnd | src/features/versions/use-version-actions.ts:27-32 | success reloads plugin data only; failure reloads nothing; the key returns to null |
| VersionActions.Actions.UninstallBegin | src/features/versions/use-version-actions.ts:35-38 | holds `uninstall:v` and uninstalls v |
| VersionActions.Actions.UninstallEnd | src/features/versions/use-version-actions.ts:42-48 | success reloads plugin data and then refreshes status; failure reloads nothing; the key returns to null |
| VersionActions.Actions.ShowPath | src/features/versions/use-version-actions.ts:51-58 | asks where the version lives and never touches the key |
| VersionsPage.EventLinesExtend | src/features/versions/versions-page.tsx:123-126 | each event appends at most its own line to the buffer |
| VersionsPage.LineEventsAllKept | src/features/versions/versions-page.tsx:123-126 | `Stdout` and `Stderr` lines all reach the buffer, in arrival order |
| VersionsPage.Page.constructor | src/features/versions/versions-page.tsx:22-54 | the initial state, with the plugin from the URL selected |
| VersionsPage.Page.LoadPluginList | src/features/versions/versions-page.tsx:57-62 | the plugins, or `[]` on failure; every other field is unchanged |
| VersionsPage.Page.LoadLatestOverview | src/features/versions/versions-page.tsx:65-72 | the overview, or `[]` on failure, and loading ends false; every other field is unchanged |
| VersionsPage.Page.LoadPluginData | src/features/versions/versions-page.tsx:75-100 | an empty name does nothing. Otherwise installed, current and latest each degrade alone to `[]`, null and null; current is the version of the first record (`FirstCurrent`), null when there is none. The available list is then fetched, with installed already set. Every other field is unchanged |
| VersionsPage.Page.AvailableLoaded | src/features/versions/versions-page.tsx:95-99 | the available list, or `[]` on failure, and its loading ends; every other field is unchanged |
| VersionsPage.Page.HandleSelectPlugin | src/features/versions/versions-page.tsx:102-114 | selects the plugin and clears the install target; a changed selection starts the reload of that plugin's data; every other field is unchanged |
| VersionsPage.Page.HandleInstall | src/features/versions/versions-page.tsx:116-122 | sets the target, empties the buffer and starts the session, so the button of that version spins (`InstallingVersion`); every other field is unchanged |
| VersionsPage.Page.OnInstallEvent | src/features/versions/versions-page.tsx:122-146 | a line event appends its line. `Finished` ends the session. Only a successful finish starts the plugin-data reload and the status refresh and takes the re-fetched overview, kept on failure. Every other field is unchanged |
| VersionsPage.Page.InstallRejected | src/features/versions/versions-page.tsx:147-151 | a rejection ends the session and appends one `Error: <msg>` line; every other field is unchanged |
| VersionsPage.Page.Session | src/features/versions/versions-page.tsx:116-152 | for any event sequence the executor can produce, the buffer ends as the event lines plus the error line of a rejection, and the session is over, so no version's button spins. Only a successful run starts the reloads and takes the overview. The plugin list, the selection, the plugin's data and the latest key are unchanged |
| VersionsPage.Page.DismissProgress | src/features/versions/install-progress.tsx:40-44 | dismissing is allowed only when not running, and clears the target and nothing else |
| VersionsPage.Page.InstallLatestBegin | src/features/versions/versions-page.tsx:154-158 | holds the key `name@version` and starts the install; nothing else changes |
| VersionsPage.Page.InstallLatestEnd | src/features/versions/versions-page.tsx:154-171 | the key returns to null. Success re-fetches the overview, awaits the plugin-data load only when the installed plugin is the one selected when the handler was called (installed, current and latest from its replies, as in `LoadPluginData`), then refreshes status. Failure changes nothing else |
| UseAddPlugin.AddPlugin.constructor | src/hooks/use-add-plugin.ts:10-12 | the dialog is hidden with an empty registry, not loading |
| UseAddPlugin.AddPlugin.OpenAddPlugin | src/hooks/use-add-plugin.ts:14-27 | always shows the dialog. The registry is fetched only when empty, a failed fetch leaves it empty, and loading ends false |
| UseAddPlugin.AddPlugin.SetShowAddPlugin | src/hooks/use-add-plugin.ts:10 | sets visibility only |
| UseAddPlugin.AddPlugin.Add | src/hooks/use-add-plugin.ts:29-32 | `onSuccess` runs only after a successful add, and never when absent. A failed add is the result; otherwise a rejecting `onSuccess` makes the call reject, and it succeeds only when both did |
| AddPluginDialog.FilteredRegistrySpec | src/features/plugins/add-plugin-dialog.tsx:39-41 | the filtered registry is a subsequence of the registry and keeps exactly the entries whose name contains the search case-insensitively |
| AddPluginDialog.EmptySearchShowsAll | src/features/plugins/add-plugin-dialog.tsx:39-41 | an empty search shows the whole registry |
| AddPluginDialog.Dialog.AddFromRegistryBegin | src/features/plugins/add-plugin-dialog.tsx:43-46 | marks the name as adding, which disables its button and the custom add |
| AddPluginDialog.Dialog.AddFromRegistryEnd | src/features/plugins/add-plugin-dialog.tsx:46-51 | closes the dialog only on success; `adding` returns to null either way |
| AddPluginDialog.Dialog.AddCustomBegin | src/features/plugins/add-plugin-dialog.tsx:53-57 | starts iff the trimmed name and url are non-empty, and passes both trimmed |
| AddPluginDialog.Dialog.AddCustomEnd | src/features/plugins/add-plugin-dialog.tsx:57-63 | clears the inputs and closes the dialog only on success; `adding` returns to null |
| PluginsPage.Page.constructor | src/features/plugins/plugins-page.tsx:18-27 | the initial state: loading, no busy keys, dialog hidden |
| PluginsPage.Page.LoadPlugins | src/features/plugins/plugins-page.tsx:29-38 | the plugins (with urls and refs), or `[]` on failure; loading ends false |
| PluginsPage.Page.RemoveBegin | src/features/plugins/plugins-page.tsx:44-47 | holds the name and removes the plugin; nothing else changes |
| PluginsPage.Page.RemoveEnd | src/features/plugins/plugins-page.tsx:47-56 | success awaits the plugin reload (list and loading as in `LoadPlugins`), then refreshes status; failure changes nothing else; the key returns to null |
| PluginsPage.Page.UpdateBegin | src/features/plugins/plugins-page.tsx:58-61 | holds the name and updates that plugin; nothing else changes |
| PluginsPage.Page.UpdateEnd | src/features/plugins/plugins-page.tsx:61-69 | success awaits the plugin reload (as in `LoadPlugins`) and nothing more; failure changes nothing else; the key returns to null |
| PluginsPage.Page.UpdateAllBegin | src/features/plugins/plugins-page.tsx:71-74 | raises the flag and updates all plugins; nothing else changes |
| PluginsPage.Page.UpdateAllEnd | src/features/plugins/plugins-page.tsx:74-82 | success awaits the plugin reload (as in `LoadPlugins`) and nothing more; failure changes nothing else; the flag drops in every case |
| PluginsPage.Page.OpenAddPlugin | src/features/plugins/plugins-page.tsx:88-101 | shows the dialog. An empty registry is fetched (a failed fetch leaves it empty, loading ends false); a non-empty one, its loading flag and the backend trace are unchanged |
| PluginsPage.Page.AddPlugin | src/features/plugins/plugins-page.tsx:103-108 | only after a successful add are the plugins reloaded (as in `LoadPlugins`) and then status refreshed; a failed add is passed on and changes nothing else |
| DashboardPage.HasUninstalledSpec | src/features/dashboard/dashboard-page.tsx:98 | `hasUninstalled` holds iff some entry is not installed, iff the uninstalled list is non-empty |
| DashboardPage.InstallsAttempted | src/features/dashboard/dashboard-page.tsx:69-74 | the install-all trace installs every uninstalled entry exactly once, in list order, whatever the outcomes |
| DashboardPage.Page.constructor | src/features/dashboard/dashboard-page.tsx:16-25 | the initial state: loading, not refreshing, no install running |
| DashboardPage.Page.LoadData | src/features/dashboard/dashboard-page.tsx:27-38 | info and versions degrade independently to null and `[]`; loading ends false. The summary's plugin count (`TotalVersions`) is then the `asdf info` count, or the store's count when that call failed |
| DashboardPage.Page.HandleRefresh | src/features/dashboard/dashboard-page.tsx:44-52 | refreshes status, then awaits the data reload (info, versions and loading as in `LoadData`); the flag ends false |
| DashboardPage.Page.InstallBegin | src/features/dashboard/dashboard-page.tsx:54-58 | holds the key `name@version` and starts the install |
| DashboardPage.Page.InstallEnd | src/features/dashboard/dashboard-page.tsx:58-67 | success awaits the data reload (as in `LoadData`), then refreshes status; failure changes nothing else; the key returns to null |
| DashboardPage.Page.HandleInstallAll | src/features/dashboard/dashboard-page.tsx:69-74 | runs the install steps for each uninstalled entry in order, and a failure does not stop the later ones. The page ends with the data of the last successful install's reload, or unchanged when none succeeded |
| DashboardPage.Page.OpenAddPlugin | src/features/dashboard/dashboard-page.tsx:76-89 | shows the dialog. An empty registry is fetched (a failed fetch leaves it empty, loading ends false); a non-empty one, its loading flag and the backend trace are unchanged |
| DashboardPage.Page.AddPlugin | src/features/dashboard/dashboard-page.tsx:91-96 | only on success: the add, then refreshStatus, then the awaited data reload (as in `LoadData`); a failed add is passed on and changes nothing else |
| AppStore.Store.constructor | src/stores/app-store.ts:16-22 | the initial state: no directory or version, count 0, not available, loading, no error |
| AppStore.Store.SetWorkingDir | src/stores/app-store.ts:24-31 | success takes the directory from the returned config; failure records the error and keeps the directory |
| AppStore.Store.SetWorkingDirThroughBackend | src/stores/app-store.ts:24-31 | with the backend's `set_working_directory`: when reading and writing the config succeed, the store's directory is the chosen one; otherwise the backend's error is recorded and the directory kept. The status fields are unchanged, and the one backend call is recorded |
| AppStore.Store.RefreshStatus | src/stores/app-store.ts:33-51 | success stores the version, the plugin count and availability. Any failure marks asdf unavailable and records the error, keeping version and count. Loading ends false either way |
| SettingsStore.MergeIdentityIdempotent | src/stores/settings-store.ts:30 | the empty patch changes nothing, and applying a patch twice is applying it once |
| SettingsStore.MergeThen | src/stores/settings-store.ts:30 | two successive patches are one combined patch, the later field winning |
| SettingsStore.Store.constructor | src/stores/settings-store.ts:13-15 | no config yet, loading |
| SettingsStore.Store.LoadSettings | src/stores/settings-store.ts:17-25 | success replaces the config, failure keeps it; loading ends false |
| SettingsStore.Store.UpdateSettings | src/stores/settings-store.ts:27-33 | a no-op without config. Otherwise the merged config is written, and stored only when the write succeeds |
| ProjectPicker.Picker.SelectProject | src/components/project-picker/project-picker-dialog.tsx:38-43 | setWorkingDir, then loadSettings, then refreshStatus, and only then closing. The app store ends with the directory from setWorkingDir and the version, count, availability and error of the refresh; the settings store holds the read config, and the dialog lists its recent projects (`RecentShown`) |
| ProjectPicker.Picker.RemoveRecent | src/components/project-picker/project-picker-dialog.tsx:45-53 | a no-op without config. Otherwise it writes the config without that path, then reloads settings; once the reload returns the written config, the dialog lists the old recent projects without that path, in order |
| ProjectPicker.RemoveRecentWritten | src/components/project-picker/project-picker-dialog.tsx:47-50 | the written config keeps every other field and exactly the other projects, in order |

## Left out

- Process execution. `src-tauri/src/asdf/executor.rs` is not part of this model. Every command receives the run's outcome as a parameter and records the `Invocation` it would hand over.
- The install event stream is a parameter. For `VersionsPage.Page.Session`, the only assumption is the executor's documented order: line events, at most one final `Finished`, and a rejection exactly when the run did not finish with success.
- File-system, clock and environment access: `read_config`/`write_config` JSON persistence (including `read_config` writing a default file when none exists), `std::fs` reads and writes, `dirs::home_dir`, `ASDF_CONFIG_FILE` and `SystemTime::now`. They are parameters: a config or an error, an "existing paths" set, the home directory, the time in seconds.
- `read_tool_versions` and `write_tool_versions` are modelled on the file's text only (parse and serialise). The write's I/O error is an input of the front end's handlers.
- `asdf_version`, `asdf_info`, `asdf_env` and the shim commands are thin wrappers around the executor. Only their parsers are modelled.
- `PathBuf` is modelled as an absolute flag plus normal components. The existence check and the parent walk work on these components, so repeated `/`, `.` pieces and a trailing `/` vanish there. Returned strings keep the raw base text (`Paths.JoinText`). A `..` component is kept as a name, and Windows prefixes are not modelled.
- `ToolVersions.GetToolVersionsPath`: a file found in a proper ancestor of the start directory is rendered from its components. Rust's `pop` keeps that ancestor's raw text, so a doubled `/` or a `.` piece inside the ancestor, or a leading `./`, would remain there.
- `Settings.SetWorkingDirectory`: `last_opened` is a `nat`, not a 64-bit `u64`. A clock before the epoch (`unwrap_or_default`) is the caller's 0.
- `String.prototype.toLowerCase` is ASCII case folding. Rust `char::is_whitespace` and the JavaScript `trim` set are modelled by their code-point lists.
- `Promise.all` fan-out is modelled as independent sub-results in a fixed order. This covers `loadPluginData`, the per-plugin map load of the tool-versions page and the dashboard's `loadData`. Interleavings and out-of-order completion are not modelled.
- Toasts, i18n texts, `setSearchParams` and navigation are not modelled. Validation warnings are an enum, not translated strings.
- Handlers that do not hold a busy key across an `await` are one method, so their intermediate states are not modelled: `loadFile`, `loadPluginData`, `loadPlugins`, `loadData`, `refreshStatus`, `loadSettings`, the add-plugin handlers of the pages. The transient `isLoading`/`installedLoading` that `loadFile` and `loadPluginData` raise before their first `await` is folded into the final state.
- `ToolVersionsPage.Page.HandleSave`: the transient `isSaving == true` during the write is not a separate state. The method states that saving is lowered after a write and untouched when there is no file.
- React effects are method calls the caller makes: the tab effect is `SelectTab`, and the selection effect is the `LoadPluginData` call recorded by `HandleSelectPlugin`. The re-render scheduling of these effects is not modelled.
- Reloads a handler starts without awaiting them are trace entries only. These are the install-finished callback's `loadPluginData` and `refreshStatus` (src/features/versions/versions-page.tsx:133-134). Their effect on the page is the separate `VersionsPage.Page.LoadPluginData` or `AppStore.Store.RefreshStatus` call that follows.
- `VersionActions.Actions.SetVersionEnd` and `VersionActions.Actions.UninstallEnd` await their callbacks (`loadPluginData`, and after an uninstall also `refreshStatus`), and release the key only after those settle. The callbacks belong to the page and the store, so under the call-order rule they are trace entries, recorded before the key is released.
- `useAddPlugin` is not used by any page. The plugins page and the dashboard each repeat its open handler, which is why their `OpenAddPlugin` delegates to a `UseAddPlugin.AddPlugin` object held by the page.
- The install-event callback and `handleInstallLatest` close over `selectedPlugin` as it was at the time of the call. In `OnInstallEvent` and `InstallLatestEnd` that captured plugin is a parameter.
- `AddPluginDialog.Dialog.AddCustomBegin`: `adding` is set to the untrimmed name, as in the source. The disabled test for a registry row therefore compares that name.
- `Partial<AppConfig>` patches with a field explicitly set to `undefined` are not modelled. A `Patch` field is either absent or a value.
- A version string containing `@` or a plugin named with `@` makes the busy keys `plugin@version` ambiguous. `Gateway.InstallKeyInjective` states the key is unambiguous only for `@`-free plugin names.
- Rendering: the rest of the pages' JSX, layout, theme, the info and shims pages, and the tests are not modelled.
