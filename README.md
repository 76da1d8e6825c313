# GPTbuilderauto core in Dafny

This project models the sequential logic of GPTbuilderauto, a tool that generates code, runs it, deploys it into a directory tree and monitors the deployments. It proves properties of four components.

- **Executor** (`executor.dfy`)
  - The per-language tables: extension, local command, container image and container command.
  - Shaping every way a local or container run can end into one `{stdout, stderr, return_code, success}` record.
  - The child-process environment.
  - The temporary file or directory that each run creates and always removes.
  - Falling back to local execution when Docker cannot be reached.
  - `CodeExecutor` and the operating-system state it touches (`Host`) are classes. Their methods are proved against the result functions.
- **Maintenance monitor** (`monitor.dfy`)
  - A class holding the health history, with `health_check`, `get_health_history`, `generate_report` and `auto_fix`.
  - `analyze_logs` as a pure line classifier.
  - The invariant that no stored record is an error.
- **Deployer** (`deployer.dfy`)
  - The deploy root is an in-memory map from entry names to deployment directories or plain files.
  - `deploy_code` is proved step by step against a function. The function includes the writes that persist when a later file-system step raises.
  - `list_deployments`, `delete_deployment` and the README text.
- **Config** (`config.dfy`)
  - `load_config` over the process environment, with the `.env` variables beneath it.
  - `validate_config`.

Shared modules:
- `seqs.dfy`: Option/Result, order-preserving filter, `xs[-n:]`.
- `strings.dfy`: ASCII case mapping, substring search, `str.split`, integer rendering and `int()`.
- `paths.dfy`: the `pathlib` operations used.

The outside world enters as values or function parameters:
- the child process (`Runner`) and the Docker daemon (`DockerClient`);
- `py_compile` (`pyCompile`) and the clock (`now`, `timestamp`, `deployedAt`);
- the temporary names (`tempStem`, `tempDir`) and creation times (`created`);
- what the file system reports (`DeploymentView`, `LogFile`, `DeployFault`).

## Model

| member | source | states |
|---|---|---|
| `Executor.Extension` | gptbuilderauto/executor/code_executor.py:190-199 | Total. The result is one of py/js/java/go/rs/txt. It is "txt" exactly when the lower-cased language is not in the table; otherwise it is the table's entry. |
| `Executor.ExtensionIgnoresCase` | gptbuilderauto/executor/code_executor.py:199 | A language and its lower-case spelling get the same extension. |
| `Executor.ExtensionDeterminesLanguage` | gptbuilderauto/executor/code_executor.py:192-198 | Two languages with the same specific extension are the same language up to case. |
| `Executor.Command` | gptbuilderauto/executor/code_executor.py:201-210 | Python gives `["python3", file] + args` and JavaScript gives `["node", file] + args`. Any other language gives `["cat", file]` and drops the arguments. The file is always the second word. |
| `Executor.ContainerCommand` | gptbuilderauto/executor/code_executor.py:220-229 | The command run inside the container. Its promise is `ContainerCommandIsLocalCommand` (below). |
| `Executor.ContainerCommandIsLocalCommand` | gptbuilderauto/executor/code_executor.py:220-229 | The container command table agrees with the local one for every language, file and argument list. |
| `Executor.DockerImage` | gptbuilderauto/executor/code_executor.py:212-218 | The Node image exactly for JavaScript, and the Python image for every other language. |
| `Executor.LocalResult` | gptbuilderauto/executor/code_executor.py:98-114 | `success` is exactly `return_code == 0`. An exit passes stdout, stderr and the code through. A timeout or exception gives empty stdout, -1 and failure, with the timeout sentence or the exception text as stderr. |
| `Executor.ContainerResult` | gptbuilderauto/executor/code_executor.py:168-188 | Success only for a completed container, with code 0 and empty stderr. A container error passes stdout and the exit status through, and takes stderr from the error stream or else the exception text. Any other exception gives -1 and failure. |
| `Executor.UniformSuccess` | gptbuilderauto/executor/code_executor.py:98-103 | In both modes `success` holds exactly when the return code is 0. |
| `Executor.TimeoutIsReported` | gptbuilderauto/executor/code_executor.py:104-111 | The stderr of a timed-out run contains "timeout" once lower-cased. |
| `Executor.ChildEnv` | gptbuilderauto/executor/code_executor.py:90-92 | The keys are those of both maps. A caller variable takes its new value and every other variable keeps its value. |
| `Executor.ContainerRequestFor` | gptbuilderauto/executor/code_executor.py:152-166 | Defines the container request: the language's image and command, and the code as the only file of a read-only `/workspace` mount. Only the caller's variables, 512m of memory, removal after exit, and the network disabled exactly when sandboxing is on. |
| `Executor.CodeExecutor.constructor` | gptbuilderauto/executor/code_executor.py:33-41 | Docker mode is on exactly when it was asked for and a client was obtained. A client is held exactly in Docker mode. |
| `Executor.CodeExecutor.ExecuteLocally` | gptbuilderauto/executor/code_executor.py:81-119 | The result is `LocalResult` of the runner's outcome. The runner gets the language's command on the temporary file, the merged environment, and the code in that file. The set of temporary files afterwards equals the set before. |
| `Executor.CodeExecutor.ExecuteInDocker` | gptbuilderauto/executor/code_executor.py:140-188 | Without a client the result is the local result. Otherwise it is `ContainerResult` of the daemon's answer to the request above. Temporary files and directories end as they began. |
| `Executor.CodeExecutor.ExecutePython` | gptbuilderauto/executor/code_executor.py:57-60 | Docker mode gives the container result for Python; otherwise the result is the local result of `python3 <file> args`. Temporary state is unchanged. |
| `Executor.UnreachableDockerRunsLocally` | gptbuilderauto/executor/code_executor.py:33-60 | An executor asked for Docker whose connection failed runs Python locally. |
| `Paths.BaseName` | gptbuilderauto/monitor/maintenance.py:77 | The history key, `Path(p).name`, never contains a separator. |
| `Paths.Suffix` | gptbuilderauto/monitor/maintenance.py:62 | A non-empty suffix starts with the last dot, holds no other dot, and ends the name. Its completeness is `SuffixPresent`. |
| `Paths.SuffixPresent` | gptbuilderauto/monitor/maintenance.py:62 | A name whose last dot is neither its first nor its last character has the suffix from that dot on. |
| `Paths.PlainNameComponents` | gptbuilderauto/deployer/deployer.py:176 | A name without separators other than "" and "." is its own single path component and base name. |
| `Paths.PathText` | gptbuilderauto/deployer/deployer.py:27-29 | `str(Path(p))`. Its promise is `PathTextPlain`. |
| `Paths.PathTextPlain` | gptbuilderauto/monitor/maintenance.py:38 | A plain name prints as itself. |
| `Paths.Child` | gptbuilderauto/deployer/deployer.py:53 | `str(Path(p) / name)`. Its promise is `ChildBaseName`. |
| `Paths.ChildBaseName` | gptbuilderauto/monitor/maintenance.py:77 | `(Path(p) / name).name == name` for a plain name. So the monitor files a deployment's checks under its own directory name. |
| `Strings.SplitCount` | gptbuilderauto/monitor/maintenance.py:126 | `split("\n")` yields one more piece than there are newlines. |
| `Strings.SplitJoin` | gptbuilderauto/monitor/maintenance.py:126 | Joining the split pieces with the separator gives the text back. |
| `Strings.Split` | gptbuilderauto/monitor/maintenance.py:126 | `str.split` on one character. Its promises are `SplitCount` and `SplitJoin`. |
| `Strings.ParseIntRoundTrip` | gptbuilderauto/utils/config.py:22 | `int(str(i)) == i` for every integer. |
| `Strings.ParseDigits` | gptbuilderauto/utils/config.py:27 | A run of decimal digits is read as its value. |
| `Strings.ParseNeedsDigit` | gptbuilderauto/utils/config.py:22 | Only text that holds a digit is read as an integer. |
| `Strings.ParseInt` | gptbuilderauto/utils/config.py:22 | `int(text)`, with `None` where it raises. Its promises are `ParseIntRoundTrip`, `ParseDigits` and `ParseNeedsDigit`. |
| `Monitor.Inspect` | gptbuilderauto/monitor/maintenance.py:38-74 | Missing path: "Deployment not found". An exception raised inside the `try` block, such as `stat` on a dangling `main.py` link, gives its message. No `main.*` match gives "Main file not found"; this includes a directory that cannot be listed, because `glob` drops that error. Otherwise the first match's path and size. Status is healthy exactly when the syntax is valid, otherwise warning, never error. Only a `.py` main file is compiled. |
| `Monitor.MaintenanceMonitor.constructor` | gptbuilderauto/monitor/maintenance.py:17-26 | Stores the interval and starts with an empty history, which satisfies the invariant. |
| `Monitor.MaintenanceMonitor.HealthCheck` | gptbuilderauto/monitor/maintenance.py:28-85 | Returns `Inspect`'s result. Every error leaves the history unchanged, and a success stores its record under the base name. Keeps the invariant that no stored record is an error. |
| `Monitor.Recorded` | gptbuilderauto/monitor/maintenance.py:77-80 | The history after storing one record. Its promise is `RecordedAppendsOne`. |
| `Monitor.RecordedAppendsOne` | gptbuilderauto/monitor/maintenance.py:77-80 | Storing appends exactly one record to the name's list, creating the list when absent, and leaves every other list unchanged. |
| `Monitor.RecordedKeepsNoErrors` | gptbuilderauto/monitor/maintenance.py:67-85 | Storing a non-error record keeps every stored list free of errors. |
| `Monitor.TwoChecksTwoRecords` | gptbuilderauto/monitor/maintenance.py:77-80 | Two successful checks of one path leave exactly those two records, in order. |
| `Monitor.Window` | gptbuilderauto/monitor/maintenance.py:158-164 | The records at or after the cutoff. Its promises are `WindowMembers` and `WindowSnoc`. |
| `Monitor.WindowMembers` | gptbuilderauto/monitor/maintenance.py:158-164 | The window holds exactly the stored records at or after the cutoff. |
| `Monitor.WindowSnoc` | gptbuilderauto/monitor/maintenance.py:161-164 | One more record extends the window by that record exactly when it is recent enough, so the order is kept. |
| `Monitor.WindowKeepsRecent` | gptbuilderauto/monitor/maintenance.py:158-166 | When every record is recent, the window is the whole history. |
| `Monitor.History` | gptbuilderauto/monitor/maintenance.py:155-164 | The window over the stored list, or nothing for an unknown name. `GetHealthHistory` computes it. |
| `Monitor.TwoRecentChecksInWindow` | gptbuilderauto/monitor/maintenance.py:144-166 | Two checks within the last 24 hours are the history, in the order they were made. |
| `Monitor.MaintenanceMonitor.GetHealthHistory` | gptbuilderauto/monitor/maintenance.py:155-166 | Nothing for an unknown name. Otherwise the order-preserving window of the records at or after `now - hours*3600`. |
| `Monitor.StatusCountsPartition` | gptbuilderauto/monitor/maintenance.py:217-219 | The healthy, warning and error counts add up to the number of records. |
| `Monitor.RecentIssues` | gptbuilderauto/monitor/maintenance.py:229 | `[-5:]` of the non-healthy records: min(5, n) of them, which are the last ones, in stored order. Each is a non-healthy stored record. |
| `Monitor.IssueLineIsOneLine` | gptbuilderauto/monitor/maintenance.py:232-235 | Each issue line holds exactly one newline. |
| `Monitor.OneLinePerIssue` | gptbuilderauto/monitor/maintenance.py:230-235 | The issue section has exactly one line per listed issue. |
| `Monitor.MaintenanceMonitor.RenderIssues` | gptbuilderauto/monitor/maintenance.py:229-237 | The `+=` loop builds the issue section: the lines in order, or the "No recent issues detected." sentence. |
| `Monitor.Summarize` | gptbuilderauto/monitor/maintenance.py:202-237 | An empty window gives "No health history available for <name>". Otherwise the summary names the deployment, the total is the window length, and each count is the number of records with that status, so the three sum to the total. The issues are the recent issues, with their section text. |
| `Monitor.ReportOfStoredHistory` | gptbuilderauto/monitor/maintenance.py:217-235 | Over records without errors, the error count is 0 and every listed issue is a warning. |
| `Monitor.WindowNoErrors` | gptbuilderauto/monitor/maintenance.py:160-164 | A window of an error-free history is error-free. |
| `Monitor.MaintenanceMonitor.GenerateReport` | gptbuilderauto/monitor/maintenance.py:192-239 | The report is `Summarize` of the 24-hour history. Under the invariant it counts no errors. |
| `Monitor.AnalyzeLogs` | gptbuilderauto/monitor/maintenance.py:119-142 | Missing or unreadable files give their messages. Otherwise `total_lines` is newlines + 1. A line counts as an error when its upper case contains ERROR, and independently as a warning for WARNING. The recent lists are the last min(10, n) matches, in order. |
| `Monitor.SingleLineCounts` | gptbuilderauto/monitor/maintenance.py:128-129 | A one-line text counts once in each class it belongs to. |
| `Monitor.LineCountsInBothClasses` | gptbuilderauto/monitor/maintenance.py:128-134 | "WARNING: error" counts as one error and one warning. |
| `Monitor.MaintenanceMonitor.AutoFix` | gptbuilderauto/monitor/maintenance.py:168-190 | Always "not_implemented", echoing the path and issue, and the history is untouched. |
| `Deployer.DeploymentNameInjective` | gptbuilderauto/deployer/deployer.py:51-52 | With fixed-width timestamps, `name_timestamp` determines both the name and the timestamp. |
| `Deployer.DeploymentNamePlain` | gptbuilderauto/deployer/deployer.py:52-53 | A separator-free name and timestamp give a single-component directory name. |
| `Deployer.MainFileName` | gptbuilderauto/deployer/deployer.py:60-61 | `main.<ext>` never collides with `metadata.json` or `README.md`. |
| `Deployer.MetadataSection` | gptbuilderauto/deployer/deployer.py:214-217 | The metadata section is empty exactly when the metadata is. |
| `Deployer.MetadataLinesSnoc` | gptbuilderauto/deployer/deployer.py:216-217 | One more entry appends its `- **key**: value` line. |
| `Deployer.MetadataOneLinePerEntry` | gptbuilderauto/deployer/deployer.py:214-217 | Split on newlines, the metadata lines are exactly one line per entry, in order. |
| `Deployer.ReadmeAssembly` | gptbuilderauto/deployer/deployer.py:203-225 | The README is head, then the metadata section, then the footer. |
| `Deployer.ReadmeText` | gptbuilderauto/deployer/deployer.py:201-226 | The README text. Its promises are `ReadmeAssembly`, `ReadmeStartsWithTitle`, `ReadmeNamesLanguage` and `MetadataOneLinePerEntry`. |
| `Deployer.ReadmeStartsWithTitle` | gptbuilderauto/deployer/deployer.py:203 | The README starts with `# <name>`. |
| `Deployer.ReadmeNamesLanguage` | gptbuilderauto/deployer/deployer.py:207-208 | The README contains the language under `## Language`. |
| `Deployer.AppendMetadataLines` | gptbuilderauto/deployer/deployer.py:216-217 | The loop appends exactly the metadata lines, in order. |
| `Deployer.Deployer.GenerateReadme` | gptbuilderauto/deployer/deployer.py:201-226 | The built text equals the README text function. |
| `Deployer.MakeDirectory` | gptbuilderauto/deployer/deployer.py:57 | `mkdir(exist_ok=True)` fails exactly on a plain file, keeps an existing directory, and otherwise adds an empty one. |
| `Deployer.WriteFile` | gptbuilderauto/deployer/deployer.py:62 | A write changes only the named file of the named directory. |
| `Deployer.Writes` | gptbuilderauto/deployer/deployer.py:60-73 | Three writes with metadata and two without. |
| `Deployer.Completed` | gptbuilderauto/deployer/deployer.py:55-85 | Writes stop short only when a write step raises. |
| `Deployer.Effects` | gptbuilderauto/deployer/deployer.py:60-73 | What the writes leave: the completed writes, plus the opened file cut short when a write raises after opening it. Its promises are `DeployAfterMkdir` and `InterruptedWrite`. |
| `Deployer.WritesOrder` | gptbuilderauto/deployer/deployer.py:59-73 | The code is written first and the README last. The metadata comes second when present. No file is written twice. |
| `Deployer.WriteAllFiles` | gptbuilderauto/deployer/deployer.py:62-73 | Writing adds exactly the written names; an unwritten file keeps its contents. |
| `Deployer.WriteAllLatest` | gptbuilderauto/deployer/deployer.py:62-73 | The last write of a name decides its contents. |
| `Deployer.WriteAllKeepsJson` | gptbuilderauto/deployer/deployer.py:65-69 | Only JSON ever goes into `metadata.json`. |
| `Deployer.Deploy` | gptbuilderauto/deployer/deployer.py:36-85 | `deploy_code` on the root. Its promises are `DeployAfterMkdir`, `DeployFrame`, `DeployLayout`, `InterruptedWrite` and the lemmas below. `DeployCode` computes it step by step. |
| `Deployer.DeployAfterMkdir` | gptbuilderauto/deployer/deployer.py:55-85 | Past a successful mkdir, the directory holds what the writes left: the completed writes, and for a write that raised after opening its file, that file cut short. The result is success exactly when all writes completed. |
| `Deployer.DeployFrame` | gptbuilderauto/deployer/deployer.py:51-85 | Success or failure, the result carries `name_timestamp`, and no other root entry changes. |
| `Deployer.DeployLayout` | gptbuilderauto/deployer/deployer.py:57-82 | Without a fault the deploy succeeds. The directory holds `main.<ext>` with the code and the README, plus `metadata.json` for non-empty metadata. Every other old file stays unchanged and any other file is one that was already there; on a redeploy without metadata the old `metadata.json` stays. |
| `Deployer.DeployFreshDirectory` | gptbuilderauto/deployer/deployer.py:64-73 | In a new directory, `metadata.json` exists exactly when there is metadata. |
| `Deployer.RedeployOverwrites` | gptbuilderauto/deployer/deployer.py:57-62 | Redeploying into an existing directory succeeds, overwrites the code file, and adds or removes no root entry. |
| `Deployer.DeployBlockedByFile` | gptbuilderauto/deployer/deployer.py:83-85 | A plain file in the way fails the deploy and changes nothing. |
| `Deployer.Deployer.DeployCode` | gptbuilderauto/deployer/deployer.py:36-85 | The new root and result are `Deploy` of the old root, with the generated README. Configuration fields are unchanged. |
| `Deployer.Deployer.WriteDeployment` | gptbuilderauto/deployer/deployer.py:59-73 | The three `write_text` steps in order, until the fault raises. The directory ends holding exactly what `Effects` says, and the call reports completion exactly when every write was done. |
| `Deployer.DeployKeepsReadable` | gptbuilderauto/deployer/deployer.py:65-69 | Only a `metadata.json` write that raises after opening its file makes a metadata file unreadable. |
| `Deployer.InterruptedWrite` | gptbuilderauto/deployer/deployer.py:60-85 | A write that raises after opening its file fails the deploy. The file is left holding what had reached it, and the earlier writes are complete. |
| `Deployer.InterruptedMetadataUnreadable` | gptbuilderauto/deployer/deployer.py:65-69 | A `metadata.json` cut short this way cannot be read back, so the root is no longer readable for `list_deployments`. |
| `Deployer.DeployAllDirectories` | gptbuilderauto/deployer/deployer.py:51-73 | Deploys with distinct names into an empty root create exactly those directories, all with readable metadata. |
| `Deployer.DeploysAreListed` | gptbuilderauto/deployer/deployer.py:143-160 | After N deploys with distinct names there are N deployment directories to list. |
| `Deployer.ListingStarts` | gptbuilderauto/deployer/deployer.py:140 | The empty listing describes nothing wrongly. |
| `Deployer.ListingAdds` | gptbuilderauto/deployer/deployer.py:144-160 | A directory whose metadata reads joins the listing with its path, creation time and metadata. |
| `Deployer.ListingSkips` | gptbuilderauto/deployer/deployer.py:144 | A plain file is skipped without harm. |
| `Deployer.ListingComplete` | gptbuilderauto/deployer/deployer.py:143-164 | Once every entry is seen, a readable root is listed exactly, once per directory. |
| `Deployer.ReadMetadata` | gptbuilderauto/deployer/deployer.py:145-151 | `{}` without a metadata file, its entries when it holds JSON, and a failure otherwise. Its promises are `DeployKeepsReadable` and `InterruptedMetadataUnreadable`. |
| `Deployer.Deployer.ListDeployments` | gptbuilderauto/deployer/deployer.py:133-164 | Every entry describes a deployment directory, with `{}` for a missing metadata file, and no name repeats. With readable metadata the names are exactly the directories and the count matches. |
| `Deployer.Delete` | gptbuilderauto/deployer/deployer.py:176-188 | Succeeds exactly when the name resolves to one deployment directory, and then removes that entry only. Otherwise the root is unchanged. |
| `Deployer.PlainTarget` | gptbuilderauto/deployer/deployer.py:176 | A plain name targets the entry of that name. |
| `Deployer.DeleteAsWritten` | gptbuilderauto/deployer/deployer.py:176-182 | `delete_deployment` as written, for names below the root. Its promises are `DeleteRootName` and `DeleteAgreesOnEntries`. |
| `Deployer.DeployThenDelete` | gptbuilderauto/deployer/deployer.py:166-188 | Deleting the name a deploy returned succeeds and removes it, every other entry is kept, and the name is no longer listed. |
| `Deployer.DeleteMissing` | gptbuilderauto/deployer/deployer.py:183-185 | A name that resolves to no entry returns false and changes nothing. |
| `Deployer.DeleteRootName` | gptbuilderauto/deployer/deployer.py:176-182 | As written, "" and "." wipe a non-empty root; the corrected deletion refuses both. |
| `Deployer.DeleteAgreesOnEntries` | gptbuilderauto/deployer/deployer.py:176-185 | The as-written and corrected deletions agree on every single-entry name. |
| `Deployer.Deployer.DeleteDeployment` | gptbuilderauto/deployer/deployer.py:166-188 | The new root and result are the corrected `Delete` of the old root. |
| `Deployer.Deployer.constructor` | gptbuilderauto/deployer/deployer.py:27-34 | The path is the argument if given, else `$DEPLOY_PATH`, else the default, normalised as `pathlib` prints it. The root starts as the given existing directory. |
| `Deployer.ResolveDeployPath` | gptbuilderauto/deployer/deployer.py:27-29 | A given path wins. Without one, `$DEPLOY_PATH` when set, and otherwise "/tmp/gptbuilder_deployments". |
| `Config.AllSet` | gptbuilderauto/utils/config.py:45-47 | The search succeeds exactly when every required key has a truthy value. |
| `Config.ValidateConfig` | gptbuilderauto/utils/config.py:33-49 | True exactly when `openai_api_key` is present and truthy. |
| `Config.ToDict` | gptbuilderauto/utils/config.py:19-30 | The dictionary holds the API key, or None when it is unset. |
| `Config.LoadConfig` | gptbuilderauto/utils/config.py:10-30 | `load_config`. Its promises are `LoadDefaults`, `LoadUnsetDefaults`, `LoadUnsetIntegers`, `LoadFlags`, `LoadPassesThrough` and `LoadFailure`. |
| `Config.LoadedValidIffKey` | gptbuilderauto/utils/config.py:20 | A loaded configuration validates exactly when `OPENAI_API_KEY` is set and non-empty. |
| `Config.ProcessEnvironmentWins` | gptbuilderauto/utils/config.py:17 | A process variable wins over `.env`, a `.env` variable over the default. |
| `Config.FlagMeaning` | gptbuilderauto/utils/config.py:23 | A flag is on exactly when it is unset or its value lower-cased is "true". |
| `Config.FlagExamples` | gptbuilderauto/utils/config.py:26 | "TRUE" and "True" turn a flag on; "1", "yes" and "" turn it off. |
| `Config.LoadDefaults` | gptbuilderauto/utils/config.py:19-30 | An empty environment gives: no key, gpt-4, 300, Docker on, local, /tmp/gptbuilder_deployments, sandboxing on, 600, INFO, gptbuilder.log. |
| `Config.DefaultIntegers` | gptbuilderauto/utils/config.py:22-27 | The default texts "300" and "600" read as 300 and 600. |
| `Config.LoadUnsetDefaults` | gptbuilderauto/utils/config.py:20-29 | In every environment, an unset text setting takes its default, and an unset API key is None. |
| `Config.LoadUnsetIntegers` | gptbuilderauto/utils/config.py:22-27 | In every environment, an unset timeout is 300 and an unset maximum 600. With both unset, loading cannot fail. |
| `Config.LoadedIntegers` | gptbuilderauto/utils/config.py:22-27 | The two integer settings are what `int()` reads from their texts. |
| `Config.LoadFlags` | gptbuilderauto/utils/config.py:23-26 | In every environment, each loaded flag is on exactly when its variable is unset or lower-cases to "true". |
| `Config.LoadPassesThrough` | gptbuilderauto/utils/config.py:21-29 | A set string variable, the API key included, is passed through unchanged; a set integer variable is its parsed value. |
| `Config.LoadFailure` | gptbuilderauto/utils/config.py:22-27 | Loading fails exactly when one of the two integers does not parse. The error names the first one, in dictionary order. |
| `Config.WordTimeoutFails` | gptbuilderauto/utils/config.py:22 | `EXECUTION_TIMEOUT=ten` fails with the `int()` message. |

## Left out

- Logging calls throughout, `deploy_to_git`, the CLI, the code generator, the logging setup and packaging: they are not part of this model.
- `subprocess.run`, the Docker SDK, `py_compile`, the clock, `iterdir`, `stat` and temporary-name generation are outside the model. What they report enters as parameters.
- Executor: a failure while writing the temporary file, before the `try` block, is not modelled. Nor are the byte decoding of container output and `str(container)` for non-byte output; the container output enters already decoded.
- Executor: the `ContainerError` handler reads `e.stdout` as well as `e.stderr`. The model assumes the exception carries both attributes; the Docker library is not part of this model.
- Strings: `lower`, `upper` and `strip` are ASCII-only. `int()` here accepts optional sign and ASCII digits only, not underscores or non-ASCII digits. The error message does not reproduce `repr` quoting for text that contains quotes.
- Paths are POSIX. A `//` root and symbolic links are not modelled.
- Monitor: ISO timestamps are integers (seconds). The report's percentages and generation time are floating-point and clock formatting, so only the counts, the issues and their section text are modelled.
- Monitor: the `message` lookup of a stored record always gives "No details", because stored records have no `message` key.
- Monitor: the 10-second timeout of the syntax check and its exceptions are folded into the `pyCompile` parameter of `Monitor.Inspect`.
- Monitor: the catch-all exception of `health_check` is the `Raised` view, and that of `analyze_logs` is `UnreadableLog`.
- Monitor: `deployment_path.exists()` runs outside the `try` block. On Python 3.12 and earlier it raises `PermissionError` for a path below a directory that cannot be searched, and `health_check` then raises. The model has no such outcome.
- Monitor: `log_path.exists()` in `analyze_logs` also runs outside the `try` block and raises the same way on Python 3.12 and earlier; the log view of `Monitor.AnalyzeLogs` has no such outcome.
- Deployer: each I/O failure is one of four named steps (`DeployFault`). A failing write either raises before its file is opened, leaving it as it was, or after `write_text` has emptied it, leaving whatever text had reached it. A README generation failure is not modelled.
- Deployer: `metadata.json` holds either the JSON object written by `deploy_code` or text that does not parse; the JSON text format is not modelled. Metadata values are their formatted text.
- Deployer: a name containing `/` makes nested directories in the source; a name with a leading `/` or a `..` component puts the deployment outside the deploy root. The model keeps any such name as one root entry.
- Deployer: `list_deployments` on a deploy root that has vanished (where `iterdir` raises) is not modelled.
- Deployer.Deployer.constructor: a failing `mkdir` of the deploy path is not modelled. The source raises when a plain file sits at that path or the path cannot be created. The model starts from an existing directory whose entries are `existing`.
- Deployer.DeleteAsWritten: defined only for names that stay below the root: no leading `/`, no `..` component. Such names make `delete_deployment` remove directories outside the deploy root, and the model has no file system outside it. The corrected `Delete` refuses them.
- Deployer.Deployer.ListDeployments: when a metadata file does not parse, the contract says only this: every entry gathered so far describes a deployment, and no name repeats. Which entries come first depends on the iteration order, which is not modelled.
- Config: reading and parsing the `.env` file is outside the model; its variables enter as a map.

## Findings

| source | as written | input that shows it | evidently intended | confidence | as-written member | corrected member |
|---|---|---|---|---|---|---|
| gptbuilderauto/deployer/deployer.py:176-182 | `deploy_path / deployment_name` with an empty name, or ".", is the deploy root itself. It exists, so `shutil.rmtree` removes every deployment and returns true. | `delete_deployment("")` on a root holding any deployment | only a deployment directory below the root is removed; "" and "." delete nothing and return false | not executed | `Deployer.DeleteRootName` | `Deployer.Deployer.DeleteDeployment` |
