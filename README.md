# mcpm, modelled in Dafny

mcpm installs Model Context Protocol servers for two AI coding hosts.
`mcpm install @org/repo` clones the repository into `<cwd>/.mcp/servers/<repo>`.
It then detects how to build the server: an `mcp.json` manifest, else Node, else Python, else Go.
A terminal wizard asks for the environment variables the server needs and lets the operator pick hosts.
Finally the server is registered with each chosen host:
- the command-line host, through `claude mcp add`;
- the file-merge host, by editing `.gemini/settings.json`.

`mcpm add` and `mcpm remove` register or unregister a server that is already installed, without a build.

This project models those pieces and proves what they promise.
- **Build detection** (`Builder`, `NodeBuild`, `PythonBuild`, `GoBuild`, `BuildTypes`). The machine is a value: which paths exist, directory listings, decoded `package.json` and `mcp.json` contents, which tools are on `PATH`, and which shell commands fail. Every build returns its result together with the list of shell commands it ran.
- **Registration** (`ClaudeCode`, `GeminiCli`, `Injector`). The operator's workstation (`Station.Workstation`) holds the working and home directories, the settings files, the directories and files that cannot be written, and how `claude` answers. It also keeps a log of every `claude` call.
- **The two wizards** (`Wizard`, `Installer`, `Updater`). Each is a class whose fields are the Go model's fields. Its `Update` method is proved equal to a transition function on a state value. An invariant (`Valid`) is proved to hold in every reachable state, and it makes every index into the inputs safe.
- **The commands** (`AddCommand`, `RemoveCommand`, `InstallCommand`) and **the fetcher** (`Fetcher`).
- **`Pipeline`** ties the stages together: the directory a repository is cloned into is the name its server is registered under.

Each method that mirrors a Go loop or a sequence of effects is proved equal to a specification function. The properties are proved about those functions. JSON documents are maps from keys to a `Value` tree.

## Model

| member | source | states |
|---|---|---|
| BuildTypes.RunShell | internal/builder/shell.go:9-12 | An empty command succeeds and runs nothing; any other command runs once and fails exactly when the machine says it fails |
| Builder.FromManifest | internal/builder/builder.go:33-57 | An unreadable manifest and an undecodable one ("invalid mcp.json") are errors with nothing run; an empty build command runs nothing; a failing one is an error with no result; a success takes run command, args and required env verbatim |
| Builder.DetectAndBuild | internal/builder/builder.go:13-17 | An existing `mcp.json` selects the manifest path whatever other markers exist |
| Builder.Detect | internal/builder/builder.go:19-30 | The reference priority registry: no strategy iff no group has a marker, otherwise the strategy of the first group that has one |
| Builder.DispatchFollowsRegistry | internal/builder/builder.go:10-31 | The if-chain equals running the first strategy of the registry (manifest, package.json, pyproject.toml/requirements.txt, go.mod) whose marker exists, and is the detection error when none does |
| Builder.NoMarkerRunsNothing | internal/builder/builder.go:30 | With no marker file the result is the detection error and no shell command runs |
| Builder.HeuristicsNeedNoEnv | internal/builder/builder.go:19-28 | Without a manifest, every successful build needs no environment variables |
| Builder.PythonScenario | internal/builder/builder.go:23-24 | A repository with requirements.txt and main.py (and no manifest or package.json) launches the venv interpreter on main.py |
| Builder.NodeScenario | internal/builder/builder.go:20-21 | A single-package Node repository whose built `dist/index.js` exists launches `node` on it |
| NodeBuild.PackageEntry | internal/builder/node.go:29-60 | An absent sub-package yields ""; otherwise its `dist/index.js` when that exists, else its declared `main` when package.json declares one that exists, else `src/index.js` when that exists, else ""; a non-empty entry always exists |
| NodeBuild.ScanCandidate | internal/builder/node.go:65-87 | The scan takes only the `dist/index.js` of a directory whose package.json mentions "mcp" in its name or declares `bin` |
| NodeBuild.MonorepoEntry | internal/builder/node.go:23-91 | A monorepo entry, when found, exists |
| NodeBuild.NodeBuild | internal/builder/node.go:93-146 | `<mgr> install` runs first; `<mgr> run build` runs iff the install succeeded and `scripts` has `build`; the first failure is the error with its output; a success launches `node` on exactly the resolved `Entry`, with no env needs |
| NodeBuild.SingleEntryPrecedence | internal/builder/node.go:127-138 | Without a monorepo entry: `dist/index.js` when it exists, else `build/index.js` when it exists, else the declared `main`, else `index.js` |
| NodeBuild.MonorepoFirst | internal/builder/node.go:118-128 | The monorepo search is consulted only when `packages/` exists, and its entry wins; an empty search falls back to single-package resolution |
| NodeBuild.LaunchedEntry | internal/builder/node.go:118-139 | What a successful build launches exists on disk, except the uncompiled fallback (`main`, else `index.js`), which is launched unchecked |
| NodeBuild.KnownPackageOrder | internal/builder/node.go:27-61 | Known sub-packages are tried in the order mcp, server, mcp-server, and the first that offers an entry wins over the scan |
| NodeBuild.ScanYieldsServerLikePackage | internal/builder/node.go:63-90 | The scan yields a server-like sub-package's `dist/index.js`, and "" iff no listed entry qualifies |
| NodeBuild.ProbePackage | internal/builder/node.go:30-60 | One iteration of the known-package loop, with its early returns, computes `PackageEntry` |
| NodeBuild.ScanPackages | internal/builder/node.go:63-90 | The scan loop, returning on its first hit, computes the first non-empty `ScanCandidate` |
| NodeBuild.FindMonorepoEntry | internal/builder/node.go:22-91 | The two search loops with early returns compute `MonorepoEntry` |
| NodeBuild.BuildNode | internal/builder/node.go:93-146 | The manager choice by reassignment (pnpm over yarn over npm), the conditional build and the entry fallbacks (dist, build, main, index.js) compute `NodeBuild` |
| PythonBuild.CreateVenv | internal/builder/python.go:13-18 | `python3 -m venv` runs first, `python -m venv` only if it fails, and the step fails only when both do |
| PythonBuild.PythonBuild | internal/builder/python.go:9-59 | A success launches the venv interpreter (`bin/python`, or `Scripts/python.exe` on Windows) on exactly one script and needs no env |
| PythonBuild.VenvFallback | internal/builder/python.go:13-18 | The first command run is the python3 venv; the second is the python venv iff the first failed; a venv error iff both failed |
| PythonBuild.DependencySource | internal/builder/python.go:27-36 | After the venv, exactly the chosen dependency command runs (requirements.txt before pyproject.toml, none without either) and its failure is the error |
| PythonBuild.EntryIsFirstExisting | internal/builder/python.go:39-46 | A success's argument is the first existing candidate of main.py, server.py, app.py, src/main.py, src/server.py |
| PythonBuild.NoEntryError | internal/builder/python.go:48-52 | Once the venv and dependencies succeed, the entry-point error occurs iff no candidate exists |
| PythonBuild.BuildPython | internal/builder/python.go:9-59 | The fallback, the dependency step and the candidate loop with `break` compute `PythonBuild` |
| GoBuild.BinaryName | internal/builder/golang.go:10-13 | The binary is `mcp-server`, with `.exe` exactly on Windows |
| GoBuild.GoBuild | internal/builder/golang.go:15-24 | Exactly the build command runs; its failure is the error; a success launches `<path>/<binary>` with no args and no env needs |
| GoBuild.BinaryInsideRepository | internal/builder/golang.go:20-24 | The command is the binary inside the repository directory |
| ClaudeCode.AfterServersSpec | internal/injector/claude_code.go:27-33 | The loop finds nothing iff no component but the last is `servers`, else it takes the successor of the first `servers` |
| ClaudeCode.Fallback | internal/injector/claude_code.go:35-37 | A derived name of "" or "." gives way to the base name of the command; any other name is kept |
| ClaudeCode.NameAsWritten | internal/injector/claude_code.go:23-37 | The name as written is never empty and is a single path component |
| ClaudeCode.DeriveNameAsWritten | internal/injector/claude_code.go:23-37 | The loop with `break` computes `NameAsWritten` |
| ClaudeCode.ServerName | internal/injector/claude_code.go:21-37 | The corrected name: for a first argument under `<cwd>/.mcp/servers/`, the clone directory; for every other launch spec exactly the source's name; never empty and a single path component |
| ClaudeCode.CorrectedAgreesAsWritten | internal/injector/claude_code.go:23-37 | When no component of the working directory is `servers`, the corrected name equals the source's name for every launch spec |
| ClaudeCode.ServerNameIsCloneDir | internal/injector/claude_code.go:21-33 | A server whose first argument lies under `<cwd>/.mcp/servers/<repo>` is named `repo`, whatever the working directory is |
| ClaudeCode.AsWrittenTakesWorkingDirectory | internal/injector/claude_code.go:25-33 | Under a working directory `/servers/<p>`, every cloned server is named `p` |
| ClaudeCode.OrderLength | internal/injector/claude_code.go:44-46 | An iteration order of the env map visits exactly its keys, once each |
| ClaudeCode.EnvFlagsShape | internal/injector/claude_code.go:44-46 | Each visited key contributes exactly `--env`, `KEY=VALUE`, at its place in the order |
| ClaudeCode.AddArgsLayout | internal/injector/claude_code.go:41-52 | The list has length 4 + 2·\|env\| + \|args\|; it starts `mcp add`; every env entry is present as a flag pair; it ends with name, command and args |
| ClaudeCode.BuildAddArgs | internal/injector/claude_code.go:41-52 | The successive appends compute `AddArgs` |
| ClaudeCode.ClaudeUpdate | internal/injector/claude_code.go:41-61 | `claude` runs once, with the add arguments for the given name; the result is an error carrying the output iff `claude` fails |
| ClaudeCode.AddServer | internal/injector/claude_code.go:41-63 | Building the argument list and running `claude` compute `ClaudeUpdate` for the given name |
| ClaudeCode.UpdateClaudeCode | internal/injector/claude_code.go:20-64 | As written: the name comes from the source's search loop (`NameAsWritten`), then `ClaudeUpdate` runs with it |
| GeminiCli.DecodeDef | internal/injector/claude_code.go:12-18 | Decoding into `McpServerDef` keeps the four known fields, drops every other field, and fails on a type mismatch |
| GeminiCli.EncodeDef | internal/injector/claude_code.go:12-18 | An encoded definition has `type`, `command` and `args`, and `env` iff the env is non-empty |
| GeminiCli.DefRoundTrip | internal/injector/claude_code.go:12-18 | Decoding an encoded definition gives it back without error |
| GeminiCli.Marshal | internal/injector/gemini_cli.go:35-42 | The output keys are the other fields plus `mcpServers`; other values are kept; `mcpServers` comes from the typed map |
| GeminiCli.GeminiConfig.UnmarshalJSON | internal/injector/gemini_cli.go:18-33 | The typed map is merged; on a decode error the method returns before `OtherFields` is set; otherwise `OtherFields` is the document without `mcpServers` |
| GeminiCli.GeminiConfig.MarshalJSON | internal/injector/gemini_cli.go:35-42 | The copy loop and the final assignment compute `Marshal` |
| GeminiCli.OtherKeysSurvive | internal/injector/gemini_cli.go:28-41 | For a document the typed decoder accepts, decode then encode keeps every top-level key other than `mcpServers`, with its value |
| GeminiCli.LoadConfig | internal/injector/gemini_cli.go:52-58 | A missing, unreadable or non-object file gives the empty config; a decode error leaves no other fields |
| GeminiCli.UpdateGeminiAsWritten | internal/injector/gemini_cli.go:44-90 | The source's update step by step through the config object computes `GeminiAsWritten` |
| GeminiCli.AsWrittenLosesUrl | internal/injector/gemini_cli.go:52-58 | As written, registering another server rewrites a remote `{type, url}` entry into `{type, command: "", args: []}`: the url is lost |
| GeminiCli.AsWrittenDropsSettings | internal/injector/gemini_cli.go:25-27 | As written, one mistyped field under `mcpServers` makes the written file keep only `mcpServers` |
| GeminiCli.UpsertServer | internal/injector/gemini_cli.go:78-83 | The upsert keeps every other top-level key and sets `mcpServers` to the old table (empty if absent or not an object) with one entry replaced |
| GeminiCli.UpsertKeepsOtherServers | internal/injector/gemini_cli.go:78-83 | Every other server entry is unchanged, whatever its shape |
| GeminiCli.UpsertIdempotent | internal/injector/gemini_cli.go:78-83 | Upserting the same entry twice equals upserting it once |
| GeminiCli.UpsertSettings | internal/injector/gemini_cli.go:44-90 | A directory failure or a write failure is an error with nothing changed; otherwise exactly the settings file changes, to the upserted document |
| GeminiCli.GeminiUpdate | internal/injector/gemini_cli.go:44-90 | The corrected update upserts the stdio entry under `ServerName`, with the same error cases |
| GeminiCli.UpdatePreserves | internal/injector/gemini_cli.go:28-41 | After the corrected update, every other top-level setting and every other server entry is unchanged, and the new entry decodes to the launch spec |
| GeminiCli.UpdateIdempotent | internal/injector/gemini_cli.go:78-83 | Registering the same server twice leaves the same settings file as once |
| Injector.RegisterSpec | internal/injector/injector.go:17-33 | Both hosts register under the corrected `ServerName`. A failure names its host: a Claude failure is a "claude configuration failed" error; any other failure is a "gemini configuration failed" error |
| Injector.Register | internal/injector/injector.go:17-33 | The loop with early return computes `RegisterSpec` |
| Injector.RegisterAppend | internal/injector/injector.go:20-29 | Tools run in list order; the tools after a failing one are never attempted |
| Injector.KnownTools | internal/injector/injector.go:21-30 | A tool is kept iff it is in the list and is one of the two known hosts |
| Injector.KnownToolsAppend | internal/injector/injector.go:20-31 | Filtering distributes over concatenation, so the known tools keep their list order |
| Injector.UnknownToolsSkipped | internal/injector/injector.go:21-30 | Unknown tool names change nothing |
| Injector.NothingToRegister | internal/injector/injector.go:20-32 | With no known tool nothing is touched and nil is returned |
| Injector.ClaudeFailureStops | internal/injector/injector.go:23-25 | A failing Claude host stops the loop before the settings file is written |
| Wizard.TypeKey | internal/tui/helpers.go:28-30 | An unfocused input ignores keys; a focused one appends a typed character |
| Wizard.TypeThenErase | internal/tui/helpers.go:28-30 | Typing a character and then backspace restores the input |
| Wizard.FreshInputs | internal/tui/installer.go:88-97 | One empty input per needed variable, in order, with only the first focused |
| Wizard.MakeInputs | internal/tui/installer.go:88-97 | The indexed loop computes `FreshInputs` |
| Wizard.MoveFocus | internal/tui/helpers.go:16-24 | Moving the focus keeps every name and value and keeps exactly one input focused |
| Wizard.EnvKey | internal/tui/helpers.go:9-31 | "enter" on the last input confirms with nothing changed; on an earlier one the focus advances by one; "tab" sets the focus to (focus+1) mod n; other keys go to the focused input; the focus stays in range and exactly one input stays focused |
| Wizard.TabCycle | internal/tui/helpers.go:21-25 | After n tabs the focus is (focus+n) mod the input count |
| Wizard.ClientKey | internal/tui/helpers.go:34-44 | up/k and down/j move the cursor within [0, count-1]; space toggles only the entry under the cursor; other keys leave the selection; "enter" confirms |
| Wizard.ToggleTwice | internal/tui/helpers.go:43-44 | Toggling the same entry twice restores the selection |
| Wizard.DownThenUp | internal/tui/helpers.go:35-42 | Down then up returns to the same entry when there is room |
| Wizard.SelectedTools | internal/tui/helpers.go:57-63 | The tool list has Claude iff entry 0 is on and Gemini iff entry 1 is on, in that order |
| Wizard.RegisterClients | internal/tui/helpers.go:75-85 | The appends and `Register` compute `RegisterSpec` over `SelectedTools` |
| Wizard.NothingSelected | internal/tui/updater.go:205-213 | With no host selected, registering touches nothing and succeeds |
| Wizard.GatherEnv | internal/tui/helpers.go:48-54 | The gathered map's keys are exactly the needed variables |
| Wizard.GatherEnvValues | internal/tui/helpers.go:51-53 | Each variable gets the value of the input at its last occurrence |
| Wizard.GatherAll | internal/tui/helpers.go:49-54 | The install wizard's loop computes `GatherEnv` |
| Wizard.GatherPresent | internal/tui/updater.go:196-203 | The update wizard's loop skips indices without an input: it computes `GatherEnv` over the needs that have one |
| Installer.InitialState | internal/tui/installer.go:41-60 | The wizard starts fetching, valid, with both hosts selected, cursor and focus 0 and no inputs |
| Installer.StepKeepsValid | internal/tui/installer.go:66-114 | Every expected message keeps the invariant: focus and cursor in range, one input per needed variable, exactly one input focused |
| Installer.QuitKeys | internal/tui/installer.go:68-71 | ctrl+c and esc quit from every phase without changing anything |
| Installer.IdleKeys | internal/tui/installer.go:66-77 | Other keys while fetching, building or done change nothing |
| Installer.FetchedStartsBuild | internal/tui/installer.go:79-82 | The fetched path is recorded, the phase becomes building, and its build is started |
| Installer.BuiltOpensInputs | internal/tui/installer.go:84-101 | A build that needs variables opens one empty input per variable with only the first focused; one that needs none goes to host selection |
| Installer.FailureQuits | internal/tui/installer.go:103-105 | An error is recorded and the wizard quits |
| Installer.EnterInInputs | internal/tui/helpers.go:11-19 | "enter" on the last input moves to host selection with the focus kept; on an earlier input it advances the focus |
| Installer.EnterRegisters | internal/tui/helpers.go:45-70 | "enter" in host selection finishes, registers each typed value with exactly the selected hosts, records a registration error, and quits |
| Installer.InstallModel.constructor | internal/tui/installer.go:41-60 | The new model is the initial state and is valid |
| Installer.InstallModel.UpdateEnvInputs | internal/tui/helpers.go:9-31 | The in-place updates compute the input-list step |
| Installer.InstallModel.UpdateClientSelection | internal/tui/helpers.go:33-73 | The in-place updates and the registration compute the host-selection step |
| Installer.InstallModel.Update | internal/tui/installer.go:66-114 | The new fields, command and workstation are the transition of the old state, and the invariant holds again |
| Updater.InitialState | internal/tui/updater.go:39-58 | The wizard starts building (there is no fetch phase), valid, with both hosts selected |
| Updater.StepKeepsValid | internal/tui/updater.go:64-107 | Every expected message keeps the invariant |
| Updater.QuitAndStrayMessages | internal/tui/updater.go:66-69 | ctrl+c and esc quit without change; a fetch message changes nothing |
| Updater.BuiltOpensInputs | internal/tui/updater.go:77-94 | One input per variable, only the first focused, or straight to host selection |
| Updater.FailureQuits | internal/tui/updater.go:96-98 | An error is recorded and the wizard quits |
| Updater.EnterIsUnguarded | internal/tui/updater.go:192-214 | On reachable states the `i < len(inputs)` guard and the "any host selected" guard change nothing: "enter" registers exactly as the install wizard does |
| Updater.UpdateModel.constructor | internal/tui/updater.go:39-58 | The new model is the initial state and is valid |
| Updater.UpdateModel.UpdateEnvInputs | internal/tui/updater.go:156-178 | The in-place updates compute the input-list step |
| Updater.UpdateModel.UpdateClientSelection | internal/tui/updater.go:180-217 | The in-place updates compute the host-selection step |
| Updater.UpdateModel.Confirm | internal/tui/updater.go:192-214 | Gathering, conditional registration and quitting compute the "enter" step |
| Updater.UpdateModel.Update | internal/tui/updater.go:64-107 | The new fields, command and workstation are the transition of the old state, and the invariant holds again |
| AddCommand.Targets | cmd/add.go:55-59 | The flagged hosts, or both when neither flag is given |
| AddCommand.ParsedEnvKeys | cmd/add.go:62-68 | A key is parsed iff some flag defines it before its first `=` |
| AddCommand.ParsedEnvLastWins | cmd/add.go:62-68 | A key's value is what follows the first `=` of its last defining flag |
| AddCommand.ParseEnv | cmd/add.go:62-68 | The loop computes `ParsedEnv` |
| AddCommand.DetectTransport | cmd/add.go:70-77 | An explicit transport is kept; otherwise "http" iff the target starts with http:// or https://, else "stdio" |
| AddCommand.ClaudeAddArgsLayout | cmd/add.go:101-112 | The list is `mcp add --transport T`, one flag pair per variable, then name, target and args; its length is 6 + 2·\|env\| + \|args\| |
| AddCommand.BuildClaudeAddArgs | cmd/add.go:99-112 | The appends compute `ClaudeAddArgs` |
| AddCommand.AddToClaude | cmd/add.go:114-123 | `claude` runs once with those arguments; an error carries the output iff it fails |
| AddCommand.GeminiEntry | cmd/add.go:150-166 | A remote transport (http, sse) gives `{type, url}`; any other gives `{type: stdio, command, args}`; `env` is present iff there are variables |
| AddCommand.GeminiEntryKeys | cmd/add.go:150-166 | The entry has no other field |
| AddCommand.AddToGeminiEffect | cmd/add.go:126-177 | A successful add writes exactly the upserted document: other settings and servers are kept and a missing or non-object table starts empty; adding twice equals adding once |
| AddCommand.AddSpec | cmd/add.go:81-95 | Exactly the targeted hosts are tried |
| AddCommand.Add | cmd/add.go:50-96 | The command's steps compute `AddSpec` |
| AddCommand.HostsIndependent | cmd/add.go:81-95 | The file-merge host's outcome and the settings files do not depend on how `claude` answered |
| RemoveCommand.Scope | cmd/remove.go:48-51 | "user" iff global, else "local" |
| RemoveCommand.RemoveFromClaude | cmd/remove.go:79-93 | `claude mcp remove --scope S name` runs once; an error carries the output iff it fails |
| RemoveCommand.ConfigPath | cmd/remove.go:96-108 | The home directory's settings file when global (none when the home is unknown), the working directory's otherwise |
| RemoveCommand.DeleteServer | cmd/remove.go:136-137 | Exactly the entry `name` leaves the table; all other keys are kept |
| RemoveCommand.DeleteUndoesUpsert | cmd/remove.go:136-137 | Removing a server just added to a table that lacked it gives back the original document |
| RemoveCommand.RemoveFromGemini | cmd/remove.go:95-145 | The checks in order and the in-place delete compute `RemoveFromGeminiSpec` |
| RemoveCommand.RemoveErrors | cmd/remove.go:98-133 | An unknown home, a missing file, invalid JSON and an absent server each give their own error and write nothing |
| RemoveCommand.RemoveDeletesExactly | cmd/remove.go:136-144 | On success only the settings file changes, its keys are kept and its server table loses exactly `name` |
| RemoveCommand.RemoveSpec | cmd/remove.go:53-75 | Exactly the targeted hosts are tried |
| RemoveCommand.RemoveHostsIndependent | cmd/remove.go:53-75 | The file-merge host's outcome does not depend on how `claude` answered |
| InstallCommand.ParseScheme | cmd/install.go:51-69 | A shorthand gives an https URL ending in .git and its host label; anything else passes through as "Custom URL" (when it starts with "http") or "Unknown" |
| InstallCommand.Shorthands | cmd/install.go:53-63 | `gl:rh:@X`, `gl:@X` and `@X` map to the Red Hat GitLab, GitLab and GitHub URLs of X with their labels |
| InstallCommand.PassThrough | cmd/install.go:64-68 | The input comes back unchanged iff it is not a shorthand |
| InstallCommand.InstallWizard | cmd/install.go:35-43 | The wizard starts fetching the parsed URL, showing the reference as typed |
| Fetcher.RepoName | internal/fetcher/git.go:27-28 | The name is the URL's last `/` segment with one trailing `.git` removed, and contains no `/` |
| Fetcher.RepoNameOfGitUrl | internal/fetcher/git.go:27-28 | A URL ending in `/<repo>.git` gives `repo` |
| Fetcher.CloneSpec | internal/fetcher/git.go:14-54 | An error comes with an empty path; a success is `<cwd>/.mcp/servers/<name>`, which then exists; at most one clone happens |
| Fetcher.Clone | internal/fetcher/git.go:14-54 | The sequential effects with early returns compute `CloneSpec` |
| Fetcher.ExistingTargetReused | internal/fetcher/git.go:34-38 | An existing target directory is returned without cloning |
| Fetcher.MissingTargetCloned | internal/fetcher/git.go:40-48 | A missing target is cloned once; a clone failure is an error with an empty path |
| Fetcher.TrailingSlashReturnsServersDir | internal/fetcher/git.go:27-38 | A URL ending in `/` names no repository: the servers directory itself is returned and nothing is cloned |
| Fetcher.CloneTwice | internal/fetcher/git.go:34-38 | Cloning the same URL twice clones once and returns the same path |
| Pipeline.ShorthandCloneDir | internal/fetcher/git.go:27-32 | Every shorthand `<prefix><org>/<repo>` is cloned into a directory named `repo` |
| Pipeline.ClonedPythonServerName | internal/injector/claude_code.go:21-33 | A Python server built in the directory `Clone` returned is registered under that directory's name |
| Pipeline.InstalledPythonServerName | cmd/install.go:61-63 | `install @org/repo` of a Python server registers it as `repo` |
| Pipeline.GoServersShareName | internal/builder/golang.go:20-24 | A Go server has no arguments, so every Go server is registered as "mcp-server" |

## Left out

- Paths use `/` only. Go's Windows separator, `filepath.Clean` and `filepath.Abs` are not modelled. `Join` drops empty operands and otherwise inserts one `/`.
- The machine is a value, and `os.Stat`, `os.ReadDir`, `exec.LookPath`, `os.Getwd`, `os.UserHomeDir` and `runtime.GOOS` are fields of it. Shell selection and process execution in `internal/builder/shell.go` are left out; only its empty-command rule is kept.
- `git.PlainClone` is an oracle (a set of URLs whose clone fails). The half-second sleep after a clone is left out, and so is any directory a failed clone leaves behind.
- JSON is a `Value` tree: byte encoding, indentation, number formats, `RawMessage`, key case-folding in Go's decoder and marshalling errors are left out. A settings file holding `null` reads as an empty object, which is how all three readers treat it.
- Go's map iteration order for the `--env` flags is a parameter (`order`), required only to visit keys of the map; `IsOrder` says it visits each key once.
- `Injector.Register`: the callers pass a fourth `global` argument that `Register` (internal/injector/injector.go:17) does not declare; the model accepts it and ignores it, so the file-merge host is always written under the working directory.
- `Injector.RegisterSpec`, `Injector.Register` and the wizards use the corrected name (`ClaudeCode.ServerName`, passed to `ClaudeCode.ClaudeUpdate`) and the corrected settings update (`GeminiCli.GeminiUpdate`). The source's versions are modelled beside them (`ClaudeCode.UpdateClaudeCode`, `GeminiCli.UpdateGeminiAsWritten`). The corrected name differs from the source's only for a first argument under `<cwd>/.mcp/servers/` when the working directory has a `servers` component (`ClaudeCode.CorrectedAgreesAsWritten`).
- The wizards' message order is a precondition (`Expected`): the fetch result arrives only while fetching and the build result only while building, as the runtime delivers them. The Go `Update` does not check this, and a second build message would reuse a stale focus index.
- Bubble Tea itself is left out: `Init`, `tea.Batch`, the spinner (its tick returns `SpinnerCmd`), `View`, `styles.go`, and the text input's cursor, placeholder, blink command and editing keys other than backspace and single characters.
- The install wizard's "enter" branch calls `Register` directly, while the update wizard goes through `registerClients` (internal/tui/helpers.go:76-85). Both build the same tool list, so both are modelled by `Wizard.RegisterClients`.
- `NodeBuild.Manager` has no contract of its own; the method `BuildNode` proves the source's reassignments (yarn, then pnpm overriding it) equal to it.
- Printing of outcomes and `os.Exit` in the commands, cobra flag wiring, and the `list` and `update` commands (they only print and call fetcher functions that are not part of this model).
- Nil versus empty slices and maps are not distinguished, except for the server table, where a nil map is `None`.

## Findings

| source | as written | input that shows it | evidently intended | confidence | as-written member | corrected member |
|---|---|---|---|---|---|---|
| internal/injector/claude_code.go:25-33 | The name is the component after the first `servers` component anywhere in the first argument's path | Working directory `/servers/app`, server cloned into `/servers/app/.mcp/servers/weather`: it is registered as `app` | The name of the clone directory under `<cwd>/.mcp/servers/` (`weather`) | high, not executed | ClaudeCode.AsWrittenTakesWorkingDirectory | ClaudeCode.ServerNameIsCloneDir |
| internal/injector/gemini_cli.go:52-58 | Every existing server entry is decoded into `McpServerDef` and re-encoded on each registration | A settings file with `{"mcpServers": {"docs": {"type": "http", "url": "https://x"}}}`: after registering another server, `docs` has no `url` | Entries other than the one being registered are kept as they were | high, not executed | GeminiCli.AsWrittenLosesUrl | GeminiCli.UpdatePreserves |
| internal/injector/gemini_cli.go:25-27 | On a type mismatch under `mcpServers`, `UnmarshalJSON` returns before `OtherFields` is set, and the error is ignored | `{"theme": "dark", "mcpServers": {"x": {"args": "--verbose"}}}`: the written file keeps only `mcpServers` | Every other top-level setting is kept | high, not executed | GeminiCli.AsWrittenDropsSettings | GeminiCli.UpsertSettings |
