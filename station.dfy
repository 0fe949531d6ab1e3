/** The operator's machine as the configuration code sees it: the working and
    home directories, the settings files on disk, which directories and files
    cannot be created or written, and how the `claude` executable answers.
    Every `claude` invocation is recorded so that argument lists can be stated. */
module Station {
  import opened Common
  import opened Json

  datatype Workstation = Workstation(
    cwd: string,
    home: Option<string>,            // `os.UserHomeDir`; None when it fails
    files: map<string, FileState>,   // settings files by path; a path not here is missing
    mkdirFails: set<string>,         // directories `os.MkdirAll` cannot create
    writeFails: set<string>,         // files `os.WriteFile` cannot write
    claudeFailure: Option<string>,   // combined output of a non-zero `claude` exit; None: exit 0
    claudeCalls: seq<seq<string>>    // argument lists passed to `claude`, oldest first
  )

  function ReadFile(w: Workstation, path: string): (f: FileState)
    ensures path !in w.files ==> f == Missing
  {
    if path in w.files then w.files[path] else Missing
  }

  /** `os.WriteFile` of a marshalled document: on success the file reads back as `doc`. */
  function WriteFile(w: Workstation, path: string, doc: Doc): (r: (bool, Workstation))
    ensures r.0 <==> path !in w.writeFails
    ensures r.0 ==> r.1 == w.(files := w.files[path := Parsed(doc)])
    ensures !r.0 ==> r.1 == w
  {
    if path in w.writeFails then (false, w) else (true, w.(files := w.files[path := Parsed(doc)]))
  }

  /** Runs `claude args...`; returns the combined output of a failing run. */
  function RunClaude(w: Workstation, args: seq<string>): (r: (Option<string>, Workstation))
    ensures r.0 == w.claudeFailure
    ensures r.1 == w.(claudeCalls := w.claudeCalls + [args])
  {
    (w.claudeFailure, w.(claudeCalls := w.claudeCalls + [args]))
  }

  /** The settings file of the file-merge host under a directory. */
  function SettingsPath(dir: string): string {
    Join(Join(dir, ".gemini"), "settings.json")
  }
}
