/** Shell-completion generation and installation, cli/completions/generate.py.

    The environment the source consults (the `SHELL` variable, the home directory, which
    directories are writable, which filesystem operations raise and with what text) is an
    `Env` value; running `lastagent` under `_LASTAGENT_COMPLETE` is an `Outcome` given by
    the caller. The directories and files that exist, and those the installer creates, live
    in a `Host` object. */
module Completions {
  import opened Common

  // ---------------------------------------------------------------------------
  // Shell detection
  // ---------------------------------------------------------------------------

  predicate IsSupported(shell: string) {
    shell == "zsh" || shell == "bash" || shell == "fish"
  }

  /** `detect_shell`: a missing `SHELL` reads as "", and "zsh" is looked for before "bash",
      "bash" before "fish". */
  function DetectShell(shellVar: Option<string>): Option<string> {
    var shell := shellVar.GetOr("");
    if Contains(shell, "zsh") then Some("zsh")
    else if Contains(shell, "bash") then Some("bash")
    else if Contains(shell, "fish") then Some("fish")
    else None
  }

  lemma EmptyContainsNoShell(sub: string)
    requires sub != ""
    ensures !Contains("", sub)
  {
  }

  /** Each answer is a supported shell and is given exactly when its name occurs in `SHELL`
      and no name checked before it does; no `SHELL` gives no answer. */
  lemma DetectShellFacts(shellVar: Option<string>)
    ensures DetectShell(shellVar).Some? ==> IsSupported(DetectShell(shellVar).value)
    ensures var s := shellVar.GetOr("");
            (DetectShell(shellVar) == Some("zsh") <==> Contains(s, "zsh")) &&
            (DetectShell(shellVar) == Some("bash") <==> !Contains(s, "zsh") && Contains(s, "bash")) &&
            (DetectShell(shellVar) == Some("fish") <==> !Contains(s, "zsh") && !Contains(s, "bash") && Contains(s, "fish")) &&
            (DetectShell(shellVar) == None <==> !Contains(s, "zsh") && !Contains(s, "bash") && !Contains(s, "fish"))
    ensures shellVar.None? ==> DetectShell(shellVar) == None
  {
    EmptyContainsNoShell("zsh");
    EmptyContainsNoShell("bash");
    EmptyContainsNoShell("fish");
  }

  /** A `SHELL` naming zsh is taken for zsh whatever else it names, and one naming bash
      but not zsh is taken for bash even if it names fish. */
  lemma ZshWinsOverBash(s: string)
    ensures Contains(s, "zsh") ==> DetectShell(Some(s)) == Some("zsh")
    ensures !Contains(s, "zsh") && Contains(s, "bash") ==> DetectShell(Some(s)) == Some("bash")
  {
  }

  // ---------------------------------------------------------------------------
  // Completion scripts
  // ---------------------------------------------------------------------------

  const Commands: seq<string> := ["chat", "agents", "server", "workflow", "mcp", "config", "init"]
  const Options: seq<string> := ["--help", "--version", "--no-color", "--yolo", "--interactive"]

  function ZshLines(commands: seq<string>, options: seq<string>): seq<string> {
    [ "#compdef lastagent",
      "",
      "_lastagent() {",
      "    local -a commands options",
      "    commands=(" + Join(" ", commands) + ")",
      "    options=(" + Join(" ", options) + ")",
      "    ",
      "    _arguments \\",
      "        '1: :->command' \\",
      "        '*: :->args'",
      "    ",
      "    case $state in",
      "        command)",
      "            _describe 'command' commands",
      "            ;;",
      "        args)",
      "            _describe 'option' options",
      "            ;;",
      "    esac",
      "}",
      "",
      "_lastagent \"$@\"" ]
  }

  function BashLines(commands: seq<string>, options: seq<string>): seq<string> {
    [ "# bash completion for lastagent",
      "",
      "_lastagent() {",
      "    local cur prev commands options",
      "    COMPREPLY=()",
      "    cur=\"${COMP_WORDS[COMP_CWORD]}\"",
      "    prev=\"${COMP_WORDS[COMP_CWORD-1]}\"",
      "    commands=\"" + Join(" ", commands) + "\"",
      "    options=\"" + Join(" ", options) + "\"",
      "    ",
      "    if [[ ${COMP_CWORD} == 1 ]]; then",
      "        COMPREPLY=( $(compgen -W \"$commands $options\" -- $cur) )",
      "    else",
      "        COMPREPLY=( $(compgen -W \"$options\" -- $cur) )",
      "    fi",
      "}",
      "",
      "complete -F _lastagent lastagent" ]
  }

  const FishHeader: seq<string> := ["# fish completion for lastagent", ""]
  const FishSubcommandPrefix := "complete -c lastagent -n '__fish_use_subcommand' -a "
  const FishOptionLines: seq<string> := [
    "complete -c lastagent -l help -d 'Show help'",
    "complete -c lastagent -l version -s v -d 'Show version'",
    "complete -c lastagent -l no-color -d 'Disable color'",
    "complete -c lastagent -l yolo -s y -d 'YOLO mode'"]

  function FishSubcommandLines(commands: seq<string>): seq<string> {
    seq(|commands|, i requires 0 <= i < |commands| => FishSubcommandPrefix + commands[i])
  }

  /** The fish script for `commands`: header, the subcommand lines joined by newlines, then
      the option lines. */
  function FishScript(commands: seq<string>): string {
    Lines(FishHeader) + Join("\n", FishSubcommandLines(commands)) + "\n" + Lines(FishOptionLines)
  }

  /** `_generate_basic_completion` */
  function BasicCompletion(shell: string): string {
    if shell == "zsh" then Lines(ZshLines(Commands, Options))
    else if shell == "bash" then Lines(BashLines(Commands, Options))
    else if shell == "fish" then FishScript(Commands)
    else ""
  }

  lemma LinesNonEmpty(lines: seq<string>)
    requires lines != []
    ensures Lines(lines) != []
  {
    assert |Lines(lines)| >= |lines[0] + "\n"|;
  }

  /** The fallback script is empty exactly for a shell it has no template for. */
  lemma BasicCompletionEmptyIffUnsupported(shell: string)
    ensures BasicCompletion(shell) == "" <==> !IsSupported(shell)
  {
    var zsh := ZshLines(Commands, Options);
    var bash := BashLines(Commands, Options);
    LinesNonEmpty(zsh);
    LinesNonEmpty(bash);
    LinesNonEmpty(FishHeader);
  }

  /** The fish script is its header, then one `__fish_use_subcommand` line per command in
      list order, then the option lines, each line ended by a newline. */
  lemma FishScriptLines(commands: seq<string>)
    requires commands != []
    ensures FishScript(commands) ==
              Lines(FishHeader) + Lines(FishSubcommandLines(commands)) + Lines(FishOptionLines)
    ensures |FishSubcommandLines(commands)| == |commands|
    ensures forall i :: 0 <= i < |commands| ==>
              FishSubcommandLines(commands)[i] == FishSubcommandPrefix + commands[i]
  {
    JoinedBetween(Lines(FishHeader), FishSubcommandLines(commands), Lines(FishOptionLines));
  }

  /** Non-empty `lines` joined by newlines and followed by one more newline, between any two
      texts, are the file made of those lines. */
  lemma JoinedBetween(head: string, lines: seq<string>, tail: string)
    requires lines != []
    ensures head + Join("\n", lines) + "\n" + tail == head + Lines(lines) + tail
  {
    JoinThenNewline(lines);
    assert head + Join("\n", lines) + "\n" + tail == head + (Join("\n", lines) + "\n") + tail;
  }

  /** `generate_completion_script`: `run` is what running `lastagent` with
      `_LASTAGENT_COMPLETE=<shell>_source` gave, its standard output or the exception it
      raised. Only an exception falls back to the built-in script. */
  function GenerateCompletionScript(shell: string, run: Outcome<string>): string {
    match run
    case Ok(stdout) => stdout
    case Raise(_) => BasicCompletion(shell)
  }

  /** A run that returns gives its output, even an empty one; a run that raises gives the
      built-in script, which is empty only for an unsupported shell. */
  lemma GenerateCompletionScriptFacts(shell: string, run: Outcome<string>)
    ensures run.Ok? ==> GenerateCompletionScript(shell, run) == run.value
    ensures run.Raise? ==> (GenerateCompletionScript(shell, run) == "" <==> !IsSupported(shell))
  {
    BasicCompletionEmptyIffUnsupported(shell);
  }

  // ---------------------------------------------------------------------------
  // Where the script goes
  // ---------------------------------------------------------------------------

  /** An absolute path as its components; `/` is `[]`. */
  type Path = seq<string>

  /** `str(path)` */
  function PathText(p: Path): string {
    "/" + Join("/", p)
  }

  const BashCompletionDir: Path := ["etc", "bash_completion.d"]

  /** What the installer consults: `$SHELL`, `Path.home()`, the directories `os.access`
      reports writable, and the paths whose `mkdir` or `write_text` raises, with the text
      of the exception. */
  datatype Env = Env(shellVar: Option<string>, home: Path, writable: set<Path>, failures: map<Path, string>)

  /** The directory `get_completion_path` settles on, the file name in it, and how it makes
      sure the directory exists: not at all, `mkdir(exist_ok=True)`, or
      `mkdir(parents=True, exist_ok=True)`. */
  datatype MkdirMode = NoMkdir | Mkdir | MkdirParents
  datatype Target = Target(dir: Path, fileName: string, mkdir: MkdirMode)

  /** The decision `get_completion_path` takes for `shell`, given the paths that exist
      (directories and regular files alike, as `Path.exists()` answers). */
  function CompletionTarget(shell: string, home: Path, existing: set<Path>, writable: set<Path>): Outcome<Target> {
    if shell == "zsh" then
      if home + [".oh-my-zsh"] in existing then Ok(Target(home + [".oh-my-zsh", "completions"], "_lastagent", Mkdir))
      else Ok(Target(home + [".zsh", "completions"], "_lastagent", MkdirParents))
    else if shell == "bash" then
      if BashCompletionDir in existing && BashCompletionDir in writable then Ok(Target(BashCompletionDir, "lastagent", NoMkdir))
      else Ok(Target(home + [".local", "share", "bash-completion", "completions"], "lastagent", MkdirParents))
    else if shell == "fish" then Ok(Target(home + [".config", "fish", "completions"], "lastagent.fish", MkdirParents))
    else Raise("Unsupported shell: " + shell)
  }

  /** Only the three supported shells have a target, and any other raises the `ValueError`
      naming it; the file is `_lastagent` for zsh, `lastagent` for bash and `lastagent.fish`
      for fish; zsh uses the oh-my-zsh directory iff `~/.oh-my-zsh` exists (as a directory
      or as a file), and bash uses `/etc/bash_completion.d` iff it exists and is writable. */
  lemma CompletionTargetFacts(shell: string, home: Path, existing: set<Path>, writable: set<Path>)
    ensures CompletionTarget(shell, home, existing, writable).Ok? <==> IsSupported(shell)
    ensures !IsSupported(shell) ==> CompletionTarget(shell, home, existing, writable) == Raise("Unsupported shell: " + shell)
    ensures shell == "zsh" ==> CompletionTarget(shell, home, existing, writable).value.fileName == "_lastagent"
    ensures shell == "bash" ==> CompletionTarget(shell, home, existing, writable).value.fileName == "lastagent"
    ensures shell == "fish" ==> CompletionTarget(shell, home, existing, writable).value.fileName == "lastagent.fish"
    ensures shell == "zsh" ==>
              (CompletionTarget(shell, home, existing, writable).value.dir == home + [".oh-my-zsh", "completions"]
               <==> home + [".oh-my-zsh"] in existing)
    ensures shell == "bash" ==>
              (CompletionTarget(shell, home, existing, writable).value.dir == BashCompletionDir
               <==> BashCompletionDir in existing && BashCompletionDir in writable)
  {
    if shell == "zsh" {
      assert (home + [".zsh", "completions"])[|home|] != (home + [".oh-my-zsh", "completions"])[|home|];
    }
  }

  /** Every directory `mkdir(parents=True)` leaves behind: `p` and its ancestors. */
  function Prefixes(p: Path): set<Path> {
    set k | 1 <= k <= |p| :: p[..k]
  }

  /** The exception `mkdir` raises for `t`, if any: none when the directory already exists. */
  function MkdirFailure(t: Target, dirs: set<Path>, failures: map<Path, string>): Option<string> {
    if t.mkdir != NoMkdir && t.dir !in dirs && t.dir in failures then Some(failures[t.dir]) else None
  }

  /** The directories `mkdir` adds for `t`. */
  function Created(t: Target, dirs: set<Path>, failures: map<Path, string>): set<Path> {
    if t.mkdir == NoMkdir || t.dir in dirs || t.dir in failures then {}
    else if t.mkdir == Mkdir then {t.dir}
    else Prefixes(t.dir)
  }

  /** `get_completion_path` given the existing directories and files: the path of the
      script file, or the exception raised on the way. */
  function CompletionPath(shell: string, env: Env, dirs: set<Path>, files: set<Path>): Outcome<Path> {
    match CompletionTarget(shell, env.home, dirs + files, env.writable)
    case Raise(e) => Raise(e)
    case Ok(t) =>
      match MkdirFailure(t, dirs, env.failures)
      case Some(e) => Raise(e)
      case None => Ok(t.dir + [t.fileName])
  }

  /** The directories `get_completion_path` adds. */
  function CompletionDirsCreated(shell: string, env: Env, dirs: set<Path>, files: set<Path>): set<Path> {
    match CompletionTarget(shell, env.home, dirs + files, env.writable)
    case Raise(_) => {}
    case Ok(t) => Created(t, dirs, env.failures)
  }

  // ---------------------------------------------------------------------------
  // Installation
  // ---------------------------------------------------------------------------

  const NoShellMessage := "Could not detect shell. Please specify: bash, zsh, or fish"
  const GenerateFailedPrefix := "Failed to generate completion script for "
  const InstallFailedPrefix := "Failed to install completion: "
  const InstalledPrefix := "Completion installed to "

  /** What the success message adds after the path: shell-specific instructions. */
  function Instructions(shell: string, path: Path): string
    requires path != []
  {
    if shell == "zsh" then
      "\n\nAdd this to your ~/.zshrc if not using oh-my-zsh:\n    fpath=("
      + PathText(path[..|path| - 1]) + " $fpath)\n    autoload -Uz compinit && compinit\n\nThen reload your shell: source ~/.zshrc"
    else if shell == "bash" then
      "\n\nAdd this to your ~/.bashrc:\n    source " + PathText(path) + "\n\nThen reload your shell: source ~/.bashrc"
    else if shell == "fish" then
      "\n\nFish will automatically load completions from this directory.\nReload with: source ~/.config/fish/config.fish"
    else ""
  }

  /** The success message: `Completion installed to <path>` and the instructions. */
  function InstalledMessage(shell: string, path: Path): string
    requires path != []
  {
    InstalledPrefix + PathText(path) + Instructions(shell, path)
  }

  /** The shell `install_completion` works for: the one given, else the detected one. */
  function ChosenShell(shell: Option<string>, shellVar: Option<string>): Option<string> {
    if shell.Some? then shell else DetectShell(shellVar)
  }

  /** The result of `install_completion`: its `(success, message)` pair, the directories it
      created and the file it wrote. */
  datatype Installation = Installation(success: bool, message: string, created: set<Path>, written: Option<(Path, string)>)

  function Install(shell: Option<string>, run: Outcome<string>, env: Env, dirs: set<Path>, files: set<Path>): Installation {
    match ChosenShell(shell, env.shellVar)
    case None => Installation(false, NoShellMessage, {}, None)
    case Some(s) =>
      var script := GenerateCompletionScript(s, run);
      if script == "" then Installation(false, GenerateFailedPrefix + s, {}, None)
      else
        var created := CompletionDirsCreated(s, env, dirs, files);
        match CompletionPath(s, env, dirs, files)
        case Raise(e) => Installation(false, InstallFailedPrefix + e, created, None)
        case Ok(path) =>
          if path in env.failures then Installation(false, InstallFailedPrefix + env.failures[path], created, None)
          else Installation(true, InstalledMessage(s, path), created, Some((path, script)))
  }

  /** Without a shell to work for, nothing is generated, created or written. */
  lemma InstallWithoutShell(shell: Option<string>, run: Outcome<string>, env: Env, dirs: set<Path>, files: set<Path>)
    requires ChosenShell(shell, env.shellVar).None?
    ensures Install(shell, run, env, dirs, files) == Installation(false, NoShellMessage, {}, None)
    ensures shell.None? && env.shellVar.None? ==> ChosenShell(shell, env.shellVar).None?
  {
    DetectShellFacts(env.shellVar);
  }

  /** An empty script is reported for its shell, and nothing is created or written. */
  lemma InstallWithEmptyScript(shell: Option<string>, run: Outcome<string>, env: Env, dirs: set<Path>, files: set<Path>)
    requires ChosenShell(shell, env.shellVar).Some?
    requires GenerateCompletionScript(ChosenShell(shell, env.shellVar).value, run) == ""
    ensures Install(shell, run, env, dirs, files) ==
              Installation(false, GenerateFailedPrefix + ChosenShell(shell, env.shellVar).value, {}, None)
  {
  }

  /** With a non-empty script, the call succeeds exactly when the completion path is found and
      writing to it does not raise; it then writes the script there and names the path in its
      message. Otherwise it writes nothing and reports the exception's text. */
  lemma InstallWithScript(shell: Option<string>, run: Outcome<string>, env: Env, dirs: set<Path>, files: set<Path>)
    requires ChosenShell(shell, env.shellVar).Some?
    requires GenerateCompletionScript(ChosenShell(shell, env.shellVar).value, run) != ""
    ensures var s := ChosenShell(shell, env.shellVar).value;
            var r := Install(shell, run, env, dirs, files);
            var path := CompletionPath(s, env, dirs, files);
            (r.success <==> path.Ok? && path.value !in env.failures) &&
            (r.success ==> r.written == Some((path.value, GenerateCompletionScript(s, run))) &&
                           StartsWith(r.message, InstalledPrefix + PathText(path.value))) &&
            (!r.success ==> r.written.None? && StartsWith(r.message, InstallFailedPrefix))
  {
    var s := ChosenShell(shell, env.shellVar).value;
    var r := Install(shell, run, env, dirs, files);
    var path := CompletionPath(s, env, dirs, files);
    if r.success {
      assert r.message == InstalledPrefix + PathText(path.value) + Instructions(s, path.value);
    } else if path.Raise? {
      assert r.message == InstallFailedPrefix + path.message;
    } else {
      assert r.message == InstallFailedPrefix + env.failures[path.value];
    }
  }

  /** The path is found exactly for a supported shell whose directory `mkdir` can make. */
  lemma CompletionPathFacts(shell: string, env: Env, dirs: set<Path>, files: set<Path>)
    ensures CompletionPath(shell, env, dirs, files).Ok? <==>
              IsSupported(shell) &&
              MkdirFailure(CompletionTarget(shell, env.home, dirs + files, env.writable).value, dirs, env.failures).None?
    ensures CompletionPath(shell, env, dirs, files).Ok? ==>
              var t := CompletionTarget(shell, env.home, dirs + files, env.writable).value;
              CompletionPath(shell, env, dirs, files).value == t.dir + [t.fileName]
  {
    CompletionTargetFacts(shell, env.home, dirs + files, env.writable);
  }

  /** An unsupported shell never installs: with no built-in script the generation fails, and
      with output from `lastagent` the path lookup raises. */
  lemma UnsupportedShellNeverInstalls(s: string, run: Outcome<string>, env: Env, dirs: set<Path>, files: set<Path>)
    requires !IsSupported(s)
    ensures var r := Install(Some(s), run, env, dirs, files);
            !r.success && r.written.None? &&
            (run.Raise? ==> r.message == GenerateFailedPrefix + s) &&
            (run.Ok? && run.value != "" ==> r.message == InstallFailedPrefix + "Unsupported shell: " + s)
  {
    BasicCompletionEmptyIffUnsupported(s);
  }

  /** The machine the installer runs on. */
  class Host {
    const env: Env
    var dirs: set<Path>
    var files: map<Path, string>

    constructor (env: Env, dirs: set<Path>, files: map<Path, string>)
      ensures this.env == env && this.dirs == dirs && this.files == files
    {
      this.env := env;
      this.dirs := dirs;
      this.files := files;
    }

    /** `Path(dir).mkdir(parents=..., exist_ok=True)`. */
    method MakeDir(dir: Path, parents: bool) returns (failure: Option<string>)
      modifies this
      ensures failure == (if dir !in old(dirs) && dir in env.failures then Some(env.failures[dir]) else None)
      ensures dirs == old(dirs) + (if dir in old(dirs) || dir in env.failures then {} else if parents then Prefixes(dir) else {dir})
      ensures files == old(files)
    {
      if dir in dirs {
        return None;
      }
      if dir in env.failures {
        return Some(env.failures[dir]);
      }
      dirs := dirs + if parents then Prefixes(dir) else {dir};
      failure := None;
    }

    /** `path.write_text(text)`. */
    method WriteText(path: Path, text: string) returns (failure: Option<string>)
      modifies this
      ensures failure == (if path in env.failures then Some(env.failures[path]) else None)
      ensures files == if path in env.failures then old(files) else old(files)[path := text]
      ensures dirs == old(dirs)
    {
      if path in env.failures {
        return Some(env.failures[path]);
      }
      files := files[path := text];
      failure := None;
    }

    /** `get_completion_path` */
    method GetCompletionPath(shell: string) returns (r: Outcome<Path>)
      modifies this
      ensures r == CompletionPath(shell, env, old(dirs), old(files).Keys)
      ensures dirs == old(dirs) + CompletionDirsCreated(shell, env, old(dirs), old(files).Keys)
      ensures files == old(files)
    {
      var home := env.home;
      var dir: Path;
      var name: string;
      var failure: Option<string> := None;
      if shell == "zsh" {
        name := "_lastagent";
        if home + [".oh-my-zsh"] in dirs || home + [".oh-my-zsh"] in files {
          dir := home + [".oh-my-zsh", "completions"];
          failure := MakeDir(dir, false);
        } else {
          dir := home + [".zsh", "completions"];
          failure := MakeDir(dir, true);
        }
      } else if shell == "bash" {
        name := "lastagent";
        if (BashCompletionDir in dirs || BashCompletionDir in files) && BashCompletionDir in env.writable {
          dir := BashCompletionDir;
        } else {
          dir := home + [".local", "share", "bash-completion", "completions"];
          failure := MakeDir(dir, true);
        }
      } else if shell == "fish" {
        name := "lastagent.fish";
        dir := home + [".config", "fish", "completions"];
        failure := MakeDir(dir, true);
      } else {
        return Raise("Unsupported shell: " + shell);
      }
      if failure.Some? {
        return Raise(failure.value);
      }
      r := Ok(dir + [name]);
    }

    /** `install_completion`: returns `(success, message)`. */
    method InstallCompletion(shell: Option<string>, run: Outcome<string>) returns (success: bool, message: string)
      modifies this
      ensures var r := Install(shell, run, env, old(dirs), old(files).Keys);
              success == r.success && message == r.message && dirs == old(dirs) + r.created &&
              files == if r.written.Some? then old(files)[r.written.value.0 := r.written.value.1] else old(files)
    {
      var s: string;
      if shell.None? {
        var detected := DetectShell(env.shellVar);
        if detected.None? {
          return false, NoShellMessage;
        }
        s := detected.value;
      } else {
        s := shell.value;
      }
      var script := GenerateCompletionScript(s, run);
      if script == "" {
        return false, GenerateFailedPrefix + s;
      }
      var path := GetCompletionPath(s);
      if path.Raise? {
        return false, InstallFailedPrefix + path.message;
      }
      var failure := WriteText(path.value, script);
      if failure.Some? {
        return false, InstallFailedPrefix + failure.value;
      }
      assert path.value != [];
      success, message := true, InstalledMessage(s, path.value);
    }
  }
}
