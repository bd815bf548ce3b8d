/**
 * The operating-system side of running ffmpeg, reduced to what the program
 * decides from it: the `Command` it assembles argument by argument, the
 * outcome of spawning and awaiting the child, and the choice of executable.
 */
module Process {
  import opened Wrappers

  /** `std::process::Command`, reduced to its program and its argument list. */
  class Command {
    var program: string
    var args: seq<string>

    constructor (program: string)
      ensures this.program == program && args == []
    {
      this.program := program;
      args := [];
    }

    /** `Command::arg`: one more argument at the end. */
    method Arg(a: string)
      modifies this
      ensures program == old(program) && args == old(args) + [a]
    {
      args := args + [a];
    }
  }

  /** What `Child::wait` reports: an exit status (with its code, if any) or an I/O error. */
  datatype WaitResult = Exited(code: Option<int>) | WaitFailed(reason: string)

  /**
   * Everything the program observes of one run of a command: either the spawn
   * failed, or the child ran, its stdout and stderr pipes were (or were not)
   * available as lines, and waiting for it gave a status.
   */
  datatype Run =
    | SpawnFailed(reason: string)
    | Spawned(stdout: Option<seq<string>>, stderr: Option<seq<string>>, wait: WaitResult)

  /** `ExitStatus::success`: the child exited with code 0. */
  predicate Success(w: WaitResult) {
    w == Exited(Some(0))
  }

  /**
   * The parts of the environment the executable lookup consults: the current
   * directory, the platform, and `Path::exists` on the file system.
   */
  datatype Host = Host(cwd: Option<string>, windows: bool, pathExists: string -> bool)

  function ToolName(windows: bool): string {
    if windows then "ffmpeg.exe" else "ffmpeg"
  }

  predicate IsSeparator(c: char, windows: bool) {
    c == '/' || (windows && c == '\\')
  }

  /** `PathBuf::push` of a relative file name onto a directory. */
  function PushPath(dir: string, name: string, windows: bool): string {
    if dir == [] then name
    else if IsSeparator(dir[|dir| - 1], windows) then dir + name
    else dir + [if windows then '\\' else '/'] + name
  }

  /**
   * The executable of `FFmpeg::new`: `ffmpeg` (`ffmpeg.exe` on Windows) in the
   * current directory when that path exists, otherwise the bare name, which
   * the system then looks up on its search path.
   */
  function ExecutablePath(host: Host): string {
    var local := PushPath(host.cwd.GetOr(""), ToolName(host.windows), host.windows);
    if host.pathExists(local) then local else ToolName(host.windows)
  }

  /**
   * The executable is named `ffmpeg` (`ffmpeg.exe`); it is the one in the
   * current directory exactly when that path exists, and otherwise the bare
   * name.
   */
  lemma ExecutablePathChoice(host: Host)
    ensures var r := ExecutablePath(host);
      var name := ToolName(host.windows);
      var local := PushPath(host.cwd.GetOr(""), name, host.windows);
      && |r| >= |name| && r[|r| - |name|..] == name
      && (r == name || host.pathExists(r))
      && (host.pathExists(local) <==> r == local && host.pathExists(r))
      && (!host.pathExists(local) ==> r == name)
  {
  }

  /**
   * The arguments every ffmpeg run starts with: progress as `key=value` lines
   * on stdout, no statistics, no interaction, no banner, then the input.
   */
  function Prefix(inputFile: string): (r: seq<string>)
    ensures |r| == 7 && r[0] == "-progress" && r[1] == "-" && r[5] == "-i" && r[6] == inputFile
  {
    ["-progress", "-", "-nostats", "-nostdin", "-hide_banner", "-i", inputFile]
  }
}
