/**
 * How a launcher starts PowerShell: an argument list handed to `cmd /c start`.
 * `start` opens a new console window. An empty first argument is the window
 * title. Then come the shell executable, its switches and either an inline
 * command (`-Command`) or a script file (`-File`).
 *
 * The launchers build the list; `ReadInvocation` reads it back into the
 * settings it carries. The launcher modules prove that what they build reads
 * back as what they meant.
 */
module Launching {
  import opened Text

  /** What PowerShell runs: an inline command or a script file. */
  datatype Target = Command(text: string) | File(path: string)

  /**
   * The settings an argument list carries: whether an empty window title is
   * passed to `start`, the shell, whether `-NoExit` keeps the window open, and
   * what is run.
   */
  datatype Invocation = Invocation(titled: bool, shell: string, noExit: bool, target: Target)

  /** A started process with its argument list, or no start at all. */
  datatype Launch = NoLaunch | Launch(args: seq<string>)

  /**
   * Reads `cmd /c start [""] <shell> [-NoExit] -ExecutionPolicy Bypass
   * (-Command <text> | -File <path>)`; `None` for anything else.
   */
  function ReadInvocation(args: seq<string>): Option<Invocation> {
    if |args| < 4 || args[0] != "cmd" || args[1] != "/c" || args[2] != "start" then None
    else
      var titled := args[3] == "";
      ReadShellPart(titled, if titled then args[4..] else args[3..])
  }

  /** The part after `start` and the optional title: `<shell> [-NoExit] -ExecutionPolicy Bypass <target>`. */
  function ReadShellPart(titled: bool, rest: seq<string>): Option<Invocation> {
    if rest == [] then None
    else
      var shell := rest[0];
      var noExit := |rest| > 1 && rest[1] == "-NoExit";
      var opts := if noExit then rest[2..] else rest[1..];
      if |opts| != 4 || opts[0] != "-ExecutionPolicy" || opts[1] != "Bypass" then None
      else if opts[2] == "-Command" then Some(Invocation(titled, shell, noExit, Command(opts[3])))
      else if opts[2] == "-File" then Some(Invocation(titled, shell, noExit, File(opts[3])))
      else None
  }

  /** The switches PowerShell receives for a target. */
  function TargetArgs(target: Target): seq<string> {
    match target
    case Command(text) => ["-Command", text]
    case File(path) => ["-File", path]
  }

  /**
   * Any list of this form reads back as its settings: the title, the shell,
   * `-NoExit` exactly when it is present, and the target.
   */
  lemma ReadInvocationOf(titled: bool, shell: string, noExit: bool, target: Target)
    requires titled || shell != ""
    ensures ReadInvocation(
      ["cmd", "/c", "start"] + (if titled then [""] else []) + [shell]
      + (if noExit then ["-NoExit"] else []) + ["-ExecutionPolicy", "Bypass"] + TargetArgs(target))
      == Some(Invocation(titled, shell, noExit, target))
  {
    var tail := (if noExit then ["-NoExit"] else []) + ["-ExecutionPolicy", "Bypass"] + TargetArgs(target);
    var args := ["cmd", "/c", "start"] + (if titled then [""] else []) + [shell] + tail;
    if titled {
      assert args[4..] == [shell] + tail;
    } else {
      assert args[3..] == [shell] + tail;
    }
    ReadShellPartOf(titled, shell, noExit, target);
  }

  /** The part after the title reads back as the shell, `-NoExit` exactly when present, and the target. */
  lemma ReadShellPartOf(titled: bool, shell: string, noExit: bool, target: Target)
    ensures ReadShellPart(titled,
      [shell] + (if noExit then ["-NoExit"] else []) + ["-ExecutionPolicy", "Bypass"] + TargetArgs(target))
      == Some(Invocation(titled, shell, noExit, target))
  {
    var opts := ["-ExecutionPolicy", "Bypass"] + TargetArgs(target);
    var rest := [shell] + (if noExit then ["-NoExit"] else []) + opts;
    if noExit {
      assert rest[2..] == opts;
    } else {
      assert rest[1..] == opts;
    }
  }
}
