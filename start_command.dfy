/**
  `StartMCPCommand`: launches the server DLL that sits next to the plugin's own
  assembly through `dotnet`, with its standard streams redirected, and records the
  new process id in the manager.
 */
module StartCommand {
  import opened Wrappers
  import opened Processes
  import opened ServerManager

  const ServerFileName := "RevitMCP.Server.dll"
  const DialogTitle := "RevitMCP"
  const MissingServerPrefix := "找不到MCP服务器文件: "
  const StartErrorPrefix := "启动MCP服务器时发生错误: "
  const StartedText := "MCP服务器已成功启动"

  /** The characters after which `Path.Combine` adds no separator (Windows). */
  predicate IsSeparator(c: char) {
    c == '\\' || c == '/' || c == ':'
  }

  /** `Path.Combine(directory, "RevitMCP.Server.dll")` on Windows. */
  function ServerPath(directory: string): (p: string)
    ensures |p| >= |ServerFileName| && p[|p| - |ServerFileName|..] == ServerFileName
    ensures directory == "" ==> p == ServerFileName
    ensures directory != "" ==> |p| > |directory| && p[..|directory|] == directory
    ensures directory != "" && !IsSeparator(directory[|directory| - 1]) ==> |p| > |directory| && p[|directory|] == '\\'
    ensures p[|p| - 1] != '\\'
  {
    if directory == "" then ServerFileName
    else if IsSeparator(directory[|directory| - 1]) then directory + ServerFileName
    else directory + "\\" + ServerFileName
  }

  /** The index of the last `\` or `/` in a path, if any. */
  function LastSlash(path: string): (r: Option<nat>)
    ensures r.Some? ==> r.value < |path| && (path[r.value] == '\\' || path[r.value] == '/')
    ensures r.Some? ==> forall k :: r.value < k < |path| ==> path[k] != '\\' && path[k] != '/'
    ensures r.None? ==> forall k :: 0 <= k < |path| ==> path[k] != '\\' && path[k] != '/'
  {
    if path == [] then None
    else if path[|path| - 1] == '\\' || path[|path| - 1] == '/' then Some(|path| - 1)
    else LastSlash(path[..|path| - 1])
  }

  /** The directory part of a path: everything before its last slash. */
  function ParentPart(path: string): Option<string> {
    match LastSlash(path)
    case Some(i) => Some(path[..i])
    case None => None
  }

  lemma FileNameHasNoSlash()
    ensures forall k :: 0 <= k < |ServerFileName| ==> ServerFileName[k] != '\\' && ServerFileName[k] != '/'
  {
  }

  /**
    The server file sits directly in the given directory: taking the directory part
    of the combined path gives the directory back (for a directory not ending in a
    separator).
   */
  lemma ServerPathInDirectory(directory: string)
    requires directory != "" && !IsSeparator(directory[|directory| - 1])
    ensures ParentPart(ServerPath(directory)) == Some(directory)
  {
    var p := directory + "\\" + ServerFileName;
    assert ServerPath(directory) == p;
    FileNameHasNoSlash();
    forall k | |directory| < k < |p| ensures p[k] != '\\' && p[k] != '/' {
      assert p[k] == ServerFileName[k - |directory| - 1];
    }
    assert p[|directory|] == '\\';
    assert p[..|directory|] == directory;
  }

  /** The `dotnet` arguments: the quoted DLL path and the Revit mode switch. */
  function ServerArguments(path: string): string {
    "\"" + path + "\" --mode revit"
  }

  /** The first index of a character in a string, if any. */
  function IndexOf(s: string, c: char): (r: Option<nat>)
    ensures r.Some? ==> r.value < |s| && s[r.value] == c && forall k :: 0 <= k < r.value ==> s[k] != c
    ensures r.None? ==> forall k :: 0 <= k < |s| ==> s[k] != c
  {
    if s == [] then None
    else if s[0] == c then Some(0)
    else match IndexOf(s[1..], c)
      case Some(i) => Some(i + 1)
      case None => None
  }

  /** A command line that starts with a quoted token, split into that token's text and the rest. */
  function QuotedHead(args: string): (r: Option<(string, string)>)
    ensures r.Some? ==> args == "\"" + r.value.0 + "\"" + r.value.1 && '"' !in r.value.0
  {
    if args == [] || args[0] != '"' then None
    else match IndexOf(args[1..], '"')
      case Some(j) =>
        assert args == "\"" + args[1..][..j] + "\"" + args[j + 2..];
        Some((args[1..][..j], args[j + 2..]))
      case None => None
  }

  /** A path without quotes comes back whole as the first token of the arguments: spaces in it do not split it. */
  lemma ServerArgumentsCarryPath(path: string)
    requires '"' !in path
    ensures QuotedHead(ServerArguments(path)) == Some((path, " --mode revit"))
  {
    var args := ServerArguments(path);
    assert args[1..] == path + "\" --mode revit";
    var j := IndexOf(args[1..], '"');
    assert args[1..][|path|] == '"';
    assert j.Some?;
    assert j.value == |path|;
    assert args[1..][..j.value] == path;
    assert args[j.value + 2..] == " --mode revit";
  }

  /** How the server is launched: through `dotnet`, without a shell or window, all three streams redirected. */
  function ServerStartInfo(path: string): StartInfo {
    StartInfo("dotnet", ServerArguments(path), false, true, true, true, true)
  }

  /**
    `Execute`: fails with a message naming the path when the server DLL is missing,
    or with the exception's message when the launch throws, leaving the recorded id
    alone; otherwise launches the server once, records its id and reports success.
    A server already recorded as running is not checked for: it is left running and
    forgotten. `message` is the command's by-reference message, changed only on failure.
   */
  method Execute(os: Os, manager: MCPServerManager, assemblyDirectory: string, message: string)
    returns (result: CommandResult, messageOut: string)
    requires os.Valid()
    modifies os, manager
    ensures os.Valid()
    ensures os.files == old(os.files)
    ensures ServerPath(assemblyDirectory) !in os.files ==>
      result == Failed && messageOut == MissingServerPrefix + ServerPath(assemblyDirectory)
      && os.live == old(os.live) && os.launched == old(os.launched)
    ensures result == Succeeded ==>
      manager.serverProcessId !in old(os.live) && manager.IsServerRunning(os)
      && os.live == old(os.live) + {manager.serverProcessId}
      && os.launched == old(os.launched) + [ServerStartInfo(ServerPath(assemblyDirectory))]
      && os.dialogs == old(os.dialogs) + [Dialog(DialogTitle, StartedText)]
      && messageOut == message
    ensures result == Failed ==>
      manager.serverProcessId == old(manager.serverProcessId) && os.live == old(os.live)
      && os.launched == old(os.launched) && os.dialogs == old(os.dialogs)
      && (messageOut == MissingServerPrefix + ServerPath(assemblyDirectory)
          || exists reason :: messageOut == StartErrorPrefix + reason)
    ensures result == Succeeded && old(manager.IsServerRunning(os)) ==> old(manager.serverProcessId) in os.live
  {
    var serverPath := ServerPath(assemblyDirectory);
    if serverPath !in os.files {
      return Failed, MissingServerPrefix + serverPath;
    }
    var started := os.Start(ServerStartInfo(serverPath));
    if started.Err? {
      return Failed, StartErrorPrefix + started.error;
    }
    manager.serverProcessId := started.value;
    os.Show(DialogTitle, StartedText);
    return Succeeded, message;
  }
}
