/**
  `StopMCPCommand`: kills the server process recorded in the manager and clears
  the record.
 */
module StopCommand {
  import opened Wrappers
  import opened Processes
  import opened ServerManager

  const DialogTitle := "RevitMCP"
  const NotRunningText := "MCP服务器未运行"
  const StoppedText := "MCP服务器已成功停止"
  const StopErrorPrefix := "停止MCP服务器时发生错误: "

  /**
    `Execute`:
    - no positive id recorded: reports that no server runs and succeeds, changing nothing;
    - the recorded process is not running (`GetProcessById` throws `ArgumentException`):
      clears the id, reports that no server runs and succeeds;
    - otherwise kills the process and waits for it, clears the id, reports success;
      when the kill throws, fails with the exception's message and keeps the id.
    `message` is the command's by-reference message, changed only on failure.
   */
  method Execute(os: Os, manager: MCPServerManager, message: string)
    returns (result: CommandResult, messageOut: string)
    requires os.Valid()
    modifies os, manager
    ensures os.Valid()
    ensures os.files == old(os.files) && os.launched == old(os.launched)
    ensures old(manager.serverProcessId) <= 0 ==>
      result == Succeeded && manager.serverProcessId == old(manager.serverProcessId)
      && os.live == old(os.live) && os.dialogs == old(os.dialogs) + [Dialog(DialogTitle, NotRunningText)]
    ensures old(manager.serverProcessId) > 0 && old(manager.serverProcessId) !in old(os.live) ==>
      result == Succeeded && manager.serverProcessId == 0
      && os.live == old(os.live) && os.dialogs == old(os.dialogs) + [Dialog(DialogTitle, NotRunningText)]
    ensures old(manager.IsServerRunning(os)) && result == Succeeded ==>
      manager.serverProcessId == 0 && os.live == old(os.live) - {old(manager.serverProcessId)}
      && os.dialogs == old(os.dialogs) + [Dialog(DialogTitle, StoppedText)]
    ensures result == Succeeded ==> manager.serverProcessId <= 0 && !manager.IsServerRunning(os) && messageOut == message
    ensures result == Failed ==>
      old(manager.IsServerRunning(os)) && manager.serverProcessId == old(manager.serverProcessId)
      && os.live == old(os.live) && os.dialogs == old(os.dialogs)
      && exists reason :: messageOut == StopErrorPrefix + reason
  {
    var processId := manager.serverProcessId;
    if processId <= 0 {
      os.Show(DialogTitle, NotRunningText);
      return Succeeded, message;
    }
    if processId !in os.live {
      manager.serverProcessId := 0;
      os.Show(DialogTitle, NotRunningText);
      return Succeeded, message;
    }
    var killError := os.Kill(processId);
    if killError.Some? {
      return Failed, StopErrorPrefix + killError.value;
    }
    manager.serverProcessId := 0;
    os.Show(DialogTitle, StoppedText);
    return Succeeded, message;
  }
}
