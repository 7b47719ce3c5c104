/**
  `MCPServerManager`: the process-wide record of the server process the plugin
  started, and whether that process is still running.
 */
module ServerManager {
  import opened Wrappers
  import opened Processes

  class MCPServerManager {
    /** `ServerProcessId`; 0 when no server is recorded. Anyone may set it. */
    var serverProcessId: int

    constructor()
      ensures serverProcessId == 0
    {
      serverProcessId := 0;
    }

    /**
      `IsServerRunning`: false for an id that is not positive, else whether a process
      with that id is running. Looking the process up never throws out of it.
     */
    predicate IsServerRunning(os: Os): (r: bool)
      reads this, os
      ensures serverProcessId <= 0 ==> !r
      ensures serverProcessId > 0 ==> (r <==> serverProcessId in os.live)
    {
      serverProcessId > 0 && serverProcessId in os.live
    }
  }

  /** A fresh manager records no server, so none is running whatever the system runs. */
  lemma FreshManagerNotRunning(manager: MCPServerManager, os: Os)
    requires manager.serverProcessId == 0
    ensures !manager.IsServerRunning(os)
  {
  }

  /** The lazily created singleton behind `Instance`. */
  class Singleton {
    var created: Option<MCPServerManager>

    constructor()
      ensures created.None?
    {
      created := None;
    }

    /** `Instance`: the first use creates a manager with no server; every later use returns that same object. */
    method Instance() returns (manager: MCPServerManager)
      modifies this
      ensures old(created).Some? ==> manager == old(created).value && created == old(created)
      ensures old(created).None? ==> fresh(manager) && manager.serverProcessId == 0 && created == Some(manager)
    {
      if created.None? {
        var m := new MCPServerManager();
        created := Some(m);
      }
      manager := created.value;
    }
  }
}
