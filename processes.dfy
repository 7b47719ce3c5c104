/**
  The part of the operating system the plugin's server commands touch: files,
  running processes, process launches and the message boxes shown to the user.
  Whether a launch or a kill fails is the system's choice, so those operations
  are nondeterministic.
 */
module Processes {
  import opened Wrappers

  /** A `ProcessStartInfo`, by the properties the start command sets. */
  datatype StartInfo = StartInfo(
    fileName: string,
    arguments: string,
    useShellExecute: bool,
    createNoWindow: bool,
    redirectStandardInput: bool,
    redirectStandardOutput: bool,
    redirectStandardError: bool)

  /** An external command's `Result` (`Cancelled` is never returned by these commands). */
  datatype CommandResult = Succeeded | Failed

  /** A `TaskDialog.Show(title, text)`. */
  datatype Dialog = Dialog(title: string, text: string)

  class Os {
    var files: set<string>          // paths for which `File.Exists` holds
    var live: set<int>              // ids of the running processes
    var launched: seq<StartInfo>    // every successful `Process.Start`, in order
    var dialogs: seq<Dialog>        // every message box shown, in order
    var nextPid: int                // the id the next launched process gets

    /** Running processes have positive ids below the next one to be handed out. */
    ghost predicate Valid()
      reads this
    {
      nextPid > 0 && forall p :: p in live ==> 0 < p < nextPid
    }

    constructor(files: set<string>)
      ensures Valid()
      ensures this.files == files && live == {} && launched == [] && dialogs == []
    {
      this.files := files;
      live := {};
      launched := [];
      dialogs := [];
      nextPid := 1;
    }

    /** `Process.Start`: a new running process with a fresh positive id, or an exception with its message. */
    method Start(info: StartInfo) returns (r: Result<int, string>)
      requires Valid()
      modifies this
      ensures Valid()
      ensures r.Ok? ==> r.value > 0 && r.value !in old(live) && live == old(live) + {r.value}
      ensures r.Ok? ==> launched == old(launched) + [info]
      ensures r.Err? ==> live == old(live) && launched == old(launched)
      ensures files == old(files) && dialogs == old(dialogs)
    {
      var fails: bool := *;
      if fails {
        var reason: string := *;
        return Err(reason);
      }
      var pid := nextPid;
      nextPid := nextPid + 1;
      live := live + {pid};
      launched := launched + [info];
      return Ok(pid);
    }

    /** `Process.Kill` followed by `WaitForExit`: the process is gone, or an exception with its message and nothing changed. */
    method Kill(pid: int) returns (error: Option<string>)
      requires Valid()
      modifies this
      ensures Valid()
      ensures error.None? ==> live == old(live) - {pid}
      ensures error.Some? ==> live == old(live)
      ensures files == old(files) && launched == old(launched) && dialogs == old(dialogs)
    {
      var fails: bool := *;
      if fails {
        var reason: string := *;
        return Some(reason);
      }
      live := live - {pid};
      return None;
    }

    /** `TaskDialog.Show`. */
    method Show(title: string, text: string)
      modifies this
      ensures dialogs == old(dialogs) + [Dialog(title, text)]
      ensures files == old(files) && live == old(live) && launched == old(launched) && nextPid == old(nextPid)
    {
      dialogs := dialogs + [Dialog(title, text)];
    }
  }
}
