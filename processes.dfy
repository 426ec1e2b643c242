/**
 * What a provider hands to `child_process.execFile`, what comes back to its
 * callback, and how its promise settles.
 */
module Processes {
  import opened Wrappers

  /** The executable and its argument vector (no options are passed). */
  datatype ToolInvocation = ToolInvocation(executable: string, args: seq<string>)

  /**
   * The callback's view of a finished run: the executable was missing
   * (`err.code == 'ENOENT'`), the run failed some other way (with whatever it
   * wrote to standard output), or it succeeded.
   */
  datatype ProcResult = NotFound | Failed(stdout: string) | Ok(stdout: string)

  /** How a provider's promise settles: `resolve(v)` (`None` for `null`) or `reject(reason)`. */
  datatype Settled<T> = Resolved(value: Option<T>) | Rejected(reason: string)
}
