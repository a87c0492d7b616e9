/**
 * The operating system as seen by the local process spawner: process
 * creation, the non-blocking exit check behind `Popen.poll`, `os.kill`
 * and the passage of time (`gen.sleep`).  Every call is appended, with
 * the reply it got, to a trace; the replies themselves come from oracle
 * functions of the trace so far, so a process may die at any moment and
 * may or may not react to a signal.
 */
module HostOs {
  import opened Wrappers

  const SIGINT := 2
  const SIGKILL := 9
  const SIGTERM := 15
  /** errno for "no such process" */
  const ESRCH := 3

  /** What `os.kill(pid, sig)` did: delivered, or failed with an errno. */
  datatype KillOutcome = Delivered | Failed(errno: int)

  datatype Syscall =
    | ExecCall(argv: seq<string>, env: map<string, string>, spawned: Result<int, int>)
    | WaitCall(pid: int, exited: Option<int>)
    | KillCall(pid: int, sig: int, outcome: KillOutcome)
    | SleepCall

  class Host {
    /** every call made so far, oldest first */
    var calls: seq<Syscall>
    /** pid of the new process, or the errno of the failed fork/exec */
    const execReply: (seq<Syscall>, seq<string>, map<string, string>) -> Result<int, int>
    /** exit status of a child that has terminated, None while it runs */
    const waitReply: (seq<Syscall>, int) -> Option<int>
    const killReply: (seq<Syscall>, int, int) -> KillOutcome

    constructor (execReply: (seq<Syscall>, seq<string>, map<string, string>) -> Result<int, int>,
                 waitReply: (seq<Syscall>, int) -> Option<int>,
                 killReply: (seq<Syscall>, int, int) -> KillOutcome)
      ensures calls == []
      ensures this.execReply == execReply && this.waitReply == waitReply && this.killReply == killReply
    {
      calls := [];
      this.execReply, this.waitReply, this.killReply := execReply, waitReply, killReply;
    }

    /** `Popen(argv, env=env)`: a fresh handle on success, the errno otherwise */
    method Spawn(argv: seq<string>, env: map<string, string>) returns (r: Result<Popen, int>)
      modifies this
      ensures calls == old(calls) + [ExecCall(argv, env, execReply(old(calls), argv, env))]
      ensures execReply(old(calls), argv, env).Err? ==> r == Err(execReply(old(calls), argv, env).error)
      ensures execReply(old(calls), argv, env).Ok? ==>
                r.Ok? && fresh(r.value) && r.value.host == this &&
                r.value.pid == execReply(old(calls), argv, env).value && r.value.returncode == None
    {
      var reply := execReply(calls, argv, env);
      calls := calls + [ExecCall(argv, env, reply)];
      if reply.Err? {
        r := Err(reply.error);
      } else {
        var p := new Popen(this, reply.value);
        r := Ok(p);
      }
    }

    /** non-blocking check whether child `pid` has exited */
    method WaitPid(pid: int) returns (status: Option<int>)
      modifies this
      ensures status == waitReply(old(calls), pid)
      ensures calls == old(calls) + [WaitCall(pid, status)]
    {
      status := waitReply(calls, pid);
      calls := calls + [WaitCall(pid, status)];
    }

    /** `os.kill(pid, sig)`; signal 0 only probes whether `pid` exists */
    method Kill(pid: int, sig: int) returns (outcome: KillOutcome)
      modifies this
      ensures outcome == killReply(old(calls), pid, sig)
      ensures calls == old(calls) + [KillCall(pid, sig, outcome)]
    {
      outcome := killReply(calls, pid, sig);
      calls := calls + [KillCall(pid, sig, outcome)];
    }

    /** one `death_interval` of sleep */
    method Sleep()
      modifies this
      ensures calls == old(calls) + [SleepCall]
    {
      calls := calls + [SleepCall];
    }
  }

  /**
   * A `subprocess.Popen` handle.  Like Popen, it remembers the exit status
   * once it has seen it, so a handle that reported an exit keeps reporting it.
   */
  class Popen {
    const host: Host
    const pid: int
    var returncode: Option<int>

    constructor (host: Host, pid: int)
      ensures this.host == host && this.pid == pid && returncode == None
    {
      this.host, this.pid := host, pid;
      returncode := None;
    }

    /** `Popen.poll()`: the exit status, or None while the child runs */
    method Poll() returns (status: Option<int>)
      modifies this, host
      ensures returncode == status
      ensures old(returncode).Some? ==> status == old(returncode) && host.calls == old(host.calls)
      ensures old(returncode).None? ==>
                status == host.waitReply(old(host.calls), pid) &&
                host.calls == old(host.calls) + [WaitCall(pid, status)]
    {
      if returncode.None? {
        returncode := host.WaitPid(pid);
      }
      status := returncode;
    }
  }
}
