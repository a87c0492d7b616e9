/**
 * The local data-API spawner: one process per user, launched with Popen,
 * polled for liveness, stopped by escalating signals.  The base spawner
 * (state handle, poll timer, death callbacks, bounded wait) and the local
 * process spawner are one class here.
 */
module LocalSpawner {
  import opened Wrappers
  import opened HostOs
  import opened Escalation

  /** The two fields of a `pwd` entry that `user_env` reads. */
  datatype Passwd = Passwd(home: string, shell: string)

  datatype Config = Config(
    cmd: seq<string>,
    args: seq<string>,
    debug: bool,
    envKeep: seq<string>,
    pollInterval: int,
    interruptTimeout: int,
    termTimeout: int,
    killTimeout: int)

  /** The configured defaults of the spawner's traits. */
  const DefaultConfig := Config(
    ["node"], ["../cityscope-loopback-docker"], false,
    ["PATH", "PYTHONPATH", "CONDA_ROOT", "CONDA_DEFAULT_ENV", "VIRTUAL_ENV", "LANG", "LC_ALL"],
    30, 10, 5, 5)

  /** A registered death callback; extra arguments are bound at registration. */
  datatype Callback = Plain(fn: string) | Bound(fn: string, args: seq<string>, kwargs: map<string, string>)

  /** Starting and stopping the PeriodicCallback objects the spawner creates. */
  datatype TimerEvent = TimerStarted(id: nat, periodMs: int) | TimerStopped(id: nat)

  datatype LogLine =
    | NotPolling
    | PollingEvery(seconds: int)
    | Spawning(argv: seq<string>)
    | Interrupting(pid: int)
    | Terminating(pid: int)
    | Killing(pid: int)
    | NeverDied(pid: int)

  datatype StartError = UnknownUser(name: string) | ExecFailed(errno: int)

  /** The timers that were started and not stopped since. */
  function Running(log: seq<TimerEvent>): set<nat>
  {
    if log == [] then {}
    else
      match log[|log| - 1]
      case TimerStarted(id, _) => Running(log[..|log| - 1]) + {id}
      case TimerStopped(id) => Running(log[..|log| - 1]) - {id}
  }

  /** Every timer that is running was started by some event of the log. */
  lemma {:induction false} RunningWereStarted(log: seq<TimerEvent>, id: nat)
    requires id in Running(log)
    ensures exists j :: 0 <= j < |log| && log[j].TimerStarted? && log[j].id == id
    decreases |log|
  {
    var prev := log[..|log| - 1];
    if id in Running(prev) {
      RunningWereStarted(prev, id);
      var j :| 0 <= j < |prev| && prev[j].TimerStarted? && prev[j].id == id;
      assert log[j] == prev[j];
    }
  }

  /** One more timer event: the running set after it. */
  lemma RunningAfter(log: seq<TimerEvent>, e: TimerEvent)
    ensures Running(log + [e]) == if e.TimerStarted? then Running(log) + {e.id} else Running(log) - {e.id}
  {
    assert (log + [e])[..|log + [e]| - 1] == log;
  }

  /** A timer numbered `n` joins a log whose timers are all numbered below `n`. */
  lemma IdsBelowAfter(log: seq<TimerEvent>, e: TimerEvent, n: nat)
    requires forall j :: 0 <= j < |log| ==> log[j].id < n
    requires e.id == n
    ensures forall j :: 0 <= j < |log + [e]| ==> (log + [e])[j].id < n + 1
  {
  }

  /** `get_state`: the saved state holds 'pid' exactly when there is a pid. */
  function StateOf(pid: int): (state: map<string, int>)
    ensures "pid" in state <==> pid != 0
    ensures "pid" in state ==> state["pid"] == pid
    ensures state.Keys <= {"pid"}
  {
    if pid != 0 then map["pid" := pid] else map[]
  }

  /** The pid `load_state(state)` leaves on a spawner whose pid was `current`. */
  function LoadedPid(state: map<string, int>, current: int): int
  {
    if "pid" in state then state["pid"] else current
  }

  /** Loading a saved state into a fresh spawner (pid 0) restores the pid. */
  lemma StateRoundTrip(pid: int)
    ensures LoadedPid(StateOf(pid), 0) == pid
  {
  }

  /** The arguments `get_args` appends to `self.args` on every call. */
  function ArgsSuffix(userName: string, debug: bool): seq<string>
  {
    ["loopback-custom-base-url=" + userName] + (if debug then ["--debug"] else [])
  }

  /** The debug line `stop` writes before sending `sig` to `pid`. */
  function SignalLine(sig: int, pid: int): LogLine
  {
    if sig == SIGINT then Interrupting(pid) else if sig == SIGTERM then Terminating(pid) else Killing(pid)
  }

  /** The debug lines of a stop that sent `sigs` to `pid`, one per signal and in order. */
  function SignalLog(sigs: seq<int>, pid: int): (lines: seq<LogLine>)
    ensures |lines| == |sigs|
    ensures forall j :: 0 <= j < |sigs| ==> lines[j] == SignalLine(sigs[j], pid)
  {
    if sigs == [] then []
    else SignalLog(sigs[..|sigs| - 1], pid) + [SignalLine(sigs[|sigs| - 1], pid)]
  }

  lemma {:induction false} SignalLogAppend(a: seq<int>, b: seq<int>, pid: int)
    ensures SignalLog(a + b, pid) == SignalLog(a, pid) + SignalLog(b, pid)
    decreases |b|
  {
    if b != [] {
      var b' := b[..|b| - 1];
      assert (a + b)[..|a + b| - 1] == a + b';
      SignalLogAppend(a, b', pid);
    } else {
      assert a + b == a;
    }
  }

  lemma SignalLogSnoc(log0: seq<LogLine>, sent: seq<int>, sig: int, pid: int)
    ensures (log0 + SignalLog(sent, pid)) + [SignalLine(sig, pid)] == log0 + SignalLog(sent + [sig], pid)
  {
    assert SignalLog([sig], pid) == [SignalLine(sig, pid)];
    SignalLogAppend(sent, [sig], pid);
  }


  // ----- what a stop has done, as values -----

  /**
   * What a stop that has ended promises about its trace `t`: its signals
   * follow the ladder `sigs`; without an OS error (`ok`) `t` is an
   * escalation through `sigs`, and the process either is gone (`dead`) with
   * its state cleared or survived every signal, which the log reports.
   */
  ghost predicate StopOutcome(t: seq<Step>, sigs: seq<int>, bounds: seq<nat>, ok: bool, dead: bool,
                              pid: int, token: string, log: seq<LogLine>, pid0: int, token0: string, log0: seq<LogLine>)
  {
    && |sigs| == |bounds|
    && IsPrefix(Signals(t), sigs)
    && (ok ==> Escalates(t, sigs, bounds, false))
    && (ok && !dead ==> Signals(t) == sigs)
    && (ok && dead ==> pid == 0 && token == "")
    && (!dead ==> pid == pid0 && token == token0)
    && log == log0 + SignalLog(Signals(t), pid0) + (if ok && !dead then [NeverDied(pid0)] else [])
  }

  /** A stop that ended with an OS error before sending the next signal. */
  lemma OutcomeBeforeSignal(ws: seq<seq<Step>>, sigs: seq<int>, bounds: seq<nat>, dead: bool,
                            pid: int, token: string, pid0: int, token0: string, log0: seq<LogLine>)
    requires FullStages(ws, sigs, bounds)
    requires !dead ==> pid == pid0 && token == token0
    ensures StopOutcome(Stages(ws, sigs), sigs, bounds, false, dead, pid, token,
                        log0 + SignalLog(sigs[..|ws|], pid0), pid0, token0, log0)
  {
    StagesSignals(ws, sigs);
  }

  /** A stop that ended with an OS error after it sent the signal of stage `|ws|`. */
  lemma OutcomeAfterSignal(ws: seq<seq<Step>>, tail: seq<Step>, sigs: seq<int>, bounds: seq<nat>, dead: bool,
                           pid: int, token: string, pid0: int, token0: string, log0: seq<LogLine>)
    requires FullStages(ws, sigs, bounds) && |ws| < |sigs|
    requires Signals(tail) == [sigs[|ws|]]
    requires !dead ==> pid == pid0 && token == token0
    ensures StopOutcome(Stages(ws, sigs) + tail, sigs, bounds, false, dead, pid, token,
                        log0 + SignalLog(sigs[..|ws|] + [sigs[|ws|]], pid0), pid0, token0, log0)
  {
    StagesThen(ws, sigs, tail);
  }

  /**
   * A stop that ended with a poll reporting `last`: an exit status when the
   * ladder was left early or the last wait saw one, and otherwise possibly
   * none, in which case the process never died.
   */
  lemma OutcomeAtPoll(ws: seq<seq<Step>>, last: Option<int>, sigs: seq<int>, bounds: seq<nat>,
                      pid: int, token: string, pid0: int, token0: string, log0: seq<LogLine>)
    requires FullStages(ws, sigs, bounds)
    requires |ws| < |sigs| ==> last.Some?
    requires ws != [] && EndsInDeath(ws[|ws| - 1]) ==> last.Some?
    requires last.Some? ==> pid == 0 && token == ""
    requires last.None? ==> pid == pid0 && token == token0
    ensures StopOutcome(Stages(ws, sigs) + [Polled(last)], sigs, bounds, true, last.Some?, pid, token,
                        log0 + SignalLog(sigs[..|ws|], pid0) + (if last.None? then [NeverDied(pid0)] else []),
                        pid0, token0, log0)
  {
    StagesSignals(ws, sigs);
    SignalsAppend(Stages(ws, sigs), [Polled(last)]);
    StagesEscalation(ws, last, sigs, bounds, false);
    if last.None? {
      assert sigs[..|ws|] == sigs;
    }
  }

  /** The default environment: the whitelisted variables of `environ` that are set, plus the API token. */
  ghost predicate DefaultEnvOf(env: map<string, string>, environ: map<string, string>, keep: seq<string>, token: string)
  {
    && "JPY_API_TOKEN" in env && env["JPY_API_TOKEN"] == token
    && (forall k :: k != "JPY_API_TOKEN" ==> (k in env <==> k in keep && k in environ))
    && (forall k :: k in env && k != "JPY_API_TOKEN" ==> env[k] == environ[k])
  }

  /**
   * `env` with the user's variables added: USER always, HOME and SHELL from
   * the password entry when they are non-empty, everything else kept.
   */
  ghost predicate UserEnvOf(r: map<string, string>, env: map<string, string>, userName: string, entry: Passwd)
  {
    && r.Keys == env.Keys + {"USER"} + (if entry.home != "" then {"HOME"} else {})
                                     + (if entry.shell != "" then {"SHELL"} else {})
    && r["USER"] == userName
    && (entry.home != "" ==> r["HOME"] == entry.home)
    && (entry.shell != "" ==> r["SHELL"] == entry.shell)
    && (forall k :: k in env && k !in {"USER", "HOME", "SHELL"} ==> r[k] == env[k])
  }

  /**
   * What the spawned process sees: the API token, its user name, and
   * otherwise only whitelisted variables of the hub with the hub's values,
   * HOME and SHELL; nothing else of the hub's environment reaches it.
   */
  lemma SpawnEnvironment(environ: map<string, string>, keep: seq<string>, token: string,
                         env: map<string, string>, r: map<string, string>, userName: string, entry: Passwd)
    requires DefaultEnvOf(env, environ, keep, token) && UserEnvOf(r, env, userName, entry)
    ensures "JPY_API_TOKEN" in r && r["JPY_API_TOKEN"] == token
    ensures "USER" in r && r["USER"] == userName
    ensures forall k :: k in r ==> k in keep || k in {"JPY_API_TOKEN", "USER", "HOME", "SHELL"}
    ensures forall k :: k in keep && k in environ && k !in {"JPY_API_TOKEN", "USER", "HOME", "SHELL"} ==>
              k in r && r[k] == environ[k]
  {
  }

  /** `_env_default` */
  method EnvDefault(environ: map<string, string>, keep: seq<string>, token: string)
    returns (env: map<string, string>)
    ensures DefaultEnvOf(env, environ, keep, token)
  {
    env := map[];
    var i := 0;
    while i < |keep|
      invariant 0 <= i <= |keep|
      invariant forall k :: k in env <==> k in keep[..i] && k in environ
      invariant forall k :: k in env ==> env[k] == environ[k]
    {
      if keep[i] in environ {
        env := env[keep[i] := environ[keep[i]]];
      }
      i := i + 1;
    }
    env := env["JPY_API_TOKEN" := token];
  }

  /**
   * `user_env`: USER always, HOME and SHELL from the password database when
   * they are non-empty; an unknown user raises.
   */
  method UserEnv(env: map<string, string>, userName: string, passwd: map<string, Passwd>)
    returns (r: Result<map<string, string>, StartError>)
    ensures r.Err? <==> userName !in passwd
    ensures r.Err? ==> r.error == UnknownUser(userName)
    ensures r.Ok? ==> UserEnvOf(r.value, env, userName, passwd[userName])
  {
    var e := env["USER" := userName];
    if userName !in passwd {
      return Err(UnknownUser(userName));
    }
    var entry := passwd[userName];
    if entry.home != "" {
      e := e["HOME" := entry.home];
    }
    if entry.shell != "" {
      e := e["SHELL" := entry.shell];
    }
    r := Ok(e);
  }

  class Spawner {
    const host: Host
    /** `self.user.name` */
    const userName: string
    /** `os.environ` of the hub */
    const environ: map<string, string>
    /** the password database `pwd.getpwnam` reads */
    const passwd: map<string, Passwd>
    const config: Config

    /** `self.args`; `get_args` appends to it in place */
    var args: seq<string>
    /** `self.env`, computed by `_env_default` on first use */
    var env: Option<map<string, string>>
    var apiToken: string
    var proc: Popen?
    var pid: int
    var callbacks: seq<Callback>
    /** handle of the running PeriodicCallback, if any */
    var pollCallback: Option<nat>
    var timers: seq<TimerEvent>
    var nextTimer: nat
    /** callbacks handed to `IOLoop.add_callback`, in order */
    var scheduled: seq<Callback>
    var log: seq<LogLine>
    /** what polls reported, which signals were sent and each sleep */
    ghost var steps: seq<Step>

    ghost predicate Valid()
      reads this`proc, this`timers, this`pollCallback, this`nextTimer
    {
      && (proc != null ==> proc.host == host)
      && Running(timers) == (if pollCallback.Some? then {pollCallback.value} else {})
      && (forall j :: 0 <= j < |timers| ==> timers[j].id < nextTimer)
    }

    /** The process is known to be gone: every further poll reports an exit status. */
    ghost predicate Dead()
      reads this`proc, this`pid, proc
    {
      if proc != null then proc.returncode.Some? else pid == 0
    }

    ghost function PollerState(): (seq<Callback>, Option<nat>, seq<TimerEvent>, nat, seq<Callback>)
      reads this`callbacks, this`pollCallback, this`timers, this`nextTimer, this`scheduled
    {
      (callbacks, pollCallback, timers, nextTimer, scheduled)
    }

    /** `__init__`: the configuration, then `load_state(user.state)` */
    constructor (host: Host, userName: string, environ: map<string, string>, passwd: map<string, Passwd>,
                 config: Config, apiToken: string, userState: map<string, int>)
      ensures Valid()
      ensures this.host == host && this.userName == userName && this.environ == environ
      ensures this.passwd == passwd && this.config == config && this.apiToken == apiToken
      ensures pid == LoadedPid(userState, 0) && proc == null
      ensures args == config.args && env == None
      ensures callbacks == [] && pollCallback == None && timers == [] && scheduled == []
      ensures log == [] && steps == []
    {
      this.host, this.userName, this.environ, this.passwd, this.config := host, userName, environ, passwd, config;
      this.apiToken := apiToken;
      args := config.args;
      env := None;
      proc := null;
      pid := 0;
      callbacks, pollCallback, timers, nextTimer, scheduled := [], None, [], 0, [];
      log, steps := [], [];
      new;
      if userState != map[] {
        LoadState(userState);
      }
    }

    /** `load_state`: take the pid from the saved state when it has one */
    method LoadState(state: map<string, int>)
      modifies this`pid
      ensures pid == LoadedPid(state, old(pid))
    {
      if "pid" in state {
        pid := state["pid"];
      }
    }

    /** `get_state`: the base spawner saves nothing, the local one adds the pid */
    function GetState(): (state: map<string, int>)
      reads this
      ensures state == StateOf(pid)
    {
      var base := map[];
      if pid != 0 then base["pid" := pid] else base
    }

    /** `clear_state`: forget the token and the pid */
    method ClearState()
      modifies this`apiToken, this`pid
      ensures apiToken == "" && pid == 0
    {
      apiToken := "";
      pid := 0;
    }

    /** `get_args`: appends to `self.args` itself and returns it */
    method GetArgs() returns (a: seq<string>)
      modifies this`args
      ensures args == old(args) + ArgsSuffix(userName, config.debug)
      ensures a == args
    {
      args := args + ["loopback-custom-base-url=" + userName];
      if config.debug {
        args := args + ["--debug"];
      }
      a := args;
    }

    /** `get_env`: a copy of `self.env` with the user's variables added */
    method GetEnv() returns (r: Result<map<string, string>, StartError>)
      modifies this`env
      ensures env.Some?
      ensures old(env).Some? ==> env == old(env)
      ensures old(env).None? ==> DefaultEnvOf(env.value, environ, config.envKeep, apiToken)
      ensures r.Err? <==> userName !in passwd
      ensures r.Err? ==> r.error == UnknownUser(userName)
      ensures r.Ok? ==> UserEnvOf(r.value, env.value, userName, passwd[userName])
    {
      if env.None? {
        var e := EnvDefault(environ, config.envKeep, apiToken);
        env := Some(e);
      }
      r := UserEnv(env.value, userName, passwd);
    }

    /**
     * `start`: launch a new process with `cmd + get_args()`.  There is no
     * check for a process that is already running.
     */
    method Start() returns (r: Result<(), StartError>, ghost spawnEnv: map<string, string>)
      requires Valid()
      modifies this`env, this`args, this`log, this`proc, this`pid, host
      ensures Valid()
      ensures PollerState() == old(PollerState()) && steps == old(steps)
      ensures apiToken == old(apiToken) && env.Some?
      ensures old(env).Some? ==> env == old(env)
      ensures old(env).None? ==> DefaultEnvOf(env.value, environ, config.envKeep, apiToken)
      ensures r.Err? && r.error.UnknownUser? <==> userName !in passwd
      ensures userName !in passwd ==> args == old(args) && host.calls == old(host.calls) && log == old(log)
      ensures userName in passwd ==>
                args == old(args) + ArgsSuffix(userName, config.debug) &&
                log == old(log) + [Spawning(config.cmd + args)] &&
                host.calls == old(host.calls) + [ExecCall(config.cmd + args, spawnEnv,
                                                          host.execReply(old(host.calls), config.cmd + args, spawnEnv))] &&
                UserEnvOf(spawnEnv, env.value, userName, passwd[userName])
      ensures r.Ok? ==> fresh(proc) && proc.pid == pid && proc.returncode.None? && !Dead()
      ensures r.Ok? ==> host.execReply(old(host.calls), config.cmd + args, spawnEnv) == Ok(pid)
      ensures r.Err? ==> proc == old(proc) && pid == old(pid) && apiToken == old(apiToken)
    {
      var e := GetEnv();
      if e.Err? {
        r, spawnEnv := Err(e.error), map[];
      } else {
        spawnEnv := e.value;
        r := Launch(e.value);
      }
    }

    /** The rest of `start` once the environment is built: argv, the log line, Popen. */
    method Launch(spawnEnv: map<string, string>) returns (r: Result<(), StartError>)
      requires Valid()
      modifies this`args, this`log, this`proc, this`pid, host
      ensures Valid()
      ensures args == old(args) + ArgsSuffix(userName, config.debug)
      ensures log == old(log) + [Spawning(config.cmd + args)]
      ensures host.calls == old(host.calls) + [ExecCall(config.cmd + args, spawnEnv,
                                                        host.execReply(old(host.calls), config.cmd + args, spawnEnv))]
      ensures r.Ok? ==> fresh(proc) && proc.pid == pid && proc.returncode.None? && !Dead()
      ensures r.Ok? ==> host.execReply(old(host.calls), config.cmd + args, spawnEnv) == Ok(pid)
      ensures r.Err? ==> r.error.ExecFailed? && proc == old(proc) && pid == old(pid)
    {
      var a := GetArgs();
      var argv := config.cmd + a;
      log := log + [Spawning(argv)];
      var p := host.Spawn(argv, spawnEnv);
      if p.Err? {
        r := Err(ExecFailed(p.error));
      } else {
        proc := p.value;
        pid := proc.pid;
        r := Ok(());
      }
    }

    /** `_signal`: False when the process is gone (ESRCH); any other OS error is raised */
    method Signal(sig: int) returns (r: Result<bool, int>)
      modifies this`steps, host
      ensures host.calls == old(host.calls) + [KillCall(pid, sig, host.killReply(old(host.calls), pid, sig))]
      ensures host.killReply(old(host.calls), pid, sig) == Delivered ==> r == Ok(true)
      ensures host.killReply(old(host.calls), pid, sig) == Failed(ESRCH) ==> r == Ok(false)
      ensures r.Err? <==> host.killReply(old(host.calls), pid, sig).Failed? && host.killReply(old(host.calls), pid, sig).errno != ESRCH
      ensures r.Err? ==> r.error == host.killReply(old(host.calls), pid, sig).errno
      ensures steps == old(steps) + (if sig != 0 then [Sent(sig)] else [])
    {
      var outcome := host.Kill(pid, sig);
      if sig != 0 {
        steps := steps + [Sent(sig)];
      }
      match outcome
      case Delivered => r := Ok(true);
      case Failed(errno) => r := if errno == ESRCH then Ok(false) else Err(errno);
    }

    /**
     * `poll`: None while the process runs, an exit status (0 if unknown)
     * once it is gone, in which case the state is cleared.
     */
    method Poll() returns (r: Result<Option<int>, int>)
      requires Valid()
      modifies this, host, proc
      ensures Valid()
      ensures proc == old(proc) && PollerState() == old(PollerState())
      ensures args == old(args) && env == old(env) && log == old(log)
      ensures steps == old(steps) + (if r.Ok? then [Polled(r.value)] else [])
      ensures old(Dead()) ==> r.Ok? && r.value.Some? && host.calls == old(host.calls)
      ensures old(Dead()) ==> Dead()
      ensures r.Ok? && r.value.Some? ==> Dead() && pid == 0 && apiToken == ""
      ensures !(r.Ok? && r.value.Some?) ==> !Dead() && pid == old(pid) && apiToken == old(apiToken)
      ensures r == Ok(None) ==>
                (proc != null && host.calls == old(host.calls) + [WaitCall(proc.pid, None)]) ||
                (proc == null && old(pid) != 0 && host.calls == old(host.calls) + [KillCall(old(pid), 0, Delivered)])
      ensures r.Err? ==>
                proc == null && old(pid) != 0 && r.error != ESRCH &&
                host.calls == old(host.calls) + [KillCall(old(pid), 0, Failed(r.error))]
      ensures proc == null && old(pid) == 0 ==> r == Ok(Some(0))
      ensures proc != null ==> r.Ok? && r.value == proc.returncode
      ensures proc != null && !old(Dead()) ==>
                r.value == host.waitReply(old(host.calls), proc.pid) &&
                host.calls == old(host.calls) + [WaitCall(proc.pid, r.value)]
      ensures proc == null && r.Ok? && r.value.Some? ==> r.value == Some(0)
      ensures proc == null && old(pid) != 0 && r.Ok? && r.value.Some? ==>
                host.calls == old(host.calls) + [KillCall(old(pid), 0, Failed(ESRCH))]
    {
      if proc != null {
        var status := proc.Poll();
        if status.Some? {
          ClearState();
        }
        steps := steps + [Polled(status)];
        return Ok(status);
      }
      if pid == 0 {
        ClearState();
        steps := steps + [Polled(Some(0))];
        return Ok(Some(0));
      }
      var alive := Signal(0);
      if alive.Err? {
        return Err(alive.error);
      }
      if !alive.value {
        ClearState();
        steps := steps + [Polled(Some(0))];
        return Ok(Some(0));
      }
      steps := steps + [Polled(None)];
      r := Ok(None);
    }

    /**
     * `wait_for_death(timeout)`: poll up to `int(timeout / death_interval)`
     * times, sleeping between polls, and stop at the first exit status.
     */
    method WaitForDeath(timeout: int) returns (r: Result<(), int>, ghost w: seq<Step>)
      requires Valid()
      modifies this, host, proc
      ensures Valid()
      ensures proc == old(proc) && PollerState() == old(PollerState())
      ensures args == old(args) && env == old(env) && log == old(log)
      ensures steps == old(steps) + w
      ensures Signals(w) == []
      ensures r.Ok? ==> WaitSteps(w, DeathPolls(timeout))
      ensures old(Dead()) ==> Dead()
      ensures EndsInDeath(w) ==> Dead() && pid == 0 && apiToken == ""
      ensures !Dead() ==> pid == old(pid) && apiToken == old(apiToken)
    {
      var n := DeathPolls(timeout);
      var i := 0;
      w := [];
      while i < n
        invariant 0 <= i <= n && w == AlivePolls(i)
        invariant Valid() && proc == old(proc) && PollerState() == old(PollerState())
        invariant args == old(args) && env == old(env) && log == old(log)
        invariant steps == old(steps) + w
        invariant old(Dead()) ==> Dead()
        invariant !Dead() ==> pid == old(pid) && apiToken == old(apiToken)
      {
        var status := Poll();
        if status.Err? {
          WaitStepsIntro(i, i, []);
          assert w + [] == w;
          WaitSendsNothing(w, i);
          return Err(status.error), w;
        }
        AppendOne(old(steps), w, Polled(status.value));
        if status.value.Some? {
          w := w + [Polled(status.value)];
          WaitStepsIntro(i, n, [Polled(status.value)]);
          WaitSendsNothing(w, n);
          return Ok(()), w;
        }
        host.Sleep();
        steps := steps + [Slept];
        AppendTwo(old(steps), w, Polled(None), Slept, []);
        assert [Polled(None), Slept] + [] == [Polled(None), Slept];
        w := w + [Polled(None), Slept];
        i := i + 1;
      }
      WaitStepsIntro(n, n, []);
      assert w + [] == w;
      WaitSendsNothing(w, n);
      r := Ok(());
    }

    /**
     * What `stop` has done after the full stages `ws`: their trace after the
     * steps `base` that came before the stop, their log lines, and the
     * process state.
     */
    ghost predicate Stopping(base: seq<Step>, ws: seq<seq<Step>>, sigs: seq<int>, bounds: seq<nat>,
                             pid0: int, token0: string, log0: seq<LogLine>)
      reads this, proc
    {
      && FullStages(ws, sigs, bounds)
      && steps == base + Stages(ws, sigs)
      && (ws != [] && EndsInDeath(ws[|ws| - 1]) ==> Dead())
      && (!Dead() ==> pid == pid0 && apiToken == token0)
      && log == log0 + SignalLog(sigs[..|ws|], pid0)
    }

    /**
     * One stage of `stop`, the block the source repeats for SIGINT, SIGTERM
     * and SIGKILL: poll and end the stop if the process is gone (`Ok(true)`);
     * otherwise log, send `sig` and wait up to `timeout` seconds for the
     * process to die (`Ok(false)`, with `w` the trace of the wait).  When the
     * stop ends here, `t` is its whole trace.
     */
    method StopStage(sig: int, timeout: int, ghost base: seq<Step>, ghost ws: seq<seq<Step>>, ghost sigs: seq<int>,
                     ghost bounds: seq<nat>, ghost pid0: int, ghost token0: string, ghost log0: seq<LogLine>)
      returns (r: Result<bool, int>, ghost w: seq<Step>, ghost t: seq<Step>)
      requires Valid() && Stopping(base, ws, sigs, bounds, pid0, token0, log0)
      requires |ws| < |sigs| && sig == sigs[|ws|] && sig != 0 && bounds[|ws|] == DeathPolls(timeout)
      modifies this, host, proc
      ensures Valid()
      ensures proc == old(proc) && PollerState() == old(PollerState())
      ensures args == old(args) && env == old(env)
      ensures r == Ok(false) ==> Stopping(base, ws + [w], sigs, bounds, pid0, token0, log0)
      ensures r.Err? || r.value ==>
                steps == base + t &&
                StopOutcome(t, sigs, bounds, r.Ok?, Dead(), pid, apiToken, log, pid0, token0, log0)
    {
      w, t := [], Stages(ws, sigs);
      var status := Poll();
      if status.Err? {
        OutcomeBeforeSignal(ws, sigs, bounds, Dead(), pid, apiToken, pid0, token0, log0);
        r := Err(status.error);
      } else if status.value.Some? {
        t := Stages(ws, sigs) + [Polled(status.value)];
        AppendOne(base, Stages(ws, sigs), Polled(status.value));
        OutcomeAtPoll(ws, status.value, sigs, bounds, pid, apiToken, pid0, token0, log0);
        r := Ok(true);
      } else {
        var sent;
        sent, w, t := SendAndWait(sig, timeout, base, ws, sigs, bounds, pid0, token0, log0);
        r := if sent.Err? then Err(sent.error) else Ok(false);
      }
    }

    /** The rest of a stage once its poll found the process running: log, signal, wait. */
    method SendAndWait(sig: int, timeout: int, ghost base: seq<Step>, ghost ws: seq<seq<Step>>, ghost sigs: seq<int>,
                       ghost bounds: seq<nat>, ghost pid0: int, ghost token0: string, ghost log0: seq<LogLine>)
      returns (r: Result<(), int>, ghost w: seq<Step>, ghost t: seq<Step>)
      requires Valid() && !Dead() && pid == pid0 && apiToken == token0
      requires FullStages(ws, sigs, bounds) && steps == (base + Stages(ws, sigs)) + [Polled(None)]
      requires ws != [] ==> !EndsInDeath(ws[|ws| - 1])
      requires log == log0 + SignalLog(sigs[..|ws|], pid0)
      requires |ws| < |sigs| && sig == sigs[|ws|] && sig != 0 && bounds[|ws|] == DeathPolls(timeout)
      modifies this, host, proc
      ensures Valid()
      ensures proc == old(proc) && PollerState() == old(PollerState())
      ensures args == old(args) && env == old(env)
      ensures r.Ok? ==> Stopping(base, ws + [w], sigs, bounds, pid0, token0, log0)
      ensures r.Err? ==>
                steps == base + t &&
                StopOutcome(t, sigs, bounds, false, Dead(), pid, apiToken, log, pid0, token0, log0)
    {
      log := log + [SignalLine(sig, pid)];
      SignalLogSnoc(log0, sigs[..|ws|], sig, pid0);
      var sent := Signal(sig);
      if sent.Err? {
        SignalsOfStageHead(Polled(None), sig);
        w, t := [], Stages(ws, sigs) + [Polled(None), Sent(sig)];
        AppendTwo(base, Stages(ws, sigs), Polled(None), Sent(sig), []);
        assert [Polled(None), Sent(sig)] + [] == [Polled(None), Sent(sig)];
        OutcomeAfterSignal(ws, [Polled(None), Sent(sig)], sigs, bounds, Dead(), pid, apiToken, pid0, token0, log0);
        r := Err(sent.error);
      } else {
        r, w, t := WaitAfterSignal(sig, timeout, base, ws, sigs, bounds, pid0, token0, log0);
      }
    }

    /** The wait that follows a delivered signal, closing its stage. */
    method WaitAfterSignal(sig: int, timeout: int, ghost base: seq<Step>, ghost ws: seq<seq<Step>>, ghost sigs: seq<int>,
                           ghost bounds: seq<nat>, ghost pid0: int, ghost token0: string, ghost log0: seq<LogLine>)
      returns (r: Result<(), int>, ghost w: seq<Step>, ghost t: seq<Step>)
      requires Valid() && !Dead() && pid == pid0 && apiToken == token0
      requires FullStages(ws, sigs, bounds) && steps == (base + Stages(ws, sigs)) + [Polled(None)] + [Sent(sig)]
      requires ws != [] ==> !EndsInDeath(ws[|ws| - 1])
      requires log == log0 + SignalLog(sigs[..|ws|] + [sig], pid0)
      requires |ws| < |sigs| && sig == sigs[|ws|] && bounds[|ws|] == DeathPolls(timeout)
      modifies this, host, proc
      ensures Valid()
      ensures proc == old(proc) && PollerState() == old(PollerState())
      ensures args == old(args) && env == old(env)
      ensures r.Ok? ==> Stopping(base, ws + [w], sigs, bounds, pid0, token0, log0)
      ensures r.Err? ==>
                steps == base + t &&
                StopOutcome(t, sigs, bounds, false, Dead(), pid, apiToken, log, pid0, token0, log0)
    {
      var waited;
      waited, w := WaitForDeath(timeout);
      var tail := [Polled(None), Sent(sig)] + w;
      t := Stages(ws, sigs) + tail;
      AppendTwo(base, Stages(ws, sigs), Polled(None), Sent(sig), w);
      SignalsOfStageHead(Polled(None), sig);
      SignalsAppend([Polled(None), Sent(sig)], w);
      if waited.Err? {
        OutcomeAfterSignal(ws, tail, sigs, bounds, Dead(), pid, apiToken, pid0, token0, log0);
        r := Err(waited.error);
      } else {
        StagesGrow(ws, w, sigs, bounds);
        r := Ok(());
      }
    }

    /**
     * The stages of `stop(now)`: SIGINT (skipped when `now`), SIGTERM and
     * SIGKILL.  Either the stop ends in one of them (`Ok(true)` or an
     * error), or all of them ran (`Ok(false)`) and `ws` are their waits.
     */
    method Escalate(now: bool, ghost base: seq<Step>, ghost pid0: int, ghost token0: string, ghost log0: seq<LogLine>)
      returns (r: Result<bool, int>, ghost ws: seq<seq<Step>>, ghost t: seq<Step>)
      requires Valid() && steps == base && pid == pid0 && apiToken == token0 && log == log0
      modifies this, host, proc
      ensures Valid()
      ensures proc == old(proc) && PollerState() == old(PollerState())
      ensures args == old(args) && env == old(env)
      ensures r == Ok(false) ==>
                |ws| == |Ladder(now)| &&
                Stopping(base, ws, Ladder(now), Bounds(now, config.interruptTimeout, config.termTimeout, config.killTimeout),
                         pid0, token0, log0)
      ensures r.Err? || r.value ==>
                steps == base + t &&
                StopOutcome(t, Ladder(now), Bounds(now, config.interruptTimeout, config.termTimeout, config.killTimeout),
                            r.Ok?, Dead(), pid, apiToken, log, pid0, token0, log0)
    {
      ghost var sigs := Ladder(now);
      ghost var bounds := Bounds(now, config.interruptTimeout, config.termTimeout, config.killTimeout);
      ws := [];
      ghost var w: seq<Step>;
      assert base + [] == base;
      if !now {
        r, w, t := StopStage(SIGINT, config.interruptTimeout, base, ws, sigs, bounds, pid0, token0, log0);
        if r.Err? || r.value {
          return;
        }
        ws := ws + [w];
      }
      r, w, t := StopStage(SIGTERM, config.termTimeout, base, ws, sigs, bounds, pid0, token0, log0);
      if r.Err? || r.value {
        return;
      }
      ws := ws + [w];
      r, w, t := StopStage(SIGKILL, config.killTimeout, base, ws, sigs, bounds, pid0, token0, log0);
      if r.Ok? && !r.value {
        ws := ws + [w];
      }
    }

    /**
     * `stop(now)`: escalate SIGINT (skipped when `now`), SIGTERM, SIGKILL,
     * polling before each signal and waiting for death after it; give up
     * with a warning when the process survives all three.  `t` is the trace
     * of the stop; `StopOutcome` spells out what it promises.
     */
    method Stop(now: bool) returns (r: Result<(), int>, ghost t: seq<Step>)
      requires Valid()
      modifies this, host, proc
      ensures Valid()
      ensures proc == old(proc) && PollerState() == old(PollerState())
      ensures args == old(args) && env == old(env)
      ensures steps == old(steps) + t
      ensures StopOutcome(t, Ladder(now), Bounds(now, config.interruptTimeout, config.termTimeout, config.killTimeout),
                          r.Ok?, Dead(), pid, apiToken, log, old(pid), old(apiToken), old(log))
    {
      ghost var sigs := Ladder(now);
      ghost var bounds := Bounds(now, config.interruptTimeout, config.termTimeout, config.killTimeout);
      var gone;
      ghost var ws;
      gone, ws, t := Escalate(now, steps, pid, apiToken, log);
      if gone.Err? || gone.value {
        return if gone.Err? then Err(gone.error) else Ok(()), t;
      }
      ghost var polling := log;
      var status := Poll();
      if status.Err? {
        t := Stages(ws, sigs);
        OutcomeBeforeSignal(ws, sigs, bounds, Dead(), pid, apiToken, old(pid), old(apiToken), old(log));
        r := Err(status.error);
      } else {
        if status.value.None? {
          log := log + [NeverDied(pid)];
        }
        t := Stages(ws, sigs) + [Polled(status.value)];
        AppendOne(old(steps), Stages(ws, sigs), Polled(status.value));
        OutcomeAtPoll(ws, status.value, sigs, bounds, pid, apiToken, old(pid), old(apiToken), old(log));
        r := Ok(());
      }
    }

    /** `add_poll_callback`: extra arguments are bound into a closure, and the callback is queued */
    method AddPollCallback(fn: string, cbArgs: seq<string>, cbKwargs: map<string, string>)
      modifies this`callbacks
      ensures callbacks == old(callbacks) + [if cbArgs != [] || cbKwargs != map[] then Bound(fn, cbArgs, cbKwargs) else Plain(fn)]
    {
      var cb := Plain(fn);
      if cbArgs != [] || cbKwargs != map[] {
        cb := Bound(fn, cbArgs, cbKwargs);
      }
      callbacks := callbacks + [cb];
    }

    /** `stop_polling`: stop the periodic poll when there is one */
    method StopPolling()
      requires Valid()
      modifies this`pollCallback, this`timers
      ensures Valid()
      ensures pollCallback == None && Running(timers) == {}
      ensures timers == old(timers) + (if old(pollCallback).Some? then [TimerStopped(old(pollCallback).value)] else [])
    {
      if pollCallback.Some? {
        RunningWereStarted(timers, pollCallback.value);
        RunningAfter(timers, TimerStopped(pollCallback.value));
        timers := timers + [TimerStopped(pollCallback.value)];
        pollCallback := None;
      }
    }

    /**
     * `start_polling`: with a positive `poll_interval`, replace any running
     * poll timer by a fresh one firing `poll_and_notify` every interval.
     */
    method StartPolling()
      requires Valid()
      modifies this`pollCallback, this`timers, this`nextTimer, this`log
      ensures Valid()
      ensures config.pollInterval <= 0 ==>
                log == old(log) + [NotPolling] &&
                pollCallback == old(pollCallback) && timers == old(timers) && nextTimer == old(nextTimer)
      ensures config.pollInterval > 0 ==>
                log == old(log) + [PollingEvery(config.pollInterval)] &&
                pollCallback == Some(old(nextTimer)) && nextTimer == old(nextTimer) + 1 &&
                timers == old(timers)
                          + (if old(pollCallback).Some? then [TimerStopped(old(pollCallback).value)] else [])
                          + [TimerStarted(old(nextTimer), 1000 * config.pollInterval)]
      ensures config.pollInterval > 0 ==> Running(timers) == {old(nextTimer)}
    {
      if config.pollInterval <= 0 {
        log := log + [NotPolling];
        return;
      }
      log := log + [PollingEvery(config.pollInterval)];
      StopPolling();
      var id := nextTimer;
      var started := TimerStarted(id, 1000 * config.pollInterval);
      RunningAfter(timers, started);
      IdsBelowAfter(timers, started, id);
      timers, nextTimer, pollCallback := timers + [started], id + 1, Some(id);
    }

    /**
     * `poll_and_notify`: poll; once the process is gone, stop polling and
     * hand every registered callback, in order, to the event loop.
     */
    method PollAndNotify() returns (status: Result<Option<int>, int>)
      requires Valid()
      modifies this, host, proc
      ensures Valid()
      ensures callbacks == old(callbacks) && nextTimer == old(nextTimer)
      ensures proc == old(proc) && args == old(args) && env == old(env) && log == old(log)
      ensures steps == old(steps) + (if status.Ok? then [Polled(status.value)] else [])
      ensures old(Dead()) ==> status.Ok? && status.value.Some? && host.calls == old(host.calls)
      ensures status.Ok? && status.value.Some? <==> Dead()
      ensures status.Ok? && status.value.Some? ==> pid == 0 && apiToken == ""
      ensures !(status.Ok? && status.value.Some?) ==> pid == old(pid) && apiToken == old(apiToken)
      ensures status == Ok(None) ==>
                (proc != null && host.calls == old(host.calls) + [WaitCall(proc.pid, None)]) ||
                (proc == null && old(pid) != 0 && host.calls == old(host.calls) + [KillCall(old(pid), 0, Delivered)])
      ensures status.Err? ==>
                proc == null && old(pid) != 0 && status.error != ESRCH &&
                host.calls == old(host.calls) + [KillCall(old(pid), 0, Failed(status.error))]
      ensures proc != null ==> status.Ok? && status.value == proc.returncode
      ensures proc != null && !old(Dead()) ==>
                status.value == host.waitReply(old(host.calls), proc.pid) &&
                host.calls == old(host.calls) + [WaitCall(proc.pid, status.value)]
      ensures proc == null && status.Ok? && status.value.Some? ==> status.value == Some(0)
      ensures proc == null && old(pid) != 0 && status.Ok? && status.value.Some? ==>
                host.calls == old(host.calls) + [KillCall(old(pid), 0, Failed(ESRCH))]
      ensures status.Ok? && status.value.Some? ==>
                pollCallback == None && Running(timers) == {} && scheduled == old(scheduled) + callbacks
      ensures !(status.Ok? && status.value.Some?) ==>
                pollCallback == old(pollCallback) && timers == old(timers) && scheduled == old(scheduled)
    {
      status := Poll();
      if status.Err? || status.value.None? {
        return;
      }
      StopPolling();
      var i := 0;
      while i < |callbacks|
        invariant 0 <= i <= |callbacks|
        invariant scheduled == old(scheduled) + callbacks[..i]
        modifies this`scheduled
      {
        scheduled := scheduled + [callbacks[i]];
        i := i + 1;
      }
    }
  }
}
