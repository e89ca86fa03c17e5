/** container_exec.go: what Container.Exec sends to the engine, and the
    decisions of ExecSession.PID and ExecSession.Wait. The stream pumps and
    the `done` channel they close are not modelled; what PID and Wait see of
    that channel is a parameter. */
module ContainerExec {
  import opened Results
  import opened Moby
  import Opts
  import ExecOptions

  /** The options before any Opt runs: only the command is set. */
  function Initial(cmd: seq<string>): (o: ExecOptions.Options)
    ensures o.conf.cmd == cmd && o.input.None? && o.out.None? && o.err.None?
  {
    ExecOptions.Zero.(conf := ExecOptions.Zero.conf.(cmd := cmd))
  }

  /** After the options: output defaults to io.Discard, stdout and stderr
      are always attached, stdin exactly when an input is set. */
  function Prepared(o: ExecOptions.Options): (r: ExecOptions.Options)
    ensures r.out == Some(o.out.GetOr(Discard)) && r.input == o.input && r.err == o.err
    ensures r.conf.attachStdout && r.conf.attachStderr
    ensures r.conf.attachStdin <==> o.input.Some?
    ensures r.conf == o.conf.(attachStdout := true, attachStderr := true, attachStdin := o.input.Some?)
  {
    o.(out := Some(o.out.GetOr(Discard)),
       conf := o.conf.(attachStdout := true, attachStderr := true, attachStdin := o.input.Some?))
  }

  /** Container.Exec on the container `id`, the engine's replies starting
      at script(n); a success yields the exec ID. */
  function ExecTrace(id: string, cmd: seq<string>, opts: seq<ExecOptions.Opt>, script: nat -> Reply, n: nat): Trace<string>
  {
    match Opts.Applied(Initial(cmd), opts)
    case Err(e) => Trace([], Err(Wrapped(ExecOption, e)))
    case Ok(o) =>
      var conf := Prepared(o).conf;
      if script(n).err.Some? then
        Trace([ContainerInspect(id)], Err(Wrapped(ExecInspect, script(n).err.value)))
      else if script(n + 1).err.Some? then
        Trace([ContainerInspect(id), ContainerExecCreate(id, conf)], Err(Wrapped(ExecCreate, script(n + 1).err.value)))
      else
        var execID := script(n + 1).id;
        var calls := [ContainerInspect(id), ContainerExecCreate(id, conf),
                      ContainerExecAttach(execID, conf.tty, conf.consoleSize)];
        if script(n + 2).err.Some? then Trace(calls, Err(Wrapped(ExecAttach, script(n + 2).err.value)))
        else Trace(calls, Ok(execID))
  }

  /** A failing option ends Exec before any engine call. */
  lemma OptionFailureFirst(id: string, cmd: seq<string>, opts: seq<ExecOptions.Opt>, script: nat -> Reply, n: nat)
    requires Opts.Applied(Initial(cmd), opts).Err?
    ensures ExecTrace(id, cmd, opts, script, n) ==
              Trace([], Err(Wrapped(ExecOption, Opts.Applied(Initial(cmd), opts).error)))
  {
  }

  /** The container is inspected before anything else, and a failed
      inspection means no exec is ever created. Every exec that is created
      attaches stdout and stderr, stdin exactly when an input is set, and
      the attach request carries the config's TTY flag and console size.
      A success makes three calls and yields the ID of the created exec. */
  lemma CallOrder(id: string, cmd: seq<string>, opts: seq<ExecOptions.Opt>, script: nat -> Reply, n: nat)
    requires Opts.Applied(Initial(cmd), opts).Ok?
    ensures var t := ExecTrace(id, cmd, opts, script, n);
      |t.calls| >= 1 && t.calls[0] == ContainerInspect(id)
    ensures var t := ExecTrace(id, cmd, opts, script, n);
      script(n).err.Some? ==> |t.calls| == 1 && t.result.Err?
    ensures var t := ExecTrace(id, cmd, opts, script, n);
      var o := Opts.Applied(Initial(cmd), opts).value;
      forall c <- t.calls :: c.ContainerExecCreate? ==>
        c.id == id && c.execConf.attachStdout && c.execConf.attachStderr &&
        (c.execConf.attachStdin <==> o.input.Some?)
    ensures var t := ExecTrace(id, cmd, opts, script, n);
      |t.calls| == 3 ==>
        t.calls[2] == ContainerExecAttach(script(n + 1).id, t.calls[1].execConf.tty, t.calls[1].execConf.consoleSize)
    ensures var t := ExecTrace(id, cmd, opts, script, n);
      t.result.Ok? <==> |t.calls| == 3 && script(n + 2).err.None?
    ensures var t := ExecTrace(id, cmd, opts, script, n);
      t.result.Ok? ==> t.result.value == script(n + 1).id
  {
  }

  /** ExecSession.PID: inspect the exec; a running command with a PID
      returns that PID; otherwise the command has already terminated when
      the output is done, and else there is a nap and another try.
      `done(k)` says whether the session's output has finished by the time
      the engine has answered k calls. */
  function ExecPid(script: nat -> Reply, done: nat -> bool, n: nat, naps: nat): (p: Poll)
    ensures 1 <= p.inspects <= naps + 1 && p.naps == naps - (p.inspects - 1)
    decreases naps
  {
    var r := script(n);
    if r.err.Some? then Poll(1, Err(Wrapped(ExecPidInspect, r.err.value)), naps)
    else if r.exec.running && r.exec.pid != 0 then Poll(1, Ok(r.exec.pid), naps)
    else if done(n + 1) then Poll(1, Err(AlreadyTerminated), naps)
    else if naps == 0 then Poll(1, Err(ContextDone), 0)
    else
      var p := ExecPid(script, done, n + 1, naps - 1);
      Poll(p.inspects + 1, p.result, p.naps)
  }

  /** A polling round that neither returns nor gives up: the inspection
      succeeded, the command was not yet running with a PID, and its output
      was not yet done. */
  predicate Early(script: nat -> Reply, done: nat -> bool, k: nat)
  {
    script(k).err.None? && !(script(k).exec.running && script(k).exec.pid != 0) && !done(k + 1)
  }

  /** PID returns the PID of the first inspection that shows the command
      running with a PID; every round before was too early; "already
      terminated" comes only once the output is done, and only when the
      last inspection showed no running command with a PID. */
  lemma {:induction false} ExecPidFirst(script: nat -> Reply, done: nat -> bool, n: nat, naps: nat)
    ensures var p := ExecPid(script, done, n, naps);
      forall k :: n <= k < n + p.inspects - 1 ==> Early(script, done, k)
    ensures var p := ExecPid(script, done, n, naps);
      var last := script(n + p.inspects - 1);
      p.result.Ok? ==> last.err.None? && last.exec.running && last.exec.pid != 0 && p.result.value == last.exec.pid
    ensures var p := ExecPid(script, done, n, naps);
      var last := script(n + p.inspects - 1);
      p.result == Err(AlreadyTerminated) ==>
        last.err.None? && !(last.exec.running && last.exec.pid != 0) && done(n + p.inspects)
    ensures var p := ExecPid(script, done, n, naps);
      p.result == Err(ContextDone) ==> p.inspects == naps + 1 && p.naps == 0
    decreases naps
  {
    var r := script(n);
    if r.err.None? && !(r.exec.running && r.exec.pid != 0) && !done(n + 1) && naps > 0 {
      ExecPidFirst(script, done, n + 1, naps - 1);
      var p := ExecPid(script, done, n + 1, naps - 1);
      assert Early(script, done, n);
    }
  }

  /** A failed inspection ends ExecSession.PID with that error, and only a
      failed inspection ends it with an inspection error. */
  lemma {:induction false} ExecPidInspectFailure(script: nat -> Reply, done: nat -> bool, n: nat, naps: nat)
    ensures var p := ExecPid(script, done, n, naps);
      var last := script(n + p.inspects - 1);
      (last.err.Some? ==> p.result == Err(Wrapped(ExecPidInspect, last.err.value))) &&
      (p.result.Err? && p.result.error.Wrapped? && p.result.error.op == ExecPidInspect ==> last.err.Some?)
    decreases naps
  {
    var r := script(n);
    if r.err.None? && !(r.exec.running && r.exec.pid != 0) && !done(n + 1) && naps > 0 {
      ExecPidInspectFailure(script, done, n + 1, naps - 1);
    }
  }

  /** ExecSession.Wait: `ctxFirst` says whether the context's cancellation
      wins the select against the end of the output. */
  function WaitTrace(execID: string, ctxFirst: bool, script: nat -> Reply, n: nat): Trace<int>
  {
    if ctxFirst then Trace([], Err(ContextDone))
    else
      var r := script(n);
      if r.err.Some? then Trace([ContainerExecInspect(execID)], Err(Wrapped(WaitInspect, r.err.value)))
      else if r.exec.running then Trace([ContainerExecInspect(execID)], Err(StillAlive))
      else Trace([ContainerExecInspect(execID)], Ok(r.exec.exitCode))
  }

  /** Wait returns the exit code only after the output is done and the
      exec shows as no longer running; a cancellation first means no
      inspection at all. */
  lemma WaitRule(execID: string, ctxFirst: bool, script: nat -> Reply, n: nat)
    ensures var t := WaitTrace(execID, ctxFirst, script, n);
      ctxFirst ==> t.calls == [] && t.result == Err(ContextDone)
    ensures var t := WaitTrace(execID, ctxFirst, script, n);
      !ctxFirst ==> t.calls == [ContainerExecInspect(execID)]
    ensures var t := WaitTrace(execID, ctxFirst, script, n);
      t.result.Ok? <==> !ctxFirst && script(n).err.None? && !script(n).exec.running
    ensures var t := WaitTrace(execID, ctxFirst, script, n);
      t.result.Ok? ==> t.result.value == script(n).exec.exitCode
  {
  }
}
