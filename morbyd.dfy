/** The morbyd package: sessions, containers and exec sessions, and the
    operations that drive the Docker engine through a Client. Each
    operation is proved to send exactly the calls, and to return exactly
    the result, of its trace function in the modules ContainerRun,
    ContainerExec, NetworkCreation, Sessions and Containers; the lemmas
    there state what those traces promise. */
module Morbyd {
  import opened Results
  import opened Text
  import opened Moby
  import Sleep
  import Opts
  import RunOptions
  import ExecOptions
  import NetOptions
  import SessionOptions
  import ContainerRun
  import ContainerExec
  import NetworkCreation
  import Sessions
  import Containers
  import Address

  /** A test session: its options and its Docker client. */
  class Session {
    const opts: SessionOptions.Options
    const moby: Client

    constructor(opts: SessionOptions.Options, moby: Client)
      ensures this.opts == opts && this.moby == moby
    {
      this.opts := opts;
      this.moby := moby;
    }

    /** Removes the listed containers (forcibly, with their volumes) or
        networks in list order, stopping at the first failed removal; `ok`
        tells whether all were removed. */
    method RemoveListed(ids: seq<string>, containers: bool) returns (ok: bool)
      modifies moby
      ensures moby.log == old(moby.log) + Sessions.RemoveEach(ids, containers, moby.script, |old(moby.log)|)
      ensures moby.options == old(moby.options)
      ensures ok <==> Sessions.AllRemoved(ids, moby.script, |old(moby.log)|)
      ensures ok ==> |moby.log| == |old(moby.log)| + |ids|
    {
      ghost var n0 := |moby.log|;
      var i := 0;
      while i < |ids|
        invariant 0 <= i <= |ids| && |moby.log| == n0 + i
        invariant old(moby.log) + Sessions.RemoveEach(ids, containers, moby.script, n0)
                  == moby.log + Sessions.RemoveEach(ids[i..], containers, moby.script, n0 + i)
        invariant forall k :: n0 <= k < n0 + i ==> moby.script(k).err.None?
        invariant moby.options == old(moby.options)
      {
        assert ids[i..][1..] == ids[i + 1..];
        ghost var before := moby.log;
        var err;
        if containers {
          err := moby.ContainerRemoveCall(ids[i], true, true);
        } else {
          err := moby.NetworkRemoveCall(ids[i]);
        }
        assert moby.log == before + [Sessions.Removal(ids[i], containers)];
        if err.Some? {
          return false;
        }
        Appended(before, [Sessions.Removal(ids[i], containers)],
                 Sessions.RemoveEach(ids[i + 1..], containers, moby.script, n0 + i + 1));
        i := i + 1;
      }
      assert moby.log + Sessions.RemoveEach(ids[i..], containers, moby.script, n0 + i) == moby.log;
      return true;
    }

    /** AutoClean: see Sessions.AutoCleanCalls. */
    method AutoClean()
      modifies moby
      ensures moby.log == old(moby.log) + Sessions.AutoCleanCalls(opts.autoCleaningLabel, moby.script, |old(moby.log)|)
      ensures moby.options == old(moby.options)
    {
      if opts.autoCleaningLabel == "" {
        return;
      }
      ghost var n := |moby.log|;
      var f := Sessions.Filter(opts.autoCleaningLabel);
      var ok := RemoveContainers(f);
      if ok {
        ghost var m := |moby.log|;
        RemoveNetworks(f);
        Appended(old(moby.log), Sessions.ContainerCalls(f, moby.script, n), Sessions.NetworkCalls(f, moby.script, m));
      }
    }

    /** The container half of AutoClean: lists the containers carrying the
        label and removes them; `ok` tells whether all went. */
    method RemoveContainers(f: string) returns (ok: bool)
      modifies moby
      ensures moby.log == old(moby.log) + Sessions.ContainerCalls(f, moby.script, |old(moby.log)|)
      ensures ok <==> Sessions.ContainersCleaned(moby.script, |old(moby.log)|)
      ensures ok ==> |moby.log| == |old(moby.log)| + 1 + |moby.script(|old(moby.log)|).ids|
      ensures moby.options == old(moby.options)
    {
      ghost var n := |moby.log|;
      var cntrs, err := moby.ContainerListCall(f);
      if err.Some? {
        return false;
      }
      ok := RemoveListed(cntrs, true);
      Appended(old(moby.log), [ContainerList(f)], Sessions.RemoveEach(cntrs, true, moby.script, n + 1));
    }

    /** The network half of AutoClean: lists the networks carrying the
        label and removes them. */
    method RemoveNetworks(f: string)
      modifies moby
      ensures moby.log == old(moby.log) + Sessions.NetworkCalls(f, moby.script, |old(moby.log)|)
      ensures moby.options == old(moby.options)
    {
      ghost var m := |moby.log|;
      var nets, nerr := moby.NetworkListCall(f);
      if nerr.Some? {
        return;
      }
      var ok := RemoveListed(nets, false);
      Appended(old(moby.log), [NetworkList(f)], Sessions.RemoveEach(nets, false, moby.script, m + 1));
    }

    /** Close: auto-cleaning, then closing the client. */
    method Close()
      modifies moby
      ensures moby.log == old(moby.log) + Sessions.AutoCleanCalls(opts.autoCleaningLabel, moby.script, |old(moby.log)|) + [Moby.Close]
      ensures moby.options == old(moby.options)
    {
      AutoClean();
      moby.CloseCall();
    }

    /** Run: see ContainerRun.RunTrace. */
    method Run(ref: string, runOpts: seq<RunOptions.Opt>) returns (r: Result<Container>)
      modifies moby
      ensures var t := ContainerRun.RunTrace(opts.labels, ref, runOpts, moby.script, |old(moby.log)|);
        moby.log == old(moby.log) + t.calls && (r.Ok? <==> t.result.Ok?) && (r.Err? ==> r.error == t.result.error)
      ensures var t := ContainerRun.RunTrace(opts.labels, ref, runOpts, moby.script, |old(moby.log)|);
        r.Ok? ==> fresh(r.value) && r.value.session == this && r.value.name == t.result.value.name &&
                  r.value.id == t.result.value.id && r.value.details == t.result.value.details
      ensures moby.options == old(moby.options)
    {
      var copts, e := Opts.ApplyEach(ContainerRun.Initial(opts.labels, ref), runOpts);
      if e.Some? {
        return Err(e.value);
      }
      var made := RunEngine(copts, ref);
      if made.Err? {
        return Err(made.error);
      }
      var cntr := new Container(made.value.name, made.value.id, this, made.value.details);
      return Ok(cntr);
    }

    /** The engine part of Run: see ContainerRun.Engine. */
    method RunEngine(copts: RunOptions.Options, ref: string) returns (r: Result<ContainerRun.Made>)
      modifies moby
      ensures var t := ContainerRun.Engine(copts, ref, moby.script, |old(moby.log)|);
        moby.log == old(moby.log) + t.calls && r == t.result
      ensures moby.options == old(moby.options)
    {
      var ierr, notFound := moby.ImageInspectCall(ref);
      if ierr.Some? && !notFound {
        return Err(Wrapped(RunHasImage, ierr.value));
      }
      ghost var pre := [ImageInspect(ref)];
      if ierr.Some? {
        var perr := moby.ImagePullCall(ref);
        if perr.Some? {
          return Err(Wrapped(RunPull, perr.value));
        }
        pre := [ImageInspect(ref), ImagePull(ref)];
      }
      assert moby.log == old(moby.log) + pre;
      r := StartContainer(ContainerRun.Defaulted(copts));
      Appended(old(moby.log), pre,
               ContainerRun.Started(ContainerRun.Defaulted(copts), moby.script, |old(moby.log)| + |pre|).calls);
    }

    /** Create, then attach, start and inspect: see ContainerRun.Started. */
    method StartContainer(copts: RunOptions.Options) returns (r: Result<ContainerRun.Made>)
      modifies moby
      ensures var t := ContainerRun.Started(copts, moby.script, |old(moby.log)|);
        moby.log == old(moby.log) + t.calls && r == t.result
      ensures moby.options == old(moby.options)
    {
      ghost var n := |moby.log|;
      var id, cerr := moby.ContainerCreateCall(copts.conf, copts.host, copts.name);
      if cerr.Some? {
        return Err(Wrapped(RunCreate, cerr.value));
      }
      r := AttachStartInspect(id, copts.input.Some?);
      ContainerRun.StartedAfterCreate(copts, moby.script, n);
      Appended(old(moby.log), [ContainerCreate(copts.conf, copts.host, copts.name)],
               ContainerRun.AfterCreate(id, copts.input.Some?, moby.script, n + 1).calls);
    }

    /** Attach, start and inspect the created container `id`, removing it
        again when a step fails: see ContainerRun.AfterCreate. */
    method AttachStartInspect(id: string, input: bool) returns (r: Result<ContainerRun.Made>)
      modifies moby
      ensures var t := ContainerRun.AfterCreate(id, input, moby.script, |old(moby.log)|);
        moby.log == old(moby.log) + t.calls && r == t.result
      ensures moby.options == old(moby.options)
    {
      var failure: Option<Error> := None;
      var details := ContainerJSON("", "", None, map[]);
      var aerr := moby.ContainerAttachCall(id, input);
      if aerr.Some? {
        failure := Some(Wrapped(RunAttach, aerr.value));
      } else {
        var serr := moby.ContainerStartCall(id);
        if serr.Some? {
          failure := Some(Wrapped(RunStart, serr.value));
        } else {
          var d, derr := moby.ContainerInspectCall(id);
          if derr.Some? {
            failure := Some(Wrapped(RunInspect, derr.value));
          } else {
            details := d;
          }
        }
      }
      // The deferred removal.
      if failure.Some? {
        var ignored := moby.ContainerRemoveCall(id, true, false);
        return Err(failure.value);
      }
      if |details.name| == 0 {
        return Err(IndexPanic);
      }
      return Ok(ContainerRun.Made(details.name[1..], id, details));
    }

    /** CreateNetwork: see NetworkCreation.NetworkTrace. */
    method CreateNetwork(name: string, netOpts: seq<NetOptions.Opt>) returns (r: Result<NetworkCreation.Network>)
      modifies moby
      ensures var t := NetworkCreation.NetworkTrace(opts.labels, name, netOpts, moby.script, |old(moby.log)|);
        moby.log == old(moby.log) + t.calls && r == t.result
      ensures moby.options == old(moby.options)
    {
      var nopts, e := Opts.ApplyEach(NetworkCreation.Initial(opts.labels), netOpts);
      if e.Some? {
        return Err(e.value);
      }
      var id, cerr := moby.NetworkCreateCall(name, nopts);
      if cerr.Some? {
        return Err(Wrapped(NetworkCreateCall, cerr.value));
      }
      var details, ierr := moby.NetworkInspectCall(id);
      if ierr.Some? {
        var ignored := moby.NetworkRemoveCall(id);
        return Err(Wrapped(NetworkInspectCall, ierr.value));
      }
      return Ok(NetworkCreation.Network(name, id, details));
    }

    /** Container: see Sessions.ContainerTrace. */
    method Container(nameID: string) returns (r: Result<Container>)
      modifies moby
      ensures var t := Sessions.ContainerTrace(nameID, moby.script, |old(moby.log)|);
        moby.log == old(moby.log) + t.calls && (r.Ok? <==> t.result.Ok?) && (r.Err? ==> r.error == t.result.error)
      ensures var t := Sessions.ContainerTrace(nameID, moby.script, |old(moby.log)|);
        r.Ok? ==> fresh(r.value) && r.value.session == this && r.value.name == t.result.value.name &&
                  r.value.id == t.result.value.id && r.value.details == t.result.value.details
      ensures moby.options == old(moby.options)
    {
      var details, err := moby.ContainerInspectCall(nameID);
      if err.Some? {
        return Err(err.value);
      }
      if |details.name| == 0 {
        return Err(IndexPanic);
      }
      var cntr := new Container(details.name[1..], details.id, this, details);
      return Ok(cntr);
    }

    /** Network: see Sessions.NetworkTrace. */
    method Network(nameID: string) returns (r: Result<NetworkCreation.Network>)
      modifies moby
      ensures var t := Sessions.NetworkTrace(nameID, moby.script, |old(moby.log)|);
        moby.log == old(moby.log) + t.calls && r == t.result
      ensures moby.options == old(moby.options)
    {
      var details, err := moby.NetworkInspectCall(nameID);
      if err.Some? {
        return Err(err.value);
      }
      return Ok(NetworkCreation.Network(details.name, details.id, details));
    }
  }

  /** NewSession: runs the session options, builds the client with the
      default options followed by the session's, and auto-cleans. */
  method NewSession(sessOpts: seq<SessionOptions.Opt>, moby: Client) returns (r: Result<Session>)
    modifies moby
    ensures Opts.Applied(SessionOptions.Zero, sessOpts).Err? ==>
      r == Err(Wrapped(SessionOption, Opts.Applied(SessionOptions.Zero, sessOpts).error)) &&
      moby.log == old(moby.log) && moby.options == old(moby.options)
    ensures Opts.Applied(SessionOptions.Zero, sessOpts).Ok? ==>
      var o := Opts.Applied(SessionOptions.Zero, sessOpts).value;
      moby.options == Sessions.ClientOptions(o) &&
      (moby.dial(Sessions.ClientOptions(o)).Some? ==>
         r == Err(moby.dial(Sessions.ClientOptions(o)).value) && moby.log == old(moby.log)) &&
      (moby.dial(Sessions.ClientOptions(o)).None? ==>
         r.Ok? && fresh(r.value) && r.value.opts == o && r.value.moby == moby &&
         moby.log == old(moby.log) + Sessions.AutoCleanCalls(o.autoCleaningLabel, moby.script, |old(moby.log)|))
  {
    var o, e := Opts.ApplyEach(SessionOptions.Zero, sessOpts);
    if e.Some? {
      return Err(Wrapped(SessionOption, e.value));
    }
    var derr := moby.Connect(Sessions.ClientOptions(o));
    if derr.Some? {
      return Err(derr.value);
    }
    var s := new Session(o, moby);
    s.AutoClean();
    return Ok(s);
  }

  /** A container of a session, with the details of its last inspection. */
  class Container {
    const name: string
    const id: string
    const session: Session
    var details: ContainerJSON

    constructor(name: string, id: string, session: Session, details: ContainerJSON)
      ensures this.name == name && this.id == id && this.session == session && this.details == details
    {
      this.name := name;
      this.id := id;
      this.session := session;
      this.details := details;
    }

    /** Refresh: new details on success, the old ones kept on failure. */
    method Refresh() returns (err: Option<Error>)
      modifies this, session.moby
      ensures var rep := session.moby.script(|old(session.moby.log)|);
        session.moby.log == old(session.moby.log) + [ContainerInspect(id)] &&
        (rep.err.Some? ==> err == Some(Wrapped(RefreshInspect, rep.err.value)) && details == old(details)) &&
        (rep.err.None? ==> err.None? && details == rep.container)
      ensures session.moby.options == old(session.moby.options)
    {
      var d, e := session.moby.ContainerInspectCall(id);
      if e.Some? {
        return Some(Wrapped(RefreshInspect, e.value));
      }
      details := d;
      return None;
    }

    /** PID: see Containers.PidPoll. */
    method PID(ctx: Sleep.Context) returns (pid: int, err: Option<Error>)
      modifies session.moby, ctx
      ensures var p := Containers.PidPoll(session.moby.script, |old(session.moby.log)|, old(ctx.naps));
        session.moby.log == old(session.moby.log) + Repeat(ContainerInspect(id), p.inspects) &&
        ctx.naps == p.naps &&
        (p.result.Ok? ==> err.None? && pid == p.result.value) &&
        (p.result.Err? ==> err == Some(p.result.error) && pid == 0)
      ensures session.moby.options == old(session.moby.options)
    {
      var moby := session.moby;
      ghost var n0 := |moby.log|;
      ghost var naps0 := ctx.naps;
      ghost var k := 0;
      while true
        invariant |moby.log| == n0 + k
        invariant moby.log == old(moby.log) + Repeat(ContainerInspect(id), k)
        invariant var p0 := Containers.PidPoll(moby.script, n0, naps0);
          var p := Containers.PidPoll(moby.script, |moby.log|, ctx.naps);
          p0.result == p.result && p0.naps == p.naps && p0.inspects == k + p.inspects
        invariant moby.options == old(moby.options)
        decreases ctx.naps
      {
        var d, e := moby.ContainerInspectCall(id);
        k := k + 1;
        assert old(moby.log) + Repeat(ContainerInspect(id), k - 1) + [ContainerInspect(id)]
            == old(moby.log) + Repeat(ContainerInspect(id), k);
        if e.Some? {
          return 0, Some(Wrapped(PidInspect, e.value));
        }
        if d.state.Some? && d.state.value.pid != 0 {
          return d.state.value.pid, None;
        }
        if d.state.Some? && Containers.Terminal(d.state.value) {
          return 0, Some(TerminalState(d.state.value.status));
        }
        var serr := Sleep.Sleep(ctx);
        if serr.Some? {
          return 0, Some(Wrapped(PidSleep, serr.value));
        }
      }
    }

    /** PublishedPort: see Containers.PublishedAddrs. */
    method PublishedPort(portproto: string, parseIP: string -> Option<Address.IP>) returns (addrs: seq<Address.Addr>)
      ensures addrs == Containers.PublishedAddrs(details, portproto, parseIP)
    {
      var key := if '/' in portproto then portproto else portproto + "/tcp";
      var bindings := if key in details.ports then details.ports[key] else [];
      addrs := Containers.CollectAddrs(bindings, Containers.Protocol(portproto), parseIP);
    }

    /** Exec: see ContainerExec.ExecTrace; `done` stands for the end of the
        new session's output streams. */
    method Exec(cmd: seq<string>, opts: seq<ExecOptions.Opt>, done: nat -> bool) returns (r: Result<ExecSession>)
      modifies session.moby
      ensures var t := ContainerExec.ExecTrace(id, cmd, opts, session.moby.script, |old(session.moby.log)|);
        session.moby.log == old(session.moby.log) + t.calls &&
        (r.Ok? <==> t.result.Ok?) && (r.Err? ==> r.error == t.result.error) &&
        (r.Ok? ==> fresh(r.value) && r.value.id == t.result.value && r.value.container == this && r.value.done == done)
      ensures session.moby.options == old(session.moby.options)
    {
      var exopts, e := Opts.ApplyEach(ContainerExec.Initial(cmd), opts);
      if e.Some? {
        return Err(Wrapped(ExecOption, e.value));
      }
      exopts := ContainerExec.Prepared(exopts);
      var moby := session.moby;
      var ignored, ierr := moby.ContainerInspectCall(id);
      if ierr.Some? {
        return Err(Wrapped(ExecInspect, ierr.value));
      }
      var execID, cerr := moby.ContainerExecCreateCall(id, exopts.conf);
      if cerr.Some? {
        return Err(Wrapped(ExecCreate, cerr.value));
      }
      var aerr := moby.ContainerExecAttachCall(execID, exopts.conf.tty, exopts.conf.consoleSize);
      if aerr.Some? {
        return Err(Wrapped(ExecAttach, aerr.value));
      }
      var es := new ExecSession(execID, this, done);
      return Ok(es);
    }
  }

  /** A command executing inside a container. `done(k)` says whether its
      output streams have ended by the time the engine has answered k
      calls. */
  class ExecSession {
    const id: string
    const container: Container
    const done: nat -> bool

    constructor(id: string, container: Container, done: nat -> bool)
      ensures this.id == id && this.container == container && this.done == done
    {
      this.id := id;
      this.container := container;
      this.done := done;
    }

    /** PID: see ContainerExec.ExecPid. */
    method PID(ctx: Sleep.Context) returns (pid: int, err: Option<Error>)
      modifies container.session.moby, ctx
      ensures var moby := container.session.moby;
        var p := ContainerExec.ExecPid(moby.script, done, |old(moby.log)|, old(ctx.naps));
        moby.log == old(moby.log) + Repeat(ContainerExecInspect(id), p.inspects) &&
        ctx.naps == p.naps &&
        (p.result.Ok? ==> err.None? && pid == p.result.value) &&
        (p.result.Err? ==> err == Some(p.result.error) && pid == 0)
      ensures container.session.moby.options == old(container.session.moby.options)
    {
      var moby := container.session.moby;
      ghost var n0 := |moby.log|;
      ghost var naps0 := ctx.naps;
      ghost var k := 0;
      while true
        invariant |moby.log| == n0 + k
        invariant moby.log == old(moby.log) + Repeat(ContainerExecInspect(id), k)
        invariant var p0 := ContainerExec.ExecPid(moby.script, done, n0, naps0);
          var p := ContainerExec.ExecPid(moby.script, done, |moby.log|, ctx.naps);
          p0.result == p.result && p0.naps == p.naps && p0.inspects == k + p.inspects
        invariant moby.options == old(moby.options)
        decreases ctx.naps
      {
        var insp, e := moby.ContainerExecInspectCall(id);
        k := k + 1;
        assert old(moby.log) + Repeat(ContainerExecInspect(id), k - 1) + [ContainerExecInspect(id)]
            == old(moby.log) + Repeat(ContainerExecInspect(id), k);
        if e.Some? {
          return 0, Some(Wrapped(ExecPidInspect, e.value));
        }
        if insp.running && insp.pid != 0 {
          return insp.pid, None;
        }
        if done(|moby.log|) {
          return 0, Some(AlreadyTerminated);
        }
        var serr := Sleep.Sleep(ctx);
        if serr.Some? {
          return 0, serr;
        }
      }
    }

    /** Wait: see ContainerExec.WaitTrace; `ctxFirst` says whether the
        context's cancellation wins the select against the end of the
        output. */
    method Wait(ctxFirst: bool) returns (exitcode: int, err: Option<Error>)
      modifies container.session.moby
      ensures var moby := container.session.moby;
        var t := ContainerExec.WaitTrace(id, ctxFirst, moby.script, |old(moby.log)|);
        moby.log == old(moby.log) + t.calls &&
        (t.result.Ok? ==> err.None? && exitcode == t.result.value) &&
        (t.result.Err? ==> err == Some(t.result.error) && exitcode == 0)
      ensures container.session.moby.options == old(container.session.moby.options)
    {
      if ctxFirst {
        return 0, Some(ContextDone);
      }
      var insp, e := container.session.moby.ContainerExecInspectCall(id);
      if e.Some? {
        return 0, Some(Wrapped(WaitInspect, e.value));
      }
      if insp.running {
        return 0, Some(StillAlive);
      }
      return insp.exitCode, None;
    }
  }
}
