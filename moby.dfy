/** moby/client.go: the part of the Docker client interface the library
    calls, as an engine that records every call it receives and answers
    from a script. The k-th call the engine ever receives (counting from 0)
    gets the reply `script(k)`, so a proof can follow any sequence of
    answers the engine might give. */
module Moby {
  import opened Results
  import RunOptions
  import ExecOptions
  import NetInt
  import SessionOptions

  /** State of types.ContainerJSON: the fields the library looks at. */
  datatype State = State(pid: int, dead: bool, oomKilled: bool, restarting: bool, status: string)

  /** nat.PortBinding: a host IP and host port, both as text. */
  datatype PortBinding = PortBinding(hostIP: string, hostPort: string)

  /** types.ContainerJSON, the fields the library looks at: the name (with
      the engine's leading "/"), the ID, an optional state, and the port
      bindings by "port/protocol". */
  datatype ContainerJSON = ContainerJSON(
    name: string,
    id: string,
    state: Option<State>,
    ports: map<string, seq<PortBinding>>)

  /** container.ExecInspect, the result of inspecting an exec. */
  datatype ExecDetails = ExecDetails(running: bool, pid: int, exitCode: int)

  /** network.Summary: name, ID and driver. */
  datatype NetworkSummary = NetworkSummary(name: string, id: string, driver: string)

  /** One call of the client interface with the arguments that matter. */
  datatype Call =
    | ImageInspect(ref: string)
    | ImagePull(ref: string)
    | ContainerCreate(conf: RunOptions.Config, host: RunOptions.HostConfig, name: string)
    | ContainerAttach(id: string, stdin: bool)   // always with Stream, Stdout and Stderr
    | ContainerStart(id: string)
    | ContainerInspect(id: string)
    | ContainerRemove(id: string, force: bool, removeVolumes: bool)
    | ContainerList(filter: string)              // a single "label" filter
    | ContainerExecCreate(id: string, execConf: ExecOptions.ExecConfig)
    | ContainerExecAttach(execID: string, tty: bool, consoleSize: Option<(nat, nat)>)
    | ContainerExecInspect(execID: string)
    | NetworkCreate(name: string, options: NetInt.NetworkCreate)
    | NetworkInspect(id: string)
    | NetworkRemove(id: string)
    | NetworkList(filter: string)                // a single "label" filter
    | Close

  /** The engine's answer to one call: an error or nothing (`notFound`
      tells errdefs.IsNotFound errors apart), a created ID, inspection
      results and the IDs of a listing. Each call reads the fields it
      returns and ignores the others. */
  datatype Reply = Reply(
    err: Option<Error>,
    notFound: bool,
    id: string,
    container: ContainerJSON,
    exec: ExecDetails,
    network: NetworkSummary,
    ids: seq<string>)

  /** What an operation of the library sends to the engine, in order, and
      what it returns. */
  datatype Trace<T> = Trace(calls: seq<Call>, result: Result<T>)

  /** The outcome of a polling loop: how many inspections it made, what it
      returns, and how many naps the context still allows. */
  datatype Poll = Poll(inspects: nat, result: Result<int>, naps: nat)

  /** k copies of the same call, as a polling loop sends them. */
  function Repeat(c: Call, k: nat): (r: seq<Call>)
    ensures |r| == k && forall i :: 0 <= i < k ==> r[i] == c
  {
    if k == 0 then [] else Repeat(c, k - 1) + [c]
  }

  /** Calls appended in two steps are the calls appended at once. */
  lemma Appended(log: seq<Call>, a: seq<Call>, b: seq<Call>)
    ensures log + a + b == log + (a + b)
  {
  }

  /** A Docker client: the calls it received so far, in order, the options
      it was built with, and the scripted replies. */
  class Client {
    var log: seq<Call>
    var options: seq<SessionOptions.ClientOpt>
    const script: nat -> Reply
    /** The outcome of client.NewClientWithOpts for the given options. */
    const dial: seq<SessionOptions.ClientOpt> -> Option<Error>

    constructor(script: nat -> Reply, dial: seq<SessionOptions.ClientOpt> -> Option<Error>)
      ensures log == [] && options == [] && this.script == script && this.dial == dial
    {
      log := [];
      options := [];
      this.script := script;
      this.dial := dial;
    }

    /** The reply to the next call. */
    function Next(): Reply
      reads this
    {
      script(|log|)
    }

    /** client.NewClientWithOpts: records the options the client is built
        with; sends nothing to the engine. */
    method Connect(opts: seq<SessionOptions.ClientOpt>) returns (err: Option<Error>)
      modifies this
      ensures options == opts && log == old(log) && err == dial(opts)
    {
      options := opts;
      err := dial(opts);
    }

    method ImageInspectCall(ref: string) returns (err: Option<Error>, notFound: bool)
      modifies this
      ensures log == old(log) + [ImageInspect(ref)] && options == old(options)
      ensures err == script(|old(log)|).err && notFound == script(|old(log)|).notFound
    {
      err, notFound := Next().err, Next().notFound;
      log := log + [ImageInspect(ref)];
    }

    method ImagePullCall(ref: string) returns (err: Option<Error>)
      modifies this
      ensures log == old(log) + [ImagePull(ref)] && options == old(options)
      ensures err == script(|old(log)|).err
    {
      err := Next().err;
      log := log + [ImagePull(ref)];
    }

    method ContainerCreateCall(conf: RunOptions.Config, host: RunOptions.HostConfig, name: string)
      returns (id: string, err: Option<Error>)
      modifies this
      ensures log == old(log) + [ContainerCreate(conf, host, name)] && options == old(options)
      ensures id == script(|old(log)|).id && err == script(|old(log)|).err
    {
      id, err := Next().id, Next().err;
      log := log + [ContainerCreate(conf, host, name)];
    }

    method ContainerAttachCall(id: string, stdin: bool) returns (err: Option<Error>)
      modifies this
      ensures log == old(log) + [ContainerAttach(id, stdin)] && options == old(options)
      ensures err == script(|old(log)|).err
    {
      err := Next().err;
      log := log + [ContainerAttach(id, stdin)];
    }

    method ContainerStartCall(id: string) returns (err: Option<Error>)
      modifies this
      ensures log == old(log) + [ContainerStart(id)] && options == old(options)
      ensures err == script(|old(log)|).err
    {
      err := Next().err;
      log := log + [ContainerStart(id)];
    }

    method ContainerInspectCall(id: string) returns (details: ContainerJSON, err: Option<Error>)
      modifies this
      ensures log == old(log) + [ContainerInspect(id)] && options == old(options)
      ensures details == script(|old(log)|).container && err == script(|old(log)|).err
    {
      details, err := Next().container, Next().err;
      log := log + [ContainerInspect(id)];
    }

    method ContainerRemoveCall(id: string, force: bool, removeVolumes: bool) returns (err: Option<Error>)
      modifies this
      ensures log == old(log) + [ContainerRemove(id, force, removeVolumes)] && options == old(options)
      ensures err == script(|old(log)|).err
    {
      err := Next().err;
      log := log + [ContainerRemove(id, force, removeVolumes)];
    }

    method ContainerListCall(filter: string) returns (ids: seq<string>, err: Option<Error>)
      modifies this
      ensures log == old(log) + [ContainerList(filter)] && options == old(options)
      ensures ids == script(|old(log)|).ids && err == script(|old(log)|).err
    {
      ids, err := Next().ids, Next().err;
      log := log + [ContainerList(filter)];
    }

    method ContainerExecCreateCall(id: string, conf: ExecOptions.ExecConfig) returns (execID: string, err: Option<Error>)
      modifies this
      ensures log == old(log) + [ContainerExecCreate(id, conf)] && options == old(options)
      ensures execID == script(|old(log)|).id && err == script(|old(log)|).err
    {
      execID, err := Next().id, Next().err;
      log := log + [ContainerExecCreate(id, conf)];
    }

    method ContainerExecAttachCall(execID: string, tty: bool, consoleSize: Option<(nat, nat)>) returns (err: Option<Error>)
      modifies this
      ensures log == old(log) + [ContainerExecAttach(execID, tty, consoleSize)] && options == old(options)
      ensures err == script(|old(log)|).err
    {
      err := Next().err;
      log := log + [ContainerExecAttach(execID, tty, consoleSize)];
    }

    method ContainerExecInspectCall(execID: string) returns (insp: ExecDetails, err: Option<Error>)
      modifies this
      ensures log == old(log) + [ContainerExecInspect(execID)] && options == old(options)
      ensures insp == script(|old(log)|).exec && err == script(|old(log)|).err
    {
      insp, err := Next().exec, Next().err;
      log := log + [ContainerExecInspect(execID)];
    }

    method NetworkCreateCall(name: string, nopts: NetInt.NetworkCreate) returns (id: string, err: Option<Error>)
      modifies this
      ensures log == old(log) + [NetworkCreate(name, nopts)] && options == old(options)
      ensures id == script(|old(log)|).id && err == script(|old(log)|).err
    {
      id, err := Next().id, Next().err;
      log := log + [NetworkCreate(name, nopts)];
    }

    method NetworkInspectCall(id: string) returns (details: NetworkSummary, err: Option<Error>)
      modifies this
      ensures log == old(log) + [NetworkInspect(id)] && options == old(options)
      ensures details == script(|old(log)|).network && err == script(|old(log)|).err
    {
      details, err := Next().network, Next().err;
      log := log + [NetworkInspect(id)];
    }

    method NetworkRemoveCall(id: string) returns (err: Option<Error>)
      modifies this
      ensures log == old(log) + [NetworkRemove(id)] && options == old(options)
      ensures err == script(|old(log)|).err
    {
      err := Next().err;
      log := log + [NetworkRemove(id)];
    }

    method NetworkListCall(filter: string) returns (ids: seq<string>, err: Option<Error>)
      modifies this
      ensures log == old(log) + [NetworkList(filter)] && options == old(options)
      ensures ids == script(|old(log)|).ids && err == script(|old(log)|).err
    {
      ids, err := Next().ids, Next().err;
      log := log + [NetworkList(filter)];
    }

    method CloseCall()
      modifies this
      ensures log == old(log) + [Close] && options == old(options)
    {
      log := log + [Close];
    }
  }
}
