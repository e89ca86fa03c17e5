/** run/options.go: options for creating, attaching and starting a
    container: the name, the streams, and the container and host
    configuration handed to the engine. */
module RunOptions {
  import opened Results
  import opened Text
  import Opts
  import Labels
  import Strukt

  /** container.Config, the fields the library sets; a nil label map and a
      nil stop timeout are `None`. */
  datatype Config = Config(
    image: string,
    hostname: string,
    tty: bool,
    openStdin: bool,
    stdinOnce: bool,
    env: seq<string>,
    cmd: seq<string>,
    labels: Option<map<string, string>>,
    stopSignal: string,
    stopTimeout: Option<int>)

  datatype RestartPolicy = RestartPolicy(name: string, maximumRetryCount: int)

  datatype DeviceMapping = DeviceMapping(pathOnHost: string, pathInContainer: string, cgroupPermissions: string)

  /** container.HostConfig, the fields the library sets; the console size
      is the pair (height, width), a nil tmpfs map and a nil init flag are
      `None`. */
  datatype HostConfig = HostConfig(
    autoRemove: bool,
    privileged: bool,
    capAdd: seq<string>,
    capDrop: seq<string>,
    cgroupnsMode: string,
    ipcMode: string,
    networkMode: string,
    pidMode: string,
    tmpfs: Option<map<string, string>>,
    devices: seq<DeviceMapping>,
    readonlyRootfs: bool,
    securityOpt: seq<string>,
    consoleSize: (nat, nat),
    restartPolicy: RestartPolicy,
    publishAllPorts: bool,
    init: Option<bool>)

  /** run.Options; nil readers and writers are `None`. */
  datatype Options = Options(
    name: string,
    input: Option<Input>,
    out: Option<Output>,
    err: Option<Output>,
    conf: Config,
    host: HostConfig)

  const ZeroConfig := Config("", "", false, false, false, [], [], None, "", None)
  const ZeroHostConfig := HostConfig(false, false, [], [], "", "", "", "", None, [], false, [], (0, 0),
                                     RestartPolicy("", 0), false, None)
  const Zero := Options("", None, None, None, ZeroConfig, ZeroHostConfig)

  /** Opt: a closure updating the container options. */
  type Opt = Options -> (Options, Option<Error>)

  /** Sends stdout and stderr to the same writer; the TTY flag is not
      touched. */
  function WithCombinedOutput(w: Output): Opt
  {
    (o: Options) => (o.(out := Some(w), err := Some(w)), None)
  }

  /** Separate writers for stdout and stderr, which needs the TTY off. */
  function WithDemuxedOutput(out: Output, err: Output): Opt
  {
    (o: Options) => (o.(conf := o.conf.(tty := false), out := Some(out), err := Some(err)), None)
  }

  /** The reader for the container's stdin, which also has the container
      created with an open stdin that closes after the first attach. */
  function WithInput(r: Input): Opt
  {
    (o: Options) => (o.(conf := o.conf.(openStdin := true, stdinOnce := true), input := Some(r)), None)
  }

  function WithName(name: string): Opt
  {
    (o: Options) => (o.(name := name), None)
  }

  function WithCommand(cmd: seq<string>): Opt
  {
    (o: Options) => (o.(conf := o.conf.(cmd := cmd)), None)
  }

  function WithEnvVars(vars: seq<string>): Opt
  {
    (o: Options) => (o.(conf := o.conf.(env := o.conf.env + vars)), None)
  }

  /** Empties the label map; a nil map stays nil (maps.Clear). */
  function ClearLabels(): Opt
  {
    (o: Options) => (o.(conf := o.conf.(labels := if o.conf.labels.Some? then Some(map[]) else None)), None)
  }

  /** ensureLabelsMap: an empty label map when there is none. */
  function EnsureLabelsMap(o: Options): (r: Options)
    ensures r.conf.labels.Some?
    ensures o.conf.labels.None? ==> r.conf.labels.value == map[]
    ensures o.conf.labels.Some? ==> r == o
    ensures r == o.(conf := o.conf.(labels := r.conf.labels))
  {
    if o.conf.labels.Some? then o else o.(conf := o.conf.(labels := Some(map[])))
  }

  function WithLabel(lbl: string): Opt
  {
    (o: Options) =>
      var o1 := EnsureLabelsMap(o);
      match Labels.Added(o1.conf.labels.value, lbl)
      case Err(e) => (o1, Some(e))
      case Ok(m) => (o1.(conf := o1.conf.(labels := Some(m))), None)
  }

  /** Adds the labels in order up to the first invalid one. */
  function WithLabels(labels: seq<string>): Opt
  {
    (o: Options) =>
      var o1 := EnsureLabelsMap(o);
      var (m, e) := Labels.AddedEach(o1.conf.labels.value, labels);
      (o1.(conf := o1.conf.(labels := Some(m))), e)
  }

  function WithStopSignal(s: string): Opt
  {
    (o: Options) => (o.(conf := o.conf.(stopSignal := s)), None)
  }

  function WithStopTimeout(secs: int): Opt
  {
    (o: Options) => (o.(conf := o.conf.(stopTimeout := Some(secs))), None)
  }

  function WithTTY(): Opt
  {
    (o: Options) => (o.(conf := o.conf.(tty := true)), None)
  }

  function WithAutoRemove(): Opt
  {
    (o: Options) => (o.(host := o.host.(autoRemove := true)), None)
  }

  function WithPrivileged(): Opt
  {
    (o: Options) => (o.(host := o.host.(privileged := true)), None)
  }

  function WithCapAdd(cap: string): Opt
  {
    (o: Options) => (o.(host := o.host.(capAdd := o.host.capAdd + [cap])), None)
  }

  function WithCapDropAll(): Opt
  {
    (o: Options) => (o.(host := o.host.(capDrop := ["ALL"])), None)
  }

  function WithCgroupnsMode(mode: string): Opt
  {
    (o: Options) => (o.(host := o.host.(cgroupnsMode := mode)), None)
  }

  function WithIPCMode(mode: string): Opt
  {
    (o: Options) => (o.(host := o.host.(ipcMode := mode)), None)
  }

  function WithNetworkMode(mode: string): Opt
  {
    (o: Options) => (o.(host := o.host.(networkMode := mode)), None)
  }

  function WithPIDMode(mode: string): Opt
  {
    (o: Options) => (o.(host := o.host.(pidMode := mode)), None)
  }

  /** bindVolumeToBind: a relative bind source "." or "./..." becomes
      absolute; `abs` stands for filepath.Abs. Anything else, and any
      volume whose source cannot be made absolute, is returned unchanged. */
  function BindVolumeToBind(vol: string, abs: string -> Result<string>): (r: string)
    ensures var c := Cut(vol, ':');
      var relative := c.found && (c.before == "." || (|c.before| >= 2 && c.before[..2] == "./"));
      (relative && abs(c.before).Ok? ==> r == abs(c.before).value + ":" + c.after) &&
      (!(relative && abs(c.before).Ok?) ==> r == vol)
  {
    var c := Cut(vol, ':');
    if !c.found then vol
    else if c.before != "." && !(|c.before| >= 2 && c.before[..2] == "./") then vol
    else match abs(c.before)
      case Err(_) => vol
      case Ok(abssrc) => abssrc + ":" + c.after
  }

  /** Creates the tmpfs map when nil and mounts a tmpfs at the path. */
  function WithTmpfs(path: string): Opt
  {
    (o: Options) => (o.(host := o.host.(tmpfs := Some(o.host.tmpfs.GetOr(map[])[path := ""]))), None)
  }

  function WithTmpfsOpts(path: string, opts: string): Opt
  {
    (o: Options) => (o.(host := o.host.(tmpfs := Some(o.host.tmpfs.GetOr(map[])[path := opts]))), None)
  }

  /** The three string fields WithDevice unmarshals "HOST[:CONTAINER[:PERMS]]"
      into, all settable and empty. */
  const DeviceFields := [Strukt.Field("HostPath", true, true, ""),
                         Strukt.Field("ContainerPath", true, true, ""),
                         Strukt.Field("CgroupPerms", true, true, "")]

  /** Appends a device mapping: the container path defaults to the host
      path and the permissions default to "rwm". */
  function WithDevice(dev: string): Opt
  {
    (o: Options) =>
      var (fields, e) := Strukt.Unmarshalled(dev, ':', DeviceFields);
      if e.Some? then (o, Some(Wrapped(DeviceSyntax, e.value)))
      else if fields[0].value == "" then (o, Some(EmptyDeviceHostPath))
      else
        var hostPath := fields[0].value;
        var containerPath := if fields[1].value == "" then hostPath else fields[1].value;
        var perms := if fields[2].value == "" then "rwm" else fields[2].value;
        (o.(host := o.host.(devices := o.host.devices + [DeviceMapping(hostPath, containerPath, perms)])), None)
  }

  function WithReadOnlyRootfs(): Opt
  {
    (o: Options) => (o.(host := o.host.(readonlyRootfs := true)), None)
  }

  function WithSecurityOpt(opt: string): Opt
  {
    (o: Options) => (o.(host := o.host.(securityOpt := o.host.securityOpt + [opt])), None)
  }

  /** Width first in the call, height first in the stored pair. */
  function WithConsoleSize(width: nat, height: nat): Opt
  {
    (o: Options) => (o.(host := o.host.(consoleSize := (height, width))), None)
  }

  function WithHostname(host: string): Opt
  {
    (o: Options) => (o.(conf := o.conf.(hostname := host)), None)
  }

  function WithRestartPolicy(policy: string, maxretry: int): Opt
  {
    (o: Options) => (o.(host := o.host.(restartPolicy := RestartPolicy(policy, maxretry))), None)
  }

  function WithAllPortsPublished(): Opt
  {
    (o: Options) => (o.(host := o.host.(publishAllPorts := true)), None)
  }

  function WithCustomInit(): Opt
  {
    (o: Options) => (o.(host := o.host.(init := Some(true))), None)
  }

  /** Of WithTTY and WithDemuxedOutput, the one applied last decides the
      TTY flag, whatever options came before. */
  lemma {:induction false} TtyLastWins(o: Options, opts: seq<Opt>, out: Output, err: Output)
    ensures Opts.Applied(o, opts).Ok? ==>
              Opts.Applied(o, opts + [WithTTY()]).Ok? &&
              Opts.Applied(o, opts + [WithTTY()]).value.conf.tty
    ensures Opts.Applied(o, opts).Ok? ==>
              Opts.Applied(o, opts + [WithDemuxedOutput(out, err)]).Ok? &&
              !Opts.Applied(o, opts + [WithDemuxedOutput(out, err)]).value.conf.tty
  {
    Opts.AppliedSnoc(o, opts, WithTTY());
    Opts.AppliedSnoc(o, opts, WithDemuxedOutput(out, err));
  }

  /** Combined output sends both streams to one writer and leaves the TTY
      flag as it was; WithInput sets the reader together with the two
      stdin flags of the container configuration. */
  lemma StreamSetters(o: Options, w: Output, r: Input)
    ensures WithCombinedOutput(w)(o).0.out == Some(w) && WithCombinedOutput(w)(o).0.err == Some(w)
    ensures WithCombinedOutput(w)(o).0.conf == o.conf
    ensures WithInput(r)(o).0.input == Some(r)
    ensures WithInput(r)(o).0.conf == o.conf.(openStdin := true, stdinOnce := true)
  {
  }

  /** Environment variables, added capabilities and security options
      accumulate in the order given; WithCapDropAll drops exactly "ALL". */
  lemma {:induction false} AppendsInOrder(o: Options, vars: seq<string>, cap1: string, cap2: string, sec: string)
    ensures Opts.Applied(o, [WithCapAdd(cap1), WithCapAdd(cap2)]) ==
              Ok(o.(host := o.host.(capAdd := o.host.capAdd + [cap1, cap2])))
    ensures WithEnvVars(vars)(o).0.conf.env == o.conf.env + vars
    ensures WithSecurityOpt(sec)(o).0.host.securityOpt == o.host.securityOpt + [sec]
    ensures WithCapDropAll()(o).0.host.capDrop == ["ALL"]
  {
    Opts.AppliedSnoc(o, [], WithCapAdd(cap1));
    Opts.AppliedSnoc(o, [WithCapAdd(cap1)], WithCapAdd(cap2));
    assert o.host.capAdd + [cap1] + [cap2] == o.host.capAdd + [cap1, cap2];
  }

  /** ClearLabels followed by WithLabels leaves exactly the new labels,
      whether the options had a label map or not. */
  lemma {:induction false} ClearThenLabels(o: Options, labels: seq<string>)
    ensures Labels.FromList(labels).Ok? ==>
              Opts.Applied(o, [ClearLabels(), WithLabels(labels)]) ==
                Ok(o.(conf := o.conf.(labels := Some(Labels.FromList(labels).value))))
    ensures Labels.FromList(labels).Err? ==>
              Opts.Applied(o, [ClearLabels(), WithLabels(labels)]) == Err(Labels.FromList(labels).error)
  {
    Opts.AppliedSnoc(o, [], ClearLabels());
    Opts.AppliedSnoc(o, [ClearLabels()], WithLabels(labels));
  }

  /** WithLabels never replaces an existing label map: the old labels stay
      unless overwritten, and the labels before the first invalid one are
      added even when a later one fails. */
  lemma WithLabelsPartial(o: Options, labels: seq<string>)
    ensures WithLabels(labels)(o).0.conf.labels.Some?
    ensures Labels.AddedAll(o.conf.labels.GetOr(map[]), labels[..Labels.FirstInvalid(labels)]) ==
              Ok(WithLabels(labels)(o).0.conf.labels.value)
    ensures WithLabels(labels)(o).1.None? <==> Labels.FirstInvalid(labels) == |labels|
  {
    Labels.AddedAllError(o.conf.labels.GetOr(map[]), labels);
  }

  /** WithConsoleSize(w, h) stores (h, w); the tmpfs options create the map
      when nil and map the path to "" or to the mount options. */
  lemma SizesAndTmpfs(o: Options, width: nat, height: nat, path: string, opts: string)
    ensures WithConsoleSize(width, height)(o).0.host.consoleSize == (height, width)
    ensures WithTmpfs(path)(o).0.host.tmpfs == Some(o.host.tmpfs.GetOr(map[])[path := ""])
    ensures WithTmpfsOpts(path, opts)(o).0.host.tmpfs == Some(o.host.tmpfs.GetOr(map[])[path := opts])
  {
  }

  /** WithDevice: more than three ':'-separated fields is a syntax error, an
      empty host path is an error, and otherwise one mapping is appended
      whose container path defaults to the host path and whose permissions
      default to "rwm". */
  lemma {:induction false} WithDeviceRule(o: Options, dev: string)
    ensures var pieces := Split(dev, ':');
      |pieces| > 3 ==> WithDevice(dev)(o) == (o, Some(Wrapped(DeviceSyntax, TooManyFields)))
    ensures var pieces := Split(dev, ':');
      |pieces| <= 3 && pieces[0] == "" ==> WithDevice(dev)(o) == (o, Some(EmptyDeviceHostPath))
    ensures var pieces := Split(dev, ':');
      |pieces| <= 3 && pieces[0] != "" ==>
        var container := if |pieces| >= 2 && pieces[1] != "" then pieces[1] else pieces[0];
        var perms := if |pieces| == 3 && pieces[2] != "" then pieces[2] else "rwm";
        WithDevice(dev)(o) ==
          (o.(host := o.host.(devices := o.host.devices + [DeviceMapping(pieces[0], container, perms)])), None)
  {
    Strukt.UnmarshalledOk(dev, ':', DeviceFields);
  }

  /** "::" has three empty fields, so its host path is empty. */
  lemma DeviceOfSeparatorsOnly(o: Options)
    ensures WithDevice("::")(o) == (o, Some(EmptyDeviceHostPath))
  {
    Strukt.SplitOnlySeparators();
    WithDeviceRule(o, "::");
  }
}
