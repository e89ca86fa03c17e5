# morbyd in Dafny

morbyd is a Go library for tests that need Docker containers. A test opens a
`Session` on the Docker engine, runs containers from images, executes
commands inside them, creates networks, and when the session closes it
removes every container and network that carries the session's
auto-cleaning label. Almost every operation is configured through
functional options: closures that update an options record in place, run
one after another, where the first error aborts the rest.

This project models that sequential core and proves what it promises:

- **Parsers and validators**: `KEY=VALUE` labels (`Labels`), the three forms of
  build arguments (`BuildArgs`), `user[:group]` principals (`Identity`),
  splitting a delimited text into the string fields of a record (`Strukt`),
  and command lines (`ExecCmd`). The maps the Go code fills in place are
  classes with a `map` field. Their loops are methods proved against
  specification functions.
- **The time-stamping writer** (`Timestamper`): a class whose `stampit` flag
  persists across `Write` calls. `Write` is a loop over line pieces, proved
  to send downstream the longest prefix of the stamped output the
  downstream writer takes, and to count only payload bytes.
- **Addresses** (`Address`): formatting, with IPv6 as an RFC 3986 section 3.2.2
  IP-literal; loopback substitution; first and any selection.
- **Options** (`RunOptions`, `ExecOptions`, `BuildOptions`, `NetOptions`,
  `Bridge`, `Macvlan`, `Ipvlan`, `Ipam`, `IpamInt`, `NetInt`,
  `SessionOptions`, `PullOptions`, `PushOptions`): every option is a
  function from the old record to the new record and its error, keeping the
  partial update it made before failing. `Opts.Applied` is the `for` loop
  over the options. `Opts.ApplyEach` is that loop as a method.
- **The engine conversations** (`Moby`, `ContainerRun`, `ContainerExec`,
  `NetworkCreation`, `Sessions`, `Containers`, `Morbyd`):
  - The Docker client is a class `Moby.Client` that records every call in
    `log`. It answers call number k with the scripted reply `script(k)`.
  - `Session.Run`, `Container.Exec`, `Session.CreateNetwork`,
    `Session.AutoClean`, `Session.Container`, `Container.PID` and
    `ExecSession.PID`/`Wait` are methods of the classes `Morbyd.Session`,
    `Morbyd.Container` and `Morbyd.ExecSession`.
  - Each method is proved to append exactly the calls of a trace function,
    and to return exactly that function's result.
  - Lemmas on the trace functions state the orderings and the rollbacks:
    - create before attach before start before inspect;
    - a forced remove after any failure that follows the create;
    - a network removed when its inspect fails;
    - networks cleaned only after every container went.
  - The polling loops are bounded by a budget of naps in `Sleep.Context`.

Errors are values of `Results.Error`. A Go panic on indexing an empty name is
`IndexPanic`. Wrapping an error with the failed step is `Wrapped(step, cause)`.

## Model

| member | source | states |
|---|---|---|
| Address.To4 | addr.go:55 | an IPv4 address in its 4-byte or IPv4-mapped 16-byte form yields its 4 bytes; any other length or a 16-byte non-mapped address yields none |
| Address.UnspecifiedForms | addr.go:71 | the unspecified addresses are exactly 0.0.0.0 (4 bytes), ::ffff:0.0.0.0 and :: |
| Address.NewAddr | addr.go:37-43 | the new address carries the protocol (its Network), IP and port given |
| Address.DottedQuad | addr.go:56 | the dotted-quad text of an IPv4 address contains no ':' |
| Address.String | addr.go:51-59 | "" for the zero address; "a.b.c.d:port" when the IP has an IPv4 form; "[ip]:port" otherwise |
| Address.StringPort | addr.go:56-58 | a non-zero address text ends in ":" plus the decimal port, which parses back to the port; an IPv4 host part has no ':' |
| Address.UnspecifiedAsLoopback | addr.go:67-86 | zero stays zero, a specified address is unchanged, an unspecified one becomes 127.0.0.1 or ::1 by family, keeping protocol and port |
| Address.LoopbacksSpecified | addr.go:61 | the substituted loopback addresses are themselves specified |
| Address.LoopbackIdempotent | addr.go:67-86 | the result is zero or specified, and applying it twice equals applying it once |
| Address.LoopbackFamilies | addr.go:74-85 | 0.0.0.0 maps to 127.0.0.1 and :: maps to ::1 |
| Address.Any | addr.go:90-95 | zero for an empty list, otherwise an element of the list |
| Address.AnyReachesAll | addr.go:94 | every element of a list is picked for some random number |
| Address.First | addr.go:99-104 | zero for an empty list, otherwise the first element |
| Bridge.BridgeKeys | net/bridge/options.go:40-73 | WithBridgeName, WithoutIPMasquerade and WithoutICC each set exactly their "com.docker.network.bridge." key and never fail |
| Bridge.DriverKeys | net/bridge/options.go:80-101 | WithMTU and WithInterfacePrefix set exactly the "com.docker.network.driver.mtu" and "com.docker.network.container_iface_prefix" keys and never fail |
| Bridge.MTURoundTrip | net/bridge/options.go:80-86 | the stored MTU text parses back to the MTU |
| BuildOptions.TagsAppend | build/options.go:44-49 | two WithTag options after any other options append both tags, in order, to the tags those options left, and change nothing else; after a failed option the error stands |
| BuildOptions.WithBuildArgsPartial | build/options.go:67-79 | WithBuildArgs always leaves a build-argument map holding the arguments before the first invalid one added to the old ones; it fails exactly when some argument is invalid, with that argument's error; the output writer is kept |
| BuildOptions.WithBuildArgRule | build/options.go:56-63 | WithBuildArg fails exactly for an invalid argument; a valid one is stored under its key with its value in the (possibly new) map |
| BuildOptions.WithLabelsPartial | build/options.go:98-117 | WithLabels always leaves a label map holding the labels before the first invalid one added to the old ones, and fails exactly when some label is invalid |
| BuildOptions.WithOptsKeepsOutput | build/options.go:175-180 | WithOpts replaces all image build options and keeps the output writer |
| BuildOptions.FlagSetters | build/options.go:120-161 | each boolean option sets its own flag and changes nothing else |
| BuildArgs.Parse | build/buildargs.go:45-56 | an argument is rejected exactly when its key (the text before the first "=") is empty; "KEY" has no value, "KEY=VALUE" splits back into key, "=" and value |
| BuildArgs.Added | build/buildargs.go:45-56 | adding succeeds exactly for a valid argument, which then sets only its own key to its value; an invalid one reports its text |
| BuildArgs.FirstInvalid | build/buildargs.go:34-38 | the index of the first invalid argument: all before it are valid |
| BuildArgs.AddedAllError | build/buildargs.go:32-40 | adding a list fails exactly when some argument is invalid, with the first invalid argument's error |
| BuildArgs.AddedAllLastWins | build/buildargs.go:32-40 | after adding a list, a key holds the value of the last argument naming it |
| BuildArgs.AddedAllKeeps | build/buildargs.go:32-40 | a key no argument names keeps its old entry |
| BuildArgs.AddedEach | build/options.go:72-76 | the in-place loop leaves the arguments before the first invalid one added, and its error is that of adding the whole list |
| BuildArgs.BuildArgs.Add | build/buildargs.go:45-56 | the in-place Add succeeds exactly for a valid argument, updates the map as Added does, and leaves it unchanged on error |
| BuildArgs.BuildArgs.AddEach | build/options.go:72-77 | the loop's new map and error are those of AddedEach |
| BuildArgs.MakeBuildArgs | build/buildargs.go:32-40 | a fresh map holding all arguments, or no map and the first invalid argument's error |
| Containers.AbbreviatedID | container.go:171-176 | a prefix of the ID, the whole ID when it has at most 10 characters, else its first 10 |
| Containers.PidPoll | container.go:110-135 | PID polling inspects at least once and at most once more than the context allows naps, spending one nap between inspections |
| Containers.PidFirst | container.go:110-135 | every round before the last saw no PID and no terminal state; a PID returned is the first non-zero PID inspected; a terminal-state error carries that state's status; running out of naps happens only after all naps were used; a failed inspection ends the poll with its error wrapped as an inspection error, and only a failed inspection ends it with one |
| Containers.PortKey | container.go:192-194 | the query key always has a "/": the query itself when it has one, else the query plus "/tcp" |
| Containers.ProtocolRule | container.go:192-195 | the protocol is "tcp" for a query without "/", else the text after its first "/" |
| Containers.Bound | container.go:198-209 | a binding yields an address exactly when its host IP parses and its host port is a decimal 16-bit number; the address has the query's protocol, that port and the IP in its 4-byte form when it is IPv4 |
| Containers.CollectAddrs | container.go:196-211 | the loop over a port's bindings returns exactly the addresses of the usable bindings, in binding order |
| Containers.PortAddrsRule | container.go:196-211 | no more addresses than bindings, all with the queried protocol, IPv4 ones in 4-byte form, each from some binding; as many as bindings when every binding is usable |
| ContainerExec.Initial | container_exec.go:57-61 | the options before any option runs set only the command, with no input or output writers |
| ContainerExec.Prepared | container_exec.go:69-74 | output defaults to the discarding writer; stdout and stderr are always attached and stdin exactly when an input is set; nothing else in the exec config changes |
| ContainerExec.OptionFailureFirst | container_exec.go:62-67 | a failing option ends Exec with that option's error, wrapped, before any engine call |
| ContainerExec.CallOrder | container_exec.go:83-149 | the container is inspected first and a failed inspection creates no exec; a created exec attaches stdout and stderr, and stdin exactly when an input is set; the attach carries the config's TTY flag and console size; Exec succeeds exactly after three calls with a successful attach, returning the created exec's ID |
| ContainerExec.ExecPid | container_exec.go:159-184 | the exec PID poll inspects at least once and at most once more than the naps the context allows |
| ContainerExec.ExecPidInspectFailure | container_exec.go:161-165 | a failed exec inspection ends the poll with its error wrapped as an inspection error, and only a failed inspection ends it with one |
| ContainerExec.ExecPidFirst | container_exec.go:159-184 | every round before the last was too early; a PID returned is from the first inspection showing the command running with a PID; "already terminated" comes only when the output is done and the last inspection showed no running PID; a cancelled nap comes only after all naps |
| ContainerExec.WaitRule | container_exec.go:195-210 | a cancelled context means no inspection; otherwise exactly one inspection, and Wait yields the exit code exactly when that inspection succeeds and shows the command no longer running |
| ContainerRun.Initial | container_run.go:45-51 | before any option runs the config holds the image reference and a new label map with a copy of the session's labels; no name, input or output |
| ContainerRun.Defaulted | container_run.go:58-60 | a missing output writer becomes the discarding writer; a given one is kept |
| ContainerRun.StartedAfterCreate | container_run.go:74-160 | after a successful creation, the calls are the creation followed by attach, start and inspect of the new container, with their outcome |
| ContainerRun.OptionFailureFirst | container_run.go:52-56 | a failing option ends Run with that option's error, unwrapped, before any engine call |
| ContainerRun.ImageBeforeCreate | container_run.go:62-71 | an image lookup failing other than with "not found", or a failed pull, ends Run in an error after the image inspection, creating and removing nothing |
| ContainerRun.SuccessOrder | container_run.go:62-160 | a successful Run inspects the image, pulls exactly when it is missing, then creates, attaches (stdin exactly when an input is set), starts and inspects the container, removes nothing, and names it by the inspected name without its first character |
| ContainerRun.AfterCreateRule | container_run.go:88-160 | after creation the container is attached first; a failed attach, start or inspect is followed by a forced removal of that container as the very last call, and nothing else removes; a success makes exactly attach, start and inspect |
| ContainerRun.StartedCleanup | container_run.go:74-160 | from the creation on: a failed creation is the only call; a later failure ends with the forced removal of the created container; a success has the created ID; a success or the empty-name panic removes nothing |
| ContainerRun.ImageFailureCalls | container_run.go:62-71 | a failed image lookup makes one call and a failed pull makes two |
| ContainerRun.EngineCleanup | container_run.go:62-160 | the cleanup rule for the engine calls after the options, with the create call at any position |
| ContainerRun.CleanupOnFailure | container_run.go:28-31 | Run leaves no container behind: a failure after a successful creation removes exactly that container as its last call; a failed creation, a success and the panic remove nothing |
| ContainerRun.SessionLabelsInherited | container_run.go:37-51 | the new container starts with the session's labels; ClearLabels then WithLabels leaves exactly the new labels |
| ExecCmd.Command | exec/cmd.go:21-23 | the argument vector is the command followed by its arguments, in order |
| ExecOptions.TtyLastWins | exec/options.go:57-91 | of WithTTY and WithDemuxedOutput, the one applied last decides the TTY flag |
| ExecOptions.OutputWriters | exec/options.go:43-64 | combined output sends both streams to one writer and leaves the config alone; demuxed output sets the two writers apart |
| ExecOptions.InputOnly | exec/options.go:69-74 | WithInput sets only the reader |
| ExecOptions.EnvAppends | exec/options.go:95-100 | two WithEnvVars options after any other options append both lists, in order, to the variables those options left; after a failed option the error stands |
| ExecOptions.ConsoleSizeSwapped | exec/options.go:129-134 | WithConsoleSize(width, height) stores the pair as (height, width) |
| ExecOptions.SettersSetTheirField | exec/options.go:104-125 | WithWorkingDir, WithUser and WithPrivileged each set exactly their field |
| ExecOptions.NoOptionsNoStreams | exec/options.go:33-38 | without options there is no reader and no writer |
| Identity.Render | identity/principal.go:32-37 | a name is used as is; an id becomes its signed decimal text |
| Identity.WithUser | identity/principal.go:30-39 | the user text is the name, or the id in signed decimal |
| Identity.WithGroup | identity/principal.go:44-57 | the user part of the input (before its first ':') is kept; an empty group drops the group, otherwise ":" and the group follow |
| Identity.UserKept | identity/principal.go:52-56 | the user part of the result is the user part of the input |
| Identity.GroupReplaced | identity/principal.go:41-56 | an empty group leaves no ':' at all; otherwise the group part of the result is exactly the group given |
| Identity.WithGroupIdempotent | identity/principal.go:44-57 | setting the same group twice equals setting it once |
| Identity.WithGroupLastWins | identity/principal.go:44-57 | setting one group and then another keeps only the last |
| Ipam.MakePool | ipam/pool.go:31-41 | the pool with the subnet and the options applied in order, or the zero pool and the first option's error |
| Ipam.PoolSetters | ipam/pool.go:46-60 | WithRange and WithGateway set only their own field and never fail |
| Ipam.AuxAddressLastWins | ipam/pool.go:65-73 | WithAuxAddress creates the map when it is missing, keeps the other host names, and a later address for the same host name replaces the earlier one |
| Ipam.WithPoolAppends | ipam/driver.go:51-60 | WithPool appends exactly the pool makePool builds, or fails with its error and leaves the configuration unchanged |
| Ipam.PoolsKeepOrder | ipam/driver.go:51-60 | two WithPool options add their pools in the order given, after the existing ones |
| Ipam.WithOptionRule | ipam/driver.go:63-76 | WithOption fails exactly when there is no "=" or the key is empty, changing nothing; otherwise it stores the value under the key and keeps the other options |
| IpamInt.MakeIPAM | internal/ipamint/makeipam.go:25-33 | the configuration with the options applied in order, or the zero configuration and the first option's error |
| IpamInt.NoOptions | internal/ipamint/makeipam.go:25-33 | without options the result is the zero configuration |
| IpamInt.LaterOptionsWin | internal/ipamint/makeipam.go:27-31 | a final WithName decides the driver name and a final WithPool adds the last pool; after a failure later options change nothing |
| Ipvlan.IpvlanKeys | net/ipvlan/options.go:46-101 | WithParent, WithMode and WithFlag each store their one key ("parent", "ipvlan_mode", "ipvlan_flag"), creating the map when needed and keeping the other keys, so together they keep all three values |
| Macvlan.MacvlanKeys | net/macvlan/options.go:39-73 | WithParent and WithMode never fail and store "parent" and "macvlan_mode", creating the map when needed and keeping the other keys; a second WithMode overrides the first |
| Labels.Parse | labels/labels.go:41-49 | a label is valid exactly when it has an "=" and does not start with one; key, "=" and value join back into the label, and the key has no "=" |
| Labels.Added | labels/labels.go:41-49 | Add succeeds exactly for a valid label, which sets only its own key (overwriting an earlier value); an invalid one reports the label |
| Labels.FirstInvalid | labels/labels.go:30-34 | the index of the first invalid label: all before it are valid |
| Labels.AddedAllError | labels/labels.go:28-36 | adding a list fails exactly when some label is invalid, with the first invalid label's error |
| Labels.AddedAllValid | labels/labels.go:28-36 | a list that adds without error holds only valid labels |
| Labels.AddedAllKeys | labels/labels.go:28-36 | after adding, the keys are the old keys plus the keys of the labels given |
| Labels.AddedAllLastWins | labels/labels.go:28-36 | a key holds the value of the last label naming it |
| Labels.AddedAllKeeps | labels/labels.go:28-36 | a key no label names keeps its old value |
| Labels.AddedEach | build/options.go:101-105 | the in-place loop of the WithLabels options leaves the labels before the first invalid one added, and its error is that of adding the whole list |
| Labels.Labels.Add | labels/labels.go:41-49 | the in-place Add succeeds exactly for a valid label, updates the map as Added does, and leaves it unchanged on error |
| Labels.Labels.AddEach | build/options.go:101-107 | the loop's new map and error are those of AddedEach |
| Labels.MakeLabels | labels/labels.go:28-36 | a fresh map holding all labels, or no map and the first invalid label's error |
| Opts.AppliedConcat | run/options.go:28 | applying a list of options in two parts: the second part starts from what the first left, and does not run when the first failed |
| Opts.AppliedSnoc | run/options.go:28 | one more option runs on what the others left, unless they already failed |
| Opts.FirstFailureWins | container_run.go:52-56 | the first option that fails decides the outcome; the options after it never run |
| Opts.ApplyEach | container_run.go:52-56 | the option loop of the entry points returns the first error, otherwise the options all of them worked on |
| Sleep.Sleep | sleep.go:27-39 | a nap succeeds and uses one nap of the context while the context allows one; otherwise it fails with the context's error |
| Moby.Client.Connect | session.go:60 | building the client records its options, sends nothing, and fails as the dial outcome says |
| Moby.Client.ImageInspectCall | image_has.go:27 | each engine call appends itself to the log, keeps the client options, and returns the fields of the next scripted reply |
| Moby.Client.ImagePullCall | moby/client.go:59 | as above, for ImagePull |
| Moby.Client.ContainerCreateCall | moby/client.go:40 | as above, for ContainerCreate, returning the created ID |
| Moby.Client.ContainerAttachCall | moby/client.go:39 | as above, for ContainerAttach |
| Moby.Client.ContainerStartCall | moby/client.go:47 | as above, for ContainerStart |
| Moby.Client.ContainerInspectCall | moby/client.go:41 | as above, for ContainerInspect, returning the details |
| Moby.Client.ContainerRemoveCall | moby/client.go:45 | as above, for ContainerRemove with its force and volume flags |
| Moby.Client.ContainerListCall | moby/client.go:43 | as above, for ContainerList, returning the listed IDs |
| Moby.Client.ContainerExecCreateCall | moby/client.go:53 | as above, for ContainerExecCreate, returning the exec ID |
| Moby.Client.ContainerExecAttachCall | moby/client.go:52 | as above, for ContainerExecAttach |
| Moby.Client.ContainerExecInspectCall | moby/client.go:55 | as above, for ContainerExecInspect, returning the exec details |
| Moby.Client.NetworkCreateCall | moby/client.go:64 | as above, for NetworkCreate, returning the network ID |
| Moby.Client.NetworkInspectCall | moby/client.go:65 | as above, for NetworkInspect, returning the summary |
| Moby.Client.NetworkRemoveCall | moby/client.go:67 | as above, for NetworkRemove |
| Moby.Client.NetworkListCall | moby/client.go:66 | as above, for NetworkList, returning the listed IDs |
| Moby.Client.CloseCall | moby/client.go:37 | Close is appended to the log |
| Sessions.ClientOptions | session.go:56-59 | the client is built with FromEnv and API version negotiation first, then the session's own client options in order |
| Sessions.FilterCut | session.go:92-96 | the filter is the key when the value after the first "=" is empty, else the whole label |
| Sessions.FilterRule | session.go:92-96 | "key=" and "key" filter on the key; "key=value" filters on the whole label |
| Sessions.RemoveEachRule | session.go:106-114 | the listed IDs are removed in list order; removal stops right after the first failure and covers the whole list exactly when none fails |
| Sessions.RemovedInOrder | session.go:106-114 | when no removal fails, every listed ID is removed, in list order |
| Sessions.NetworkCalls | session.go:118-129 | the network part of AutoClean starts with the network listing |
| Sessions.NetworkCallsRule | session.go:118-129 | after the network listing come only network removals |
| Sessions.ContainerCalls | session.go:100-114 | the container part of AutoClean starts with the container listing |
| Sessions.AutoCleanStart | session.go:86-105 | without a label AutoClean sends nothing; with one it lists the matching containers first, and a failed listing ends it there |
| Sessions.NetworksOnlyAfterContainers | session.go:99-121 | networks are listed exactly when the container listing worked and every listed container was removed |
| Sessions.AutoCleanNetworksLast | session.go:99-129 | when all containers were removed, AutoClean lists the containers, removes each listed one forcibly with its volumes in list order, and then lists the networks |
| Sessions.ContainerTrace | session.go:136-148 | one inspection; success exactly when it succeeds with a non-empty name; the container is named by the inspected name without its first character and carries the inspected ID and details; an engine error is returned unwrapped |
| Sessions.NetworkTrace | session.go:153-167 | one inspection; an engine error is returned unwrapped, otherwise the network carries the inspected name, ID and details |
| NetworkCreation.Initial | network_create.go:42-46 | before any option runs, duplicate checking is on and the label map is a new copy of the session's labels; nothing else is set |
| NetworkCreation.OptionFailureFirst | network_create.go:47-51 | a failing option ends CreateNetwork with that option's error, unwrapped, before any engine call |
| NetworkCreation.RollbackOnInspectFailure | network_create.go:53-75 | the network is created with the options as applied; a failed creation is the only call; a failed inspection removes exactly the created network as the last call and nothing else removes; success exactly when both calls succeed, naming the network as asked with the created ID |
| NetOptions.SettersSetTheirField | net/options.go:37-72 | WithDriver, WithInternal and WithIPv6 set only their own field and never fail |
| NetOptions.WithIPAMReplaces | net/options.go:47-56 | WithIPAM replaces the IPAM configuration by the one built from its options and changes nothing else; on an IPAM option error nothing changes |
| NetOptions.WithLabelsPartial | net/options.go:83-93 | WithLabels always leaves a label map holding the old labels plus those before the first invalid one, changes no other field, and fails exactly with the first invalid label's error |
| NetOptions.WithLabelKeeps | net/options.go:75-80 | WithLabel with a valid label keeps every other label and sets its own key |
| NetOptions.WithOptionRule | net/options.go:96-101 | WithOption follows the label rules into the driver option map: it succeeds exactly for a valid "KEY=VALUE", setting only that key |
| NetInt.EnsureLabelsMap | internal/netint/ensure.go:25-30 | afterwards there is a label map: an existing one is kept as it is, a missing one becomes empty, and nothing else changes |
| NetInt.EnsureOptionsMap | internal/netint/ensure.go:34-39 | the same for the driver option map |
| NetInt.EnsureIdempotent | internal/netint/ensure.go:25-39 | applying either helper twice equals applying it once |
| NetInt.SetOptionOneKey | net/bridge/options.go:42-43 | a driver option setter creates the map when needed, sets its key, keeps every other key and field, and a second value for the same key replaces the first |
| PullOptions.SettersSetTheirField | pull/options.go:38-73 | WithOutput, WithAllTags and WithRegistryAuth set only their own field and never fail |
| PullOptions.PlatformRule | pull/options.go:56-64 | an unparsable platform returns the parser's error and changes nothing; a parsable one is stored as text, verbatim |
| PullOptions.LaterWriteWins | pull/options.go:38-73 | options run in sequence and a later write to the same field wins |
| PushOptions.SettersSetTheirField | push/options.go:38-74 | WithOutput, WithAllTags and WithRegistryAuth set only their own field and never fail |
| PushOptions.PlatformRule | push/options.go:56-65 | a parser error is returned and changes nothing; otherwise the parsed platform, not the text, is stored |
| PushOptions.LaterPlatformWins | push/options.go:56-65 | a later platform replaces an earlier one, and a failing one fails the whole list |
| RunOptions.EnsureLabelsMap | run/options.go:156-161 | afterwards there is a label map: an existing one is kept, a missing one becomes empty, and nothing else changes |
| RunOptions.BindVolumeToBind | run/options.go:323-336 | a bind volume whose source (before the first ':') is "." or starts with "./" gets the absolute source when it can be made absolute; every other volume is returned unchanged |
| RunOptions.TtyLastWins | run/options.go:79-195 | of WithTTY and WithDemuxedOutput, the one applied last decides the TTY flag |
| RunOptions.StreamSetters | run/options.go:65-98 | combined output sends both streams to one writer and leaves the config alone; WithInput sets the reader and opens stdin once |
| RunOptions.AppendsInOrder | run/options.go:118-442 | environment variables, added capabilities and security options accumulate in the order given; WithCapDropAll drops exactly "ALL" |
| RunOptions.ClearThenLabels | run/options.go:127-154 | ClearLabels then WithLabels leaves exactly the new labels, or fails with the first invalid label's error |
| RunOptions.WithLabelsPartial | run/options.go:144-161 | WithLabels always leaves a label map holding the old labels plus those before the first invalid one, and fails exactly when some label is invalid |
| RunOptions.SizesAndTmpfs | run/options.go:358-451 | WithConsoleSize(width, height) stores (height, width); the tmpfs options create the map when missing and map the path to "" or to the mount options |
| RunOptions.WithDeviceRule | run/options.go:397-424 | more than three ':'-separated fields is a syntax error and an empty host path is an error, both changing nothing; otherwise one mapping is appended whose container path defaults to the host path and whose permissions default to "rwm" |
| RunOptions.DeviceOfSeparatorsOnly | run/options.go:404-410 | "::" is rejected for its empty host path |
| SessionOptions.EnsureLabelsMap | session/options.go:94-99 | afterwards there is a label map: an existing one is kept, a missing one becomes empty, and nothing else changes |
| SessionOptions.AutoCleaningRule | session/options.go:52-63 | WithAutoCleaning accepts exactly the labels the label rules accept; a rejected label changes nothing, an accepted one is stored verbatim as the auto-cleaning label and added to the session labels |
| SessionOptions.LabelKept | session/options.go:69-74 | WithLabel always leaves a label map, and a valid label is added to the existing labels rather than replacing them |
| SessionOptions.LabelsKept | session/options.go:80-90 | WithLabels always leaves a label map holding the old labels plus those before the first invalid one, and fails exactly when some label is invalid |
| SessionOptions.DockerOptsInOrder | session/options.go:103-108 | client options accumulate in the order given |
| Strukt.Assign | strukt/strukt.go:44-54 | the first fields take the pieces' values, in declaration order; the other fields are unchanged |
| Strukt.FirstUnwritable | strukt/strukt.go:44-52 | the index of the first field receiving a piece that is not a settable string field; all before it are |
| Strukt.UnmarshalledOk | strukt/strukt.go:39-55 | more pieces than fields is an error that changes no field; otherwise Unmarshal succeeds exactly when every field receiving a piece is a settable string field, piece i then lands in field i, and the other fields keep their values |
| Strukt.UnmarshalledPartial | strukt/strukt.go:44-54 | at the first field that cannot take a string the error names that field, the fields before it are already set, and it and the later fields are untouched |
| Strukt.SplitOnlySeparators | strukt/strukt.go:39 | splitting "::" at ':' gives three empty pieces |
| Strukt.Unmarshal | strukt/strukt.go:30-56 | anything but a pointer to a struct is an error; for a struct, the new fields and the error are those of Unmarshalled, with the fields set in place |
| Text.IndexOf | labels/labels.go:42 | the position of the first separator, or the length when there is none: no separator before it |
| Text.Cut | labels/labels.go:42 | found exactly when the separator occurs; then the text is before + separator + after with no separator in before; otherwise before is the whole text and after is empty |
| Text.Split | strukt/strukt.go:39 | at least one piece, no piece holds the separator, and joining the pieces with it gives back the text |
| Text.CutJoined | labels/labels.go:42 | cutting a + sep + b where a has no separator yields a and b |
| Text.SplitJoin | strukt/strukt.go:39 | splitting the join of separator-free pieces gives back the pieces |
| Text.Decimal | addr.go:56 | the decimal text is non-empty, all digits, and has no leading zero |
| Text.ParseUint | container.go:205 | succeeds exactly for a non-empty all-digit text whose value fits the bit size, and then yields that value |
| Text.DecimalRoundTrip | addr.go:56-58 | reading back the decimal text of a number yields the number |
| Text.ParseDecimal | container.go:205 | a port formatted in decimal parses back to itself |
| Timestamper.LineEnd | timestamper/writer.go:66-75 | the length of the first line piece: it ends just after the first newline, or takes all the bytes when there is no newline |
| Timestamper.StampedConcat | timestamper/writer.go:53-93 | writing two payloads one after the other sends downstream what writing them at once sends, a line split across writes getting one stamp |
| Timestamper.StampedLine | timestamper/writer.go:58-81 | a line piece gets at most one stamp, in front of its first byte |
| Timestamper.PayloadInAll | timestamper/writer.go:79-80 | once the whole output is through, the count is the whole payload |
| Timestamper.PayloadInBound | timestamper/writer.go:61-64 | a write cut short within the stamp reports no payload byte, and the count never exceeds the payload |
| Timestamper.Writer.New | timestamper/writer.go:37-39 | a new writer uses the default format and stamps the first line |
| Timestamper.Writer.NewWithFormat | timestamper/writer.go:43-49 | a new writer with the given format stamps the first line |
| Timestamper.Writer.WritePiece | timestamper/writer.go:59-91 | one round of the loop: the stamp when a line is due, then the first line piece; what downstream takes, the payload count and whether a line is due next |
| Timestamper.PieceLenEnds | timestamper/writer.go:66-76 | the first line piece ends just after the first newline, or takes all the bytes when there is none |
| Timestamper.DueAfterFits | timestamper/writer.go:59-81 | when the whole output fits downstream, the flag DueAfter leaves is set exactly when the payload ended with a newline, as Write promises on success |
| Timestamper.Writer.Write | timestamper/writer.go:53-93 | downstream receives the longest prefix of the stamped output it has room for; the write fails exactly when the output does not fit; the count is the payload bytes among what was taken, the whole payload on success; on success a line is due next exactly when the payload ended with a newline; in every case, failed or not, the new flag is DueAfter of the payload, the old flag and the room: each round clears the flag before it writes the stamp and sets it when its line piece ends with a newline, so a failed stamp write leaves it clear and a failed piece write leaves what the scan set |
| Morbyd.NewSession | session.go:48-70 | a failing session option is returned wrapped with no engine call; otherwise the client is built with the default options followed by the session's Docker options, a failing client is the error, and a new session auto-cleans before it is returned |
| Morbyd.Session.Close | session.go:77-80 | auto-cleaning, then closing the client |
| Morbyd.Session.AutoClean | session.go:86-130 | no engine call without an auto-cleaning label; otherwise the calls of Sessions.AutoCleanCalls: containers first, networks only when all containers went |
| Morbyd.Session.RemoveContainers | session.go:99-114 | lists the labelled containers and removes them forcibly with their volumes, in list order; reports whether all were removed |
| Morbyd.Session.RemoveNetworks | session.go:116-129 | lists the labelled networks and removes them in list order |
| Morbyd.Session.RemoveListed | session.go:106-114 | removes the listed items in list order and stops at the first failed removal; succeeds exactly when every removal did |
| Morbyd.Session.Run | container_run.go:40-161 | the engine calls and the outcome are those of ContainerRun.RunTrace; a new container of this session with the inspected name, id and details on success |
| Morbyd.Session.RunEngine | container_run.go:62-160 | inspect the image, pull it when missing, then create, attach, start and inspect, as ContainerRun.Engine |
| Morbyd.Session.StartContainer | container_run.go:74-160 | the create call, then the steps of ContainerRun.AfterCreate, as ContainerRun.Started |
| Morbyd.Session.AttachStartInspect | container_run.go:88-160 | attach, start and inspect; on a failure the container is removed again and the failure returned, as ContainerRun.AfterCreate |
| Morbyd.Session.CreateNetwork | network_create.go:41-75 | the engine calls and the outcome are those of NetworkCreation.NetworkTrace |
| Morbyd.Session.Container | session.go:136-148 | one inspect call; the outcome of Sessions.ContainerTrace, as a new container of this session |
| Morbyd.Session.Network | session.go:153-167 | one inspect call; the outcome of Sessions.NetworkTrace |
| Morbyd.Container.Refresh | container.go:52-60 | one inspect call; new details on success, the old details kept and the error wrapped on failure |
| Morbyd.Container.PID | container.go:110-135 | the inspect calls, the naps left and the outcome are those of Containers.PidPoll |
| Morbyd.Container.PublishedPort | container.go:191-212 | the addresses of Containers.PublishedAddrs for the last inspected details |
| Morbyd.Container.Exec | container_exec.go:56-150 | the engine calls and the outcome are those of ContainerExec.ExecTrace; a new exec session of this container on success |
| Morbyd.ExecSession.PID | container_exec.go:159-184 | the exec inspect calls, the naps left and the outcome are those of ContainerExec.ExecPid |
| Morbyd.ExecSession.Wait | container_exec.go:195-210 | the calls and the outcome of ContainerExec.WaitTrace: a cancelled context wins, else one inspect whose exit code is returned unless the command still runs |

## Left out

- The stream pumps: the goroutines that copy the attached streams, the `done` and `stdinDone` channels, `io.Copy` and `stdcopy.StdCopy` (container_run.go:114-144, container_exec.go:106-138). They are concurrent, and the demultiplexing lives in a Docker library. An exec session's `done` channel is a parameter `done: nat -> bool`: whether the output has ended after k engine calls.
- sleep.go: the timer and its `select` are a step that either uses up one nap of `Sleep.Context.naps` or reports cancellation once the naps are used up. Real time is not modelled.
- Morbyd.ExecSession.Wait: the `select` between the context and the end of the output is a parameter `ctxFirst` telling which one wins.
- `Container.IP`, `Stop`, `Wait` and `Kill`: `IP` iterates a Go map, whose order is not determined; the others are channel selects or calls whose outcome is ignored.
- The image operations (build, pull, push, remove, has) as operations of their own: they wrap the engine, tar archiving and JSON message streams. `Run` uses the image inspect and pull calls. `HasImage` and `PullImage` wrap errors with their own messages; the model collapses these into one `Wrapped(RunHasImage, …)` or `Wrapped(RunPull, …)`. Errors reported inside the pull's progress stream are not modelled.
- `WithVolume`, `WithMount` and `WithNetwork` of run/options.go (lines 289-357 and 462-486): their parsing lives in Docker CLI code that is not part of this model. `bindVolumeToBind` is modelled.
- The session's `Wrapper` hook and `Session.Client`: they hand out the client and add nothing to model.
- Foreign code is represented by parameters:
  - IP parsing (`net.ParseIP`) and IPv6 text;
  - `filepath.Abs`;
  - `platforms.Parse`;
  - the outcome of building the Docker client (`Client.dial`);
  - the index `Addrs.Any` picks at random;
  - the formatted time text of the stamp (`time.Now().Format`).
- The option closures update a record through a pointer. Each option is modelled as a function from the old record to the new one, plus its error. No option keeps a pointer to the record, so nothing is lost but the in-place write. Where the source itself is a loop or a stateful object, the model keeps the form: `MakeLabels`, `MakeBuildArgs`, `makePool`, `MakeIPAM`, the option loops, `Strukt.Unmarshal` and `Timestamper.Writer`.
- Identity.WithUser and Identity.WithGroup: the Go type parameter also admits named types derived from `string` or `int` (the `~` in the constraint). The model takes plain strings and integers.
- Strukt.Unmarshal: the delimiter is one character. Every caller in the library splits at ":" or a similar single character; the empty delimiter, which Go splits into UTF-8 sequences, is not modelled. A record is a sequence of fields, each carrying whether it is settable and whether its kind is string.
- Strukt.Unmarshal: a nil pointer to a struct and a nil interface are not modelled. Go panics on both: on a nil interface at the first `typ.Kind()`, and on a nil pointer when a piece is to be set through the zero `reflect.Value` that `Elem()` gives. No caller in the library passes nil.
- Timestamper.Writer.Write: the downstream writer is a `Sink` that takes bytes until its capacity is used up, then takes the part that fits and reports an error. A writer that fails in other ways is not modelled, such as failing without taking bytes while room is left. `utf8.DecodeRune` is replaced by a byte scan for the newline; the two agree because the newline byte never occurs inside a multi-byte UTF-8 sequence, and an invalid byte advances by one.
- Go's fixed-width integers: ports are naturals checked against 65535 where the source parses them (`strconv.ParseUint(…, 10, 16)`). Process IDs, exit codes, console sizes and the MTU are unbounded integers, and no overflow is modelled.
- Error message texts: errors are constructors naming the failing step and carrying the cause or the offending input. `fmt.Errorf` formatting is not modelled.
- Sessions.Filter: the filter is written with `Text.IndexOf`, and `Sessions.FilterCut` proves it equal to the `strings.Cut` form of session.go:93-96.
