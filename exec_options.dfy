/** exec/options.go: options for executing a command inside a container:
    the input and output streams and the exec configuration. */
module ExecOptions {
  import opened Results
  import Opts

  /** container.ExecOptions, the fields the library sets; the console size
      pointer is `None` when nil, else the pair (height, width). */
  datatype ExecConfig = ExecConfig(
    user: string,
    privileged: bool,
    tty: bool,
    consoleSize: Option<(nat, nat)>,
    attachStdin: bool,
    attachStderr: bool,
    attachStdout: bool,
    env: seq<string>,
    workingDir: string,
    cmd: seq<string>)

  /** exec.Options: nil readers and writers are `None`. */
  datatype Options = Options(input: Option<Input>, out: Option<Output>, err: Option<Output>, conf: ExecConfig)

  /** The zero value of the options. */
  const Zero := Options(None, None, None, ExecConfig("", false, false, None, false, false, false, [], "", []))

  /** Opt: a closure updating the exec options. */
  type Opt = Options -> (Options, Option<Error>)

  /** Sends stdout and stderr to the same writer. */
  function WithCombinedOutput(w: Output): Opt
  {
    (o: Options) => (o.(out := Some(w), err := Some(w)), None)
  }

  /** Separate writers for stdout and stderr, which needs the TTY off. */
  function WithDemuxedOutput(out: Output, err: Output): Opt
  {
    (o: Options) => (o.(conf := o.conf.(tty := false), out := Some(out), err := Some(err)), None)
  }

  function WithInput(r: Input): Opt
  {
    (o: Options) => (o.(input := Some(r)), None)
  }

  function WithTTY(): Opt
  {
    (o: Options) => (o.(conf := o.conf.(tty := true)), None)
  }

  function WithEnvVars(vars: seq<string>): Opt
  {
    (o: Options) => (o.(conf := o.conf.(env := o.conf.env + vars)), None)
  }

  function WithWorkingDir(path: string): Opt
  {
    (o: Options) => (o.(conf := o.conf.(workingDir := path)), None)
  }

  function WithUser(user: string): Opt
  {
    (o: Options) => (o.(conf := o.conf.(user := user)), None)
  }

  function WithPrivileged(): Opt
  {
    (o: Options) => (o.(conf := o.conf.(privileged := true)), None)
  }

  /** Width first in the call, height first in the stored pair. */
  function WithConsoleSize(width: nat, height: nat): Opt
  {
    (o: Options) => (o.(conf := o.conf.(consoleSize := Some((height, width)))), None)
  }

  /** Of WithTTY and WithDemuxedOutput, the one applied last decides the
      TTY flag, whatever options came before. */
  lemma {:induction false} TtyLastWins(o: Options, opts: seq<Opt>, out: Output, err: Output)
    ensures Opts.Applied(o, opts).Ok? ==>
              Opts.Applied(o, opts + [WithTTY()]).Ok? &&
              Opts.Applied(o, opts + [WithTTY()]).value.conf.tty
    ensures Opts.Applied(o, opts).Ok? ==>
              Opts.Applied(o, opts + [WithDemuxedOutput(out, err)]).Ok? &&
              !Opts.Applied(o, opts + [WithDemuxedOutput(out, err)]).value.conf.tty
  {
    Opts.AppliedSnoc(o, opts, WithTTY());
    Opts.AppliedSnoc(o, opts, WithDemuxedOutput(out, err));
  }

  /** Combined output sends both streams to the one writer and leaves the
      configuration, the TTY flag included, alone; demuxed output sets the
      two writers apart. */
  lemma OutputWriters(o: Options, w: Output, out: Output, err: Output)
    ensures WithCombinedOutput(w)(o) == (o.(out := Some(w), err := Some(w)), None)
    ensures WithCombinedOutput(w)(o).0.conf == o.conf
    ensures WithDemuxedOutput(out, err)(o).0.out == Some(out)
    ensures WithDemuxedOutput(out, err)(o).0.err == Some(err)
  {
  }

  /** The exec WithInput sets the reader only: no stdin flag of the
      configuration changes. */
  lemma InputOnly(o: Options, r: Input)
    ensures WithInput(r)(o) == (o.(input := Some(r)), None)
    ensures WithInput(r)(o).0.conf == o.conf
  {
  }

  /** Environment variables accumulate in the order given. */
  lemma {:induction false} EnvAppends(o: Options, opts: seq<Opt>, a: seq<string>, b: seq<string>)
    ensures Opts.Applied(o, opts + [WithEnvVars(a), WithEnvVars(b)]) ==
              match Opts.Applied(o, opts)
              case Err(e) => Err(e)
              case Ok(p) => Ok(p.(conf := p.conf.(env := p.conf.env + a + b)))
  {
    Opts.AppliedSnoc(o, opts, WithEnvVars(a));
    Opts.AppliedSnoc(o, opts + [WithEnvVars(a)], WithEnvVars(b));
    assert opts + [WithEnvVars(a)] + [WithEnvVars(b)] == opts + [WithEnvVars(a), WithEnvVars(b)];
  }

  /** WithConsoleSize(w, h) stores the pair (h, w). */
  lemma ConsoleSizeSwapped(o: Options, width: nat, height: nat)
    ensures WithConsoleSize(width, height)(o).0.conf.consoleSize.value.0 == height
    ensures WithConsoleSize(width, height)(o).0.conf.consoleSize.value.1 == width
  {
  }

  /** WithWorkingDir, WithUser and WithPrivileged each set exactly their
      field. */
  lemma SettersSetTheirField(o: Options, path: string, user: string)
    ensures WithWorkingDir(path)(o) == (o.(conf := o.conf.(workingDir := path)), None)
    ensures WithUser(user)(o) == (o.(conf := o.conf.(user := user)), None)
    ensures WithPrivileged()(o) == (o.(conf := o.conf.(privileged := true)), None)
  {
  }

  /** Without options there is no reader and no writer. */
  lemma NoOptionsNoStreams()
    ensures Opts.Applied(Zero, []).value.input.None?
    ensures Opts.Applied(Zero, []).value.out.None? && Opts.Applied(Zero, []).value.err.None?
  {
  }
}
