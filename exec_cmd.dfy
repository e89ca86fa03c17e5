/** exec/cmd.go: the argument vector of a command to execute in a
    container. */
module ExecCmd {

  /** Command: the command followed by its arguments, in order; the command
      comes first even when it is empty. */
  function Command(cmd: string, args: seq<string>): (argv: seq<string>)
    ensures |argv| == 1 + |args|
    ensures argv[0] == cmd
    ensures forall i :: 0 <= i < |args| ==> argv[i + 1] == args[i]
  {
    [cmd] + args
  }
}
