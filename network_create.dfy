/** network_create.go: what Session.CreateNetwork sends to the engine and
    what it returns. Options run first; then the network is created and
    inspected, and a failed inspection removes the new network again. */
module NetworkCreation {
  import opened Results
  import opened Moby
  import Opts
  import NetInt
  import NetOptions

  /** A Network: its name, its ID and the details of its inspection. */
  datatype Network = Network(name: string, id: string, details: NetworkSummary)

  /** The options before any Opt runs: duplicate checking on, and a fresh
      label map holding a copy of the session's labels. */
  function Initial(sessionLabels: Option<map<string, string>>): (o: NetOptions.Options)
    ensures o.checkDuplicate && o.labels == Some(sessionLabels.GetOr(map[]))
    ensures o.driver == "" && o.ipam.None? && o.options.None? && !o.internal && !o.enableIPv6
  {
    NetInt.Zero.(checkDuplicate := true, labels := Some(sessionLabels.GetOr(map[])))
  }

  /** Session.CreateNetwork for a session with labels `sessionLabels`, the
      engine's replies starting at script(n). */
  function NetworkTrace(sessionLabels: Option<map<string, string>>, name: string, opts: seq<NetOptions.Opt>,
                        script: nat -> Reply, n: nat): Trace<Network>
  {
    match Opts.Applied(Initial(sessionLabels), opts)
    case Err(e) => Trace([], Err(e))
    case Ok(o) =>
      if script(n).err.Some? then Trace([NetworkCreate(name, o)], Err(Wrapped(NetworkCreateCall, script(n).err.value)))
      else
        var id := script(n).id;
        if script(n + 1).err.Some? then
          Trace([NetworkCreate(name, o), NetworkInspect(id), NetworkRemove(id)],
                Err(Wrapped(NetworkInspectCall, script(n + 1).err.value)))
        else Trace([NetworkCreate(name, o), NetworkInspect(id)], Ok(Network(name, id, script(n + 1).network)))
  }

  /** A failing option ends CreateNetwork before any engine call. */
  lemma OptionFailureFirst(sessionLabels: Option<map<string, string>>, name: string, opts: seq<NetOptions.Opt>,
                           script: nat -> Reply, n: nat)
    requires Opts.Applied(Initial(sessionLabels), opts).Err?
    ensures NetworkTrace(sessionLabels, name, opts, script, n) ==
              Trace([], Err(Opts.Applied(Initial(sessionLabels), opts).error))
  {
  }

  /** The network is created with the options as applied; a failed creation
      removes nothing; a failed inspection removes exactly the created
      network, as the last call; a success names the network as asked and
      carries the created ID. */
  lemma RollbackOnInspectFailure(sessionLabels: Option<map<string, string>>, name: string, opts: seq<NetOptions.Opt>,
                                 script: nat -> Reply, n: nat)
    requires Opts.Applied(Initial(sessionLabels), opts).Ok?
    ensures var t := NetworkTrace(sessionLabels, name, opts, script, n);
      t.calls[0] == NetworkCreate(name, Opts.Applied(Initial(sessionLabels), opts).value)
    ensures var t := NetworkTrace(sessionLabels, name, opts, script, n);
      script(n).err.Some? ==> |t.calls| == 1 && t.result.Err?
    ensures var t := NetworkTrace(sessionLabels, name, opts, script, n);
      script(n).err.None? && script(n + 1).err.Some? ==>
        t.result.Err? && t.calls[|t.calls| - 1] == NetworkRemove(script(n).id) &&
        forall i :: 0 <= i < |t.calls| - 1 ==> !t.calls[i].NetworkRemove?
    ensures var t := NetworkTrace(sessionLabels, name, opts, script, n);
      t.result.Ok? <==> script(n).err.None? && script(n + 1).err.None?
    ensures var t := NetworkTrace(sessionLabels, name, opts, script, n);
      t.result.Ok? ==>
        t.result.value.name == name && t.result.value.id == script(n).id &&
        forall c <- t.calls :: !c.NetworkRemove?
  {
  }
}
