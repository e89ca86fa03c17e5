/** container_run.go: what Session.Run sends to the engine and what it
    returns. Options run first; then the image is looked for and pulled
    when missing; then the container is created, attached to, started and
    inspected, and a failure after the creation removes the container
    again. The stream pumps between attach and start are not modelled. */
module ContainerRun {
  import opened Results
  import opened Moby
  import Opts
  import RunOptions
  import Labels

  /** What a successful run hands to the new Container: its name, its ID
      and the details of the inspection after the start. */
  datatype Made = Made(name: string, id: string, details: ContainerJSON)

  /** The options before any Opt runs: the image reference, and a fresh
      label map holding a copy of the session's labels. */
  function Initial(sessionLabels: Option<map<string, string>>, ref: string): (o: RunOptions.Options)
    ensures o.conf.image == ref && o.conf.labels == Some(sessionLabels.GetOr(map[]))
    ensures o.input.None? && o.out.None? && o.err.None? && o.name == ""
  {
    RunOptions.Zero.(conf := RunOptions.ZeroConfig.(image := ref, labels := Some(sessionLabels.GetOr(map[]))))
  }

  /** A missing output writer becomes io.Discard. */
  function Defaulted(o: RunOptions.Options): (r: RunOptions.Options)
    ensures r.out.Some?
    ensures o.out.Some? ==> r == o
    ensures o.out.None? ==> r == o.(out := Some(Discard))
  {
    o.(out := Some(o.out.GetOr(Discard)))
  }

  /** The calls after container `id` was created, the engine's replies
      starting at script(m): attach, start and inspect; a failing step ends
      it, and the deferred removal of the container follows. */
  function AfterCreate(id: string, input: bool, script: nat -> Reply, m: nat): Trace<Made>
  {
    var attach := ContainerAttach(id, input);
    var remove := ContainerRemove(id, true, false);
    if script(m).err.Some? then
      Trace([attach, remove], Err(Wrapped(RunAttach, script(m).err.value)))
    else if script(m + 1).err.Some? then
      Trace([attach, ContainerStart(id), remove], Err(Wrapped(RunStart, script(m + 1).err.value)))
    else if script(m + 2).err.Some? then
      Trace([attach, ContainerStart(id), ContainerInspect(id), remove],
            Err(Wrapped(RunInspect, script(m + 2).err.value)))
    else
      var d := script(m + 2).container;
      // details.Name[1:] panics on an empty name; the deferred removal
      // then sees a nil error and removes nothing.
      if |d.name| == 0 then Trace([attach, ContainerStart(id), ContainerInspect(id)], Err(IndexPanic))
      else Trace([attach, ContainerStart(id), ContainerInspect(id)], Ok(Made(d.name[1..], id, d)))
  }

  /** The calls from ContainerCreate on, the engine's replies starting at
      script(m). */
  function Started(copts: RunOptions.Options, script: nat -> Reply, m: nat): Trace<Made>
  {
    var create := ContainerCreate(copts.conf, copts.host, copts.name);
    if script(m).err.Some? then Trace([create], Err(Wrapped(RunCreate, script(m).err.value)))
    else
      var id := script(m).id;
      var attach := ContainerAttach(id, copts.input.Some?);
      var remove := ContainerRemove(id, true, false);
      if script(m + 1).err.Some? then
        Trace([create, attach, remove], Err(Wrapped(RunAttach, script(m + 1).err.value)))
      else if script(m + 2).err.Some? then
        Trace([create, attach, ContainerStart(id), remove], Err(Wrapped(RunStart, script(m + 2).err.value)))
      else if script(m + 3).err.Some? then
        Trace([create, attach, ContainerStart(id), ContainerInspect(id), remove],
              Err(Wrapped(RunInspect, script(m + 3).err.value)))
      else
        var d := script(m + 3).container;
        if |d.name| == 0 then Trace([create, attach, ContainerStart(id), ContainerInspect(id)], Err(IndexPanic))
        else Trace([create, attach, ContainerStart(id), ContainerInspect(id)], Ok(Made(d.name[1..], id, d)))
  }

  /** After a successful creation, Started is the creation followed by
      AfterCreate for the new container. */
  lemma StartedAfterCreate(copts: RunOptions.Options, script: nat -> Reply, m: nat)
    requires script(m).err.None?
    ensures var a := AfterCreate(script(m).id, copts.input.Some?, script, m + 1);
      Started(copts, script, m) == Trace([ContainerCreate(copts.conf, copts.host, copts.name)] + a.calls, a.result)
  {
  }

  /** The calls after the options succeeded with `copts`, the engine's
      replies starting at script(n). */
  function Engine(copts: RunOptions.Options, ref: string, script: nat -> Reply, n: nat): Trace<Made>
  {
    var has := script(n);
    if has.err.Some? && !has.notFound then
      Trace([ImageInspect(ref)], Err(Wrapped(RunHasImage, has.err.value)))
    else if has.err.Some? && script(n + 1).err.Some? then
      Trace([ImageInspect(ref), ImagePull(ref)], Err(Wrapped(RunPull, script(n + 1).err.value)))
    else
      var pre := if has.err.Some? then [ImageInspect(ref), ImagePull(ref)] else [ImageInspect(ref)];
      var t := Started(Defaulted(copts), script, n + |pre|);
      Trace(pre + t.calls, t.result)
  }

  /** Session.Run for a session with labels `sessionLabels`. */
  function RunTrace(sessionLabels: Option<map<string, string>>, ref: string, opts: seq<RunOptions.Opt>,
                    script: nat -> Reply, n: nat): Trace<Made>
  {
    match Opts.Applied(Initial(sessionLabels, ref), opts)
    case Err(e) => Trace([], Err(e))
    case Ok(o) => Engine(o, ref, script, n)
  }

  /** A failing option ends Run with that error before any engine call. */
  lemma OptionFailureFirst(sessionLabels: Option<map<string, string>>, ref: string, opts: seq<RunOptions.Opt>,
                           script: nat -> Reply, n: nat)
    requires Opts.Applied(Initial(sessionLabels, ref), opts).Err?
    ensures RunTrace(sessionLabels, ref, opts, script, n) ==
              Trace([], Err(Opts.Applied(Initial(sessionLabels, ref), opts).error))
  {
  }

  /** An image inspection that fails other than with "not found", or a pull
      that fails, ends Run before anything is created. */
  lemma ImageBeforeCreate(sessionLabels: Option<map<string, string>>, ref: string, opts: seq<RunOptions.Opt>,
                          script: nat -> Reply, n: nat)
    requires Opts.Applied(Initial(sessionLabels, ref), opts).Ok?
    requires script(n).err.Some? && (!script(n).notFound || script(n + 1).err.Some?)
    ensures var t := RunTrace(sessionLabels, ref, opts, script, n);
      t.result.Err? && t.calls[0] == ImageInspect(ref) &&
      forall c <- t.calls :: !c.ContainerCreate? && !c.ContainerRemove?
  {
  }

  /** A successful Run ends with create, attach, start and inspect of the
      created container, in this order; it attaches to stdin exactly when
      an input is set, pulls only a missing image, removes nothing, and
      names the container by the inspected name without its first
      character. */
  lemma SuccessOrder(sessionLabels: Option<map<string, string>>, ref: string, opts: seq<RunOptions.Opt>,
                     script: nat -> Reply, n: nat)
    requires Opts.Applied(Initial(sessionLabels, ref), opts).Ok?
    requires RunTrace(sessionLabels, ref, opts, script, n).result.Ok?
    ensures var o := Defaulted(Opts.Applied(Initial(sessionLabels, ref), opts).value);
      var t := RunTrace(sessionLabels, ref, opts, script, n);
      var made := t.result.value;
      var k := |t.calls| - 4;
      (k == 1 || k == 2) &&
      t.calls[0] == ImageInspect(ref) &&
      (k == 2 <==> script(n).err.Some?) &&
      t.calls[k..] == [ContainerCreate(o.conf, o.host, o.name), ContainerAttach(made.id, o.input.Some?),
                       ContainerStart(made.id), ContainerInspect(made.id)] &&
      made.id == script(n + k).id &&
      made.details == script(n + k + 3).container &&
      made.details.name == [made.details.name[0]] + made.name &&
      forall c <- t.calls :: !c.ContainerRemove?
  {
    var t := RunTrace(sessionLabels, ref, opts, script, n);
    var d := t.result.value.details;
    assert d.name == [d.name[0]] + d.name[1..];
  }

  /** After the creation, a failed step is followed by the removal of the
      container as the last call, and by no other removal; a success and
      the panic remove nothing; a success attaches, starts and inspects. */
  lemma AfterCreateRule(id: string, input: bool, script: nat -> Reply, m: nat)
    ensures var t := AfterCreate(id, input, script, m);
      |t.calls| >= 2 && t.calls[0] == ContainerAttach(id, input) &&
      (forall c <- t.calls :: !c.ContainerCreate?) &&
      (forall i :: 0 <= i < |t.calls| - 1 ==> !t.calls[i].ContainerRemove?) &&
      (t.result.Err? && t.result.error != IndexPanic ==> t.calls[|t.calls| - 1] == ContainerRemove(id, true, false)) &&
      (t.result.Ok? || t.result == Err(IndexPanic) ==> forall c <- t.calls :: !c.ContainerRemove?)
    ensures var t := AfterCreate(id, input, script, m);
      t.result.Ok? ==>
        t.calls == [ContainerAttach(id, input), ContainerStart(id), ContainerInspect(id)] &&
        t.result.value.id == id && t.result.value.details == script(m + 2).container &&
        t.result.value.name == t.result.value.details.name[1..] && |t.result.value.details.name| > 0
  {
  }

  /** The cleanup rule for the calls from ContainerCreate on. */
  lemma StartedCleanup(copts: RunOptions.Options, script: nat -> Reply, m: nat)
    ensures var t := Started(copts, script, m);
      t.calls[0] == ContainerCreate(copts.conf, copts.host, copts.name) &&
      (forall i :: 1 <= i < |t.calls| ==> !t.calls[i].ContainerCreate?) &&
      (script(m).err.Some? ==> |t.calls| == 1 && t.result == Err(Wrapped(RunCreate, script(m).err.value))) &&
      (script(m).err.None? && t.result.Err? && t.result.error != IndexPanic ==>
         t.calls[|t.calls| - 1] == ContainerRemove(script(m).id, true, false)) &&
      (t.result.Ok? ==> t.result.value.id == script(m).id) &&
      (forall i :: 0 <= i < |t.calls| - 1 ==> !t.calls[i].ContainerRemove?) &&
      (t.result.Ok? || t.result == Err(IndexPanic) || script(m).err.Some? ==>
         forall c <- t.calls :: !c.ContainerRemove?)
  {
  }

  /** When the image inspection or the pull fails, Run sends nothing else. */
  lemma ImageFailureCalls(copts: RunOptions.Options, ref: string, script: nat -> Reply, n: nat)
    ensures script(n).err.Some? && !script(n).notFound ==> Engine(copts, ref, script, n).calls == [ImageInspect(ref)]
    ensures script(n).err.Some? && script(n).notFound && script(n + 1).err.Some? ==>
      Engine(copts, ref, script, n).calls == [ImageInspect(ref), ImagePull(ref)]
  {
  }

  /** The cleanup rule for the engine calls of Run, the create call being
      call number k. */
  lemma EngineCleanup(copts: RunOptions.Options, ref: string, script: nat -> Reply, n: nat, k: nat)
    requires var t := Engine(copts, ref, script, n);
      k < |t.calls| && t.calls[k].ContainerCreate?
    ensures var t := Engine(copts, ref, script, n);
      script(n + k).err.Some? ==>
        k == |t.calls| - 1 && t.result == Err(Wrapped(RunCreate, script(n + k).err.value))
    ensures var t := Engine(copts, ref, script, n);
      script(n + k).err.None? && t.result.Err? && t.result.error != IndexPanic ==>
        t.calls[|t.calls| - 1] == ContainerRemove(script(n + k).id, true, false)
    ensures var t := Engine(copts, ref, script, n);
      t.result.Ok? ==> t.result.value.id == script(n + k).id
    ensures var t := Engine(copts, ref, script, n);
      forall i :: 0 <= i < |t.calls| - 1 ==> !t.calls[i].ContainerRemove?
    ensures var t := Engine(copts, ref, script, n);
      t.result.Ok? || t.result == Err(IndexPanic) || script(n + k).err.Some? ==>
        forall c <- t.calls :: !c.ContainerRemove?
  {
    var has := script(n);
    ImageFailureCalls(copts, ref, script, n);
    if !(has.err.Some? && (!has.notFound || script(n + 1).err.Some?)) {
      var pre := if has.err.Some? then [ImageInspect(ref), ImagePull(ref)] else [ImageInspect(ref)];
      var s := Started(Defaulted(copts), script, n + |pre|);
      StartedCleanup(Defaulted(copts), script, n + |pre|);
      assert Engine(copts, ref, script, n) == Trace(pre + s.calls, s.result);
      assert forall i :: 0 <= i < |pre| ==> (pre + s.calls)[i] == pre[i];
      assert k >= |pre|;
      assert (pre + s.calls)[k] == s.calls[k - |pre|];
      assert k == |pre|;
      assert (pre + s.calls)[|pre + s.calls| - 1] == s.calls[|s.calls| - 1];
    }
  }

  /** A Run that fails after the container was created removes exactly that
      container, forcibly and as its very last call; a failed creation, a
      success and the panic on an empty name remove nothing. Call number k
      gets the reply script(n + k). */
  lemma CleanupOnFailure(sessionLabels: Option<map<string, string>>, ref: string, opts: seq<RunOptions.Opt>,
                         script: nat -> Reply, n: nat, k: nat)
    requires var t := RunTrace(sessionLabels, ref, opts, script, n);
      k < |t.calls| && t.calls[k].ContainerCreate?
    ensures var t := RunTrace(sessionLabels, ref, opts, script, n);
      (script(n + k).err.Some? ==>
         k == |t.calls| - 1 && t.result == Err(Wrapped(RunCreate, script(n + k).err.value))) &&
      (script(n + k).err.None? && t.result.Err? && t.result.error != IndexPanic ==>
         t.calls[|t.calls| - 1] == ContainerRemove(script(n + k).id, true, false)) &&
      (t.result.Ok? ==> t.result.value.id == script(n + k).id) &&
      (forall i :: 0 <= i < |t.calls| - 1 ==> !t.calls[i].ContainerRemove?) &&
      (t.result.Ok? || t.result == Err(IndexPanic) || script(n + k).err.Some? ==>
         forall c <- t.calls :: !c.ContainerRemove?)
  {
    EngineCleanup(Opts.Applied(Initial(sessionLabels, ref), opts).value, ref, script, n, k);
  }

  /** The container starts out with the session's labels; ClearLabels
      followed by WithLabels replaces them by exactly the new labels. */
  lemma SessionLabelsInherited(sessionLabels: Option<map<string, string>>, ref: string, labels: seq<string>)
    ensures Opts.Applied(Initial(sessionLabels, ref), []) == Ok(Initial(sessionLabels, ref))
    ensures Initial(sessionLabels, ref).conf.labels == Some(sessionLabels.GetOr(map[]))
    ensures Labels.FromList(labels).Ok? ==>
              Opts.Applied(Initial(sessionLabels, ref), [RunOptions.ClearLabels(), RunOptions.WithLabels(labels)]).Ok? &&
              Opts.Applied(Initial(sessionLabels, ref), [RunOptions.ClearLabels(), RunOptions.WithLabels(labels)]).value.conf.labels
                == Some(Labels.FromList(labels).value)
  {
    RunOptions.ClearThenLabels(Initial(sessionLabels, ref), labels);
  }
}
