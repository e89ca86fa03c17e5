/** session/options.go: options for creating a session: the session labels,
    the auto-cleaning label and extra options for the engine client. */
module SessionOptions {
  import opened Results
  import opened Text
  import Opts
  import Labels

  /** An option for creating the engine client, told apart by an
      identity. */
  datatype ClientOpt = FromEnv | WithAPIVersionNegotiation | ClientOpt(id: nat)

  /** session.Options; a nil label map is `None`. */
  datatype Options = Options(labels: Option<map<string, string>>, dockerClientOpts: seq<ClientOpt>,
                             autoCleaningLabel: string)

  const Zero := Options(None, [], "")

  /** Opt: a closure updating the session options. */
  type Opt = Options -> (Options, Option<Error>)

  /** ensureLabelsMap: an empty label map when there is none. */
  function EnsureLabelsMap(o: Options): (r: Options)
    ensures r.labels.Some?
    ensures o.labels.None? ==> r.labels.value == map[]
    ensures o.labels.Some? ==> r == o
    ensures r == o.(labels := r.labels)
  {
    if o.labels.Some? then o else o.(labels := Some(map[]))
  }

  /** Checks the label's form before changing anything, then stores it as
      the auto-cleaning label and adds it to the session labels. */
  function WithAutoCleaning(lbl: string): Opt
  {
    (o: Options) =>
      var c := Cut(lbl, '=');
      if !c.found || c.before == "" then (o, Some(InvalidAutoCleaningLabel(lbl)))
      else
        var o1 := EnsureLabelsMap(o.(autoCleaningLabel := lbl));
        match Labels.Added(o1.labels.value, lbl)
        case Err(e) => (o1, Some(e))
        case Ok(m) => (o1.(labels := Some(m)), None)
  }

  function WithLabel(lbl: string): Opt
  {
    (o: Options) =>
      var o1 := EnsureLabelsMap(o);
      match Labels.Added(o1.labels.value, lbl)
      case Err(e) => (o1, Some(e))
      case Ok(m) => (o1.(labels := Some(m)), None)
  }

  /** Adds the labels in order up to the first invalid one. */
  function WithLabels(labels: seq<string>): Opt
  {
    (o: Options) =>
      var o1 := EnsureLabelsMap(o);
      var (m, e) := Labels.AddedEach(o1.labels.value, labels);
      (o1.(labels := Some(m)), e)
  }

  /** Appends client options, keeping their order. */
  function WithDockerOpts(opts: seq<ClientOpt>): Opt
  {
    (o: Options) => (o.(dockerClientOpts := o.dockerClientOpts + opts), None)
  }

  /** WithAutoCleaning accepts exactly the labels Labels.Add accepts; a
      rejected label changes nothing, an accepted one is stored verbatim and
      added to the session labels. */
  lemma AutoCleaningRule(o: Options, lbl: string)
    ensures WithAutoCleaning(lbl)(o).1.None? <==> Labels.Valid(lbl)
    ensures !Labels.Valid(lbl) ==> WithAutoCleaning(lbl)(o) == (o, Some(InvalidAutoCleaningLabel(lbl)))
    ensures Labels.Valid(lbl) ==>
              WithAutoCleaning(lbl)(o).0 ==
                o.(autoCleaningLabel := lbl,
                   labels := Some(o.labels.GetOr(map[])[Labels.Key(lbl) := Labels.Value(lbl)]))
  {
  }

  /** WithLabel creates the label map when it is nil and adds to an
      existing map rather than replacing it. */
  lemma LabelKept(o: Options, lbl: string)
    ensures WithLabel(lbl)(o).0.labels.Some?
    ensures Labels.Valid(lbl) ==>
              WithLabel(lbl)(o).0.labels.value == o.labels.GetOr(map[])[Labels.Key(lbl) := Labels.Value(lbl)]
  {
  }

  /** WithLabels creates the label map when it is nil, adds to an existing
      map, and keeps the labels before the first invalid one. */
  lemma LabelsKept(o: Options, labels: seq<string>)
    ensures WithLabels(labels)(o).0.labels.Some?
    ensures Labels.AddedAll(o.labels.GetOr(map[]), labels[..Labels.FirstInvalid(labels)]) ==
              Ok(WithLabels(labels)(o).0.labels.value)
    ensures WithLabels(labels)(o).1.None? <==> Labels.FirstInvalid(labels) == |labels|
  {
    Labels.AddedAllError(o.labels.GetOr(map[]), labels);
  }

  /** Client options accumulate in the order given. */
  lemma {:induction false} DockerOptsInOrder(o: Options, a: seq<ClientOpt>, b: seq<ClientOpt>)
    ensures Opts.Applied(o, [WithDockerOpts(a), WithDockerOpts(b)]) ==
              Ok(o.(dockerClientOpts := o.dockerClientOpts + a + b))
  {
    Opts.AppliedSnoc(o, [], WithDockerOpts(a));
    Opts.AppliedSnoc(o, [WithDockerOpts(a)], WithDockerOpts(b));
  }
}
