/** net/options.go: options for creating networks, setting the driver, the
    IPAM configuration, the internal and IPv6 flags, labels and driver
    options. */
module NetOptions {
  import opened Results
  import opened Text
  import Opts
  import Labels
  import Ipam
  import IpamInt
  import opened NetInt

  /** net.Options is types.NetworkCreate. */
  type Options = NetworkCreate

  /** Opt: a closure updating the network creation options. */
  type Opt = Options -> (Options, Option<Error>)

  function WithDriver(name: string): Opt
  {
    (o: Options) => (o.(driver := name), None)
  }

  /** Replaces the IPAM configuration by the one built from the IPAM
      options, or returns their error and leaves it alone. */
  function WithIPAM(opts: seq<Ipam.IPAMOpt>): Opt
  {
    (o: Options) => match IpamInt.IPAMFrom(opts)
                    case Err(e) => (o, Some(e))
                    case Ok(d) => (o.(ipam := Some(d)), None)
  }

  function WithInternal(): Opt
  {
    (o: Options) => (o.(internal := true), None)
  }

  function WithIPv6(): Opt
  {
    (o: Options) => (o.(enableIPv6 := true), None)
  }

  /** Ensures the label map, then adds one label. */
  function WithLabel(lbl: string): Opt
  {
    (o: Options) =>
      var o1 := EnsureLabelsMap(o);
      match Labels.Added(o1.labels.value, lbl)
      case Err(e) => (o1, Some(e))
      case Ok(m) => (o1.(labels := Some(m)), None)
  }

  /** Ensures the label map, then adds the labels in order up to the first
      invalid one. */
  function WithLabels(labels: seq<string>): Opt
  {
    (o: Options) =>
      var o1 := EnsureLabelsMap(o);
      var (m, e) := Labels.AddedEach(o1.labels.value, labels);
      (o1.(labels := Some(m)), e)
  }

  /** Ensures the driver option map, then adds a "KEY=VALUE" option by the
      label rules. */
  function WithOption(opt: string): Opt
  {
    (o: Options) =>
      var o1 := EnsureOptionsMap(o);
      match Labels.Added(o1.options.value, opt)
      case Err(e) => (o1, Some(e))
      case Ok(m) => (o1.(options := Some(m)), None)
  }

  /** WithDriver, WithInternal and WithIPv6 set their own field and nothing
      else. */
  lemma SettersSetTheirField(o: Options, name: string)
    ensures WithDriver(name)(o) == (o.(driver := name), None)
    ensures WithInternal()(o) == (o.(internal := true), None)
    ensures WithIPv6()(o) == (o.(enableIPv6 := true), None)
  {
  }

  /** WithIPAM replaces the IPAM configuration by the freshly built one,
      whatever was there before, and on an IPAM option error changes
      nothing. */
  lemma WithIPAMReplaces(o: Options, opts: seq<Ipam.IPAMOpt>)
    ensures IpamInt.IPAMFrom(opts).Err? ==>
              WithIPAM(opts)(o) == (o, Some(IpamInt.IPAMFrom(opts).error))
    ensures IpamInt.IPAMFrom(opts).Ok? ==>
              WithIPAM(opts)(o).1.None? &&
              WithIPAM(opts)(o).0.ipam == Some(IpamInt.IPAMFrom(opts).value) &&
              WithIPAM(opts)(o).0 == o.(ipam := WithIPAM(opts)(o).0.ipam)
  {
  }

  /** WithLabels always leaves a label map; it holds the old labels with the
      labels before the first invalid one added, and the error is that of
      the first invalid label. */
  lemma WithLabelsPartial(o: Options, labels: seq<string>)
    ensures WithLabels(labels)(o).0.labels.Some?
    ensures WithLabels(labels)(o).0 == o.(labels := WithLabels(labels)(o).0.labels)
    ensures Labels.AddedAll(o.labels.GetOr(map[]), labels[..Labels.FirstInvalid(labels)]) ==
              Ok(WithLabels(labels)(o).0.labels.value)
    ensures WithLabels(labels)(o).1.None? <==> Labels.FirstInvalid(labels) == |labels|
    ensures WithLabels(labels)(o).1.Some? ==>
              WithLabels(labels)(o).1.value == InvalidLabel(labels[Labels.FirstInvalid(labels)])
  {
    Labels.AddedAllError(o.labels.GetOr(map[]), labels);
  }

  /** WithLabel never replaces an existing label map: every other label
      stays, and the label's own key gets its value. */
  lemma WithLabelKeeps(o: Options, lbl: string)
    requires Labels.Valid(lbl)
    ensures WithLabel(lbl)(o).1.None?
    ensures WithLabel(lbl)(o).0.labels.value ==
              o.labels.GetOr(map[])[Labels.Key(lbl) := Labels.Value(lbl)]
  {
  }

  /** WithOption follows the label rules, into the driver option map. */
  lemma WithOptionRule(o: Options, opt: string)
    ensures WithOption(opt)(o).1.None? <==> Labels.Valid(opt)
    ensures Labels.Valid(opt) ==>
              WithOption(opt)(o).0 ==
                o.(options := Some(o.options.GetOr(map[])[Labels.Key(opt) := Labels.Value(opt)]))
    ensures !Labels.Valid(opt) ==> WithOption(opt)(o).1 == Some(InvalidLabel(opt))
  {
  }
}
