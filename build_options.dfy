/** build/options.go: options for building an image: the output writer and
    the image build options of the engine. */
module BuildOptions {
  import opened Results
  import Opts
  import Labels
  import BuildArgs

  /** types.ImageBuildOptions, the fields the options set; nil maps are
      `None`. */
  datatype ImageBuildOptions = ImageBuildOptions(
    tags: seq<string>,
    noCache: bool,
    remove: bool,
    forceRemove: bool,
    pullParent: bool,
    dockerfile: string,
    buildArgs: Option<BuildArgs.Args>,
    labels: Option<map<string, string>>,
    squash: bool)

  /** build.Options: the writer for the build output and the embedded
      image build options. */
  datatype Options = Options(out: Option<Output>, build: ImageBuildOptions)

  const ZeroBuild := ImageBuildOptions([], false, false, false, false, "", None, None, false)

  /** Opt: a closure updating the build options. */
  type Opt = Options -> (Options, Option<Error>)

  function WithTag(nametag: string): Opt
  {
    (o: Options) => (o.(build := o.build.(tags := o.build.tags + [nametag])), None)
  }

  /** Creates the build argument map when nil and adds one argument. */
  function WithBuildArg(barg: string): Opt
  {
    (o: Options) =>
      var b := o.build.buildArgs.GetOr(map[]);
      var o1 := o.(build := o.build.(buildArgs := Some(b)));
      match BuildArgs.Added(b, barg)
      case Err(e) => (o1, Some(e))
      case Ok(b') => (o.(build := o.build.(buildArgs := Some(b'))), None)
  }

  /** Creates the build argument map when nil and adds the arguments in
      order up to the first invalid one. */
  function WithBuildArgs(bargs: seq<string>): Opt
  {
    (o: Options) =>
      var (b', e) := BuildArgs.AddedEach(o.build.buildArgs.GetOr(map[]), bargs);
      (o.(build := o.build.(buildArgs := Some(b'))), e)
  }

  function WithDockerfile(name: string): Opt
  {
    (o: Options) => (o.(build := o.build.(dockerfile := name)), None)
  }

  function WithLabel(lbl: string): Opt
  {
    (o: Options) =>
      var m := o.build.labels.GetOr(map[]);
      match Labels.Added(m, lbl)
      case Err(e) => (o.(build := o.build.(labels := Some(m))), Some(e))
      case Ok(m') => (o.(build := o.build.(labels := Some(m'))), None)
  }

  /** Ensures the label map and adds the labels in order up to the first
      invalid one. */
  function WithLabels(labels: seq<string>): Opt
  {
    (o: Options) =>
      var (m', e) := Labels.AddedEach(o.build.labels.GetOr(map[]), labels);
      (o.(build := o.build.(labels := Some(m'))), e)
  }

  function WithoutCache(): Opt
  {
    (o: Options) => (o.(build := o.build.(noCache := true)), None)
  }

  function WithPullAlways(): Opt
  {
    (o: Options) => (o.(build := o.build.(pullParent := true)), None)
  }

  function WithSquash(): Opt
  {
    (o: Options) => (o.(build := o.build.(squash := true)), None)
  }

  function WithRemoveIntermediateContainers(): Opt
  {
    (o: Options) => (o.(build := o.build.(remove := true)), None)
  }

  function WithAlwaysRemoveIntermediateContainers(): Opt
  {
    (o: Options) => (o.(build := o.build.(forceRemove := true)), None)
  }

  function WithOutput(w: Output): Opt
  {
    (o: Options) => (o.(out := Some(w)), None)
  }

  /** Replaces all image build options at once. */
  function WithOpts(opts: ImageBuildOptions): Opt
  {
    (o: Options) => (o.(build := opts), None)
  }

  /** Tags accumulate in the order given, so an image can get several. */
  lemma {:induction false} TagsAppend(o: Options, opts: seq<Opt>, t1: string, t2: string)
    ensures Opts.Applied(o, opts + [WithTag(t1), WithTag(t2)]) ==
              match Opts.Applied(o, opts)
              case Err(e) => Err(e)
              case Ok(p) => Ok(p.(build := p.build.(tags := p.build.tags + [t1, t2])))
  {
    Opts.AppliedSnoc(o, opts, WithTag(t1));
    Opts.AppliedSnoc(o, opts + [WithTag(t1)], WithTag(t2));
    assert opts + [WithTag(t1)] + [WithTag(t2)] == opts + [WithTag(t1), WithTag(t2)];
    if Opts.Applied(o, opts).Ok? {
      var p := Opts.Applied(o, opts).value;
      assert p.build.tags + [t1] + [t2] == p.build.tags + [t1, t2];
    }
  }

  /** WithBuildArgs always leaves a build argument map, holding the old
      arguments with those before the first invalid one added by the rules
      of BuildArgs.Add; the error is that of the first invalid argument. */
  lemma WithBuildArgsPartial(o: Options, bargs: seq<string>)
    ensures WithBuildArgs(bargs)(o).0.build.buildArgs.Some?
    ensures BuildArgs.AddedAll(o.build.buildArgs.GetOr(map[]), bargs[..BuildArgs.FirstInvalid(bargs)]) ==
              Ok(WithBuildArgs(bargs)(o).0.build.buildArgs.value)
    ensures WithBuildArgs(bargs)(o).1.None? <==> BuildArgs.FirstInvalid(bargs) == |bargs|
    ensures WithBuildArgs(bargs)(o).1.Some? ==>
              WithBuildArgs(bargs)(o).1.value == InvalidBuildArg(bargs[BuildArgs.FirstInvalid(bargs)])
    ensures WithBuildArgs(bargs)(o).0.out == o.out
  {
    BuildArgs.AddedAllError(o.build.buildArgs.GetOr(map[]), bargs);
  }

  /** WithBuildArg is Add on the (possibly fresh) map. */
  lemma WithBuildArgRule(o: Options, barg: string)
    ensures WithBuildArg(barg)(o).1.None? <==> BuildArgs.Valid(barg)
    ensures BuildArgs.Valid(barg) ==>
              WithBuildArg(barg)(o).0.build.buildArgs ==
                Some(o.build.buildArgs.GetOr(map[])[BuildArgs.Key(barg) := BuildArgs.Value(barg)])
  {
  }

  /** WithLabels ensures the label map and stops at the first invalid
      label, keeping the labels added before it. */
  lemma WithLabelsPartial(o: Options, labels: seq<string>)
    ensures WithLabels(labels)(o).0.build.labels.Some?
    ensures Labels.AddedAll(o.build.labels.GetOr(map[]), labels[..Labels.FirstInvalid(labels)]) ==
              Ok(WithLabels(labels)(o).0.build.labels.value)
    ensures WithLabels(labels)(o).1.None? <==> Labels.FirstInvalid(labels) == |labels|
  {
    Labels.AddedAllError(o.build.labels.GetOr(map[]), labels);
  }

  /** WithOpts replaces every image build option, tags, arguments and labels
      included, and keeps the output writer. */
  lemma {:induction false} WithOptsKeepsOutput(o: Options, opts: seq<Opt>, ibo: ImageBuildOptions)
    ensures Opts.Applied(o, opts).Ok? ==>
              Opts.Applied(o, opts + [WithOpts(ibo)]) ==
                Ok(Options(Opts.Applied(o, opts).value.out, ibo))
  {
    Opts.AppliedSnoc(o, opts, WithOpts(ibo));
  }

  /** Each boolean setter sets its own flag and nothing else. */
  lemma FlagSetters(o: Options)
    ensures WithoutCache()(o) == (o.(build := o.build.(noCache := true)), None)
    ensures WithPullAlways()(o) == (o.(build := o.build.(pullParent := true)), None)
    ensures WithSquash()(o) == (o.(build := o.build.(squash := true)), None)
    ensures WithRemoveIntermediateContainers()(o) == (o.(build := o.build.(remove := true)), None)
    ensures WithAlwaysRemoveIntermediateContainers()(o) == (o.(build := o.build.(forceRemove := true)), None)
  {
  }
}
