/** pull/options.go: options for pulling an image. */
module PullOptions {
  import opened Results
  import Opts

  /** pull.Options: the writer for the pull progress and the fields of
      image.PullOptions the options set. */
  datatype Options = Options(out: Option<Output>, all: bool, registryAuth: string, platform: string)

  const Zero := Options(None, false, "", "")

  /** Opt: a closure updating the pull options. */
  type Opt = Options -> (Options, Option<Error>)

  function WithOutput(w: Output): Opt
  {
    (o: Options) => (o.(out := Some(w)), None)
  }

  function WithAllTags(): Opt
  {
    (o: Options) => (o.(all := true), None)
  }

  /** Checks the platform with `parse`, which stands for platforms.Parse
      and gives its error, if any; a valid platform is stored as given. */
  function WithPlatform(platform: string, parse: string -> Option<Error>): Opt
  {
    (o: Options) =>
      match parse(platform)
      case Some(e) => (o, Some(e))
      case None => (o.(platform := platform), None)
  }

  function WithRegistryAuth(base64cred: string): Opt
  {
    (o: Options) => (o.(registryAuth := base64cred), None)
  }

  /** The setters set exactly their field. */
  lemma SettersSetTheirField(o: Options, w: Output, cred: string)
    ensures WithOutput(w)(o) == (o.(out := Some(w)), None)
    ensures WithAllTags()(o) == (o.(all := true), None)
    ensures WithRegistryAuth(cred)(o) == (o.(registryAuth := cred), None)
  {
  }

  /** An unparsable platform is the parser's error and changes nothing; a
      parsable one is stored verbatim. */
  lemma PlatformRule(o: Options, platform: string, parse: string -> Option<Error>)
    ensures parse(platform).Some? ==> WithPlatform(platform, parse)(o) == (o, parse(platform))
    ensures parse(platform).None? ==> WithPlatform(platform, parse)(o) == (o.(platform := platform), None)
  {
  }

  /** Options run in sequence and a later write to a field wins. */
  lemma {:induction false} LaterWriteWins(o: Options, w1: Output, w2: Output, c1: string, c2: string)
    ensures Opts.Applied(o, [WithOutput(w1), WithRegistryAuth(c1), WithOutput(w2), WithRegistryAuth(c2)]) ==
              Ok(o.(out := Some(w2), registryAuth := c2))
  {
    var opts := [WithOutput(w1), WithRegistryAuth(c1), WithOutput(w2), WithRegistryAuth(c2)];
    Opts.AppliedSnoc(o, [], opts[0]);
    assert opts[..1] == [] + [opts[0]];
    Opts.AppliedSnoc(o, opts[..1], opts[1]);
    assert opts[..2] == opts[..1] + [opts[1]];
    Opts.AppliedSnoc(o, opts[..2], opts[2]);
    assert opts[..3] == opts[..2] + [opts[2]];
    Opts.AppliedSnoc(o, opts[..3], opts[3]);
    assert opts == opts[..3] + [opts[3]];
  }
}
