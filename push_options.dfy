/** push/options.go: options for pushing an image. */
module PushOptions {
  import opened Results
  import Opts

  /** An OCI platform as platforms.Parse returns it. */
  datatype Platform = Platform(os: string, architecture: string, variant: string)

  /** push.Options: the writer for the push progress and the fields of
      image.PushOptions the options set; the platform pointer is `None`
      when nil. */
  datatype Options = Options(out: Option<Output>, all: bool, registryAuth: string, platform: Option<Platform>)

  const Zero := Options(None, false, "", None)

  /** Opt: a closure updating the push options. */
  type Opt = Options -> (Options, Option<Error>)

  function WithOutput(w: Output): Opt
  {
    (o: Options) => (o.(out := Some(w)), None)
  }

  function WithAllTags(): Opt
  {
    (o: Options) => (o.(all := true), None)
  }

  /** Parses the platform with `parse`, which stands for platforms.Parse,
      and stores the parsed platform, not the text. */
  function WithPlatform(platform: string, parse: string -> Result<Platform>): Opt
  {
    (o: Options) =>
      match parse(platform)
      case Err(e) => (o, Some(e))
      case Ok(p) => (o.(platform := Some(p)), None)
  }

  function WithRegistryAuth(base64cred: string): Opt
  {
    (o: Options) => (o.(registryAuth := base64cred), None)
  }

  /** The setters set exactly their field. */
  lemma SettersSetTheirField(o: Options, w: Output, cred: string)
    ensures WithOutput(w)(o) == (o.(out := Some(w)), None)
    ensures WithAllTags()(o) == (o.(all := true), None)
    ensures WithRegistryAuth(cred)(o) == (o.(registryAuth := cred), None)
  {
  }

  /** A parser error is returned and changes nothing; otherwise the parsed
      platform is stored. */
  lemma PlatformRule(o: Options, platform: string, parse: string -> Result<Platform>)
    ensures parse(platform).Err? ==> WithPlatform(platform, parse)(o) == (o, Some(parse(platform).error))
    ensures parse(platform).Ok? ==> WithPlatform(platform, parse)(o) == (o.(platform := Some(parse(platform).value)), None)
  {
  }

  /** A later platform replaces an earlier one; a failing one after a good
      one fails the whole list. */
  lemma {:induction false} LaterPlatformWins(o: Options, p1: string, p2: string, parse: string -> Result<Platform>)
    ensures parse(p1).Ok? && parse(p2).Ok? ==>
              Opts.Applied(o, [WithPlatform(p1, parse), WithPlatform(p2, parse)]) ==
                Ok(o.(platform := Some(parse(p2).value)))
    ensures parse(p2).Err? ==>
              Opts.Applied(o, [WithPlatform(p1, parse), WithPlatform(p2, parse)]).Err?
  {
    Opts.AppliedSnoc(o, [], WithPlatform(p1, parse));
    Opts.AppliedSnoc(o, [WithPlatform(p1, parse)], WithPlatform(p2, parse));
  }
}
