/** internal/ipamint/makeipam.go: building an IPAM configuration from IPAM
    options, for the network options of net/options.go. */
module IpamInt {
  import opened Results
  import Opts
  import opened Ipam

  /** The zero IPAM configuration. */
  const Zero := IPAM("", None, [])

  /** The configuration MakeIPAM builds: the options applied in order to
      the zero configuration. */
  function IPAMFrom(opts: seq<IPAMOpt>): Result<IPAM>
  {
    Opts.Applied(Zero, opts)
  }

  /** MakeIPAM: the configuration, or the zero configuration and the first
      option error. */
  method MakeIPAM(opts: seq<IPAMOpt>) returns (d: IPAM, err: Option<Error>)
    ensures err.None? <==> IPAMFrom(opts).Ok?
    ensures err.None? ==> d == IPAMFrom(opts).value
    ensures err.Some? ==> d == Zero && err.value == IPAMFrom(opts).error
  {
    d, err := Opts.ApplyEach(Zero, opts);
    if err.Some? {
      return Zero, err;
    }
  }

  /** Without options the result is the zero configuration. */
  lemma NoOptions()
    ensures IPAMFrom([]) == Ok(Zero)
  {
  }

  /** Whatever came before, a final WithName decides the driver name and a
      final WithPool adds the last pool: later options override earlier
      ones on the same field. */
  lemma {:induction false} LaterOptionsWin(opts: seq<IPAMOpt>, name: string, subnet: string, popts: seq<PoolOpt>)
    ensures IPAMFrom(opts).Ok? ==>
              IPAMFrom(opts + [WithName(name)]) == Ok(IPAMFrom(opts).value.(driver := name))
    ensures IPAMFrom(opts).Ok? && PoolFrom(subnet, popts).Ok? ==>
              IPAMFrom(opts + [WithPool(subnet, popts)]).Ok? &&
              IPAMFrom(opts + [WithPool(subnet, popts)]).value.config ==
                IPAMFrom(opts).value.config + [PoolFrom(subnet, popts).value]
    ensures IPAMFrom(opts).Err? ==> IPAMFrom(opts + [WithName(name)]) == IPAMFrom(opts)
  {
    Opts.AppliedSnoc(Zero, opts, WithName(name));
    Opts.AppliedSnoc(Zero, opts, WithPool(subnet, popts));
  }
}
