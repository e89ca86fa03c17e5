/** ipam/pool.go and ipam/driver.go: options building the IP address
    management configuration of a network, that is the IPAM driver name, its
    options, and the address pools with their ranges, gateways and
    auxiliary addresses. */
module Ipam {
  import opened Results
  import opened Text
  import Opts

  /** network.IPAMConfig, which the package calls a pool; a nil
      AuxAddress map is `None`. */
  datatype Pool = Pool(subnet: string, ipRange: string, gateway: string,
                       auxAddress: Option<map<string, string>>)

  /** The zero value of a pool. */
  const ZeroPool := Pool("", "", "", None)

  /** PoolOpt: a closure updating a pool. */
  type PoolOpt = Pool -> (Pool, Option<Error>)

  function WithRange(iprange: string): PoolOpt
  {
    (p: Pool) => (p.(ipRange := iprange), None)
  }

  function WithGateway(gw: string): PoolOpt
  {
    (p: Pool) => (p.(gateway := gw), None)
  }

  /** Creates the auxiliary address map when it is nil and maps the host
      name to the address. */
  function WithAuxAddress(hostname: string, ip: string): PoolOpt
  {
    (p: Pool) => (p.(auxAddress := Some(p.auxAddress.GetOr(map[])[hostname := ip])), None)
  }

  /** The pool makePool builds: the subnet set first, then the options
      applied in order. */
  function PoolFrom(subnet: string, opts: seq<PoolOpt>): Result<Pool>
  {
    Opts.Applied(ZeroPool.(subnet := subnet), opts)
  }

  /** makePool: the pool, or the zero pool and the first option error. */
  method MakePool(subnet: string, opts: seq<PoolOpt>) returns (p: Pool, err: Option<Error>)
    ensures err.None? <==> PoolFrom(subnet, opts).Ok?
    ensures err.None? ==> p == PoolFrom(subnet, opts).value
    ensures err.Some? ==> p == ZeroPool && err.value == PoolFrom(subnet, opts).error
  {
    p := Pool(subnet, "", "", None);
    p, err := Opts.ApplyEach(p, opts);
    if err.Some? {
      return ZeroPool, err;
    }
  }

  /** WithRange and WithGateway set their own field and nothing else; the
      pool options never fail. */
  lemma PoolSetters(p: Pool, iprange: string, gw: string)
    ensures WithRange(iprange)(p) == (p.(ipRange := iprange), None)
    ensures WithGateway(gw)(p) == (p.(gateway := gw), None)
  {
  }

  /** WithAuxAddress creates the map when needed, keeps the other host
      names, and a later address for the same host name replaces the
      earlier one. */
  lemma {:induction false} AuxAddressLastWins(p: Pool, hostname: string, ip1: string, ip2: string)
    ensures PoolFrom(p.subnet, [WithAuxAddress(hostname, ip1)]) ==
              Ok(p.(ipRange := "", gateway := "", auxAddress := Some(map[hostname := ip1])))
    ensures Opts.Applied(p, [WithAuxAddress(hostname, ip1), WithAuxAddress(hostname, ip2)]) ==
              Opts.Applied(p, [WithAuxAddress(hostname, ip2)])
    ensures forall h :: h in p.auxAddress.GetOr(map[]) && h != hostname ==>
              h in WithAuxAddress(hostname, ip1)(p).0.auxAddress.value &&
              WithAuxAddress(hostname, ip1)(p).0.auxAddress.value[h] == p.auxAddress.value[h]
  {
    Opts.AppliedSnoc(ZeroPool.(subnet := p.subnet), [], WithAuxAddress(hostname, ip1));
    Opts.AppliedSnoc(p, [], WithAuxAddress(hostname, ip1));
    Opts.AppliedSnoc(p, [], WithAuxAddress(hostname, ip2));
    Opts.AppliedSnoc(p, [WithAuxAddress(hostname, ip1)], WithAuxAddress(hostname, ip2));
    var m := p.auxAddress.GetOr(map[]);
    assert m[hostname := ip1][hostname := ip2] == m[hostname := ip2];
  }

  /** network.IPAM: the driver name, the driver options (nil is `None`) and
      the pools. */
  datatype IPAM = IPAM(driver: string, options: Option<map<string, string>>, config: seq<Pool>)

  /** IPAMOpt: a closure updating an IPAM configuration. */
  type IPAMOpt = IPAM -> (IPAM, Option<Error>)

  function WithName(name: string): IPAMOpt
  {
    (d: IPAM) => (d.(driver := name), None)
  }

  /** Appends the pool built from the subnet and the pool options; a pool
      option error is returned and the pools stay as they were. */
  function WithPool(subnet: string, opts: seq<PoolOpt>): IPAMOpt
  {
    (d: IPAM) => match PoolFrom(subnet, opts)
         case Err(e) => (d, Some(e))
         case Ok(pool) => (d.(config := d.config + [pool]), None)
  }

  /** Stores a "KEY=VALUE" or "KEY=" driver option, creating the option map
      when it is nil; no "=" or an empty key is an error. */
  function WithOption(option: string): IPAMOpt
  {
    (d: IPAM) => var c := Cut(option, '=');
         if !c.found || c.before == "" then (d, Some(InvalidIpamOption(option)))
         else (d.(options := Some(d.options.GetOr(map[])[c.before := c.after])), None)
  }

  /** WithPool either appends exactly the pool makePool builds, or fails
      with its error and leaves the configuration alone. */
  lemma WithPoolAppends(d: IPAM, subnet: string, opts: seq<PoolOpt>)
    ensures PoolFrom(subnet, opts).Ok? ==>
              WithPool(subnet, opts)(d) == (d.(config := d.config + [PoolFrom(subnet, opts).value]), None)
    ensures PoolFrom(subnet, opts).Err? ==>
              WithPool(subnet, opts)(d) == (d, Some(PoolFrom(subnet, opts).error))
  {
  }

  /** Two WithPool options leave their pools in the order given, after the
      pools that were there. */
  lemma {:induction false} PoolsKeepOrder(d: IPAM, s1: string, o1: seq<PoolOpt>, s2: string, o2: seq<PoolOpt>)
    requires PoolFrom(s1, o1).Ok? && PoolFrom(s2, o2).Ok?
    ensures Opts.Applied(d, [WithPool(s1, o1), WithPool(s2, o2)]) ==
              Ok(d.(config := d.config + [PoolFrom(s1, o1).value, PoolFrom(s2, o2).value]))
  {
    Opts.AppliedSnoc(d, [], WithPool(s1, o1));
    Opts.AppliedSnoc(d, [WithPool(s1, o1)], WithPool(s2, o2));
    assert d.config + [PoolFrom(s1, o1).value] + [PoolFrom(s2, o2).value] ==
           d.config + [PoolFrom(s1, o1).value, PoolFrom(s2, o2).value];
  }

  /** WithOption accepts exactly a text with an "=" after a non-empty key;
      the key is the text before the first "=" and the value all after it.
      Other options already stored are kept. */
  lemma WithOptionRule(d: IPAM, option: string)
    ensures WithOption(option)(d).1.Some? <==> '=' !in option || option[0] == '='
    ensures WithOption(option)(d).1.Some? ==>
              WithOption(option)(d) == (d, Some(InvalidIpamOption(option)))
    ensures WithOption(option)(d).1.None? ==>
              exists key, value :: option == key + "=" + value && key != "" && '=' !in key &&
                WithOption(option)(d).0 == d.(options := Some(d.options.GetOr(map[])[key := value]))
  {
    var c := Cut(option, '=');
    if c.found && c.before != "" {
      assert option == c.before + "=" + c.after;
    }
  }
}
