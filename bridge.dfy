/** net/bridge/options.go: driver options of the "bridge" network driver,
    each stored under its Docker option key. */
module Bridge {
  import opened Results
  import opened Text
  import opened NetInt
  import NetOptions

  const NetworkOptionStem := "com.docker.network."
  const BridgeOptionStem := NetworkOptionStem + "bridge."
  const DriverOptionStem := NetworkOptionStem + "driver."

  /** The name of the Linux bridge to create. */
  function WithBridgeName(ifname: string): NetOptions.Opt
  {
    (o: NetOptions.Options) => (SetOption(o, BridgeOptionStem + "name", ifname), None)
  }

  function WithoutIPMasquerade(): NetOptions.Opt
  {
    (o: NetOptions.Options) => (SetOption(o, BridgeOptionStem + "enable_ip_masquerade", "false"), None)
  }

  function WithoutICC(): NetOptions.Opt
  {
    (o: NetOptions.Options) => (SetOption(o, BridgeOptionStem + "enable_icc", "false"), None)
  }

  /** The MTU as decimal text (strconv.FormatUint of a Go uint). */
  function WithMTU(mtu: nat): NetOptions.Opt
  {
    (o: NetOptions.Options) => (SetOption(o, DriverOptionStem + "mtu", Decimal(mtu)), None)
  }

  function WithInterfacePrefix(prefix: string): NetOptions.Opt
  {
    (o: NetOptions.Options) => (SetOption(o, NetworkOptionStem + "container_iface_prefix", prefix), None)
  }

  /** The bridge option keys written out, each setter storing exactly its
      key and never failing. */
  lemma BridgeKeys(o: NetOptions.Options, ifname: string)
    ensures WithBridgeName(ifname)(o) == (SetOption(o, "com.docker.network.bridge.name", ifname), None)
    ensures WithoutIPMasquerade()(o) ==
              (SetOption(o, "com.docker.network.bridge.enable_ip_masquerade", "false"), None)
    ensures WithoutICC()(o) == (SetOption(o, "com.docker.network.bridge.enable_icc", "false"), None)
  {
    assert BridgeOptionStem + "name" == "com.docker.network.bridge.name";
    assert BridgeOptionStem + "enable_ip_masquerade" == "com.docker.network.bridge.enable_ip_masquerade";
    assert BridgeOptionStem + "enable_icc" == "com.docker.network.bridge.enable_icc";
  }

  /** The generic driver and network option keys written out, each setter
      storing exactly its key and never failing. */
  lemma DriverKeys(o: NetOptions.Options, mtu: nat, prefix: string)
    ensures WithMTU(mtu)(o) == (SetOption(o, "com.docker.network.driver.mtu", Decimal(mtu)), None)
    ensures WithInterfacePrefix(prefix)(o) ==
              (SetOption(o, "com.docker.network.container_iface_prefix", prefix), None)
  {
    assert DriverOptionStem + "mtu" == "com.docker.network.driver.mtu";
    assert NetworkOptionStem + "container_iface_prefix" == "com.docker.network.container_iface_prefix";
  }

  /** The MTU option reads back as the MTU given. */
  lemma MTURoundTrip(o: NetOptions.Options, mtu: nat)
    ensures var opts := WithMTU(mtu)(o).0.options;
      opts.Some? && DriverOptionStem + "mtu" in opts.value &&
      ParseUint(opts.value[DriverOptionStem + "mtu"], mtu) == Ok(mtu)
  {
    ParseDecimal(mtu, mtu);
  }
}
