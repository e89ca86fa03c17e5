/** net/ipvlan/options.go: driver options of the "ipvlan" network
    driver. */
module Ipvlan {
  import opened Results
  import opened NetInt
  import NetOptions

  /** IPVLANMode and IPVLANFlag are string types; these are their named
      values. */
  type Mode = string
  const L2Mode: Mode := "l2"
  const L3Mode: Mode := "l3"
  const L3sMode: Mode := "l3s"

  type Flag = string
  const BridgeFlag: Flag := "bridge"
  const VEPAFlag: Flag := "vepa"
  const PrivateFlag: Flag := "private"

  function WithParent(ifname: string): NetOptions.Opt
  {
    (o: NetOptions.Options) => (SetOption(o, "parent", ifname), None)
  }

  function WithMode(mode: Mode): NetOptions.Opt
  {
    (o: NetOptions.Options) => (SetOption(o, "ipvlan_mode", mode), None)
  }

  function WithFlag(flag: Flag): NetOptions.Opt
  {
    (o: NetOptions.Options) => (SetOption(o, "ipvlan_flag", flag), None)
  }

  /** Each setter stores its one key, creating the option map when needed
      and keeping the other keys; the three keys are distinct, so the
      setters do not disturb each other. */
  lemma IpvlanKeys(o: NetOptions.Options, ifname: string, mode: Mode, flag: Flag)
    ensures WithParent(ifname)(o).0.options == Some(o.options.GetOr(map[])["parent" := ifname])
    ensures WithMode(mode)(o).0.options == Some(o.options.GetOr(map[])["ipvlan_mode" := mode])
    ensures WithFlag(flag)(o).0.options == Some(o.options.GetOr(map[])["ipvlan_flag" := flag])
    ensures var o3 := WithFlag(flag)(WithMode(mode)(WithParent(ifname)(o).0).0).0;
      o3.options.value["parent"] == ifname && o3.options.value["ipvlan_mode"] == mode &&
      o3.options.value["ipvlan_flag"] == flag
  {
  }
}
