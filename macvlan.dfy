/** net/macvlan/options.go: driver options of the "macvlan" network
    driver. */
module Macvlan {
  import opened Results
  import opened NetInt
  import NetOptions

  /** MACVLANMode is a string type; these are its named values. */
  type Mode = string
  const BridgeMode: Mode := "bridge"
  const VEPAMode: Mode := "vepa"
  const PassthruMode: Mode := "passthru"
  const PrivateMode: Mode := "private"

  /** The parent network interface. */
  function WithParent(ifname: string): NetOptions.Opt
  {
    (o: NetOptions.Options) => (SetOption(o, "parent", ifname), None)
  }

  function WithMode(mode: Mode): NetOptions.Opt
  {
    (o: NetOptions.Options) => (SetOption(o, "macvlan_mode", mode), None)
  }

  /** Each setter stores its one key, creating the option map when needed
      and keeping the other keys; applying a setter twice leaves the second
      value. */
  lemma MacvlanKeys(o: NetOptions.Options, ifname: string, mode: Mode, mode2: Mode)
    ensures WithParent(ifname)(o).1.None? && WithMode(mode)(o).1.None?
    ensures WithParent(ifname)(o).0.options == Some(o.options.GetOr(map[])["parent" := ifname])
    ensures WithMode(mode)(o).0.options == Some(o.options.GetOr(map[])["macvlan_mode" := mode])
    ensures WithMode(mode2)(WithMode(mode)(o).0) == WithMode(mode2)(o)
  {
    SetOptionOneKey(o, "macvlan_mode", mode, mode2);
  }
}
