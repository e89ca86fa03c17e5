/** internal/netint/ensure.go: the network creation options of the Docker
    API, and the helpers that create their label and driver option maps on
    demand. */
module NetInt {
  import opened Results
  import Ipam

  /** types.NetworkCreate, the fields the library sets; nil maps and a nil
      IPAM pointer are `None`. */
  datatype NetworkCreate = NetworkCreate(
    checkDuplicate: bool,
    driver: string,
    internal: bool,
    enableIPv6: bool,
    ipam: Option<Ipam.IPAM>,
    labels: Option<map<string, string>>,
    options: Option<map<string, string>>)

  /** The zero value of the network creation options. */
  const Zero := NetworkCreate(false, "", false, false, None, None, None)

  /** EnsureLabelsMap: an empty label map when there is none; an existing
      map is kept as it is, and nothing else changes. */
  function EnsureLabelsMap(o: NetworkCreate): (r: NetworkCreate)
    ensures r.labels.Some?
    ensures o.labels.None? ==> r.labels.value == map[]
    ensures o.labels.Some? ==> r == o
    ensures r == o.(labels := r.labels)
  {
    if o.labels.Some? then o else o.(labels := Some(map[]))
  }

  /** EnsureOptionsMap: the same for the driver options. */
  function EnsureOptionsMap(o: NetworkCreate): (r: NetworkCreate)
    ensures r.options.Some?
    ensures o.options.None? ==> r.options.value == map[]
    ensures o.options.Some? ==> r == o
    ensures r == o.(options := r.options)
  {
    if o.options.Some? then o else o.(options := Some(map[]))
  }

  /** Applying either helper a second time changes nothing. */
  lemma EnsureIdempotent(o: NetworkCreate)
    ensures EnsureLabelsMap(EnsureLabelsMap(o)) == EnsureLabelsMap(o)
    ensures EnsureOptionsMap(EnsureOptionsMap(o)) == EnsureOptionsMap(o)
  {
  }

  /** What every driver option closure of the bridge, macvlan and ipvlan
      packages does: ensure the driver option map, then store one key. */
  function SetOption(o: NetworkCreate, key: string, value: string): NetworkCreate
  {
    var o1 := EnsureOptionsMap(o);
    o1.(options := Some(o1.options.value[key := value]))
  }

  /** A driver option setter creates the map when needed, sets its key,
      keeps every other key and every other field, and a second value for
      the same key replaces the first. */
  lemma SetOptionOneKey(o: NetworkCreate, key: string, v1: string, v2: string)
    ensures SetOption(o, key, v1).options == Some(o.options.GetOr(map[])[key := v1])
    ensures SetOption(o, key, v1) == o.(options := SetOption(o, key, v1).options)
    ensures forall k :: k in o.options.GetOr(map[]) && k != key ==>
              SetOption(o, key, v1).options.value[k] == o.options.value[k]
    ensures SetOption(SetOption(o, key, v1), key, v2) == SetOption(o, key, v2)
  {
    var m := o.options.GetOr(map[]);
    assert m[key := v1][key := v2] == m[key := v2];
  }
}
