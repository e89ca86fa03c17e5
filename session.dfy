/** session.go: the value-level rules behind a Session: the client options
    it builds the Docker client with, the label filter and the removals of
    AutoClean, and the lookups of existing containers and networks. */
module Sessions {
  import opened Results
  import opened Text
  import opened Moby
  import SessionOptions
  import ContainerRun
  import NetworkCreation

  /** The options the Docker client is built with: FromEnv and API version
      negotiation first, then the session's own, in order. */
  function ClientOptions(o: SessionOptions.Options): (r: seq<SessionOptions.ClientOpt>)
    ensures |r| == 2 + |o.dockerClientOpts| && r[..2] == [SessionOptions.FromEnv, SessionOptions.WithAPIVersionNegotiation]
    ensures r[2..] == o.dockerClientOpts
  {
    [SessionOptions.FromEnv, SessionOptions.WithAPIVersionNegotiation] + o.dockerClientOpts
  }

  /** The label filter of AutoClean: the bare key when the label's value is
      empty, else the whole "key=value". Written with the index of the
      first '='; FilterCut shows it is the strings.Cut formulation. */
  function Filter(lbl: string): (f: string)
  {
    var i := IndexOf(lbl, '=');
    if i + 1 == |lbl| then lbl[..i] else lbl
  }

  /** Filter agrees with cutting the label at its first '=' and keeping the
      key when the value is empty. */
  lemma FilterCut(lbl: string)
    ensures var c := Cut(lbl, '=');
      Filter(lbl) == if c.after == "" then c.before else lbl
  {
    var c := Cut(lbl, '=');
    if c.found {
      assert lbl[|c.before|] == '=';
    }
  }

  /** "key=" and "key" filter on the key, "key=value" on the whole label. */
  lemma FilterRule(key: string, value: string)
    requires '=' !in key
    ensures Filter(key + "=" + value) == if value == "" then key else key + "=" + value
    ensures Filter(key) == key
  {
    assert (key + "=" + value)[|key|] == '=';
    assert (key + "=" + value)[|key| + 1..] == value;
  }

  /** One removal of AutoClean: forced with volumes for a container, plain
      for a network. */
  function Removal(id: string, containers: bool): Call
  {
    if containers then ContainerRemove(id, true, true) else NetworkRemove(id)
  }

  /** The removals of the listed IDs, in list order, up to and including
      the first that fails; the replies start at script(n). */
  function RemoveEach(ids: seq<string>, containers: bool, script: nat -> Reply, n: nat): seq<Call>
    decreases |ids|
  {
    if |ids| == 0 then []
    else if script(n).err.Some? then [Removal(ids[0], containers)]
    else [Removal(ids[0], containers)] + RemoveEach(ids[1..], containers, script, n + 1)
  }

  /** Every listed ID was removed without error. */
  predicate AllRemoved(ids: seq<string>, script: nat -> Reply, n: nat)
  {
    forall k :: n <= k < n + |ids| ==> script(k).err.None?
  }

  /** RemoveEach removes the IDs in list order; it stops right after the
      first failed removal, and goes through the whole list exactly when
      none fails. */
  lemma {:induction false} RemoveEachRule(ids: seq<string>, containers: bool, script: nat -> Reply, n: nat)
    ensures var r := RemoveEach(ids, containers, script, n);
      |r| <= |ids| && (forall i :: 0 <= i < |r| ==> r[i] == Removal(ids[i], containers))
    ensures var r := RemoveEach(ids, containers, script, n);
      forall k :: n <= k < n + |r| - 1 ==> script(k).err.None?
    ensures var r := RemoveEach(ids, containers, script, n);
      AllRemoved(ids, script, n) ==> |r| == |ids|
    ensures var r := RemoveEach(ids, containers, script, n);
      !AllRemoved(ids, script, n) ==> |r| >= 1 && script(n + |r| - 1).err.Some?
    decreases |ids|
  {
    if |ids| > 0 && script(n).err.None? {
      RemoveEachRule(ids[1..], containers, script, n + 1);
      if !AllRemoved(ids, script, n) {
        assert !AllRemoved(ids[1..], script, n + 1);
      }
    }
  }

  /** When no removal fails, every ID is removed, in list order. */
  lemma {:induction false} RemovedInOrder(ids: seq<string>, containers: bool, script: nat -> Reply, n: nat)
    requires AllRemoved(ids, script, n)
    ensures var r := RemoveEach(ids, containers, script, n);
      |r| == |ids| && forall i :: 0 <= i < |r| ==> r[i] == Removal(ids[i], containers)
  {
    RemoveEachRule(ids, containers, script, n);
  }

  /** The network part of AutoClean: the network listing and the network
      removals, the replies starting at script(m). */
  function NetworkCalls(f: string, script: nat -> Reply, m: nat): (r: seq<Call>)
    ensures |r| >= 1 && r[0] == NetworkList(f)
  {
    if script(m).err.Some? then [NetworkList(f)]
    else [NetworkList(f)] + RemoveEach(script(m).ids, false, script, m + 1)
  }

  /** After the network listing come only network removals. */
  lemma NetworkCallsRule(f: string, script: nat -> Reply, m: nat)
    ensures forall i :: 1 <= i < |NetworkCalls(f, script, m)| ==> NetworkCalls(f, script, m)[i].NetworkRemove?
  {
    if script(m).err.None? {
      RemoveEachRule(script(m).ids, false, script, m + 1);
    }
  }

  /** The container part of AutoClean: the container listing and the
      container removals, the replies starting at script(n). */
  function ContainerCalls(f: string, script: nat -> Reply, n: nat): (r: seq<Call>)
    ensures |r| >= 1 && r[0] == ContainerList(f)
  {
    if script(n).err.Some? then [ContainerList(f)]
    else [ContainerList(f)] + RemoveEach(script(n).ids, true, script, n + 1)
  }

  /** Whether the container listing worked and every listed container was
      removed. */
  predicate ContainersCleaned(script: nat -> Reply, n: nat)
  {
    script(n).err.None? && AllRemoved(script(n).ids, script, n + 1)
  }

  /** Session.AutoClean with auto-cleaning label `lbl`: nothing without a
      label; else list the matching containers and remove them; only when
      all are gone, list the matching networks and remove them. Listing
      errors and removal errors end it quietly. */
  function AutoCleanCalls(lbl: string, script: nat -> Reply, n: nat): seq<Call>
  {
    if lbl == "" then []
    else
      var f := Filter(lbl);
      if ContainersCleaned(script, n) then ContainerCalls(f, script, n) + NetworkCalls(f, script, n + 1 + |script(n).ids|)
      else ContainerCalls(f, script, n)
  }

  /** Without a label AutoClean does nothing. With one, it lists the
      matching containers first, and a failed listing ends it there. */
  lemma AutoCleanStart(lbl: string, script: nat -> Reply, n: nat)
    ensures lbl == "" ==> AutoCleanCalls(lbl, script, n) == []
    ensures var calls := AutoCleanCalls(lbl, script, n);
      lbl != "" ==> |calls| >= 1 && calls[0] == ContainerList(Filter(lbl))
    ensures var calls := AutoCleanCalls(lbl, script, n);
      lbl != "" && script(n).err.Some? ==> calls == [ContainerList(Filter(lbl))]
  {
  }

  /** Networks are listed only when the container listing worked and every
      listed container was removed. */
  lemma {:induction false} NetworksOnlyAfterContainers(lbl: string, script: nat -> Reply, n: nat)
    requires lbl != "" && script(n).err.None?
    ensures NetworkList(Filter(lbl)) in AutoCleanCalls(lbl, script, n) <==> AllRemoved(script(n).ids, script, n + 1)
  {
    var f := Filter(lbl);
    var rc := RemoveEach(script(n).ids, true, script, n + 1);
    RemoveEachRule(script(n).ids, true, script, n + 1);
    var head := [ContainerList(f)] + rc;
    assert forall i :: 1 <= i < |head| ==> head[i] == rc[i - 1];
    assert NetworkList(f) !in head;
    if AllRemoved(script(n).ids, script, n + 1) {
      var nc := NetworkCalls(f, script, n + 1 + |script(n).ids|);
      assert (head + nc)[|head|] == NetworkList(f);
    }
  }

  /** When every listed container was removed, AutoClean is its container
      part followed by its network part: the container listing, then the
      removal of each listed container in list order, then the network
      listing (which NetworkCallsRule shows is followed by network
      removals only). */
  lemma {:induction false} AutoCleanNetworksLast(lbl: string, script: nat -> Reply, n: nat)
    requires lbl != "" && script(n).err.None?
    ensures var ids := script(n).ids;
      var cc := ContainerCalls(Filter(lbl), script, n);
      var nc := NetworkCalls(Filter(lbl), script, n + 1 + |ids|);
      AllRemoved(ids, script, n + 1) ==>
        AutoCleanCalls(lbl, script, n) == cc + nc &&
        |cc| == 1 + |ids| && cc[0] == ContainerList(Filter(lbl)) &&
        (forall i :: 1 <= i < |cc| ==> cc[i] == ContainerRemove(ids[i - 1], true, true)) &&
        nc[0] == NetworkList(Filter(lbl))
  {
    var f := Filter(lbl);
    var ids := script(n).ids;
    if AllRemoved(ids, script, n + 1) {
      var rc := RemoveEach(ids, true, script, n + 1);
      var cc := ContainerCalls(f, script, n);
      RemovedInOrder(ids, true, script, n + 1);
      assert cc == [ContainerList(f)] + rc;
      assert forall i :: 1 <= i < |cc| ==> cc[i] == rc[i - 1];
    }
  }

  /** Session.Container: inspect the name or ID; the container is named by
      the inspected name without its first character. */
  function ContainerTrace(nameID: string, script: nat -> Reply, n: nat): (t: Trace<ContainerRun.Made>)
    ensures t.calls == [ContainerInspect(nameID)]
    ensures t.result.Ok? <==> script(n).err.None? && |script(n).container.name| > 0
    ensures script(n).err.Some? ==> t.result == Err(script(n).err.value)
    ensures t.result.Ok? ==>
      var d := script(n).container;
      d.name == [d.name[0]] + t.result.value.name && t.result.value.id == d.id && t.result.value.details == d
  {
    var r := script(n);
    if r.err.Some? then Trace([ContainerInspect(nameID)], Err(r.err.value))
    else if |r.container.name| == 0 then Trace([ContainerInspect(nameID)], Err(IndexPanic))
    else
      var d := r.container;
      assert d.name == [d.name[0]] + d.name[1..];
      Trace([ContainerInspect(nameID)], Ok(ContainerRun.Made(d.name[1..], d.id, d)))
  }

  /** Session.Network: inspect the name or ID; the network carries the
      inspected name and ID. */
  function NetworkTrace(nameID: string, script: nat -> Reply, n: nat): (t: Trace<NetworkCreation.Network>)
    ensures t.calls == [NetworkInspect(nameID)]
    ensures script(n).err.Some? ==> t.result == Err(script(n).err.value)
    ensures script(n).err.None? ==>
      t.result == Ok(NetworkCreation.Network(script(n).network.name, script(n).network.id, script(n).network))
  {
    var r := script(n);
    if r.err.Some? then Trace([NetworkInspect(nameID)], Err(r.err.value))
    else Trace([NetworkInspect(nameID)], Ok(NetworkCreation.Network(r.network.name, r.network.id, r.network)))
  }
}
