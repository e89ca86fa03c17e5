/** container.go: the value-level rules behind the methods of a Container:
    the abbreviated ID, the polling decisions of PID and the port lookup of
    PublishedPort. */
module Containers {
  import opened Results
  import opened Text
  import opened Moby
  import Address

  /** The number of ID characters shown in messages. */
  const AbbreviatedIDLength := 10

  /** AbbreviatedID: the ID itself when short, else its first ten
      characters. */
  function AbbreviatedID(id: string): (r: string)
    ensures |r| == if |id| <= AbbreviatedIDLength then |id| else AbbreviatedIDLength
    ensures r == id[..|r|]
  {
    if |id| <= AbbreviatedIDLength then id else id[..AbbreviatedIDLength]
  }

  /** A container that has died (or was OOM-killed) and is not restarting
      will never get a PID again. */
  predicate Terminal(s: State)
  {
    (s.dead || s.oomKilled) && !s.restarting
  }

  /** Container.PID: inspect; a state with a non-zero PID returns it; a
      terminal state gives up; otherwise nap and try again. The replies
      start at script(n); the context allows `naps` more naps. */
  function PidPoll(script: nat -> Reply, n: nat, naps: nat): (p: Poll)
    ensures 1 <= p.inspects <= naps + 1 && p.naps == naps - (p.inspects - 1)
    decreases naps
  {
    var r := script(n);
    var st := r.container.state;
    if r.err.Some? then Poll(1, Err(Wrapped(PidInspect, r.err.value)), naps)
    else if st.Some? && st.value.pid != 0 then Poll(1, Ok(st.value.pid), naps)
    else if st.Some? && Terminal(st.value) then Poll(1, Err(TerminalState(st.value.status)), naps)
    else if naps == 0 then Poll(1, Err(Wrapped(PidSleep, ContextDone)), 0)
    else
      var p := PidPoll(script, n + 1, naps - 1);
      Poll(p.inspects + 1, p.result, p.naps)
  }

  /** A polling round that goes on: the inspection succeeded, but there is
      no state, or a state without a PID that is not terminal (a dead
      container that is restarting keeps the loop going). */
  predicate Waiting(script: nat -> Reply, k: nat)
  {
    var st := script(k).container.state;
    script(k).err.None? && (st.None? || (st.value.pid == 0 && !Terminal(st.value)))
  }

  /** PID returns the first non-zero PID it sees; every round before it was
      a waiting one; it gives up on a terminal state without another
      inspection; a failed inspection ends it with that error; and it runs
      out only when the context is cancelled. */
  lemma {:induction false} PidFirst(script: nat -> Reply, n: nat, naps: nat)
    ensures var p := PidPoll(script, n, naps);
      forall k :: n <= k < n + p.inspects - 1 ==> Waiting(script, k)
    ensures var p := PidPoll(script, n, naps);
      var last := script(n + p.inspects - 1);
      p.result.Ok? ==>
        last.err.None? && last.container.state.Some? && last.container.state.value.pid != 0 &&
        p.result.value == last.container.state.value.pid
    ensures var p := PidPoll(script, n, naps);
      var last := script(n + p.inspects - 1);
      p.result.Err? && p.result.error.TerminalState? ==>
        last.err.None? && last.container.state.Some? && Terminal(last.container.state.value) &&
        last.container.state.value.pid == 0 && p.result.error.status == last.container.state.value.status
    ensures var p := PidPoll(script, n, naps);
      var last := script(n + p.inspects - 1);
      (last.err.Some? ==> p.result == Err(Wrapped(PidInspect, last.err.value))) &&
      (p.result.Err? && p.result.error.Wrapped? && p.result.error.op == PidInspect ==> last.err.Some?)
    ensures var p := PidPoll(script, n, naps);
      p.result == Err(Wrapped(PidSleep, ContextDone)) ==> p.inspects == naps + 1 && p.naps == 0
    decreases naps
  {
    if Waiting(script, n) && naps > 0 {
      PidFirst(script, n + 1, naps - 1);
    }
  }

  /** The "port/protocol" key of a query: "tcp" when none is given. */
  function PortKey(portproto: string): (k: string)
    ensures '/' in k
    ensures '/' in portproto ==> k == portproto
    ensures '/' !in portproto ==> k == portproto + "/tcp"
  {
    if '/' in portproto then portproto else portproto + "/tcp"
  }

  /** The protocol of a query: what follows the first "/" of its key. */
  function Protocol(portproto: string): string
  {
    Cut(PortKey(portproto), '/').after
  }

  /** Without a "/" the protocol is "tcp"; with one, it is the text after
      the first "/" of the query. */
  lemma ProtocolRule(portproto: string)
    ensures '/' !in portproto ==> Protocol(portproto) == "tcp"
    ensures '/' in portproto ==> Protocol(portproto) == Cut(portproto, '/').after
  {
    if '/' !in portproto {
      var k := PortKey(portproto);
      assert k == portproto + ['/'] + "tcp";
      assert k[|portproto| + 1..] == "tcp";
    }
  }

  /** One binding: its address, unless the host IP does not parse or the
      host port is not a decimal 16-bit number. An IPv4 address is kept in
      its four-byte form. `parseIP` stands for net.ParseIP. */
  function Bound(b: PortBinding, l4proto: string, parseIP: string -> Option<Address.IP>): (a: Option<Address.Addr>)
    ensures a.Some? <==> parseIP(b.hostIP).Some? && ParseUint(b.hostPort, 0xffff).Ok?
    ensures a.Some? ==>
      a.value.l4proto == l4proto && a.value.port as nat == ParseUint(b.hostPort, 0xffff).value &&
      a.value.ip == Address.To4(parseIP(b.hostIP).value).GetOr(parseIP(b.hostIP).value)
  {
    match parseIP(b.hostIP)
    case None => None
    case Some(ip) =>
      var ip4 := Address.To4(ip).GetOr(ip);
      match ParseUint(b.hostPort, 0xffff)
      case Err(_) => None
      case Ok(port) => Some(Address.NewAddr(ip4, port, l4proto))
  }

  /** The addresses of the bindings, in binding order, skipping the ones
      that do not yield an address. */
  function PortAddrs(bindings: seq<PortBinding>, l4proto: string, parseIP: string -> Option<Address.IP>): seq<Address.Addr>
  {
    if |bindings| == 0 then []
    else
      var rest := PortAddrs(bindings[..|bindings| - 1], l4proto, parseIP);
      match Bound(bindings[|bindings| - 1], l4proto, parseIP)
      case None => rest
      case Some(a) => rest + [a]
  }

  /** The loop of Container.PublishedPort over the bindings of a port. */
  method CollectAddrs(bindings: seq<PortBinding>, l4proto: string, parseIP: string -> Option<Address.IP>)
    returns (addrs: seq<Address.Addr>)
    ensures addrs == PortAddrs(bindings, l4proto, parseIP)
  {
    addrs := [];
    var i := 0;
    while i < |bindings|
      invariant 0 <= i <= |bindings|
      invariant addrs == PortAddrs(bindings[..i], l4proto, parseIP)
    {
      assert bindings[..i + 1][..i] == bindings[..i];
      var b := bindings[i];
      var ip := parseIP(b.hostIP);
      if ip.Some? {
        var ip4 := Address.To4(ip.value).GetOr(ip.value);
        var port := ParseUint(b.hostPort, 0xffff);
        if port.Ok? {
          addrs := addrs + [Address.NewAddr(ip4, port.value, l4proto)];
        }
      }
      i := i + 1;
    }
    assert bindings[..i] == bindings;
  }

  /** Every address carries the queried protocol, an IPv4 address in its
      four-byte form, and a port that some binding gave; there are no more
      addresses than bindings, and as many when every binding is usable. */
  lemma {:induction false} PortAddrsRule(bindings: seq<PortBinding>, l4proto: string, parseIP: string -> Option<Address.IP>)
    ensures var r := PortAddrs(bindings, l4proto, parseIP);
      |r| <= |bindings| &&
      (forall a <- r :: a.l4proto == l4proto) &&
      (forall a <- r :: Address.To4(a.ip).Some? ==> |a.ip| == 4) &&
      (forall a <- r :: exists b <- bindings :: Bound(b, l4proto, parseIP) == Some(a))
    ensures (forall b <- bindings :: Bound(b, l4proto, parseIP).Some?) ==>
              |PortAddrs(bindings, l4proto, parseIP)| == |bindings|
  {
    if |bindings| > 0 {
      var init := bindings[..|bindings| - 1];
      PortAddrsRule(init, l4proto, parseIP);
      assert forall b <- init :: b in bindings;
      var last := bindings[|bindings| - 1];
      match Bound(last, l4proto, parseIP)
      case None =>
      case Some(a) =>
        var ip := parseIP(last.hostIP).value;
        if Address.To4(ip).Some? {
          assert |a.ip| == 4;
        }
    }
  }

  /** The addresses PublishedPort finds for a query among the container's
      port bindings; a port without bindings gives none. */
  function PublishedAddrs(details: ContainerJSON, portproto: string, parseIP: string -> Option<Address.IP>): seq<Address.Addr>
  {
    var key := PortKey(portproto);
    var bindings := if key in details.ports then details.ports[key] else [];
    PortAddrs(bindings, Protocol(portproto), parseIP)
  }
}
