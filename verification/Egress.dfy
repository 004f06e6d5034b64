/**
 The egress policy (sockets.go:23-100) and every path by which the guest makes the host send
 a packet or open a connection (sockets.go:178-284, 399-410).
 */
module Egress {
  import opened Prelude

  /** netip.Addr: not valid, IPv4 or IPv6, as a number. */
  datatype Addr = Invalid | V4(n: nat) | V6(n: nat)

  const TOP4 := 0x1_0000_0000
  const TOP6 := 0x1_0000_0000_0000_0000_0000_0000_0000_0000

  predicate IsAddr(a: Addr) {
    match a
    case Invalid => true
    case V4(n) => n < TOP4
    case V6(n) => n < TOP6
  }

  /** netip.Prefix: `size` addresses from `first`. */
  datatype Prefix = P4(first: nat, size: nat) | P6(first: nat, size: nat)

  predicate Contains(p: Prefix, a: Addr) {
    match p
    case P4(first, size) => a.V4? && first <= a.n < first + size
    case P6(first, size) => a.V6? && first <= a.n < first + size
  }

  const DeniedNetworks: seq<Prefix> := [
    P4(0x0000_0000, 0x0100_0000),                                    // 0.0.0.0/8
    P4(0x0A00_0000, 0x0100_0000),                                    // 10.0.0.0/8
    P4(0x6440_0000, 0x0040_0000),                                    // 100.64.0.0/10
    P4(0x7F00_0000, 0x0100_0000),                                    // 127.0.0.0/8
    P4(0xA9FE_0000, 0x0001_0000),                                    // 169.254.0.0/16
    P4(0xAC10_0000, 0x0010_0000),                                    // 172.16.0.0/12
    P4(0xC000_0000, 0x0000_0100),                                    // 192.0.0.0/24
    P4(0xC000_0200, 0x0000_0100),                                    // 192.0.2.0/24
    P4(0xC058_6300, 0x0000_0100),                                    // 192.88.99.0/24
    P4(0xC0A8_0000, 0x0001_0000),                                    // 192.168.0.0/16
    P4(0xC612_0000, 0x0002_0000),                                    // 198.18.0.0/15
    P4(0xC633_6400, 0x0000_0100),                                    // 198.51.100.0/24
    P4(0xCB00_7100, 0x0000_0100),                                    // 203.0.113.0/24
    P4(0xE000_0000, 0x1000_0000),                                    // 224.0.0.0/4
    P4(0xF000_0000, 0x1000_0000),                                    // 240.0.0.0/4
    P6(0, 1),                                                        // ::/128
    P6(1, 1),                                                        // ::1/128
    P6(0x0064_FF9B_0000_0000_0000_0000_0000_0000, 0x1_0000_0000),    // 64:ff9b::/96
    P6(0x0064_FF9B_0001_0000_0000_0000_0000_0000, 0x1_0000_0000_0000_0000_0000),   // 64:ff9b:1::/48
    P6(0x0100_0000_0000_0000_0000_0000_0000_0000, 0x1_0000_0000_0000_0000),        // 100::/64
    P6(0x2001_0000_0000_0000_0000_0000_0000_0000, 0x200_0000_0000_0000_0000_0000_0000),    // 2001::/23
    P6(0x2001_0DB8_0000_0000_0000_0000_0000_0000, 0x1_0000_0000_0000_0000_0000_0000),      // 2001:db8::/32
    P6(0x2002_0000_0000_0000_0000_0000_0000_0000, 0x1_0000_0000_0000_0000_0000_0000_0000), // 2002::/16
    P6(0x3FFF_0000_0000_0000_0000_0000_0000_0000, 0x1000_0000_0000_0000_0000_0000_0000),   // 3fff::/20
    P6(0x5F00_0000_0000_0000_0000_0000_0000_0000, 0x1_0000_0000_0000_0000_0000_0000_0000), // 5f00::/16
    P6(0xFC00_0000_0000_0000_0000_0000_0000_0000, 0x0200_0000_0000_0000_0000_0000_0000_0000), // fc00::/7
    P6(0xFE80_0000_0000_0000_0000_0000_0000_0000, 0x0040_0000_0000_0000_0000_0000_0000_0000), // fe80::/10
    P6(0xFF00_0000_0000_0000_0000_0000_0000_0000, 0x0100_0000_0000_0000_0000_0000_0000_0000)  // ff00::/8
  ]

  /** 2000::/3. */
  const GlobalUnicastV6 := P6(0x2000_0000_0000_0000_0000_0000_0000_0000, 0x2000_0000_0000_0000_0000_0000_0000_0000)

  /** What the guest's do-not-query-address list holds beyond DeniedNetworks (module.go:85-116). */
  const GuestOnly: seq<Prefix> := [
    P4(0xFFFF_FFFF, 1),                                                            // 255.255.255.255/32
    P6(0xFFFF_0000_0000, 0x1_0000_0000),                                           // ::ffff:0:0/96
    P6(0xFEC0_0000_0000_0000_0000_0000_0000_0000, 0x0040_0000_0000_0000_0000_0000_0000_0000), // fec0::/10
    P6(0, 0x1_0000_0000)                                                           // ::/96
  ]

  function DoNotQuery(): seq<Prefix> { DeniedNetworks + GuestOnly }

  predicate InAny(ps: seq<Prefix>, a: Addr) {
    exists k :: 0 <= k < |ps| && Contains(ps[k], a)
  }

  /** An IPv4 address written as IPv6, in ::ffff:0:0/96. */
  predicate Mapped(a: Addr) {
    a.V6? && a.n / TOP4 == 0xFFFF
  }

  function Unmap(a: Addr): Addr {
    if Mapped(a) then V4(a.n % TOP4) else a
  }

  /** egressAllowed. */
  predicate Allowed(a: Addr, port: int) {
    && port == 53
    && var ip := Unmap(a);
    && !ip.Invalid?
    && (ip.V6? ==> Contains(GlobalUnicastV6, ip))
    && !InAny(DeniedNetworks, ip)
  }

  /** The scan of deniedNetworks as the loop does it (sockets.go:74-91). */
  method EgressAllowed(a: Addr, port: int) returns (ok: bool)
    ensures ok == Allowed(a, port)
  {
    if port != 53 { return false; }
    var ip := Unmap(a);
    if ip.Invalid? { return false; }
    if ip.V6? && !Contains(GlobalUnicastV6, ip) { return false; }
    var k := 0;
    while k < |DeniedNetworks|
      invariant 0 <= k <= |DeniedNetworks|
      invariant forall j :: 0 <= j < k ==> !Contains(DeniedNetworks[j], ip)
    {
      if Contains(DeniedNetworks[k], ip) { return false; }
      k := k + 1;
    }
    return true;
  }

  // ---- What the policy comes to ----

  lemma GuestOnlyV4(n: nat)
    requires n < TOP4 && InAny(GuestOnly, V4(n))
    ensures InAny(DeniedNetworks, V4(n))
  {
    assert Contains(DeniedNetworks[14], V4(n));
  }

  lemma GuestOnlyV6(n: nat)
    requires InAny(GuestOnly, V6(n))
    ensures !Contains(GlobalUnicastV6, V6(n))
  {
  }

  lemma InEither(a: Addr)
    ensures InAny(DoNotQuery(), a) <==> InAny(DeniedNetworks, a) || InAny(GuestOnly, a)
  {
    var d := |DeniedNetworks|;
    if InAny(DeniedNetworks, a) {
      var k :| 0 <= k < d && Contains(DeniedNetworks[k], a);
      assert DoNotQuery()[k] == DeniedNetworks[k];
    }
    if InAny(GuestOnly, a) {
      var k :| 0 <= k < |GuestOnly| && Contains(GuestOnly[k], a);
      assert DoNotQuery()[d + k] == GuestOnly[k];
    }
    if InAny(DoNotQuery(), a) {
      var k :| 0 <= k < |DoNotQuery()| && Contains(DoNotQuery()[k], a);
      if k < d { assert DoNotQuery()[k] == DeniedNetworks[k]; } else { assert DoNotQuery()[k] == GuestOnly[k - d]; }
    }
  }

  /** For IPv4 the host's policy is the guest's do-not-query list, on port 53. */
  lemma PolicyV4(n: nat, port: int)
    requires n < TOP4
    ensures Allowed(V4(n), port) <==> port == 53 && !InAny(DoNotQuery(), V4(n))
  {
    InEither(V4(n));
    if InAny(GuestOnly, V4(n)) { GuestOnlyV4(n); }
  }

  /** For IPv6 that is not IPv4-mapped it is the guest's list within 2000::/3, on port 53. */
  lemma PolicyV6(n: nat, port: int)
    requires n < TOP6 && !Mapped(V6(n))
    ensures Allowed(V6(n), port) <==>
              port == 53 && Contains(GlobalUnicastV6, V6(n)) && !InAny(DoNotQuery(), V6(n))
  {
    InEither(V6(n));
    if InAny(GuestOnly, V6(n)) { GuestOnlyV6(n); }
  }

  /** An IPv4-mapped address is judged as the IPv4 address it embeds. */
  lemma PolicyMapped(n: nat, port: int)
    requires n < TOP4
    ensures Mapped(V6(0xFFFF * TOP4 + n)) && (Allowed(V6(0xFFFF * TOP4 + n), port) <==> Allowed(V4(n), port))
  {
  }

  /** No allowed address, mapped or not, is one that the guest was told never to query. */
  lemma AllowedIsQueryable(a: Addr, port: int)
    requires IsAddr(a) && Allowed(a, port)
    ensures port == 53 && !InAny(DoNotQuery(), Unmap(a))
  {
    var ip := Unmap(a);
    if ip.V4? {
      PolicyV4(ip.n, port);
      assert Unmap(ip) == ip;
    } else {
      PolicyV6(ip.n, port);
    }
  }

  // ---- Every way out ----

  datatype Target = Target(addr: Addr, port: int)

  /** A packet or a connection that leaves the host. */
  datatype Exit = Datagram(to: Target) | Dial(to: Target) | Stream(to: Target)

  /** hostSocket: kind, connected remote, and the peer of its TCP connection. */
  datatype Sock = Sock(udp: bool, remote: Option<Target>, peer: Option<Target>, closed: bool)

  datatype State = State(socks: map<int, Sock>, dials: seq<(int, Target)>, exits: seq<Exit>)

  const Init := State(map[], [], [])

  /** Guest calls with any arguments, and the host's own steps; there are no replay hooks. */
  datatype Act =
    | Open(sid: int, udp: bool)
    | Connect(sid: int, addr: Addr, port: int)
    | Send(sid: int)
    | SendTo(sid: int, addr: Addr, port: int)
    | Dialed(k: nat, ok: bool)               // a connectTCP goroutine finishes
    | CloseSock(sid: int)
    | ForgetSock(sid: int)

  predicate PortOk(port: int) { 0 < port <= 65535 }

  function DoConnect(s: State, sid: int, addr: Addr, port: int): State {
    if !PortOk(port) || !Allowed(addr, port) || sid !in s.socks || s.socks[sid].closed then s
    else
      var t := Target(addr, port);
      var k := s.socks[sid].(remote := Some(t));
      var s' := s.(socks := s.socks[sid := k]);
      if k.udp || k.peer.Some? then s'
      else s'.(dials := s.dials + [(sid, t)], exits := s.exits + [Dial(t)])
  }

  function DoSendTo(s: State, sid: int, addr: Addr, port: int): State {
    if !PortOk(port) || !Allowed(addr, port) || sid !in s.socks || s.socks[sid].closed then s
    else if s.socks[sid].udp then s.(exits := s.exits + [Datagram(Target(addr, port))])
    else if s.socks[sid].peer.None? then s
    else s.(exits := s.exits + [Stream(s.socks[sid].peer.value)])
  }

  function Step(s: State, a: Act): State {
    match a
    case Open(sid, udp) => if sid in s.socks then s else s.(socks := s.socks[sid := Sock(udp, None, None, false)])
    case Connect(sid, addr, port) => DoConnect(s, sid, addr, port)
    case Send(sid) =>
      if sid !in s.socks || s.socks[sid].remote.None? then s
      else DoSendTo(s, sid, s.socks[sid].remote.value.addr, s.socks[sid].remote.value.port)
    case SendTo(sid, addr, port) => DoSendTo(s, sid, addr, port)
    case Dialed(k, ok) =>
      if k >= |s.dials| then s
      else
        var (sid, t) := s.dials[k];
        if !ok || sid !in s.socks || s.socks[sid].closed then s
        else s.(socks := s.socks[sid := s.socks[sid].(peer := Some(t))])
    case CloseSock(sid) => if sid !in s.socks then s else s.(socks := s.socks[sid := s.socks[sid].(closed := true)])
    case ForgetSock(sid) => s.(socks := s.socks - {sid})
  }

  function Run(s: State, acts: seq<Act>): State
    decreases |acts|
  {
    if acts == [] then s else Run(Step(s, acts[0]), acts[1..])
  }

  predicate Good(t: Target) { Allowed(t.addr, t.port) }

  predicate Valid(s: State) {
    && (forall e :: e in s.exits ==> Good(e.to))
    && (forall k :: 0 <= k < |s.dials| ==> Good(s.dials[k].1))
    && (forall sid :: sid in s.socks && s.socks[sid].peer.Some? ==> Good(s.socks[sid].peer.value))
  }

  lemma {:induction false} RunKeeps(s: State, acts: seq<Act>)
    requires Valid(s)
    ensures Valid(Run(s, acts))
    decreases |acts|
  {
    if acts != [] { RunKeeps(Step(s, acts[0]), acts[1..]); }
  }

  /**
   For any run of guest calls with any arguments, every datagram destination, every dialed
   address and every stream's peer is on port 53 and outside the do-not-query list.
   */
  lemma NothingEscapes(acts: seq<Act>, e: Exit)
    requires e in Run(Init, acts).exits && IsAddr(e.to.addr)
    ensures Allowed(e.to.addr, e.to.port) && e.to.port == 53 && !InAny(DoNotQuery(), Unmap(e.to.addr))
  {
    RunKeeps(Init, acts);
    AllowedIsQueryable(e.to.addr, e.to.port);
  }
}
