/**
 How both sides of a flow find each other: the CPU computed from the four-tuple (tcpsplit/qp.c), and the
 SYN probe that carries the four-tuple to the egress hook (tcpsplit/conn_pool.c, tcpsplit/split.c).
 Ports and addresses are kept as the bytes of the packet, in network order.
 */
module Steering {
  import opened Words
  import opened KeyOrder

  datatype Be16 = Be16(hi: Byte, lo: Byte)
  datatype Be32 = Be32(a: Byte, b: Byte, c: Byte, d: Byte)
  datatype FourTuple = FourTuple(portS: Be16, portD: Be16, addrS: Be32, addrD: Be32)

  /** The key of struct cbn_qp: the union lays the four fields over the 12 bytes. */
  function KeyOf(t: FourTuple): (key: seq<Byte>)
    ensures |key| == RB_KEY_LENGTH
  {
    [t.portS.hi, t.portS.lo, t.portD.hi, t.portD.lo,
     t.addrS.a, t.addrS.b, t.addrS.c, t.addrS.d, t.addrD.a, t.addrD.b, t.addrD.c, t.addrD.d]
  }

  function TupleOf(k: seq<Byte>): FourTuple
    requires |k| == RB_KEY_LENGTH
  {
    FourTuple(Be16(k[0], k[1]), Be16(k[2], k[3]), Be32(k[4], k[5], k[6], k[7]), Be32(k[8], k[9], k[10], k[11]))
  }

  // ---------------------------------------------------------------- the CPU of a flow

  /** A char of the key as the int it is promoted to: sign-extended. */
  function SignExtend(b: Byte): bv32 { Widen(b as bv8) }

  function Widen(c: bv8): bv32 { SignBits(c) | LowBits(c) }

  function LowBits(c: bv8): bv32 { c as bv32 }

  function SignBits(c: bv8): bv32 { if c & 0x80 == 0 then 0 else 0xFFFF_FF00 }

  function XorFold(key: seq<Byte>): bv32 {
    var n := |key|;
    if n == 0 then 0 else Xor32(XorFold(key[..n - 1]), SignExtend(key[n - 1]))
  }

  /** Where qp2cpu sends a key when so many CPUs are online. */
  function CpuOf(key: seq<Byte>, online: nat): nat
    requires online > 0
  {
    XorFold(key) as nat % online
  }

  lemma DivMod(core: nat, n: nat)
    requires n > 0
    ensures core / n * n <= core && core - core / n * n == core % n < n
  {
  }

  /** qp2cpu */
  method Qp2Cpu(key: seq<Byte>, online: nat) returns (cpu: nat)
    requires |key| == RB_KEY_LENGTH && online > 0
    ensures cpu == CpuOf(key, online) < online
  {
    var core: bv32 := 0;
    var i := 0;
    while i < RB_KEY_LENGTH
      invariant 0 <= i <= RB_KEY_LENGTH && core == XorFold(key[..i])
    {
      core := Xor32(core, SignExtend(key[i]));
      assert key[..i + 1][..i] == key[..i];
      i := i + 1;
    }
    assert key[..i] == key;
    DivMod(core as nat, online);
    i := (core as nat) / online * online;
    cpu := (core as nat) - i;
  }

  lemma {:induction false} FoldTakesOut(key: seq<Byte>, i: nat)
    requires i < |key|
    ensures XorFold(key) == Xor32(XorFold(key[..i] + key[i + 1..]), SignExtend(key[i]))
  {
    var n := |key| - 1;
    var rest := key[..i] + key[i + 1..];
    if i == n {
      assert rest == key[..n];
    } else {
      FoldTakesOut(key[..n], i);
      assert rest[..n - 1] == key[..n][..i] + key[..n][i + 1..];
      assert rest[n - 1] == key[n] && key[..n][i] == key[i];
      XorSwapLast32(XorFold(rest[..n - 1]), SignExtend(key[i]), SignExtend(key[n]));
    }
  }

  /** The fold does not depend on the order of the bytes. */
  lemma {:induction false} FoldIgnoresOrder(a: seq<Byte>, b: seq<Byte>)
    requires multiset(a) == multiset(b)
    ensures XorFold(a) == XorFold(b)
    decreases |a|
  {
    SameLength(a, b);
    if a != [] {
      var n := |a| - 1;
      assert a[n] in multiset(b);
      var i :| 0 <= i < |b| && b[i] == a[n];
      assert a == a[..n] + [a[n]];
      assert b == b[..i] + [b[i]] + b[i + 1..];
      var rest := b[..i] + b[i + 1..];
      SplitLast(a[..n], rest, a[n]);
      SplitMiddle(b[..i], b[i], b[i + 1..]);
      FoldIgnoresOrder(a[..n], rest);
      FoldTakesOut(b, i);
    }
  }

  lemma SplitMiddle(a: seq<Byte>, x: Byte, c: seq<Byte>)
    ensures multiset(a + [x] + c) == multiset(a + c + [x])
  {
  }

  lemma SplitLast(a: seq<Byte>, b: seq<Byte>, x: Byte)
    ensures multiset(a + [x]) == multiset(b + [x]) ==> multiset(a) == multiset(b)
  {
    assert multiset(a + [x]) == multiset(a) + multiset{x};
    assert multiset(b + [x]) == multiset(b) + multiset{x};
    if multiset(a + [x]) == multiset(b + [x]) {
      assert multiset(a) == multiset(a + [x]) - multiset{x};
      assert multiset(b) == multiset(b + [x]) - multiset{x};
    }
  }

  lemma SameLength(a: seq<Byte>, b: seq<Byte>)
    requires multiset(a) == multiset(b)
    ensures |a| == |b|
  {
    assert |multiset(a)| == |a| && |multiset(b)| == |b|;
  }

  function Exchanged(t: FourTuple): FourTuple { FourTuple(t.portD, t.portS, t.addrD, t.addrS) }

  /** A flow and its opposite direction belong to the same CPU. */
  lemma CpuIsSymmetric(t: FourTuple, online: nat)
    requires online > 0
    ensures CpuOf(KeyOf(Exchanged(t)), online) == CpuOf(KeyOf(t), online)
  {
    var k, e := KeyOf(t), KeyOf(Exchanged(t));
    var ports, portd, addrs, addrd := k[..2], k[2..4], k[4..8], k[8..];
    assert k == ports + portd + addrs + addrd;
    assert e == portd + ports + addrd + addrs;
    SwapBlocks(ports, portd, addrs, addrd);
    FoldIgnoresOrder(e, k);
  }

  lemma SwapBlocks(a: seq<Byte>, b: seq<Byte>, c: seq<Byte>, d: seq<Byte>)
    ensures multiset(b + a + d + c) == multiset(a + b + c + d)
  {
  }

  function ByteFold(key: seq<Byte>): bv8 {
    var n := |key|;
    if n == 0 then 0 else ByteFold(key[..n - 1]) ^ (key[n - 1] as bv8)
  }

  lemma WidenIs(c: bv8)
    ensures Widen(c) == Xor32(SignBits(c), LowBits(c))
  {
    XorIs(SignBits(c), LowBits(c));
    if c & 0x80 == 0 {
      assert 0 | (c as bv32) == 0 ^ (c as bv32);
    } else {
      assert 0xFFFF_FF00 | (c as bv32) == 0xFFFF_FF00 ^ (c as bv32);
    }
  }

  lemma SignBitsXor(a: bv8, b: bv8)
    ensures Xor32(SignBits(a), SignBits(b)) == SignBits(a ^ b)
  {
    XorIs(SignBits(a), SignBits(b));
    assert (a ^ b) & 0x80 == (a & 0x80) ^ (b & 0x80);
    assert a & 0x80 == 0 || a & 0x80 == 0x80;
    assert b & 0x80 == 0 || b & 0x80 == 0x80;
  }

  lemma LowBitsXor(a: bv8, b: bv8)
    ensures Xor32(LowBits(a), LowBits(b)) == LowBits(a ^ b)
  {
    XorIs(LowBits(a), LowBits(b));
    assert (a as bv32) ^ (b as bv32) == (a ^ b) as bv32;
  }

  /** Sign extension commutes with exclusive-or. */
  lemma WidenXor(a: bv8, b: bv8)
    ensures Xor32(Widen(a), Widen(b)) == Widen(a ^ b)
  {
    WidenIs(a);
    WidenIs(b);
    WidenIs(a ^ b);
    SignBitsXor(a, b);
    LowBitsXor(a, b);
    XorRegroup(SignBits(a), LowBits(a), SignBits(b), LowBits(b));
  }

  /** All that a key contributes is the exclusive-or of its bytes,
      so however many CPUs there are, flows go to at most 256 of them. */
  lemma {:induction false} FoldIsOneByte(key: seq<Byte>)
    ensures XorFold(key) == Widen(ByteFold(key))
  {
    var n := |key|;
    if n > 0 {
      FoldIsOneByte(key[..n - 1]);
      WidenXor(ByteFold(key[..n - 1]), key[n - 1] as bv8);
    }
  }

  /** The sign extension as a number. */
  lemma WidenValue(c: bv8)
    ensures Widen(c) as nat == if c < 128 then c as nat else 0xFFFF_FF00 + c as nat
  {
    var low := c as bv32;
    assert low < 256;
    if c & 0x80 == 0 {
      assert c < 128 && Widen(c) == low;
    } else {
      assert c >= 128;
      assert 0xFFFF_FF00 | low == 0xFFFF_FF00 + low;
    }
  }

  /** The CPU in numbers: with f the exclusive-or of the bytes of the key, read as a char and converted to
      unsigned int, it is the remainder of division by the number of CPUs. */
  lemma CpuIsRemainder(key: seq<Byte>, online: nat)
    requires online > 0
    ensures var f := ByteFold(key) as nat; var core := if f < 128 then f else 0x1_0000_0000 - 256 + f;
            CpuOf(key, online) < online && Leaves(core, online, CpuOf(key, online))
  {
    FoldIsOneByte(key);
    WidenValue(ByteFold(key));
    var f := ByteFold(key) as nat;
    var core := if f < 128 then f else 0x1_0000_0000 - 256 + f;
    assert CpuOf(key, online) == core % online;
    LeavesRemainder(core, online);
  }

  /** core divided by n leaves r. */
  ghost predicate Leaves(core: nat, n: nat, r: nat) { exists k: nat :: core == k * n + r }

  lemma LeavesRemainder(core: nat, n: nat)
    requires n > 0
    ensures core % n < n && Leaves(core, n, core % n)
  {
    DivMod(core, n);
    assert core == core / n * n + core % n;
  }

  // ---------------------------------------------------------------- the SYN probe

  const CBN_PROBE_PORT := 4

  function Htons(port: nat): Be16
    requires port < 0x1_0000
  {
    Be16(port / 256, port % 256)
  }

  function Ntohs(p: Be16): nat { p.hi * 256 + p.lo }

  datatype TcpHeader = TcpHeader(source: Be16, dest: Be16, window: Be16)

  datatype IpHeader = IpHeader(saddr: Be32, daddr: Be32)

  /** struct addresses: the four-tuple, the mark of the tenant, and sin_addr */
  datatype Addresses = Addresses(tuple: FourTuple, mark: int, nextHop: Be32)

  datatype Pointer = Null | To(addresses: Addresses)

  /** sizeof(struct tcphdr) */
  const TCPHDR: nat := 20

  /** What a UDP packet carries for is_cbn_probe and get_cbn_probe: an encapsulated TCP packet, with the
      pointers that were written into it at offsets from its TCP header, and what reading a pointer at
      any other offset gives. */
  datatype Inner = Plain | TcpInIpip(source: Be16, words: map<nat, Pointer>, elsewhere: Pointer)

  /** after: how many bytes follow the fixed part of the TCP header (options and payload). */
  datatype Body = Tcp(tcp: TcpHeader, after: nat) | Udp(inner: Inner) | OtherProtocol

  datatype Packet = Packet(mark: int, ip: IpHeader, body: Body)

  /** Where the hook sends a packet, and which task it starts on which CPU. */
  datatype Verdict =
    | Accept
    | AcceptTagged(tag: Addresses, at: nat)         // with a pointer to the record written at that offset
    | Drop
    | RunSyn(addresses: Addresses, cpu: nat)        // start_new_connection_syn, packet dropped
    | RunPreSyn(addresses: Addresses, cpu: nat)     // start_new_pre_connection_syn, packet dropped

  /** set_cbn_probe: skb_put makes room behind the last byte of the packet. */
  function SetCbnProbeAt(after: nat): nat { TCPHDR + after }

  /** get_cbn_probe: the word right behind the fixed part of the inner TCP header. */
  function GetCbnProbe(inner: Inner): Pointer
    requires inner.TcpInIpip?
  {
    if TCPHDR in inner.words then inner.words[TCPHDR] else inner.elsewhere
  }

  /** The tunnel wraps a packet as it is. */
  function Wrapped(tcp: TcpHeader, tag: Addresses, at: nat, elsewhere: Pointer): Inner {
    TcpInIpip(tcp.source, map[at := To(tag)], elsewhere)
  }

  /** The pointer written is the pointer read exactly if nothing follows the fixed TCP header. */
  lemma TagReadBackIff(tcp: TcpHeader, tag: Addresses, after: nat)
    ensures (forall elsewhere :: GetCbnProbe(Wrapped(tcp, tag, SetCbnProbeAt(after), elsewhere)) == To(tag)) <==> after == 0
  {
    if after != 0 {
      assert GetCbnProbe(Wrapped(tcp, tag, SetCbnProbeAt(after), Null)) == Null;
    }
  }

  function BuildAddresses(mark: int, ip: IpHeader, tcp: TcpHeader, sinAddr: Be32): Addresses {
    Addresses(FourTuple(tcp.source, tcp.dest, ip.saddr, ip.daddr), mark, sinAddr)
  }

  /** cbn_egress_hook on a device that is a tunnel (gue) or not.  sinAddr is what the field sin_addr of the
      new record holds before it is set. */
  function EgressHook(p: Packet, gue: bool, online: nat, sinAddr: Be32): Verdict
    requires online > 0
  {
    if p.mark == 0 then Accept
    else match p.body
      case Tcp(tcp, after) =>
        if Ntohs(tcp.source) != CBN_PROBE_PORT then Accept
        else
          var addresses := BuildAddresses(p.mark, p.ip, tcp, sinAddr);
          var restored := addresses.(tuple := addresses.tuple.(portS := tcp.window));
          if gue then AcceptTagged(restored, SetCbnProbeAt(after)) else RunSyn(restored, CpuOf(KeyOf(restored.tuple), online))
      case Udp(inner) =>
        if inner.Plain? || Ntohs(inner.source) != CBN_PROBE_PORT then Accept
        else if GetCbnProbe(inner) == Null then Drop
        else
          var addresses := GetCbnProbe(inner).addresses;
          RunPreSyn(addresses.(nextHop := p.ip.daddr), CpuOf(KeyOf(addresses.tuple), online))
      case OtherProtocol => Accept
  }

  /** struct probe */
  class Probe {
    var ip: IpHeader
    var tcp: TcpHeader
    const mark: int    // SO_MARK of the raw socket of its listener

    constructor (i: IpHeader, t: TcpHeader, m: int)
      ensures ip == i && tcp == t && mark == m
    {
      ip, tcp, mark := i, t, m;
    }

    /** start_probe_syn: rewrites the header in place and sends the two fixed headers */
    method StartProbeSyn() returns (sent: Packet)
      modifies this
      ensures ip == old(ip) && tcp == old(tcp).(window := old(tcp.source), source := Htons(CBN_PROBE_PORT))
      ensures sent == ProbePacket(old(ip), old(tcp), mark)
    {
      tcp := tcp.(window := tcp.source);
      tcp := tcp.(source := Htons(CBN_PROBE_PORT));
      sent := Packet(mark, ip, Tcp(tcp, 0));
    }
  }

  function ProbePacket(ip: IpHeader, tcp: TcpHeader, mark: int): Packet {
    Packet(mark, ip, Tcp(TcpHeader(Htons(CBN_PROBE_PORT), tcp.dest, tcp.source), 0))
  }

  /** The four-tuple that L reads from the accepted socket: the peer, and the original destination. */
  function TupleOfSyn(ip: IpHeader, tcp: TcpHeader): FourTuple { FourTuple(tcp.source, tcp.dest, ip.saddr, ip.daddr) }

  /** For every SYN of a tenant, the probe made from it starts R with the four-tuple, hence with the tree
      key and on the CPU, that L finds for the accepted socket. */
  lemma BothSidesMeet(ip: IpHeader, tcp: TcpHeader, mark: int, online: nat, any: Be32)
    requires mark != 0 && online > 0
    ensures var v := EgressHook(ProbePacket(ip, tcp, mark), false, online, any);
            && v.RunSyn? && v.addresses.mark == mark
            && KeyOf(v.addresses.tuple) == KeyOf(TupleOfSyn(ip, tcp))
            && v.cpu == CpuOf(KeyOf(TupleOfSyn(ip, tcp)), online) < online
  {
    assert Ntohs(Htons(CBN_PROBE_PORT)) == CBN_PROBE_PORT;
  }

  /** The same when the probe leaves through a tunnel: the record travels behind the encapsulated header,
      and the hook that sees the outer UDP packet starts R with it. */
  lemma BothSidesMeetInTunnel(ip: IpHeader, tcp: TcpHeader, mark: int, online: nat, any: Be32, outerMark: int, outer: IpHeader, elsewhere: Pointer)
    requires mark != 0 && outerMark != 0 && online > 0
    ensures var probe := ProbePacket(ip, tcp, mark);
            var v := EgressHook(probe, true, online, any);
            && v.AcceptTagged?
            && var inner := Wrapped(probe.body.tcp, v.tag, v.at, elsewhere);
               var w := EgressHook(Packet(outerMark, outer, Udp(inner)), true, online, any);
               && w.RunPreSyn? && w.addresses.mark == mark && w.addresses.nextHop == outer.daddr
               && KeyOf(w.addresses.tuple) == KeyOf(TupleOfSyn(ip, tcp))
               && w.cpu == CpuOf(KeyOf(TupleOfSyn(ip, tcp)), online) < online
  {
    assert Ntohs(Htons(CBN_PROBE_PORT)) == CBN_PROBE_PORT;
  }

  /** The packet is TCP from the probe port, of a tenant. */
  predicate IsProbe(p: Packet) { p.mark != 0 && p.body.Tcp? && p.body.tcp.source == Be16(0, 4) }

  /** The packet is UDP of a tenant around an encapsulated TCP packet from the probe port. */
  predicate IsWrappedProbe(p: Packet) {
    p.mark != 0 && p.body.Udp? && p.body.inner.TcpInIpip? && p.body.inner.source == Be16(0, 4)
  }

  lemma ProbePortIs(p: Be16)
    ensures Ntohs(p) == CBN_PROBE_PORT <==> p == Be16(0, 4)
  {
  }

  /** What the hook does with every packet there is: all but probes and encapsulated probes go on and start
      nothing; a probe on a tunnel goes on with its record; a probe elsewhere starts R, and an encapsulated
      probe with a record starts R for the next hop, and these are dropped like one without a record. */
  lemma HookOn(p: Packet, gue: bool, online: nat, any: Be32)
    requires online > 0
    ensures var v := EgressHook(p, gue, online, any);
            && (v == Accept <==> !IsProbe(p) && !IsWrappedProbe(p))
            && (v.AcceptTagged? <==> IsProbe(p) && gue)
            && (v.RunSyn? <==> IsProbe(p) && !gue)
            && (v.RunPreSyn? <==> IsWrappedProbe(p) && GetCbnProbe(p.body.inner) != Null)
            && (v == Drop <==> IsWrappedProbe(p) && GetCbnProbe(p.body.inner) == Null)
  {
    if p.body.Tcp? {
      ProbePortIs(p.body.tcp.source);
    } else if p.body.Udp? && p.body.inner.TcpInIpip? {
      ProbePortIs(p.body.inner.source);
    }
  }

  /** The record that travels or starts R: of any probe, the four-tuple with the window for the source port
      and the mark of the packet; of an encapsulated one, what the record says, and the next hop is where
      the tunnel packet goes.  R runs on the CPU of the four-tuple. */
  lemma HookRecord(p: Packet, gue: bool, online: nat, any: Be32)
    requires online > 0
    ensures var v := EgressHook(p, gue, online, any);
            && (IsProbe(p) ==>
                  var a := Addresses(FourTuple(p.body.tcp.window, p.body.tcp.dest, p.ip.saddr, p.ip.daddr), p.mark, any);
                  if gue then v == AcceptTagged(a, 20 + p.body.after) else v.RunSyn? && v.addresses == a)
            && (v.RunPreSyn? ==>
                  var a := GetCbnProbe(p.body.inner).addresses;
                  v.addresses.tuple == a.tuple && v.addresses.mark == a.mark && v.addresses.nextHop == p.ip.daddr)
            && (v.RunSyn? || v.RunPreSyn? ==> v.cpu == CpuOf(KeyOf(v.addresses.tuple), online))
  {
    HookOn(p, gue, online, any);
    if p.body.Tcp? {
      ProbePortIs(p.body.tcp.source);
    }
  }

  // ---------------------------------------------------------------- four-tuples the QP tree tells apart

  lemma KeyRoundTrip(t: FourTuple, key: seq<Byte>)
    requires |key| == RB_KEY_LENGTH
    ensures TupleOf(KeyOf(t)) == t && KeyOf(TupleOf(key)) == key
  {
  }

  lemma NoZeroIs(t: FourTuple)
    ensures 0 !in KeyOf(t)[..11] <==>
              && t.portS.hi != 0 && t.portS.lo != 0 && t.portD.hi != 0 && t.portD.lo != 0
              && t.addrS.a != 0 && t.addrS.b != 0 && t.addrS.c != 0 && t.addrS.d != 0
              && t.addrD.a != 0 && t.addrD.b != 0 && t.addrD.c != 0
  {
    var k := KeyOf(t);
    assert k[..11] == [k[0], k[1], k[2], k[3], k[4], k[5], k[6], k[7], k[8], k[9], k[10]];
  }

  /** Two flows are told apart by the tree of QPs ... */
  predicate ToldApart(t: FourTuple, u: FourTuple) { Strncmp(KeyOf(t), KeyOf(u)) != 0 }

  /** ... and a flow is told apart from every other one exactly when none of its first eleven bytes is
      zero: ports below 256, ports that are multiples of 256 and addresses with a zero in them are not. */
  lemma ToldApartIff(t: FourTuple)
    ensures (forall u :: u != t ==> ToldApart(t, u)) <==>
              && t.portS.hi != 0 && t.portS.lo != 0 && t.portD.hi != 0 && t.portD.lo != 0
              && t.addrS.a != 0 && t.addrS.b != 0 && t.addrS.c != 0 && t.addrS.d != 0
              && t.addrD.a != 0 && t.addrD.b != 0 && t.addrD.c != 0
  {
    NoZeroIs(t);
    UniqueIff(KeyOf(t));
    if 0 !in KeyOf(t)[..11] {
      forall u | u != t ensures ToldApart(t, u) {
        KeyRoundTrip(t, KeyOf(t));
        KeyRoundTrip(u, KeyOf(u));
      }
    } else {
      var b: seq<Byte> :| |b| == |KeyOf(t)| && Strncmp(KeyOf(t), b) == 0 && b != KeyOf(t);
      KeyRoundTrip(t, b);
      assert !ToldApart(t, TupleOf(b));
    }
  }

  /** All flows whose source port is below 256 are one to the tree. */
  lemma LowPortsMerge(t: FourTuple, u: FourTuple)
    requires Ntohs(t.portS) < 256 && Ntohs(u.portS) < 256
    ensures !ToldApart(t, u)
  {
    assert KeyOf(t)[0] == 0 && KeyOf(u)[0] == 0;
  }
}
