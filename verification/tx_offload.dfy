/**
 * Per-packet transmit decisions that only read the packet: the offload
 * classification (bnx2x_xmit_type), the start-descriptor checksum flags
 * (bnx2x_set_sbd_csum), the parse-descriptor header lengths
 * (bnx2x_set_pbd_csum, bnx2x_set_pbd_csum_e2) and the linearisation test
 * (bnx2x_pkt_req_lin).
 */
module TxOffload {
  import opened Base

  datatype MacType = Unicast | Multicast | Broadcast

  /**
   * The parts of a socket buffer the transmit path reads.  Offsets are
   * measured from skb->data; fragment sizes are the page fragments in order.
   */
  datatype Skb = Skb(
    id: nat,               // identity of the buffer, for the free log
    headLen: nat,          // skb_headlen: bytes in the linear part
    frags: seq<nat>,       // sizes of the page fragments
    csumPartial: bool,     // ip_summed == CHECKSUM_PARTIAL
    isIpv6: bool,          // vlan_get_protocol() is IPv6
    l4IsTcp: bool,         // IPv4 protocol or IPv6 next header is TCP
    gsoTcpV4: bool,        // gso_type has SKB_GSO_TCPV4
    gsoTcpV6: bool,        // skb_is_gso_v6
    gsoSize: U16,          // gso_size: the segment size
    netOff: nat,           // network header offset
    transOff: nat,         // transport header offset
    tcpHdrLen: nat,        // tcp_hdrlen
    macType: MacType,      // class of the destination address
    vlanTag: Option<U16>,  // tag to insert out of band, if any
    encap8021Q: bool,      // skb->protocol is 802.1Q
    v6NextIsV6: bool)      // the IPv6 next header is IPv6 (extension case)
  {
    /** Bytes up to the end of the TCP header. */
    function TcpHlen(): nat { transOff + tcpHdrLen }

    /** The same packet with every fragment pulled into the linear part. */
    function Linearized(): Skb { this.(headLen := headLen + Sum(frags), frags := []) }
  }

  function Sum(s: seq<nat>): nat
  {
    if |s| == 0 then 0 else s[0] + Sum(s[1..])
  }

  lemma {:induction false} SumSnoc(s: seq<nat>, x: nat)
    ensures Sum(s + [x]) == Sum(s) + x
  {
    if |s| > 0 {
      assert (s + [x])[1..] == s[1..] + [x];
      SumSnoc(s[1..], x);
    }
  }

  /** Sum over a prefix, extended by one element; no prefix sums past the whole. */
  lemma {:induction false} SumPrefix(s: seq<nat>, i: nat)
    requires i < |s|
    ensures Sum(s[..i + 1]) == Sum(s[..i]) + s[i] && Sum(s[..i + 1]) <= Sum(s)
  {
    assert s[..i + 1] == s[..i] + [s[i]];
    SumSnoc(s[..i], s[i]);
    SumSplit(s, i + 1);
  }

  lemma {:induction false} SumSplit(s: seq<nat>, i: nat)
    requires i <= |s|
    ensures Sum(s) == Sum(s[..i]) + Sum(s[i..])
    decreases i
  {
    if i > 0 {
      SumSplit(s, i - 1);
      assert s[i - 1..] == [s[i - 1]] + s[i..];
      assert s[..i] == s[..i - 1] + [s[i - 1]];
      SumSnoc(s[..i - 1], s[i - 1]);
    } else {
      assert s[0..] == s;
    }
  }

  /** The offload classes of bnx2x_xmit_type, one flag per XMIT_* bit. */
  datatype XmitType = XmitType(csumV4: bool, csumV6: bool, csumTcp: bool, gsoV4: bool, gsoV6: bool)
  {
    predicate Csum() { csumV4 || csumV6 }
    predicate Gso() { gsoV4 || gsoV6 }
  }

  const PLAIN := XmitType(false, false, false, false, false)

  function XmitTypeOf(skb: Skb): (x: XmitType)
    ensures x.Gso() <==> skb.gsoTcpV4 || skb.gsoTcpV6
    ensures x.gsoV4 <==> skb.gsoTcpV4
    ensures x.gsoV4 ==> !x.gsoV6 && x.csumV4 && x.csumTcp
    ensures x.gsoV6 ==> x.csumV6 && x.csumTcp
    ensures x.csumTcp <==> (skb.csumPartial && skb.l4IsTcp) || x.Gso()
    ensures skb.csumPartial ==> (if skb.isIpv6 then x.csumV6 else x.csumV4)
    ensures !skb.csumPartial && !x.Gso() ==> x == PLAIN
    ensures x.Csum() <==> skb.csumPartial || x.Gso()
  {
    var rc :=
      if !skb.csumPartial then PLAIN
      else if skb.isIpv6 then XmitType(false, true, skb.l4IsTcp, false, false)
      else XmitType(true, false, skb.l4IsTcp, false, false);
    if skb.gsoTcpV4 then rc.(gsoV4 := true, csumV4 := true, csumTcp := true)
    else if skb.gsoTcpV6 then rc.(gsoV6 := true, csumTcp := true, csumV6 := true)
    else rc
  }

  /** Flags of a transmit start descriptor. */
  datatype BdFlags = BdFlags(
    startBd: bool, l4Csum: bool, ipCsum: bool, ipv6: bool, isUdp: bool, swLso: bool, outbandVlan: bool)

  const START_FLAGS := BdFlags(true, false, false, false, false, false, false)

  /** bnx2x_set_sbd_csum: ask for L4 checksum, IPv4 header checksum or IPv6, and mark UDP. */
  function SbdCsum(f: BdFlags, x: XmitType): (g: BdFlags)
    ensures g.l4Csum
    ensures g.ipCsum == (f.ipCsum || x.csumV4) && g.ipv6 == (f.ipv6 || !x.csumV4)
    ensures g.isUdp == (f.isUdp || !x.csumTcp)
    ensures g.startBd == f.startBd && g.swLso == f.swLso && g.outbandVlan == f.outbandVlan
  {
    f.(l4Csum := true,
       ipCsum := f.ipCsum || x.csumV4,
       ipv6 := f.ipv6 || !x.csumV4,
       isUdp := f.isUdp || !x.csumTcp)
  }

  /** Bytes from skb->data to the end of the L4 header (TCP, or the 8-byte UDP header). */
  function L4End(skb: Skb, x: XmitType): nat
  {
    skb.transOff + (if x.csumTcp then skb.tcpHdrLen else 8)
  }

  /** Header offsets the parse descriptors express in halfwords are even. */
  predicate EvenOffsets(skb: Skb)
  {
    skb.netOff % 2 == 0 && skb.transOff % 2 == 0 && skb.tcpHdrLen % 4 == 0 && skb.netOff <= skb.transOff
  }

  /** Checksum fields of the 57710/57711 parse descriptor (eth_tx_parse_bd_e1x). */
  datatype PbdE1x = PbdE1x(hlenW: U8, llcSnap: bool, ipHlenW: U8, totalHlenW: U16)

  /**
   * bnx2x_set_pbd_csum: the parse descriptor's lengths in 16-bit words and the
   * header length in bytes that the caller uses to split the first BD.  The
   * running length is a u8, as in the source.
   */
  function PbdCsumE1x(skb: Skb, x: XmitType): (PbdE1x, U8)
  {
    var h0 := Wrap8(skb.netOff / 2);
    var ipW := Wrap8((skb.transOff - skb.netOff) / 2);
    var h1 := Wrap8(h0 + ipW);
    var h2 := Wrap8(h1 + (if x.csumTcp then skb.tcpHdrLen / 2 else 4));
    (PbdE1x(h0, skb.encap8021Q, ipW, h2), Wrap8(h2 * 2))
  }

  /**
   * For headers that fit the u8 running length, the halfword fields of the
   * 57710/57711 parse descriptor describe the packet's headers exactly and the
   * returned length is the end of the L4 header.
   */
  lemma {:induction false} PbdE1xLengths(skb: Skb, x: XmitType)
    requires EvenOffsets(skb) && L4End(skb, x) < U8_MOD
    ensures var r := PbdCsumE1x(skb, x);
      r.1 == L4End(skb, x) && r.0.ipHlenW * 2 == skb.transOff - skb.netOff && r.0.hlenW * 2 == skb.netOff
      && r.0.totalHlenW * 2 == L4End(skb, x)
  {
    var h0 := skb.netOff / 2;
    var ipW := (skb.transOff - skb.netOff) / 2;
    var l4W := if x.csumTcp then skb.tcpHdrLen / 2 else 4;
    assert h0 * 2 == skb.netOff && ipW * 2 == skb.transOff - skb.netOff && l4W * 2 == L4End(skb, x) - skb.transOff;
    assert (h0 + ipW + l4W) * 2 == L4End(skb, x);
  }

  /** Checksum fields of the 57712 parse descriptor's parsing_data word. */
  datatype PbdE2 = PbdE2(tcpHdrStartW: nat, tcpHdrLenDw: nat)

  /** bnx2x_set_pbd_csum_e2: transport header start in words, TCP header length in dwords. */
  function PbdCsumE2(skb: Skb, x: XmitType): (r: (PbdE2, U8))
    ensures r.1 == Wrap8(L4End(skb, x))
    ensures EvenOffsets(skb) ==> r.0.tcpHdrStartW * 2 == skb.transOff
    ensures EvenOffsets(skb) && x.csumTcp ==> r.0.tcpHdrLenDw * 4 == skb.tcpHdrLen
    ensures !x.csumTcp ==> r.0.tcpHdrLenDw == 0
  {
    var pd := PbdE2(skb.transOff / 2, if x.csumTcp then skb.tcpHdrLen / 4 else 0);
    (pd, Wrap8(L4End(skb, x)))
  }

  /** Both chip families report the same header length to the split decision. */
  lemma {:induction false} PbdHlenAgree(skb: Skb, x: XmitType)
    requires EvenOffsets(skb) && L4End(skb, x) < U8_MOD
    ensures PbdCsumE1x(skb, x).1 == PbdCsumE2(skb, x).1 == L4End(skb, x)
  {
    PbdE1xLengths(skb, x);
  }

  // ---------------------------------------------------------------------
  // Linearisation (bnx2x_pkt_req_lin)

  /**
   * The byte counts the firmware fetches one BD at a time: the payload left in
   * the linear part after the headers, if any, then every fragment.
   */
  function LinChunks(skb: Skb): seq<nat>
  {
    var firstBdSz := skb.headLen - skb.TcpHlen();
    (if firstBdSz > 0 then [firstBdSz] else []) + skb.frags
  }

  /** Bytes in the w chunks starting at chunk i. */
  function WindowSum(s: seq<nat>, i: nat, w: nat): nat
    requires i + w <= |s|
  {
    Sum(s[i..i + w])
  }

  /** Some run of w consecutive chunks carries fewer than mss bytes. */
  predicate ShortWindow(s: seq<nat>, w: nat, mss: nat)
  {
    exists i: nat :: i + w <= |s| && WindowSum(s, i, w) < mss
  }

  /**
   * The linearisation rule: with fewer than w fragments the packet always
   * fits; a longer non-GSO packet never does; a longer GSO packet fits unless
   * some window of w consecutive chunks holds less than one segment.
   */
  predicate ReqLin(skb: Skb, x: XmitType, w: nat)
  {
    |skb.frags| >= w && (!x.Gso() || ShortWindow(LinChunks(skb), w, skb.gsoSize))
  }

  /**
   * bnx2x_pkt_req_lin, with the running window sum of the source.  The stack
   * puts the whole TCP header of a GSO packet in the linear part.
   */
  method PktReqLin(skb: Skb, x: XmitType, maxFetchBd: nat) returns (toCopy: bool)
    requires maxFetchBd >= 4
    requires x.Gso() ==> skb.TcpHlen() <= skb.headLen
    ensures toCopy == ReqLin(skb, x, maxFetchBd - 3)
  {
    var w := maxFetchBd - 3;
    var frags := skb.frags;
    toCopy := false;
    if |frags| < w {
      return;
    }
    if !x.Gso() {
      toCopy := true;
      return;
    }
    var mss := skb.gsoSize;
    var numWnds := |frags| - w;
    var firstBdSz := skb.headLen - skb.TcpHlen();
    var wndSum := firstBdSz;
    var fragIdx := 0;
    while fragIdx < w - 1
      invariant 0 <= fragIdx <= w - 1
      invariant wndSum == firstBdSz + Sum(frags[..fragIdx])
    {
      assert frags[..fragIdx + 1] == frags[..fragIdx] + [frags[fragIdx]];
      SumSnoc(frags[..fragIdx], frags[fragIdx]);
      wndSum := wndSum + frags[fragIdx];
      fragIdx := fragIdx + 1;
    }
    ghost var chunks := LinChunks(skb);
    ghost var off := if firstBdSz > 0 then 1 else 0;
    if firstBdSz > 0 {
      HeadWindow(skb, w);
      if wndSum < mss {
        toCopy := true;
        return;
      }
      wndSum := wndSum - firstBdSz;
    }
    assert frags[0..w - 1] == frags[..w - 1];
    var wndIdx := 0;
    while wndIdx <= numWnds
      invariant 0 <= wndIdx <= numWnds + 1
      invariant wndSum == WindowSum(frags, wndIdx, w - 1)
      invariant LongWindows(chunks, w, mss, wndIdx + off)
    {
      var last := frags[wndIdx + w - 1];
      SlideIn(frags, wndIdx, w);
      FragWindow(skb, wndIdx, w);
      wndSum := wndSum + last;
      if wndSum < mss {
        toCopy := true;
        return;
      }
      LongWindowsStep(chunks, w, mss, wndIdx + off);
      SlideOut(frags, wndIdx, w);
      wndSum := wndSum - frags[wndIdx];
      wndIdx := wndIdx + 1;
    }
  }

  /** Every window of w chunks that starts before chunk k carries at least mss bytes. */
  ghost predicate LongWindows(s: seq<nat>, w: nat, mss: nat, k: nat)
  {
    forall i: nat :: i + w <= |s| && i < k ==> WindowSum(s, i, w) >= mss
  }

  lemma LongWindowsStep(s: seq<nat>, w: nat, mss: nat, k: nat)
    requires LongWindows(s, w, mss, k) && k + w <= |s| && WindowSum(s, k, w) >= mss
    ensures LongWindows(s, w, mss, k + 1)
  {
  }

  lemma SlideIn(s: seq<nat>, i: nat, w: nat)
    requires 1 <= w && i + w <= |s|
    ensures WindowSum(s, i, w) == WindowSum(s, i, w - 1) + s[i + w - 1]
  {
    assert s[i..i + w] == s[i..i + w - 1] + [s[i + w - 1]];
    SumSnoc(s[i..i + w - 1], s[i + w - 1]);
  }

  lemma SlideOut(s: seq<nat>, i: nat, w: nat)
    requires 1 <= w && i + w <= |s|
    ensures WindowSum(s, i + 1, w - 1) == WindowSum(s, i, w) - s[i]
  {
    assert s[i + 1..i + w] == s[i..i + w][1..];
  }

  /** The first window of the chunks is the linear payload and the first w-1 fragments. */
  lemma HeadWindow(skb: Skb, w: nat)
    requires 1 <= w <= |skb.frags| && skb.headLen > skb.TcpHlen()
    ensures WindowSum(LinChunks(skb), 0, w) == skb.headLen - skb.TcpHlen() + Sum(skb.frags[..w - 1])
  {
    var chunks := LinChunks(skb);
    assert chunks[0..w] == [skb.headLen - skb.TcpHlen()] + skb.frags[..w - 1];
    assert chunks[0..w][1..] == skb.frags[..w - 1];
  }

  /** Fragment window j is chunk window j, shifted by one when the linear part has payload. */
  lemma FragWindow(skb: Skb, j: nat, w: nat)
    requires j + w <= |skb.frags|
    ensures var off := if skb.headLen - skb.TcpHlen() > 0 then 1 else 0;
      j + off + w <= |LinChunks(skb)| && WindowSum(LinChunks(skb), j + off, w) == WindowSum(skb.frags, j, w)
  {
    var off := if skb.headLen - skb.TcpHlen() > 0 then 1 else 0;
    assert LinChunks(skb)[j + off..j + off + w] == skb.frags[j..j + w];
  }

  /** A sanity example, not a property of the driver: with a window of 3 and a segment of 1000, a window of 999 bytes forces a copy. */
  lemma LinearizeExample(skb: Skb)
    requires skb.frags == [900, 50, 49, 1000] && skb.headLen == skb.TcpHlen()
    requires skb.gsoSize == 1000
    ensures ReqLin(skb, XmitType(true, false, true, true, false), 3)
  {
    var s := LinChunks(skb);
    assert s == skb.frags;
    assert s[0..3] == [900, 50, 49];
    assert Sum([49]) == 49 && Sum([50, 49]) == 99;
    assert WindowSum(s, 0, 3) == 999;
  }
}
