/**
 * The values the receive side of a fast-path queue works on: ring buffers,
 * SGE pages, the TPA aggregation bins, completion entries (CQEs) as the
 * driver reads them, and the packets it hands on.
 *
 * Buffers and pages are named by abstract numbers: an skb reference, a page
 * and a DMA mapping token.  The hardware descriptor that carries a buffer's
 * bus address is merged with the driver's record of that buffer.
 */
module RxTypes {
  import opened Base
  import opened RxRing
  import opened SgeMask

  /** ETH_MAX_AGGREGATION_QUEUES_E1H_E2: the number of TPA bins per queue. */
  const MAX_AGG_QS: int := 64

  /** A receive buffer (sw_rx_bd): the skb, which may be NULL, and its mapping. */
  datatype RxBuf = RxBuf(skb: Option<nat>, mapping: nat)

  /** An SGE page (sw_rx_page) and its mapping. */
  datatype RxPage = RxPage(page: nat, mapping: nat)

  datatype TpaState = TpaStop | TpaStart | TpaError

  /**
   * The tests bnx2x_cmn.c makes on a CQE's parsing flags: IPv6 over
   * Ethernet, a TCP timestamp option present, a VLAN tag present.  The flag
   * bit positions belong to the firmware interface, which is not part of
   * this model.
   */
  datatype Flags = Flags(ipv6: bool, timestamp: bool, vlan: bool)

  /** A TPA bin (bnx2x_agg_info): its state, its spare buffer and the start data. */
  datatype AggInfo = AggInfo(state: TpaState, firstBuf: RxBuf, flags: Flags,
                             vlanTag: U16, lenOnBd: U16, pad: U8)

  /** A page fragment attached to an skb. */
  datatype Frag = Frag(page: nat, len: nat)

  /** Who received a packet: the network stack or the PF_RING hook. */
  datatype Sink = Stack | PfRing

  /**
   * A packet handed on: its skb, the headroom reserved, the linear length,
   * the page fragments, the segment size hint and the VLAN tag put on it.
   */
  datatype RxPkt = RxPkt(skb: Option<nat>, pad: nat, len: nat, frags: seq<Frag>,
                         gsoSize: Option<U16>, vlan: Option<U16>, sink: Sink)

  /**
   * A completion as bnx2x_rx_int reads it.  A TPA stop CQE is also read
   * through its fast-path view by bnx2x_update_sge_prod, which takes the
   * length on the BD from that view (fpLenOnBd).
   */
  datatype Cqe =
    | SlowPathCqe
    | StartCqe(queue: nat, flags: Flags, vlanTag: U16, lenOnBd: U16, pad: U8)
    | StopCqe(queue: nat, pktLen: U16, fpLenOnBd: U16, sgl: seq<U16>)
    | FastCqe(error: bool, flags: Flags, vlanTag: U16, pktLen: U16, pad: U8)

  /**
   * What the world answers while one CQE is handled: a new skb
   * (netdev_alloc_skb, or the skb of bnx2x_alloc_rx_skb), a DMA mapping
   * (None when mapping fails), the page bnx2x_alloc_rx_sge gets for the j-th
   * SGE of an aggregation, and whether the PF_RING hook claims the packet.
   */
  datatype RxEnv = RxEnv(skb: Option<nat>, mapping: Option<nat>,
                         page: nat -> Option<RxPage>, claimed: bool)

  /**
   * The receive state of one queue: buffer ring, page ring, TPA bins, SGE
   * bookkeeping, and what has been handed on, unmapped and freed so far.
   */
  datatype RxState = RxState(buf: seq<RxBuf>, pages: seq<RxPage>, bins: seq<AggInfo>,
                             sge: SgeRing, out: seq<RxPkt>, unmapped: seq<nat>,
                             freed: seq<Option<nat>>)

  predicate Wf(s: RxState)
  {
    |s.buf| == NUM_RX_BD && |s.pages| == NUM_RX_SGE && |s.bins| == MAX_AGG_QS &&
    WellFormed(s.sge.mask)
  }

  /**
   * What bnx2x_rx_int relies on the firmware for: a bin number within the
   * bin table, and for a stop CQE a fast-path length on the BD no longer
   * than the packet and an SGE list covering the pages beyond it.
   */
  predicate CqeOk(c: Cqe)
  {
    match c
    case SlowPathCqe => true
    case StartCqe(queue, _, _, _, _) => queue < MAX_AGG_QS
    case StopCqe(queue, pktLen, fpLenOnBd, sgl) =>
      queue < MAX_AGG_QS && fpLenOnBd <= pktLen && SgeLen(pktLen, fpLenOnBd) <= |sgl|
    case FastCqe(_, _, _, _, _) => true
  }
}
