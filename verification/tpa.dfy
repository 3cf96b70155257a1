/**
 * Transparent packet aggregation (TPA): the per-bin state machine of
 * bnx2x_tpa_start / bnx2x_tpa_stop, the page fragments bnx2x_fill_frag_skb
 * attaches, and the segment size estimate of bnx2x_set_lro_mss.
 *
 * A bin is STOP when idle, START while the hardware aggregates into it, and
 * ERROR when the start could not map the bin's spare buffer; the matching
 * stop then drops the aggregation.
 */
module Tpa {
  import opened Base
  import opened RxRing
  import opened SgeMask
  import opened RxTypes

  /** RFC 791 section 3.1: an IPv4 header without options. */
  const IPV4_HLEN: int := 20
  /** RFC 8200 section 3: the fixed IPv6 header. */
  const IPV6_HLEN: int := 40
  /** RFC 793 section 3.1: a TCP header without options. */
  const TCP_HLEN: int := 20
  /**
   * RFC 7323 section 3.2: the 10-byte timestamps option, which TPA only
   * accepts preceded by two NOPs.
   */
  const TPA_TSTAMP_OPT_LEN: int := 12

  const SGE_PAGE_SIZE: int := 4096
  const U32_MOD: int := 0x1_0000_0000

  /** The header bytes of the first segment of an aggregation. */
  function HdrsLen(f: Flags): nat
  {
    ETH_HLEN + TCP_HLEN + (if f.ipv6 then IPV6_HLEN else IPV4_HLEN) +
    (if f.timestamp then TPA_TSTAMP_OPT_LEN else 0)
  }

  /**
   * bnx2x_set_lro_mss: the payload of the first segment, computed in u16.
   * An aggregation carries no IP options and no TCP option other than the
   * timestamp, so this is that segment's TCP payload.
   */
  function LroMss(f: Flags, lenOnBd: U16): (mss: U16)
    ensures lenOnBd >= HdrsLen(f) ==> mss + HdrsLen(f) == lenOnBd
    ensures lenOnBd < HdrsLen(f) ==> mss == lenOnBd + U16_MOD - HdrsLen(f)
  {
    Wrap16(lenOnBd - HdrsLen(f))
  }

  /**
   * For every first frame that holds its headers, the estimate is the frame
   * less 54 header bytes (Ethernet, IPv4 and TCP), 20 more for IPv6 and 12
   * more with timestamps, whatever the VLAN flag; so a full 1514-byte frame
   * gives the usual segment sizes 1460 and 1448 over IPv4, 1440 and 1428
   * over IPv6.
   */
  lemma LroMssOfFullFrame(f: Flags, lenOnBd: U16)
    ensures lenOnBd >= HdrsLen(f) ==>
      LroMss(f, lenOnBd) == lenOnBd - 54 - (if f.ipv6 then 20 else 0) - (if f.timestamp then 12 else 0)
    ensures lenOnBd == 1514 ==>
      LroMss(f, lenOnBd) == if f.ipv6 then (if f.timestamp then 1428 else 1440) else (if f.timestamp then 1448 else 1460)
  {
  }

  /** The SGE pages, frags and unmapped mappings bnx2x_fill_frag_skb produces. */
  datatype Fill = Fill(pages: seq<RxPage>, frags: seq<Frag>, unmapped: seq<nat>, ok: bool)

  function Min(a: int, b: int): int
  {
    if a <= b then a else b
  }

  /**
   * bnx2x_fill_frag_skb from the j-th SGE on, with `size` bytes left: each
   * SGE's page is replaced by a newly allocated one and the old page,
   * unmapped, becomes the next fragment of at most one page.  A failed
   * allocation stops the walk and fails the whole packet.
   */
  function FillFrag(pages: seq<RxPage>, sgl: seq<U16>, npages: nat, size: nat,
                    alloc: nat -> Option<RxPage>, j: nat): (f: Fill)
    requires |pages| == NUM_RX_SGE && j <= npages <= |sgl|
    ensures |f.pages| == NUM_RX_SGE && |f.frags| == |f.unmapped|
    decreases npages - j
  {
    if j == npages then Fill(pages, [], [], true)
    else
      var idx := RxSge(sgl[j]);
      var len := Min(size, SGE_PAGE_SIZE);
      match alloc(j)
      case None => Fill(pages, [], [], false)
      case Some(p) =>
        var rest := FillFrag(pages[idx := p], sgl, npages, size - len, alloc, j + 1);
        Fill(rest.pages, [Frag(pages[idx].page, len)] + rest.frags,
             [pages[idx].mapping] + rest.unmapped, rest.ok)
  }

  function SumLens(frags: seq<Frag>): nat
  {
    if |frags| == 0 then 0 else frags[0].len + SumLens(frags[1..])
  }

  /**
   * When every page is replaced, the fragments are one per SGE page, each
   * of 1 to 4096 bytes, and together they hold exactly the bytes beyond the
   * first buffer.
   */
  lemma {:induction false} FillFragLengths(pages: seq<RxPage>, sgl: seq<U16>, npages: nat, size: nat,
                                           alloc: nat -> Option<RxPage>, j: nat)
    requires |pages| == NUM_RX_SGE && j <= npages <= |sgl| && SgePages(size) == npages - j
    ensures var f := FillFrag(pages, sgl, npages, size, alloc, j);
      f.ok ==> (|f.frags| == npages - j && SumLens(f.frags) == size &&
                forall i :: 0 <= i < |f.frags| ==> 0 < f.frags[i].len <= SGE_PAGE_SIZE)
    decreases npages - j
  {
    if j < npages && alloc(j).Some? {
      var idx := RxSge(sgl[j]);
      var len := Min(size, SGE_PAGE_SIZE);
      assert SgePages(size - len) == npages - (j + 1);
      FillFragLengths(pages[idx := alloc(j).value], sgl, npages, size - len, alloc, j + 1);
      var f := FillFrag(pages, sgl, npages, size, alloc, j);
      assert f.frags[1..] == FillFrag(pages[idx := alloc(j).value], sgl, npages, size - len, alloc, j + 1).frags;
    }
  }

  /** The slots of SGEs j .. npages-1 are pairwise distinct. */
  predicate DistinctSlots(sgl: seq<U16>, j: nat, npages: nat)
    requires npages <= |sgl|
  {
    forall a, b :: j <= a < b < npages ==> RxSge(sgl[a]) != RxSge(sgl[b])
  }

  /** A slot that none of the SGEs j .. npages-1 names keeps its page. */
  lemma {:induction false} FillFragKeeps(pages: seq<RxPage>, sgl: seq<U16>, npages: nat, size: nat,
                                         alloc: nat -> Option<RxPage>, j: nat, k: SgeSlot)
    requires |pages| == NUM_RX_SGE && j <= npages <= |sgl|
    requires forall i :: j <= i < npages ==> RxSge(sgl[i]) != k
    ensures FillFrag(pages, sgl, npages, size, alloc, j).pages[k] == pages[k]
    decreases npages - j
  {
    if j < npages && alloc(j).Some? {
      FillFragKeeps(pages[RxSge(sgl[j]) := alloc(j).value], sgl, npages, size - Min(size, SGE_PAGE_SIZE), alloc, j + 1, k);
    }
  }

  /**
   * The page swap, first half: when the SGEs name distinct slots, the i-th
   * fragment is the page that was in the i-th SGE's slot, and its mapping is
   * the i-th one unmapped.
   */
  lemma {:induction false} FillFragTakes(pages: seq<RxPage>, sgl: seq<U16>, npages: nat, size: nat,
                                         alloc: nat -> Option<RxPage>, j: nat)
    requires |pages| == NUM_RX_SGE && j <= npages <= |sgl| && DistinctSlots(sgl, j, npages)
    ensures var f := FillFrag(pages, sgl, npages, size, alloc, j);
      forall a :: j <= a < j + |f.frags| ==>
        (a < npages &&
         f.frags[a - j].page == pages[RxSge(sgl[a])].page &&
         f.unmapped[a - j] == pages[RxSge(sgl[a])].mapping)
    decreases npages - j
  {
    if j < npages && alloc(j).Some? {
      var idx := RxSge(sgl[j]);
      var p1 := pages[idx := alloc(j).value];
      var size1 := size - Min(size, SGE_PAGE_SIZE);
      FillFragTakes(p1, sgl, npages, size1, alloc, j + 1);
      var f := FillFrag(pages, sgl, npages, size, alloc, j);
      var rest := FillFrag(p1, sgl, npages, size1, alloc, j + 1);
      forall a | j + 1 <= a < j + |f.frags|
        ensures a < npages && f.frags[a - j].page == pages[RxSge(sgl[a])].page &&
                f.unmapped[a - j] == pages[RxSge(sgl[a])].mapping
      {
        assert f.frags[a - j] == rest.frags[a - (j + 1)] && f.unmapped[a - j] == rest.unmapped[a - (j + 1)];
        assert RxSge(sgl[a]) != idx;
      }
    }
  }

  /**
   * The page swap, second half: when the SGEs name distinct slots, the slot
   * of every SGE that became a fragment holds the page allocated for it.
   */
  lemma {:induction false} FillFragPlaces(pages: seq<RxPage>, sgl: seq<U16>, npages: nat, size: nat,
                                          alloc: nat -> Option<RxPage>, j: nat)
    requires |pages| == NUM_RX_SGE && j <= npages <= |sgl| && DistinctSlots(sgl, j, npages)
    ensures var f := FillFrag(pages, sgl, npages, size, alloc, j);
      forall a :: j <= a < j + |f.frags| ==>
        (a < npages && alloc(a).Some? && f.pages[RxSge(sgl[a])] == alloc(a).value)
    decreases npages - j
  {
    if j < npages && alloc(j).Some? {
      var idx := RxSge(sgl[j]);
      var p1 := pages[idx := alloc(j).value];
      var size1 := size - Min(size, SGE_PAGE_SIZE);
      FillFragPlaces(p1, sgl, npages, size1, alloc, j + 1);
      FillFragKeeps(p1, sgl, npages, size1, alloc, j + 1, idx);
      var f := FillFrag(pages, sgl, npages, size, alloc, j);
      var rest := FillFrag(p1, sgl, npages, size1, alloc, j + 1);
      assert |rest.frags| == |f.frags| - 1 && f.pages == rest.pages;
    }
  }

  /** The bin a stop CQE closes, with its state set back to STOP. */
  function Stopped(s: RxState, q: nat): (r: RxState)
    requires Wf(s) && q < MAX_AGG_QS
    ensures Wf(r)
  {
    s.(bins := s.bins[q := s.bins[q].(state := TpaStop)])
  }

  /**
   * bnx2x_tpa_start for bin q with the consumed buffer at slot `cons` and
   * the producer slot `prod`: map the bin's spare buffer (None: the mapping
   * failed).  On failure the consumed buffer is posted again at `prod` and
   * the bin goes to ERROR; otherwise the spare buffer is posted at `prod`
   * and the bin takes the consumed buffer and the CQE's start data.
   */
  function TpaStarted(s: RxState, c: Cqe, cons: RxSlot, prod: RxSlot, mapping: Option<nat>): (r: RxState)
    requires Wf(s) && c.StartCqe? && c.queue < MAX_AGG_QS
    ensures Wf(r)
  {
    var bin := s.bins[c.queue];
    match mapping
    case None =>
      s.(buf := s.buf[prod := s.buf[cons]], bins := s.bins[c.queue := bin.(state := TpaError)])
    case Some(m) =>
      var buf1 := s.buf[prod := RxBuf(bin.firstBuf.skb, m)];
      s.(buf := buf1,
         bins := s.bins[c.queue := AggInfo(TpaStart, buf1[cons], c.flags, c.vlanTag, c.lenOnBd, c.pad)])
  }

  /**
   * The transitions of bnx2x_tpa_start: the bin ends in START exactly when
   * the spare buffer could be mapped, and then holds the consumed buffer
   * while its spare buffer is posted at the producer slot; otherwise it ends
   * in ERROR with its spare buffer, and the consumed buffer is posted again.
   * Only the bin and the producer slot change.
   */
  lemma TpaStartTransition(s: RxState, c: Cqe, cons: RxSlot, prod: RxSlot, mapping: Option<nat>)
    requires Wf(s) && c.StartCqe? && c.queue < MAX_AGG_QS && cons != prod
    ensures var r := TpaStarted(s, c, cons, prod, mapping);
      && (r.bins[c.queue].state == TpaStart <==> mapping.Some?)
      && (r.bins[c.queue].state == TpaError <==> mapping.None?)
      && (mapping.Some? ==>
            (r.bins[c.queue].firstBuf == s.buf[cons] &&
             r.buf[prod] == RxBuf(s.bins[c.queue].firstBuf.skb, mapping.value) &&
             r.bins[c.queue].lenOnBd == c.lenOnBd))
      && (mapping.None? ==>
            (r.bins[c.queue].firstBuf == s.bins[c.queue].firstBuf && r.buf[prod] == s.buf[cons]))
      && (forall i :: 0 <= i < NUM_RX_BD && i != prod ==> r.buf[i] == s.buf[i])
      && (forall q :: 0 <= q < MAX_AGG_QS && q != c.queue ==> r.bins[q] == s.bins[q])
      && r.pages == s.pages && r.sge == s.sge && r.out == s.out
      && r.unmapped == s.unmapped && r.freed == s.freed
  {
  }

  /**
   * A start CQE for a bin that is not in STOP is not refused: the outcome
   * does not depend on the state the bin was in.
   */
  lemma TpaStartIgnoresState(s: RxState, c: Cqe, cons: RxSlot, prod: RxSlot, mapping: Option<nat>, st: TpaState)
    requires Wf(s) && c.StartCqe? && c.queue < MAX_AGG_QS
    ensures var s' := s.(bins := s.bins[c.queue := s.bins[c.queue].(state := st)]);
      TpaStarted(s', c, cons, prod, mapping) == TpaStarted(s, c, cons, prod, mapping)
  {
    var s' := s.(bins := s.bins[c.queue := s.bins[c.queue].(state := st)]);
    assert s'.bins[c.queue := s.bins[c.queue].(state := TpaError)] == s.bins[c.queue := s.bins[c.queue].(state := TpaError)];
  }

  /** The bytes an aggregation placed beyond its first buffer, as the u32 frag_size. */
  function FragSize(c: Cqe, bin: AggInfo): nat
    requires c.StopCqe?
  {
    (c.pktLen - bin.lenOnBd) % U32_MOD
  }

  /**
   * The aggregate handed to the stack, or the freed skb, once the stop found
   * a new skb and the PF_RING hook did not claim the packet.  An SGE list
   * shorter than the pages to fill is treated as a failed fill.
   */
  function Aggregated(s: RxState, c: Cqe, e: RxEnv): (r: RxState)
    requires Wf(s) && c.StopCqe? && c.queue < MAX_AGG_QS
    ensures Wf(r) && r.bins == s.bins && r.buf == s.buf && r.sge == s.sge
  {
    var bin := s.bins[c.queue];
    var size := FragSize(c, bin);
    var npages := SgePages(size);
    if npages > |c.sgl| then s.(freed := s.freed + [bin.firstBuf.skb])
    else
      var f := FillFrag(s.pages, c.sgl, npages, size, e.page, 0);
      var s1 := s.(pages := f.pages, unmapped := s.unmapped + f.unmapped);
      if f.ok then
        var gso := if size != 0 then Some(LroMss(bin.flags, bin.lenOnBd)) else None;
        var vlan := if bin.flags.vlan then Some(bin.vlanTag) else None;
        s1.(out := s1.out + [RxPkt(bin.firstBuf.skb, bin.pad, bin.lenOnBd, f.frags, gso, vlan, Stack)])
      else s1.(freed := s1.freed + [bin.firstBuf.skb])
  }

  /**
   * bnx2x_tpa_stop for the bin a stop CQE names, with a new skb e.skb: the
   * bin returns to STOP.  A bin in ERROR drops the aggregation.  Otherwise
   * the bin's buffer is unmapped; with no new skb the aggregation is dropped
   * and the bin keeps its buffer; with one, the aggregate goes to the
   * PF_RING hook if it claims it, or else gets its fragments and goes to the
   * stack (or is freed when a page could not be replaced), and the new skb
   * becomes the bin's spare buffer.
   */
  function TpaStopped(s: RxState, c: Cqe, e: RxEnv): (r: RxState)
    requires Wf(s) && c.StopCqe? && c.queue < MAX_AGG_QS
    ensures Wf(r)
  {
    var bin := s.bins[c.queue];
    var s1 := Stopped(s, c.queue);
    if bin.state == TpaError then s1
    else
      var s2 := s1.(unmapped := s1.unmapped + [bin.firstBuf.mapping]);
      if e.skb.None? then s2
      else
        var s3 := if e.claimed
          then s2.(out := s2.out + [RxPkt(bin.firstBuf.skb, bin.pad, bin.lenOnBd, [], None, None, PfRing)])
          else Aggregated(s2, c, e);
        s3.(bins := s3.bins[c.queue := s3.bins[c.queue].(firstBuf := bin.firstBuf.(skb := e.skb))])
  }

  /**
   * What every stop does: the bin is back in STOP, the ring buffers and SGE
   * bookkeeping are untouched, the other bins are unchanged, and at most one
   * packet is handed on or freed, appended after the earlier ones.  A bin in
   * ERROR, or a stop without a new skb, hands nothing on and leaves the bin's
   * buffer in place.
   */
  lemma TpaStopTransition(s: RxState, c: Cqe, e: RxEnv)
    requires Wf(s) && c.StopCqe? && c.queue < MAX_AGG_QS
    ensures var r := TpaStopped(s, c, e);
      var bin := s.bins[c.queue];
      && r.bins[c.queue].state == TpaStop
      && r.buf == s.buf && r.sge == s.sge
      && (forall q :: 0 <= q < MAX_AGG_QS && q != c.queue ==> r.bins[q] == s.bins[q])
      && s.out <= r.out && s.freed <= r.freed
      && |r.out| + |r.freed| <= |s.out| + |s.freed| + 1
      && (bin.state == TpaError ==> r == Stopped(s, c.queue))
      && (bin.state != TpaError && e.skb.None? ==>
            (r.out == s.out && r.freed == s.freed && r.bins[c.queue].firstBuf == bin.firstBuf &&
             r.unmapped == s.unmapped + [bin.firstBuf.mapping]))
      && (bin.state != TpaError && e.skb.Some? ==> r.bins[c.queue].firstBuf.skb == e.skb)
  {
  }

  /**
   * A completed aggregation reaches the stack whole: its skb is the bin's
   * buffer, the linear part holds the length on the first BD and the
   * fragments the remaining pktLen - lenOnBd bytes, one per SGE page, and
   * the segment size hint is set exactly when there are such bytes.
   */
  lemma TpaStopDelivers(s: RxState, c: Cqe, e: RxEnv)
    requires Wf(s) && c.StopCqe? && c.queue < MAX_AGG_QS
    requires s.bins[c.queue].lenOnBd <= c.pktLen
    ensures var r := TpaStopped(s, c, e);
      var bin := s.bins[c.queue];
      |r.out| == |s.out| + 1 && r.out[|s.out|].sink == Stack ==>
        var p := r.out[|s.out|];
        && p.skb == bin.firstBuf.skb && p.len == bin.lenOnBd
        && p.len + SumLens(p.frags) == c.pktLen
        && |p.frags| == SgePages(c.pktLen - bin.lenOnBd)
        && (p.gsoSize.Some? <==> c.pktLen != bin.lenOnBd)
        && (p.gsoSize.Some? ==> p.gsoSize.value == LroMss(bin.flags, bin.lenOnBd))
  {
    var bin := s.bins[c.queue];
    var r := TpaStopped(s, c, e);
    if |r.out| == |s.out| + 1 && r.out[|s.out|].sink == Stack {
      var size := FragSize(c, bin);
      assert size == c.pktLen - bin.lenOnBd;
      var npages := SgePages(size);
      var s2 := Stopped(s, c.queue).(unmapped := s.unmapped + [bin.firstBuf.mapping]);
      FillFragLengths(s2.pages, c.sgl, npages, size, e.page, 0);
    }
  }
}
