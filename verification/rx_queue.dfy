/**
 * The receive side of one fast-path queue (struct bnx2x_fastpath) as a
 * class whose methods update its rings in place, each proved to do what
 * the value-level functions of Tpa, SgeMask and RxSpec say.
 */
module RxQueue {
  import opened Base
  import opened RxRing
  import opened SgeMask
  import opened RxTypes
  import opened Tpa
  import opened RxSpec

  /** The walk's refilled words grow by the word the walk reaches next. */
  lemma InWalkGrow(first: Word, n: nat, v: Word)
    requires n < MASK_LEN
    ensures InWalk(first, n + 1, v) <==> InWalk(first, n, v) || v == WordAfter(first, n)
  {
    var i := (v - first) % MASK_LEN;
    assert WordAfter(first, i) == v by {
      if v >= first {
        assert i == v - first;
      } else {
        assert i == v - first + MASK_LEN;
      }
    }
    InWalkAfter(first, n + 1, i);
    InWalkAfter(first, n, i);
    if v == WordAfter(first, n) {
      InWalkAfter(first, n + 1, n);
    }
  }

  /** A walk that has refilled all 16 words has refilled its first word. */
  lemma FullWalkRefilled(m: seq<bool>, first: Word)
    requires WellFormed(m)
    ensures !WordUsed(Refilled(m, first, MASK_LEN), WordAfter(first, MASK_LEN))
  {
    var r := Refilled(m, first, MASK_LEN);
    assert WordAfter(first, MASK_LEN) == first;
    assert (ELEM_SZ * first) / ELEM_SZ == first;
    assert r[ELEM_SZ * first];
  }

  /** The word the walk reaches next is not yet refilled, so it reads as in m. */
  lemma RefilledWordUnused(m: seq<bool>, first: Word, n: nat)
    requires WellFormed(m) && n < MASK_LEN
    ensures WordUsed(Refilled(m, first, n), WordAfter(first, n)) <==> WordUsed(m, WordAfter(first, n))
  {
    var w := WordAfter(first, n);
    InWalkAfter(first, n, n);
    forall b | ELEM_SZ * w <= b < ELEM_SZ * w + ELEM_SZ
      ensures Refilled(m, first, n)[b] == m[b]
    {
      assert b / ELEM_SZ == w;
    }
  }

  /** NEXT_SGE_MASK_ELEM takes the walk one word further. */
  lemma WordAfterNext(first: Word, n: nat)
    ensures NextElem(WordAfter(first, n)) == WordAfter(first, n + 1)
  {
    var q := (first + n) / MASK_LEN;
    var r := (first + n) % MASK_LEN;
    assert first + n + 1 == MASK_LEN * q + (r + 1);
    if r + 1 < MASK_LEN {
      assert WordAfter(first, n + 1) == r + 1;
    } else {
      assert first + n + 1 == MASK_LEN * (q + 1);
      assert WordAfter(first, n + 1) == 0;
    }
  }

  /** Setting every entry of the next word refills one word more. */
  lemma RefilledGrows(m: seq<bool>, after: seq<bool>, first: Word, n: nat)
    requires WellFormed(m) && WellFormed(after) && n < MASK_LEN
    requires var w := WordAfter(first, n);
      forall j :: 0 <= j < NUM_RX_SGE ==>
        after[j] == (if ELEM_SZ * w <= j < ELEM_SZ * w + ELEM_SZ then true else Refilled(m, first, n)[j])
    ensures after == Refilled(m, first, n + 1)
  {
    var w := WordAfter(first, n);
    forall j | 0 <= j < NUM_RX_SGE
      ensures after[j] == Refilled(m, first, n + 1)[j]
    {
      InWalkGrow(first, n, j / ELEM_SZ);
      assert (ELEM_SZ * w <= j < ELEM_SZ * w + ELEM_SZ) == (j / ELEM_SZ == w);
    }
  }

  /** The fill so far (frags, unmapped) followed by the fill of the rest. */
  function Prepend(frags: seq<Frag>, unmapped: seq<nat>, f: Fill): Fill
  {
    Fill(f.pages, frags + f.frags, unmapped + f.unmapped, f.ok)
  }

  lemma PrependTwice(frags: seq<Frag>, unmapped: seq<nat>, x: Frag, y: nat, f: Fill)
    ensures Prepend(frags, unmapped, Fill(f.pages, [x] + f.frags, [y] + f.unmapped, f.ok)) ==
            Prepend(frags + [x], unmapped + [y], f)
  {
    assert (frags + [x]) + f.frags == frags + ([x] + f.frags);
    assert (unmapped + [y]) + f.unmapped == unmapped + ([y] + f.unmapped);
  }

  /** One page of bnx2x_fill_frag_skb's loop, when the allocation succeeds. */
  lemma FillFragTurn(pages: seq<RxPage>, sgl: seq<U16>, npages: nat, size: nat,
                     alloc: nat -> Option<RxPage>, j: nat)
    requires |pages| == NUM_RX_SGE && j < npages <= |sgl| && alloc(j).Some?
    ensures var idx := RxSge(sgl[j]);
      var len := Min(size, SGE_PAGE_SIZE);
      var rest := FillFrag(pages[idx := alloc(j).value], sgl, npages, size - len, alloc, j + 1);
      FillFrag(pages, sgl, npages, size, alloc, j) ==
        Fill(rest.pages, [Frag(pages[idx].page, len)] + rest.frags, [pages[idx].mapping] + rest.unmapped, rest.ok)
  {
  }

  class FastPath {
    const bufRing: array<RxBuf>   // rx_buf_ring, merged with rx_desc_ring
    const pageRing: array<RxPage> // rx_page_ring, merged with rx_sge_ring
    const sgeMask: array<bool>    // sge_mask, one entry per bit
    const tpaInfo: array<AggInfo> // tpa_info
    var rxBdCons: U16             // rx_bd_cons
    var rxBdProd: U16             // rx_bd_prod
    var rxCompCons: U16           // rx_comp_cons
    var rxCompProd: U16           // rx_comp_prod
    var rxSgeProd: U16            // rx_sge_prod
    var lastMaxSge: U16           // last_max_sge
    var out: seq<RxPkt>           // every packet handed on, in order
    var unmapped: seq<nat>        // every DMA mapping released, in order
    var freed: seq<Option<nat>>   // every skb dropped, in order

    ghost predicate Valid()
      reads this
    {
      bufRing.Length == NUM_RX_BD && pageRing.Length == NUM_RX_SGE &&
      sgeMask.Length == NUM_RX_SGE && tpaInfo.Length == MAX_AGG_QS &&
      !IsRcqNextPage(rxCompCons)
    }

    /** The receive state as a value. */
    ghost function Snap(): RxState
      reads this, bufRing, pageRing, sgeMask, tpaInfo
    {
      RxState(bufRing[..], pageRing[..], tpaInfo[..], SgeRing(sgeMask[..], rxSgeProd, lastMaxSge),
              out, unmapped, freed)
    }

    /** The loop indices bnx2x_rx_int starts from. */
    ghost function Idx(): RxIdx
      reads this
    {
      RxIdx(rxBdCons, rxBdProd, rxBdProd, rxCompCons, rxCompProd)
    }

    /** An empty queue, as after allocation and init. */
    constructor ()
      ensures Valid() && Idx() == RxIdx(0, 0, 0, 0, 0)
      ensures rxSgeProd == 0 && lastMaxSge == 0 && out == [] && unmapped == [] && freed == []
    {
      bufRing := new RxBuf[NUM_RX_BD](_ => RxBuf(None, 0));
      pageRing := new RxPage[NUM_RX_SGE](_ => RxPage(0, 0));
      sgeMask := new bool[NUM_RX_SGE](_ => true);
      tpaInfo := new AggInfo[MAX_AGG_QS](_ => AggInfo(TpaState.TpaStop, RxBuf(None, 0), Flags(false, false, false), 0, 0, 0));
      rxBdCons, rxBdProd, rxCompCons, rxCompProd := 0, 0, 0, 0;
      rxSgeProd, lastMaxSge := 0, 0;
      out, unmapped, freed := [], [], [];
    }

    /** bnx2x_reuse_rx_skb: post the buffer at slot cons again at slot prod. */
    method ReuseRxSkb(cons: RxSlot, prod: RxSlot)
      requires Valid()
      modifies bufRing
      ensures Snap() == Reused(old(Snap()), cons, prod)
    {
      bufRing[prod] := bufRing[cons];
    }

    /** bnx2x_tpa_start for the start CQE c; mapping is dma_map_single's outcome. */
    method TpaStart(c: Cqe, cons: RxSlot, prod: RxSlot, mapping: Option<nat>)
      requires Valid() && c.StartCqe? && c.queue < MAX_AGG_QS
      modifies bufRing, tpaInfo
      ensures Snap() == TpaStarted(old(Snap()), c, cons, prod, mapping)
    {
      var bin := tpaInfo[c.queue];
      if mapping.None? {
        ReuseRxSkb(cons, prod);
        tpaInfo[c.queue] := bin.(state := TpaError);
        return;
      }
      bufRing[prod] := RxBuf(bin.firstBuf.skb, mapping.value);
      tpaInfo[c.queue] := AggInfo(TpaState.TpaStart, bufRing[cons], c.flags, c.vlanTag, c.lenOnBd, c.pad);
    }

    /**
     * bnx2x_fill_frag_skb for the stop CQE c closing `bin`: the segment size
     * hint, then for each SGE page a new page in the ring and the old one as
     * the next fragment.  alloc(j) is bnx2x_alloc_rx_sge's outcome for the
     * j-th SGE.  An SGE list shorter than the pages is a failed fill.
     */
    method FillFragSkb(c: Cqe, bin: AggInfo, alloc: nat -> Option<RxPage>)
      returns (frags: seq<Frag>, gso: Option<U16>, ok: bool)
      requires Valid() && c.StopCqe?
      modifies this, pageRing
      ensures Valid() && Idx() == old(Idx())
      ensures bufRing[..] == old(bufRing[..]) && tpaInfo[..] == old(tpaInfo[..])
      ensures sgeMask[..] == old(sgeMask[..]) && rxSgeProd == old(rxSgeProd) && lastMaxSge == old(lastMaxSge)
      ensures out == old(out) && freed == old(freed)
      ensures var size := FragSize(c, bin);
        gso == (if size != 0 then Some(LroMss(bin.flags, bin.lenOnBd)) else None)
      ensures var size := FragSize(c, bin);
        var npages := SgePages(size);
        if npages > |c.sgl| then !ok && pageRing[..] == old(pageRing[..]) && unmapped == old(unmapped)
        else
          var f := FillFrag(old(pageRing[..]), c.sgl, npages, size, alloc, 0);
          pageRing[..] == f.pages && unmapped == old(unmapped) + f.unmapped && frags == f.frags && ok == f.ok
    {
      var size := FragSize(c, bin);
      var npages := SgePages(size);
      gso := if size != 0 then Some(LroMss(bin.flags, bin.lenOnBd)) else None;
      frags := [];
      if npages > |c.sgl| {
        ok := false;
        return;
      }
      ghost var p0 := pageRing[..];
      ghost var um0 := unmapped;
      ghost var um: seq<nat> := [];
      ghost var goal := FillFrag(p0, c.sgl, npages, size, alloc, 0);
      var left: nat := size;
      var j := 0;
      while j < npages
        invariant 0 <= j <= npages && unmapped == um0 + um
        invariant goal == Prepend(frags, um, FillFrag(pageRing[..], c.sgl, npages, left, alloc, j))
        invariant Valid() && Idx() == old(Idx())
        invariant rxSgeProd == old(rxSgeProd) && lastMaxSge == old(lastMaxSge)
        invariant out == old(out) && freed == old(freed)
      {
        var idx := RxSge(c.sgl[j]);
        var len := Min(left, SGE_PAGE_SIZE);
        var oldPage := pageRing[idx];
        var page := alloc(j);
        if page.None? {
          ok := false;
          return;
        }
        FillFragTurn(pageRing[..], c.sgl, npages, left, alloc, j);
        PrependTwice(frags, um, Frag(oldPage.page, len), oldPage.mapping,
                     FillFrag(pageRing[..][idx := page.value], c.sgl, npages, left - len, alloc, j + 1));
        pageRing[idx] := page.value;
        unmapped := unmapped + [oldPage.mapping];
        frags := frags + [Frag(oldPage.page, len)];
        um := um + [oldPage.mapping];
        left := left - len;
        j := j + 1;
      }
      ok := true;
    }

    /**
     * bnx2x_tpa_stop for the stop CQE c; e.skb is netdev_alloc_skb's outcome,
     * e.claimed whether the PF_RING hook keeps the aggregate, e.page the
     * outcomes of the SGE page allocations.
     */
    method TpaStop(c: Cqe, e: RxEnv)
      requires Valid() && c.StopCqe? && c.queue < MAX_AGG_QS
      modifies this, pageRing, tpaInfo
      ensures Valid() && Idx() == old(Idx())
      ensures Snap() == TpaStopped(old(Snap()), c, e)
    {
      ghost var s0 := Snap();
      var bin := tpaInfo[c.queue];
      tpaInfo[c.queue] := bin.(state := TpaState.TpaStop);
      assert Snap() == Stopped(s0, c.queue);
      if bin.state == TpaError {
        return;
      }
      unmapped := unmapped + [bin.firstBuf.mapping];
      ghost var s2 := Snap();
      if e.skb.None? {
        return;
      }
      if e.claimed {
        out := out + [RxPkt(bin.firstBuf.skb, bin.pad, bin.lenOnBd, [], None, None, PfRing)];
      } else {
        var frags, gso, ok := FillFragSkb(c, tpaInfo[c.queue], e.page);
        if ok {
          var vlan := if bin.flags.vlan then Some(bin.vlanTag) else None;
          out := out + [RxPkt(bin.firstBuf.skb, bin.pad, bin.lenOnBd, frags, gso, vlan, Stack)];
        } else {
          freed := freed + [bin.firstBuf.skb];
        }
        assert Snap() == Aggregated(s2, c, e);
      }
      ghost var s3 := Snap();
      tpaInfo[c.queue] := tpaInfo[c.queue].(firstBuf := bin.firstBuf.(skb := e.skb));
      assert Snap() == s3.(bins := s3.bins[c.queue := s3.bins[c.queue].(firstBuf := bin.firstBuf.(skb := e.skb))]);
    }

    /** bnx2x_clear_sge_mask_next_elems: keep the next-page entries marked used. */
    method ClearSgeMaskNextElems()
      requires Valid()
      modifies sgeMask
      ensures sgeMask[..] == ClearNextElems(old(sgeMask[..]))
    {
      sgeMask[511] := false;
      sgeMask[510] := false;
      sgeMask[1023] := false;
      sgeMask[1022] := false;
    }

    /** The marking loop of bnx2x_update_sge_prod: clear the bits of the first n listed SGEs. */
    method MarkSges(sgl: seq<U16>, n: nat)
      requires Valid() && n <= |sgl|
      modifies sgeMask
      ensures sgeMask[..] == ClearListed(old(sgeMask[..]), sgl, n)
    {
      var i := 0;
      while i < n
        invariant 0 <= i <= n && sgeMask[..] == ClearListed(old(sgeMask[..]), sgl, i)
      {
        sgeMask[RxSge(sgl[i])] := false;
        i := i + 1;
      }
    }

    /**
     * The producer loop of bnx2x_update_sge_prod: from word firstElem up to
     * word lastElem, refill each word whose entries are all used, and stop
     * at the first that is not; delta is the number of entries refilled.
     */
    method RefillWords(firstElem: Word, lastElem: nat) returns (delta: nat)
      requires Valid()
      modifies sgeMask
      ensures var k := WalkLen(old(sgeMask[..]), firstElem, lastElem, 0);
        delta == ELEM_SZ * k && sgeMask[..] == Refilled(old(sgeMask[..]), firstElem, k)
    {
      ghost var m1 := sgeMask[..];
      ghost var n := 0;
      delta := 0;
      var w: Word := firstElem;
      while w != lastElem
        invariant n <= MASK_LEN && w == WordAfter(firstElem, n) && delta == ELEM_SZ * n
        invariant sgeMask[..] == Refilled(m1, firstElem, n)
        invariant WalkLen(m1, firstElem, lastElem, 0) == WalkLen(m1, firstElem, lastElem, n)
        decreases MASK_LEN - n
      {
        if n == MASK_LEN {
          FullWalkRefilled(m1, firstElem);
        } else {
          RefilledWordUnused(m1, firstElem, n);
        }
        if !WordUsed(sgeMask[..], w) {
          break;
        }
        forall b | ELEM_SZ * w <= b < ELEM_SZ * w + ELEM_SZ {
          sgeMask[b] := true;
        }
        RefilledGrows(m1, sgeMask[..], firstElem, n);
        WordAfterNext(firstElem, n);
        delta := delta + ELEM_SZ;
        n := n + 1;
        w := NextElem(w);
      }
      assert WalkLen(m1, firstElem, lastElem, n) == n;
    }

    /**
     * bnx2x_update_sge_prod for a completion whose data beyond the first
     * buffer, pktLen - lenOnBd bytes, sits in the SGEs listed in sgl.
     */
    method UpdateSgeProd(pktLen: U16, lenOnBd: U16, sgl: seq<U16>)
      requires Valid() && lenOnBd <= pktLen && SgeLen(pktLen, lenOnBd) <= |sgl|
      modifies this, sgeMask
      ensures Valid() && Idx() == old(Idx())
      ensures out == old(out) && unmapped == old(unmapped) && freed == old(freed)
      ensures Snap().sge == SgeMask.UpdateSgeProd(old(Snap().sge), pktLen, lenOnBd, sgl)
    {
      var sgeLen := SgeLen(pktLen, lenOnBd);
      if sgeLen == 0 {
        return;
      }
      ghost var s0 := Snap().sge;
      MarkSges(sgl, sgeLen);
      if SubS16(sgl[sgeLen - 1], lastMaxSge) > 0 {
        lastMaxSge := sgl[sgeLen - 1];
      }
      assert lastMaxSge == NewLastMax(s0, pktLen, lenOnBd, sgl);
      var lastElem: nat := ElemOf(lastMaxSge);
      var firstElem := ElemOf(rxSgeProd);
      if lastElem + 1 != firstElem {
        lastElem := lastElem + 1;
      }
      ghost var m1 := Marked(s0, pktLen, lenOnBd, sgl);
      assert sgeMask[..] == m1;
      assert firstElem == ElemOf(s0.prod) && lastElem == WalkBound(s0.prod, lastMaxSge);
      ghost var k := Refills(s0, pktLen, lenOnBd, sgl);
      assert k == WalkLen(m1, firstElem, lastElem, 0);
      var delta := RefillWords(firstElem, lastElem);
      if delta > 0 {
        rxSgeProd := Wrap16(rxSgeProd + delta);
        ClearSgeMaskNextElems();
      } else {
        assert sgeMask[..] == m1;
      }
    }

    /**
     * The non-TPA path of bnx2x_rx_int for the fast-path CQE c: e.skb and
     * e.mapping are the outcomes of the skb allocation and its mapping.
     */
    method RxPacket(c: Cqe, cons: RxSlot, prod: RxSlot, e: RxEnv, mtu: int)
      requires Valid() && c.FastCqe?
      modifies this, bufRing
      ensures Valid() && Idx() == old(Idx())
      ensures Snap() == FastRx(old(Snap()), c, cons, prod, e, mtu)
    {
      var skb := bufRing[cons].skb;
      if c.error {
        ReuseRxSkb(cons, prod);
        return;
      }
      if mtu > ETH_MAX_PACKET_SIZE && c.pktLen <= RX_COPY_THRESH {
        if e.skb.None? {
          ReuseRxSkb(cons, prod);
          return;
        }
        ReuseRxSkb(cons, prod);
        out := out + [Handed(e.skb, c, e)];
        return;
      }
      if e.skb.Some? && e.mapping.Some? {
        bufRing[prod] := RxBuf(e.skb, e.mapping.value);
        unmapped := unmapped + [bufRing[cons].mapping];
        out := out + [Handed(skb, c, e)];
      } else {
        ReuseRxSkb(cons, prod);
      }
    }

    /** The body of bnx2x_rx_int's loop for one CQE c, up to next_cqe. */
    method HandleCqe(ix: RxIdx, c: Cqe, e: RxEnv, mtu: int)
      requires Valid() && CqeOk(c)
      modifies this, bufRing, pageRing, sgeMask, tpaInfo
      ensures Valid() && Idx() == old(Idx())
      ensures Snap() == StateStep(old(Snap()), ix, c, e, mtu)
    {
      var cons := RxBd(ix.bdCons);
      var prod := RxBd(ix.bdProd);
      match c
      case SlowPathCqe =>
      case StartCqe(_, _, _, _, _) =>
        TpaStart(c, cons, prod, e.mapping);
        bufRing[cons] := bufRing[cons].(skb := None);
      case StopCqe(_, pktLen, fpLenOnBd, sgl) =>
        TpaStop(c, e);
        ghost var s1 := Snap();
        UpdateSgeProd(pktLen, fpLenOnBd, sgl);
        assert Snap() == s1.(sge := SgeMask.UpdateSgeProd(s1.sge, pktLen, fpLenOnBd, sgl));
      case FastCqe(_, _, _, _, _) =>
        RxPacket(c, cons, prod, e, mtu);
        bufRing[cons] := bufRing[cons].(skb := None);
    }

    /**
     * bnx2x_rx_int: take CQEs from the completion ring rcq until the
     * completion consumer reaches the status block's value rawHw (moved off
     * a next-page entry), stopping once `budget` packets are counted; env(k)
     * is what the world answers for the k-th CQE.  The indices are written
     * back, the BD producer unmasked, and the count returned.
     */
    method RxInt(rawHw: U16, budget: int, rcq: seq<Cqe>, env: nat -> RxEnv, mtu: int) returns (rxPkt: nat)
      requires Valid() && RingOk(rcq)
      modifies this, bufRing, pageRing, sgeMask, tpaInfo
      ensures Valid()
      ensures var hw := HwCompCons(rawHw);
        var w := RxWalk(old(rxCompCons), hw, budget, rcq, 0, 0);
        && rxPkt == w.count && rxCompCons == w.comp
        && Snap() == RxFold(old(Snap()), old(Idx()), hw, budget, rcq, env, mtu, 0, 0)
        && IdxAfter(old(Idx()), Idx(), w.steps, w.count)
    {
      var hw := HwCompCons(rawHw);
      var bdCons: U16, bdProd: U16, bdProdFw: U16 := rxBdCons, rxBdProd, rxBdProd;
      var comp: U16, compProd: U16 := rxCompCons, rxCompProd;
      rxPkt := 0;
      var steps: nat := 0;
      ghost var ix0 := Idx();
      ghost var goal := RxFold(Snap(), ix0, hw, budget, rcq, env, mtu, 0, 0);
      ghost var walk := RxWalk(comp, hw, budget, rcq, 0, 0);
      assert IdxAfter(ix0, ix0, 0, 0);
      while comp != hw
        invariant Valid() && Idx() == ix0 && !IsRcqNextPage(comp)
        invariant RxFold(Snap(), RxIdx(bdCons, bdProd, bdProdFw, comp, compProd), hw, budget, rcq, env, mtu, rxPkt, steps) == goal
        invariant RxWalk(comp, hw, budget, rcq, rxPkt, steps) == walk
        invariant IdxAfter(ix0, RxIdx(bdCons, bdProd, bdProdFw, comp, compProd), steps, rxPkt)
        decreases RcqDist(comp, hw)
      {
        var ix := RxIdx(bdCons, bdProd, bdProdFw, comp, compProd);
        RcqStepCloser(comp, hw);
        var c := rcq[RcqBd(comp)];
        ghost var s := Snap();
        ghost var count := rxPkt;
        HandleCqe(ix, c, env(steps), mtu);
        IdxStepAfter(ix0, ix, steps, rxPkt, c);
        FoldTurn(s, ix, hw, budget, rcq, env, mtu, count, steps);
        bdProd := RxBd(bdProd);
        bdCons := RxBd(bdCons);
        if Counted(c) {
          bdCons := NextRxIdx(bdCons);
          bdProd := NextRxIdx(bdProd);
          bdProdFw := Wrap16(NextRxIdx(bdProdFw));
          rxPkt := rxPkt + 1;
        }
        compProd := NextRcqIdx(compProd);
        comp := NextRcqIdx(comp);
        steps := steps + 1;
        assert RxIdx(bdCons, bdProd, bdProdFw, comp, compProd) == IdxStep(ix, c);
        if rxPkt == budget {
          assert walk == Walk(comp, rxPkt, steps) && goal == Snap();
          break;
        }
      }
      assert walk == Walk(comp, rxPkt, steps) && goal == Snap();
      ghost var ix1 := RxIdx(bdCons, bdProdFw, bdProdFw, comp, compProd);
      assert IdxAfter(ix0, ix1, steps, rxPkt);
      SetIndices(bdCons, bdProdFw, comp, compProd);
    }

    /** The write-back at the end of bnx2x_rx_int: the four index families, nothing else. */
    method SetIndices(bdCons: U16, bdProd: U16, compCons: U16, compProd: U16)
      requires Valid() && !IsRcqNextPage(compCons)
      modifies this
      ensures Valid() && Snap() == old(Snap())
      ensures Idx() == RxIdx(bdCons, bdProd, bdProd, compCons, compProd)
    {
      rxBdCons := bdCons;
      rxBdProd := bdProd;
      rxCompCons := compCons;
      rxCompProd := compProd;
    }
  }
}
