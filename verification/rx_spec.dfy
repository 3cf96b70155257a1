/**
 * bnx2x_rx_int as functions on values: what one completion does to the
 * receive state and to the loop's index variables, and the whole budgeted
 * loop as a recursion over the completion ring.
 */
module RxSpec {
  import opened Base
  import opened RxRing
  import opened SgeMask
  import opened RxTypes
  import opened Tpa

  /** ETH_MAX_PACKET_SIZE: above this MTU small packets are copied. */
  const ETH_MAX_PACKET_SIZE: int := 1500
  /** RX_COPY_THRESH: the largest packet the copy path takes. */
  const RX_COPY_THRESH: int := 92

  /**
   * The index variables of bnx2x_rx_int: the Rx BD consumer and producer
   * (masked at the top of every turn), the unmasked producer published to
   * the firmware, and the completion consumer and producer.
   */
  datatype RxIdx = RxIdx(bdCons: U16, bdProd: U16, bdProdFw: U16, compCons: U16, compProd: U16)

  /** bnx2x_reuse_rx_skb: post the consumed buffer again at the producer slot. */
  function Reused(s: RxState, cons: RxSlot, prod: RxSlot): (r: RxState)
    requires Wf(s)
    ensures Wf(r)
  {
    s.(buf := s.buf[prod := s.buf[cons]])
  }

  /** next_rx: the consumed slot no longer owns an skb. */
  function Consumed(s: RxState, cons: RxSlot): (r: RxState)
    requires Wf(s)
    ensures Wf(r)
  {
    s.(buf := s.buf[cons := s.buf[cons].(skb := None)])
  }

  /**
   * Handing a non-TPA packet on: to the PF_RING hook when it claims it,
   * otherwise to the stack with the CQE's VLAN tag when it has one.
   */
  function Handed(skb: Option<nat>, c: Cqe, e: RxEnv): RxPkt
    requires c.FastCqe?
  {
    if e.claimed then RxPkt(skb, c.pad, c.pktLen, [], None, None, PfRing)
    else RxPkt(skb, c.pad, c.pktLen, [], None, if c.flags.vlan then Some(c.vlanTag) else None, Stack)
  }

  /** Whether a non-TPA packet of this length is copied into a small skb. */
  predicate CopyPath(c: Cqe, mtu: int)
    requires c.FastCqe?
  {
    mtu > ETH_MAX_PACKET_SIZE && c.pktLen <= RX_COPY_THRESH
  }

  /**
   * The non-TPA path of bnx2x_rx_int, up to next_rx.  An error CQE recycles
   * the buffer.  A small packet on a jumbo MTU is copied into a new skb and
   * the buffer recycled.  Otherwise a new buffer replaces the consumed one
   * at the producer slot and the consumed buffer is unmapped and handed on;
   * a failed allocation recycles the buffer.
   */
  function FastRx(s: RxState, c: Cqe, cons: RxSlot, prod: RxSlot, e: RxEnv, mtu: int): (r: RxState)
    requires Wf(s) && c.FastCqe?
    ensures Wf(r)
  {
    var skb := s.buf[cons].skb;
    if c.error then Reused(s, cons, prod)
    else if CopyPath(c, mtu) then
      if e.skb.None? then Reused(s, cons, prod)
      else
        var s1 := Reused(s, cons, prod);
        s1.(out := s1.out + [Handed(e.skb, c, e)])
    else if e.skb.Some? && e.mapping.Some? then
      var buf1 := s.buf[prod := RxBuf(e.skb, e.mapping.value)];
      s.(buf := buf1, unmapped := s.unmapped + [buf1[cons].mapping], out := s.out + [Handed(skb, c, e)])
    else Reused(s, cons, prod)
  }

  /**
   * The outcomes of the non-TPA path (consumed and producer slots distinct):
   * an error CQE or a failed allocation recycles the consumed buffer into
   * the producer slot and hands nothing on; the copy path recycles it too
   * and hands on only the new skb; otherwise the new buffer is posted, the
   * consumed one is unmapped and handed on.  At most one packet is handed
   * on, and nothing is freed.
   */
  lemma FastRxPaths(s: RxState, c: Cqe, cons: RxSlot, prod: RxSlot, e: RxEnv, mtu: int)
    requires Wf(s) && c.FastCqe? && cons != prod
    ensures var r := FastRx(s, c, cons, prod, e, mtu);
      && r.bins == s.bins && r.pages == s.pages && r.sge == s.sge && r.freed == s.freed
      && s.out <= r.out && |r.out| <= |s.out| + 1
      && (forall i :: 0 <= i < NUM_RX_BD && i != prod ==> r.buf[i] == s.buf[i])
      && (c.error ==> r == Reused(s, cons, prod))
      && (!c.error && CopyPath(c, mtu) ==>
            r.buf[prod] == s.buf[cons] &&
            (e.skb.Some? <==> |r.out| == |s.out| + 1) &&
            (e.skb.Some? ==> r.out[|s.out|].skb == e.skb && r.out[|s.out|].len == c.pktLen))
      && (!c.error && !CopyPath(c, mtu) ==>
            if e.skb.Some? && e.mapping.Some? then
              r.buf[prod] == RxBuf(e.skb, e.mapping.value) &&
              r.unmapped == s.unmapped + [s.buf[cons].mapping] &&
              |r.out| == |s.out| + 1 && r.out[|s.out|].skb == s.buf[cons].skb
            else r == Reused(s, cons, prod))
  {
  }

  /** The CQEs that consume an Rx BD and count against the budget. */
  predicate Counted(c: Cqe)
  {
    c.StartCqe? || c.FastCqe?
  }

  /** What one CQE does to the receive state. */
  function StateStep(s: RxState, ix: RxIdx, c: Cqe, e: RxEnv, mtu: int): (r: RxState)
    requires Wf(s) && CqeOk(c)
    ensures Wf(r)
  {
    var cons := RxBd(ix.bdCons);
    var prod := RxBd(ix.bdProd);
    match c
    case SlowPathCqe => s
    case StartCqe(_, _, _, _, _) => Consumed(TpaStarted(s, c, cons, prod, e.mapping), cons)
    case StopCqe(_, pktLen, fpLenOnBd, sgl) =>
      var s1 := TpaStopped(s, c, e);
      s1.(sge := UpdateSgeProd(s1.sge, pktLen, fpLenOnBd, sgl))
    case FastCqe(_, _, _, _, _) => Consumed(FastRx(s, c, cons, prod, e, mtu), cons)
  }

  /**
   * What one CQE does to the loop's indices: the BD indices are masked, a
   * counted CQE moves the three BD indices on by NEXT_RX_IDX, and every CQE
   * moves both completion indices on by NEXT_RCQ_IDX.
   */
  function IdxStep(ix: RxIdx, c: Cqe): RxIdx
  {
    var cons := RxBd(ix.bdCons);
    var prod := RxBd(ix.bdProd);
    var comp := NextRcqIdx(ix.compCons);
    var compProd := NextRcqIdx(ix.compProd);
    if Counted(c) then RxIdx(NextRxIdx(cons), NextRxIdx(prod), Wrap16(NextRxIdx(ix.bdProdFw)), comp, compProd)
    else RxIdx(cons, prod, ix.bdProdFw, comp, compProd)
  }

  /** Every slot of the completion ring holds a CQE the loop can handle. */
  predicate RingOk(rcq: seq<Cqe>)
  {
    |rcq| == NUM_RCQ_BD && forall i :: 0 <= i < |rcq| ==> CqeOk(rcq[i])
  }

  /** Where the loop's control ends: completion consumer, packets counted, CQEs taken. */
  datatype Walk = Walk(comp: U16, count: nat, steps: nat)

  /**
   * The control of bnx2x_rx_int's loop from completion consumer comp,
   * `count` packets counted and `steps` CQEs taken: it takes CQEs until the
   * completion consumer reaches hw, and stops early once the count reaches
   * the budget after a CQE.
   */
  function RxWalk(comp: U16, hw: U16, budget: int, rcq: seq<Cqe>, count: nat, steps: nat): (w: Walk)
    requires |rcq| == NUM_RCQ_BD && !IsRcqNextPage(comp) && !IsRcqNextPage(hw)
    ensures count <= w.count && steps <= w.steps && !IsRcqNextPage(w.comp)
    decreases RcqDist(comp, hw)
  {
    if comp == hw then Walk(comp, count, steps)
    else
      RcqStepCloser(comp, hw);
      var count1 := count + (if Counted(rcq[RcqBd(comp)]) then 1 else 0);
      if count1 == budget then Walk(NextRcqIdx(comp), count1, steps + 1)
      else RxWalk(NextRcqIdx(comp), hw, budget, rcq, count1, steps + 1)
  }

  /**
   * The receive state the loop of bnx2x_rx_int leaves, following the same
   * control as RxWalk; env(k) is what the world answers for the k-th CQE.
   */
  function RxFold(s: RxState, ix: RxIdx, hw: U16, budget: int, rcq: seq<Cqe>,
                  env: nat -> RxEnv, mtu: int, count: nat, steps: nat): (r: RxState)
    requires Wf(s) && RingOk(rcq) && !IsRcqNextPage(ix.compCons) && !IsRcqNextPage(hw)
    ensures Wf(r)
    decreases RcqDist(ix.compCons, hw)
  {
    if ix.compCons == hw then s
    else
      RcqStepCloser(ix.compCons, hw);
      var c := rcq[RcqBd(ix.compCons)];
      var s1 := StateStep(s, ix, c, env(steps), mtu);
      var count1 := count + (if Counted(c) then 1 else 0);
      if count1 == budget then s1
      else RxFold(s1, IdxStep(ix, c), hw, budget, rcq, env, mtu, count1, steps + 1)
  }

  /** One turn of the loop: the CQE at the consumer, then the rest of the loop or its end. */
  lemma FoldTurn(s: RxState, ix: RxIdx, hw: U16, budget: int, rcq: seq<Cqe>,
                 env: nat -> RxEnv, mtu: int, count: nat, steps: nat)
    requires Wf(s) && RingOk(rcq) && !IsRcqNextPage(ix.compCons) && !IsRcqNextPage(hw) && ix.compCons != hw
    ensures var c := rcq[RcqBd(ix.compCons)];
      var s1 := StateStep(s, ix, c, env(steps), mtu);
      var count1 := count + (if Counted(c) then 1 else 0);
      && !IsRcqNextPage(NextRcqIdx(ix.compCons))
      && RxWalk(ix.compCons, hw, budget, rcq, count, steps) ==
           (if count1 == budget then Walk(NextRcqIdx(ix.compCons), count1, steps + 1)
            else RxWalk(NextRcqIdx(ix.compCons), hw, budget, rcq, count1, steps + 1))
      && RxFold(s, ix, hw, budget, rcq, env, mtu, count, steps) ==
           (if count1 == budget then s1
            else RxFold(s1, IdxStep(ix, c), hw, budget, rcq, env, mtu, count1, steps + 1))
  {
    RcqStepCloser(ix.compCons, hw);
  }

  /**
   * The loop never counts more packets than its budget, and it ends either
   * with the completion consumer at the hardware's or with the budget used
   * up.
   */
  lemma {:induction false} RxWalkBudget(comp: U16, hw: U16, budget: int, rcq: seq<Cqe>, count: nat, steps: nat)
    requires |rcq| == NUM_RCQ_BD && !IsRcqNextPage(comp) && !IsRcqNextPage(hw)
    requires count < budget
    ensures var w := RxWalk(comp, hw, budget, rcq, count, steps);
      w.count <= budget && (w.comp == hw || w.count == budget)
    decreases RcqDist(comp, hw)
  {
    if comp != hw {
      RcqStepCloser(comp, hw);
      var count1 := count + (if Counted(rcq[RcqBd(comp)]) then 1 else 0);
      if count1 != budget {
        RxWalkBudget(NextRcqIdx(comp), hw, budget, rcq, count1, steps + 1);
      }
    }
  }

  /**
   * Every CQE taken moves the completion consumer one NEXT_RCQ_IDX step,
   * and counts at most one packet.
   */
  lemma {:induction false} RxWalkSteps(comp: U16, hw: U16, budget: int, rcq: seq<Cqe>, count: nat, steps: nat)
    requires |rcq| == NUM_RCQ_BD && !IsRcqNextPage(comp) && !IsRcqNextPage(hw)
    ensures var w := RxWalk(comp, hw, budget, rcq, count, steps);
      w.count - count <= w.steps - steps && w.comp == NextRcqN(comp, w.steps - steps)
    decreases RcqDist(comp, hw)
  {
    var w := RxWalk(comp, hw, budget, rcq, count, steps);
    if comp != hw {
      RcqStepCloser(comp, hw);
      var count1 := count + (if Counted(rcq[RcqBd(comp)]) then 1 else 0);
      assert NextRcqN(comp, 1) == NextRcqIdx(comp);
      if count1 != budget {
        var w1 := RxWalk(NextRcqIdx(comp), hw, budget, rcq, count1, steps + 1);
        assert w == w1;
        RxWalkSteps(NextRcqIdx(comp), hw, budget, rcq, count1, steps + 1);
        NextRcqShift(comp, w1.steps - (steps + 1));
      }
    }
  }

  lemma {:induction false} NextRcqShift(x: U16, n: nat)
    ensures NextRcqN(NextRcqIdx(x), n) == NextRcqN(x, n + 1)
  {
    if n > 0 {
      NextRcqShift(x, n - 1);
    }
  }

  /** The free-running producer after n NEXT_RX_IDX steps, kept in a u16. */
  function NextRxN(x: U16, n: nat): U16
  {
    if n == 0 then x else Wrap16(NextRxIdx(NextRxN(x, n - 1)))
  }

  /** The loop's index invariant: the masked producer names the slot of the published one. */
  predicate IdxAgree(ix: RxIdx)
  {
    RxBd(ix.bdProd) == RxBd(ix.bdProdFw)
  }

  /**
   * Indices ix stand n CQEs, m of them counted, past ix0: both completion
   * indices n NEXT_RCQ_IDX steps on, the published BD producer m
   * NEXT_RX_IDX steps on, the BD consumer on the slot m steps on, and the
   * masked producer on the published producer's slot.
   */
  predicate IdxAfter(ix0: RxIdx, ix: RxIdx, n: nat, m: nat)
  {
    && ix.compCons == NextRcqN(ix0.compCons, n)
    && ix.compProd == NextRcqN(ix0.compProd, n)
    && ix.bdProdFw == NextRxN(ix0.bdProdFw, m)
    && RxBd(ix.bdCons) == RxBd(NextRxN(ix0.bdCons, m))
    && IdxAgree(ix)
  }

  /**
   * The four index families move together: one more CQE moves both
   * completion indices one step, and a counted one moves the BD indices one
   * step, the masked producer staying on the published producer's slot.
   */
  lemma IdxStepAfter(ix0: RxIdx, ix: RxIdx, n: nat, m: nat, c: Cqe)
    requires IdxAfter(ix0, ix, n, m)
    ensures IdxAfter(ix0, IdxStep(ix, c), n + 1, m + if Counted(c) then 1 else 0)
  {
    if Counted(c) {
      SlotStep(ix.bdProd, ix.bdProdFw);
      SlotStep(ix.bdCons, NextRxN(ix0.bdCons, m));
    } else {
      RxBdIdem(ix.bdProd);
      RxBdIdem(ix.bdCons);
    }
  }

  lemma RxBdIdem(x: U16)
    ensures RxBd(RxBd(x)) == RxBd(x)
  {
  }

  /** A masked index and a free-running one on the same slot stay together. */
  lemma SlotStep(p: U16, fw: U16)
    requires RxBd(p) == RxBd(fw)
    ensures RxBd(NextRxIdx(RxBd(p))) == RxBd(Wrap16(NextRxIdx(fw)))
  {
    RxMaskedStep(fw);
    assert NextRxIdx(RxBd(fw)) < U16_MOD;
  }
}
