/**
 * bnx2x_poll, the NAPI handler of one fast-path queue: complete the Tx
 * queues of every class of service, take received packets within the
 * budget, and re-enable the queue's interrupt only after a second reading
 * of the status block still shows no work.
 *
 * The status block is the hardware's DMA-written record of the consumer
 * indices.  The loop reads it at three points of every turn: before the Tx
 * and Rx work, at the first fall-out test, and again after the indices are
 * refreshed (bnx2x_update_fpsb_idx).  Each turn's readings, the completion
 * ring contents and the allocation outcomes are given by the world as one
 * Turn.
 */
module Napi {
  import opened Base
  import opened RxRing
  import opened RxTypes
  import opened RxSpec
  import opened TxRing
  import opened TxQueue
  import opened RxQueue

  /** One reading of the status block: the raw RCQ consumer and each Tx queue's packet consumer. */
  datatype Sb = Sb(rxCons: U16, txCons: seq<U16>)

  /**
   * What one turn of the poll loop sees: the reading the work is done
   * against, the completion ring and allocation outcomes for bnx2x_rx_int,
   * the reading of the first fall-out test and the reading after the
   * refresh.
   */
  datatype Turn = Turn(sb: Sb, rcq: seq<Cqe>, env: nat -> RxEnv, check: Sb, recheck: Sb)

  /**
   * How a poll ends: the budget is used up (NAPI keeps the queue scheduled),
   * the queue is completed and its interrupt re-enabled, an FCoE queue is
   * completed without touching its interrupt, or the world's turns run out.
   */
  datatype PollEnd = BudgetUsed | Completed | FcoeCompleted | OutOfTurns

  /** The control of a poll: the work done, how it ended, in which turn, and the indices it leaves. */
  datatype Plan = Plan(work: int, end: PollEnd, turn: nat, comp: U16, txCons: seq<U16>)

  predicate TurnOk(tu: Turn, ncos: nat)
  {
    RingOk(tu.rcq) && |tu.sb.txCons| == ncos && |tu.check.txCons| == ncos && |tu.recheck.txCons| == ncos
  }

  predicate TurnsOk(turns: seq<Turn>, ncos: nat)
  {
    forall t :: 0 <= t < |turns| ==> TurnOk(turns[t], ncos)
  }

  /**
   * bnx2x_has_rx_work: the status block's completion consumer, moved off a
   * next-page entry, differs from the software one.
   */
  predicate RxWork(sb: Sb, comp: U16)
  {
    HwCompCons(sb.rxCons) != comp
  }

  /** bnx2x_has_tx_work: some Tx queue's consumer in the status block differs from its packet consumer. */
  predicate TxWork(sb: Sb, txCons: seq<U16>)
  {
    sb.txCons != txCons
  }

  /** Where one turn leaves the queue: work done, indices, and the end if the loop stops there. */
  datatype Step = Step(work: int, comp: U16, txCons: seq<U16>, end: Option<PollEnd>)

  /**
   * One turn of the loop of bnx2x_poll, with `work` packets taken so far.
   * Each Tx queue with work is first brought up to the reading, so every
   * packet consumer equals it; then, if there is Rx work, bnx2x_rx_int runs
   * with what is left of the budget, and the loop stops once the budget is
   * used.  Otherwise, with no work at the fall-out test, an FCoE queue is
   * completed; any other queue is completed only if the refreshed reading
   * shows no work either.
   */
  function TurnStep(tu: Turn, budget: int, fcoe: bool, work: int, comp: U16): (s: Step)
    requires RingOk(tu.rcq) && !IsRcqNextPage(comp)
    ensures s.txCons == tu.sb.txCons && !IsRcqNextPage(s.comp)
  {
    var tx := tu.sb.txCons;
    var rx := RxWork(tu.sb, comp);
    var w := if rx then RxWalk(comp, HwCompCons(tu.sb.rxCons), budget - work, tu.rcq, 0, 0)
             else Walk(comp, 0, 0);
    var work1 := work + w.count;
    var end := if rx && work1 >= budget then Some(BudgetUsed) else FallOut(tu, fcoe, w.comp, tx);
    Step(work1, w.comp, tx, end)
  }

  /**
   * The fall-out test at the end of a turn that has not used its budget:
   * with work at the first reading the loop goes on; otherwise an FCoE queue
   * is completed, and any other queue is completed only if the refreshed
   * reading shows no work either.
   */
  function FallOut(tu: Turn, fcoe: bool, comp: U16, txCons: seq<U16>): Option<PollEnd>
  {
    if RxWork(tu.check, comp) || TxWork(tu.check, txCons) then None
    else if fcoe then Some(FcoeCompleted)
    else if RxWork(tu.recheck, comp) || TxWork(tu.recheck, txCons) then None
    else Some(Completed)
  }

  /** The turns of bnx2x_poll from turn t on, until one stops the loop or the turns run out. */
  function PollPlan(turns: seq<Turn>, t: nat, budget: int, fcoe: bool, work: int,
                    comp: U16, txCons: seq<U16>): (p: Plan)
    requires t <= |turns| && TurnsOk(turns, |txCons|) && !IsRcqNextPage(comp)
    ensures |p.txCons| == |txCons| && !IsRcqNextPage(p.comp) && t <= p.turn <= |turns|
    decreases |turns| - t
  {
    if t == |turns| then Plan(work, OutOfTurns, t, comp, txCons)
    else
      var s := TurnStep(turns[t], budget, fcoe, work, comp);
      if s.end.Some? then Plan(s.work, s.end.value, t, s.comp, s.txCons)
      else PollPlan(turns, t + 1, budget, fcoe, s.work, s.comp, s.txCons)
  }

  /** A turn stops the loop on a used budget exactly when its count reaches the budget. */
  lemma TurnWithinBudget(tu: Turn, budget: int, fcoe: bool, work: int, comp: U16)
    requires RingOk(tu.rcq) && !IsRcqNextPage(comp) && 0 <= work < budget
    ensures var s := TurnStep(tu, budget, fcoe, work, comp);
      work <= s.work <= budget && (s.end == Some(BudgetUsed) <==> s.work == budget)
  {
    if RxWork(tu.sb, comp) {
      RxWalkBudget(comp, HwCompCons(tu.sb.rxCons), budget - work, tu.rcq, 0, 0);
    }
  }

  /**
   * With a positive budget a poll never reports more work than its budget,
   * and it keeps the queue scheduled exactly when the budget is used up.
   */
  lemma {:induction false} PollWithinBudget(turns: seq<Turn>, t: nat, budget: int, fcoe: bool, work: int,
                                            comp: U16, txCons: seq<U16>)
    requires t <= |turns| && TurnsOk(turns, |txCons|) && !IsRcqNextPage(comp)
    requires 0 <= work < budget
    ensures var p := PollPlan(turns, t, budget, fcoe, work, comp, txCons);
      work <= p.work <= budget && (p.end == BudgetUsed <==> p.work == budget)
    decreases |turns| - t
  {
    if t < |turns| {
      TurnWithinBudget(turns[t], budget, fcoe, work, comp);
      var s := TurnStep(turns[t], budget, fcoe, work, comp);
      if s.end.None? {
        PollWithinBudget(turns, t + 1, budget, fcoe, s.work, s.comp, s.txCons);
      }
    }
  }

  /**
   * The queue's interrupt is re-enabled only when, after the refresh, the
   * status block still shows no Rx and no Tx work against the indices the
   * poll leaves; an FCoE queue is completed on the first reading alone; a
   * turn that stops the loop has brought every Tx queue to that turn's
   * reading.
   */
  lemma {:induction false} PollCompletesIdle(turns: seq<Turn>, t: nat, budget: int, fcoe: bool, work: int,
                                             comp: U16, txCons: seq<U16>)
    requires t <= |turns| && TurnsOk(turns, |txCons|) && !IsRcqNextPage(comp)
    ensures var p := PollPlan(turns, t, budget, fcoe, work, comp, txCons);
      && (p.end == OutOfTurns <==> p.turn == |turns|)
      && (p.turn < |turns| ==> p.txCons == turns[p.turn].sb.txCons)
      && (p.end == Completed ==>
            !fcoe && !RxWork(turns[p.turn].check, p.comp) && !TxWork(turns[p.turn].check, p.txCons) &&
            !RxWork(turns[p.turn].recheck, p.comp) && !TxWork(turns[p.turn].recheck, p.txCons))
      && (p.end == FcoeCompleted ==>
            fcoe && !RxWork(turns[p.turn].check, p.comp) && !TxWork(turns[p.turn].check, p.txCons))
    decreases |turns| - t
  {
    if t < |turns| {
      var s := TurnStep(turns[t], budget, fcoe, work, comp);
      if s.end.None? {
        PollCompletesIdle(turns, t + 1, budget, fcoe, s.work, s.comp, s.txCons);
      }
    }
  }

  /** The packet consumers of the Tx queues, in class-of-service order. */
  ghost function PktConses(txq: seq<TxData>): (r: seq<U16>)
    reads set q | q in txq
    ensures |r| == |txq| && forall i :: 0 <= i < |txq| ==> r[i] == txq[i].pktCons
  {
    if |txq| == 0 then [] else PktConses(txq[..|txq| - 1]) + [txq[|txq| - 1].pktCons]
  }

  /** The Tx queues of the classes of service are separate queues, each with its own buffer ring. */
  predicate Distinct(txq: seq<TxData>)
  {
    forall i, j :: 0 <= i < j < |txq| ==> txq[i] != txq[j] && txq[i].bufRing != txq[j].bufRing
  }

  /**
   * Queue q after the Tx half of a poll turn against the reading hw: with
   * work, bnx2x_tx_int has freed every packet up to hw (Drain), moved the
   * packet consumer there and woken a stopped queue when a largest packet
   * fits again, leaving the producers and the mapping log alone; without
   * work, nothing of q has changed.
   */
  twostate predicate TxServed(q: TxData, hw: U16, devOpen: bool, lim: Limits)
    reads q, q.bufRing, q.descRing
  {
    && q.Valid()
    && (hw != old(q.pktCons) ==>
          && q.Snap(q.bdCons) == Drain(old(q.Snap(q.bdCons)), q.descRing[..], old(q.pktCons), hw)
          && q.pktCons == hw && q.pktProd == old(q.pktProd) && q.bdProd == old(q.bdProd)
          && q.mapped == old(q.mapped)
          && q.queueStopped ==
               (old(q.queueStopped) && !(devOpen && TxAvail(q.bdProd, q.bdCons, q.ringSize) >= lim.maxSkbFrags + 3)))
    && (hw == old(q.pktCons) ==> unchanged(q) && unchanged(q.bufRing))
  }

  /** TxServed for every queue of txq against its reading in hw. */
  twostate predicate AllTxServed(txq: seq<TxData>, hw: seq<U16>, devOpen: bool, lim: Limits)
    requires |hw| == |txq|
    reads set q | q in txq, set q | q in txq :: q.bufRing, set q | q in txq :: q.descRing
  {
    forall i :: 0 <= i < |txq| ==> TxServed(txq[i], hw[i], devOpen, lim)
  }

  /**
   * The fast path after the Rx half of a poll turn with `left` packets of
   * budget, from state s0 and indices ix0: with Rx work at the reading, its
   * state and indices are those bnx2x_rx_int leaves (RxFold and IdxAfter);
   * without, they are s0 and ix0.
   */
  ghost predicate RxServed(fp: FastPath, s0: RxState, ix0: RxIdx, tu: Turn, left: int, mtu: int)
    reads fp, fp.bufRing, fp.pageRing, fp.sgeMask, fp.tpaInfo
  {
    && fp.Valid() && Wf(s0) && !IsRcqNextPage(ix0.compCons) && RingOk(tu.rcq)
    && var hw := HwCompCons(tu.sb.rxCons);
    && (RxWork(tu.sb, ix0.compCons) ==>
          var w := RxWalk(ix0.compCons, hw, left, tu.rcq, 0, 0);
          && fp.Snap() == RxFold(s0, ix0, hw, left, tu.rcq, tu.env, mtu, 0, 0)
          && IdxAfter(ix0, fp.Idx(), w.steps, w.count))
    && (!RxWork(tu.sb, ix0.compCons) ==> fp.Snap() == s0 && fp.Idx() == ix0)
  }

  ghost predicate AllValid(txq: seq<TxData>)
    reads set q | q in txq
  {
    forall i :: 0 <= i < |txq| ==> txq[i].Valid()
  }

  /**
   * The Tx half of a poll turn (for_each_cos_in_tx_queue): every queue whose
   * reading differs from its packet consumer is completed by bnx2x_tx_int.
   */
  method TxTurn(txq: seq<TxData>, hw: seq<U16>, devOpen: bool, lim: Limits)
    requires Distinct(txq) && AllValid(txq) && |hw| == |txq|
    modifies set q | q in txq, set q | q in txq :: q.bufRing
    ensures AllValid(txq) && PktConses(txq) == hw
    ensures AllTxServed(txq, hw, devOpen, lim)
  {
    var i := 0;
    while i < |txq|
      invariant 0 <= i <= |txq| && AllValid(txq)
      invariant forall j :: 0 <= j < i ==> txq[j].pktCons == hw[j]
      invariant forall j :: 0 <= j < i ==> TxServed(txq[j], hw[j], devOpen, lim)
      invariant forall j :: i <= j < |txq| ==> unchanged(txq[j]) && unchanged(txq[j].bufRing)
    {
      if hw[i] != txq[i].pktCons {
        var _ := txq[i].TxInt(hw[i], devOpen, lim);
      }
      i := i + 1;
    }
  }

  /** bnx2x_has_tx_work over the queues' packet consumers. */
  method HasTxWork(txq: seq<TxData>, sb: Sb) returns (r: bool)
    requires |sb.txCons| == |txq|
    ensures r == TxWork(sb, PktConses(txq))
  {
    r := false;
    var i := 0;
    while i < |txq|
      invariant 0 <= i <= |txq|
      invariant r <==> exists j :: 0 <= j < i && sb.txCons[j] != txq[j].pktCons
    {
      if sb.txCons[i] != txq[i].pktCons {
        r := true;
      }
      i := i + 1;
    }
    if !r {
      assert sb.txCons == PktConses(txq);
    }
  }

  /** The fall-out test of bnx2x_poll against the queues' current indices. */
  method FallOutTest(fp: FastPath, txq: seq<TxData>, tu: Turn, fcoe: bool) returns (end: Option<PollEnd>)
    requires TurnOk(tu, |txq|)
    ensures end == FallOut(tu, fcoe, fp.rxCompCons, PktConses(txq))
    ensures end != Some(BudgetUsed) && end != Some(OutOfTurns)
  {
    var txWork := HasTxWork(txq, tu.check);
    if HwCompCons(tu.check.rxCons) != fp.rxCompCons || txWork {
      end := None;
    } else if fcoe {
      end := Some(FcoeCompleted);
    } else {
      // bnx2x_update_fpsb_idx, then the second reading
      txWork := HasTxWork(txq, tu.recheck);
      if HwCompCons(tu.recheck.rxCons) != fp.rxCompCons || txWork {
        end := None;
      } else {
        end := Some(Completed);
      }
    }
  }

  /**
   * The rest of a poll turn once the Tx queues are at the reading: the Rx
   * work with what is left of the budget, then the fall-out test.
   */
  method RxTurn(fp: FastPath, txq: seq<TxData>, tu: Turn, budget: int, fcoe: bool, work: int, mtu: int)
    returns (work1: int, end: Option<PollEnd>)
    requires fp.Valid() && AllValid(txq) && TurnOk(tu, |txq|) && PktConses(txq) == tu.sb.txCons
    modifies fp, fp.bufRing, fp.pageRing, fp.sgeMask, fp.tpaInfo
    ensures fp.Valid() && AllValid(txq)
    ensures TurnStep(tu, budget, fcoe, work, old(fp.rxCompCons)) == Step(work1, fp.rxCompCons, tu.sb.txCons, end)
    ensures RxServed(fp, old(fp.Snap()), old(fp.Idx()), tu, budget - work, mtu)
  {
    ghost var comp := fp.rxCompCons;
    ghost var rx := RxWork(tu.sb, comp);
    ghost var w := if rx then RxWalk(comp, HwCompCons(tu.sb.rxCons), budget - work, tu.rcq, 0, 0)
                   else Walk(comp, 0, 0);
    work1 := work;
    if HwCompCons(tu.sb.rxCons) != fp.rxCompCons {
      var n := fp.RxInt(tu.sb.rxCons, budget - work, tu.rcq, tu.env, mtu);
      work1 := work + n;
      if work1 >= budget {
        end := Some(BudgetUsed);
        return;
      }
    }
    assert work1 == work + w.count && fp.rxCompCons == w.comp;
    assert PktConses(txq) == tu.sb.txCons;
    end := FallOutTest(fp, txq, tu, fcoe);
    assert end == FallOut(tu, fcoe, w.comp, tu.sb.txCons);
  }

  /** One turn of the loop of bnx2x_poll, as TurnStep says: the Tx queues first, then Rx. */
  method PollTurn(fp: FastPath, txq: seq<TxData>, tu: Turn, budget: int, fcoe: bool, work: int,
                  devOpen: bool, lim: Limits, mtu: int) returns (work1: int, end: Option<PollEnd>)
    requires fp.Valid() && Distinct(txq) && AllValid(txq) && TurnOk(tu, |txq|)
    modifies fp, fp.bufRing, fp.pageRing, fp.sgeMask, fp.tpaInfo
    modifies set q | q in txq, set q | q in txq :: q.bufRing
    ensures fp.Valid() && AllValid(txq)
    ensures TurnStep(tu, budget, fcoe, work, old(fp.rxCompCons)) == Step(work1, fp.rxCompCons, PktConses(txq), end)
    ensures RxServed(fp, old(fp.Snap()), old(fp.Idx()), tu, budget - work, mtu)
    ensures AllTxServed(txq, tu.sb.txCons, devOpen, lim)
  {
    TxTurn(txq, tu.sb.txCons, devOpen, lim);
    work1, end := RxTurn(fp, txq, tu, budget, fcoe, work, mtu);
  }

  /**
   * bnx2x_poll on fast-path queue fp with Tx queues txq; fcoe says whether
   * fp is the FCoE L2 ring, devOpen whether the device is open (as
   * bnx2x_tx_int reads it), mtu the device MTU.  The turns happen as
   * PollPlan says, and the queue's indices end where it says.
   */
  method Poll(fp: FastPath, txq: seq<TxData>, budget: int, fcoe: bool, turns: seq<Turn>,
              devOpen: bool, lim: Limits, mtu: int) returns (workDone: int, end: PollEnd)
    requires fp.Valid() && Distinct(txq) && AllValid(txq) && TurnsOk(turns, |txq|)
    modifies fp, fp.bufRing, fp.pageRing, fp.sgeMask, fp.tpaInfo
    modifies set q | q in txq, set q | q in txq :: q.bufRing
    ensures fp.Valid() && AllValid(txq)
    ensures var p := PollPlan(turns, 0, budget, fcoe, 0, old(fp.rxCompCons), old(PktConses(txq)));
      workDone == p.work && end == p.end && fp.rxCompCons == p.comp && PktConses(txq) == p.txCons
  {
    workDone := 0;
    var t := 0;
    ghost var plan := PollPlan(turns, 0, budget, fcoe, 0, fp.rxCompCons, PktConses(txq));
    while true
      invariant t <= |turns| && fp.Valid() && AllValid(txq)
      invariant PollPlan(turns, t, budget, fcoe, workDone, fp.rxCompCons, PktConses(txq)) == plan
      decreases |turns| - t
    {
      if t == |turns| {
        end := OutOfTurns;
        break;
      }
      ghost var comp := fp.rxCompCons;
      ghost var tx := PktConses(txq);
      ghost var w := workDone;
      var stop;
      workDone, stop := PollTurn(fp, txq, turns[t], budget, fcoe, workDone, devOpen, lim, mtu);
      assert PollPlan(turns, t, budget, fcoe, w, comp, tx) ==
        if stop.Some? then Plan(workDone, stop.value, t, fp.rxCompCons, PktConses(txq))
        else PollPlan(turns, t + 1, budget, fcoe, workDone, fp.rxCompCons, PktConses(txq));
      if stop.Some? {
        end := stop.value;
        break;
      }
      t := t + 1;
    }
  }
}
