/**
 * The load/unload life cycle of bnx2x_cmn.c: bnx2x_nic_load with its
 * goto-unwinding through load_error4 .. load_error0, bnx2x_nic_unload, the
 * link report, the MTU change and the feature update, together with the
 * reload they trigger.
 *
 * What the firmware, the hardware and the kernel answer (memory
 * allocation, the MCP's load code, the init and setup calls, the slow-path
 * completion wait) is an input, a LoadWorld.  What the driver asks of the
 * management CPU (MCP) through bnx2x_fw_command is recorded in a log, and
 * so is every resource the load acquires and every release of one.
 */
module Lifecycle {
  import opened Base
  import opened Config

  /** bp->state, reduced to the states the load and unload paths set. */
  datatype DevState = Closed | OpeningWait4Load | OpeningWait4Port | Open | Diag | ClosingWait4Halt | Error

  datatype LoadMode = LoadNormal | LoadOpen | LoadDiag
  datatype UnloadMode = UnloadNormal | UnloadClose | UnloadRecovery

  /** The load codes of the MCP's answer to LOAD_REQ (FW_MSG_CODE_DRV_LOAD_*). */
  datatype LoadCode = Common | CommonChip | Port | Function | Refused

  /** The return codes: 0, -ENOMEM, -EBUSY, -EINVAL, -EAGAIN, and the error some called function returned. */
  datatype Rc = Ok | ENoMem | EBusy | EInval | EAgain | EFailed

  /** The commands the driver sends the MCP (DRV_MSG_CODE_*). */
  datatype FwCmd = LoadReq | LoadDone | UnloadReqWolMcp | UnloadDone | SetMfBw(cfg: U32)

  /**
   * What bnx2x_nic_load acquires, in order, and what its error labels give
   * back: memory (load_error0 frees it), NAPI (load_error1 disables it), the
   * load granted by the MCP or by the load counts (load_error2 returns it
   * and drops the PMF role), the interrupts and the initialised NIC
   * (load_error3) and the timer scan started after the leading queue
   * (load_error4).
   */
  datatype Phase = Mem | Napi | Granted | Irqs | TimerScan

  const AllPhases: seq<Phase> := [Mem, Napi, Granted, Irqs, TimerScan]

  datatype Event = Acquire(p: Phase) | Release(p: Phase)

  /** The answers of everything nic_load calls that can fail. */
  datatype LoadWorld = LoadWorld(
    allocMem: bool,          // bnx2x_alloc_mem
    realNumQueues: bool,     // bnx2x_set_real_num_queues
    loadReq: Option<LoadCode>, // the MCP's answer to LOAD_REQ (None: no answer)
    initHw: bool,            // bnx2x_init_hw
    setupIrqs: bool,         // bnx2x_setup_irqs
    funcStart: bool,         // bnx2x_func_start
    loadDoneAck: bool,       // the MCP answers LOAD_DONE
    setupLeading: bool,      // bnx2x_setup_leading
    queueSetup: seq<bool>,   // bnx2x_setup_queue for each non-default queue
    initRss: bool,           // bnx2x_init_rss_pf
    setEthMac: bool,         // bnx2x_set_eth_mac
    spComp: bool)            // bnx2x_wait_sp_comp

  // ---------------------------------------------------- the load, as values

  /** The acquisitions of ps, in order. */
  function Acquires(ps: seq<Phase>): (t: seq<Event>)
    ensures |t| == |ps| && forall i :: 0 <= i < |ps| ==> t[i] == Acquire(ps[i])
  {
    if ps == [] then [] else [Acquire(ps[0])] + Acquires(ps[1..])
  }

  /** The releases of ps, last acquired first. */
  function Releases(ps: seq<Phase>): seq<Event>
  {
    if ps == [] then [] else [Release(ps[|ps| - 1])] + Releases(ps[..|ps| - 1])
  }

  /** Releasing is strictly last-in first-out: release j gives back phase |ps| - 1 - j. */
  lemma {:induction false} ReleasesReversed(ps: seq<Phase>)
    ensures |Releases(ps)| == |ps|
    ensures forall j :: 0 <= j < |ps| ==> Releases(ps)[j] == Release(ps[|ps| - 1 - j])
  {
    if ps != [] {
      var init := ps[..|ps| - 1];
      ReleasesReversed(init);
      forall j | 0 <= j < |ps|
        ensures Releases(ps)[j] == Release(ps[|ps| - 1 - j])
      {
        if j > 0 {
          assert Releases(ps)[j] == Releases(init)[j - 1];
          assert init[|init| - 1 - (j - 1)] == ps[|ps| - 1 - j];
        }
      }
    }
  }

  /** A granted load: any answer but a refusal. */
  predicate IsGranted(code: Option<LoadCode>)
  {
    code.Some? && code.value != Refused
  }

  /** The codes that make this function the port management function. */
  predicate IsPmfCode(code: LoadCode)
  {
    code == Common || code == CommonChip || code == Port
  }

  /**
   * The load code without an MCP, from the path and port load counts after
   * this function's own increment.
   */
  function NoMcpCode(pathCount: int, portCount: int): LoadCode
  {
    if pathCount == 1 then Common else if portCount == 1 then Port else Function
  }

  /** The per-path load counts: the path count is the sum of its two port counts. */
  predicate CountsOk(path: int, port0: int, port1: int)
  {
    0 <= port0 && 0 <= port1 && path == port0 + port1
  }

  /**
   * Without an MCP the first function loaded on a path initialises the
   * common blocks, the first on a port (but not on its path) the port, and
   * the rest only themselves; exactly the first function loaded on each
   * port becomes its PMF.
   */
  lemma NoMcpCodeFirst(port: nat, counts: seq<int>)
    requires |counts| == 3 && port < 2 && CountsOk(counts[0], counts[1], counts[2])
    ensures var c := NoMcpCode(counts[0] + 1, counts[1 + port] + 1);
      && (c == Common <==> counts[0] == 0)
      && (c == Port <==> counts[0] > 0 && counts[1 + port] == 0)
      && (IsPmfCode(c) <==> counts[1 + port] == 0)
  {
  }

  /**
   * The label nic_load unwinds from, as the number of phases it acquired
   * (1 for load_error0 .. 5 for load_error4), or 0 when nothing from
   * bnx2x_set_real_num_queues to bnx2x_set_eth_mac fails.
   */
  function FailLevel(w: LoadWorld, mcp: bool): (k: nat)
    ensures k <= 5
  {
    if !w.realNumQueues then 1
    else if mcp && !IsGranted(w.loadReq) then 2
    else if !w.initHw || !w.setupIrqs then 3
    else if !w.funcStart || (mcp && !w.loadDoneAck) || !w.setupLeading then 4
    else if false in w.queueSetup || !w.initRss || !w.setEthMac then 5
    else 0
  }

  /** The number of phases a load that got its memory acquires. */
  function Reached(w: LoadWorld, mcp: bool): nat
  {
    var k := FailLevel(w, mcp);
    if k == 0 then |AllPhases| else k
  }

  /** What bnx2x_nic_load returns. */
  function LoadRc(w: LoadWorld, mcp: bool): Rc
  {
    if !w.allocMem then ENoMem
    else
      var k := FailLevel(w, mcp);
      if k == 2 then EBusy
      else if k == 4 && w.funcStart && mcp && !w.loadDoneAck then EBusy
      else if k != 0 then EFailed
      else if w.spComp then Ok
      else EBusy
  }

  /** The state bnx2x_nic_load leaves behind. */
  function LoadState(w: LoadWorld, mcp: bool, mode: LoadMode): DevState
  {
    if !w.allocMem then OpeningWait4Load
    else if FailLevel(w, mcp) != 0 then Error
    else if !w.spComp then Closed
    else if mode == LoadDiag then Diag
    else Open
  }

  /** The acquisitions and releases of one bnx2x_nic_load. */
  function LoadTrail(w: LoadWorld, mcp: bool): seq<Event>
  {
    if !w.allocMem then []
    else
      var ps := AllPhases[..Reached(w, mcp)];
      Acquires(ps) + (if LoadRc(w, mcp) == Ok then [] else Releases(ps))
  }

  /** The UNLOAD_REQ_WOL_MCP / UNLOAD_DONE pair load_error2 sends with an MCP. */
  function UnloadCmds(mcp: bool): seq<FwCmd>
  {
    if mcp then [UnloadReqWolMcp, UnloadDone] else []
  }

  /**
   * The commands one bnx2x_nic_load sends the MCP: LOAD_REQ (with an MCP),
   * LOAD_DONE when the init, IRQ or function-start step fails and (with an
   * MCP) after a function start, the unload pair when it unwinds through
   * load_error2, and on success the pending SET_MF_BW, if any.
   */
  function LoadFw(w: LoadWorld, mcp: bool, mfCmd: Option<U32>): seq<FwCmd>
  {
    if !w.allocMem || !w.realNumQueues then []
    else (if mcp then [LoadReq] else []) + (if mcp && !IsGranted(w.loadReq) then [] else GrantedFw(w, mcp, mfCmd))
  }

  /** The commands a load sends once the load is granted. */
  function GrantedFw(w: LoadWorld, mcp: bool, mfCmd: Option<U32>): seq<FwCmd>
  {
    if !w.initHw || !w.setupIrqs || !w.funcStart then [LoadDone] + UnloadCmds(mcp)
    else (if mcp then [LoadDone] else []) + QueuesFw(w, mcp, mfCmd)
  }

  /** The commands a load sends once the leading queue is set up. */
  function QueuesFw(w: LoadWorld, mcp: bool, mfCmd: Option<U32>): seq<FwCmd>
  {
    if FailLevel(w, mcp) != 0 then UnloadCmds(mcp)
    else if mfCmd.Some? then [SetMfBw(mfCmd.value)] else []
  }

  /**
   * The handshake with the MCP: a load that reaches the MCP starts with
   * LOAD_REQ; once the MCP grants it, exactly one LOAD_DONE follows; a
   * failure after the grant ends with UNLOAD_REQ_WOL_MCP and UNLOAD_DONE.
   */
  lemma LoadHandshake(w: LoadWorld, mcp: bool, mfCmd: Option<U32>)
    requires mcp && w.allocMem
    ensures var f := LoadFw(w, mcp, mfCmd);
      && (w.realNumQueues ==> |f| > 0 && f[0] == LoadReq)
      && (FailLevel(w, mcp) != 1 && FailLevel(w, mcp) != 2 ==> multiset(f)[LoadDone] == 1)
      && (FailLevel(w, mcp) >= 3 ==> |f| >= 2 && f[|f| - 2..] == [UnloadReqWolMcp, UnloadDone])
  {
  }

  /**
   * No unload command is sent on success or before the grant, nor any
   * LOAD_REQ or unload command without an MCP.
   */
  lemma LoadUnloadFree(w: LoadWorld, mcp: bool, mfCmd: Option<U32>)
    ensures var f := LoadFw(w, mcp, mfCmd);
      && (FailLevel(w, mcp) <= 2 ==> UnloadReqWolMcp !in f && UnloadDone !in f)
      && (!mcp ==> LoadReq !in f && UnloadReqWolMcp !in f && UnloadDone !in f)
  {
  }

  /**
   * A load that got its memory acquires its phases in order, stopping at
   * the failing one; it holds all five exactly when it succeeds.
   */
  lemma LoadAcquires(w: LoadWorld, mcp: bool)
    requires w.allocMem
    ensures var t := LoadTrail(w, mcp);
      var k := Reached(w, mcp);
      && 1 <= k <= 5
      && (forall i :: 0 <= i < k ==> t[i] == Acquire(AllPhases[i]))
      && (LoadRc(w, mcp) == Ok <==> |t| == k == 5)
  {
    var k := Reached(w, mcp);
    var ps := AllPhases[..k];
    ReleasesReversed(ps);
    if LoadRc(w, mcp) == Ok {
      assert LoadTrail(w, mcp) == Acquires(ps);
    } else {
      assert LoadTrail(w, mcp) == Acquires(ps) + Releases(ps);
    }
  }

  /** Every failed load gives back exactly what it acquired, in the reverse order. */
  lemma LoadUnwinds(w: LoadWorld, mcp: bool)
    requires w.allocMem && LoadRc(w, mcp) != Ok
    ensures var t := LoadTrail(w, mcp);
      var k := Reached(w, mcp);
      && |t| == 2 * k
      && forall i :: 0 <= i < k ==> t[2 * k - 1 - i] == Release(AllPhases[i])
  {
    var k := Reached(w, mcp);
    var ps := AllPhases[..k];
    var t := LoadTrail(w, mcp);
    ReleasesReversed(ps);
    var r := Releases(ps);
    assert t == Acquires(ps) + r;
    forall i | 0 <= i < k
      ensures t[2 * k - 1 - i] == Release(AllPhases[i])
    {
      assert t[2 * k - 1 - i] == r[k - 1 - i];
    }
  }

  /** The first index i with !ok[i]. */
  function FirstFailure(ok: seq<bool>): (r: Option<nat>)
    ensures r.None? <==> false !in ok
    ensures r.Some? ==> r.value < |ok| && !ok[r.value] && false !in ok[..r.value]
  {
    if ok == [] then None
    else if !ok[0] then Some(0)
    else match FirstFailure(ok[1..])
      case None => None
      case Some(i) => assert ok[..i + 1] == [ok[0]] + ok[1..][..i]; Some(i + 1)
  }

  // ------------------------------------------------- the load, step by step

  /** The part of a device's state the load and unload paths change. */
  datatype Dev = Dev(state: DevState, pmf: bool, phases: seq<Phase>, trail: seq<Event>, fw: seq<FwCmd>,
                     pendingMax: U32, txOn: bool, lastReported: LinkReport)

  /** Acquiring phase p. */
  function Took(d: Dev, p: Phase): Dev
  {
    d.(phases := d.phases + [p], trail := d.trail + [Acquire(p)])
  }

  /**
   * The fall-through from load_error4 to load_error0: everything held is
   * given back last-acquired first; from load_error2 on, the MCP is told
   * and the PMF role dropped.
   */
  function Unwound(d: Dev, mcp: bool): Dev
  {
    var granted := |d.phases| >= 3;
    d.(phases := [], trail := d.trail + Releases(d.phases),
       fw := d.fw + (if granted then UnloadCmds(mcp) else []),
       pmf := if granted then false else d.pmf)
  }

  /** LOAD_ERROR_EXIT: the ERROR state, then the unwinding. */
  function ErrorExited(d: Dev, mcp: bool): Dev
  {
    Unwound(d.(state := Error), mcp)
  }

  /** The unload of an open device: Tx stopped, no PMF, everything released, CLOSED. */
  function ShutDown(d: Dev): Dev
  {
    d.(state := Closed, txOn := false, pmf := false, trail := d.trail + Releases(d.phases), phases := [])
  }

  /** What nic_unload leaves of a device: a CLOSED or ERROR one as it is, any other shut down. */
  function Unloaded(d: Dev): Dev
  {
    if d.state == Closed || d.state == Error then d else ShutDown(d)
  }

  /** The LOAD_REQ step with load code `code`; a granted load is acquired and decides the PMF role. */
  function Requested(d: Dev, mcp: bool, code: Option<LoadCode>): Dev
  {
    var d1 := if mcp then d.(fw := d.fw + [LoadReq]) else d;
    if IsGranted(code) then Took(d1.(pmf := IsPmfCode(code.value)), Granted) else d1
  }

  /** The SET_MF_BW configuration a pending MAX_BW value asks for, if any. */
  function PendingCmd(mfCfg: U32, pendingMax: U32): Option<U32>
  {
    if pendingMax != 0 then MaxMfCommand(mfCfg, pendingMax) else None
  }

  /** nic_load from the queue setup loop on. */
  function QueuesLoaded(d: Dev, mcp: bool, mfCfg: U32, mode: LoadMode, w: LoadWorld): (Dev, Rc)
  {
    if false in w.queueSetup || !w.initRss then (ErrorExited(d, mcp), EFailed)
    else if !w.setEthMac then (ErrorExited(d.(state := Open), mcp), EFailed)
    else Started(d.(state := Open), mfCfg, mode, w.spComp)
  }

  /**
   * nic_load once the MAC is set: the pending MAX_BW value sent, Tx
   * started (or DIAG entered), and an unload if the slow path does not
   * complete.
   */
  function Started(d: Dev, mfCfg: U32, mode: LoadMode, spComp: bool): (Dev, Rc)
  {
    var cmd := PendingCmd(mfCfg, d.pendingMax);
    var d1 := d.(fw := d.fw + (if cmd.Some? then [SetMfBw(cmd.value)] else []), pendingMax := 0);
    var d2 := if mode == LoadDiag then d1.(state := Diag) else d1.(txOn := true);
    if !spComp then (ShutDown(d2), EBusy) else (d2, Ok)
  }

  /** nic_load from the hardware init on. */
  function HardwareLoaded(d: Dev, mcp: bool, mfCfg: U32, mode: LoadMode, w: LoadWorld): (Dev, Rc)
  {
    if !w.initHw || !w.setupIrqs then (ErrorExited(d.(fw := d.fw + [LoadDone]), mcp), EFailed)
    else PortLoaded(Took(d, Irqs).(state := OpeningWait4Port), mcp, mfCfg, mode, w)
  }

  /** nic_load in OPENING_WAIT4_PORT: the function start, LOAD_DONE and the leading queue. */
  function PortLoaded(d: Dev, mcp: bool, mfCfg: U32, mode: LoadMode, w: LoadWorld): (Dev, Rc)
  {
    if !w.funcStart then (ErrorExited(d.(fw := d.fw + [LoadDone]), mcp), EFailed)
    else
      var d1 := if mcp then d.(fw := d.fw + [LoadDone]) else d;
      if mcp && !w.loadDoneAck then (ErrorExited(d1, mcp), EBusy)
      else if !w.setupLeading then (ErrorExited(d1, mcp), EFailed)
      else QueuesLoaded(Took(d1, TimerScan), mcp, mfCfg, mode, w)
  }

  /** bnx2x_nic_load, given the load code the LOAD_REQ step yields. */
  function Loaded(d: Dev, mcp: bool, code: Option<LoadCode>, mfCfg: U32, mode: LoadMode, w: LoadWorld): (Dev, Rc)
  {
    var d1 := d.(state := OpeningWait4Load, lastReported := InitialReport);
    if !w.allocMem then (d1, ENoMem)
    else
      var d2 := Took(d1, Mem);
      if !w.realNumQueues then (ErrorExited(d2, mcp), EFailed)
      else
        RequestLoaded(Took(d2, Napi), mcp, code, mfCfg, mode, w)
  }

  /** nic_load from the LOAD_REQ step on, given the load code it yields. */
  function RequestLoaded(d: Dev, mcp: bool, code: Option<LoadCode>, mfCfg: U32, mode: LoadMode, w: LoadWorld): (Dev, Rc)
  {
    var d1 := Requested(d, mcp, code);
    if !IsGranted(code) then (ErrorExited(d1, mcp), EBusy)
    else HardwareLoaded(d1, mcp, mfCfg, mode, w)
  }

  /** The unrolled releases of the first k load phases. */
  lemma UnwindTrail(k: nat)
    requires k <= |AllPhases|
    ensures Releases(AllPhases[..k]) ==
      (if k >= 5 then [Release(TimerScan)] else []) +
      (if k >= 4 then [Release(Irqs)] else []) +
      (if k >= 3 then [Release(Granted)] else []) +
      (if k >= 2 then [Release(Napi)] else []) +
      (if k >= 1 then [Release(Mem)] else [])
  {
    if k >= 1 {
      var ps := AllPhases[..k];
      assert ps[..k - 1] == AllPhases[..k - 1];
      UnwindTrail(k - 1);
    }
  }

  /** UnwindTrail after an existing trail t0, in the order the labels append. */
  lemma UnwindTrailFrom(t0: seq<Event>, k: nat)
    requires k <= |AllPhases|
    ensures t0 + Releases(AllPhases[..k]) ==
      t0 +
      (if k >= 5 then [Release(TimerScan)] else []) +
      (if k >= 4 then [Release(Irqs)] else []) +
      (if k >= 3 then [Release(Granted)] else []) +
      (if k >= 2 then [Release(Napi)] else []) +
      (if k >= 1 then [Release(Mem)] else [])
  {
    UnwindTrail(k);
  }

  /** d holds the first k phases, acquired in order since d0. */
  ghost predicate AcquiredFirst(d0: Dev, d: Dev, k: nat)
  {
    k <= |AllPhases| && d.phases == AllPhases[..k] && d.trail == d0.trail + Acquires(AllPhases[..k])
  }

  lemma AcquiredTook(d0: Dev, d: Dev, k: nat)
    requires k < |AllPhases| && AcquiredFirst(d0, d, k)
    ensures AcquiredFirst(d0, Took(d, AllPhases[k]), k + 1)
  {
    var ps := AllPhases[..k];
    assert AllPhases[..k + 1] == ps + [AllPhases[k]];
    assert Acquires(ps + [AllPhases[k]]) == Acquires(ps) + [Acquire(AllPhases[k])];
  }

  /** Leaving through LOAD_ERROR_EXIT with k phases held. */
  lemma ExitedTrail(d0: Dev, d: Dev, k: nat, mcp: bool)
    requires 1 <= k <= |AllPhases| && AcquiredFirst(d0, d, k)
    ensures ErrorExited(d, mcp).trail == d0.trail + (Acquires(AllPhases[..k]) + Releases(AllPhases[..k]))
  {
  }

  /** The conditions under which nic_load reaches the queue setup loop. */
  predicate ReachesQueues(w: LoadWorld, mcp: bool)
  {
    && w.allocMem && w.realNumQueues && (mcp ==> IsGranted(w.loadReq))
    && w.initHw && w.setupIrqs && w.funcStart && (mcp ==> w.loadDoneAck) && w.setupLeading
  }

  /** The conditions under which nic_load reaches the hardware init. */
  predicate ReachesHardware(w: LoadWorld, mcp: bool)
  {
    w.allocMem && w.realNumQueues && (mcp ==> IsGranted(w.loadReq))
  }

  lemma QueuesRc(d: Dev, mcp: bool, mfCfg: U32, mode: LoadMode, w: LoadWorld)
    requires d.phases == AllPhases && ReachesQueues(w, mcp)
    ensures var r := QueuesLoaded(d, mcp, mfCfg, mode, w);
      && r.1 == LoadRc(w, mcp) && r.0.state == LoadState(w, mcp, mode)
      && r.0.phases == (if r.0.state == Open || r.0.state == Diag then AllPhases else [])
  {
  }

  lemma QueuesTrail(d0: Dev, d: Dev, mcp: bool, mfCfg: U32, mode: LoadMode, w: LoadWorld)
    requires AcquiredFirst(d0, d, 5) && ReachesQueues(w, mcp)
    ensures QueuesLoaded(d, mcp, mfCfg, mode, w).0.trail == d0.trail + LoadTrail(w, mcp)
  {
    if FailLevel(w, mcp) != 0 {
      ExitedTrail(d0, d, 5, mcp);
      ExitedTrail(d0, d.(state := Open), 5, mcp);
    }
  }

  lemma QueuesCmds(d: Dev, mcp: bool, mfCfg: U32, mode: LoadMode, w: LoadWorld)
    requires |d.phases| == 5 && ReachesQueues(w, mcp)
    ensures QueuesLoaded(d, mcp, mfCfg, mode, w).0.fw == d.fw + QueuesFw(w, mcp, PendingCmd(mfCfg, d.pendingMax))
  {
  }

  lemma QueuesFlags(d: Dev, mcp: bool, mfCfg: U32, mode: LoadMode, w: LoadWorld)
    requires |d.phases| == 5 && ReachesQueues(w, mcp)
    ensures var r := QueuesLoaded(d, mcp, mfCfg, mode, w);
      && r.0.pmf == (if r.1 == Ok then d.pmf else false)
      && r.0.txOn == (if FailLevel(w, mcp) != 0 then d.txOn else if !w.spComp then false else mode != LoadDiag || d.txOn)
      && r.0.pendingMax == (if FailLevel(w, mcp) == 0 then 0 else d.pendingMax)
  {
  }

  lemma HardwareRc(d: Dev, mcp: bool, mfCfg: U32, mode: LoadMode, w: LoadWorld)
    requires d.phases == AllPhases[..3] && ReachesHardware(w, mcp)
    ensures var r := HardwareLoaded(d, mcp, mfCfg, mode, w);
      && r.1 == LoadRc(w, mcp) && r.0.state == LoadState(w, mcp, mode)
      && r.0.phases == (if r.0.state == Open || r.0.state == Diag then AllPhases else [])
  {
    if ReachesQueues(w, mcp) {
      var d1 := Took(d, Irqs).(state := OpeningWait4Port);
      var d2 := if mcp then d1.(fw := d1.fw + [LoadDone]) else d1;
      assert Took(d2, TimerScan).phases == AllPhases;
      QueuesRc(Took(d2, TimerScan), mcp, mfCfg, mode, w);
    }
  }

  lemma HardwareTrail(d0: Dev, d: Dev, mcp: bool, mfCfg: U32, mode: LoadMode, w: LoadWorld)
    requires AcquiredFirst(d0, d, 3) && ReachesHardware(w, mcp)
    ensures HardwareLoaded(d, mcp, mfCfg, mode, w).0.trail == d0.trail + LoadTrail(w, mcp)
  {
    if !w.initHw || !w.setupIrqs {
      ExitedTrail(d0, d.(fw := d.fw + [LoadDone]), 3, mcp);
    } else {
      AcquiredTook(d0, d, 3);
      var d1 := Took(d, Irqs).(state := OpeningWait4Port);
      var d2 := if mcp then d1.(fw := d1.fw + [LoadDone]) else d1;
      if !w.funcStart {
        ExitedTrail(d0, d1.(fw := d1.fw + [LoadDone]), 4, mcp);
      } else if (mcp && !w.loadDoneAck) || !w.setupLeading {
        ExitedTrail(d0, d2, 4, mcp);
      } else {
        AcquiredTook(d0, d2, 4);
        QueuesTrail(d0, Took(d2, TimerScan), mcp, mfCfg, mode, w);
      }
    }
  }

  lemma HardwareCmds(d: Dev, mcp: bool, mfCfg: U32, mode: LoadMode, w: LoadWorld)
    requires |d.phases| == 3 && ReachesHardware(w, mcp)
    ensures HardwareLoaded(d, mcp, mfCfg, mode, w).0.fw == d.fw + GrantedFw(w, mcp, PendingCmd(mfCfg, d.pendingMax))
  {
    if ReachesQueues(w, mcp) {
      var d1 := Took(d, Irqs).(state := OpeningWait4Port);
      var d2 := if mcp then d1.(fw := d1.fw + [LoadDone]) else d1;
      QueuesCmds(Took(d2, TimerScan), mcp, mfCfg, mode, w);
    }
  }

  lemma HardwareFlags(d: Dev, mcp: bool, mfCfg: U32, mode: LoadMode, w: LoadWorld)
    requires |d.phases| == 3 && ReachesHardware(w, mcp)
    ensures var r := HardwareLoaded(d, mcp, mfCfg, mode, w);
      && r.0.pmf == (if r.1 == Ok then d.pmf else false)
      && r.0.txOn == (if FailLevel(w, mcp) != 0 then d.txOn else if !w.spComp then false else mode != LoadDiag || d.txOn)
      && r.0.pendingMax == (if FailLevel(w, mcp) == 0 then 0 else d.pendingMax)
  {
    if ReachesQueues(w, mcp) {
      var d1 := Took(d, Irqs).(state := OpeningWait4Port);
      var d2 := if mcp then d1.(fw := d1.fw + [LoadDone]) else d1;
      QueuesFlags(Took(d2, TimerScan), mcp, mfCfg, mode, w);
    }
  }

  /** The load up to the LOAD_REQ step, as the hardware part sees it. */
  function Granting(d: Dev, mcp: bool, code: Option<LoadCode>): Dev
  {
    Requested(Took(Took(d.(state := OpeningWait4Load, lastReported := InitialReport), Mem), Napi), mcp, code)
  }

  /**
   * What bnx2x_nic_load returns and the state it leaves: -ENOMEM and
   * OPENING_WAIT4_LOAD without memory, ERROR after any later failure,
   * CLOSED after the slow-path timeout, else OPEN (DIAG for a diagnostic
   * load); an open device holds every phase, any other none.
   */
  lemma LoadedRc(d: Dev, mcp: bool, code: Option<LoadCode>, mfCfg: U32, mode: LoadMode, w: LoadWorld)
    requires d.phases == [] && (mcp ==> code == w.loadReq) && (!mcp ==> IsGranted(code))
    ensures var r := Loaded(d, mcp, code, mfCfg, mode, w);
      && r.1 == LoadRc(w, mcp) && r.0.state == LoadState(w, mcp, mode)
      && r.0.phases == (if r.0.state == Open || r.0.state == Diag then AllPhases else [])
      && r.0.lastReported == InitialReport
  {
    if ReachesHardware(w, mcp) {
      var g := Granting(d, mcp, code);
      assert g.phases == AllPhases[..3];
      HardwareRc(g, mcp, mfCfg, mode, w);
    }
  }

  /** The acquisitions and releases of bnx2x_nic_load are those of LoadTrail. */
  lemma LoadedTrail(d: Dev, mcp: bool, code: Option<LoadCode>, mfCfg: U32, mode: LoadMode, w: LoadWorld)
    requires d.phases == [] && (mcp ==> code == w.loadReq) && (!mcp ==> IsGranted(code))
    ensures Loaded(d, mcp, code, mfCfg, mode, w).0.trail == d.trail + LoadTrail(w, mcp)
  {
    if w.allocMem {
      var d1 := d.(state := OpeningWait4Load, lastReported := InitialReport);
      assert AcquiredFirst(d1, d1, 0);
      AcquiredTook(d1, d1, 0);
      var d2 := Took(d1, Mem);
      if !w.realNumQueues {
        ExitedTrail(d1, d2, 1, mcp);
      } else {
        AcquiredTook(d1, d2, 1);
        var dn := Took(d2, Napi);
        var dr := if mcp then dn.(fw := dn.fw + [LoadReq]) else dn;
        if !IsGranted(code) {
          ExitedTrail(d1, dr, 2, mcp);
        } else {
          AcquiredTook(d1, dr.(pmf := IsPmfCode(code.value)), 2);
          HardwareTrail(d1, Granting(d, mcp, code), mcp, mfCfg, mode, w);
        }
      }
    }
  }

  /** The MCP commands of nic_load from the LOAD_REQ step on. */
  lemma RequestCmds(d: Dev, mcp: bool, code: Option<LoadCode>, mfCfg: U32, mode: LoadMode, w: LoadWorld)
    requires |d.phases| == 2 && w.allocMem && w.realNumQueues
    requires (mcp ==> code == w.loadReq) && (!mcp ==> IsGranted(code))
    ensures RequestLoaded(d, mcp, code, mfCfg, mode, w).0.fw == d.fw + LoadFw(w, mcp, PendingCmd(mfCfg, d.pendingMax))
  {
    var d1 := Requested(d, mcp, code);
    var req := if mcp then [LoadReq] else [];
    var m := PendingCmd(mfCfg, d.pendingMax);
    assert d1.fw == d.fw + req && d1.pendingMax == d.pendingMax;
    if IsGranted(code) {
      assert RequestLoaded(d, mcp, code, mfCfg, mode, w) == HardwareLoaded(d1, mcp, mfCfg, mode, w);
      assert LoadFw(w, mcp, m) == req + GrantedFw(w, mcp, m);
      HardwareCmds(d1, mcp, mfCfg, mode, w);
      assert d1.fw + GrantedFw(w, mcp, m) == d.fw + (req + GrantedFw(w, mcp, m));
    } else {
      assert LoadFw(w, mcp, m) == req;
      assert ErrorExited(d1, mcp).fw == d1.fw;
    }
  }

  /** The MCP commands of bnx2x_nic_load are those of LoadFw. */
  lemma LoadedCmds(d: Dev, mcp: bool, code: Option<LoadCode>, mfCfg: U32, mode: LoadMode, w: LoadWorld)
    requires d.phases == [] && (mcp ==> code == w.loadReq) && (!mcp ==> IsGranted(code))
    ensures Loaded(d, mcp, code, mfCfg, mode, w).0.fw == d.fw + LoadFw(w, mcp, PendingCmd(mfCfg, d.pendingMax))
  {
    if w.allocMem && w.realNumQueues {
      var d2 := Took(Took(d.(state := OpeningWait4Load, lastReported := InitialReport), Mem), Napi);
      RequestCmds(d2, mcp, code, mfCfg, mode, w);
    }
  }

  /**
   * A reload (nic_unload, then nic_load(LOAD_NORMAL)) of device d0 returns
   * the load's code and state, its trail releases what d0 held and then
   * logs the load, and its firmware log gains the load's commands.
   */
  lemma ReloadOutcome(d0: Dev, mcp: bool, code: Option<LoadCode>, mfCfg: U32, w: LoadWorld)
    requires d0.state == Closed || d0.state == Error ==> d0.phases == []
    requires (mcp ==> code == w.loadReq) && (!mcp ==> IsGranted(code))
    ensures var r := Loaded(Unloaded(d0), mcp, code, mfCfg, LoadNormal, w);
      && r.1 == LoadRc(w, mcp) && r.0.state == LoadState(w, mcp, LoadNormal)
      && r.0.trail == d0.trail + Releases(d0.phases) + LoadTrail(w, mcp)
      && r.0.fw == d0.fw + LoadFw(w, mcp, PendingCmd(mfCfg, d0.pendingMax))
  {
    var d1 := Unloaded(d0);
    LoadedRc(d1, mcp, code, mfCfg, LoadNormal, w);
    LoadedTrail(d1, mcp, code, mfCfg, LoadNormal, w);
    LoadedCmds(d1, mcp, code, mfCfg, LoadNormal, w);
    assert d1.trail == d0.trail + Releases(d0.phases);
  }

  /**
   * The PMF role after bnx2x_nic_load: unchanged when the load fails before
   * the grant, the load code's once loaded, dropped after any later
   * failure; Tx started by a normal or open load, stopped by the
   * slow-path timeout; a pending MAX_BW value used once the MAC is set.
   */
  lemma LoadedFlags(d: Dev, mcp: bool, code: Option<LoadCode>, mfCfg: U32, mode: LoadMode, w: LoadWorld)
    requires d.phases == [] && (mcp ==> code == w.loadReq) && (!mcp ==> IsGranted(code))
    ensures var r := Loaded(d, mcp, code, mfCfg, mode, w);
      && r.0.pmf == (if !w.allocMem || FailLevel(w, mcp) == 1 || FailLevel(w, mcp) == 2 then d.pmf
                     else if r.1 == Ok then IsPmfCode(code.value) else false)
      && r.0.txOn == (if !w.allocMem || FailLevel(w, mcp) != 0 then d.txOn
                      else if !w.spComp then false else mode != LoadDiag || d.txOn)
      && r.0.pendingMax == (if w.allocMem && FailLevel(w, mcp) == 0 then 0 else d.pendingMax)
  {
    if ReachesHardware(w, mcp) {
      HardwareFlags(Granting(d, mcp, code), mcp, mfCfg, mode, w);
    }
  }

  /** The first failure is at i when ok[i] fails and nothing before it does. */
  lemma {:induction false} FirstFailureAt(ok: seq<bool>, i: nat)
    requires i < |ok| && !ok[i] && false !in ok[..i]
    ensures FirstFailure(ok) == Some(i)
  {
    if i > 0 {
      assert ok[0] == ok[..i][0];
      assert ok[1..][..i - 1] == ok[..i][1..];
      FirstFailureAt(ok[1..], i - 1);
    }
  }

  // ---------------------------------------------------------------- device

  class Device {
    const mcp: bool             // !BP_NOMCP
    const path: nat             // BP_PATH
    const port: nat             // BP_PORT
    const loadCount: array2<int> // the driver-wide load_count[path][common, port0, port1]

    var state: DevState
    var pmf: bool
    var phases: seq<Phase>      // what the last load acquired and holds
    var trail: seq<Event>       // every acquisition and release so far
    var fw: seq<FwCmd>          // every command this model sends to the MCP (load, not unload)
    var mfCfg: U32              // this function's MF configuration
    var pendingMax: U32         // a MAX_BW value waiting for the next load
    var lastReported: LinkReport
    var linkCnt: nat
    var carrier: bool           // netif_carrier_ok
    var txOn: bool              // the Tx queues are started
    var recoveryDone: bool      // recovery_state == BNX2X_RECOVERY_DONE
    var isLeader: bool
    var running: bool           // netif_running
    var mtu: int
    var tpa: bool               // TPA_ENABLE_FLAG
    var loopback: bool          // loopback_mode == LOOPBACK_BMAC (else LOOPBACK_NONE)

    /** The shape of the load counts, and each path's count the sum of its ports'. */
    ghost predicate Counted()
      reads loadCount
    {
      && loadCount.Length0 == 2 && loadCount.Length1 == 3 && path < 2 && port < 2
      && (forall p :: 0 <= p < 2 ==> CountsOk(loadCount[p, 0], loadCount[p, 1], loadCount[p, 2]))
    }

    /** Between operations: an open (or diagnostic) device holds every load phase, any other none. */
    ghost predicate Valid()
      reads this, loadCount
    {
      Counted() && phases == (if state == Open || state == Diag then AllPhases else [])
    }

    /** A closed device, with the driver-wide load counts. */
    constructor(mcp: bool, path: nat, port: nat, loadCount: array2<int>, mtu: int)
      requires loadCount.Length0 == 2 && loadCount.Length1 == 3 && path < 2 && port < 2
      requires forall p :: 0 <= p < 2 ==> CountsOk(loadCount[p, 0], loadCount[p, 1], loadCount[p, 2])
      ensures Valid() && state == Closed && trail == [] && fw == [] && this.mtu == mtu
      ensures this.mcp == mcp && this.path == path && this.port == port && this.loadCount == loadCount
    {
      this.mcp, this.path, this.port, this.loadCount := mcp, path, port, loadCount;
      state, pmf, phases, trail, fw := Closed, false, [], [], [];
      mfCfg, pendingMax, lastReported, linkCnt, carrier := 0, 0, InitialReport, 0, false;
      txOn, recoveryDone, isLeader, running := false, true, false, false;
      this.mtu, tpa, loopback := mtu, true, false;
    }

    /** The fields the load and unload paths change. */
    ghost function Snap(): Dev
      reads this
    {
      Dev(state, pmf, phases, trail, fw, pendingMax, txOn, lastReported)
    }

    /** The load code the LOAD_REQ step yields, from the MCP or from the path's counts c. */
    ghost function CodeOf(w: LoadWorld, c: seq<int>): Option<LoadCode>
      requires |c| == 3 && port < 2
    {
      if mcp then w.loadReq else Some(NoMcpCode(c[0] + 1, c[1 + port] + 1))
    }

    ghost function Counts(p: nat): seq<int>
      requires p < loadCount.Length0 && loadCount.Length1 == 3
      reads loadCount
    {
      [loadCount[p, 0], loadCount[p, 1], loadCount[p, 2]]
    }

    /**
     * Sending LOAD_REQ, or without an MCP counting this load in the path and
     * port counts and deciding the load code from them; the PMF role goes
     * with a COMMON, COMMON_CHIP or PORT code.  A granted load is acquired.
     */
    method LoadRequest(w: LoadWorld) returns (granted: bool)
      requires Counted()
      modifies this`fw, this`pmf, this`phases, this`trail, loadCount
      ensures Counted()
      ensures granted == IsGranted(CodeOf(w, old(Counts(path))))
      ensures Snap() == Requested(old(Snap()), mcp, CodeOf(w, old(Counts(path))))
      ensures forall p, j :: 0 <= p < 2 && 0 <= j < 3 ==>
        loadCount[p, j] == old(loadCount[p, j]) + (if !mcp && p == path && (j == 0 || j == 1 + port) then 1 else 0)
    {
      var code: Option<LoadCode>;
      if mcp {
        fw := fw + [LoadReq];
        code := w.loadReq;
      } else {
        loadCount[path, 0] := loadCount[path, 0] + 1;
        loadCount[path, 1 + port] := loadCount[path, 1 + port] + 1;
        code := Some(NoMcpCode(loadCount[path, 0], loadCount[path, 1 + port]));
      }
      granted := IsGranted(code);
      if granted {
        pmf := IsPmfCode(code.value);
        Take(Granted);
      }
    }

    /**
     * The fall-through from load_error4 to load_error0: each label gives
     * back its phase, so whatever the load holds is released last-acquired
     * first; load_error2 also tells the MCP and drops the PMF role.
     */
    method Unwind()
      requires |phases| <= |AllPhases| && phases == AllPhases[..|phases|]
      modifies this`phases, this`trail, this`fw, this`pmf
      ensures Snap() == Unwound(old(Snap()), mcp)
    {
      ghost var ps := phases;
      var k := |phases|;
      if k >= 5 {  // load_error4
        trail := trail + [Release(TimerScan)];
      }
      if k >= 4 {  // load_error3
        trail := trail + [Release(Irqs)];
      }
      if k >= 3 {  // load_error2
        fw := fw + UnloadCmds(mcp);
        pmf := false;
        trail := trail + [Release(Granted)];
      }
      if k >= 2 {  // load_error1
        trail := trail + [Release(Napi)];
      }
      if k >= 1 {  // load_error0
        trail := trail + [Release(Mem)];
      }
      phases := [];
      assert fw == old(fw) + (if k >= 3 then UnloadCmds(mcp) else []);
      assert pmf == (if k >= 3 then false else old(pmf));
      UnwindTrailFrom(old(trail), k);
      assert trail == old(trail) + Releases(ps);
    }

    /** LOAD_ERROR_EXIT: the ERROR state, then the unwinding. */
    method LoadErrorExit()
      requires |phases| <= |AllPhases| && phases == AllPhases[..|phases|]
      modifies this`phases, this`trail, this`fw, this`pmf, this`state
      ensures Snap() == ErrorExited(old(Snap()), mcp)
    {
      state := Error;
      Unwind();
    }

    /** Acquiring phase p. */
    method Take(p: Phase)
      modifies this`phases, this`trail
      ensures Snap() == Took(old(Snap()), p)
    {
      phases := phases + [p];
      trail := trail + [Acquire(p)];
    }

    /**
     * bnx2x_nic_load on a device that holds nothing: acquire memory, NAPI,
     * the load, the interrupts and the queues in order, moving from
     * OPENING_WAIT4_LOAD to OPENING_WAIT4_PORT to OPEN, or DIAG for a
     * diagnostic load.  The outcome is the one LoadRc, LoadState,
     * LoadTrail and LoadFw give; without an MCP the path and port load
     * counts are raised once the memory and queue count are set.
     */
    method NicLoad(mode: LoadMode, w: LoadWorld) returns (rc: Rc)
      requires Valid() && phases == []
      modifies this`state, this`pmf, this`phases, this`trail, this`fw, this`pendingMax, this`txOn
      modifies this`lastReported, loadCount
      ensures Valid()
      ensures (Snap(), rc) == Loaded(old(Snap()), mcp, CodeOf(w, old(Counts(path))), mfCfg, mode, w)
      ensures rc == LoadRc(w, mcp) && state == LoadState(w, mcp, mode)
      ensures trail == old(trail) + LoadTrail(w, mcp)
      ensures fw == old(fw) + LoadFw(w, mcp, PendingCmd(mfCfg, old(pendingMax)))
      ensures forall p, j :: 0 <= p < 2 && 0 <= j < 3 ==>
        loadCount[p, j] == old(loadCount[p, j]) +
          (if !mcp && w.allocMem && w.realNumQueues && p == path && (j == 0 || j == 1 + port) then 1 else 0)
    {
      ghost var d0, c0 := Snap(), Counts(path);
      ghost var code := CodeOf(w, c0);
      rc := LoadSteps(mode, w);
      LoadedRc(d0, mcp, code, mfCfg, mode, w);
      LoadedTrail(d0, mcp, code, mfCfg, mode, w);
      LoadedCmds(d0, mcp, code, mfCfg, mode, w);
    }

    /** The steps of nic_load, up to the grant of the load. */
    method LoadSteps(mode: LoadMode, w: LoadWorld) returns (rc: Rc)
      requires Counted() && phases == []
      modifies this`state, this`pmf, this`phases, this`trail, this`fw, this`pendingMax, this`txOn
      modifies this`lastReported, loadCount
      ensures Counted()
      ensures (Snap(), rc) == Loaded(old(Snap()), mcp, CodeOf(w, old(Counts(path))), mfCfg, mode, w)
      ensures forall p, j :: 0 <= p < 2 && 0 <= j < 3 ==>
        loadCount[p, j] == old(loadCount[p, j]) +
          (if !mcp && w.allocMem && w.realNumQueues && p == path && (j == 0 || j == 1 + port) then 1 else 0)
    {
      ghost var d0 := Snap();
      ghost var code := CodeOf(w, Counts(path));
      state := OpeningWait4Load;
      lastReported := InitialReport;
      ghost var d1 := Snap();
      assert d1 == d0.(state := OpeningWait4Load, lastReported := InitialReport);
      if !w.allocMem {
        return ENoMem;
      }
      Take(Mem);
      if !w.realNumQueues {
        LoadErrorExit();
        assert Snap() == ErrorExited(Took(d1, Mem), mcp);
        return EFailed;
      }
      Take(Napi);
      rc := LoadGranted(mode, w);
    }

    /** nic_load from the LOAD_REQ step on, with memory and NAPI held. */
    method LoadGranted(mode: LoadMode, w: LoadWorld) returns (rc: Rc)
      requires Counted() && phases == AllPhases[..2]
      modifies this`state, this`pmf, this`phases, this`trail, this`fw, this`pendingMax, this`txOn, loadCount
      ensures Counted()
      ensures (Snap(), rc) == RequestLoaded(old(Snap()), mcp, CodeOf(w, old(Counts(path))), mfCfg, mode, w)
      ensures forall p, j :: 0 <= p < 2 && 0 <= j < 3 ==>
        loadCount[p, j] == old(loadCount[p, j]) + (if !mcp && p == path && (j == 0 || j == 1 + port) then 1 else 0)
    {
      var granted := LoadRequest(w);
      if !granted {
        LoadErrorExit();
        return EBusy;
      }
      rc := LoadHardware(mode, w);
    }

    /** nic_load from the hardware init on, once the load is granted. */
    method LoadHardware(mode: LoadMode, w: LoadWorld) returns (rc: Rc)
      requires phases == AllPhases[..3]
      modifies this`state, this`pmf, this`phases, this`trail, this`fw, this`pendingMax, this`txOn
      ensures (Snap(), rc) == HardwareLoaded(old(Snap()), mcp, mfCfg, mode, w)
    {
      if !w.initHw || !w.setupIrqs {
        fw := fw + [LoadDone];
        LoadErrorExit();
        return EFailed;
      }
      Take(Irqs);
      state := OpeningWait4Port;
      rc := LoadPort(mode, w);
    }

    /** nic_load in OPENING_WAIT4_PORT, once the interrupts are set up. */
    method LoadPort(mode: LoadMode, w: LoadWorld) returns (rc: Rc)
      requires phases == AllPhases[..4]
      modifies this`state, this`pmf, this`phases, this`trail, this`fw, this`pendingMax, this`txOn
      ensures (Snap(), rc) == PortLoaded(old(Snap()), mcp, mfCfg, mode, w)
    {
      if !w.funcStart {
        fw := fw + [LoadDone];
        LoadErrorExit();
        return EFailed;
      }
      if mcp {
        fw := fw + [LoadDone];
        if !w.loadDoneAck {
          LoadErrorExit();
          return EBusy;
        }
      }
      if !w.setupLeading {
        LoadErrorExit();
        return EFailed;
      }
      Take(TimerScan);
      rc := LoadQueues(mode, w);
    }

    /** The last part of nic_load: the queues, RSS, the MAC and the start of Tx. */
    method LoadQueues(mode: LoadMode, w: LoadWorld) returns (rc: Rc)
      requires phases == AllPhases
      modifies this`state, this`pmf, this`phases, this`trail, this`fw, this`pendingMax, this`txOn
      ensures (Snap(), rc) == QueuesLoaded(old(Snap()), mcp, mfCfg, mode, w)
    {
      var failed := SetupQueues(w.queueSetup);
      if failed.Some? || !w.initRss {
        LoadErrorExit();
        return EFailed;
      }
      state := Open;
      if !w.setEthMac {
        LoadErrorExit();
        return EFailed;
      }
      rc := StartFastPath(mode, w.spComp);
    }

    /** The end of nic_load, once the MAC is set. */
    method StartFastPath(mode: LoadMode, spComp: bool) returns (rc: Rc)
      requires phases == AllPhases
      modifies this`state, this`pmf, this`phases, this`trail, this`pendingMax, this`fw, this`txOn
      ensures (Snap(), rc) == Started(old(Snap()), mfCfg, mode, spComp)
    {
      ghost var d0 := Snap();
      ghost var cmd := PendingCmd(mfCfg, pendingMax);
      if pendingMax != 0 {
        var c := MaxMfCommand(mfCfg, pendingMax);
        if c.Some? {
          fw := fw + [SetMfBw(c.value)];
        }
        pendingMax := 0;
      }
      ghost var d1 := Snap();
      assert d1 == d0.(fw := d0.fw + (if cmd.Some? then [SetMfBw(cmd.value)] else []), pendingMax := 0);
      match mode {
        case LoadNormal => txOn := true;
        case LoadOpen => txOn := true;
        case LoadDiag => state := Diag;
      }
      assert Snap() == if mode == LoadDiag then d1.(state := Diag) else d1.(txOn := true);
      if !spComp {
        ShutDownNic();
        return EBusy;
      }
      rc := Ok;
    }

    /** The bnx2x_setup_queue loop over the non-default queues: the first that fails, if any. */
    method SetupQueues(ok: seq<bool>) returns (failed: Option<nat>)
      ensures failed == FirstFailure(ok)
    {
      var i := 0;
      while i < |ok|
        invariant 0 <= i <= |ok| && false !in ok[..i]
      {
        if !ok[i] {
          FirstFailureAt(ok, i);
          return Some(i);
        }
        assert ok[..i + 1] == ok[..i] + [ok[i]];
        i := i + 1;
      }
      assert ok[..i] == ok;
      return None;
    }

    /** The unload of an open device, past nic_unload's guard. */
    method ShutDownNic()
      modifies this`state, this`txOn, this`pmf, this`phases, this`trail
      ensures Snap() == ShutDown(old(Snap()))
    {
      state := ClosingWait4Halt;
      txOn := false;
      pmf := false;
      trail := trail + Releases(phases);
      phases := [];
      state := Closed;
    }

    /**
     * bnx2x_nic_unload: on a CLOSED or ERROR device only give up the
     * recovery leadership and fail with -EINVAL; otherwise stop Tx, drop
     * the PMF role, release everything the load holds and end CLOSED.
     */
    method NicUnload(mode: UnloadMode) returns (rc: Rc)
      requires Valid()
      modifies this`state, this`txOn, this`pmf, this`phases, this`trail, this`recoveryDone, this`isLeader
      ensures Valid()
      ensures old(state) == Closed || old(state) == Error ==>
        && rc == EInval && recoveryDone && !isLeader && Snap() == old(Snap())
      ensures old(state) != Closed && old(state) != Error ==>
        && rc == Ok && Snap() == ShutDown(old(Snap()))
        && recoveryDone == old(recoveryDone) && isLeader == old(isLeader)
      ensures Snap() == Unloaded(old(Snap()))
    {
      if state == Closed || state == Error {
        recoveryDone := true;
        isLeader := false;
        return EInval;
      }
      ShutDownNic();
      rc := Ok;
    }

    /**
     * __bnx2x_link_report: report the link data (counting the report and
     * turning the carrier off for a link down, on otherwise) unless it
     * repeats the last report or both say link down; afterwards the same
     * data would not be reported again.
     */
    method LinkReport(lv: LinkVars, mf: MfMode, funcDisabled: bool)
      modifies this`lastReported, this`linkCnt, this`carrier
      ensures var cur := FillReport(lv, mf, mfCfg, funcDisabled);
        && (NewReport(cur, old(lastReported)) ==>
              lastReported == cur && linkCnt == old(linkCnt) + 1 && carrier == !cur.down)
        && (!NewReport(cur, old(lastReported)) ==>
              lastReported == old(lastReported) && linkCnt == old(linkCnt) && carrier == old(carrier))
        && !NewReport(cur, lastReported)
    {
      var cur := FillReport(lv, mf, mfCfg, funcDisabled);
      if NewReport(cur, lastReported) {
        linkCnt := linkCnt + 1;
        lastReported := cur;
        if cur.down {
          carrier := false;
        } else {
          carrier := true;
        }
      }
    }

    /** Nothing the reload methods may change has changed: the device, the recovery flags and the load counts. */
    twostate predicate Untouched()
      reads this, loadCount
    {
      Snap() == old(Snap()) && recoveryDone == old(recoveryDone) && isLeader == old(isLeader) && unchanged(loadCount)
    }

    /**
     * The device after nic_unload then nic_load(LOAD_NORMAL) with world w:
     * a CLOSED or ERROR device is only marked recovered and loses the
     * leadership; any other is shut down first (Unloaded); then the load
     * runs as Loaded says (ReloadOutcome gives its code, state, trail and
     * firmware commands) and, without an MCP, raises the load counts.
     */
    twostate predicate Reloaded(w: LoadWorld, rc: Rc)
      reads this, loadCount
    {
      && Valid()
      && var down := old(state) == Closed || old(state) == Error;
      && (Snap(), rc) == Loaded(Unloaded(old(Snap())), mcp, CodeOf(w, old(Counts(path))), mfCfg, LoadNormal, w)
      && recoveryDone == (old(recoveryDone) || down) && isLeader == (old(isLeader) && !down)
      && forall p, j :: 0 <= p < 2 && 0 <= j < 3 ==>
           loadCount[p, j] == old(loadCount[p, j]) +
             (if !mcp && w.allocMem && w.realNumQueues && p == path && (j == 0 || j == 1 + port) then 1 else 0)
    }

    /** The unload and load of a reload (the body of bnx2x_reload_if_running on a running interface). */
    method Reload(w: LoadWorld) returns (rc: Rc)
      requires Valid()
      modifies this`state, this`txOn, this`pmf, this`phases, this`trail, this`recoveryDone, this`isLeader,
        this`fw, this`pendingMax, this`lastReported, loadCount
      ensures Reloaded(w, rc)
    {
      var _ := NicUnload(UnloadNormal);
      rc := NicLoad(LoadNormal, w);
    }

    /** bnx2x_reload_if_running: unload and load again if the interface is up. */
    method ReloadIfRunning(w: LoadWorld) returns (rc: Rc)
      requires Valid()
      modifies this`state, this`txOn, this`pmf, this`phases, this`trail, this`recoveryDone, this`isLeader,
        this`fw, this`pendingMax, this`lastReported, loadCount
      ensures Valid()
      ensures !running ==> rc == Ok && Untouched()
      ensures running ==> Reloaded(w, rc)
    {
      if !running {
        return Ok;
      }
      rc := Reload(w);
    }

    /**
     * bnx2x_change_mtu: refused with -EAGAIN during parity recovery and
     * with -EINVAL outside 46..9600 bytes; otherwise the new MTU, applied
     * by reloading a running interface.
     */
    method ChangeMtu(newMtu: int, w: LoadWorld) returns (rc: Rc)
      requires Valid()
      modifies this`mtu, this`state, this`txOn, this`pmf, this`phases, this`trail, this`recoveryDone, this`isLeader,
        this`fw, this`pendingMax, this`lastReported, loadCount
      ensures Valid()
      ensures !old(recoveryDone) ==> rc == EAgain && mtu == old(mtu) && Untouched()
      ensures old(recoveryDone) && !(46 <= newMtu <= 9600) ==> rc == EInval && mtu == old(mtu) && Untouched()
      ensures old(recoveryDone) && 46 <= newMtu <= 9600 ==>
        && mtu == newMtu
        && (running ==> Reloaded(w, rc))
        && (!running ==> rc == Ok && Untouched())
    {
      if !recoveryDone {
        return EAgain;
      }
      MtuRange(newMtu);
      if !MtuInRange(newMtu) {
        return EInval;
      }
      mtu := newMtu;
      rc := ReloadIfRunning(w);
    }

    /**
     * bnx2x_set_features: TPA follows the LRO feature and BMAC loopback
     * the loopback feature; a change reloads a running interface unless a
     * parity recovery is in progress (which loads it at its end).
     */
    method SetFeatures(features: set<Feature>, w: LoadWorld) returns (rc: Rc)
      requires Valid()
      modifies this`tpa, this`loopback, this`state, this`txOn, this`pmf, this`phases, this`trail, this`recoveryDone, this`isLeader,
        this`fw, this`pendingMax, this`lastReported, loadCount
      ensures Valid()
      ensures tpa == (Lro in features) && loopback == (Loopback in features)
      ensures var changed := old(tpa) != (Lro in features) || old(loopback) != (Loopback in features);
        && (changed && old(recoveryDone) && running ==> Reloaded(w, rc))
        && (!(changed && old(recoveryDone) && running) ==> rc == Ok && Untouched())
    {
      var newTpa := Lro in features;
      var newLoop := Loopback in features;
      var reload := newLoop != loopback || newTpa != tpa;
      loopback, tpa := newLoop, newTpa;
      rc := Ok;
      if reload && recoveryDone {
        rc := ReloadIfRunning(w);
      }
    }
  }
}
