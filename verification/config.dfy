/**
 * Device configuration arithmetic of bnx2x_cmn.c: the multi-function speed
 * limit, the link report, the maximum-bandwidth update, queue counts and
 * receive buffer sizes, the RSS indirection table, the queue shrink after a
 * failed fast-path allocation, the PHY and link configuration index, the
 * MTU range, the feature fix-up and interrupt coalescing.
 *
 * Constants defined in bnx2x.h, bnx2x_cmn.h, bnx2x_hsi.h and the Linux
 * headers are written out here with their values; those headers are not
 * part of this model.
 */
module Config {
  import opened Base

  // ---------------------------------------------------------------- MF speed

  /** The multi-function mode of the device: none, switch-independent or switch-dependent. */
  datatype MfMode = SingleFunction | SwitchIndependent | SwitchDependent

  const U32_MOD: int := 0x1_0000_0000
  type U32 = x: int | 0 <= x < 0x1_0000_0000

  /**
   * bnx2x_extract_max_cfg: the MAX_BW field (bits 16-31) of a function's
   * MF configuration, with 0 read as 100.
   */
  function MaxCfg(mfCfg: U32): (m: U16)
    ensures 0 < m
  {
    var raw := mfCfg / 0x1_0000;
    if raw == 0 then 100 else raw
  }

  /**
   * bnx2x_get_mf_speed: the line speed, limited in switch-independent mode
   * to MAX_BW percent of it and in switch-dependent mode to MAX_BW times
   * 100 Mbps; both products are stored in u16 variables.
   */
  function MfSpeed(lineSpeed: U16, mf: MfMode, mfCfg: U32): U16
  {
    var maxCfg := MaxCfg(mfCfg);
    match mf
    case SingleFunction => lineSpeed
    case SwitchIndependent => Wrap16(lineSpeed * maxCfg / 100)
    case SwitchDependent =>
      var vnMaxRate := Wrap16(maxCfg * 100);
      if vnMaxRate < lineSpeed then vnMaxRate else lineSpeed
  }

  /**
   * A function never reports more than the line speed: unchanged without
   * MF, the MAX_BW percentage of it in switch-independent mode (for a
   * percentage up to 100), and the smaller of it and MAX_BW * 100 Mbps in
   * switch-dependent mode (for MAX_BW up to 655, where the product fits a
   * u16).
   */
  lemma MfSpeedLimit(lineSpeed: U16, mf: MfMode, mfCfg: U32)
    ensures var r := MfSpeed(lineSpeed, mf, mfCfg);
      r <= lineSpeed || (mf == SwitchIndependent && MaxCfg(mfCfg) > 100)
    ensures mf == SingleFunction ==> MfSpeed(lineSpeed, mf, mfCfg) == lineSpeed
    ensures mf == SwitchIndependent && MaxCfg(mfCfg) <= 100 ==>
      MfSpeed(lineSpeed, mf, mfCfg) == lineSpeed * MaxCfg(mfCfg) / 100
    ensures mf == SwitchDependent && MaxCfg(mfCfg) <= 655 ==>
      MfSpeed(lineSpeed, mf, mfCfg) == if MaxCfg(mfCfg) * 100 < lineSpeed then MaxCfg(mfCfg) * 100 else lineSpeed
  {
    var m := MaxCfg(mfCfg);
    match mf
    case SingleFunction =>
    case SwitchIndependent =>
      if m <= 100 {
        ScaleDown(lineSpeed, m);
      }
    case SwitchDependent =>
      if m <= 655 {
        assert m * 100 < U16_MOD;
      }
  }

  lemma ScaleDown(x: nat, m: nat)
    requires m <= 100
    ensures x * m / 100 <= x
  {
    assert x * m <= x * 100 by {
      assert x * (100 - m) >= 0;
    }
  }

  // ------------------------------------------------------------- link report

  /** What the driver knows of the link (link_vars), reduced to what the report uses. */
  datatype LinkVars = LinkVars(lineSpeed: U16, linkUp: bool, fullDuplex: bool, rxPause: bool, txPause: bool)

  /** bnx2x_link_report_data: the effective speed and the four report flags. */
  datatype LinkReport = LinkReport(lineSpeed: U16, down: bool, fullDuplex: bool, rxFcOn: bool, txFcOn: bool)

  /** The report data a freshly loaded device starts from: all zero but the link-down flag. */
  const InitialReport := LinkReport(0, true, false, false, false)

  /**
   * bnx2x_fill_report_data: the MF speed, and the link reported down when
   * the link is down or the function is disabled (MF_FUNC_DIS).
   */
  function FillReport(lv: LinkVars, mf: MfMode, mfCfg: U32, funcDisabled: bool): (r: LinkReport)
    ensures r.down <==> !lv.linkUp || funcDisabled
    ensures r.lineSpeed == MfSpeed(lv.lineSpeed, mf, mfCfg)
    ensures r.fullDuplex == lv.fullDuplex && r.rxFcOn == lv.rxPause && r.txFcOn == lv.txPause
  {
    LinkReport(MfSpeed(lv.lineSpeed, mf, mfCfg), !lv.linkUp || funcDisabled,
               lv.fullDuplex, lv.rxPause, lv.txPause)
  }

  /**
   * __bnx2x_link_report's test: report unless the data equals the last
   * reported data, or both the last and the current report say link down.
   */
  predicate NewReport(cur: LinkReport, last: LinkReport)
  {
    !(cur == last || (last.down && cur.down))
  }

  /**
   * Once a report is made it is not repeated: the same data is never
   * reported twice in a row, and neither is link down, whatever the speed
   * or flags; a report differs from the last in some field, and a link-up
   * report always follows a change.
   */
  lemma ReportDedup(cur: LinkReport, last: LinkReport, next: LinkReport)
    ensures NewReport(cur, last) ==> !NewReport(cur, cur)
    ensures NewReport(cur, last) && cur.down && next.down ==> !NewReport(next, cur)
    ensures NewReport(cur, last) ==> cur != last && (cur.down ==> !last.down)
    ensures !cur.down && cur != last ==> NewReport(cur, last)
  {
  }

  // ------------------------------------------------------------ MF max config

  /**
   * bnx2x_update_max_mf_config: the MF configuration to send with
   * SET_MF_BW, if the new MAX_BW value differs from the current one: the
   * low 16 bits kept and value << 16, truncated to 32 bits, in the MAX_BW
   * field.
   */
  function MaxMfCommand(mfCfg: U32, value: U32): (cmd: Option<U32>)
    ensures cmd.None? <==> value == MaxCfg(mfCfg)
  {
    if value != MaxCfg(mfCfg) then Some(mfCfg % 0x1_0000 + (value % 0x1_0000) * 0x1_0000) else None
  }

  /**
   * A SET_MF_BW command changes only the MAX_BW field, and a non-zero value
   * below 2^16 is read back from the new configuration unchanged.
   */
  lemma MaxMfCommandSets(mfCfg: U32, value: U32)
    requires value != MaxCfg(mfCfg)
    ensures var c := MaxMfCommand(mfCfg, value).value;
      && c % 0x1_0000 == mfCfg % 0x1_0000
      && c / 0x1_0000 == value % 0x1_0000
      && (0 < value < 0x1_0000 ==> MaxCfg(c) == value)
  {
  }

  // ------------------------------------------------------------------ queues

  /** The RSS mode (multi_mode); other modes than these two fall back to one queue. */
  datatype RssMode = RssDisabled | RssRegular | RssOther

  /**
   * bnx2x_set_num_queues: one Ethernet queue without RSS, cpuQueues (what
   * bnx2x_calc_num_queues gives) with regular RSS, plus the nonEth
   * non-Ethernet queues (NON_ETH_CONTEXT_USE).
   */
  function NumQueues(mode: RssMode, cpuQueues: nat, nonEth: nat): (n: nat)
    ensures n - nonEth == (if mode == RssRegular then cpuQueues else 1)
    ensures n >= nonEth && (cpuQueues >= 1 ==> n - nonEth >= 1)
  {
    (if mode == RssRegular then cpuQueues else 1) + nonEth
  }

  /** ETH_OVREHEAD: Ethernet header, VLAN tag and CRC, with spare. */
  const ETH_OVREHEAD: int := ETH_HLEN + 8 + 8
  const IP_HEADER_ALIGNMENT_PADDING: int := 2
  const BNX2X_FCOE_MINI_JUMBO_MTU: int := 2500

  /**
   * The receive buffer size of one queue: a full frame of the MTU (of the
   * FCoE mini-jumbo MTU on the FCoE ring) with Ethernet overhead, the
   * firmware alignment fwAlign (BNX2X_FW_RX_ALIGN, which depends on the
   * cache line size) and the IP header alignment padding.
   */
  function RxBufSize(mtu: int, fcoe: bool, fwAlign: nat): int
  {
    (if fcoe then BNX2X_FCOE_MINI_JUMBO_MTU else mtu) + ETH_OVREHEAD + fwAlign + IP_HEADER_ALIGNMENT_PADDING
  }

  /**
   * bnx2x_set_rx_buf_size: size every queue's receive buffer; the queue at
   * fcoeIdx, if any, is the FCoE L2 ring.
   */
  method SetRxBufSize(sizes: array<int>, fcoeIdx: Option<nat>, mtu: int, fwAlign: nat)
    modifies sizes
    ensures forall i :: 0 <= i < sizes.Length ==>
      sizes[i] == RxBufSize(mtu, fcoeIdx == Some(i), fwAlign)
  {
    var i := 0;
    while i < sizes.Length
      invariant 0 <= i <= sizes.Length
      invariant forall j :: 0 <= j < i ==> sizes[j] == RxBufSize(mtu, fcoeIdx == Some(j), fwAlign)
    {
      sizes[i] := RxBufSize(mtu, fcoeIdx == Some(i), fwAlign);
      i := i + 1;
    }
  }

  /** IEEE 802.1Q clause 9: one VLAN tag. */
  const VLAN_HLEN: int := 4
  /** IEEE 802.3 clause 3: the frame check sequence. */
  const ETH_FCS_LEN: int := 4

  /** The longest frame an MTU lets onto the wire: header, one VLAN tag, payload and CRC. */
  function MaxFrame(mtu: int): int
  {
    ETH_HLEN + VLAN_HLEN + mtu + ETH_FCS_LEN
  }

  /**
   * For every MTU bnx2x_change_mtu accepts, the space an Ethernet queue's
   * buffer leaves after the firmware alignment and the IP header padding
   * holds the longest frame of that MTU, and stays within a jumbo frame's
   * overhead; a larger MTU never gets a smaller buffer.  The FCoE ring's
   * buffer holds every frame of the mini-jumbo MTU or less, whatever the
   * device MTU, and is larger than an Ethernet queue's exactly when the
   * device MTU is below the mini-jumbo MTU.
   */
  lemma RxBufSizeFits(mtu: int, mtu2: int, fwAlign: nat)
    requires MtuInRange(mtu)
    ensures var room := RxBufSize(mtu, false, fwAlign) - fwAlign - IP_HEADER_ALIGNMENT_PADDING;
      MaxFrame(mtu) <= room <= MaxFrame(ETH_MAX_JUMBO_PACKET_SIZE) + (ETH_OVREHEAD - ETH_HLEN - VLAN_HLEN - ETH_FCS_LEN)
    ensures mtu <= mtu2 ==> RxBufSize(mtu, false, fwAlign) <= RxBufSize(mtu2, false, fwAlign)
    ensures var room := RxBufSize(mtu, true, fwAlign) - fwAlign - IP_HEADER_ALIGNMENT_PADDING;
      forall m :: m <= BNX2X_FCOE_MINI_JUMBO_MTU ==> MaxFrame(m) <= room
    ensures RxBufSize(mtu, true, fwAlign) > RxBufSize(mtu, false, fwAlign) <==> mtu < BNX2X_FCOE_MINI_JUMBO_MTU
  {
  }

  /** T_ETH_INDIRECTION_TABLE_SIZE. */
  const IND_TABLE_SIZE: int := 128

  /**
   * The indirection table of bnx2x_init_rss_pf: with RSS, entry i names
   * client clId + i % numEth (in a u8); without, every entry is 0.
   */
  method FillIndTable(clId: U8, numEth: U8, rss: bool) returns (t: seq<U8>)
    requires rss ==> numEth > 0
    ensures |t| == IND_TABLE_SIZE
    ensures forall i :: 0 <= i < IND_TABLE_SIZE ==>
      t[i] == if rss then Wrap8(clId + i % numEth) else 0
  {
    t := seq(IND_TABLE_SIZE, _ => 0);
    if rss {
      var i := 0;
      while i < IND_TABLE_SIZE
        invariant 0 <= i <= IND_TABLE_SIZE && |t| == IND_TABLE_SIZE
        invariant forall j :: 0 <= j < i ==> t[j] == Wrap8(clId + j % numEth)
        invariant forall j :: i <= j < IND_TABLE_SIZE ==> t[j] == 0
      {
        t := t[i := Wrap8(clId + i % numEth)];
        i := i + 1;
      }
    }
  }

  /** RSS entry i of the table FillIndTable builds. */
  function IndEntry(clId: U8, numEth: U8, i: nat): U8
    requires numEth > 0
  {
    Wrap8(clId + i % numEth)
  }

  /**
   * The RSS table spreads flows round-robin over the Ethernet queues:
   * entries numEth apart name the same client, the first numEth entries
   * name every client once in order, and (when the clients fit a u8) every
   * entry names one of the Ethernet clients.
   */
  lemma IndTableRoundRobin(clId: U8, numEth: U8, i: nat)
    requires numEth > 0
    ensures IndEntry(clId, numEth, i + numEth) == IndEntry(clId, numEth, i)
    ensures i < numEth && clId + i < U8_MOD ==> IndEntry(clId, numEth, i) == clId + i
    ensures clId + numEth <= U8_MOD ==> clId <= IndEntry(clId, numEth, i) < clId + numEth
  {
    ModShift(i, numEth);
    if i < numEth {
      ModOf(i, numEth, 0, i);
    }
    var k := i % numEth;
    assert 0 <= k < numEth;
  }

  /**
   * The queue count of bnx2x_set_num_queues feeds the RSS table: with at
   * least one CPU queue there is always an Ethernet queue (so FillIndTable's
   * requirement holds), more than one only with regular RSS, never more
   * than the CPU queues, and every RSS entry names an Ethernet client,
   * never one of the non-Ethernet queues after them.
   */
  lemma EthQueuesFeedTable(mode: RssMode, cpuQueues: nat, nonEth: nat, clId: U8, i: nat)
    requires 1 <= cpuQueues < U8_MOD && clId + cpuQueues <= U8_MOD
    ensures var eth := NumQueues(mode, cpuQueues, nonEth) - nonEth;
      && 1 <= eth <= cpuQueues && (eth > 1 ==> mode == RssRegular)
      && clId <= IndEntry(clId, eth as U8, i) < clId + eth
  {
  }

  /** Adding the divisor leaves the remainder unchanged. */
  lemma ModShift(i: nat, n: nat)
    requires n > 0
    ensures (i + n) % n == i % n
  {
    var q, r := i / n, i % n;
    assert i + n == n * (q + 1) + r;
    ModOf(i + n, n, q + 1, r);
  }

  /** The remainder is the unique r in [0, n) with x == n * q + r. */
  lemma ModOf(x: nat, n: nat, q: int, r: int)
    requires n > 0 && 0 <= r < n && x == n * q + r
    ensures x % n == r
  {
    var q', r' := x / n, x % n;
    assert n * q' + r' == n * q + r;
    if q > q' {
      assert n * q == n * q' + n * (q - q');
      MulAtLeast(n, q - q');
    } else if q < q' {
      assert n * q' == n * q + n * (q' - q);
      MulAtLeast(n, q' - q);
    }
  }

  lemma MulAtLeast(n: nat, d: int)
    requires d >= 1
    ensures n * d >= n
  {
    assert n * d == n * (d - 1) + n;
  }

  /**
   * bnx2x_alloc_fp_mem with numEth Ethernet queues: the leading queue, the
   * FCoE ring (index numEth, when FCoE is in use) and then the other
   * Ethernet queues in order, alloc(i) telling whether queue i's memory was
   * allocated.  A failure on the leading queue or the FCoE ring fails the
   * call; a failure on another queue keeps only the queues before it, moving
   * the FCoE ring down next to the last one.  Returned: the call's success,
   * the number of Ethernet queues kept and where the FCoE ring now is.
   */
  method AllocFpMem(numEth: nat, fcoe: bool, alloc: nat -> bool) returns (ok: bool, kept: nat, fcoeIdx: Option<nat>)
    requires numEth >= 1
    ensures ok <==> alloc(0) && (fcoe ==> alloc(numEth))
    ensures ok ==> 1 <= kept <= numEth && (forall i :: 0 <= i < kept ==> alloc(i))
    ensures ok ==> (kept < numEth ==> !alloc(kept))
    ensures ok ==> fcoeIdx == if fcoe then Some(kept) else None
  {
    kept, fcoeIdx := numEth, None;
    if !alloc(0) {
      ok := false;
      return;
    }
    if fcoe && !alloc(numEth) {
      ok := false;
      return;
    }
    var i := 1;
    while i < numEth
      invariant 1 <= i <= numEth && forall j :: 0 <= j < i ==> alloc(j)
    {
      if !alloc(i) {
        break;
      }
      i := i + 1;
    }
    ok := true;
    if i != numEth {
      var delta := numEth - i;
      if fcoe {
        fcoeIdx := Some(numEth - delta);  // bnx2x_move_fp(FCOE_IDX, FCOE_IDX - delta)
      }
      kept := numEth - delta;
    } else if fcoe {
      fcoeIdx := Some(numEth);
    }
    // The driver moves the FCoE slot down even when FCoE is off; that slot
    // is then unused, so the model reports no FCoE ring instead.
  }

  // ---------------------------------------------------------------- PHY index

  const INT_PHY: int := 0
  const EXT_PHY1: int := 1
  const EXT_PHY2: int := 2

  /** The PHY selection of the port's hardware configuration (bnx2x_phy_selection). */
  datatype PhySelection = HardwareDefault | FirstPhy | FirstPhyPriority | SecondPhy | SecondPhyPriority | OtherSelection

  /**
   * bnx2x_get_cur_phy_idx: the internal PHY when there is at most one; with
   * the link up the first external PHY, or the second for a SERDES link
   * whose second PHY supports fibre; with the link down the PHY the
   * selection prefers (the internal index when it names none).
   */
  function CurPhyIdx(numPhys: nat, linkUp: bool, serdes: bool, ext2Fibre: bool, sel: PhySelection): (p: int)
    ensures p == INT_PHY || p == EXT_PHY1 || p == EXT_PHY2
    ensures numPhys <= 1 ==> p == INT_PHY
  {
    if numPhys <= 1 then INT_PHY
    else if linkUp then (if serdes && ext2Fibre then EXT_PHY2 else EXT_PHY1)
    else match sel
      case HardwareDefault => EXT_PHY1
      case FirstPhy => EXT_PHY1
      case FirstPhyPriority => EXT_PHY1
      case SecondPhy => EXT_PHY2
      case SecondPhyPriority => EXT_PHY2
      case OtherSelection => INT_PHY
  }

  /**
   * bnx2x_get_link_cfg_idx: the current PHY, exchanged between the two
   * external PHYs when PHY swapping is enabled, as a link configuration
   * index (LINK_CONFIG_IDX: 0 for the internal PHY, else the PHY less one).
   */
  function LinkCfgIdx(swapped: bool, numPhys: nat, linkUp: bool, serdes: bool, ext2Fibre: bool,
                      sel: PhySelection): int
  {
    var p := CurPhyIdx(numPhys, linkUp, serdes, ext2Fibre, sel);
    var q := if swapped && p == EXT_PHY1 then EXT_PHY2 else if swapped && p == EXT_PHY2 then EXT_PHY1 else p;
    if q == INT_PHY then 0 else q - 1
  }

  /**
   * The link configuration index is 0 or 1; a single-PHY port always uses
   * 0; and swapping flips the index exactly when an external PHY is
   * selected.
   */
  lemma LinkCfgIdxSwap(numPhys: nat, linkUp: bool, serdes: bool, ext2Fibre: bool, sel: PhySelection)
    ensures var plain := LinkCfgIdx(false, numPhys, linkUp, serdes, ext2Fibre, sel);
      var swapped := LinkCfgIdx(true, numPhys, linkUp, serdes, ext2Fibre, sel);
      var p := CurPhyIdx(numPhys, linkUp, serdes, ext2Fibre, sel);
      && 0 <= plain <= 1 && 0 <= swapped <= 1
      && (numPhys <= 1 ==> plain == 0 && swapped == 0)
      && (p != INT_PHY ==> swapped == 1 - plain && plain == p - 1)
      && (p == INT_PHY ==> swapped == 0 && plain == 0)
  {
  }

  // --------------------------------------------------------------------- MTU

  const ETH_MAX_JUMBO_PACKET_SIZE: int := 9600
  const ETH_MIN_PACKET_SIZE: int := 60

  /** bnx2x_change_mtu's range check: at most a jumbo packet, and a header plus MTU of at least a minimum frame. */
  predicate MtuInRange(newMtu: int)
  {
    !(newMtu > ETH_MAX_JUMBO_PACKET_SIZE || newMtu + ETH_HLEN < ETH_MIN_PACKET_SIZE)
  }

  /** The accepted MTUs are exactly 46 to 9600 bytes. */
  lemma MtuRange(newMtu: int)
    ensures MtuInRange(newMtu) <==> 46 <= newMtu <= 9600
  {
  }

  // ---------------------------------------------------------------- features

  /** The netdev features the driver looks at; all other feature bits are Other. */
  datatype Feature = Lro | RxCsum | Loopback | Other(bit: nat)

  /** bnx2x_fix_features: LRO (TPA) needs Rx checksum offload and TPA not disabled. */
  function FixFeatures(features: set<Feature>, disableTpa: bool): set<Feature>
  {
    if RxCsum !in features || disableTpa then features - {Lro} else features
  }

  /**
   * The fix-up drops LRO and nothing else, keeps LRO exactly when Rx
   * checksum offload is on and TPA is allowed, and is idempotent.
   */
  lemma FixFeaturesSound(features: set<Feature>, disableTpa: bool)
    ensures var r := FixFeatures(features, disableTpa);
      && r <= features && features - r <= {Lro}
      && (Lro in r <==> Lro in features && RxCsum in features && !disableTpa)
      && FixFeatures(r, disableTpa) == r
  {
  }

  // --------------------------------------------------------------- coalescing

  /** BNX2X_BTR: the host-coalescing timer resolution in microseconds. */
  const BNX2X_BTR: int := 4

  /** HC_INDEX_DATA_HC_ENABLED: the enable bit in a status block index's flags. */
  const HC_ENABLED: bv16 := 0x2

  /** What bnx2x_update_coalesce_sb_index writes: the timeout in ticks and the index flags. */
  datatype HcWrite = HcWrite(ticks: U8, flags: bv16)

  /**
   * bnx2x_update_coalesce_sb_index for an index whose flags read `flags`:
   * the timeout usec / BNX2X_BTR in a u8, and the enable bit cleared when
   * coalescing is disabled or the timeout is zero, set otherwise.
   */
  function UpdateCoalesce(flags: bv16, disable: bool, usec: U16): HcWrite
  {
    var ticks := Wrap8(usec / BNX2X_BTR);
    var dis := disable || usec == 0;
    HcWrite(ticks, (flags & !HC_ENABLED) | (if dis then 0 else HC_ENABLED))
  }

  /**
   * Coalescing is on exactly when it is not disabled and the timeout is not
   * zero; the other flag bits are kept; a timeout below 1024 us is written
   * exactly, in 4 us ticks.
   */
  lemma CoalesceEnable(flags: bv16, disable: bool, usec: U16)
    ensures var w := UpdateCoalesce(flags, disable, usec);
      && (w.flags & HC_ENABLED != 0 <==> !disable && usec != 0)
      && w.flags & !HC_ENABLED == flags & !HC_ENABLED
      && (usec < 1024 ==> w.ticks * BNX2X_BTR <= usec < (w.ticks + 1) * BNX2X_BTR)
  {
    if disable || usec == 0 {
      HcCleared(flags);
    } else {
      HcSet(flags);
    }
    if usec < 1024 {
      assert usec / BNX2X_BTR < U8_MOD;
    }
  }

  /** Clearing the enable bit (and or-ing in nothing) keeps every other bit. */
  lemma HcCleared(flags: bv16)
    ensures var f := (flags & !HC_ENABLED) | 0;
      f & HC_ENABLED == 0 && f & !HC_ENABLED == flags & !HC_ENABLED
  {
  }

  /** Setting the enable bit after clearing it keeps every other bit. */
  lemma HcSet(flags: bv16)
    ensures var f := (flags & !HC_ENABLED) | HC_ENABLED;
      f & HC_ENABLED != 0 && f & !HC_ENABLED == flags & !HC_ENABLED
  {
  }
}
