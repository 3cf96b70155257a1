/**
 * The descriptor chain of one transmitted packet, as values.
 *
 * BuildChain is what bnx2x_start_xmit writes into consecutive ring slots:
 * a start BD holding the linear part, a parse BD, an optional split data BD
 * covering the linear bytes after the headers, and one data BD per mapped
 * fragment.  FreePlan is what bnx2x_free_tx_pkt reads back from the ring when
 * the packet completes, with one correction: for a split packet it releases
 * the whole linear mapping, where the code releases only the header bytes
 * the start BD was shortened to (FirstUnmapLenAsWritten, and the lemma
 * SplitUnmapShortAsWritten).  With that correction the lemmas connect the
 * two: freeing releases exactly the DMA mappings that building acquired.
 */
module TxChain {
  import opened Base
  import opened TxRing
  import opened TxOffload

  /** A DMA mapping: bus address and length. */
  datatype DmaOp = DmaOp(addr: nat, len: nat)

  datatype ParseInfo =
    | ParseE1x(e1x: PbdE1x, lsoMss: U16)
    | ParseE2(e2: PbdE2, lsoMss: U16, v6ExtHdr: bool)

  /** One slot of tx_desc_ring, by the role start_xmit gives it. */
  datatype TxDesc =
    | Unused
    | StartBd(addr: nat, nbytes: U16, nbd: U16, flags: BdFlags, macType: MacType, vlanOrEthertype: U16)
    | ParseBd(info: ParseInfo)
    | DataBd(addr: nat, nbytes: U16, totalPktBytes: Option<U16>)

  /** The address and length words as free_tx_pkt reads them, whatever the slot holds. */
  function DescAddr(d: TxDesc): nat
  {
    match d
    case StartBd(a, _, _, _, _, _) => a
    case DataBd(a, _, _) => a
    case _ => 0
  }

  function DescNbytes(d: TxDesc): U16
  {
    match d
    case StartBd(_, n, _, _, _, _) => n
    case DataBd(_, n, _) => n
    case _ => 0
  }

  function DescNbd(d: TxDesc): U16
  {
    if d.StartBd? then d.nbd else 0
  }

  /** One slot of tx_buf_ring: the packet's buffer, its first BD index and the split flag. */
  datatype SwTxBd = SwTxBd(skb: Option<nat>, firstBd: U16, split: bool)

  // ---------------------------------------------------------------------
  // Building

  /** Header length the parse BD reports; 0 when no checksum offload is asked. */
  function Hlen(skb: Skb, x: XmitType, chipE1x: bool): U8
  {
    if !x.Csum() then 0
    else if chipE1x then PbdCsumE1x(skb, x).1
    else PbdCsumE2(skb, x).1
  }

  function ParseOf(skb: Skb, x: XmitType, chipE1x: bool): ParseInfo
  {
    var mss := if x.Gso() then skb.gsoSize else 0;
    if chipE1x then
      ParseE1x(if x.Csum() then PbdCsumE1x(skb, x).0 else PbdE1x(0, false, 0, 0), mss)
    else
      ParseE2(if x.Csum() then PbdCsumE2(skb, x).0 else PbdE2(0, 0), mss,
              x.gsoV6 && skb.v6NextIsV6)
  }

  function StartFlags(skb: Skb, x: XmitType): BdFlags
  {
    var f := START_FLAGS.(outbandVlan := skb.vlanTag.Some?);
    var g := if x.Csum() then SbdCsum(f, x) else f;
    g.(swLso := x.Gso())
  }

  /**
   * What start_xmit settles about the linear part before it walks the
   * fragments: the header length, whether a split BD follows the parse BD,
   * the parse BD's contents and the start BD's flags.
   */
  datatype HeadPlan = HeadPlan(hlen: U8, split: bool, parse: ParseInfo, flags: BdFlags)

  /** A GSO packet whose linear part holds payload after the headers gets a split BD. */
  function PlanOf(skb: Skb, x: XmitType, chipE1x: bool): HeadPlan
  {
    var hlen := Hlen(skb, x, chipE1x);
    HeadPlan(hlen, x.Gso() && skb.headLen > hlen, ParseOf(skb, x, chipE1x), StartFlags(skb, x))
  }

  /** A split BD only ever carries linear bytes that follow the headers. */
  predicate PlanFits(skb: Skb, p: HeadPlan)
  {
    p.split ==> p.hlen < skb.headLen
  }

  /** Descriptors that come before the fragments: start, parse and maybe split. */
  function HeadCount(p: HeadPlan): nat
  {
    if p.split then 3 else 2
  }

  /**
   * The chain start_xmit writes when the linear part is mapped at headAddr and
   * the first |fragAddrs| fragments at fragAddrs.  `complete` says every
   * fragment was mapped, which is when the first data BD receives the total
   * packet length.
   */
  function BuildChain(skb: Skb, p: HeadPlan, headAddr: nat, fragAddrs: seq<nat>,
                      pktProd: U16, complete: bool): (c: seq<TxDesc>)
    requires |fragAddrs| <= |skb.frags|
    ensures |c| == HeadCount(p) + |fragAddrs|
  {
    var nbd := HeadCount(p) + |fragAddrs|;
    var start := StartBd(headAddr, if p.split then p.hlen else Wrap16(skb.headLen), Wrap16(nbd),
                         p.flags, skb.macType,
                         if skb.vlanTag.Some? then skb.vlanTag.value else pktProd);
    var splitBd := if p.split then [DataBd(headAddr + p.hlen, Wrap16(skb.headLen - p.hlen), None)] else [];
    [start, ParseBd(p.parse)] + splitBd + FragBds(skb, fragAddrs, complete)
  }

  function FragBds(skb: Skb, fragAddrs: seq<nat>, complete: bool): (r: seq<TxDesc>)
    requires |fragAddrs| <= |skb.frags|
    ensures |r| == |fragAddrs|
    ensures forall i :: 0 <= i < |r| ==> r[i].DataBd? && r[i].addr == fragAddrs[i]
    ensures forall i :: 0 <= i < |r| ==> r[i].nbytes == Wrap16(skb.frags[i])
    ensures forall i :: 0 <= i < |r| ==>
      r[i].totalPktBytes == if complete && i == 0 then Some(Wrap16(skb.headLen + Sum(skb.frags))) else None
  {
    seq(|fragAddrs|, i requires 0 <= i < |fragAddrs| =>
      DataBd(fragAddrs[i], Wrap16(skb.frags[i]),
             if complete && i == 0 then Some(Wrap16(skb.headLen + Sum(skb.frags))) else None))
  }

  /** The mappings start_xmit acquired: the linear part, then each mapped fragment. */
  function MapOps(skb: Skb, headAddr: nat, fragAddrs: seq<nat>): (r: seq<DmaOp>)
    requires |fragAddrs| <= |skb.frags|
    ensures |r| == 1 + |fragAddrs|
  {
    [DmaOp(headAddr, skb.headLen)] + FragOps(skb, fragAddrs)
  }

  function FragOps(skb: Skb, fragAddrs: seq<nat>): (r: seq<DmaOp>)
    requires |fragAddrs| <= |skb.frags|
    ensures |r| == |fragAddrs|
    ensures forall i :: 0 <= i < |r| ==> r[i] == DmaOp(fragAddrs[i], skb.frags[i])
  {
    seq(|fragAddrs|, i requires 0 <= i < |fragAddrs| => DmaOp(fragAddrs[i], skb.frags[i]))
  }

  // ---------------------------------------------------------------------
  // Freeing

  datatype FreeResult = FreeResult(newCons: U16, unmaps: seq<DmaOp>)

  /** The n data BDs from slot s on, each unmapped by its own address and length. */
  function DataUnmaps(desc: seq<TxDesc>, s: TxSlot, n: int): (r: seq<DmaOp>)
    requires |desc| == NUM_TX_BD
    ensures |r| == if n <= 0 then 0 else n
    decreases n
  {
    if n <= 0 then []
    else [DmaOp(DescAddr(desc[s]), DescNbytes(desc[s]))] + DataUnmaps(desc, NextSlot(s), n - 1)
  }

  /**
   * bnx2x_free_tx_pkt read as a function of the ring, with the start-BD
   * unmap length corrected: the new BD consumer is first_bd + nbd - 1, the
   * linear part's mapping is released with the start BD's length plus the
   * split BD's (the two share that one mapping; the code passes the start
   * BD's length alone), the parse and split BDs are stepped over, and the
   * remaining nbd - 2 - split data BDs are released one by one.
   */
  function FreePlan(desc: seq<TxDesc>, b: SwTxBd): FreeResult
    requires |desc| == NUM_TX_BD
  {
    var s := TxBd(b.firstBd);
    var nbd := DescNbd(desc[s]) - 1;
    var splitLen := if b.split then DescNbytes(desc[Adv(s, 2)]) else 0;
    var first := DmaOp(DescAddr(desc[s]), DescNbytes(desc[s]) + splitLen);
    var n := nbd - 1 - (if b.split then 1 else 0);
    FreeResult(Wrap16(nbd + b.firstBd), [first] + DataUnmaps(desc, Adv(s, if b.split then 3 else 2), n))
  }

  /** Length the source passes when it unmaps the start BD: that BD's nbytes alone. */
  function FirstUnmapLenAsWritten(desc: seq<TxDesc>, b: SwTxBd): nat
    requires |desc| == NUM_TX_BD
  {
    DescNbytes(desc[TxBd(b.firstBd)])
  }

  // ---------------------------------------------------------------------
  // Properties

  /** Lengths the driver stores in 16-bit descriptor fields fit in them. */
  predicate FitsU16(skb: Skb)
  {
    skb.headLen < U16_MOD && forall i :: 0 <= i < |skb.frags| ==> skb.frags[i] < U16_MOD
  }

  /** The ring holds chain c at the slots walked from s. */
  predicate Holds(desc: seq<TxDesc>, s: TxSlot, c: seq<TxDesc>)
    requires |desc| == NUM_TX_BD
  {
    forall j {:trigger c[j]} :: 0 <= j < |c| ==> desc[Adv(s, j)] == c[j]
  }

  /** The ring slots a chain of n BDs walked from s occupies. */
  ghost function ChainSlots(s: TxSlot, n: nat): set<TxSlot>
  {
    set j | 0 <= j < n :: Adv(s, j)
  }

  /** Outside the n slots walked from s, desc holds what desc0 held. */
  ghost predicate KeptOutside(desc: seq<TxDesc>, desc0: seq<TxDesc>, s: TxSlot, n: nat)
    requires |desc| == NUM_TX_BD && |desc0| == NUM_TX_BD
  {
    forall i: TxSlot :: i !in ChainSlots(s, n) ==> desc[i] == desc0[i]
  }

  /** Writing the k-th slot of the window keeps everything outside it. */
  lemma WriteInWindow(desc: seq<TxDesc>, desc0: seq<TxDesc>, s: TxSlot, n: nat, k: nat, d: TxDesc)
    requires |desc| == NUM_TX_BD && |desc0| == NUM_TX_BD && k < n && KeptOutside(desc, desc0, s, n)
    ensures KeptOutside(desc[Adv(s, k) := d], desc0, s, n)
  {
    assert Adv(s, k) in ChainSlots(s, n);
  }

  /** A ring kept outside a window is kept outside every wider window. */
  lemma KeptWider(desc: seq<TxDesc>, desc0: seq<TxDesc>, s: TxSlot, n: nat, m: nat)
    requires |desc| == NUM_TX_BD && |desc0| == NUM_TX_BD && n <= m && KeptOutside(desc, desc0, s, n)
    ensures KeptOutside(desc, desc0, s, m)
  {
  }

  /** Two rounds of writes inside the same window keep what lies outside it. */
  lemma KeptTrans(d2: seq<TxDesc>, d1: seq<TxDesc>, d0: seq<TxDesc>, s: TxSlot, n: nat)
    requires |d2| == NUM_TX_BD && |d1| == NUM_TX_BD && |d0| == NUM_TX_BD
    requires KeptOutside(d2, d1, s, n) && KeptOutside(d1, d0, s, n)
    ensures KeptOutside(d2, d0, s, n)
  {
  }

  lemma {:induction false} DataUnmapsLaidOut(desc: seq<TxDesc>, s: TxSlot, h: nat, ops: seq<DmaOp>, i: nat)
    requires |desc| == NUM_TX_BD && i <= |ops|
    requires forall j :: 0 <= j < |ops| ==>
      DmaOp(DescAddr(desc[Adv(s, h + j)]), DescNbytes(desc[Adv(s, h + j)])) == ops[j]
    ensures DataUnmaps(desc, Adv(s, h + i), |ops| - i) == ops[i..]
    decreases |ops| - i
  {
    if i < |ops| {
      DataUnmapsLaidOut(desc, s, h, ops, i + 1);
      assert Adv(s, h + i + 1) == NextSlot(Adv(s, h + i));
      assert ops[i..] == [ops[i]] + ops[i + 1..];
    }
  }

  /**
   * free_tx_pkt over any ring laid out as a packet: a start BD counting h + k
   * BDs whose mapping (with the split BD's bytes) is head, then k data BDs.
   */
  lemma {:induction false} FreeLaidOut(desc: seq<TxDesc>, b: SwTxBd, h: nat, head: DmaOp, ops: seq<DmaOp>)
    requires |desc| == NUM_TX_BD && h == if b.split then 3 else 2
    requires var s := TxBd(b.firstBd);
      && DescNbd(desc[s]) == h + |ops|
      && DescAddr(desc[s]) == head.addr
      && DescNbytes(desc[s]) + (if b.split then DescNbytes(desc[Adv(s, 2)]) else 0) == head.len
      && forall j :: 0 <= j < |ops| ==>
           var d := desc[Adv(s, h + j)];
           DmaOp(DescAddr(d), DescNbytes(d)) == ops[j]
    ensures FreePlan(desc, b).unmaps == [head] + ops
    ensures FreePlan(desc, b).newCons == Wrap16(b.firstBd + h + |ops| - 1)
  {
    var s := TxBd(b.firstBd);
    DataUnmapsLaidOut(desc, s, h, ops, 0);
    assert ops[0..] == ops;
  }

  /** The start BD of a built chain maps the linear part and counts every BD of the chain. */
  lemma ChainStart(skb: Skb, p: HeadPlan, headAddr: nat, fragAddrs: seq<nat>, pktProd: U16, complete: bool)
    requires |fragAddrs| <= |skb.frags| && FitsU16(skb) && |skb.frags| < 0x1_0000 - 3 && PlanFits(skb, p)
    ensures var c := BuildChain(skb, p, headAddr, fragAddrs, pktProd, complete);
      && c[0].StartBd? && c[0].addr == headAddr && DescNbd(c[0]) == |c|
      && (p.split ==> DescNbytes(c[0]) + DescNbytes(c[2]) == skb.headLen)
      && (!p.split ==> DescNbytes(c[0]) == skb.headLen)
  {
    ChainHeadElems(skb, p, headAddr, fragAddrs, pktProd, complete);
  }

  /** The BDs of a built chain after its head BDs read back as the fragment mappings. */
  lemma ChainTail(skb: Skb, p: HeadPlan, headAddr: nat, fragAddrs: seq<nat>, pktProd: U16, complete: bool)
    requires |fragAddrs| <= |skb.frags| && FitsU16(skb)
    ensures var c := BuildChain(skb, p, headAddr, fragAddrs, pktProd, complete);
      forall k :: HeadCount(p) <= k < |c| ==> DmaOp(DescAddr(c[k]), DescNbytes(c[k])) == FragOps(skb, fragAddrs)[k - HeadCount(p)]
  {
    ChainFragElems(skb, p, headAddr, fragAddrs, pktProd, complete);
    TailOps(BuildChain(skb, p, headAddr, fragAddrs, pktProd, complete), HeadCount(p), skb, fragAddrs, complete);
  }

  /** A chain whose BDs from h on are the fragment BDs is read back, from h on, as the fragment mappings. */
  lemma TailOps(c: seq<TxDesc>, h: nat, skb: Skb, fragAddrs: seq<nat>, complete: bool)
    requires |fragAddrs| <= |skb.frags| && FitsU16(skb) && h <= |c| && c[h..] == FragBds(skb, fragAddrs, complete)
    ensures forall k :: h <= k < |c| ==> DmaOp(DescAddr(c[k]), DescNbytes(c[k])) == FragOps(skb, fragAddrs)[k - h]
  {
    FragBdsOps(skb, fragAddrs, complete);
    ShiftedOps(c, h, FragBds(skb, fragAddrs, complete), FragOps(skb, fragAddrs));
  }

  /** Each fragment BD is read back as its fragment's mapping. */
  lemma FragBdsOps(skb: Skb, fragAddrs: seq<nat>, complete: bool)
    requires |fragAddrs| <= |skb.frags| && FitsU16(skb)
    ensures var fb := FragBds(skb, fragAddrs, complete);
      forall i :: 0 <= i < |fb| ==> DmaOp(DescAddr(fb[i]), DescNbytes(fb[i])) == FragOps(skb, fragAddrs)[i]
  {
  }

  lemma ShiftedOps(c: seq<TxDesc>, h: nat, fb: seq<TxDesc>, ops: seq<DmaOp>)
    requires h <= |c| && c[h..] == fb && |fb| == |ops|
    requires forall i :: 0 <= i < |fb| ==> DmaOp(DescAddr(fb[i]), DescNbytes(fb[i])) == ops[i]
    ensures forall k :: h <= k < |c| ==> DmaOp(DescAddr(c[k]), DescNbytes(c[k])) == ops[k - h]
  {
    forall k | h <= k < |c|
      ensures DmaOp(DescAddr(c[k]), DescNbytes(c[k])) == ops[k - h]
    {
      assert c[k] == fb[k - h];
    }
  }

  /** The start, parse and split descriptors of a built chain. */
  lemma ChainHeadElems(skb: Skb, p: HeadPlan, headAddr: nat, fragAddrs: seq<nat>, pktProd: U16, complete: bool)
    requires |fragAddrs| <= |skb.frags|
    ensures var c := BuildChain(skb, p, headAddr, fragAddrs, pktProd, complete);
      && c[0] == StartBd(headAddr, if p.split then p.hlen else Wrap16(skb.headLen),
                         Wrap16(HeadCount(p) + |fragAddrs|), p.flags, skb.macType,
                         if skb.vlanTag.Some? then skb.vlanTag.value else pktProd)
      && c[1] == ParseBd(p.parse)
      && (p.split ==> c[2] == DataBd(headAddr + p.hlen, Wrap16(skb.headLen - p.hlen), None))
  {
  }

  /** The fragment descriptors of a built chain follow its head descriptors. */
  lemma ChainFragElems(skb: Skb, p: HeadPlan, headAddr: nat, fragAddrs: seq<nat>, pktProd: U16, complete: bool)
    requires |fragAddrs| <= |skb.frags|
    ensures BuildChain(skb, p, headAddr, fragAddrs, pktProd, complete)[HeadCount(p)..]
         == FragBds(skb, fragAddrs, complete)
  {
  }

  /** A ring whose slots from s hold, one by one, the descriptors of a chain holds that chain. */
  lemma LaidOut(desc: seq<TxDesc>, s: TxSlot, c: seq<TxDesc>, h: nat, fb: seq<TxDesc>)
    requires |desc| == NUM_TX_BD && 2 <= h <= 3 && |c| == h + |fb| && c[h..] == fb
    requires desc[s] == c[0] && desc[Adv(s, 1)] == c[1] && (h == 3 ==> desc[Adv(s, 2)] == c[2])
    requires forall j :: 0 <= j < |fb| ==> desc[Adv(s, h + j)] == fb[j]
    ensures Holds(desc, s, c)
  {
    forall j | 0 <= j < |c|
      ensures desc[Adv(s, j)] == c[j]
    {
      if j >= h {
        assert c[j] == fb[j - h];
        assert desc[Adv(s, h + (j - h))] == fb[j - h];
      }
    }
  }

  /** Facts about a chain carry over to the ring slots that hold it. */
  lemma FragsLaidOut(desc: seq<TxDesc>, s: TxSlot, c: seq<TxDesc>, h: nat, ops: seq<DmaOp>)
    requires |desc| == NUM_TX_BD && Holds(desc, s, c) && h + |ops| == |c|
    requires forall k :: h <= k < |c| ==> DmaOp(DescAddr(c[k]), DescNbytes(c[k])) == ops[k - h]
    ensures forall j :: 0 <= j < |ops| ==>
      var d := desc[Adv(s, h + j)]; DmaOp(DescAddr(d), DescNbytes(d)) == ops[j]
  {
    forall j | 0 <= j < |ops|
      ensures var d := desc[Adv(s, h + j)]; DmaOp(DescAddr(d), DescNbytes(d)) == ops[j]
    {
      assert desc[Adv(s, h + j)] == c[h + j];
    }
  }

  /**
   * free_tx_pkt over a ring holding, from the first BD on, any chain shaped
   * like a packet: a start BD counting all |c| BDs whose mapping (with the
   * split BD's bytes) is head, then data BDs mapped by ops.
   */
  lemma FreeShapedChain(desc: seq<TxDesc>, firstBd: U16, c: seq<TxDesc>, split: bool, head: DmaOp, ops: seq<DmaOp>)
    requires |desc| == NUM_TX_BD && Holds(desc, TxBd(firstBd), c)
    requires var h := if split then 3 else 2;
      && |c| == h + |ops| && c[0].StartBd? && c[0].addr == head.addr && DescNbd(c[0]) == |c|
      && (split ==> DescNbytes(c[0]) + DescNbytes(c[2]) == head.len)
      && (!split ==> DescNbytes(c[0]) == head.len)
      && forall k :: h <= k < |c| ==> DmaOp(DescAddr(c[k]), DescNbytes(c[k])) == ops[k - h]
    ensures var b := SwTxBd(Some(0), firstBd, split);
      FreePlan(desc, b).unmaps == [head] + ops && FreePlan(desc, b).newCons == Wrap16(firstBd + |c| - 1)
  {
    var s := TxBd(firstBd);
    var h := if split then 3 else 2;
    var b := SwTxBd(Some(0), firstBd, split);
    assert desc[Adv(s, 0)] == c[0];
    if split {
      assert desc[Adv(s, 2)] == c[2];
    }
    FragsLaidOut(desc, s, c, h, ops);
    FreeLaidOut(desc, b, h, head, ops);
  }

  /** FreePlan does not look at the slot's skb. */
  lemma FreePlanSkbBlind(desc: seq<TxDesc>, firstBd: U16, split: bool, o: Option<nat>)
    requires |desc| == NUM_TX_BD
    ensures FreePlan(desc, SwTxBd(o, firstBd, split)) == FreePlan(desc, SwTxBd(Some(0), firstBd, split))
  {
  }

  /**
   * Freeing a packet whose chain start_xmit built, complete or cut short at
   * a failed fragment mapping, releases exactly the mappings start_xmit took,
   * in the same order, and returns the index of the chain's last BD.
   */
  lemma {:induction false} FreeReleasesChain(desc: seq<TxDesc>, skb: Skb, p: HeadPlan, headAddr: nat,
                                             fragAddrs: seq<nat>, pktProd: U16, complete: bool, firstBd: U16)
    requires |desc| == NUM_TX_BD && |fragAddrs| <= |skb.frags| && FitsU16(skb) && PlanFits(skb, p)
    requires |skb.frags| < 0x1_0000 - 3
    requires Holds(desc, TxBd(firstBd), BuildChain(skb, p, headAddr, fragAddrs, pktProd, complete))
    ensures var b := SwTxBd(Some(skb.id), firstBd, p.split);
      FreePlan(desc, b).unmaps == MapOps(skb, headAddr, fragAddrs) &&
      FreePlan(desc, b).newCons == Wrap16(firstBd + HeadCount(p) + |fragAddrs| - 1)
  {
    ChainStart(skb, p, headAddr, fragAddrs, pktProd, complete);
    ChainTail(skb, p, headAddr, fragAddrs, pktProd, complete);
    FreeShapedChain(desc, firstBd, BuildChain(skb, p, headAddr, fragAddrs, pktProd, complete), p.split,
                    DmaOp(headAddr, skb.headLen), FragOps(skb, fragAddrs));
    FreePlanSkbBlind(desc, firstBd, p.split, Some(skb.id));
  }

  /**
   * The source's start-BD unmap is short for every split packet: the linear
   * part was mapped with its full length, but the start BD now says hlen.
   */
  lemma {:induction false} SplitUnmapShortAsWritten(desc: seq<TxDesc>, skb: Skb, p: HeadPlan, headAddr: nat,
                                                    fragAddrs: seq<nat>, pktProd: U16, complete: bool, firstBd: U16)
    requires |desc| == NUM_TX_BD && |fragAddrs| <= |skb.frags| && PlanFits(skb, p) && p.split
    requires Holds(desc, TxBd(firstBd), BuildChain(skb, p, headAddr, fragAddrs, pktProd, complete))
    ensures var b := SwTxBd(Some(skb.id), firstBd, true);
      FirstUnmapLenAsWritten(desc, b) == p.hlen < MapOps(skb, headAddr, fragAddrs)[0].len
  {
    var c := BuildChain(skb, p, headAddr, fragAddrs, pktProd, complete);
    assert desc[Adv(TxBd(firstBd), 0)] == c[0];
  }

  /**
   * A sanity example, not a property of the driver: a TSO packet over IPv4
   * with 2 fragments, whose linear part is exactly the Ethernet, IPv4 and
   * TCP headers, makes a chain of four BDs with a 54-byte header length and
   * no split.
   */
  lemma ChainExample(skb: Skb, pktProd: U16, headAddr: nat, a0: nat, a1: nat)
    requires skb.csumPartial && !skb.isIpv6 && skb.l4IsTcp && skb.gsoTcpV4
    requires skb.netOff == 14 && skb.transOff == 34 && skb.tcpHdrLen == 20 && skb.headLen == 54
    requires |skb.frags| == 2
    ensures var x := XmitTypeOf(skb);
      var p := PlanOf(skb, x, false);
      Hlen(skb, x, false) == 54 && Hlen(skb, x, true) == 54 &&
      !p.split && |BuildChain(skb, p, headAddr, [a0, a1], pktProd, true)| == 4
  {
    var x := XmitTypeOf(skb);
    assert x.csumTcp && x.Csum();
    assert L4End(skb, x) == 54;
    PbdHlenAgree(skb, x);
  }
}
