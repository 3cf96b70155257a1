/**
 * One transmit queue (struct bnx2x_fp_txdata): the software buffer ring, the
 * descriptor ring and the four free-running u16 indices, with the three
 * operations of bnx2x_cmn.c that move them: bnx2x_start_xmit produces a
 * packet, bnx2x_tx_int consumes the completed ones, bnx2x_free_tx_skbs drops
 * every packet still in flight.  DMA mapping is an outcome supplied by the
 * caller; the mappings taken and released are recorded in two logs so that
 * their balance can be stated.
 */
module TxQueue {
  import opened Base
  import opened TxRing
  import opened TxOffload
  import opened TxChain

  /** MAX_SKB_FRAGS and MAX_FETCH_BD, fixed at build time. */
  datatype Limits = Limits(maxSkbFrags: nat, maxFetchBd: nat)
  {
    /**
     * bnx2x_pkt_req_lin is compiled only when MAX_SKB_FRAGS >= MAX_FETCH_BD - 3;
     * a packet with every fragment, its start, parse and split BDs fits in a
     * page of descriptors.
     */
    predicate Valid()
    {
      maxFetchBd >= 4 && maxFetchBd - 3 <= maxSkbFrags && maxSkbFrags + 3 < MAX_TX_DESC_CNT
    }
  }

  /** NETDEV_TX_BUSY, or NETDEV_TX_OK after dropping the packet, or after posting it. */
  datatype XmitResult = Busy | Dropped | Sent

  /**
   * The stop condition of bnx2x_start_xmit after posting: fewer descriptors
   * are left than a packet with every fragment could need.
   */
  predicate MustStop(prod: U16, cons: U16, ringSize: int, lim: Limits)
  {
    TxAvail(prod, cons, ringSize) < lim.maxSkbFrags + 3
  }

  /** What the stack guarantees about a packet handed to start_xmit. */
  predicate SkbOk(skb: Skb, lim: Limits)
  {
    && skb.headLen + Sum(skb.frags) < U16_MOD
    && |skb.frags| <= lim.maxSkbFrags
    && (XmitTypeOf(skb).Gso() ==> skb.TcpHlen() <= skb.headLen)
  }

  /** bnx2x_pkt_req_lin asks for the packet to be linearised. */
  predicate NeedsLin(skb: Skb, lim: Limits)
  {
    lim.maxFetchBd >= 3 && ReqLin(skb, XmitTypeOf(skb), lim.maxFetchBd - 3)
  }

  /**
   * The packet start_xmit posts: linearised when bnx2x_pkt_req_lin asks for
   * it.  Linearising keeps the offload class, the byte count and the limits
   * the stack guarantees, and leaves no fragment to map.
   */
  function Effective(skb: Skb, lim: Limits): (e: Skb)
    ensures XmitTypeOf(e) == XmitTypeOf(skb) && e.id == skb.id
    ensures e.headLen + Sum(e.frags) == skb.headLen + Sum(skb.frags) && |e.frags| <= |skb.frags|
    ensures SkbOk(skb, lim) ==> SkbOk(e, lim)
    ensures NeedsLin(skb, lim) ==> e.frags == []
  {
    if NeedsLin(skb, lim) then skb.Linearized() else skb
  }

  /** A buffer slot after free_tx_pkt: no skb, first_bd 0, flags kept. */
  function FreeSlot(b: SwTxBd): SwTxBd
  {
    SwTxBd(None, 0, b.split)
  }

  /** dev_kfree_skb_any of the slot's skb; freeing NULL does nothing. */
  function FreedOf(b: SwTxBd): seq<nat>
  {
    if b.skb.Some? then [b.skb.value] else []
  }

  /** The parts of a queue that completion changes: buffer slots, the two logs, the BD consumer. */
  datatype TxSnap = TxSnap(bufs: seq<SwTxBd>, unmapped: seq<DmaOp>, freed: seq<nat>, bdCons: U16)

  /**
   * One call of free_tx_pkt on slot i: the slot is emptied, its unmaps and
   * its skb are appended to the logs, and its new BD consumer replaces the
   * last.
   */
  function FreeStep(q: TxSnap, desc: seq<TxDesc>, i: TxSlot): TxSnap
    requires |q.bufs| == NUM_TX_BD && |desc| == NUM_TX_BD
  {
    var f := FreePlan(desc, q.bufs[i]);
    TxSnap(q.bufs[i := FreeSlot(q.bufs[i])], q.unmapped + f.unmaps, q.freed + FreedOf(q.bufs[i]), f.newCons)
  }

  /** n calls of free_tx_pkt on the packet slots from sw on. */
  function DrainN(q: TxSnap, desc: seq<TxDesc>, sw: U16, n: nat): (r: TxSnap)
    requires |q.bufs| == NUM_TX_BD && |desc| == NUM_TX_BD
    ensures |r.bufs| == NUM_TX_BD
    decreases n
  {
    if n == 0 then q
    else DrainN(FreeStep(q, desc, TxBd(sw)), desc, Wrap16(sw as int + 1), n - 1)
  }

  /** Every packet from sw up to (not including) hw, in u16 arithmetic. */
  function Drain(q: TxSnap, desc: seq<TxDesc>, sw: U16, hw: U16): TxSnap
    requires |q.bufs| == NUM_TX_BD && |desc| == NUM_TX_BD
  {
    DrainN(q, desc, sw, Wrap16(hw as int - sw as int))
  }

  /** Freeing the packet at sw is the first step of draining from sw up to hw, and brings sw closer to hw. */
  lemma DrainStep(q: TxSnap, desc: seq<TxDesc>, sw: U16, hw: U16)
    requires |q.bufs| == NUM_TX_BD && |desc| == NUM_TX_BD && sw != hw
    ensures Drain(q, desc, sw, hw) == Drain(FreeStep(q, desc, TxBd(sw)), desc, Wrap16(sw as int + 1), hw)
    ensures Wrap16(hw as int - Wrap16(sw as int + 1)) < Wrap16(hw as int - sw as int)
  {
    DistanceStep(sw, hw);
  }

  /** Slot i is among the n packet slots walked from sw. */
  predicate Drained(i: TxSlot, sw: U16, n: nat)
  {
    (i - TxBd(sw)) % NUM_TX_BD < n
  }

  /**
   * Draining n <= NUM_TX_BD packets empties exactly the slots it walks, and
   * leaves every other slot as it was.
   */
  lemma {:induction false} DrainClears(q: TxSnap, desc: seq<TxDesc>, sw: U16, n: nat)
    requires |q.bufs| == NUM_TX_BD && |desc| == NUM_TX_BD && n <= NUM_TX_BD
    ensures var r := DrainN(q, desc, sw, n);
      forall i: TxSlot :: r.bufs[i] == (if Drained(i, sw, n) then FreeSlot(q.bufs[i]) else q.bufs[i])
    decreases n
  {
    if n > 0 {
      var s := TxBd(sw);
      var q' := FreeStep(q, desc, s);
      DrainClears(q', desc, Wrap16(sw as int + 1), n - 1);
      var r := DrainN(q, desc, sw, n);
      forall i: TxSlot
        ensures r.bufs[i] == (if Drained(i, sw, n) then FreeSlot(q.bufs[i]) else q.bufs[i])
      {
        NextPacketSlot(sw, i);
        if i != s {
          assert q'.bufs[i] == q.bufs[i];
        }
      }
    }
  }

  /** How the distance of a slot from sw relates to its distance from sw + 1. */
  lemma NextPacketSlot(sw: U16, i: TxSlot)
    ensures var d := (i - TxBd(sw)) % NUM_TX_BD;
      var d' := (i - TxBd(Wrap16(sw as int + 1))) % NUM_TX_BD;
      (i == TxBd(sw) ==> d == 0) && (i != TxBd(sw) ==> d == d' + 1)
  {
    var s := TxBd(sw);
    var t := TxBd(Wrap16(sw as int + 1));
    assert t == if s == NUM_TX_BD - 1 then 0 else s + 1 by {
      var q := sw / NUM_TX_BD;
      ModOf4096(sw, q, s);
      if sw == U16_MOD - 1 {
        assert Wrap16(sw as int + 1) == 0;
      } else {
        assert Wrap16(sw as int + 1) == sw + 1;
        if s == NUM_TX_BD - 1 {
          ModOf4096(sw + 1, q + 1, 0);
        } else {
          ModOf4096(sw + 1, q, s + 1);
        }
      }
    }
    if i != s {
      if i > s {
        ModOf4096(i - s, 0, i - s);
        if t == 0 {
          assert false;
        }
        ModOf4096(i - t, 0, i - t);
      } else {
        ModOf4096(i - s, -1, i - s + NUM_TX_BD);
        if t == 0 {
          ModOf4096(i - t, 0, i);
        } else {
          ModOf4096(i - t, -1, i - t + NUM_TX_BD);
        }
      }
    } else {
      ModOf4096(0, 0, 0);
    }
  }

  /** One step from sw towards hw shortens their u16 distance by one. */
  lemma DistanceStep(sw: U16, hw: U16)
    ensures Wrap16(hw as int - sw as int) == 0 <==> sw == hw
    ensures sw != hw ==> Wrap16(hw - Wrap16(sw as int + 1)) == Wrap16(hw as int - sw as int) - 1
  {
    if sw < hw {
      assert Wrap16(hw as int - sw as int) == hw - sw;
    } else if sw > hw {
      ModOf65536(hw - sw, -1, hw - sw + U16_MOD);
    }
    if sw != hw && sw as int + 1 < U16_MOD {
      var t := sw + 1;
      if t <= hw {
        assert Wrap16(hw - t) == hw - t;
      } else {
        ModOf65536(hw - t, -1, hw - t + U16_MOD);
      }
    } else if sw != hw {
      assert Wrap16(sw as int + 1) == 0;
      ModOf65536(hw - sw, -1, hw - sw + U16_MOD);
    }
  }

  /** The first n fragment mappings succeeded. */
  predicate AllMapped(maps: seq<Option<nat>>, n: nat)
  {
    n <= |maps| && forall i :: 0 <= i < n ==> maps[i].Some?
  }

  /** The addresses of the first n fragment mappings. */
  function Addrs(maps: seq<Option<nat>>, n: nat): (r: seq<nat>)
    requires AllMapped(maps, n)
    ensures |r| == n && forall i :: 0 <= i < n ==> r[i] == maps[i].value
  {
    seq(n, i requires 0 <= i < n => maps[i].value)
  }

  /**
   * How many of the first n fragments start_xmit maps before one fails: the
   * index of the first failed mapping, or n when none fails.
   */
  function FirstFail(maps: seq<Option<nat>>, n: nat): (k: nat)
    requires n <= |maps|
    ensures k <= n && AllMapped(maps, k) && (k < n ==> maps[k].None?)
  {
    if n == 0 then 0
    else
      var k := FirstFail(maps, n - 1);
      if k < n - 1 || maps[n - 1].None? then k else n
  }

  /** The addresses start_xmit mapped, in fragment order, before the first failure. */
  function MappedFrags(maps: seq<Option<nat>>, n: nat): (r: seq<nat>)
    requires n <= |maps|
    ensures |r| <= n && (|r| == n <==> AllMapped(maps, n))
  {
    Addrs(maps, FirstFail(maps, n))
  }

  /**
   * Addresses recorded one per fragment, stopping at n or at a failed
   * mapping, are exactly the fragments mapped before the first failure.
   */
  lemma MappedFragsUnique(maps: seq<Option<nat>>, n: nat, addrs: seq<nat>)
    requires n <= |maps| && |addrs| <= n && MappedAt(maps, addrs)
    requires |addrs| < n ==> maps[|addrs|].None?
    ensures addrs == MappedFrags(maps, n)
  {
    MappedAtAddrs(maps, addrs);
  }

  /** The packet fits the 16-bit length fields and the ring's largest chain. */
  predicate Postable(skb: Skb, lim: Limits)
  {
    skb.headLen + Sum(skb.frags) < U16_MOD && |skb.frags| <= lim.maxSkbFrags
  }

  lemma {:induction false} PostableFits(skb: Skb, lim: Limits)
    requires Postable(skb, lim)
    ensures FitsU16(skb)
  {
    forall i | 0 <= i < |skb.frags|
      ensures skb.frags[i] < U16_MOD
    {
      SumPrefix(skb.frags, i);
      SumSplit(skb.frags, i);
    }
  }

  /** The h head slots from b0 hold what they held before. */
  ghost predicate HeadKept(desc: seq<TxDesc>, desc0: seq<TxDesc>, b0: TxSlot, h: nat)
    requires |desc| == NUM_TX_BD && |desc0| == NUM_TX_BD
  {
    desc[b0] == desc0[b0] && desc[Adv(b0, 1)] == desc0[Adv(b0, 1)] && (h == 3 ==> desc[Adv(b0, 2)] == desc0[Adv(b0, 2)])
  }

  /** Fragment i was mapped at addrs[i], for every address recorded. */
  predicate MappedAt(maps: seq<Option<nat>>, addrs: seq<nat>)
  {
    |addrs| <= |maps| && forall i :: 0 <= i < |addrs| ==> maps[i] == Some(addrs[i])
  }

  lemma MappedAtAddrs(maps: seq<Option<nat>>, addrs: seq<nat>)
    requires MappedAt(maps, addrs)
    ensures AllMapped(maps, |addrs|) && Addrs(maps, |addrs|) == addrs
  {
  }

  /**
   * The data BDs of the first |addrs| fragments sit after the h head BDs at
   * b0, the first of them carrying tot as its total packet length.
   */
  ghost predicate FragsAt(desc: seq<TxDesc>, b0: TxSlot, h: nat, frags: seq<nat>, addrs: seq<nat>, tot: Option<U16>)
    requires |desc| == NUM_TX_BD && |addrs| <= |frags|
  {
    forall j :: 0 <= j < |addrs| ==> desc[Adv(b0, h + j)] == DataBd(addrs[j], Wrap16(frags[j]), if j == 0 then tot else None)
  }

  /** Writing the next fragment's data BD keeps the head BDs and the earlier data BDs. */
  lemma FragWritten(before: seq<TxDesc>, desc0: seq<TxDesc>, b0: TxSlot, h: nat, frags: seq<nat>,
                    addrs: seq<nat>, a: nat, slot: TxSlot)
    requires |before| == NUM_TX_BD && |desc0| == NUM_TX_BD && 2 <= h <= 3
    requires |addrs| < |frags| && h + |addrs| < 2048 && slot == Adv(b0, h + |addrs|)
    requires HeadKept(before, desc0, b0, h) && FragsAt(before, b0, h, frags, addrs, None)
    ensures var after := before[slot := DataBd(a, Wrap16(frags[|addrs|]), None)];
      HeadKept(after, desc0, b0, h) && FragsAt(after, b0, h, frags, addrs + [a], None)
  {
    HeadSlotsKept(before, desc0, b0, h, slot, DataBd(a, Wrap16(frags[|addrs|]), None));
    FragAppended(before, b0, h, frags, addrs, a, slot);
  }

  lemma HeadSlotsKept(before: seq<TxDesc>, desc0: seq<TxDesc>, b0: TxSlot, h: nat, slot: TxSlot, d: TxDesc)
    requires |before| == NUM_TX_BD && |desc0| == NUM_TX_BD && 2 <= h <= 3
    requires exists k :: h <= k < 2048 && slot == Adv(b0, k)
    requires HeadKept(before, desc0, b0, h)
    ensures HeadKept(before[slot := d], desc0, b0, h)
  {
    var k :| h <= k < 2048 && slot == Adv(b0, k);
    assert Adv(b0, 0) == b0;
    AdvDistinct(b0, 0, k);
    AdvDistinct(b0, 1, k);
    if h == 3 {
      AdvDistinct(b0, 2, k);
    }
  }

  lemma FragAppended(before: seq<TxDesc>, b0: TxSlot, h: nat, frags: seq<nat>, addrs: seq<nat>, a: nat, slot: TxSlot)
    requires |before| == NUM_TX_BD && |addrs| < |frags| && h + |addrs| < 2048 && slot == Adv(b0, h + |addrs|)
    requires FragsAt(before, b0, h, frags, addrs, None)
    ensures FragsAt(before[slot := DataBd(a, Wrap16(frags[|addrs|]), None)], b0, h, frags, addrs + [a], None)
  {
    var n := |addrs|;
    var after := before[slot := DataBd(a, Wrap16(frags[n]), None)];
    var addrs' := addrs + [a];
    forall j | 0 <= j < n + 1
      ensures after[Adv(b0, h + j)] == DataBd(addrs'[j], Wrap16(frags[j]), None)
    {
      if j < n {
        AdvDistinct(b0, h + j, h + n);
        assert addrs'[j] == addrs[j];
        assert before[Adv(b0, h + j)] == DataBd(addrs[j], Wrap16(frags[j]), if j == 0 then None else None);
      } else {
        assert addrs'[j] == a;
      }
    }
  }

  /**
   * What the fragment loop of bnx2x_start_xmit keeps after |addrs| fragments:
   * bdSlot is the last BD written, each fragment so far was mapped at its
   * address and has its data BD, the head BDs are as before the loop, and
   * pktSize holds the head and the fragments so far.
   */
  ghost predicate FragLoop(desc: seq<TxDesc>, desc0: seq<TxDesc>, b0: TxSlot, h: nat, skb: Skb,
                           maps: seq<Option<nat>>, addrs: seq<nat>, pktSize: int, bdSlot: TxSlot)
    requires |desc| == NUM_TX_BD && |desc0| == NUM_TX_BD && 2 <= h
  {
    && |addrs| <= |skb.frags|
    && bdSlot == Adv(b0, h + |addrs| - 1)
    && MappedAt(maps, addrs)
    && pktSize == skb.headLen + Sum(skb.frags[..|addrs|])
    && HeadKept(desc, desc0, b0, h)
    && FragsAt(desc, b0, h, skb.frags, addrs, None)
    && KeptOutside(desc, desc0, b0, h + |addrs|)
  }

  /** One turn of the fragment loop keeps FragLoop. */
  lemma FragLoopStep(before: seq<TxDesc>, after: seq<TxDesc>, desc0: seq<TxDesc>, b0: TxSlot, h: nat,
                     skb: Skb, maps: seq<Option<nat>>, addrs: seq<nat>, pktSize: int, bdSlot: TxSlot,
                     a: nat, addrs': seq<nat>, pktSize': int, bdSlot': TxSlot)
    requires |before| == NUM_TX_BD && |desc0| == NUM_TX_BD && 2 <= h <= 3
    requires h + |skb.frags| < MAX_TX_DESC_CNT && skb.headLen + Sum(skb.frags) < U16_MOD
    requires FragLoop(before, desc0, b0, h, skb, maps, addrs, pktSize, bdSlot)
    requires |addrs| < |skb.frags| && |addrs| < |maps| && maps[|addrs|] == Some(a)
    requires bdSlot' == NextSlot(bdSlot) && after == before[bdSlot' := DataBd(a, Wrap16(skb.frags[|addrs|]), None)]
    requires addrs' == addrs + [a] && pktSize' == Wrap16(pktSize + skb.frags[|addrs|])
    ensures |after| == NUM_TX_BD && FragLoop(after, desc0, b0, h, skb, maps, addrs', pktSize', bdSlot')
  {
    var i := |addrs|;
    assert bdSlot' == Adv(b0, h + i);
    FragWritten(before, desc0, b0, h, skb.frags, addrs, a, bdSlot');
    KeptWider(before, desc0, b0, h + i, h + i + 1);
    WriteInWindow(before, desc0, b0, h + i + 1, h + i, DataBd(a, Wrap16(skb.frags[i]), None));
    SumPrefix(skb.frags, i);
    assert pktSize' == skb.headLen + Sum(skb.frags[..i + 1]);
    assert MappedAt(maps, addrs') by {
      forall k | 0 <= k < |addrs'|
        ensures maps[k] == Some(addrs'[k])
      {
        if k < i {
          assert addrs'[k] == addrs[k];
        }
      }
    }
  }

  /**
   * The fragment loop of bnx2x_start_xmit: map each fragment in turn and
   * write its data BD after the h head BDs at b0, adding its size to the
   * u16 packet length, until one fails to map.  The addresses mapped are
   * returned for the caller to record.
   */
  method WriteFrags(descRing: array<TxDesc>, skb: Skb, b0: TxSlot, h: nat, fragMaps: seq<Option<nat>>)
    returns (addrs: seq<nat>, pktSize: U16, ok: bool)
    requires descRing.Length == NUM_TX_BD && skb.headLen + Sum(skb.frags) < U16_MOD
    requires 2 <= h <= 3 && h + |skb.frags| < MAX_TX_DESC_CNT && |fragMaps| >= |skb.frags|
    modifies descRing
    ensures ok <==> AllMapped(fragMaps, |skb.frags|)
    ensures addrs == MappedFrags(fragMaps, |skb.frags|) && (ok <==> |addrs| == |skb.frags|)
    ensures ok ==> pktSize == skb.headLen + Sum(skb.frags)
    ensures HeadKept(descRing[..], old(descRing[..]), b0, h) && FragsAt(descRing[..], b0, h, skb.frags, addrs, None)
    ensures KeptOutside(descRing[..], old(descRing[..]), b0, h + |addrs|)
  {
    ghost var desc0 := descRing[..];
    var bdSlot := Adv(b0, h - 1);
    pktSize := Wrap16(skb.headLen);
    addrs := [];
    var i := 0;
    while i < |skb.frags|
      invariant i == |addrs| && FragLoop(descRing[..], desc0, b0, h, skb, fragMaps, addrs, pktSize, bdSlot)
    {
      if fragMaps[i].None? {
        MappedFragsUnique(fragMaps, |skb.frags|, addrs);
        ok := false;
        return;
      }
      var a := fragMaps[i].value;
      ghost var before, addrs0, pktSize0, bdSlot0 := descRing[..], addrs, pktSize, bdSlot;
      bdSlot := NextSlot(bdSlot);
      descRing[bdSlot] := DataBd(a, Wrap16(skb.frags[i]), None);
      pktSize := Wrap16(pktSize + skb.frags[i]);
      addrs := addrs + [a];
      FragLoopStep(before, descRing[..], desc0, b0, h, skb, fragMaps, addrs0, pktSize0, bdSlot0,
                   a, addrs, pktSize, bdSlot);
      i := i + 1;
    }
    assert skb.frags[..i] == skb.frags;
    MappedFragsUnique(fragMaps, |skb.frags|, addrs);
    ok := true;
  }

  /** Writing the start BD at b0 keeps the parse, split and data BDs after it. */
  lemma StartKeeps(desc: seq<TxDesc>, b0: TxSlot, h: nat, frags: seq<nat>, addrs: seq<nat>, tot: Option<U16>, d: TxDesc)
    requires |desc| == NUM_TX_BD && 2 <= h <= 3 && |addrs| <= |frags| && h + |addrs| < 2048
    requires FragsAt(desc, b0, h, frags, addrs, tot)
    ensures var after := desc[b0 := d];
      && after[Adv(b0, 1)] == desc[Adv(b0, 1)] && after[Adv(b0, 2)] == desc[Adv(b0, 2)]
      && FragsAt(after, b0, h, frags, addrs, tot)
  {
    assert Adv(b0, 0) == b0;
    AdvDistinct(b0, 0, 1);
    AdvDistinct(b0, 0, 2);
    var after := desc[b0 := d];
    forall j | 0 <= j < |addrs|
      ensures after[Adv(b0, h + j)] == DataBd(addrs[j], Wrap16(frags[j]), if j == 0 then tot else None)
    {
      AdvDistinct(b0, 0, h + j);
    }
  }

  /** Setting the total packet length in the first data BD keeps the start, parse and split BDs. */
  lemma TotalKeeps(desc: seq<TxDesc>, b0: TxSlot, h: nat, frags: seq<nat>, addrs: seq<nat>, tot: U16)
    requires |desc| == NUM_TX_BD && 2 <= h <= 3 && 0 < |addrs| <= |frags| && h + |addrs| < 2048
    requires FragsAt(desc, b0, h, frags, addrs, None)
    ensures var after := desc[Adv(b0, h) := DataBd(addrs[0], Wrap16(frags[0]), Some(tot))];
      && after[b0] == desc[b0] && after[Adv(b0, 1)] == desc[Adv(b0, 1)]
      && (h == 3 ==> after[Adv(b0, 2)] == desc[Adv(b0, 2)])
      && FragsAt(after, b0, h, frags, addrs, Some(tot))
  {
    assert Adv(b0, 0) == b0;
    AdvDistinct(b0, 0, h);
    AdvDistinct(b0, 1, h);
    if h == 3 {
      AdvDistinct(b0, 2, h);
    }
    var after := desc[Adv(b0, h) := DataBd(addrs[0], Wrap16(frags[0]), Some(tot))];
    forall j | 0 <= j < |addrs|
      ensures after[Adv(b0, h + j)] == DataBd(addrs[j], Wrap16(frags[j]), if j == 0 then Some(tot) else None)
    {
      if j > 0 {
        AdvDistinct(b0, h, h + j);
      }
    }
  }

  /** The parse BD and, when plan p has one, the split BD follow the start BD at b0. */
  ghost predicate ParseSplitAt(desc: seq<TxDesc>, b0: TxSlot, skb: Skb, p: HeadPlan, head: nat)
    requires |desc| == NUM_TX_BD
  {
    && desc[Adv(b0, 1)] == ParseBd(p.parse)
    && (p.split ==> desc[Adv(b0, 2)] == DataBd(head + p.hlen, Wrap16(skb.headLen - p.hlen), None))
  }

  /**
   * A ring holding, from b0, the start, parse and split BDs of plan p and
   * the fragment data BDs, holds the chain BuildChain describes.
   */
  lemma ChainWritten(desc: seq<TxDesc>, b0: TxSlot, skb: Skb, p: HeadPlan, head: nat,
                     addrs: seq<nat>, pktProd: U16, complete: bool, tot: Option<U16>)
    requires |desc| == NUM_TX_BD && |addrs| <= |skb.frags|
    requires desc[b0] == StartBd(head, if p.split then p.hlen else Wrap16(skb.headLen), Wrap16(HeadCount(p) + |addrs|),
                                 p.flags, skb.macType, if skb.vlanTag.Some? then skb.vlanTag.value else pktProd)
    requires ParseSplitAt(desc, b0, skb, p, head)
    requires FragsAt(desc, b0, HeadCount(p), skb.frags, addrs, tot)
    requires tot == if complete then Some(Wrap16(skb.headLen + Sum(skb.frags))) else None
    ensures Holds(desc, b0, BuildChain(skb, p, head, addrs, pktProd, complete))
  {
    var c := BuildChain(skb, p, head, addrs, pktProd, complete);
    var fb := FragBds(skb, addrs, complete);
    FragsAtBds(desc, b0, HeadCount(p), skb, addrs, complete, tot);
    ChainHeadElems(skb, p, head, addrs, pktProd, complete);
    ChainFragElems(skb, p, head, addrs, pktProd, complete);
    LaidOut(desc, b0, c, HeadCount(p), fb);
  }

  /** The data BDs FragsAt describes are the chain's fragment BDs. */
  lemma FragsAtBds(desc: seq<TxDesc>, b0: TxSlot, h: nat, skb: Skb, addrs: seq<nat>, complete: bool, tot: Option<U16>)
    requires |desc| == NUM_TX_BD && |addrs| <= |skb.frags| && FragsAt(desc, b0, h, skb.frags, addrs, tot)
    requires tot == if complete then Some(Wrap16(skb.headLen + Sum(skb.frags))) else None
    ensures var fb := FragBds(skb, addrs, complete);
      forall j :: 0 <= j < |fb| ==> desc[Adv(b0, h + j)] == fb[j]
  {
    var fb := FragBds(skb, addrs, complete);
    forall j | 0 <= j < |fb|
      ensures desc[Adv(b0, h + j)] == fb[j]
    {
      assert desc[Adv(b0, h + j)] == DataBd(addrs[j], Wrap16(skb.frags[j]), if j == 0 then tot else None);
      assert fb[j].DataBd? && fb[j].addr == addrs[j] && fb[j].nbytes == Wrap16(skb.frags[j]);
    }
  }

  /**
   * The descriptor writes of bnx2x_start_xmit once the linear part is mapped
   * at head: the parse BD, the split BD when the plan has one, a data BD per
   * fragment until one fails to map, the start BD with the count of BDs
   * written, and for a packet posted whole the total length in its first
   * data BD.  `last` is the slot of the chain's last BD.
   */
  method LayChain(descRing: array<TxDesc>, skb: Skb, p: HeadPlan, b0: TxSlot, head: nat, pktProd: U16,
                  fragMaps: seq<Option<nat>>) returns (addrs: seq<nat>, last: TxSlot, ok: bool)
    requires descRing.Length == NUM_TX_BD && skb.headLen + Sum(skb.frags) < U16_MOD && PlanFits(skb, p)
    requires HeadCount(p) + |skb.frags| < MAX_TX_DESC_CNT && |fragMaps| >= |skb.frags|
    modifies descRing
    ensures ok <==> AllMapped(fragMaps, |skb.frags|)
    ensures addrs == MappedFrags(fragMaps, |skb.frags|) && (ok <==> |addrs| == |skb.frags|)
    ensures last == Adv(b0, HeadCount(p) + |addrs| - 1)
    ensures Holds(descRing[..], b0, BuildChain(skb, p, head, addrs, pktProd, ok))
    ensures KeptOutside(descRing[..], old(descRing[..]), b0, HeadCount(p) + |addrs|)
  {
    assert Adv(b0, 1) == NextSlot(b0) && Adv(b0, 2) == NextSlot(Adv(b0, 1));
    ghost var d0 := descRing[..];
    var bdSlot := NextSlot(b0);
    descRing[bdSlot] := ParseBd(p.parse);
    assert descRing[..] == d0[Adv(b0, 1) := ParseBd(p.parse)];
    WriteInWindow(d0, d0, b0, HeadCount(p), 1, ParseBd(p.parse));
    var h := 2;
    if p.split {
      AdvDistinct(b0, 1, 2);
      ghost var d1 := descRing[..];
      bdSlot := NextSlot(bdSlot);
      descRing[bdSlot] := DataBd(head + p.hlen, Wrap16(skb.headLen - p.hlen), None);
      assert descRing[..] == d1[Adv(b0, 2) := DataBd(head + p.hlen, Wrap16(skb.headLen - p.hlen), None)];
      WriteInWindow(d1, d0, b0, 3, 2, DataBd(head + p.hlen, Wrap16(skb.headLen - p.hlen), None));
      h := 3;
    }
    assert h == HeadCount(p) && ParseSplitAt(descRing[..], b0, skb, p, head);
    ghost var dh := descRing[..];
    var pktSize;
    addrs, pktSize, ok := WriteFrags(descRing, skb, b0, h, fragMaps);
    assert ParseSplitAt(descRing[..], b0, skb, p, head);
    KeptWider(dh, d0, b0, h, h + |addrs|);
    KeptTrans(descRing[..], dh, d0, b0, h + |addrs|);
    ghost var df := descRing[..];
    last := Adv(b0, h + |addrs| - 1);
    SealChain(descRing, skb, p, b0, head, pktProd, addrs, pktSize, ok);
    KeptTrans(descRing[..], df, d0, b0, h + |addrs|);
  }

  /**
   * The last descriptor writes of a chain whose parse, split and data BDs
   * are in place: the start BD with the count of BDs written and, for a
   * packet posted whole, the total length in the first data BD.
   */
  method SealChain(descRing: array<TxDesc>, skb: Skb, p: HeadPlan, b0: TxSlot, head: nat, pktProd: U16,
                   addrs: seq<nat>, pktSize: U16, ok: bool)
    requires descRing.Length == NUM_TX_BD && |addrs| <= |skb.frags| && HeadCount(p) + |addrs| < MAX_TX_DESC_CNT
    requires ParseSplitAt(descRing[..], b0, skb, p, head)
    requires FragsAt(descRing[..], b0, HeadCount(p), skb.frags, addrs, None)
    requires ok ==> pktSize == Wrap16(skb.headLen + Sum(skb.frags))
    modifies descRing
    ensures Holds(descRing[..], b0, BuildChain(skb, p, head, addrs, pktProd, ok))
    ensures KeptOutside(descRing[..], old(descRing[..]), b0, HeadCount(p) + |addrs|)
  {
    var h := HeadCount(p);
    ghost var d0 := descRing[..];
    var start := StartBd(head, if p.split then p.hlen else Wrap16(skb.headLen), Wrap16(h + |addrs|),
                         p.flags, skb.macType, if skb.vlanTag.Some? then skb.vlanTag.value else pktProd);
    StartKeeps(d0, b0, h, skb.frags, addrs, None, start);
    descRing[b0] := start;
    ghost var d1 := descRing[..];
    assert d1 == d0[b0 := start] && Adv(b0, 0) == b0;
    WriteInWindow(d0, d0, b0, h + |addrs|, 0, start);
    assert ParseSplitAt(d1, b0, skb, p, head) && FragsAt(d1, b0, h, skb.frags, addrs, None);
    ghost var tot: Option<U16> := None;
    if ok {
      tot := Some(pktSize);
      if |addrs| > 0 {
        TotalKeeps(d1, b0, h, skb.frags, addrs, pktSize);
        descRing[Adv(b0, h)] := DataBd(addrs[0], Wrap16(skb.frags[0]), Some(pktSize));
        assert descRing[..] == d1[Adv(b0, h) := DataBd(addrs[0], Wrap16(skb.frags[0]), Some(pktSize))];
        WriteInWindow(d1, d0, b0, h + |addrs|, h, DataBd(addrs[0], Wrap16(skb.frags[0]), Some(pktSize)));
      }
    }
    ChainWritten(descRing[..], b0, skb, p, head, addrs, pktProd, ok, tot);
  }

  /** One turn of the free_tx_pkt loop releases the data BD at s and moves on. */
  lemma UnmapStep(ops: seq<DmaOp>, desc: seq<TxDesc>, s: TxSlot, n: int, next: TxSlot)
    requires |desc| == NUM_TX_BD && n > 0 && (n > 1 ==> next == NextSlot(s))
    ensures ops + [DmaOp(DescAddr(desc[s]), DescNbytes(desc[s]))] + DataUnmaps(desc, next, n - 1)
      == ops + DataUnmaps(desc, s, n)
  {
    assert DataUnmaps(desc, s, n) == [DmaOp(DescAddr(desc[s]), DescNbytes(desc[s]))] + DataUnmaps(desc, next, n - 1);
  }

  /**
   * bnx2x_free_tx_pkt's walk over the descriptor ring: read the start BD,
   * step over the parse BD and any split BD, then unmap the data BDs one by
   * one.  The linear part is unmapped with the split BD's bytes added back,
   * the corrected length of FreePlan.  The ring is only read.
   */
  method FreeWalk(descRing: array<TxDesc>, b: SwTxBd) returns (f: FreeResult)
    requires descRing.Length == NUM_TX_BD
    ensures f == FreePlan(descRing[..], b)
  {
    ghost var desc := descRing[..];
    var s := TxBd(b.firstBd);
    var start := descRing[s];
    var nbd: int := DescNbd(start) - 1;
    var newCons := Wrap16(nbd + b.firstBd);
    var bdIdx := NextSlot(s);
    assert bdIdx == Adv(s, 1);
    nbd := nbd - 1;
    bdIdx := NextSlot(bdIdx);
    assert bdIdx == Adv(s, 2);
    var splitLen := 0;
    if b.split {
      splitLen := DescNbytes(descRing[bdIdx]);
      nbd := nbd - 1;
      bdIdx := NextSlot(bdIdx);
      assert bdIdx == Adv(s, 3);
    }
    var ops := [DmaOp(DescAddr(start), DescNbytes(start) + splitLen)];
    ghost var goal := ops + DataUnmaps(desc, bdIdx, nbd);
    assert FreePlan(desc, b) == FreeResult(newCons, goal);
    while nbd > 0
      invariant ops + DataUnmaps(desc, bdIdx, nbd) == goal
    {
      var d := descRing[bdIdx];
      ghost var ops0, idx0 := ops, bdIdx;
      ops := ops + [DmaOp(DescAddr(d), DescNbytes(d))];
      nbd := nbd - 1;
      if nbd != 0 {
        bdIdx := NextSlot(bdIdx);
      }
      UnmapStep(ops0, desc, idx0, nbd + 1, bdIdx);
    }
    f := FreeResult(newCons, ops);
  }

  /**
   * The checks of bnx2x_start_xmit between the ring-space test and the
   * descriptor writes: linearise the packet when bnx2x_pkt_req_lin asks for
   * it, then map its linear part.  go is false when skb_linearize (outcome
   * linOk) or dma_map_single (outcome headMap) fails, and the packet is then
   * dropped.
   */
  method Admit(skb: Skb, lim: Limits, linOk: bool, headMap: Option<nat>) returns (eff: Skb, go: bool)
    requires lim.Valid() && SkbOk(skb, lim)
    ensures go <==> !(NeedsLin(skb, lim) && !linOk) && headMap.Some?
    ensures eff == Effective(skb, lim)
  {
    var x := XmitTypeOf(skb);
    eff := skb;
    var lin := PktReqLin(skb, x, lim.maxFetchBd);
    if lin {
      if !linOk {
        return skb.Linearized(), false;
      }
      eff := skb.Linearized();
    }
    go := headMap.Some?;
  }

  class TxData {
    const bufRing: array<SwTxBd>  // tx_buf_ring
    const descRing: array<TxDesc> // tx_desc_ring
    var pktProd: U16              // tx_pkt_prod
    var pktCons: U16              // tx_pkt_cons
    var bdProd: U16               // tx_bd_prod
    var bdCons: U16               // tx_bd_cons
    const ringSize: int           // bp->tx_ring_size
    var queueStopped: bool        // netif_tx_queue_stopped
    var mapped: seq<DmaOp>        // every DMA mapping taken, in order
    var unmapped: seq<DmaOp>      // every DMA mapping released, in order
    var freed: seq<nat>           // every skb released, in order

    ghost predicate Valid()
      reads this
    {
      bufRing.Length == NUM_TX_BD && descRing.Length == NUM_TX_BD && !IsNextPageSlot(bdProd)
    }

    /** The completion-side state, with bdc standing for the BD consumer. */
    ghost function Snap(bdc: U16): TxSnap
      reads this, bufRing
    {
      TxSnap(bufRing[..], unmapped, freed, bdc)
    }

    /** An empty queue, as after allocation and init. */
    constructor (ringSize: int)
      ensures Valid() && fresh(bufRing) && fresh(descRing)
      ensures pktProd == 0 && pktCons == 0 && bdProd == 0 && bdCons == 0
      ensures this.ringSize == ringSize && !queueStopped
      ensures mapped == [] && unmapped == [] && freed == []
      ensures forall i :: 0 <= i < NUM_TX_BD ==> bufRing[i] == SwTxBd(None, 0, false) && descRing[i] == Unused
    {
      bufRing := new SwTxBd[NUM_TX_BD](_ => SwTxBd(None, 0, false));
      descRing := new TxDesc[NUM_TX_BD](_ => Unused);
      pktProd, pktCons, bdProd, bdCons := 0, 0, 0, 0;
      this.ringSize := ringSize;
      queueStopped := false;
      mapped, unmapped, freed := [], [], [];
    }

    /**
     * bnx2x_free_tx_pkt: release the packet in slot idx and return the index
     * of its last BD, with FreePlan's corrected length for the linear part
     * of a split packet.  The descriptor ring is only read.
     */
    method FreeTxPkt(idx: TxSlot) returns (newCons: U16)
      requires Valid()
      modifies this, bufRing
      ensures Valid()
      ensures newCons == FreePlan(descRing[..], old(bufRing[idx])).newCons
      ensures Snap(newCons) == FreeStep(old(Snap(bdCons)), descRing[..], idx)
      ensures pktProd == old(pktProd) && pktCons == old(pktCons) && bdProd == old(bdProd) && bdCons == old(bdCons)
      ensures queueStopped == old(queueStopped) && mapped == old(mapped)
    {
      var txBuf := bufRing[idx];
      var f := FreeWalk(descRing, txBuf);
      newCons := f.newCons;
      unmapped := unmapped + f.unmaps;
      freed := freed + FreedOf(txBuf);
      bufRing[idx] := FreeSlot(txBuf);
    }

    /**
     * The completion loop bnx2x_tx_int and bnx2x_free_tx_skbs share: free
     * every packet from sw up to hw, carrying the BD consumer bdc along.
     */
    method FreeUpTo(sw0: U16, hw: U16, bdc0: U16) returns (bdc: U16)
      requires Valid()
      modifies this, bufRing
      ensures Valid()
      ensures Snap(bdc) == Drain(old(Snap(bdc0)), descRing[..], sw0, hw)
      ensures pktProd == old(pktProd) && pktCons == old(pktCons) && bdProd == old(bdProd) && bdCons == old(bdCons)
      ensures queueStopped == old(queueStopped) && mapped == old(mapped)
    {
      bdc := bdc0;
      var sw := sw0;
      ghost var desc := descRing[..];
      ghost var goal := Drain(Snap(bdc0), desc, sw0, hw);
      while sw != hw
        invariant Valid() && descRing[..] == desc
        invariant Drain(Snap(bdc), desc, sw, hw) == goal
        invariant pktProd == old(pktProd) && pktCons == old(pktCons) && bdProd == old(bdProd) && bdCons == old(bdCons)
        invariant queueStopped == old(queueStopped) && mapped == old(mapped)
        decreases Wrap16(hw as int - sw as int)
      {
        var i := TxBd(sw);
        ghost var q := Snap(bdc);
        DrainStep(q, desc, sw, hw);
        bdc := FreeTxPkt(i);
        assert Snap(bdc) == FreeStep(q, desc, i);
        sw := Wrap16(sw as int + 1);
      }
      DistanceStep(sw, hw);
    }

    /**
     * bnx2x_tx_int: free every packet the chip has completed, up to the
     * status block's consumer hwCons, then wake a stopped queue if the
     * device is open and a largest packet fits again.
     */
    method TxInt(hwCons: U16, devOpen: bool, lim: Limits) returns (woke: bool)
      requires Valid()
      modifies this, bufRing
      ensures Valid()
      ensures Snap(bdCons) == Drain(old(Snap(bdCons)), descRing[..], old(pktCons), hwCons)
      ensures pktCons == hwCons
      ensures woke == (old(queueStopped) && devOpen && TxAvail(bdProd, bdCons, ringSize) >= lim.maxSkbFrags + 3)
      ensures queueStopped == (old(queueStopped) && !woke)
      ensures pktProd == old(pktProd) && bdProd == old(bdProd) && mapped == old(mapped)
    {
      var bdc := FreeUpTo(pktCons, hwCons, bdCons);
      pktCons := hwCons;
      bdCons := bdc;
      woke := false;
      if queueStopped {
        if queueStopped && devOpen && TxAvail(bdProd, bdCons, ringSize) >= lim.maxSkbFrags + 3 {
          queueStopped := false;
          woke := true;
        }
      }
    }

    /**
     * The per-queue body of bnx2x_free_tx_skbs: free every packet between
     * the packet consumer and producer; the indices themselves are left for
     * the ring's re-initialisation.
     */
    method FreeTxSkbs()
      requires Valid()
      modifies this, bufRing
      ensures Valid()
      ensures var r := Drain(old(Snap(bdCons)), descRing[..], pktCons, pktProd); Snap(r.bdCons) == r
      ensures pktProd == old(pktProd) && pktCons == old(pktCons) && bdProd == old(bdProd) && bdCons == old(bdCons)
      ensures queueStopped == old(queueStopped) && mapped == old(mapped)
    {
      var _ := FreeUpTo(pktCons, pktProd, bdCons);
    }

    /**
     * bnx2x_start_xmit on this queue.  A ring without room for the packet's
     * fragments and three more BDs stops the queue and answers BUSY without
     * touching the ring.  Otherwise the packet is linearised when
     * bnx2x_pkt_req_lin asks for it and its linear part mapped; a failure of
     * either drops (frees) the packet.  linOk and headMap are the outcomes of
     * skb_linearize and of dma_map_single, fragMaps those of each fragment's
     * mapping; chipE1x selects the parse BD layout.
     */
    method StartXmit(skb: Skb, lim: Limits, chipE1x: bool, linOk: bool, headMap: Option<nat>,
                     fragMaps: seq<Option<nat>>) returns (res: XmitResult)
      requires Valid() && lim.Valid() && SkbOk(skb, lim) && |fragMaps| >= |skb.frags|
      modifies this, bufRing, descRing
      ensures Valid() && pktCons == old(pktCons) && bdCons == old(bdCons)
      ensures res == Busy <==> TxAvail(old(bdProd), bdCons, ringSize) < |skb.frags| + 3
      ensures res != Sent ==> pktProd == old(pktProd) && bdProd == old(bdProd)
      ensures res == Busy ==> queueStopped
      ensures res == Busy || (NeedsLin(skb, lim) && !linOk) || headMap.None? ==>
        && (res == Busy || res == Dropped) && unchanged(bufRing, descRing)
        && mapped == old(mapped) && unmapped == old(unmapped)
        && freed == (if res == Busy then old(freed) else old(freed) + [skb.id])
        && (res == Dropped ==> queueStopped == old(queueStopped))
      ensures res != Busy && !(NeedsLin(skb, lim) && !linOk) && headMap.Some? ==>
        var eff := Effective(skb, lim);
        Posted(eff, PlanOf(eff, XmitTypeOf(skb), chipE1x), lim, headMap.value, fragMaps, res)
    {
      if TxAvail(bdProd, bdCons, ringSize) < |skb.frags| + 3 {
        queueStopped := true;
        return Busy;
      }
      var eff, go := Admit(skb, lim, linOk, headMap);
      if !go {
        freed := freed + [skb.id];
        return Dropped;
      }
      res := PostPacket(eff, PlanOf(eff, XmitTypeOf(skb), chipE1x), lim, headMap.value, fragMaps);
    }

    /**
     * The outcome of bnx2x_start_xmit once the linear part of skb is mapped
     * at head and its head plan is p.  The packet is Sent exactly when every
     * fragment maps, and every mapping taken is noted.  The descriptor ring
     * holds, from the slot of the old BD producer, the chain BuildChain
     * describes (whole for a Sent packet, cut short at the failed fragment
     * for a Dropped one, which is the chain free_tx_pkt then walks), and
     * every slot outside that chain is as it was.  A Sent packet keeps its tx_buf, advances
     * the packet producer by one and the BD producer past its chain, and
     * stops the queue when a largest packet no longer fits; a Dropped one is
     * freed with every mapping given back, its tx_buf cleared and both
     * producers left alone.  The consumers never move.
     */
    twostate predicate Posted(skb: Skb, p: HeadPlan, lim: Limits, head: nat, fragMaps: seq<Option<nat>>,
                              res: XmitResult)
      reads this, bufRing, descRing
    {
      && |fragMaps| >= |skb.frags| && bufRing.Length == NUM_TX_BD && descRing.Length == NUM_TX_BD
      && !IsNextPageSlot(old(bdProd)) && HeadCount(p) + |skb.frags| < MAX_TX_DESC_CNT
      && var addrs := MappedFrags(fragMaps, |skb.frags|);
      && res != Busy && (res == Sent <==> AllMapped(fragMaps, |skb.frags|))
      && pktCons == old(pktCons) && bdCons == old(bdCons)
      && bufRing[..] == old(bufRing[..])[TxBd(old(pktProd)) :=
        if res == Sent then SwTxBd(Some(skb.id), old(bdProd), p.split) else SwTxBd(None, 0, p.split)]
      && mapped == old(mapped) + MapOps(skb, head, addrs)
      && Holds(descRing[..], TxBd(old(bdProd)), BuildChain(skb, p, head, addrs, old(pktProd), res == Sent))
      && KeptOutside(descRing[..], old(descRing[..]), TxBd(old(bdProd)), HeadCount(p) + |addrs|)
      && (res == Dropped ==>
        && pktProd == old(pktProd) && bdProd == old(bdProd) && queueStopped == old(queueStopped)
        && freed == old(freed) + [skb.id] && unmapped == old(unmapped) + MapOps(skb, head, addrs))
      && (res == Sent ==>
        && unmapped == old(unmapped) && freed == old(freed)
        && pktProd == Wrap16(old(pktProd) + 1) && bdProd == ProdAfter(old(bdProd), HeadCount(p) + |skb.frags|)
        && queueStopped == (old(queueStopped) || MustStop(bdProd, bdCons, ringSize, lim)))
    }

    /**
     * The part of bnx2x_start_xmit after the linear part is mapped at head
     * and the head plan p is settled: note that mapping, take the buffer
     * slot, lay out the chain, and either post the packet (advance both
     * producers by the doorbell count, and stop the queue when a largest
     * packet no longer fits) or, on the first fragment that fails to map,
     * release everything through free_tx_pkt.
     */
    method PostPacket(skb: Skb, p: HeadPlan, lim: Limits, head: nat, fragMaps: seq<Option<nat>>)
      returns (res: XmitResult)
      requires Valid() && lim.Valid() && Postable(skb, lim) && PlanFits(skb, p) && |fragMaps| >= |skb.frags|
      modifies this, bufRing, descRing
      ensures Valid() && Posted(skb, p, lim, head, fragMaps, res)
    {
      PostableFits(skb, lim);
      var addrs, last, ok := Lay(skb, p, head, fragMaps);
      res := Finish(skb, p, lim, head, addrs, last, ok);
    }

    /**
     * After the chain is laid: post the packet when every fragment mapped,
     * otherwise unwind it.
     */
    method Finish(skb: Skb, p: HeadPlan, lim: Limits, head: nat, addrs: seq<nat>, last: TxSlot, ok: bool)
      returns (res: XmitResult)
      requires Valid() && |addrs| <= |skb.frags| && FitsU16(skb) && PlanFits(skb, p)
      requires HeadCount(p) + |skb.frags| < MAX_TX_DESC_CNT && (ok <==> |addrs| == |skb.frags|)
      requires last == Adv(TxBd(bdProd), HeadCount(p) + |addrs| - 1)
      requires Holds(descRing[..], TxBd(bdProd), BuildChain(skb, p, head, addrs, pktProd, ok))
      requires bufRing[TxBd(pktProd)] == SwTxBd(Some(skb.id), bdProd, p.split)
      modifies this, bufRing
      ensures Valid() && (res == Sent <==> ok) && res != Busy
      ensures pktCons == old(pktCons) && bdCons == old(bdCons) && mapped == old(mapped)
      ensures bufRing[..] == if ok then old(bufRing[..]) else old(bufRing[..])[TxBd(old(pktProd)) := SwTxBd(None, 0, p.split)]
      ensures !ok ==>
        && pktProd == old(pktProd) && bdProd == old(bdProd) && queueStopped == old(queueStopped)
        && freed == old(freed) + [skb.id] && unmapped == old(unmapped) + MapOps(skb, head, addrs)
      ensures ok ==>
        && unmapped == old(unmapped) && freed == old(freed)
        && pktProd == Wrap16(old(pktProd) + 1) && bdProd == ProdAfter(old(bdProd), HeadCount(p) + |skb.frags|)
        && queueStopped == (old(queueStopped) || MustStop(bdProd, bdCons, ringSize, lim))
    {
      if !ok {
        Unwind(skb, p, head, addrs);
        return Dropped;
      }
      Advance(HeadCount(p) + |addrs|, last, lim);
      res := Sent;
    }

    /**
     * Record the packet in its tx_buf and lay its descriptor chain, noting
     * the mappings of the linear part and of the fragments taken.
     */
    method Lay(skb: Skb, p: HeadPlan, head: nat, fragMaps: seq<Option<nat>>)
      returns (addrs: seq<nat>, last: TxSlot, ok: bool)
      requires Valid() && skb.headLen + Sum(skb.frags) < U16_MOD && PlanFits(skb, p)
      requires HeadCount(p) + |skb.frags| < MAX_TX_DESC_CNT && |fragMaps| >= |skb.frags|
      modifies this, bufRing, descRing
      ensures Valid() && (ok <==> AllMapped(fragMaps, |skb.frags|))
      ensures addrs == MappedFrags(fragMaps, |skb.frags|) && (ok <==> |addrs| == |skb.frags|)
      ensures last == Adv(TxBd(bdProd), HeadCount(p) + |addrs| - 1)
      ensures Holds(descRing[..], TxBd(bdProd), BuildChain(skb, p, head, addrs, pktProd, ok))
      ensures KeptOutside(descRing[..], old(descRing[..]), TxBd(bdProd), HeadCount(p) + |addrs|)
      ensures bufRing[..] == old(bufRing[..])[TxBd(pktProd) := SwTxBd(Some(skb.id), bdProd, p.split)]
      ensures mapped == old(mapped) + MapOps(skb, head, addrs)
      ensures pktProd == old(pktProd) && pktCons == old(pktCons) && bdProd == old(bdProd) && bdCons == old(bdCons)
      ensures queueStopped == old(queueStopped) && unmapped == old(unmapped) && freed == old(freed)
    {
      bufRing[TxBd(pktProd)] := SwTxBd(Some(skb.id), bdProd, p.split);
      addrs, last, ok := LayChain(descRing, skb, p, TxBd(bdProd), head, pktProd, fragMaps);
      mapped := mapped + MapOps(skb, head, addrs);
    }

    /**
     * The unwind of bnx2x_start_xmit when a fragment fails to map after
     * |addrs| were mapped: the chain is cut short there and free_tx_pkt
     * releases the packet, which gives back every mapping taken for it.
     */
    method Unwind(skb: Skb, p: HeadPlan, head: nat, addrs: seq<nat>)
      requires Valid() && |addrs| <= |skb.frags| && FitsU16(skb) && PlanFits(skb, p) && |skb.frags| < 0x1_0000 - 3
      requires Holds(descRing[..], TxBd(bdProd), BuildChain(skb, p, head, addrs, pktProd, false))
      requires bufRing[TxBd(pktProd)] == SwTxBd(Some(skb.id), bdProd, p.split)
      modifies this, bufRing
      ensures Valid()
      ensures bufRing[..] == old(bufRing[..])[TxBd(pktProd) := SwTxBd(None, 0, p.split)]
      ensures unmapped == old(unmapped) + MapOps(skb, head, addrs) && freed == old(freed) + [skb.id]
      ensures pktProd == old(pktProd) && pktCons == old(pktCons) && bdProd == old(bdProd) && bdCons == old(bdCons)
      ensures queueStopped == old(queueStopped) && mapped == old(mapped)
    {
      FreeReleasesChain(descRing[..], skb, p, head, addrs, pktProd, false, bdProd);
      var _ := FreeTxPkt(TxBd(pktProd));
    }

    /**
     * The tail of bnx2x_start_xmit for a posted packet of nbd BDs whose last
     * BD is at slot last: count a crossed next-page BD into the doorbell,
     * advance both producers, and stop the queue when a largest packet no
     * longer fits.
     */
    method Advance(nbd: nat, last: TxSlot, lim: Limits)
      requires Valid() && 0 < nbd < MAX_TX_DESC_CNT && last == Adv(TxBd(bdProd), nbd - 1)
      modifies this
      ensures Valid()
      ensures pktProd == Wrap16(old(pktProd) + 1)
      ensures bdProd == ProdAfter(old(bdProd), nbd)
      ensures queueStopped == (old(queueStopped) || MustStop(bdProd, bdCons, ringSize, lim))
      ensures pktCons == old(pktCons) && bdCons == old(bdCons)
      ensures mapped == old(mapped) && unmapped == old(unmapped) && freed == old(freed)
    {
      var bdSlot := NextSlot(last);
      var dbNbd := DoorbellNbd(bdSlot, nbd);
      pktProd := Wrap16(pktProd as int + 1);
      bdProd := Wrap16(bdProd as int + dbNbd);
      assert bdProd == ProdAfter(old(bdProd), nbd);
      if MustStop(bdProd, bdCons, ringSize, lim) {
        queueStopped := true;
      }
    }
  }
}
