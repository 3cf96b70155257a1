# bnx2x fast path and load/unload, modelled in Dafny

This project models the common part of the Broadcom NetXtreme II 10 Gb
Ethernet driver (bnx2x 1.70.36, the PF_RING-aware copy), file
`bnx2x_cmn.c`. It covers the fast path and the device life cycle:

- **Transmit** (`bnx2x_start_xmit` and its helpers). The xmit type, the
  linearization test and the start, parse and split BDs are modelled. So is
  the fragment loop with its unwind when a mapping fails, the doorbell BD
  count across page boundaries, and stopping the queue.
- **Transmit completion** (`bnx2x_free_tx_pkt`, `bnx2x_tx_int`,
  `bnx2x_free_tx_skbs`). The descriptor ring is an `array` that the
  completion side walks.
- **Receive** (`bnx2x_rx_int`). This covers the budget and the completion
  ring's next-page entries, slow-path CQEs, and the error, copy and
  replace paths with buffer reuse. TPA aggregation is included:
  `bnx2x_tpa_start`, `bnx2x_tpa_stop`, `bnx2x_fill_frag_skb`,
  `bnx2x_set_lro_mss`, and the SGE mask and producer of
  `bnx2x_update_sge_prod`.
- **NAPI** (`bnx2x_poll`). Tx and Rx work per pass, the budget, and the two
  idle checks before completing.
- **Load and unload** (`bnx2x_nic_load`, `bnx2x_nic_unload`). This covers
  the load states, the load-count bookkeeping when there is no management
  CPU (MCP), the port management function (PMF) role, the MCP commands, and
  the error unwinding through the `load_error` labels.
- **Configuration helpers.** These are MF speed, link report deduplication,
  MAX_BW updates, queue counts, receive buffer sizes, the RSS indirection
  table, fast-path memory allocation, PHY index selection, MTU changes,
  features, and status-block coalescing.

Each stateful entity is a `class`, and each of its methods is proved
against a pure function of the state before the call:

- `TxQueue.TxData` is one Tx ring (`bnx2x_fp_txdata`).
- `RxQueue.FastPath` is the receive side of `bnx2x_fastpath`.
- `Lifecycle.Device` is the part of `struct bnx2x` that load and unload
  change.

The DMA mappings, unmappings and frees each operation makes are recorded
as sequences, and the lemmas relate those sequences across operations. For
example, freeing a packet releases exactly what transmitting it mapped
(once the split-packet unmap length listed under Findings is corrected), and
a failed load releases exactly what it acquired, in reverse order.

Values the driver gets from elsewhere are parameters. These include what
the MCP answers, whether an allocation or a DMA mapping succeeds, the
status block indices, and the completions the hardware writes.

The ring geometry uses 4 KiB pages:

- 256 Tx BDs per page, 16 pages;
- 512 Rx BDs per page, 8 pages;
- 128 CQEs per page, 16 pages;
- 512 SGEs per page, 2 pages.

## Model

| member | source | states |
|---|---|---|
| Base.SubS16 | drivers/PF_RING_aware/broadcom/netxtreme2-7.0.36/bnx2x-1.70.36/src/bnx2x_cmn.c:319 | SUB_S16: the signed 16-bit distance lies in [-0x8000, 0x8000) and is congruent to a - b modulo 2^16 |
| Base.SubS16Ahead | drivers/PF_RING_aware/broadcom/netxtreme2-7.0.36/bnx2x-1.70.36/src/bnx2x_cmn.c:319-320 | idx counts as ahead of last_max exactly when the wrapped distance from last_max to idx is in (0, 0x8000); the distance is zero exactly when the two are equal |
| TxRing.NextTxIdx | drivers/PF_RING_aware/broadcom/netxtreme2-7.0.36/bnx2x-1.70.36/src/bnx2x_cmn.c:194-219 | NEXT_TX_IDX advances one slot, or two when it would land on a page's next-page link; it never lands on a next-page slot |
| TxRing.PosBounds | drivers/PF_RING_aware/broadcom/netxtreme2-7.0.36/bnx2x-1.70.36/src/bnx2x_cmn.c:3550-3602 | j steps of NEXT_TX_IDX advance the raw BD index by at least j and at most 2j |
| TxRing.AdvDistinct | drivers/PF_RING_aware/broadcom/netxtreme2-7.0.36/bnx2x-1.70.36/src/bnx2x_cmn.c:3550-3602 | the first 2048 BD slots a chain walks from any slot are pairwise distinct, so the BDs of one chain never overwrite each other |
| TxRing.PageCrossing | drivers/PF_RING_aware/broadcom/netxtreme2-7.0.36/bnx2x-1.70.36/src/bnx2x_cmn.c:3602-3608 | after n < MAX_TX_DESC_CNT steps from a BD slot, the raw advance is n, plus one exactly when TX_BD_POFF of the end is below n: the doorbell nbd correction |
| TxRing.PosWithinPages | drivers/PF_RING_aware/broadcom/netxtreme2-7.0.36/bnx2x-1.70.36/src/bnx2x_cmn.c:3602-3608 | a chain that stays within a page advances by n; one that crosses one page boundary advances by n + 1; it never ends on a next-page slot |
| TxRing.ProducerAfterChain | drivers/PF_RING_aware/broadcom/netxtreme2-7.0.36/bnx2x-1.70.36/src/bnx2x_cmn.c:3602-3608 | bd_prod plus the doorbell nbd masks to the slot after the chain's last BD, is not a next-page slot, and that nbd equals the raw advance (with lines 3654) |
| TxRing.ProdAfter | drivers/PF_RING_aware/broadcom/netxtreme2-7.0.36/bnx2x-1.70.36/src/bnx2x_cmn.c:3654 | the new BD producer masks to the slot after an n-BD chain and is not a next-page slot |
| TxRing.TxAvail | drivers/PF_RING_aware/broadcom/netxtreme2-7.0.36/bnx2x-1.70.36/src/bnx2x_cmn.c:3309 | an empty ring offers the ring size less the next-page slots (with lines 3660, 3673) |
| TxChain.BuildChain | drivers/PF_RING_aware/broadcom/netxtreme2-7.0.36/bnx2x-1.70.36/src/bnx2x_cmn.c:3407-3595 | the chain is the head BDs (start, parse, and the split BD when the header is split) followed by one BD per mapped fragment |
| TxChain.MapOps | drivers/PF_RING_aware/broadcom/netxtreme2-7.0.36/bnx2x-1.70.36/src/bnx2x_cmn.c:3377-3394 | the DMA mappings of a packet: the linear part, then one per mapped fragment (with lines 3553-3560) |
| TxChain.DataUnmaps | drivers/PF_RING_aware/broadcom/netxtreme2-7.0.36/bnx2x-1.70.36/src/bnx2x_cmn.c:206-220 | the data-BD loop of free_tx_pkt unmaps exactly nbd of the remaining BDs, one each |
| TxChain.DataUnmapsLaidOut | drivers/PF_RING_aware/broadcom/netxtreme2-7.0.36/bnx2x-1.70.36/src/bnx2x_cmn.c:206-220 | when the data BDs from a slot carry the given mappings, the loop releases exactly those mappings, in order |
| TxChain.FreeLaidOut | drivers/PF_RING_aware/broadcom/netxtreme2-7.0.36/bnx2x-1.70.36/src/bnx2x_cmn.c:156-229 | free_tx_pkt on a chain laid out from first_bd releases the head mapping, with the split BD's bytes added back to the start BD's (with the corrected start-BD length of the Findings row), and then each data BD's mapping; the new BD consumer is first_bd + nbd - 1 |
| TxChain.ChainStart | drivers/PF_RING_aware/broadcom/netxtreme2-7.0.36/bnx2x-1.70.36/src/bnx2x_cmn.c:3407-3428 | the start BD carries the head mapping and nbd equal to the chain length; its bytes, plus the split BD's when split, add up to the linear length (with lines 3505-3538) |
| TxChain.ChainTail | drivers/PF_RING_aware/broadcom/netxtreme2-7.0.36/bnx2x-1.70.36/src/bnx2x_cmn.c:3550-3595 | every BD after the head BDs describes the matching fragment mapping |
| TxChain.LaidOut | drivers/PF_RING_aware/broadcom/netxtreme2-7.0.36/bnx2x-1.70.36/src/bnx2x_cmn.c:3550-3600 | a chain whose BDs sit at consecutive ring slots from the start slot is held by the ring |
| TxChain.FragsLaidOut | drivers/PF_RING_aware/broadcom/netxtreme2-7.0.36/bnx2x-1.70.36/src/bnx2x_cmn.c:3550-3600 | the data BDs of a held chain, read back from the ring, give the fragment mappings in order |
| TxChain.FreeShapedChain | drivers/PF_RING_aware/broadcom/netxtreme2-7.0.36/bnx2x-1.70.36/src/bnx2x_cmn.c:156-229 | free_tx_pkt releases the head and fragment mappings of any held chain with the start_xmit shape (with the corrected start-BD length of the Findings row), and moves the consumer to first_bd + chain length - 1 |
| TxChain.FreePlanSkbBlind | drivers/PF_RING_aware/broadcom/netxtreme2-7.0.36/bnx2x-1.70.36/src/bnx2x_cmn.c:156-229 | what free_tx_pkt unmaps and where it leaves the consumer depends only on the ring and on first_bd and the split flag, not on the skb |
| TxChain.FreeReleasesChain | drivers/PF_RING_aware/broadcom/netxtreme2-7.0.36/bnx2x-1.70.36/src/bnx2x_cmn.c:156-229 | round trip: freeing a chain that start_xmit wrote releases exactly the mappings start_xmit made, and puts the BD consumer on the chain's last BD (with lines 3377-3595) |
| TxChain.SplitUnmapShortAsWritten | drivers/PF_RING_aware/broadcom/netxtreme2-7.0.36/bnx2x-1.70.36/src/bnx2x_cmn.c:173-182 | for every split packet, the length the source passes when it unmaps the start BD (that BD's nbytes, now hlen) is shorter than the linear part it mapped (with lines 2894-2895) |
| TxOffload.XmitTypeOf | drivers/PF_RING_aware/broadcom/netxtreme2-7.0.36/bnx2x-1.70.36/src/bnx2x_cmn.c:2940-2980 | the xmit type: GSO exactly for TCPv4/TCPv6 GSO packets, and GSO implies the matching checksum and TCP bits; a partial checksum sets the v4 or v6 bit; with neither it is plain; checksum work is needed exactly for a partial checksum or GSO |
| TxOffload.SbdCsum | drivers/PF_RING_aware/broadcom/netxtreme2-7.0.36/bnx2x-1.70.36/src/bnx2x_cmn.c:3143-3157 | set_sbd_csum always sets L4 checksum offload, IP checksum for v4, the IPv6 bit otherwise, UDP unless TCP, and leaves the other flags unchanged |
| TxOffload.PbdE1xLengths | drivers/PF_RING_aware/broadcom/netxtreme2-7.0.36/bnx2x-1.70.36/src/bnx2x_cmn.c:3167-3212 | the E1x parse BD: header lengths in 16-bit words that double back to the network offset, the IP header length and the L4 end, which is also the returned header length |
| TxOffload.PbdCsumE2 | drivers/PF_RING_aware/broadcom/netxtreme2-7.0.36/bnx2x-1.70.36/src/bnx2x_cmn.c:3121-3141 | the E2 parse data: TCP header start in words and TCP header length in dwords that scale back to the packet's offsets, no TCP length when not TCP, and the returned header length is the L4 end (8-bit) |
| TxOffload.PbdHlenAgree | drivers/PF_RING_aware/broadcom/netxtreme2-7.0.36/bnx2x-1.70.36/src/bnx2x_cmn.c:3121-3212 | the E1x and E2 parse-BD routines return the same header length, the L4 end |
| TxOffload.PktReqLin | drivers/PF_RING_aware/broadcom/netxtreme2-7.0.36/bnx2x-1.70.36/src/bnx2x_cmn.c:2986-3064 | the method's answer equals ReqLin: linearize only with at least MAX_FETCH_BD - 3 fragments; then always without LSO, and with LSO exactly when some window of MAX_FETCH_BD - 3 consecutive BDs carries less than one MSS (the first window counts the linear data past the headers) |
| TxOffload.LongWindowsStep | drivers/PF_RING_aware/broadcom/netxtreme2-7.0.36/bnx2x-1.70.36/src/bnx2x_cmn.c:3015-3044 | a window that reaches the MSS lets the sliding check move on to the next window |
| TxOffload.HeadWindow | drivers/PF_RING_aware/broadcom/netxtreme2-7.0.36/bnx2x-1.70.36/src/bnx2x_cmn.c:3015-3030 | the first window sums the linear data past the headers and the first w - 1 fragments |
| TxOffload.FragWindow | drivers/PF_RING_aware/broadcom/netxtreme2-7.0.36/bnx2x-1.70.36/src/bnx2x_cmn.c:3030-3044 | the later windows sum consecutive fragments, shifted past the linear chunk when there is one |
| TxQueue.Effective | drivers/PF_RING_aware/broadcom/netxtreme2-7.0.36/bnx2x-1.70.36/src/bnx2x_cmn.c:3358-3376 | linearizing keeps the xmit type, the id and the total length, never adds fragments, keeps the stack's guarantees and leaves no fragments when it was needed |
| TxQueue.DrainStep | drivers/PF_RING_aware/broadcom/netxtreme2-7.0.36/bnx2x-1.70.36/src/bnx2x_cmn.c:247-259 | one pass of the tx_int loop frees the packet at sw_cons and brings sw_cons one closer to hw_cons |
| TxQueue.DistanceStep | drivers/PF_RING_aware/broadcom/netxtreme2-7.0.36/bnx2x-1.70.36/src/bnx2x_cmn.c:247-259 | the 16-bit distance from sw_cons to hw_cons is zero exactly when they are equal, and drops by one per step |
| TxQueue.DrainClears | drivers/PF_RING_aware/broadcom/netxtreme2-7.0.36/bnx2x-1.70.36/src/bnx2x_cmn.c:247-259 | after draining n packets the drained slots, and only they, are released |
| TxQueue.FirstFail | drivers/PF_RING_aware/broadcom/netxtreme2-7.0.36/bnx2x-1.70.36/src/bnx2x_cmn.c:3550-3578 | the fragment loop stops at the first fragment whose mapping fails; every earlier one is mapped |
| TxQueue.MappedFrags | drivers/PF_RING_aware/broadcom/netxtreme2-7.0.36/bnx2x-1.70.36/src/bnx2x_cmn.c:3550-3578 | the mapped fragments are a prefix; all of them are mapped exactly when every mapping succeeded |
| TxQueue.MappedFragsUnique | drivers/PF_RING_aware/broadcom/netxtreme2-7.0.36/bnx2x-1.70.36/src/bnx2x_cmn.c:3550-3578 | any mapped prefix that stops at a failure, or at the end, is MappedFrags |
| TxQueue.FragLoopStep | drivers/PF_RING_aware/broadcom/netxtreme2-7.0.36/bnx2x-1.70.36/src/bnx2x_cmn.c:3550-3595 | one pass of the fragment loop keeps its invariant: head BDs untouched, the fragments so far at their slots, the running packet size and the BD cursor, and no slot outside the BDs written so far changed |
| TxQueue.ChainWritten | drivers/PF_RING_aware/broadcom/netxtreme2-7.0.36/bnx2x-1.70.36/src/bnx2x_cmn.c:3407-3618 | a start BD, parse and split BDs and fragment BDs written as start_xmit writes them form the chain BuildChain describes |
| TxQueue.WriteFrags | drivers/PF_RING_aware/broadcom/netxtreme2-7.0.36/bnx2x-1.70.36/src/bnx2x_cmn.c:3550-3595 | the fragment loop succeeds exactly when every fragment maps; it records the mapped prefix, the packet size when complete, and writes only the fragment slots |
| TxQueue.LayChain | drivers/PF_RING_aware/broadcom/netxtreme2-7.0.36/bnx2x-1.70.36/src/bnx2x_cmn.c:3407-3595 | the ring holds BuildChain's chain for the mapped prefix at the BD producer and every slot outside that chain is as before; the last BD is the right slot; success exactly when every fragment mapped |
| TxQueue.SealChain | drivers/PF_RING_aware/broadcom/netxtreme2-7.0.36/bnx2x-1.70.36/src/bnx2x_cmn.c:3600-3618 | storing nbd and total_pkt_bytes leaves the ring holding BuildChain's chain, with no slot outside it written |
| TxQueue.FreeWalk | drivers/PF_RING_aware/broadcom/netxtreme2-7.0.36/bnx2x-1.70.36/src/bnx2x_cmn.c:156-229 | the walk over the ring computes FreePlan: the unmaps (with the corrected start-BD length of the Findings row) and the new BD consumer |
| TxQueue.Admit | drivers/PF_RING_aware/broadcom/netxtreme2-7.0.36/bnx2x-1.70.36/src/bnx2x_cmn.c:3358-3394 | a packet goes on exactly when it needs no linearization, or linearizing succeeds, and the linear part maps; the packet sent is Effective's |
| TxQueue.TxData.FreeTxPkt | drivers/PF_RING_aware/broadcom/netxtreme2-7.0.36/bnx2x-1.70.36/src/bnx2x_cmn.c:156-229 | releases the slot's skb and the chain's mappings (FreeStep, with the corrected start-BD length of the Findings row) and returns FreePlan's BD consumer; producers and consumers stay |
| TxQueue.TxData.FreeUpTo | drivers/PF_RING_aware/broadcom/netxtreme2-7.0.36/bnx2x-1.70.36/src/bnx2x_cmn.c:247-259 | frees every packet from sw_cons up to hw_cons (Drain), and nothing else changes |
| TxQueue.TxData.TxInt | drivers/PF_RING_aware/broadcom/netxtreme2-7.0.36/bnx2x-1.70.36/src/bnx2x_cmn.c:231-312 | drains up to the hardware consumer, sets pkt_cons to it, and wakes the queue exactly when it was stopped, the device is open and MAX_SKB_FRAGS + 3 BDs are free |
| TxQueue.TxData.FreeTxSkbs | drivers/PF_RING_aware/broadcom/netxtreme2-7.0.36/bnx2x-1.70.36/src/bnx2x_cmn.c:1389-1408 | frees every packet from pkt_cons to pkt_prod, leaving the indices as they were |
| TxQueue.TxData.StartXmit | drivers/PF_RING_aware/broadcom/netxtreme2-7.0.36/bnx2x-1.70.36/src/bnx2x_cmn.c:3218-3683 | busy (queue stopped, nothing changed) exactly when fewer than nr_frags + 3 BDs are free; a failed linearization or head mapping drops and frees the packet with the rings untouched; otherwise Posted (with the corrected start-BD length of the Findings row): the ring holds, from the old bd_prod, the chain BuildChain describes (start BD with nbd = 2 + split + mapped fragments, parse BD, split BD, one data BD per mapped fragment) and every other slot is unchanged; a fragment mapping failure leaves the chain cut short there and unmaps and frees everything; success advances pkt_prod by one and bd_prod by the doorbell count and stops the queue when a largest packet no longer fits |
| TxQueue.TxData.PostPacket | drivers/PF_RING_aware/broadcom/netxtreme2-7.0.36/bnx2x-1.70.36/src/bnx2x_cmn.c:3377-3679 | from a mapped head: Posted (with the corrected start-BD length of the Findings row), including the chain written at the old bd_prod and the slots outside it unchanged |
| TxQueue.TxData.Finish | drivers/PF_RING_aware/broadcom/netxtreme2-7.0.36/bnx2x-1.70.36/src/bnx2x_cmn.c:3561-3679 | a failed chain is unwound and dropped, its mappings released (with the corrected start-BD length of the Findings row); a complete one is posted and the producers advanced |
| TxQueue.TxData.Lay | drivers/PF_RING_aware/broadcom/netxtreme2-7.0.36/bnx2x-1.70.36/src/bnx2x_cmn.c:3407-3595 | claims the packet slot, lays BuildChain's chain (every other descriptor slot unchanged) and records its mappings |
| TxQueue.TxData.Unwind | drivers/PF_RING_aware/broadcom/netxtreme2-7.0.36/bnx2x-1.70.36/src/bnx2x_cmn.c:3561-3578 | unmaps exactly the mappings made (with the corrected start-BD length of the Findings row), frees the skb, clears the slot's skb and leaves the producers |
| TxQueue.TxData.Advance | drivers/PF_RING_aware/broadcom/netxtreme2-7.0.36/bnx2x-1.70.36/src/bnx2x_cmn.c:3637-3679 | pkt_prod + 1, bd_prod past the chain by the doorbell count, and the queue stopped when fewer than MAX_SKB_FRAGS + 3 BDs are left |
| RxRing.HwCompCons | drivers/PF_RING_aware/broadcom/netxtreme2-7.0.36/bnx2x-1.70.36/src/bnx2x_cmn.c:756-758 | the hardware completion consumer is stepped past a next-page entry, and otherwise kept |
| RxRing.RcqStepCloser | drivers/PF_RING_aware/broadcom/netxtreme2-7.0.36/bnx2x-1.70.36/src/bnx2x_cmn.c:775 | NEXT_RCQ_IDX brings sw_comp_cons strictly closer to hw_comp_cons and never lands on a next-page entry: the loop ends (with lines 1053-1054) |
| SgeMask.ClearListedBits | drivers/PF_RING_aware/broadcom/netxtreme2-7.0.36/bnx2x-1.70.36/src/bnx2x_cmn.c:337-340 | after marking, a mask bit is set exactly when it was set before and no SGE of the list names it |
| SgeMask.LastMax | drivers/PF_RING_aware/broadcom/netxtreme2-7.0.36/bnx2x-1.70.36/src/bnx2x_cmn.c:314-321 | last_max_sge moves to idx exactly when idx is ahead of it (or equal), and never moves backwards |
| SgeMask.WalkLen | drivers/PF_RING_aware/broadcom/netxtreme2-7.0.36/bnx2x-1.70.36/src/bnx2x_cmn.c:359-365 | the refill walk covers between 0 and all mask words |
| SgeMask.ClearNextElems | drivers/PF_RING_aware/broadcom/netxtreme2-7.0.36/bnx2x-1.70.36/src/bnx2x_cmn.c:367-371 | the mask keeps every bit except the last two of each page, which are cleared |
| SgeMask.WalkPassesUsed | drivers/PF_RING_aware/broadcom/netxtreme2-7.0.36/bnx2x-1.70.36/src/bnx2x_cmn.c:359-365 | every word the walk refills was fully used and is not the bound; it stops at the bound, at a word still in use, or after the whole mask |
| SgeMask.SgeProdAdvance | drivers/PF_RING_aware/broadcom/netxtreme2-7.0.36/bnx2x-1.70.36/src/bnx2x_cmn.c:323-376 | no pages: nothing changes; otherwise last_max_sge never moves back, rx_sge_prod advances by 64 per refilled word, every refilled word was fully used, and the walk stopped at the bound or at a word still in use |
| Tpa.LroMss | drivers/PF_RING_aware/broadcom/netxtreme2-7.0.36/bnx2x-1.70.36/src/bnx2x_cmn.c:478-512 | the MSS estimate is len_on_bd less the header length (Ethernet, IPv4 or IPv6, TCP, 12 bytes for a timestamp), wrapping in 16 bits when len_on_bd is shorter |
| Tpa.LroMssOfFullFrame | drivers/PF_RING_aware/broadcom/netxtreme2-7.0.36/bnx2x-1.70.36/src/bnx2x_cmn.c:478-512 | for every flag combination and every first frame that holds its headers, the MSS is the frame less 54, 20 more for IPv6 and 12 more with timestamps; a full 1514-byte frame gives 1460 and 1448 over IPv4, 1440 and 1428 over IPv6 |
| Tpa.FillFragLengths | drivers/PF_RING_aware/broadcom/netxtreme2-7.0.36/bnx2x-1.70.36/src/bnx2x_cmn.c:526-591 | a successful fill attaches one fragment per SGE page, each 1 to 4096 bytes long, adding up to the aggregated length |
| Tpa.FillFragKeeps | drivers/PF_RING_aware/broadcom/netxtreme2-7.0.36/bnx2x-1.70.36/src/bnx2x_cmn.c:555-591 | page ring entries that no SGE of the aggregation names are untouched |
| Tpa.FillFragTakes | drivers/PF_RING_aware/broadcom/netxtreme2-7.0.36/bnx2x-1.70.36/src/bnx2x_cmn.c:555-591 | the k-th fragment is the old page at the k-th SGE, and its mapping is the one released |
| Tpa.FillFragPlaces | drivers/PF_RING_aware/broadcom/netxtreme2-7.0.36/bnx2x-1.70.36/src/bnx2x_cmn.c:562-571 | each SGE's ring entry holds the replacement page it was given |
| Tpa.Aggregated | drivers/PF_RING_aware/broadcom/netxtreme2-7.0.36/bnx2x-1.70.36/src/bnx2x_cmn.c:685-702 | delivering or freeing the aggregate leaves the bins, the buffer ring and the SGE bookkeeping as they were |
| Tpa.TpaStartTransition | drivers/PF_RING_aware/broadcom/netxtreme2-7.0.36/bnx2x-1.70.36/src/bnx2x_cmn.c:378-441 | a start moves the bin to START when the spare buffer maps: the consumer's buffer goes to the bin and the spare buffer to the producer slot; when mapping fails the consumer buffer is reused at the producer and the bin goes to ERROR; nothing else changes |
| Tpa.TpaStartIgnoresState | drivers/PF_RING_aware/broadcom/netxtreme2-7.0.36/bnx2x-1.70.36/src/bnx2x_cmn.c:390-392 | a start does the same whatever state the bin was in: a bin not in STOP is only reported |
| Tpa.TpaStopTransition | drivers/PF_RING_aware/broadcom/netxtreme2-7.0.36/bnx2x-1.70.36/src/bnx2x_cmn.c:596-723 | every stop leaves the bin in STOP, touches no other bin, the buffer ring or the SGEs, and hands on or frees at most one packet; an ERROR bin only drops; without a new skb the buffer is unmapped and kept; with one the new skb becomes the bin's buffer |
| Tpa.TpaStopDelivers | drivers/PF_RING_aware/broadcom/netxtreme2-7.0.36/bnx2x-1.70.36/src/bnx2x_cmn.c:514-594 | a packet the stop hands to the stack is the bin's skb, its linear length is len_on_bd, its fragments add up to pkt_len, one per SGE page, and it carries the LRO MSS exactly when pkt_len exceeds len_on_bd (with lines 631-697) |
| RxSpec.FastRxPaths | drivers/PF_RING_aware/broadcom/netxtreme2-7.0.36/bnx2x-1.70.36/src/bnx2x_cmn.c:869-943 | a regular CQE: an error packet reuses the buffer; the copy path reuses the buffer and delivers a copy when one was allocated; otherwise a new buffer replaces the old one, which is unmapped and delivered, or the buffer is reused when allocation or mapping fails; bins, pages and SGEs are untouched |
| RxSpec.RxWalk | drivers/PF_RING_aware/broadcom/netxtreme2-7.0.36/bnx2x-1.70.36/src/bnx2x_cmn.c:775-1058 | the walk's packet count and step count only grow, and it never stops on a next-page entry |
| RxSpec.RxWalkBudget | drivers/PF_RING_aware/broadcom/netxtreme2-7.0.36/bnx2x-1.70.36/src/bnx2x_cmn.c:775-1058 | the loop returns at most budget packets and stops either at the hardware consumer or with exactly budget packets |
| RxSpec.RxWalkSteps | drivers/PF_RING_aware/broadcom/netxtreme2-7.0.36/bnx2x-1.70.36/src/bnx2x_cmn.c:1045-1056 | the packets counted are at most the CQEs consumed, and the completion consumer advances by exactly the steps taken |
| RxSpec.IdxStepAfter | drivers/PF_RING_aware/broadcom/netxtreme2-7.0.36/bnx2x-1.70.36/src/bnx2x_cmn.c:1045-1054 | each pass keeps the relation between the index families and the steps and packets so far |
| RxQueue.FastPath.ReuseRxSkb | drivers/PF_RING_aware/broadcom/netxtreme2-7.0.36/bnx2x-1.70.36/src/bnx2x_cmn.c:916 | the buffer ring after bnx2x_reuse_rx_skb is Reused: the consumer's buffer is moved to the producer slot (with lines 941-943) |
| RxQueue.FastPath.TpaStart | drivers/PF_RING_aware/broadcom/netxtreme2-7.0.36/bnx2x-1.70.36/src/bnx2x_cmn.c:378-460 | the queue state after bnx2x_tpa_start is TpaStarted |
| RxQueue.FastPath.FillFragSkb | drivers/PF_RING_aware/broadcom/netxtreme2-7.0.36/bnx2x-1.70.36/src/bnx2x_cmn.c:514-594 | sets the MSS hint when there is aggregated data; an SGE list shorter than the pages is a failed fill; otherwise the page ring, the released mappings, the fragments and the outcome are FillFrag's |
| RxQueue.FastPath.TpaStop | drivers/PF_RING_aware/broadcom/netxtreme2-7.0.36/bnx2x-1.70.36/src/bnx2x_cmn.c:596-723 | the queue state after bnx2x_tpa_stop is TpaStopped |
| RxQueue.FastPath.ClearSgeMaskNextElems | drivers/PF_RING_aware/broadcom/netxtreme2-7.0.36/bnx2x-1.70.36/src/bnx2x_cmn.c:367-371 | the mask becomes ClearNextElems of the old mask |
| RxQueue.FastPath.MarkSges | drivers/PF_RING_aware/broadcom/netxtreme2-7.0.36/bnx2x-1.70.36/src/bnx2x_cmn.c:337-340 | the mask becomes ClearListed of the old mask |
| RxQueue.FastPath.RefillWords | drivers/PF_RING_aware/broadcom/netxtreme2-7.0.36/bnx2x-1.70.36/src/bnx2x_cmn.c:350-365 | the walk refills WalkLen words and delta is 64 per word |
| RxQueue.FastPath.UpdateSgeProd | drivers/PF_RING_aware/broadcom/netxtreme2-7.0.36/bnx2x-1.70.36/src/bnx2x_cmn.c:323-376 | the SGE bookkeeping after bnx2x_update_sge_prod is the function UpdateSgeProd of the old one |
| RxQueue.FastPath.RxPacket | drivers/PF_RING_aware/broadcom/netxtreme2-7.0.36/bnx2x-1.70.36/src/bnx2x_cmn.c:869-943 | the queue state after a regular CQE is FastRx |
| RxQueue.FastPath.HandleCqe | drivers/PF_RING_aware/broadcom/netxtreme2-7.0.36/bnx2x-1.70.36/src/bnx2x_cmn.c:789-1044 | the queue state after one CQE (slow path, TPA start, TPA stop or regular) is StateStep |
| RxQueue.FastPath.RxInt | drivers/PF_RING_aware/broadcom/netxtreme2-7.0.36/bnx2x-1.70.36/src/bnx2x_cmn.c:742-1073 | returns the walk's packet count, leaves sw_comp_cons where the walk stops, leaves the state RxFold gives and keeps the four index families in step |
| RxQueue.FastPath.SetIndices | drivers/PF_RING_aware/broadcom/netxtreme2-7.0.36/bnx2x-1.70.36/src/bnx2x_cmn.c:1060-1063 | the write-back stores the BD consumer, the firmware BD producer and the completion indices, and nothing else |
| Napi.TurnStep | drivers/PF_RING_aware/broadcom/netxtreme2-7.0.36/bnx2x-1.70.36/src/bnx2x_cmn.c:2783-2866 | one pass of the poll loop keeps the Tx consumers the status block reports and never leaves rx_comp_cons on a next-page entry |
| Napi.PollPlan | drivers/PF_RING_aware/broadcom/netxtreme2-7.0.36/bnx2x-1.70.36/src/bnx2x_cmn.c:2783-2869 | the poll ends within the passes the world offers, with one Tx consumer per queue |
| Napi.TurnWithinBudget | drivers/PF_RING_aware/broadcom/netxtreme2-7.0.36/bnx2x-1.70.36/src/bnx2x_cmn.c:2800-2806 | one pass never goes past the budget, and breaks for the budget exactly when the budget is used up |
| Napi.PollWithinBudget | drivers/PF_RING_aware/broadcom/netxtreme2-7.0.36/bnx2x-1.70.36/src/bnx2x_cmn.c:2766-2873 | bnx2x_poll's work never exceeds the budget, and it returns for the budget exactly when the work equals it |
| Napi.PollCompletesIdle | drivers/PF_RING_aware/broadcom/netxtreme2-7.0.36/bnx2x-1.70.36/src/bnx2x_cmn.c:2819-2864 | the poll completes only when neither Rx nor Tx work is left at both checks (at the first only, for FCoE) |
| Napi.TxTurn | drivers/PF_RING_aware/broadcom/netxtreme2-7.0.36/bnx2x-1.70.36/src/bnx2x_cmn.c:2795-2797 | each queue with work at the reading has every packet up to the hardware consumer freed (Drain), pkt_cons at that consumer, the producers and mapping log kept, and a stopped queue woken exactly when the device is open and a largest packet fits; a queue without work is untouched (AllTxServed) |
| Napi.HasTxWork | drivers/PF_RING_aware/broadcom/netxtreme2-7.0.36/bnx2x-1.70.36/src/bnx2x_cmn.c:2819 | Tx work is pending exactly when some queue's hardware consumer differs from its pkt_cons |
| Napi.FallOutTest | drivers/PF_RING_aware/broadcom/netxtreme2-7.0.36/bnx2x-1.70.36/src/bnx2x_cmn.c:2819-2864 | the idle checks give FallOut's answer, never a budget end |
| Napi.RxTurn | drivers/PF_RING_aware/broadcom/netxtreme2-7.0.36/bnx2x-1.70.36/src/bnx2x_cmn.c:2800-2806 | the Rx part of one pass does what TurnStep says; with Rx work the queue's state and indices are what bnx2x_rx_int leaves with the remaining budget (RxFold, IdxAfter), without it they are unchanged (RxServed) |
| Napi.PollTurn | drivers/PF_RING_aware/broadcom/netxtreme2-7.0.36/bnx2x-1.70.36/src/bnx2x_cmn.c:2793-2865 | one pass of the loop (Tx, Rx, the idle checks) does what TurnStep says, leaves every Tx queue as AllTxServed says and the Rx state as RxServed says |
| Napi.Poll | drivers/PF_RING_aware/broadcom/netxtreme2-7.0.36/bnx2x-1.70.36/src/bnx2x_cmn.c:2766-2873 | the work done, the way the poll ended, rx_comp_cons and the Tx consumers are PollPlan's |
| Config.MfSpeedLimit | drivers/PF_RING_aware/broadcom/netxtreme2-7.0.36/bnx2x-1.70.36/src/bnx2x_cmn.c:1130-1151 | a single function reports the line speed; switch-independent mode scales it by max_cfg percent; switch-dependent mode caps it at max_cfg * 100; the result never exceeds the line speed unless the percentage is above 100 |
| Config.ReportDedup | drivers/PF_RING_aware/broadcom/netxtreme2-7.0.36/bnx2x-1.70.36/src/bnx2x_cmn.c:1225-1231 | a report is made only when it differs from the last one and is not a second link-down; once made it is not repeated |
| Config.MaxMfCommand | drivers/PF_RING_aware/broadcom/netxtreme2-7.0.36/bnx2x-1.70.36/src/bnx2x_cmn.c:1460-1471 | a command is sent exactly when the value differs from the current max_cfg |
| Config.MaxMfCommandSets | drivers/PF_RING_aware/broadcom/netxtreme2-7.0.36/bnx2x-1.70.36/src/bnx2x_cmn.c:1460-1471 | the command keeps the low half of mf_config and carries the value in the high half, so the new max_cfg is the value |
| Config.EthQueuesFeedTable | drivers/PF_RING_aware/broadcom/netxtreme2-7.0.36/bnx2x-1.70.36/src/bnx2x_cmn.c:1885-1921 | with at least one CPU queue, bnx2x_set_num_queues leaves at least one Ethernet queue (the count FillIndTable requires), more than one only with regular RSS and never more than the CPU queues; every RSS table entry then names an Ethernet client, never a non-Ethernet queue |
| Config.SetRxBufSize | drivers/PF_RING_aware/broadcom/netxtreme2-7.0.36/bnx2x-1.70.36/src/bnx2x_cmn.c:1983-2006 | every queue's buffer size is RxBufSize of the MTU, and of the FCoE mini-jumbo MTU on the FCoE ring |
| Config.RxBufSizeFits | drivers/PF_RING_aware/broadcom/netxtreme2-7.0.36/bnx2x-1.70.36/src/bnx2x_cmn.c:1983-2006 | for every accepted MTU, the buffer space after alignment and padding holds the longest frame of the MTU (header, VLAN tag, payload, CRC) and no more than a jumbo frame's overhead allows; the size grows with the MTU; the FCoE ring holds every frame up to the mini-jumbo MTU and is the larger buffer exactly when the MTU is below it |
| Config.FillIndTable | drivers/PF_RING_aware/broadcom/netxtreme2-7.0.36/bnx2x-1.70.36/src/bnx2x_cmn.c:2008-2033 | the 128 entries are cl_id + i modulo the Ethernet queue count with RSS, and zero without |
| Config.IndTableRoundRobin | drivers/PF_RING_aware/broadcom/netxtreme2-7.0.36/bnx2x-1.70.36/src/bnx2x_cmn.c:2031-2033 | the entries repeat with the queue count and cover cl_id up to cl_id + count - 1 |
| Config.AllocFpMem | drivers/PF_RING_aware/broadcom/netxtreme2-7.0.36/bnx2x-1.70.36/src/bnx2x_cmn.c:4030-4094 | the load fails exactly when the leading queue or the FCoE queue cannot be allocated; otherwise the queues kept are the allocated prefix, ending at the first failure, and the FCoE queue moves next to them |
| Config.CurPhyIdx | drivers/PF_RING_aware/broadcom/netxtreme2-7.0.36/bnx2x-1.70.36/src/bnx2x_cmn.c:4160-4188 | the active PHY is the internal one, the first or the second external one; with at most one PHY it is the internal one |
| Config.LinkCfgIdxSwap | drivers/PF_RING_aware/broadcom/netxtreme2-7.0.36/bnx2x-1.70.36/src/bnx2x_cmn.c:4190-4205 | the link configuration index is 0 or 1; with PHY swapping it is the other index exactly when an external PHY is active |
| Config.MtuRange | drivers/PF_RING_aware/broadcom/netxtreme2-7.0.36/bnx2x-1.70.36/src/bnx2x_cmn.c:4245-4247 | a new MTU is accepted exactly when it is between 46 and 9600 |
| Config.FixFeaturesSound | drivers/PF_RING_aware/broadcom/netxtreme2-7.0.36/bnx2x-1.70.36/src/bnx2x_cmn.c:4290-4299 | fix_features only ever removes LRO, removes it exactly when Rx checksum is off or TPA is disabled, and is idempotent |
| Config.CoalesceEnable | drivers/PF_RING_aware/broadcom/netxtreme2-7.0.36/bnx2x-1.70.36/src/bnx2x_cmn.c:4567-4577 | the status block index is enabled exactly when coalescing is not disabled and the timeout is non-zero, other flags are kept, and the timeout is rounded down to BNX2X_BTR ticks |
| Lifecycle.ReleasesReversed | drivers/PF_RING_aware/broadcom/netxtreme2-7.0.36/bnx2x-1.70.36/src/bnx2x_cmn.c:2521-2551 | the unwind releases the acquired phases in exactly the reverse order |
| Lifecycle.NoMcpCodeFirst | drivers/PF_RING_aware/broadcom/netxtreme2-7.0.36/bnx2x-1.70.36/src/bnx2x_cmn.c:2291-2321 | without an MCP the first loader on the path gets COMMON, the first on the port PORT, every other FUNCTION; this function becomes PMF exactly when it is the first on its port |
| Lifecycle.LoadHandshake | drivers/PF_RING_aware/broadcom/netxtreme2-7.0.36/bnx2x-1.70.36/src/bnx2x_cmn.c:2273-2288 | with an MCP a load sends LOAD_REQ first, exactly one LOAD_DONE unless LOAD_REQ failed, and ends a late failure with UNLOAD_REQ_WOL_MCP and UNLOAD_DONE (with lines 2348-2404, 2539-2543) |
| Lifecycle.LoadUnloadFree | drivers/PF_RING_aware/broadcom/netxtreme2-7.0.36/bnx2x-1.70.36/src/bnx2x_cmn.c:2273-2288 | an early failure sends no unload command; without an MCP no LOAD_REQ and no unload command is sent (with lines 2539-2543) |
| Lifecycle.LoadAcquires | drivers/PF_RING_aware/broadcom/netxtreme2-7.0.36/bnx2x-1.70.36/src/bnx2x_cmn.c:2250-2477 | a load acquires memory, NAPI, the granted load, the IRQs and the timer scan in that order, stops at the first failure, and succeeds exactly when it acquired all five |
| Lifecycle.LoadUnwinds | drivers/PF_RING_aware/broadcom/netxtreme2-7.0.36/bnx2x-1.70.36/src/bnx2x_cmn.c:2521-2551 | a failed load releases exactly what it acquired, last acquired first |
| Lifecycle.FirstFailure | drivers/PF_RING_aware/broadcom/netxtreme2-7.0.36/bnx2x-1.70.36/src/bnx2x_cmn.c:2417-2422 | the queue setup loop stops at the first queue that fails, and every earlier queue succeeded |
| Lifecycle.UnwindTrail | drivers/PF_RING_aware/broadcom/netxtreme2-7.0.36/bnx2x-1.70.36/src/bnx2x_cmn.c:2521-2551 | falling through the load_error labels releases timer scan, IRQs, the granted load, NAPI and memory, each only when it was acquired |
| Lifecycle.ExitedTrail | drivers/PF_RING_aware/broadcom/netxtreme2-7.0.36/bnx2x-1.70.36/src/bnx2x_cmn.c:2521-2551 | LOAD_ERROR_EXIT with k phases held leaves their acquisition followed by their reverse release |
| Lifecycle.QueuesRc | drivers/PF_RING_aware/broadcom/netxtreme2-7.0.36/bnx2x-1.70.36/src/bnx2x_cmn.c:2417-2518 | from the queue setup on: the return code and the final state are LoadRc and LoadState; the phases stay held only when the device ends OPEN or DIAG |
| Lifecycle.QueuesTrail | drivers/PF_RING_aware/broadcom/netxtreme2-7.0.36/bnx2x-1.70.36/src/bnx2x_cmn.c:2417-2518 | from the queue setup on, the acquisitions and releases are the load's trail |
| Lifecycle.QueuesCmds | drivers/PF_RING_aware/broadcom/netxtreme2-7.0.36/bnx2x-1.70.36/src/bnx2x_cmn.c:2417-2518 | from the queue setup on, the MCP commands are the load's |
| Lifecycle.QueuesFlags | drivers/PF_RING_aware/broadcom/netxtreme2-7.0.36/bnx2x-1.70.36/src/bnx2x_cmn.c:2417-2518 | from the queue setup on: PMF is cleared on failure; Tx is started unless a step failed, stopped when the slow path never completed, and left as it was in diagnostic mode; a pending MAX_BW is consumed on success |
| Lifecycle.HardwareRc | drivers/PF_RING_aware/broadcom/netxtreme2-7.0.36/bnx2x-1.70.36/src/bnx2x_cmn.c:2348-2518 | from the hardware init on: return code, final state and held phases as above |
| Lifecycle.HardwareTrail | drivers/PF_RING_aware/broadcom/netxtreme2-7.0.36/bnx2x-1.70.36/src/bnx2x_cmn.c:2348-2518 | from the hardware init on, the acquisitions and releases are the load's trail |
| Lifecycle.HardwareCmds | drivers/PF_RING_aware/broadcom/netxtreme2-7.0.36/bnx2x-1.70.36/src/bnx2x_cmn.c:2348-2518 | from the hardware init on, the MCP commands are the load's |
| Lifecycle.HardwareFlags | drivers/PF_RING_aware/broadcom/netxtreme2-7.0.36/bnx2x-1.70.36/src/bnx2x_cmn.c:2348-2518 | from the hardware init on: PMF, Tx state and pending MAX_BW as above |
| Lifecycle.LoadedRc | drivers/PF_RING_aware/broadcom/netxtreme2-7.0.36/bnx2x-1.70.36/src/bnx2x_cmn.c:2198-2553 | bnx2x_nic_load returns LoadRc and leaves LoadState, keeps the phases only when it ends OPEN or DIAG, and resets the last link report |
| Lifecycle.LoadedTrail | drivers/PF_RING_aware/broadcom/netxtreme2-7.0.36/bnx2x-1.70.36/src/bnx2x_cmn.c:2198-2553 | bnx2x_nic_load's acquisitions and releases are LoadTrail |
| Lifecycle.RequestCmds | drivers/PF_RING_aware/broadcom/netxtreme2-7.0.36/bnx2x-1.70.36/src/bnx2x_cmn.c:2273-2553 | from the LOAD_REQ step on, the MCP commands are the load's |
| Lifecycle.LoadedCmds | drivers/PF_RING_aware/broadcom/netxtreme2-7.0.36/bnx2x-1.70.36/src/bnx2x_cmn.c:2198-2553 | bnx2x_nic_load's MCP commands are LoadFw |
| Lifecycle.ReloadOutcome | drivers/PF_RING_aware/broadcom/netxtreme2-7.0.36/bnx2x-1.70.36/src/bnx2x_cmn.c:4156-4157 | a reload returns LoadRc and ends in LoadState; its trail releases what the device held before logging the load, and its firmware log gains LoadFw with the device's pending MAX_BW |
| Lifecycle.LoadedFlags | drivers/PF_RING_aware/broadcom/netxtreme2-7.0.36/bnx2x-1.70.36/src/bnx2x_cmn.c:2198-2553 | PMF is the load code's role on success, cleared by a failure after the grant, and untouched before it; Tx and the pending MAX_BW as above |
| Lifecycle.Device.LoadRequest | drivers/PF_RING_aware/broadcom/netxtreme2-7.0.36/bnx2x-1.70.36/src/bnx2x_cmn.c:2273-2321 | with an MCP the load code is its answer; without one the path and port load counts go up by one and the code follows them; a granted load decides the PMF role |
| Lifecycle.Device.Unwind | drivers/PF_RING_aware/broadcom/netxtreme2-7.0.36/bnx2x-1.70.36/src/bnx2x_cmn.c:2521-2551 | the device state after the load_error labels is Unwound: every held phase released in reverse, the unload commands and the PMF reset when the load was granted |
| Lifecycle.Device.LoadErrorExit | drivers/PF_RING_aware/broadcom/netxtreme2-7.0.36/bnx2x-1.70.36/src/bnx2x_cmn.c:2258-2260 | LOAD_ERROR_EXIT: the ERROR state, then Unwind (with lines 2521-2551) |
| Lifecycle.Device.NicLoad | drivers/PF_RING_aware/broadcom/netxtreme2-7.0.36/bnx2x-1.70.36/src/bnx2x_cmn.c:2198-2553 | the device after bnx2x_nic_load is Loaded's; it returns LoadRc, ends in LoadState, records LoadTrail and sends LoadFw; without an MCP a load that gets its memory and queue count raises the path count and its port count by one |
| Lifecycle.Device.LoadSteps | drivers/PF_RING_aware/broadcom/netxtreme2-7.0.36/bnx2x-1.70.36/src/bnx2x_cmn.c:2213-2553 | the device after the load steps is Loaded's, with the same load count change |
| Lifecycle.Device.LoadGranted | drivers/PF_RING_aware/broadcom/netxtreme2-7.0.36/bnx2x-1.70.36/src/bnx2x_cmn.c:2273-2518 | from the LOAD_REQ step on the device is RequestLoaded's |
| Lifecycle.Device.LoadHardware | drivers/PF_RING_aware/broadcom/netxtreme2-7.0.36/bnx2x-1.70.36/src/bnx2x_cmn.c:2348-2518 | from the hardware init on the device is HardwareLoaded's |
| Lifecycle.Device.LoadPort | drivers/PF_RING_aware/broadcom/netxtreme2-7.0.36/bnx2x-1.70.36/src/bnx2x_cmn.c:2389-2518 | in OPENING_WAIT4_PORT the device is PortLoaded's |
| Lifecycle.Device.LoadQueues | drivers/PF_RING_aware/broadcom/netxtreme2-7.0.36/bnx2x-1.70.36/src/bnx2x_cmn.c:2417-2518 | from the queue setup on the device is QueuesLoaded's |
| Lifecycle.Device.StartFastPath | drivers/PF_RING_aware/broadcom/netxtreme2-7.0.36/bnx2x-1.70.36/src/bnx2x_cmn.c:2436-2518 | the pending MAX_BW, the Tx start per load mode and the slow-path wait give Started's device |
| Lifecycle.Device.SetupQueues | drivers/PF_RING_aware/broadcom/netxtreme2-7.0.36/bnx2x-1.70.36/src/bnx2x_cmn.c:2417-2422 | reports the first queue whose setup failed |
| Lifecycle.Device.ShutDownNic | drivers/PF_RING_aware/broadcom/netxtreme2-7.0.36/bnx2x-1.70.36/src/bnx2x_cmn.c:2597-2685 | unloading an open device stops Tx, clears PMF, releases every phase and ends CLOSED |
| Lifecycle.Device.NicUnload | drivers/PF_RING_aware/broadcom/netxtreme2-7.0.36/bnx2x-1.70.36/src/bnx2x_cmn.c:2556-2705 | a CLOSED or ERROR device returns -EINVAL, marks recovery done and gives up leadership, and is otherwise unchanged; any other device is shut down and the call returns 0; either way the device is Unloaded of the old one |
| Lifecycle.Device.LinkReport | drivers/PF_RING_aware/broadcom/netxtreme2-7.0.36/bnx2x-1.70.36/src/bnx2x_cmn.c:1214-1282 | with lines 1161-1197 (the report is filled by FillReport: down exactly when the link is down or the function is disabled, with the MF speed, duplex and pause directions): a new report is recorded and counted, and the carrier set off for a link down and on otherwise, exactly when it differs from the last and is not a second link-down; without one nothing changes; afterwards the same report would not be made again |
| Lifecycle.Device.ReloadIfRunning | drivers/PF_RING_aware/broadcom/netxtreme2-7.0.36/bnx2x-1.70.36/src/bnx2x_cmn.c:4149-4158 | a device that is not running returns 0 with its state, trail, firmware log, PMF role, recovery flags and load counts unchanged (Untouched); a running one is unloaded and loaded again as Reloaded says: the new device and code are Loaded of the unloaded device, recovery is marked done and leadership dropped only if it was CLOSED or ERROR, and without an MCP the path and port load counts rise by one |
| Lifecycle.Device.Reload | drivers/PF_RING_aware/broadcom/netxtreme2-7.0.36/bnx2x-1.70.36/src/bnx2x_cmn.c:4156-4157 | the unload and load of a running interface leave the device as Reloaded says: Loaded of Unloaded of the old device, with the recovery flags and load counts moved as nic_unload and nic_load move them |
| Lifecycle.Device.ChangeMtu | drivers/PF_RING_aware/broadcom/netxtreme2-7.0.36/bnx2x-1.70.36/src/bnx2x_cmn.c:4233-4287 | during recovery returns -EAGAIN and an MTU outside 46..9600 returns -EINVAL, both with the MTU and everything a reload could touch unchanged (Untouched); otherwise the MTU is set and a running device reloaded as Reloaded says, a stopped one left Untouched with 0 returned |
| Lifecycle.Device.SetFeatures | drivers/PF_RING_aware/broadcom/netxtreme2-7.0.36/bnx2x-1.70.36/src/bnx2x_cmn.c:4301-4336 | records LRO as TPA and loopback as the loopback mode; reloads a running device (as Reloaded says) exactly when one of them changed and recovery is done; otherwise returns 0 with the device, recovery flags and load counts unchanged (Untouched) |

## Left out

- DMA mapping is an outcome passed in (a mapping token or a failure). Bus addresses, IOMMU behaviour and the DMA direction are not modelled.
- Memory barriers, the doorbell and producer register writes (`DOORBELL`, `bnx2x_update_rx_prod`) and prefetches are left out. Their ordering matters only with concurrency, which the model does not have.
- Locks (`__netif_tx_lock`, the PHY lock, `netif_addr_lock_bh`) and all concurrency are left out. The model is single-threaded, so the re-check under the Tx lock in `bnx2x_tx_int` and the stop-then-recheck in `bnx2x_start_xmit` each read the same values as the check before them.
- IRQ, MSI-X and NAPI plumbing (`bnx2x_setup_irqs`, `napi_enable`, `napi_complete`, `bnx2x_ack_sb`) is left out. Load and unload treat them as phases that are acquired and released. The poll loop treats `napi_complete` as an outcome.
- PF_RING: the hook is a "claimed" flag per received packet. Its transparent modes and ring handling are outside this file.
- Delivery to the stack (`napi_gro_receive`, `netif_receive_skb`), VLAN acceleration, the Rx hash and `eth_type_trans` are left out. A delivered packet is recorded with its skb, lengths, fragments, MSS hint and VLAN tag.
- Checksum arithmetic (`bnx2x_csum_fix`, the pseudo-header checksums) is left out. The parse BD's checksum field is not modelled.
- The E2 parse BD's MAC-address fields (filled for IS_MF_SI and BCM_IOV builds, 3478-3493) and the E1x GSO parse-BD fields tcp_send_seq, tcp_flags and ip_id are not modelled; the model's parse BD carries only the fields its contracts speak about.
- Firmware, register and shared-memory I/O is left out: `bnx2x_fw_command` beyond the command sent and its answer, `bnx2x_init_hw`, `bnx2x_func_start`, timers and DCB. So is power management (`bnx2x_set_power_state`, suspend and resume).
- Prints, statistics counters and `BNX2X_ERR` reports are left out.
- The random RSS key is left out. Only the indirection table is modelled.
- Only upstream Linux is modelled, with BNX2X_NEW_NAPI and NETIF_F_TSO, and without BNX2X_STOP_ON_ERROR. The ESX, OOO, VF, NetQueue and SAFC variants are not modelled, so their `#ifdef` branches are absent.
- Ring geometry, `MAX_SKB_FRAGS` and `MAX_FETCH_BD` are defined in bnx2x.h, which is not part of this model. The geometry uses the 4 KiB-page values, and the last two are parameters (`Limits`).
- `bnx2x_tx_avail`, `bnx2x_reuse_rx_skb`, `bnx2x_alloc_rx_skb`, `bnx2x_alloc_rx_sge`, `bnx2x_clear_sge_mask_next_elems`, `bnx2x_has_tx_work` and `bnx2x_has_rx_work` are in bnx2x_cmn.h, which is not part of this model. They are modelled only as far as this file uses them.
- TxRing.TxAvail: its contract states only the empty-ring value, because the header file that defines `bnx2x_tx_avail` is not part of this model.
- `bnx2x_chip_cleanup`, `bnx2x_send_unload_req`, `bnx2x_dec_load_cnt` and the load-count decrement on unload are in bnx2x_main.c, which is not part of this model. Unload therefore leaves the load counts as they are.
- Lifecycle.Device.NicLoad: without an MCP, a load that fails after raising `load_count` does not lower it again, as the source is written (the unwind at 2521-2551 never touches it).
- Lifecycle.Device.NicLoad: an `init_hw`, `setup_irqs` or `func_start` failure sends LOAD_DONE even without an MCP, as the source is written (2351, 2358, 2393).
- TxOffload.PktReqLin: requires that an LSO packet's headers lie in its linear part. The stack guarantees this for GSO packets, but the source does not check it.
- Tpa.TpaStopped: the guard at 636-642 (placement offset plus len_on_bd larger than the buffer) is not modelled, because it sits inside `#ifdef BNX2X_STOP_ON_ERROR`, which the modelled build does not compile.
- Tpa.Aggregated: the page-count guard at 546-552 is not modelled, because it sits inside `#ifdef BNX2X_STOP_ON_ERROR`, which the modelled build does not compile. An SGL shorter than the page count is treated as a failed fill instead.
- Lifecycle.Device.SetFeatures: loopback is modelled as on (BMAC) or off. The model does not separate out other loopback modes, which the source also replaces with BMAC when loopback is requested.
- TxChain.FreeLaidOut: releases a split packet's linear part with the start BD's bytes plus the split BD's, the corrected length of the Findings row; the source (176-177) unmaps the start BD's bytes alone, which are hlen after `bnx2x_tx_split`.
- TxChain.FreeShapedChain: the same corrected start-BD length as FreePlan, not the header-only length the source unmaps for a split packet.
- TxQueue.FreeWalk: computes FreePlan, so it unmaps a split packet's linear part with the corrected length, not the source's header-only length.
- TxQueue.TxData.FreeTxPkt: logs the unmap of a split packet's linear part with the corrected length, not `BD_UNMAP_LEN` of the shortened start BD as the source does.
- TxQueue.TxData.Unwind: releases the dropped packet through FreeTxPkt, so it carries the same corrected length.
- TxQueue.TxData.Finish: its drop path goes through Unwind and carries the same corrected length.
- TxQueue.TxData.FreeUpTo: frees each packet through FreeTxPkt, so it carries the same corrected length; so do TxInt and FreeTxSkbs below.
- TxQueue.TxData.TxInt: drains through FreeUpTo and carries the same corrected length.
- TxQueue.TxData.FreeTxSkbs: drains through FreeUpTo and carries the same corrected length.
- TxQueue.TxData.StartXmit: requires SkbOk, which the driver takes from the stack without checking: the packet is shorter than 64 KiB, has at most MAX_SKB_FRAGS fragments and, for GSO, keeps its TCP headers in its linear part. Packets outside these bounds (and the 16-bit length truncation they would cause) are not modelled.
- TxQueue.TxData.StartXmit: on the fragment-failure drop path (3574-3576, through bnx2x_free_tx_pkt) the split start BD is unmapped with the corrected start-BD length of the Findings row, not with hlen as the source writes it.
- TxQueue.TxData.PostPacket: the same as for StartXmit: a fragment failure unmaps the split start BD with the corrected length, not hlen.
- TxQueue.Admit: requires the same SkbOk as StartXmit, for the same reason.
- Napi.Poll: the passes of the poll loop are a finite sequence of status-block readings. A poll that outlives the readings ends with `OutOfTurns`.
- Napi.Poll: states the work done, the end, rx_comp_cons and the Tx consumers over all passes, not the Rx ring and Tx queue contents composed across passes; those are stated one pass at a time by Napi.PollTurn.
- `bnx2x_set_real_num_queues`, `bnx2x_init_rss_pf`'s firmware update, `bnx2x_setup_tc`, `bnx2x_change_mac_addr`, the VLAN helpers, `bnx2x_tx_timeout` and the memory free paths are left out. Load sees them only as succeeding or failing.

## Findings

| source | as written | input that shows it | evidently intended | confidence | as-written member | corrected member |
|---|---|---|---|---|---|---|
| drivers/PF_RING_aware/broadcom/netxtreme2-7.0.36/bnx2x-1.70.36/src/bnx2x_cmn.c:173-182 | For a TSO packet whose header is split by `bnx2x_tx_split` (2894-2895 set the start BD's nbytes to hlen), `bnx2x_free_tx_pkt` unmaps the linear part with the start BD's nbytes alone | a GSO packet whose linear part is longer than its headers, e.g. 54 bytes of headers in a 200-byte linear part: the mapping covers 200 bytes but is unmapped with length 54 | the start BD's unmap covers the whole linear mapping, i.e. also the split BD's bytes | not executed | TxChain.SplitUnmapShortAsWritten | TxChain.FreeReleasesChain |
