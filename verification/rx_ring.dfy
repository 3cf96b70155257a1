/**
 * Geometry of the receive rings of one fast-path queue: the Rx BD ring, the
 * receive completion queue (RCQ) and the scatter-gather (SGE) ring.
 *
 * Every ring is a chain of 4 KiB pages whose last entries point at the next
 * page.  An Rx BD page holds 512 entries of which the last two are the
 * next-page link; an RCQ page holds 128 entries of which the last one is;
 * an SGE page holds 512 entries of which the last two are.  The sizes and
 * the NEXT_*_IDX / *_BD macros are those of bnx2x.h (bnx2x.h is not part of
 * this model).
 */
module RxRing {
  import opened Base

  const RX_DESC_CNT: int := 512
  const MAX_RX_DESC_CNT: int := 510
  const NUM_RX_BD: int := 4096

  const RCQ_DESC_CNT: int := 128
  const MAX_RCQ_DESC_CNT: int := 127
  const NUM_RCQ_BD: int := 2048

  const RX_SGE_CNT: int := 512
  const NUM_RX_SGE: int := 1024

  type RxSlot = s: int | 0 <= s < 4096
  type RcqSlot = s: int | 0 <= s < 2048
  type SgeSlot = s: int | 0 <= s < 1024

  /** RX_BD: the Rx ring slot of an index. */
  function RxBd(x: U16): RxSlot
  {
    x % NUM_RX_BD
  }

  /** NEXT_RX_IDX: the next index, stepping over the two next-page entries. */
  function NextRxIdx(x: int): int
  {
    if x % RX_DESC_CNT == MAX_RX_DESC_CNT - 1 then x + 3 else x + 1
  }

  /** An Rx index whose slot holds part of a next-page link. */
  predicate IsRxNextPage(x: int)
  {
    x % RX_DESC_CNT >= MAX_RX_DESC_CNT
  }

  /** RCQ_BD: the completion ring slot of an index. */
  function RcqBd(x: U16): RcqSlot
  {
    x % NUM_RCQ_BD
  }

  /** An RCQ index whose slot holds the next-page link. */
  predicate IsRcqNextPage(x: int)
  {
    x % RCQ_DESC_CNT == MAX_RCQ_DESC_CNT
  }

  /** NEXT_RCQ_IDX, stored back into a u16 completion index. */
  function NextRcqIdx(x: U16): U16
  {
    Wrap16(if x % RCQ_DESC_CNT == MAX_RCQ_DESC_CNT - 1 then x + 2 else x + 1)
  }

  /**
   * The hardware completion consumer as bnx2x_rx_int reads it: a value on
   * the next-page entry of an RCQ page is moved one on, since software never
   * stops there.
   */
  function HwCompCons(raw: U16): (h: U16)
    ensures !IsRcqNextPage(h)
    ensures !IsRcqNextPage(raw) ==> h == raw
    ensures IsRcqNextPage(raw) ==> h == Wrap16(raw + 1)
  {
    if raw % RCQ_DESC_CNT == MAX_RCQ_DESC_CNT then ModOfSucc(raw); Wrap16(raw + 1) else raw
  }

  lemma ModOfSucc(raw: U16)
    requires raw % RCQ_DESC_CNT == MAX_RCQ_DESC_CNT
    ensures Wrap16(raw + 1) % RCQ_DESC_CNT == 0
  {
    var q := raw / RCQ_DESC_CNT;
    assert raw + 1 == RCQ_DESC_CNT * (q + 1);
    if raw + 1 == U16_MOD {
      assert Wrap16(raw + 1) == 0;
    }
  }

  /** How many u16 steps the software completion consumer is behind hw. */
  function RcqDist(sw: U16, hw: U16): nat
  {
    (hw - sw) % U16_MOD
  }

  /**
   * One NEXT_RCQ_IDX step from a consumer that is not yet at the hardware
   * consumer brings it strictly closer, and never onto a next-page entry:
   * the two-step jump only ever passes over a next-page entry, which the
   * hardware consumer (as read) never is.
   */
  lemma {:induction false} RcqStepCloser(sw: U16, hw: U16)
    requires sw != hw && !IsRcqNextPage(sw) && !IsRcqNextPage(hw)
    ensures RcqDist(NextRcqIdx(sw), hw) < RcqDist(sw, hw)
    ensures !IsRcqNextPage(NextRcqIdx(sw))
  {
    var r := sw % RCQ_DESC_CNT;
    if r == MAX_RCQ_DESC_CNT - 1 {
      // the jump passes over sw + 1, a next-page entry, which hw is not
      Wrap16Page(sw + 1);
      DistAtLeastTwo(sw, hw);
      DistAfter(sw, hw, 2);
      Wrap16Page(sw + 2);
    } else {
      DistAfter(sw, hw, 1);
      Wrap16Page(sw + 1);
    }
  }

  lemma DistAtLeastTwo(sw: U16, hw: U16)
    requires sw != hw && hw != Wrap16(sw + 1)
    ensures RcqDist(sw, hw) >= 2
  {
  }

  lemma DistAfter(sw: U16, hw: U16, k: nat)
    requires 1 <= k <= RcqDist(sw, hw)
    ensures RcqDist(Wrap16(sw + k), hw) == RcqDist(sw, hw) - k
  {
  }

  /** Wrapping at 2^16 keeps the offset within a 128-entry page. */
  lemma Wrap16Page(x: int)
    requires 0 <= x
    ensures Wrap16(x) % RCQ_DESC_CNT == x % RCQ_DESC_CNT
  {
    var q := x / U16_MOD;
    var r := x % U16_MOD;
    assert x == U16_MOD * q + r;
    assert x == RCQ_DESC_CNT * (512 * q + r / RCQ_DESC_CNT) + r % RCQ_DESC_CNT;
  }

  /** The completion index after n NEXT_RCQ_IDX steps. */
  function NextRcqN(x: U16, n: nat): U16
  {
    if n == 0 then x else NextRcqIdx(NextRcqN(x, n - 1))
  }

  /**
   * bd_prod in bnx2x_rx_int is masked by RX_BD at the top of every turn,
   * while bd_prod_fw runs free in a u16; both take NEXT_RX_IDX together, so
   * the masked one always names the slot of the free-running one.
   */
  lemma RxMaskedStep(fw: U16)
    ensures RxBd(Wrap16(NextRxIdx(fw))) == RxBd(NextRxIdx(RxBd(fw)) % U16_MOD)
  {
    var r := fw % NUM_RX_BD;
    RxPage(fw);
    var k := NextRxIdx(fw) - fw;
    assert NextRxIdx(r) == r + k;
    Wrap16Rx(fw + k);
    RxShift(fw, k);
  }

  /** An Rx ring slot lies at the same offset within its page as its index. */
  lemma RxPage(x: nat)
    ensures (x % NUM_RX_BD) % RX_DESC_CNT == x % RX_DESC_CNT
  {
    var q := x / NUM_RX_BD;
    var r := x % NUM_RX_BD;
    assert x == RX_DESC_CNT * (8 * q + r / RX_DESC_CNT) + r % RX_DESC_CNT;
  }

  /** Wrapping at 2^16 keeps the Rx ring slot. */
  lemma Wrap16Rx(y: nat)
    ensures Wrap16(y) % NUM_RX_BD == y % NUM_RX_BD
  {
    var yq := y / U16_MOD;
    var w := Wrap16(y);
    assert y == NUM_RX_BD * (16 * yq + w / NUM_RX_BD) + w % NUM_RX_BD;
    ModOfRx(y, 16 * yq + w / NUM_RX_BD, w % NUM_RX_BD);
  }

  /** Adding k to an index adds k to its slot, modulo the ring. */
  lemma RxShift(x: nat, k: nat)
    requires x % NUM_RX_BD + k < U16_MOD
    ensures (x + k) % NUM_RX_BD == ((x % NUM_RX_BD + k) % U16_MOD) % NUM_RX_BD
  {
    var q := x / NUM_RX_BD;
    var r := x % NUM_RX_BD;
    ModOfRx(x + k, q + (r + k) / NUM_RX_BD, (r + k) % NUM_RX_BD);
  }

  lemma ModOfRx(x: int, q: int, r: int)
    requires 0 <= r < NUM_RX_BD && x == NUM_RX_BD * q + r
    ensures x % NUM_RX_BD == r
  {
  }

  /** RX_SGE: the SGE ring slot of an index. */
  function RxSge(x: U16): SgeSlot
  {
    x % NUM_RX_SGE
  }
}
