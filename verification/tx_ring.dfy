/**
 * Geometry of a transmit descriptor ring.
 *
 * The ring is NUM_TX_RINGS pages of TX_DESC_CNT descriptors; the last
 * descriptor of every page points at the next page and never carries a
 * packet.  Producer and consumer indices are free-running u16 counters; a
 * ring slot is the index masked by TX_BD.  The sizes are those of bnx2x.h for
 * 4 KiB pages (bnx2x.h is not part of this model).
 */
module TxRing {
  import opened Base

  const TX_DESC_CNT: int := 256
  const MAX_TX_DESC_CNT: int := 255
  const NUM_TX_RINGS: int := 16
  const NUM_TX_BD: int := 4096

  type TxSlot = s: int | 0 <= s < 4096

  /** TX_BD: the ring slot of a free-running index. */
  function TxBd(x: int): (s: TxSlot)
    ensures 0 <= x < NUM_TX_BD ==> s == x
  {
    x % NUM_TX_BD
  }

  /** TX_BD_POFF: the offset of an index within its page. */
  function TxBdPoff(x: int): (o: int)
    ensures 0 <= o < TX_DESC_CNT
  {
    x % TX_DESC_CNT
  }

  /** A slot holding a next-page link rather than a packet descriptor. */
  predicate IsNextPageSlot(x: int)
  {
    x % TX_DESC_CNT == MAX_TX_DESC_CNT
  }

  /** NEXT_TX_IDX: the following index, stepping over the next-page descriptor. */
  function NextTxIdx(x: int): (y: int)
    ensures !IsNextPageSlot(x) ==> !IsNextPageSlot(y)
    ensures y == x + 1 || y == x + 2
  {
    if x % TX_DESC_CNT == MAX_TX_DESC_CNT - 1 then x + 2 else x + 1
  }

  /** TX_BD(NEXT_TX_IDX(s)): the slot following ring slot s. */
  function NextSlot(s: TxSlot): TxSlot
  {
    TxBd(NextTxIdx(s))
  }

  /** The slot reached from s after j calls of NextSlot. */
  function Adv(s: TxSlot, j: nat): TxSlot
  {
    if j == 0 then s else NextSlot(Adv(s, j - 1))
  }

  /** The unmasked index reached from s after j calls of NEXT_TX_IDX. */
  function Pos(s: int, j: nat): int
  {
    if j == 0 then s else NextTxIdx(Pos(s, j - 1))
  }

  lemma PosBounds(s: int, i: nat, j: nat)
    requires i <= j
    ensures j - i <= Pos(s, j) - Pos(s, i) <= 2 * (j - i)
    decreases j
  {
    if i < j {
      PosBounds(s, i, j - 1);
    }
  }

  /** Masking at every step gives the same slot as masking once at the end. */
  lemma {:induction false} AdvIsPosMasked(s: TxSlot, j: nat)
    ensures Adv(s, j) == TxBd(Pos(s, j))
  {
    if j > 0 {
      AdvIsPosMasked(s, j - 1);
      var p := Pos(s, j - 1);
      PosBounds(s, 0, j - 1);
      MaskedStep(p);
    }
  }

  lemma MaskedStep(p: int)
    requires 0 <= p
    ensures TxBd(NextTxIdx(TxBd(p))) == TxBd(NextTxIdx(p))
  {
    var q := p / NUM_TX_BD;
    var r := p % NUM_TX_BD;
    ModOf256(p, 16 * q + r / TX_DESC_CNT, r % TX_DESC_CNT);
    var k := NextTxIdx(p) - p;
    assert NextTxIdx(r) == r + k;
    ModOf4096(p + k, q + (r + k) / NUM_TX_BD, (r + k) % NUM_TX_BD);
  }

  lemma ModOf4096(x: int, q: int, r: int)
    requires 0 <= r < NUM_TX_BD && x == NUM_TX_BD * q + r
    ensures x % NUM_TX_BD == r
  {
  }

  lemma ModOf256(x: int, q: int, r: int)
    requires 0 <= r < TX_DESC_CNT && x == TX_DESC_CNT * q + r
    ensures x % TX_DESC_CNT == r
  {
  }

  /**
   * Slots visited by one walk of fewer than 2048 steps are pairwise distinct,
   * so writing a chain of descriptors never overwrites an earlier one.
   */
  lemma {:induction false} AdvDistinct(s: TxSlot, i: nat, j: nat)
    requires i < j < 2048
    ensures Adv(s, i) != Adv(s, j)
  {
    AdvIsPosMasked(s, i);
    AdvIsPosMasked(s, j);
    PosBounds(s, i, j);
    PosBounds(s, 0, i);
    var d := Pos(s, j) - Pos(s, i);
    var a := Pos(s, i) / NUM_TX_BD;
    var r := Pos(s, i) % NUM_TX_BD;
    if r + d < NUM_TX_BD {
      ModOf4096(Pos(s, j), a, r + d);
    } else {
      ModOf4096(Pos(s, j), a + 1, r + d - NUM_TX_BD);
    }
  }

  /**
   * Walking n < 255 steps from an index that is not a next-page slot crosses
   * at most one next-page descriptor, and TX_BD_POFF of the end index is below
   * n exactly when it did: that is the test start_xmit uses to count the
   * skipped descriptor in the doorbell.
   */
  lemma {:induction false} PageCrossing(s: int, n: nat)
    requires 0 <= s && !IsNextPageSlot(s) && n < MAX_TX_DESC_CNT
    ensures Pos(s, n) - s == n + (if TxBdPoff(Pos(s, n)) < n then 1 else 0)
    ensures !IsNextPageSlot(Pos(s, n))
  {
    PosWithinPages(s, n);
    var q := s / TX_DESC_CNT;
    var r := s % TX_DESC_CNT;
    if r + n < MAX_TX_DESC_CNT {
      ModOf256(s + n, q, r + n);
    } else {
      ModOf256(s + n + 1, q + 1, r + n + 1 - TX_DESC_CNT);
    }
  }

  lemma {:induction false} PosWithinPages(s: int, n: nat)
    requires 0 <= s && !IsNextPageSlot(s)
    ensures s % TX_DESC_CNT + n < MAX_TX_DESC_CNT ==> Pos(s, n) == s + n
    ensures MAX_TX_DESC_CNT <= s % TX_DESC_CNT + n < 2 * MAX_TX_DESC_CNT ==> Pos(s, n) == s + n + 1
    ensures !IsNextPageSlot(Pos(s, n))
  {
    if n > 0 {
      PosWithinPages(s, n - 1);
    }
  }

  /**
   * The doorbell count of a chain of n BDs whose last BD is followed by slot
   * `after`: n, plus one when the chain ran over a next-page descriptor.
   */
  function DoorbellNbd(after: TxSlot, n: nat): nat
  {
    n + (if TxBdPoff(after) < n then 1 else 0)
  }

  /**
   * Advancing the free-running producer by the doorbell count of a chain of
   * n < 255 BDs lands on the slot right after the chain, and never on a
   * next-page slot: the next packet starts where this one ended.
   */
  lemma {:induction false} ProducerAfterChain(prod: U16, n: nat)
    requires !IsNextPageSlot(prod) && n < MAX_TX_DESC_CNT
    ensures var b0 := TxBd(prod);
      var p := Wrap16(prod + DoorbellNbd(Adv(b0, n), n));
      TxBd(p) == Adv(b0, n) && !IsNextPageSlot(p) && DoorbellNbd(Adv(b0, n), n) == Pos(b0, n) - b0
  {
    var b0 := TxBd(prod);
    var q := prod / NUM_TX_BD;
    ModOf4096(prod, q, b0);
    ModOf256(prod, 16 * q + b0 / TX_DESC_CNT, b0 % TX_DESC_CNT);
    ModOf256(b0, b0 / TX_DESC_CNT, b0 % TX_DESC_CNT);
    assert !IsNextPageSlot(b0);
    PageCrossing(b0, n);
    PosBounds(b0, 0, n);
    AdvIsPosMasked(b0, n);
    var e := Pos(b0, n);
    var eq := e / NUM_TX_BD;
    ModOf256(e, 16 * eq + (e % NUM_TX_BD) / TX_DESC_CNT, (e % NUM_TX_BD) % TX_DESC_CNT);
    assert TxBdPoff(Adv(b0, n)) == TxBdPoff(e);
    var d := e - b0;
    var y := prod + d;
    assert y == NUM_TX_BD * q + e;
    ModOf4096(y, q + eq, e % NUM_TX_BD);
    var p := Wrap16(y);
    var yq := y / U16_MOD;
    assert y == U16_MOD * yq + p;
    ModOf4096(y, 16 * yq + p / NUM_TX_BD, p % NUM_TX_BD);
    ModOf256(y, 256 * yq + p / TX_DESC_CNT, p % TX_DESC_CNT);
    ModOf256(y, 16 * (q + eq) + (e % NUM_TX_BD) / TX_DESC_CNT, (e % NUM_TX_BD) % TX_DESC_CNT);
  }

  /**
   * The producer index after posting a chain of n BDs from index prod: the
   * doorbell count is added to it, so it lands on the slot right after the
   * chain.
   */
  function ProdAfter(prod: U16, n: nat): (r: U16)
    requires !IsNextPageSlot(prod) && n < MAX_TX_DESC_CNT
    ensures TxBd(r) == Adv(TxBd(prod), n) && !IsNextPageSlot(r)
  {
    ProducerAfterChain(prod, n);
    Wrap16(prod + DoorbellNbd(Adv(TxBd(prod), n), n))
  }

  /**
   * bnx2x_tx_avail (bnx2x_cmn.h, not part of this model): the ring size less
   * the descriptors in flight and the next-page descriptors.
   */
  function TxAvail(prod: U16, cons: U16, ringSize: int): (a: int)
    ensures prod == cons ==> a == ringSize - NUM_TX_RINGS
  {
    ringSize - (SubS16(prod, cons) + NUM_TX_RINGS)
  }
}
