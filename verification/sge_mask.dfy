/**
 * The scatter-gather ring's bitmap of outstanding entries (fp->sge_mask)
 * and the producer update of bnx2x_update_sge_prod, as functions on values.
 *
 * The bitmap has one bit per SGE entry, packed into sixteen 64-bit words.
 * A set bit is an entry still posted to the hardware; a completion clears
 * the bits of the entries it used.  The producer only moves over whole
 * words whose entries have all been used, and refills each such word.
 * Here an entry's bit is a `bool` and word w is entries 64*w .. 64*w+63.
 */
module SgeMask {
  import opened Base
  import opened RxRing

  const ELEM_SZ: int := 64
  const MASK_LEN: int := 16

  type Word = w: int | 0 <= w < 16

  /** The SGE bookkeeping of one fast-path queue. */
  datatype SgeRing = SgeRing(mask: seq<bool>, prod: U16, lastMax: U16)

  predicate WellFormed(mask: seq<bool>)
  {
    |mask| == NUM_RX_SGE
  }

  /** NEXT_SGE_MASK_ELEM: the next word, wrapping after the last. */
  function NextElem(i: Word): Word
  {
    (i + 1) % MASK_LEN
  }

  /** The word reached from `first` after n NEXT_SGE_MASK_ELEM steps. */
  function WordAfter(first: Word, n: nat): Word
  {
    (first + n) % MASK_LEN
  }

  /** A word that is zero in the driver: every one of its entries is used. */
  predicate WordUsed(mask: seq<bool>, w: Word)
    requires WellFormed(mask)
  {
    forall b :: ELEM_SZ * w <= b < ELEM_SZ * w + ELEM_SZ ==> !mask[b]
  }

  /** BIT_VEC64_CLEAR_BIT for the bits of the first n SGEs a completion lists. */
  function ClearListed(mask: seq<bool>, sgl: seq<U16>, n: nat): (r: seq<bool>)
    requires WellFormed(mask) && n <= |sgl|
    ensures WellFormed(r)
  {
    if n == 0 then mask else ClearListed(mask, sgl, n - 1)[RxSge(sgl[n - 1]) := false]
  }

  /**
   * After the marking loop an entry keeps its bit exactly when it had it and
   * no listed SGE names it.
   */
  lemma {:induction false} ClearListedBits(mask: seq<bool>, sgl: seq<U16>, n: nat, j: SgeSlot)
    requires WellFormed(mask) && n <= |sgl|
    ensures ClearListed(mask, sgl, n)[j] == (mask[j] && forall i :: 0 <= i < n ==> RxSge(sgl[i]) != j)
  {
    if n > 0 {
      ClearListedBits(mask, sgl, n - 1, j);
    }
  }

  /**
   * bnx2x_update_last_max_sge: remember idx as the highest SGE seen when it
   * is ahead of the current one in signed 16-bit index order.
   */
  function LastMax(lastMax: U16, idx: U16): (r: U16)
    ensures r == idx || r == lastMax
    ensures SubS16(r, lastMax) >= 0
    ensures r == idx <==> SubS16(idx, lastMax) > 0 || idx == lastMax
  {
    SubS16Ahead(idx, lastMax);
    if SubS16(idx, lastMax) > 0 then idx else lastMax
  }

  /** Whether word w is among the first k words of a walk from `first`. */
  predicate InWalk(first: Word, k: nat, w: Word)
  {
    (w - first) % MASK_LEN < k
  }

  /** The bitmap with the first k words of a walk from `first` set to all ones. */
  function Refilled(mask: seq<bool>, first: Word, k: nat): (r: seq<bool>)
    requires WellFormed(mask)
    ensures WellFormed(r)
  {
    seq(NUM_RX_SGE, j requires 0 <= j < NUM_RX_SGE => InWalk(first, k, j / ELEM_SZ) || mask[j])
  }

  /**
   * The number of words the producer loop of bnx2x_update_sge_prod refills
   * when started at word `first`, n words having been refilled: it stops on
   * reaching the word `bound` or a word with an entry still posted.  `bound`
   * may be 16, a word the loop never reaches; the loop still stops, because
   * after 16 words it is back at its first word, which it refilled.
   */
  function WalkLen(mask: seq<bool>, first: Word, bound: nat, n: nat): (k: nat)
    requires WellFormed(mask) && n <= MASK_LEN
    ensures n <= k <= MASK_LEN
    decreases MASK_LEN - n
  {
    if n == MASK_LEN || WordAfter(first, n) == bound || !WordUsed(mask, WordAfter(first, n)) then n
    else WalkLen(mask, first, bound, n + 1)
  }

  /**
   * bnx2x_clear_sge_mask_next_elems: the last two entries of each of the two
   * SGE pages are next-page links and are kept marked used.
   */
  function ClearNextElems(mask: seq<bool>): (r: seq<bool>)
    requires WellFormed(mask)
    ensures WellFormed(r)
    ensures forall j :: 0 <= j < NUM_RX_SGE ==>
      r[j] == (mask[j] && j % RX_SGE_CNT < RX_SGE_CNT - 2)
  {
    mask[511 := false][510 := false][1023 := false][1022 := false]
  }

  /** SGE_PAGE_ALIGN(len) >> SGE_PAGE_SHIFT: the 4 KiB pages len bytes span. */
  function SgePages(len: nat): nat
  {
    (len + 4095) / 4096
  }

  /** The word of the SGE ring a u16 index falls in. */
  function ElemOf(x: U16): Word
  {
    RxSge(x) / ELEM_SZ
  }

  /**
   * The word the producer loop stops before: one past the word of the
   * highest SGE seen, unless that is the producer's own word (a full ring).
   */
  function WalkBound(prod: U16, lastMax: U16): nat
  {
    if ElemOf(lastMax) + 1 != ElemOf(prod) then ElemOf(lastMax) + 1 else ElemOf(lastMax)
  }

  /** The number of SGE pages a completion used beyond its first buffer. */
  function SgeLen(pktLen: U16, lenOnBd: U16): nat
    requires lenOnBd <= pktLen
  {
    SgePages(pktLen - lenOnBd)
  }

  /** The bitmap after the completion's listed SGEs are marked used. */
  function Marked(s: SgeRing, pktLen: U16, lenOnBd: U16, sgl: seq<U16>): (m: seq<bool>)
    requires WellFormed(s.mask) && lenOnBd <= pktLen && SgeLen(pktLen, lenOnBd) <= |sgl|
    ensures WellFormed(m)
  {
    ClearListed(s.mask, sgl, SgeLen(pktLen, lenOnBd))
  }

  /** The highest SGE seen once the completion's last listed SGE is taken in. */
  function NewLastMax(s: SgeRing, pktLen: U16, lenOnBd: U16, sgl: seq<U16>): U16
    requires lenOnBd <= pktLen && 0 < SgeLen(pktLen, lenOnBd) <= |sgl|
  {
    LastMax(s.lastMax, sgl[SgeLen(pktLen, lenOnBd) - 1])
  }

  /** The number of words the producer loop refills for this completion. */
  function Refills(s: SgeRing, pktLen: U16, lenOnBd: U16, sgl: seq<U16>): (k: nat)
    requires WellFormed(s.mask) && lenOnBd <= pktLen && SgeLen(pktLen, lenOnBd) <= |sgl|
    ensures k <= MASK_LEN
  {
    if SgeLen(pktLen, lenOnBd) == 0 then 0
    else WalkLen(Marked(s, pktLen, lenOnBd, sgl), ElemOf(s.prod),
                 WalkBound(s.prod, NewLastMax(s, pktLen, lenOnBd, sgl)), 0)
  }

  /**
   * bnx2x_update_sge_prod for a completion whose data beyond the first
   * buffer is pktLen - lenOnBd bytes placed in the SGEs listed in sgl.
   */
  function UpdateSgeProd(s: SgeRing, pktLen: U16, lenOnBd: U16, sgl: seq<U16>): (r: SgeRing)
    requires WellFormed(s.mask) && lenOnBd <= pktLen && SgeLen(pktLen, lenOnBd) <= |sgl|
    ensures WellFormed(r.mask)
  {
    if SgeLen(pktLen, lenOnBd) == 0 then s
    else
      var m1 := Marked(s, pktLen, lenOnBd, sgl);
      var k := Refills(s, pktLen, lenOnBd, sgl);
      var lastMax := NewLastMax(s, pktLen, lenOnBd, sgl);
      if k > 0 then SgeRing(ClearNextElems(Refilled(m1, ElemOf(s.prod), k)), Wrap16(s.prod + ELEM_SZ * k), lastMax)
      else SgeRing(m1, s.prod, lastMax)
  }

  /**
   * The walk only passes over words that were entirely used and are not the
   * bound, and it ends on the bound, on a word with an entry still posted,
   * or after all 16 words.
   */
  lemma {:induction false} WalkPassesUsed(mask: seq<bool>, first: Word, bound: nat, n: nat)
    requires WellFormed(mask) && n <= MASK_LEN
    ensures var k := WalkLen(mask, first, bound, n);
      && (forall j :: n <= j < k ==> WordAfter(first, j) != bound && WordUsed(mask, WordAfter(first, j)))
      && (k == MASK_LEN || WordAfter(first, k) == bound || !WordUsed(mask, WordAfter(first, k)))
    decreases MASK_LEN - n
  {
    if !(n == MASK_LEN || WordAfter(first, n) == bound || !WordUsed(mask, WordAfter(first, n))) {
      WalkPassesUsed(mask, first, bound, n + 1);
    }
  }

  /** The i-th word of a walk is in it exactly when i < k. */
  lemma InWalkAfter(first: Word, k: nat, i: nat)
    requires k <= MASK_LEN && i < MASK_LEN
    ensures InWalk(first, k, WordAfter(first, i)) <==> i < k
  {
    var w := WordAfter(first, i);
    if first + i < MASK_LEN {
      assert w - first == i;
    } else {
      assert w - first == i - MASK_LEN;
    }
  }

  /**
   * What bnx2x_update_sge_prod promises.  A completion that used no SGE
   * changes nothing.  Otherwise the highest SGE seen only moves forward and
   * the producer moves forward by 64 entries for each word the loop
   * refilled; each of those words had every entry used once the listed
   * SGEs were marked, and the loop stopped at the bound, at a word with an
   * entry still posted, or after all 16 words.
   */
  lemma SgeProdAdvance(s: SgeRing, pktLen: U16, lenOnBd: U16, sgl: seq<U16>)
    requires WellFormed(s.mask) && lenOnBd <= pktLen && SgeLen(pktLen, lenOnBd) <= |sgl|
    ensures var r := UpdateSgeProd(s, pktLen, lenOnBd, sgl);
      var k := Refills(s, pktLen, lenOnBd, sgl);
      var m1 := Marked(s, pktLen, lenOnBd, sgl);
      && (SgeLen(pktLen, lenOnBd) == 0 ==> r == s && k == 0)
      && SubS16(r.lastMax, s.lastMax) >= 0
      && r.prod == Wrap16(s.prod + ELEM_SZ * k)
      && (forall i :: 0 <= i < k ==> WordUsed(m1, WordAfter(ElemOf(s.prod), i)))
      && (SgeLen(pktLen, lenOnBd) > 0 && k < MASK_LEN ==>
            var w := WordAfter(ElemOf(s.prod), k);
            w == WalkBound(s.prod, r.lastMax) || !WordUsed(m1, w))
  {
    if SgeLen(pktLen, lenOnBd) > 0 {
      WalkPassesUsed(Marked(s, pktLen, lenOnBd, sgl), ElemOf(s.prod),
                     WalkBound(s.prod, NewLastMax(s, pktLen, lenOnBd, sgl)), 0);
    }
    assert Wrap16(s.prod + ELEM_SZ * 0) == s.prod;
  }
}
