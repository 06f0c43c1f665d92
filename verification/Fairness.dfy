/** How often each segment comes up over all 2^32 words of entropy (internal/game/wheel.go). */
module Fairness {
  import opened Basics
  import opened Wheel

  /** How many of the words 0..n-1 draw segment `i` (0-based). */
  function Hits(t: seq<Seg>, i: nat, n: nat): nat {
    if n == 0 then 0
    else Hits(t, i, n - 1) + if Select(t, (n - 1) % WEIGHT_TOTAL) == Some(i) then 1 else 0
  }

  /** The multiplier a word draws; 0 stands for the fall-through that sound tables do not have. */
  function Drawn(t: seq<Seg>, word: nat): int {
    match Select(t, word % WEIGHT_TOTAL)
    case None => 0
    case Some(i) => t[i].multBP
  }

  /** The multipliers of the words 0..n-1 added up: the mean over all words, times their number. */
  function DrawnTotal(t: seq<Seg>, n: nat): int {
    if n == 0 then 0 else DrawnTotal(t, n - 1) + Drawn(t, n - 1)
  }

  function Clamp(x: int, lo: int, hi: int): int {
    if x < lo then lo else if x > hi then hi else x
  }

  /** Moving from n - 1 to n words counts one more exactly when residue n - 1 is in [b, b + w). */
  lemma CycleStep(n: nat, b: int, w: int)
    requires n > 0 && 0 <= b && 0 <= w && b + w <= WEIGHT_TOTAL
    ensures n / WEIGHT_TOTAL * w + Clamp(n % WEIGHT_TOTAL - b, 0, w) ==
            (n - 1) / WEIGHT_TOTAL * w + Clamp((n - 1) % WEIGHT_TOTAL - b, 0, w)
            + if b <= (n - 1) % WEIGHT_TOTAL < b + w then 1 else 0
  {
    var q, r := (n - 1) / WEIGHT_TOTAL, (n - 1) % WEIGHT_TOTAL;
    if r == WEIGHT_TOTAL - 1 {
      assert n == (q + 1) * WEIGHT_TOTAL;
      assert n / WEIGHT_TOTAL == q + 1 && n % WEIGHT_TOTAL == 0;
      assert (q + 1) * w == q * w + w;
    } else {
      assert n == q * WEIGHT_TOTAL + (r + 1);
      assert n / WEIGHT_TOTAL == q && n % WEIGHT_TOTAL == r + 1;
    }
  }

  /** The exact count: whole cycles of 10000 give the weight each, the last one its share. */
  lemma {:induction false} HitsExact(t: seq<Seg>, i: nat, n: nat)
    requires Sound(t) && i < |t|
    ensures Hits(t, i, n) == n / WEIGHT_TOTAL * t[i].weight + Clamp(n % WEIGHT_TOTAL - Before(t, i), 0, t[i].weight)
  {
    BeforeStep(t, i);
    BeforeGrows(t, 0, i);
    BeforeGrows(t, i + 1, |t|);
    assert t[..0] == [] && t[..|t|] == t;
    if n > 0 {
      HitsExact(t, i, n - 1);
      SelectIsOwner(t, (n - 1) % WEIGHT_TOTAL, i);
      CycleStep(n, Before(t, i), t[i].weight);
    }
  }

  /** Of the 10000 residues exactly `weight` select segment i. */
  lemma ResiduesSelecting(t: seq<Seg>, i: nat)
    requires Sound(t) && i < |t|
    ensures Hits(t, i, WEIGHT_TOTAL) == t[i].weight
  {
    HitsExact(t, i, WEIGHT_TOTAL);
    BeforeGrows(t, 0, i);
    assert t[..0] == [];
  }

  /** Of the 2^32 words, between 429496 and 429497 per unit of weight. */
  lemma WordsSelecting(t: seq<Seg>, i: nat)
    requires Sound(t) && i < |t|
    ensures 429496 * t[i].weight <= Hits(t, i, WORDS) <= 429497 * t[i].weight
    ensures Hits(t, i, WORDS) == 429496 * t[i].weight + Clamp(7296 - Before(t, i), 0, t[i].weight)
  {
    HitsExact(t, i, WORDS);
    assert WORDS == 429496 * WEIGHT_TOTAL + 7296;
  }

  /** Sum over the first k segments of multiplier x hits. */
  function PaidBySegment(t: seq<Seg>, n: nat, k: nat): int
    requires k <= |t|
  {
    if k == 0 then 0 else PaidBySegment(t, n, k - 1) + t[k - 1].multBP * Hits(t, k - 1, n)
  }

  /** One more word adds its own multiplier, to whichever segment it draws. */
  lemma {:induction false} PaidStep(t: seq<Seg>, n: nat, k: nat)
    requires k <= |t|
    ensures PaidBySegment(t, n + 1, k) - PaidBySegment(t, n, k) ==
            match Select(t, n % WEIGHT_TOTAL) case None => 0 case Some(i) => if i < k then t[i].multBP else 0
  {
    if k > 0 {
      PaidStep(t, n, k - 1);
      var m, h := t[k - 1].multBP, Hits(t, k - 1, n);
      if Select(t, n % WEIGHT_TOTAL) == Some(k - 1) {
        assert m * (h + 1) == m * h + m;
      }
    }
  }

  /** Adding up word by word or segment by segment is the same. */
  lemma {:induction false} TotalBySegment(t: seq<Seg>, n: nat)
    ensures DrawnTotal(t, n) == PaidBySegment(t, n, |t|)
  {
    if n == 0 {
      NothingPaid(t, |t|);
    } else {
      TotalBySegment(t, n - 1);
      PaidStep(t, n - 1, |t|);
    }
  }

  lemma {:induction false} NothingPaid(t: seq<Seg>, k: nat)
    requires k <= |t|
    ensures PaidBySegment(t, 0, k) == 0
  {
    if k > 0 {
      NothingPaid(t, k - 1);
    }
  }

  lemma {:induction false} PaidBounds(t: seq<Seg>, k: nat)
    requires Sound(t) && k <= |t|
    ensures 429496 * Weighted(t[..k]) <= PaidBySegment(t, WORDS, k) <= 429497 * Weighted(t[..k])
  {
    if k > 0 {
      PaidBounds(t, k - 1);
      WordsSelecting(t, k - 1);
      assert t[..k][..k - 1] == t[..k - 1];
      assert t[k - 1] in t;
      Scale(t[k - 1].multBP, t[k - 1].weight, Hits(t, k - 1, WORDS));
    }
  }

  lemma Scale(m: int, w: int, h: int)
    requires m >= 0 && 429496 * w <= h <= 429497 * w
    ensures 429496 * (m * w) <= m * h <= 429497 * (m * w)
  {
    MulMono(429496 * w, h, m);
    MulMono(h, 429497 * w, m);
    assert (429496 * w) * m == 429496 * (m * w);
    assert (429497 * w) * m == 429497 * (m * w);
  }

  /** The stated return to player: the mean multiplier over all words, DrawnTotal / 2^32, is within one
      part in 429496 of Weighted(t) / 10000. */
  lemma MeanIsStatedRTP(t: seq<Seg>)
    requires Sound(t)
    ensures 429496 * Weighted(t) <= DrawnTotal(t, WORDS) <= 429497 * Weighted(t)
    ensures -(Weighted(t) * WORDS) <= 429496 * (DrawnTotal(t, WORDS) * WEIGHT_TOTAL - Weighted(t) * WORDS)
            <= Weighted(t) * WORDS
  {
    TotalBySegment(t, WORDS);
    PaidBounds(t, |t|);
    assert t[..|t|] == t;
  }
}
