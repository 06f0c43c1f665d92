/** The wheel tables and the draw (internal/game/wheel.go). */
module Wheel {
  import opened Basics

  const WEIGHT_TOTAL: int := 10000
  const WORDS: int := 0x1_0000_0000   // the number of uint32 values

  datatype Seg = Seg(multBP: Int64, weight: Int64)

  /** A `[12]Seg`. */
  type Table = t: seq<Seg> | |t| == 12
    witness [Seg(0, 1569), Seg(10000, 1000), Seg(20000, 600), Seg(0, 1569), Seg(50000, 400), Seg(10000, 1000),
             Seg(0, 1569), Seg(100000, 100), Seg(20000, 600), Seg(0, 1570), Seg(500000, 20), Seg(2000000, 3)]

  const WHEEL: Table :=
    [Seg(0, 1569), Seg(10000, 1000), Seg(20000, 600), Seg(0, 1569), Seg(50000, 400), Seg(10000, 1000),
     Seg(0, 1569), Seg(100000, 100), Seg(20000, 600), Seg(0, 1570), Seg(500000, 20), Seg(2000000, 3)]

  const DEMO_WHEEL: Table :=
    [Seg(0, 1463), Seg(10000, 1150), Seg(20000, 650), Seg(0, 1462), Seg(50000, 420), Seg(10000, 1150),
     Seg(0, 1463), Seg(100000, 105), Seg(20000, 650), Seg(0, 1463), Seg(500000, 21), Seg(2000000, 3)]

  /******* What the loops over a table compute *******/

  function WeightSum(t: seq<Seg>): int {
    if t == [] then 0 else WeightSum(t[..|t| - 1]) + t[|t| - 1].weight
  }

  /** Sum of multiplier x weight. */
  function Weighted(t: seq<Seg>): int {
    if t == [] then 0 else Weighted(t[..|t| - 1]) + t[|t| - 1].multBP * t[|t| - 1].weight
  }

  /** What a segment adds to that sum. */
  function Worth(s: Seg): int {
    s.multBP * s.weight
  }

  /** The largest multiplier, never below the loop's starting value 0. */
  function MaxMult(t: seq<Seg>): (m: int)
    ensures m >= 0
    ensures forall i | 0 <= i < |t| :: t[i].multBP <= m
    ensures m == 0 || exists i | 0 <= i < |t| :: t[i].multBP == m
  {
    if t == [] then 0 else
      var m := MaxMult(t[..|t| - 1]);
      if t[|t| - 1].multBP > m then t[|t| - 1].multBP else m
  }

  method MaxMultBP(t: Table) returns (m: int)
    ensures m == MaxMult(t)
  {
    m := 0;
    for i := 0 to |t|
      invariant m == MaxMult(t[..i])
    {
      assert t[..i + 1][..i] == t[..i];
      if t[i].multBP > m {
        m := t[i].multBP;
      }
    }
    assert t[..|t|] == t;
  }

  /** The int64 accumulator may wrap on the way; what is left is the wrapped sum. */
  method RTPBP(t: Table) returns (rtp: int)
    ensures rtp == TruncDiv(Wrap64(Weighted(t)), WEIGHT_TOTAL)
  {
    var weighted := 0;
    for i := 0 to |t|
      invariant weighted == Wrap64(Weighted(t[..i]))
    {
      assert t[..i + 1][..i] == t[..i];
      WrapAdd(Weighted(t[..i]), t[i].multBP * t[i].weight);
      weighted := Wrap64(weighted + Wrap64(t[i].multBP * t[i].weight));
    }
    assert t[..|t|] == t;
    rtp := TruncDiv(weighted, WEIGHT_TOTAL);
  }

  datatype Segment = Segment(index: int, multBP: int, weightBP: int)

  /** The wheel as the client is shown it, counted from 1. */
  method Segments(t: Table) returns (out: seq<Segment>)
    ensures |out| == 12 && forall i | 0 <= i < 12 :: out[i] == Segment(i + 1, t[i].multBP, t[i].weight)
  {
    out := [];
    for i := 0 to |t|
      invariant |out| == i && forall j | 0 <= j < i :: out[j] == Segment(j + 1, t[j].multBP, t[j].weight)
    {
      out := out + [Segment(i + 1, t[i].multBP, t[i].weight)];
    }
  }

  /******* Validation *******/

  /** Every segment reachable, no multiplier negative, weights summing to 10000. */
  predicate Sound(t: seq<Seg>) {
    && (forall s | s in t :: s.weight > 0 && s.multBP >= 0)
    && WeightSum(t) == WEIGHT_TOTAL
  }

  predicate ValidTable(t: seq<Seg>, rtp: int) {
    Sound(t) && TruncDiv(Weighted(t), WEIGHT_TOTAL) == rtp
  }

  /** What validateTable sees: the same, but with its sums wrapped to int64. */
  predicate Accepted(t: seq<Seg>, rtp: int) {
    && (forall s | s in t :: s.weight > 0 && s.multBP >= 0)
    && Wrap64(WeightSum(t)) == WEIGHT_TOTAL && TruncDiv(Wrap64(Weighted(t)), WEIGHT_TOTAL) == rtp
  }

  predicate SameMultipliers(a: Table, b: Table) {
    forall i | 0 <= i < 12 :: a[i].multBP == b[i].multBP
  }

  datatype TableError =
    | BadWeight(index: nat)
    | BadMultiplier(index: nat)
    | BadSum(total: int)
    | BadRTP(got: int)

  method ValidateTable(t: Table, wantRTP: int) returns (err: Option<TableError>)
    ensures err == None <==> Accepted(t, wantRTP)
    ensures err.Some? && err.value.BadWeight? ==> err.value.index < 12 && t[err.value.index].weight <= 0
    ensures err.Some? && err.value.BadMultiplier? ==>
              err.value.index < 12 && t[err.value.index].multBP < 0 && t[err.value.index].weight > 0
    ensures err.Some? && err.value.BadSum? ==> err.value.total == Wrap64(WeightSum(t)) != WEIGHT_TOTAL
  {
    var total, weighted := 0, 0;
    assert WeightSum(t[..0]) == 0 && Weighted(t[..0]) == 0;
    hide WeightSum, Weighted, Wrap64, Worth, TruncDiv;
    for i := 0 to |t|
      invariant total == Wrap64(WeightSum(t[..i])) && weighted == Wrap64(Weighted(t[..i]))
      invariant forall j | 0 <= j < i :: t[j].weight > 0 && t[j].multBP >= 0
    {
      OneMoreSegment(t, i);
      WrapAdd(WeightSum(t[..i]), t[i].weight);
      WrapAdd(Weighted(t[..i]), Worth(t[i]));
      if t[i].weight <= 0 {
        return Some(BadWeight(i));
      }
      if t[i].multBP < 0 {
        return Some(BadMultiplier(i));
      }
      total := Wrap64(total + t[i].weight);
      weighted := Wrap64(weighted + Wrap64(Worth(t[i])));
    }
    assert t[..|t|] == t;
    if total != WEIGHT_TOTAL {
      return Some(BadSum(total));
    }
    if TruncDiv(weighted, WEIGHT_TOTAL) != wantRTP {
      return Some(BadRTP(TruncDiv(weighted, WEIGHT_TOTAL)));
    }
    return None;
  }

  lemma OneMoreSegment(t: seq<Seg>, i: nat)
    requires i < |t|
    ensures WeightSum(t[..i + 1]) == WeightSum(t[..i]) + t[i].weight
    ensures Weighted(t[..i + 1]) == Weighted(t[..i]) + Worth(t[i])
  {
    assert t[..i + 1][..i] == t[..i];
  }

  /** What start-up demands of the two tables together. */
  predicate ValidTables(wheel: Table, demo: Table, rtp: int, demoRTP: int) {
    && ValidTable(wheel, rtp)
    && ValidTable(demo, demoRTP)
    && demoRTP >= rtp
    && SameMultipliers(wheel, demo)
  }

  method Validate(wheel: Table, demo: Table, wantRTP: int, demoRTP: int) returns (ok: bool)
    ensures ok <==>
            Accepted(wheel, wantRTP) && Accepted(demo, demoRTP) && demoRTP >= wantRTP && SameMultipliers(wheel, demo)
  {
    var e := ValidateTable(wheel, wantRTP);
    if e != None {
      return false;
    }
    e := ValidateTable(demo, demoRTP);
    if e != None {
      return false;
    }
    if demoRTP < wantRTP {
      return false;
    }
    for i := 0 to 12
      invariant forall j | 0 <= j < i :: wheel[j].multBP == demo[j].multBP
    {
      if wheel[i].multBP != demo[i].multBP {
        return false;
      }
    }
    return true;
  }

  /** Multipliers that cannot make the weighted sum of a sound table wrap. */
  predicate SmallMultipliers(t: seq<Seg>) {
    forall s | s in t :: s.multBP <= MAX_INT64 / WEIGHT_TOTAL
  }

  predicate SmallWeights(t: seq<Seg>) {
    forall s | s in t :: s.weight <= WEIGHT_TOTAL
  }

  /** The wrapped checks accept exactly the valid tables, as soon as no weight is beyond the total they must add up to. */
  lemma AcceptedIsValid(t: Table, rtp: int)
    requires SmallMultipliers(t)
    ensures ValidTable(t, rtp) <==> Accepted(t, rtp) && SmallWeights(t)
  {
    if forall s | s in t :: s.weight > 0 && s.multBP >= 0 {
      SumBounds(t);
      if WeightSum(t) == WEIGHT_TOTAL {
        WeightedBound(t, MAX_INT64 / WEIGHT_TOTAL);
      }
    }
  }

  lemma {:induction false} SumBounds(t: seq<Seg>)
    requires forall s | s in t :: s.weight > 0
    ensures forall s | s in t :: s.weight <= WeightSum(t)
    ensures 0 <= WeightSum(t) && (SmallWeights(t) ==> WeightSum(t) <= |t| * WEIGHT_TOTAL)
  {
    if t != [] {
      var rest, last := t[..|t| - 1], t[|t| - 1];
      assert last in t && rest + [last] == t;
      SumBounds(rest);
      assert SmallWeights(t) ==> SmallWeights(rest);
    }
  }

  lemma {:induction false} WeightedBound(t: seq<Seg>, m: nat)
    requires forall s | s in t :: s.weight > 0 && 0 <= s.multBP <= m
    ensures 0 <= Weighted(t) <= m * WeightSum(t)
  {
    if t != [] {
      var rest, last := t[..|t| - 1], t[|t| - 1];
      assert last in t;
      WeightedBound(rest, m);
      MulMono(last.multBP, m, last.weight);
      MulMono(0, last.multBP, last.weight);
      assert m * (WeightSum(rest) + last.weight) == m * WeightSum(rest) + m * last.weight;
    }
  }

  /** Weights whose sum wraps around to exactly 10000. */
  const WRAPPING: Table :=
    [Seg(0, 0x4000_0000_0000_0000), Seg(0, 0x4000_0000_0000_0000), Seg(0, 0x4000_0000_0000_0000),
     Seg(0, 0x4000_0000_0000_0000), Seg(0, 1250), Seg(0, 1250), Seg(0, 1250), Seg(0, 1250),
     Seg(0, 1250), Seg(0, 1250), Seg(0, 1250), Seg(0, 1250)]

  /** Without that condition the checks accept a table of which only the first segment is ever drawn. */
  lemma WrappingTableAccepted()
    ensures Accepted(WRAPPING, 0) && !ValidTable(WRAPPING, 0)
  {
    SumsOfTwelve(WRAPPING);
  }

  /** Sums of a table written out head first, for tables given segment by segment. */
  lemma SumsFromTheFront(s: Seg, rest: seq<Seg>)
    ensures WeightSum([s] + rest) == s.weight + WeightSum(rest)
    ensures Weighted([s] + rest) == s.multBP * s.weight + Weighted(rest)
    decreases |rest|
  {
    var t := [s] + rest;
    if rest == [] {
      assert t[..0] == [];
      assert WeightSum(t) == WeightSum(t[..0]) + t[0].weight;
      assert Weighted(t) == Weighted(t[..0]) + t[0].multBP * t[0].weight;
    } else {
      assert t[..|t| - 1] == [s] + rest[..|rest| - 1];
      SumsFromTheFront(s, rest[..|rest| - 1]);
    }
  }

  lemma SumsOfTwelve(t: Table)
    ensures WeightSum(t) == t[0].weight + t[1].weight + t[2].weight + t[3].weight + t[4].weight + t[5].weight
                            + t[6].weight + t[7].weight + t[8].weight + t[9].weight + t[10].weight + t[11].weight
    ensures Weighted(t) ==
              t[0].multBP * t[0].weight + t[1].multBP * t[1].weight + t[2].multBP * t[2].weight
              + t[3].multBP * t[3].weight + t[4].multBP * t[4].weight + t[5].multBP * t[5].weight
              + t[6].multBP * t[6].weight + t[7].multBP * t[7].weight + t[8].multBP * t[8].weight
              + t[9].multBP * t[9].weight + t[10].multBP * t[10].weight + t[11].multBP * t[11].weight
  {
    forall i | 0 <= i < 12
      ensures WeightSum(t[i..]) == t[i].weight + WeightSum(t[i + 1..])
      ensures Weighted(t[i..]) == t[i].multBP * t[i].weight + Weighted(t[i + 1..])
    {
      assert t[i..] == [t[i]] + t[i + 1..];
      SumsFromTheFront(t[i], t[i + 1..]);
    }
    assert t[0..] == t && t[12..] == [];
  }

  lemma ShippedWheel()
    ensures ValidTable(WHEEL, 9000) && Weighted(WHEEL) == 90000000
  {
    SumsOfTwelve(WHEEL);
    assert Weighted(WHEEL) == 90000000;
  }

  lemma ShippedDemoWheel()
    ensures ValidTable(DEMO_WHEEL, 9700) && Weighted(DEMO_WHEEL) == 97000000
  {
    SumsOfTwelve(DEMO_WHEEL);
    assert Weighted(DEMO_WHEEL) == 97000000;
  }

  /** The shipped tables pass start-up with the shipped RTP figures. */
  lemma ShippedTablesValid()
    ensures ValidTables(WHEEL, DEMO_WHEEL, 9000, 9700)
    ensures MaxMult(WHEEL) == 2000000
  {
    ShippedWheel();
    ShippedDemoWheel();
    assert forall i | 0 <= i < 12 :: WHEEL[i].multBP <= 2000000;
    assert WHEEL[11].multBP == 2000000;
  }

  /******* The draw *******/

  /** The weight in front of segment `i`: it owns the residues [Before(t, i), Before(t, i + 1)). */
  function Before(t: seq<Seg>, i: nat): int
    requires i <= |t|
  {
    WeightSum(t[..i])
  }

  predicate Owns(t: seq<Seg>, i: nat, r: int) {
    i < |t| && Before(t, i) <= r < Before(t, i + 1)
  }

  /** The first segment whose weight exceeds what is left of `r`, counting from 0. */
  function Select(t: seq<Seg>, r: int): (s: Option<nat>)
    ensures s.Some? ==> s.value < |t|
  {
    if t == [] then None
    else if r < t[0].weight then Some(0)
    else match Select(t[1..], r - t[0].weight)
      case None => None
      case Some(i) => Some(i + 1)
  }

  /** The draw, given the four random bytes as one word: a 1-based index and its multiplier. */
  method PickFrom(t: Table, word: int) returns (picked: Option<(int, int)>)
    requires 0 <= word < WORDS
    ensures picked == match Select(t, word % WEIGHT_TOTAL)
                      case None => None
                      case Some(i) => Some((i + 1, t[i].multBP))
  {
    var r := word % WEIGHT_TOTAL;
    for i := 0 to |t|
      invariant Select(t, word % WEIGHT_TOTAL) ==
                match Select(t[i..], r) case None => None case Some(j) => Some(i + j)
    {
      assert t[i..][0] == t[i] && t[i..][1..] == t[i + 1..];
      if r < t[i].weight {
        return Some((i + 1, t[i].multBP));
      }
      r := r - t[i].weight;
    }
    return None;
  }

  lemma BeforeStep(t: seq<Seg>, i: nat)
    requires i < |t|
    ensures Before(t, i + 1) == Before(t, i) + t[i].weight
  {
    assert t[..i + 1][..i] == t[..i];
  }

  lemma {:induction false} BeforeOfTail(t: seq<Seg>, i: nat)
    requires t != [] && i < |t|
    ensures Before(t, i + 1) == t[0].weight + Before(t[1..], i)
  {
    BeforeStep(t, i);
    if i == 0 {
      assert t[..0] == [] && t[1..][..0] == [];
    } else {
      BeforeOfTail(t, i - 1);
      BeforeStep(t[1..], i - 1);
    }
  }

  lemma {:induction false} BeforeGrows(t: seq<Seg>, i: nat, j: nat)
    requires i <= j <= |t|
    requires forall s | s in t :: s.weight > 0
    ensures Before(t, i) + (j - i) <= Before(t, j)
    decreases j
  {
    if i < j {
      BeforeGrows(t, i, j - 1);
      BeforeStep(t, j - 1);
      assert t[j - 1] in t;
    }
  }

  /** With positive weights the draw returns segment i exactly for the residues i owns. */
  lemma {:induction false} SelectIsOwner(t: seq<Seg>, r: int, i: nat)
    requires 0 <= r && forall s | s in t :: s.weight > 0
    ensures Select(t, r) == Some(i) <==> Owns(t, i, r)
  {
    if t != [] && i < |t| {
      assert t[..0] == [];
      BeforeOfTail(t, i);
      if r < t[0].weight {
        if i > 0 {
          BeforeGrows(t, 1, i);
          BeforeOfTail(t, 0);
        }
      } else if i == 0 {
        BeforeStep(t, 0);
      } else {
        BeforeOfTail(t, i - 1);
        SelectIsOwner(t[1..], r - t[0].weight, i - 1);
      }
    }
  }

  /** Weights summing to 10000 leave no residue unowned: the draw cannot fall through. */
  lemma {:induction false} NoFallThrough(t: seq<Seg>, r: int)
    requires 0 <= r < WeightSum(t)
    ensures Select(t, r).Some?
  {
    if t == [] {
    } else {
      SumsFromTheFront(t[0], t[1..]);
      assert t == [t[0]] + t[1..];
      if r >= t[0].weight {
        NoFallThrough(t[1..], r - t[0].weight);
      }
    }
  }
}
