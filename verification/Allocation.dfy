/** Revenue split by largest remainder (internal/central/billing/allocation.go). */
module Allocation {
  import opened Basics

  type Money = Int64

  const BPS: int := 10000

  datatype SplitMode = SplitAll | SplitServiceOnly | UnknownMode

  datatype Party = Party(id: string, bps: Int64)

  datatype Share = Share(partyId: string, electric: Money, service: Money)

  datatype Allocated = Allocated(shares: seq<Share>, electricExcluded: Money)

  datatype SplitError = InvalidSplit | RatioTotal(total: int)

  predicate DistinctIds(ps: seq<Party>) {
    forall i, j :: 0 <= i < j < |ps| ==> ps[i].id != ps[j].id
  }

  predicate RatiosInRange(ps: seq<Party>) {
    forall i :: 0 <= i < |ps| ==> 0 <= ps[i].bps <= BPS
  }

  ghost function Bps(): Party -> int { (p: Party) => p.bps }

  /** Each party on its own is acceptable and no ID occurs twice. */
  ghost predicate WellNamed(ps: seq<Party>) {
    DistinctIds(ps) && RatiosInRange(ps) && forall i :: 0 <= i < |ps| ==> ps[i].id != ""
  }

  /** The configurations that the split accepts. */
  ghost predicate ValidParties(ps: seq<Party>) {
    2 <= |ps| <= 8 && WellNamed(ps) && SumBy(Bps(), ps) == BPS
  }

  // ---------------------------------------------------------------- quotas

  ghost function Floor(amount: int, p: Party): int { amount * p.bps / BPS }

  function Rem(amount: int, p: Party): int { amount * p.bps % BPS }

  ghost function FloorBy(amount: int): Party -> int { (p: Party) => Floor(amount, p) }

  ghost function RemBy(amount: int): Party -> int { (p: Party) => Rem(amount, p) }

  /** What is left after every party got the floor of its quota. */
  ghost function Leftover(amount: int, ps: seq<Party>): int {
    amount - SumBy(FloorBy(amount), ps)
  }

  lemma {:induction false} FloorsAndRemainders(amount: int, ps: seq<Party>)
    ensures BPS * SumBy(FloorBy(amount), ps) + SumBy(RemBy(amount), ps) == amount * SumBy(Bps(), ps)
  {
    if ps != [] {
      FloorsAndRemainders(amount, ps[1..]);
      var b, rest := ps[0].bps, SumBy(Bps(), ps[1..]);
      assert amount * (b + rest) == amount * b + amount * rest;
      assert BPS * Floor(amount, ps[0]) + Rem(amount, ps[0]) == amount * b;
    }
  }

  // ------------------------------------------------- the order of remainders

  /** Go's string order. */
  predicate Less(a: string, b: string) {
    if b == [] then false
    else if a == [] then true
    else if a[0] != b[0] then a[0] < b[0]
    else Less(a[1..], b[1..])
  }

  /** The order of IDs is that of the first position at which they differ; a proper prefix comes first. */
  lemma {:induction false} LessAt(a: string, b: string, k: nat)
    requires k <= |a| && k <= |b| && a[..k] == b[..k]
    requires k < |a| && k < |b| ==> a[k] != b[k]
    ensures Less(a, b) <==> k < |b| && (k < |a| ==> a[k] < b[k])
  {
    if k > 0 {
      assert a[0] == a[..k][0] == b[..k][0] == b[0];
      assert a[1..][..k - 1] == a[..k][1..] == b[..k][1..] == b[1..][..k - 1];
      LessAt(a[1..], b[1..], k - 1);
    }
  }

  lemma {:induction false} LessTotal(a: string, b: string)
    ensures a == b || Less(a, b) || Less(b, a)
    ensures !(Less(a, b) && Less(b, a))
    ensures !Less(a, a)
  {
    if a != [] && b != [] && a[0] == b[0] {
      LessTotal(a[1..], b[1..]);
      if a[1..] == b[1..] { assert a == [a[0]] + a[1..] == [b[0]] + b[1..] == b; }
    }
    if a != [] { LessTotal(a[1..], a[1..]); }
  }

  lemma {:induction false} LessTransitive(a: string, b: string, c: string)
    requires Less(a, b) && Less(b, c)
    ensures Less(a, c)
  {
    if a != [] && a[0] == b[0] == c[0] {
      LessTransitive(a[1..], b[1..], c[1..]);
    }
  }

  /** The sort key: larger remainder first, then smaller ID. */
  predicate Before(amount: int, p: Party, q: Party) {
    if Rem(amount, p) == Rem(amount, q) then Less(p.id, q.id) else Rem(amount, p) > Rem(amount, q)
  }

  lemma BeforeTotal(amount: int, p: Party, q: Party)
    ensures p.id == q.id || Before(amount, p, q) || Before(amount, q, p)
    ensures !(Before(amount, p, q) && Before(amount, q, p))
    ensures !Before(amount, p, p)
  {
    LessTotal(p.id, q.id);
    LessTotal(p.id, p.id);
  }

  lemma BeforeTransitive(amount: int, p: Party, q: Party, r: Party)
    requires Before(amount, p, q) && Before(amount, q, r)
    ensures Before(amount, p, r)
  {
    if Rem(amount, p) == Rem(amount, q) == Rem(amount, r) {
      LessTransitive(p.id, q.id, r.id);
    }
  }

  // --------------------------------------------------- what the split computes

  ghost function PartySet(ps: seq<Party>): set<Party> { set p | p in ps }

  ghost function Ahead(amount: int, s: set<Party>, p: Party): set<Party> {
    set q | q in s && Before(amount, q, p)
  }

  /** One extra cent for each of the first `left` parties in the order of remainders. */
  ghost function Extra(amount: int, s: set<Party>, left: int, p: Party): int {
    if |Ahead(amount, s, p)| < left then 1 else 0
  }

  ghost function ShareOf(amount: int, ps: seq<Party>, p: Party): int {
    Floor(amount, p) + Extra(amount, PartySet(ps), Leftover(amount, ps), p)
  }

  /** The shares, party by party, stated without any sorting. */
  ghost function Distributed(amount: int, ps: seq<Party>): (r: seq<int>)
    ensures |r| == |ps|
  {
    seq(|ps|, i requires 0 <= i < |ps| => ShareOf(amount, ps, ps[i]))
  }

  // ------------------------------------------------------------ conservation

  lemma {:induction false} RemSumBounds(amount: int, ps: seq<Party>)
    ensures 0 <= SumBy(RemBy(amount), ps) <= (BPS - 1) * |ps|
  {
    if ps != [] { RemSumBounds(amount, ps[1..]); }
  }

  /** The leftover is smaller than the party count, so the remainder loop never indexes past the end. */
  lemma LeftoverBounds(amount: int, ps: seq<Party>)
    requires ValidParties(ps) && 0 <= amount
    ensures 0 <= Leftover(amount, ps) < |ps|
    ensures BPS * Leftover(amount, ps) == SumBy(RemBy(amount), ps)
  {
    FloorsAndRemainders(amount, ps);
    RemSumBounds(amount, ps);
  }

  ghost predicate IdsIdentify(s: set<Party>) {
    forall p, q :: p in s && q in s && p.id == q.id ==> p == q
  }

  lemma {:induction false} LastOf(amount: int, s: set<Party>) returns (m: Party)
    requires s != {} && IdsIdentify(s)
    ensures m in s && forall p :: p in s && p != m ==> Before(amount, p, m)
    decreases |s|
  {
    var first: Party :| first in s;
    var rest := s - {first};
    if rest == {} {
      assert s == {first};
      m := first;
    } else {
      var k := LastOf(amount, rest);
      assert k in s && k != first;
      BeforeTotal(amount, k, first);
      if Before(amount, first, k) {
        m := k;
      } else {
        m := first;
        forall p | p in rest && p != k ensures Before(amount, p, m) { BeforeTransitive(amount, p, k, m); }
      }
    }
  }

  ghost function Winners(amount: int, s: set<Party>, left: int): set<Party> {
    set p | p in s && |Ahead(amount, s, p)| < left
  }

  /** Exactly `left` parties win an extra cent. */
  lemma {:induction false} WinnerCount(amount: int, s: set<Party>, left: nat)
    requires IdsIdentify(s) && left <= |s|
    ensures |Winners(amount, s, left)| == left
    decreases |s|
  {
    if s != {} {
      var m := LastOf(amount, s);
      var rest := s - {m};
      BeforeTotal(amount, m, m);
      assert Ahead(amount, s, m) == rest;
      forall p | p in rest ensures Ahead(amount, s, p) == Ahead(amount, rest, p) {
        BeforeTotal(amount, p, m);
      }
      if left == |s| {
        WinnerCount(amount, rest, left - 1);
        forall p | p in s ensures p in Winners(amount, s, left) {
          if p != m {
            assert Ahead(amount, s, p) <= s - {p} by { BeforeTotal(amount, p, p); }
            AtMost(Ahead(amount, s, p), s - {p});
          }
        }
        assert Winners(amount, s, left) == s;
      } else {
        WinnerCount(amount, rest, left);
        assert Winners(amount, s, left) == Winners(amount, rest, left);
      }
    } else {
      assert Winners(amount, s, left) == {};
    }
  }

  lemma {:induction false} AtMost<T>(a: set<T>, b: set<T>)
    requires a <= b
    ensures |a| <= |b|
  {
    assert |b - a| == |b| - |a|;
  }

  ghost function CountIn(ps: seq<Party>, winners: set<Party>): int {
    if ps == [] then 0 else (if ps[0] in winners then 1 else 0) + CountIn(ps[1..], winners)
  }

  lemma {:induction false} CountInIsSize(ps: seq<Party>, winners: set<Party>)
    requires DistinctIds(ps) && winners <= PartySet(ps)
    ensures CountIn(ps, winners) == |winners|
  {
    if ps != [] {
      var head := ps[0];
      var rest := winners - {head};
      CountInIsSize(ps[1..], rest);
      CountInIgnores(ps[1..], winners, head);
    }
  }

  lemma {:induction false} CountInIgnores(ps: seq<Party>, winners: set<Party>, p: Party)
    requires p !in ps
    ensures CountIn(ps, winners) == CountIn(ps, winners - {p})
  {
    if ps != [] { CountInIgnores(ps[1..], winners, p); }
  }

  lemma {:induction false} ShareSum(base: Party -> int, ps: seq<Party>, winners: set<Party>, shares: seq<int>)
    requires |shares| == |ps|
    requires forall i :: 0 <= i < |ps| ==> shares[i] == base(ps[i]) + (if ps[i] in winners then 1 else 0)
    ensures Sum(shares) == SumBy(base, ps) + CountIn(ps, winners)
  {
    if ps != [] { ShareSum(base, ps[1..], winners, shares[1..]); }
  }

  lemma {:induction false} PartyCount(ps: seq<Party>)
    requires DistinctIds(ps)
    ensures |PartySet(ps)| == |ps| && IdsIdentify(PartySet(ps))
  {
    if ps != [] {
      PartyCount(ps[1..]);
      assert PartySet(ps) == PartySet(ps[1..]) + {ps[0]};
      assert ps[0] !in PartySet(ps[1..]);
      forall p, q | p in PartySet(ps) && q in PartySet(ps) && p.id == q.id ensures p == q {
        var i :| 0 <= i < |ps| && ps[i] == p;
        var j :| 0 <= j < |ps| && ps[j] == q;
      }
    } else {
      assert PartySet(ps) == {};
    }
  }

  /** Every cent is handed out, and no share leaves the range of the amount. */
  lemma DistributedConserves(amount: int, ps: seq<Party>)
    requires ValidParties(ps) && 0 <= amount
    ensures Sum(Distributed(amount, ps)) == amount
    ensures forall i :: 0 <= i < |ps| ==> 0 <= Distributed(amount, ps)[i] <= amount
  {
    LeftoverBounds(amount, ps);
    PartyCount(ps);
    var s, left := PartySet(ps), Leftover(amount, ps);
    WinnerCount(amount, s, left);
    ShareSum(FloorBy(amount), ps, Winners(amount, s, left), Distributed(amount, ps));
    CountInIsSize(ps, Winners(amount, s, left));
    forall i | 0 <= i < |ps| ensures 0 <= Distributed(amount, ps)[i] { QuotaIsNonNegative(amount, ps[i]); }
    PartsAtMostSum(Distributed(amount, ps));
  }

  lemma QuotaIsNonNegative(amount: int, p: Party)
    requires 0 <= amount && 0 <= p.bps
    ensures 0 <= Floor(amount, p)
  {
    assert 0 <= amount * p.bps;
  }

  lemma {:induction false} PartsAtMostSum(s: seq<int>)
    requires forall i :: 0 <= i < |s| ==> 0 <= s[i]
    ensures 0 <= Sum(s) && forall i :: 0 <= i < |s| ==> s[i] <= Sum(s)
  {
    if s != [] { PartsAtMostSum(s[1..]); }
  }

  // ------------------------------------------------------ order independence

  /** Permuting the parties changes nobody's share. */
  lemma OrderIndependence(amount: int, ps: seq<Party>, qs: seq<Party>, i: nat, j: nat)
    requires multiset(ps) == multiset(qs)
    requires i < |ps| && j < |qs| && DistinctIds(ps) && ps[i].id == qs[j].id
    ensures Distributed(amount, ps)[i] == Distributed(amount, qs)[j]
  {
    SumByPermutation(FloorBy(amount), ps, qs);
    assert forall p :: p in ps <==> p in multiset(ps);
    assert forall p :: p in qs <==> p in multiset(qs);
    assert PartySet(ps) == PartySet(qs);
    assert qs[j] in ps;
    var k :| 0 <= k < |ps| && ps[k] == qs[j];
    assert k == i;
  }

  // ---------------------------------------------------------------- fairness

  lemma {:induction false} PositiveTerms(rem: Party -> int, ps: seq<Party>, pos: set<Party>)
    requires DistinctIds(ps)
    requires forall p :: p in ps ==> 0 <= rem(p) < BPS
    requires forall p :: p in pos <==> p in ps && rem(p) > 0
    ensures SumBy(rem, ps) <= (BPS - 1) * |pos|
  {
    if ps == [] {
      assert pos == {};
    } else {
      var head := ps[0];
      var rest := pos - {head};
      assert head !in ps[1..];
      PositiveTerms(rem, ps[1..], rest);
      if head in pos { assert |pos| == |rest| + 1; } else { assert pos == rest; }
    }
  }

  /** A party whose quota is a whole number of cents, so any 0-bps party, gets exactly its quota. */
  lemma ExactQuotaGetsNoExtra(amount: int, ps: seq<Party>, i: nat)
    requires ValidParties(ps) && 0 <= amount && i < |ps| && Rem(amount, ps[i]) == 0
    ensures Distributed(amount, ps)[i] * BPS == amount * ps[i].bps
  {
    LeftoverBounds(amount, ps);
    var s, pos := PartySet(ps), set p | p in ps && Rem(amount, p) > 0;
    PositiveTerms(RemBy(amount), ps, pos);
    assert pos <= Ahead(amount, s, ps[i]);
    AtMost(pos, Ahead(amount, s, ps[i]));
  }

  lemma FloorMonotone(amount: int, p: Party, q: Party)
    requires 0 < amount && p.bps > q.bps
    ensures Floor(amount, p) >= Floor(amount, q)
    ensures Floor(amount, p) == Floor(amount, q) ==> Rem(amount, p) > Rem(amount, q)
  {
    assert amount * p.bps == amount * q.bps + amount * (p.bps - q.bps);
    assert amount * (p.bps - q.bps) > 0;
  }

  /** Whoever comes later in the order of remainders does not win if an earlier one loses. */
  lemma ExtraFollowsOrder(amount: int, s: set<Party>, left: int, p: Party, q: Party)
    requires Before(amount, p, q)
    ensures Extra(amount, s, left, p) >= Extra(amount, s, left, q)
  {
    forall r | r in Ahead(amount, s, p) ensures r in Ahead(amount, s, q) { BeforeTransitive(amount, r, p, q); }
    AtMost(Ahead(amount, s, p), Ahead(amount, s, q));
  }

  /** Among equal remainders the odd cents go by ID: a party whose ID comes first at position k is never behind. */
  lemma TieBreak(amount: int, ps: seq<Party>, i: nat, j: nat, k: nat)
    requires ValidParties(ps) && 0 <= amount && i < |ps| && j < |ps|
    requires amount * ps[i].bps % 10000 == amount * ps[j].bps % 10000
    requires k <= |ps[i].id| && k < |ps[j].id| && ps[i].id[..k] == ps[j].id[..k]
    requires k < |ps[i].id| ==> ps[i].id[k] < ps[j].id[k]
    ensures Distributed(amount, ps)[i] - amount * ps[i].bps / 10000 >= Distributed(amount, ps)[j] - amount * ps[j].bps / 10000
  {
    LessAt(ps[i].id, ps[j].id, k);
    ExtraFollowsOrder(amount, PartySet(ps), Leftover(amount, ps), ps[i], ps[j]);
  }

  /** Each share is the exact quota rounded down or up to a whole cent. */
  lemma QuotaRule(amount: int, ps: seq<Party>, i: nat)
    requires ValidParties(ps) && 0 <= amount && i < |ps|
    ensures Abs(Distributed(amount, ps)[i] * BPS - amount * ps[i].bps) < BPS
  {
    if Rem(amount, ps[i]) == 0 { ExactQuotaGetsNoExtra(amount, ps, i); }
  }

  /** A strictly larger ratio never receives less. */
  lemma LargerRatioNeverLess(amount: int, ps: seq<Party>, i: nat, j: nat)
    requires ValidParties(ps) && 0 <= amount && i < |ps| && j < |ps| && ps[i].bps > ps[j].bps
    ensures Distributed(amount, ps)[i] >= Distributed(amount, ps)[j]
  {
    if amount == 0 {
      ExactQuotaGetsNoExtra(amount, ps, i);
      ExactQuotaGetsNoExtra(amount, ps, j);
    } else {
      FloorMonotone(amount, ps[i], ps[j]);
      if Floor(amount, ps[i]) == Floor(amount, ps[j]) {
        ExtraFollowsOrder(amount, PartySet(ps), Leftover(amount, ps), ps[i], ps[j]);
      }
    }
  }

  // -------------------------------------------------------------- optimality

  ghost function Abs(x: int): int { if x < 0 then -x else x }

  /** Total distance, in 1/10000 cent, of a split from the exact quotas. */
  ghost function Error(amount: int, ps: seq<Party>, t: seq<int>): int
    requires |t| == |ps|
  {
    if ps == [] then 0 else Abs(BPS * t[0] - amount * ps[0].bps) + Error(amount, ps[1..], t[1..])
  }

  /** `level` separates the remainders of the winners from those of the others. */
  lemma {:induction false} Separation(amount: int, ps: seq<Party>, s: set<Party>, left: int) returns (level: int)
    requires PartySet(ps) <= s
    ensures 0 <= level <= BPS
    ensures forall p :: p in ps && Extra(amount, s, left, p) == 1 ==> level <= Rem(amount, p)
    ensures level == BPS || exists w :: w in ps && Extra(amount, s, left, w) == 1 && level == Rem(amount, w)
  {
    if ps == [] {
      level := BPS;
    } else {
      assert PartySet(ps[1..]) <= PartySet(ps);
      level := Separation(amount, ps[1..], s, left);
      if Extra(amount, s, left, ps[0]) == 1 && Rem(amount, ps[0]) < level {
        level := Rem(amount, ps[0]);
        assert ps[0] in ps;
      }
    }
  }

  lemma LosersAreBelow(amount: int, s: set<Party>, left: int, w: Party, p: Party)
    requires Extra(amount, s, left, w) == 1 && Extra(amount, s, left, p) == 0
    ensures Rem(amount, p) <= Rem(amount, w)
  {
    if Rem(amount, p) > Rem(amount, w) { ExtraFollowsOrder(amount, s, left, p, w); }
  }

  ghost predicate Fits(level: int, rem: int, extra: int) {
    (extra == 1 && level <= rem) || (extra == 0 && rem <= level)
  }

  lemma LevelTimes(level: int, d: int)
    requires 0 <= level <= BPS
    ensures d >= 1 ==> level * d >= level
    ensures d <= 0 ==> level * d >= BPS * d
  {
    if d <= 0 { assert (BPS - level) * -d >= 0; }
  }

  /** With every cent priced at BPS - 2 * level, no number of cents suits one party better than its share. */
  lemma PricedBest(level: int, rem: int, extra: int, d: int)
    requires 0 <= level <= BPS && 0 <= rem < BPS && Fits(level, rem, extra)
    ensures Abs(BPS * extra - rem) - (BPS - 2 * level) * extra <= Abs(BPS * d - rem) - (BPS - 2 * level) * d
  {
    LevelTimes(level, d);
    MulSum(d, BPS, -2 * level);
    assert (BPS - 2 * level) * d == BPS * d - 2 * (level * d);
  }

  /** The same for a quota of `floor` cents and a remainder. */
  lemma PricedBestShare(quota: int, price: int, level: int, u: int, t: int)
    requires 0 <= level <= BPS && price == BPS - 2 * level
    requires Fits(level, quota % BPS, u - quota / BPS)
    ensures Abs(BPS * u - quota) - price * u <= Abs(BPS * t - quota) - price * t
  {
    var f := quota / BPS;
    PricedBest(level, quota % BPS, u - f, t - f);
    assert price * (u - f) == price * u - price * f;
    assert price * (t - f) == price * t - price * f;
  }

  lemma {:induction false} PricedErrors(amount: int, ps: seq<Party>, price: int, level: int, t: seq<int>, u: seq<int>)
    requires |t| == |u| == |ps| && 0 <= level <= BPS && price == BPS - 2 * level
    requires forall i :: 0 <= i < |ps| ==> Fits(level, Rem(amount, ps[i]), u[i] - Floor(amount, ps[i]))
    ensures Error(amount, ps, u) - price * Sum(u) <= Error(amount, ps, t) - price * Sum(t)
  {
    if ps != [] {
      PricedErrors(amount, ps[1..], price, level, t[1..], u[1..]);
      assert Fits(level, Rem(amount, ps[0]), u[0] - Floor(amount, ps[0]));
      PricedBestShare(amount * ps[0].bps, price, level, u[0], t[0]);
      MulSum(price, u[0], Sum(u[1..]));
      MulSum(price, t[0], Sum(t[1..]));
    }
  }

  lemma MulSum(a: int, b: int, c: int)
    ensures a * (b + c) == a * b + a * c
  {}

  /** No split of the same amount into whole cents is closer to the exact quotas. */
  lemma Optimality(amount: int, ps: seq<Party>, t: seq<int>)
    requires ValidParties(ps) && 0 <= amount
    requires |t| == |ps| && Sum(t) == amount
    ensures Error(amount, ps, Distributed(amount, ps)) <= Error(amount, ps, t)
  {
    PartyCount(ps);
    DistributedConserves(amount, ps);
    var s, left := PartySet(ps), Leftover(amount, ps);
    var level := Separation(amount, ps, s, left);
    forall i | 0 <= i < |ps| && Extra(amount, s, left, ps[i]) == 0 ensures Rem(amount, ps[i]) <= level {
      if level != BPS {
        var w :| w in ps && Extra(amount, s, left, w) == 1 && level == Rem(amount, w);
        LosersAreBelow(amount, s, left, w, ps[i]);
      }
    }
    PricedErrors(amount, ps, BPS - 2 * level, level, t, Distributed(amount, ps));
  }

  // -------------------------------------------------------------- the program

  datatype Remainder = Remainder(index: nat, value: Int64)

  /** Every entry names its own party and holds that party's remainder. */
  ghost predicate Indexing(amount: int, ps: seq<Party>, a: seq<Remainder>) {
    && |a| == |ps|
    && (forall k :: 0 <= k < |a| ==> a[k].index < |ps| && a[k].value == Rem(amount, ps[a[k].index]))
    && (forall j, k :: 0 <= j < k < |a| ==> a[j].index != a[k].index)
  }

  ghost predicate Precedes(amount: int, ps: seq<Party>, x: Remainder, y: Remainder) {
    x.index < |ps| && y.index < |ps| && Before(amount, ps[x.index], ps[y.index])
  }

  ghost predicate Ordered(amount: int, ps: seq<Party>, a: seq<Remainder>) {
    forall j, k :: 0 <= j < k < |a| ==> Precedes(amount, ps, a[j], a[k])
  }

  predicate SortsBefore(ps: seq<Party>, x: Remainder, y: Remainder)
    requires x.index < |ps| && y.index < |ps|
  {
    if x.value == y.value then Less(ps[x.index].id, ps[y.index].id) else x.value > y.value
  }

  /** The first i + 1 entries are sorted, except that entry j may still have to move down. */
  ghost predicate SortedBut(amount: int, ps: seq<Party>, a: seq<Remainder>, i: int, j: int) {
    i < |a| && forall p, q :: 0 <= p < q <= i && q != j ==> Precedes(amount, ps, a[p], a[q])
  }

  lemma SwapStep(amount: int, ps: seq<Party>, a: seq<Remainder>, i: int, j: int, b: seq<Remainder>)
    requires Indexing(amount, ps, a) && 0 < j <= i && SortedBut(amount, ps, a, i, j)
    requires Precedes(amount, ps, a[j], a[j - 1])
    requires b == a[j := a[j - 1]][j - 1 := a[j]]
    ensures Indexing(amount, ps, b) && SortedBut(amount, ps, b, i, j - 1)
  {
    forall p, q | 0 <= p < q <= i && q != j - 1 ensures Precedes(amount, ps, b[p], b[q]) {
      if q == j {
        if p < j - 1 { assert b[p] == a[p] && b[q] == a[j - 1]; }
      } else {
        var p' := if p == j then j - 1 else if p == j - 1 then j else p;
        assert b[q] == a[q] && b[p] == a[p'];
        assert p' < q;
      }
    }
  }

  lemma InsertionDone(amount: int, ps: seq<Party>, a: seq<Remainder>, i: int, j: int)
    requires DistinctIds(ps) && Indexing(amount, ps, a) && 0 <= j <= i && SortedBut(amount, ps, a, i, j)
    requires j > 0 ==> !Before(amount, ps[a[j].index], ps[a[j - 1].index])
    ensures SortedBut(amount, ps, a, i, -1)
  {
    forall p | 0 <= p < j ensures Precedes(amount, ps, a[p], a[j]) {
      assert a[j - 1].index != a[j].index;
      BeforeTotal(amount, ps[a[j - 1].index], ps[a[j].index]);
      if p < j - 1 {
        assert Precedes(amount, ps, a[p], a[j - 1]);
        BeforeTransitive(amount, ps[a[p].index], ps[a[j - 1].index], ps[a[j].index]);
      }
    }
  }

  /** sort.Slice on at most eight entries: insertion by neighbour swaps. */
  method SortRemainders(ghost amount: int, ps: seq<Party>, a: array<Remainder>)
    requires DistinctIds(ps) && Indexing(amount, ps, a[..]) && a.Length > 0
    modifies a
    ensures Indexing(amount, ps, a[..]) && Ordered(amount, ps, a[..])
  {
    var i := 1;
    while i < a.Length
      invariant 1 <= i <= a.Length
      invariant Indexing(amount, ps, a[..]) && SortedBut(amount, ps, a[..], i - 1, -1)
    {
      var j := i;
      while j > 0 && SortsBefore(ps, a[j], a[j - 1])
        invariant 0 <= j <= i
        invariant Indexing(amount, ps, a[..]) && SortedBut(amount, ps, a[..], i, j)
      {
        ghost var before := a[..];
        a[j], a[j - 1] := a[j - 1], a[j];
        SwapStep(amount, ps, before, i, j, a[..]);
        j := j - 1;
      }
      InsertionDone(amount, ps, a[..], i, j);
      i := i + 1;
    }
  }

  ghost function Named(ps: seq<Party>, a: seq<Remainder>, lo: nat, hi: nat): set<Party>
    requires lo <= hi <= |a| && forall k :: 0 <= k < |a| ==> a[k].index < |ps|
  {
    set k | lo <= k < hi :: ps[a[k].index]
  }

  lemma NotNamedBefore(amount: int, ps: seq<Party>, a: seq<Remainder>, lo: nat, k: nat)
    requires DistinctIds(ps) && Indexing(amount, ps, a) && lo <= k < |a|
    ensures ps[a[k].index] !in Named(ps, a, lo, k)
  {
    forall j | lo <= j < k ensures ps[a[j].index] != ps[a[k].index] {
      assert a[j].index != a[k].index;
    }
  }

  lemma NamedStep(amount: int, ps: seq<Party>, a: seq<Remainder>, lo: nat, k: nat)
    requires DistinctIds(ps) && Indexing(amount, ps, a) && lo <= k < |a|
    ensures |Named(ps, a, lo, k + 1)| == |Named(ps, a, lo, k)| + 1
  {
    NotNamedBefore(amount, ps, a, lo, k);
    assert Named(ps, a, lo, k + 1) == Named(ps, a, lo, k) + {ps[a[k].index]};
  }

  lemma {:induction false} NamedCount(amount: int, ps: seq<Party>, a: seq<Remainder>, lo: nat, hi: nat)
    requires DistinctIds(ps) && Indexing(amount, ps, a) && lo <= hi <= |a|
    ensures |Named(ps, a, lo, hi)| == hi - lo
    decreases hi - lo
  {
    if lo == hi {
      assert Named(ps, a, lo, hi) == {};
    } else {
      NamedCount(amount, ps, a, lo, hi - 1);
      NamedStep(amount, ps, a, lo, hi - 1);
    }
  }

  /** In a sorted array the k-th entry has exactly k parties ahead of it. */
  lemma PositionIsRank(amount: int, ps: seq<Party>, a: seq<Remainder>, k: nat)
    requires DistinctIds(ps) && Indexing(amount, ps, a) && Ordered(amount, ps, a) && k < |a|
    ensures |Ahead(amount, PartySet(ps), ps[a[k].index])| == k
  {
    var s, p := PartySet(ps), ps[a[k].index];
    PartyCount(ps);
    NamedCount(amount, ps, a, 0, k);
    NamedCount(amount, ps, a, k, |a|);
    var front, back := Named(ps, a, 0, k), Named(ps, a, k, |a|);
    forall q | q in front ensures q in Ahead(amount, s, p) {
      var j :| 0 <= j < k && ps[a[j].index] == q;
      assert Precedes(amount, ps, a[j], a[k]);
    }
    forall q | q in back ensures q in s && q !in Ahead(amount, s, p) {
      var j :| k <= j < |a| && ps[a[j].index] == q;
      BeforeTotal(amount, p, q);
      if j != k { assert Precedes(amount, ps, a[k], a[j]); }
    }
    AtMost(front, Ahead(amount, s, p));
    AtMost(Ahead(amount, s, p), s - back);
    assert |s - back| == |s| - |back|;
  }

  lemma RankInjective(amount: int, s: set<Party>, p: Party, q: Party)
    requires p in s && q in s && p.id != q.id
    ensures |Ahead(amount, s, p)| != |Ahead(amount, s, q)|
  {
    BeforeTotal(amount, p, q);
    if Before(amount, p, q) { RanksGrow(amount, s, p, q); } else { RanksGrow(amount, s, q, p); }
  }

  lemma RanksGrow(amount: int, s: set<Party>, p: Party, q: Party)
    requires p in s && Before(amount, p, q)
    ensures |Ahead(amount, s, p)| < |Ahead(amount, s, q)|
  {
    BeforeTotal(amount, p, p);
    forall r | r in Ahead(amount, s, p) ensures r in Ahead(amount, s, q) { BeforeTransitive(amount, r, p, q); }
    AtMost(Ahead(amount, s, p) + {p}, Ahead(amount, s, q));
  }

  /** The shares after n rounds of the remainder loop. */
  ghost function SharesAfter(amount: int, ps: seq<Party>, n: int): seq<int> {
    seq(|ps|, i requires 0 <= i < |ps| => Floor(amount, ps[i]) + Extra(amount, PartySet(ps), n, ps[i]))
  }

  /** Round n gives one cent to the party of rank n and to nobody else. */
  lemma RoundStep(amount: int, ps: seq<Party>, a: seq<Remainder>, n: nat)
    requires DistinctIds(ps) && Indexing(amount, ps, a) && Ordered(amount, ps, a) && n < |a|
    ensures var at, old' := a[n].index, SharesAfter(amount, ps, n);
      SharesAfter(amount, ps, n + 1) == old'[at := old'[at] + 1]
  {
    var s, at := PartySet(ps), a[n].index;
    PositionIsRank(amount, ps, a, n);
    forall i | 0 <= i < |ps|
      ensures Extra(amount, s, n + 1, ps[i]) == Extra(amount, s, n, ps[i]) + (if i == at then 1 else 0)
    {
      if i != at { RankInjective(amount, s, ps[i], ps[at]); }
    }
  }

  lemma {:induction false} PrefixFloors(amount: int, ps: seq<Party>, k: nat)
    requires 0 <= amount && RatiosInRange(ps) && k < |ps|
    ensures SumBy(FloorBy(amount), ps[..k + 1]) == SumBy(FloorBy(amount), ps[..k]) + Floor(amount, ps[k])
    ensures 0 <= SumBy(FloorBy(amount), ps[..k]) && 0 <= Floor(amount, ps[k])
    ensures SumBy(FloorBy(amount), ps[..k + 1]) <= SumBy(FloorBy(amount), ps)
  {
    FloorsAppend(amount, ps[..k], [ps[k]]);
    assert ps[..k] + [ps[k]] == ps[..k + 1];
    assert SumBy(FloorBy(amount), [ps[k]]) == Floor(amount, ps[k]);
    FloorsAppend(amount, ps[..k + 1], ps[k + 1..]);
    assert ps[..k + 1] + ps[k + 1..] == ps;
    FloorsNonNegative(amount, ps[..k]);
    FloorsNonNegative(amount, ps[k + 1..]);
    QuotaIsNonNegative(amount, ps[k]);
  }

  lemma {:induction false} FloorsAppend(amount: int, ps: seq<Party>, qs: seq<Party>)
    ensures SumBy(FloorBy(amount), ps + qs) == SumBy(FloorBy(amount), ps) + SumBy(FloorBy(amount), qs)
  {
    if ps == [] {
      assert ps + qs == qs;
    } else {
      FloorsAppend(amount, ps[1..], qs);
      assert (ps + qs)[1..] == ps[1..] + qs;
    }
  }

  lemma {:induction false} FloorsNonNegative(amount: int, ps: seq<Party>)
    requires 0 <= amount && RatiosInRange(ps)
    ensures 0 <= SumBy(FloorBy(amount), ps)
  {
    if ps != [] {
      QuotaIsNonNegative(amount, ps[0]);
      FloorsNonNegative(amount, ps[1..]);
    }
  }

  /** The first loop of the split: whole cents and remainders. */
  method FloorShares(amount: Money, parties: seq<Party>, shares: array<Money>, remainders: array<Remainder>)
    returns (total: Money)
    requires 0 <= amount && ValidParties(parties) && shares.Length == remainders.Length == |parties|
    modifies shares, remainders
    ensures total == amount - Leftover(amount, parties)
    ensures forall k :: 0 <= k < |parties| ==> shares[k] == Floor(amount, parties[k])
    ensures Indexing(amount, parties, remainders[..])
  {
    LeftoverBounds(amount, parties);
    total := 0;
    var i := 0;
    while i < |parties|
      invariant 0 <= i <= |parties|
      invariant total == SumBy(FloorBy(amount), parties[..i])
      invariant forall k :: 0 <= k < i ==> shares[k] == Floor(amount, parties[k])
      invariant forall k :: 0 <= k < i ==> remainders[k] == Remainder(k, Rem(amount, parties[k]))
    {
      PrefixFloors(amount, parties, i);
      var product: int := amount * parties[i].bps;
      shares[i] := product / BPS;
      total := total + shares[i];
      remainders[i] := Remainder(i, product % BPS);
      i := i + 1;
    }
    assert parties[..i] == parties;
  }

  /** Splits an amount in place; the Int64 locals carry the proof that nothing overflows. */
  method Distribute(amount: Money, parties: seq<Party>) returns (shares: array<Money>)
    requires 0 <= amount && ValidParties(parties)
    ensures fresh(shares) && shares[..] == Distributed(amount, parties)
  {
    shares := new Money[|parties|];
    var remainders := new Remainder[|parties|];
    var handedOut := FloorShares(amount, parties, shares, remainders);
    LeftoverBounds(amount, parties);
    SortRemainders(amount, parties, remainders);
    assert shares[..] == SharesAfter(amount, parties, 0);
    HandOut(amount, parties, amount - handedOut, remainders, shares);
  }

  /** The second loop of the split: one cent to each of the first `left` remainders. */
  method HandOut(ghost amount: Money, ghost ps: seq<Party>, left: Money, remainders: array<Remainder>, shares: array<Money>)
    requires 0 <= amount && ValidParties(ps) && left == Leftover(amount, ps)
    requires Indexing(amount, ps, remainders[..]) && Ordered(amount, ps, remainders[..])
    requires shares[..] == SharesAfter(amount, ps, 0)
    modifies shares
    ensures shares[..] == SharesAfter(amount, ps, left)
  {
    LeftoverBounds(amount, ps);
    ghost var order := remainders[..];
    var n: Money := 0;
    while n < left
      invariant 0 <= n <= left
      invariant shares[..] == SharesAfter(amount, ps, n)
      invariant remainders[..] == order
    {
      ghost var was := shares[..];
      var at := remainders[n].index;
      RoundStep(amount, ps, order, n);
      ShareFits(amount, ps, at, n + 1);
      shares[at] := shares[at] + 1;
      assert shares[..] == was[at := was[at] + 1];
      n := n + 1;
    }
  }

  /** During the remainder loop a share never passes its final value, so it stays within the amount. */
  lemma ShareFits(amount: int, ps: seq<Party>, i: nat, steps: int)
    requires ValidParties(ps) && 0 <= amount && i < |ps| && steps <= Leftover(amount, ps)
    ensures 0 <= SharesAfter(amount, ps, steps)[i] <= amount
  {
    DistributedConserves(amount, ps);
    QuotaIsNonNegative(amount, ps[i]);
    assert Distributed(amount, ps)[i] == ShareOf(amount, ps, ps[i]);
  }

  // ---------------------------------------------------- the whole allocation

  ghost predicate ValidRequest(electric: int, service: int, mode: SplitMode, ps: seq<Party>) {
    electric >= 0 && service >= 0 && !mode.UnknownMode? && ValidParties(ps)
  }

  ghost function ElectricShares(electric: int, mode: SplitMode, ps: seq<Party>): (r: seq<int>)
    ensures |r| == |ps|
  {
    if mode.SplitAll? then Distributed(electric, ps) else seq(|ps|, _ => 0)
  }

  /** Fees are split independently; under service-only splitting the electricity is set aside. */
  ghost predicate IsAllocation(electric: int, service: int, mode: SplitMode, ps: seq<Party>, out: Allocated) {
    && |out.shares| == |ps|
    && out.electricExcluded == (if mode.SplitAll? then 0 else electric)
    && forall i :: 0 <= i < |ps| ==>
         out.shares[i].partyId == ps[i].id
         && out.shares[i].electric == ElectricShares(electric, mode, ps)[i]
         && out.shares[i].service == Distributed(service, ps)[i]
  }

  /** The party checks: IDs non-empty and distinct, every ratio in range, ratios summing to 100%. */
  method CheckParties(parties: seq<Party>) returns (failure: Option<SplitError>)
    requires 2 <= |parties| <= 8
    ensures failure.None? <==> ValidParties(parties)
    ensures failure == Some(InvalidSplit) <==> !WellNamed(parties)
    ensures failure.Some? && failure.value.RatioTotal? ==> failure.value.total == SumBy(Bps(), parties)
  {
    var total: Int64, seen: set<string>, i := 0, {}, 0;
    while i < |parties|
      invariant 0 <= i <= |parties|
      invariant 0 <= total <= BPS * i
      invariant seen == set k | 0 <= k < i :: parties[k].id
      invariant DistinctIds(parties[..i]) && RatiosInRange(parties[..i]) && "" !in seen
      invariant total == SumBy(Bps(), parties[..i])
    {
      var p := parties[i];
      if p.id == "" || p.id in seen || p.bps < 0 || p.bps > BPS {
        return Some(InvalidSplit);
      }
      seen := seen + {p.id};
      total := total + p.bps;
      assert parties[..i + 1] == parties[..i] + [p];
      WithParty(parties[..i], p);
      i := i + 1;
    }
    assert parties[..i] == parties;
    failure := if total != BPS then Some(RatioTotal(total)) else None;
  }

  method Allocate(electric: Money, service: Money, mode: SplitMode, parties: seq<Party>)
    returns (r: Result<Allocated, SplitError>)
    ensures r.Ok? <==> ValidRequest(electric, service, mode, parties)
    ensures r.Ok? ==> IsAllocation(electric, service, mode, parties, r.value)
    ensures r.Err? && r.error.RatioTotal? ==>
      WellNamed(parties) && r.error.total == SumBy(Bps(), parties) != BPS
    ensures r == Err(InvalidSplit) && electric >= 0 && service >= 0 && !mode.UnknownMode? && 2 <= |parties| <= 8 ==>
      !WellNamed(parties)
  {
    if electric < 0 || service < 0 || |parties| < 2 || |parties| > 8 || mode.UnknownMode? {
      return Err(InvalidSplit);
    }
    var failure := CheckParties(parties);
    if failure.Some? {
      return Err(failure.value);
    }
    var electricShares: seq<Money> := seq(|parties|, _ => 0);
    var excluded: Money := 0;
    if mode == SplitAll {
      var a := Distribute(electric, parties);
      electricShares := a[..];
    } else {
      excluded := electric;
    }
    var b := Distribute(service, parties);
    var serviceShares: seq<Money> := b[..];
    r := Ok(Allocated(
      seq(|parties|, k requires 0 <= k < |parties| && |parties| == |electricShares| == |serviceShares|
        => Share(parties[k].id, electricShares[k], serviceShares[k])),
      excluded));
  }

  lemma WithParty(ps: seq<Party>, p: Party)
    requires DistinctIds(ps) && RatiosInRange(ps) && 0 <= p.bps <= BPS
    requires forall i :: 0 <= i < |ps| ==> ps[i].id != p.id
    ensures DistinctIds(ps + [p]) && RatiosInRange(ps + [p]) && SumBy(Bps(), ps + [p]) == SumBy(Bps(), ps) + p.bps
  {
    BpsAppend(ps, p);
  }

  lemma {:induction false} BpsAppend(ps: seq<Party>, p: Party)
    ensures SumBy(Bps(), ps + [p]) == SumBy(Bps(), ps) + p.bps
  {
    if ps == [] {
      assert ps + [p] == [p];
    } else {
      BpsAppend(ps[1..], p);
      assert (ps + [p])[1..] == ps[1..] + [p];
    }
  }

  function ElectricTotal(shares: seq<Share>): int {
    if shares == [] then 0 else shares[0].electric + ElectricTotal(shares[1..])
  }

  function ServiceTotal(shares: seq<Share>): int {
    if shares == [] then 0 else shares[0].service + ServiceTotal(shares[1..])
  }

  lemma {:induction false} TotalsAreSums(shares: seq<Share>, es: seq<int>, ss: seq<int>)
    requires |shares| == |es| == |ss|
    requires forall i :: 0 <= i < |shares| ==> shares[i].electric == es[i] && shares[i].service == ss[i]
    ensures ElectricTotal(shares) == Sum(es) && ServiceTotal(shares) == Sum(ss)
  {
    if shares != [] { TotalsAreSums(shares[1..], es[1..], ss[1..]); }
  }

  lemma {:induction false} ZerosSum(s: seq<int>)
    requires forall i :: 0 <= i < |s| ==> s[i] == 0
    ensures Sum(s) == 0
  {
    if s != [] { ZerosSum(s[1..]); }
  }

  /** Every cent of both fees is accounted for, whatever the mode. */
  lemma AllocationConserves(electric: int, service: int, mode: SplitMode, ps: seq<Party>, out: Allocated)
    requires ValidRequest(electric, service, mode, ps) && IsAllocation(electric, service, mode, ps, out)
    ensures ElectricTotal(out.shares) + out.electricExcluded == electric
    ensures ServiceTotal(out.shares) == service
    ensures mode == SplitAll ==> out.electricExcluded == 0
    ensures mode == SplitServiceOnly ==> ElectricTotal(out.shares) == 0
  {
    var es := ElectricShares(electric, mode, ps);
    TotalsAreSums(out.shares, es, Distributed(service, ps));
    DistributedConserves(service, ps);
    if mode.SplitAll? { DistributedConserves(electric, ps); } else { ZerosSum(es); }
  }
}
