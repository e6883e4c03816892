/**
 * Round after round of the settlement backlog: which calculations a round reaches
 * (internal/central/billing/service.go:160-204, internal/central/billing/settlement.go:176-188).
 */
module Backlog {
  import opened Basics
  import opened Settlement

  /** A round asks for the oldest 50 unsettled calculations. */
  const LIMIT: nat := 50

  function Keep(q: seq<nat>, drop: nat -> bool): seq<nat> {
    if q == [] then [] else (if drop(q[0]) then [] else [q[0]]) + Keep(q[1..], drop)
  }

  function Take(q: seq<nat>, n: nat): seq<nat> { if |q| <= n then q else q[..n] }

  function Skip(q: seq<nat>, n: nat): seq<nat> { if |q| <= n then [] else q[n..] }

  /** What a round leaves of the unsettled calculations: it books the settleable ones of its batch. */
  function Left(q: seq<nat>, settleable: nat -> bool): seq<nat> { Keep(Take(q, LIMIT), settleable) + Skip(q, LIMIT) }

  ghost predicate NoRepeat(q: seq<nat>) { forall j, k :: 0 <= j < k < |q| ==> q[j] != q[k] }

  // ------------------------------------------------------------- one round, stored

  /** The unsettled calculations, oldest first. */
  ghost function Unsettled(order: seq<nat>, settlements: seq<SettlementRow>): seq<nat> { Keep(order, SettledIn(settlements)) }

  ghost function SettledIn(settlements: seq<SettlementRow>): nat -> bool { (id: nat) => Find(settlements, id).Some? }

  ghost function SettleableBy(calculations: map<nat, Calculation>, templates: map<nat, Template>): nat -> bool {
    (id: nat) => Settleable(calculations, templates, id)
  }

  lemma {:induction false} KeepMembers(q: seq<nat>, drop: nat -> bool)
    ensures forall id :: id in Keep(q, drop) <==> id in q && !drop(id)
    ensures NoRepeat(q) ==> NoRepeat(Keep(q, drop))
  {
    if q != [] {
      KeepMembers(q[1..], drop);
      assert q == [q[0]] + q[1..];
    }
  }

  /** Keeping twice is keeping by both criteria. */
  lemma {:induction false} KeepTwice(q: seq<nat>, first: nat -> bool, second: nat -> bool, both: nat -> bool)
    requires forall id :: id in q ==> (both(id) <==> first(id) || second(id))
    ensures Keep(Keep(q, first), second) == Keep(q, both)
  {
    if q != [] {
      KeepTwice(q[1..], first, second, both);
      var tail := Keep(q[1..], first);
      if first(q[0]) {
        assert Keep(q, first) == [] + tail == tail;
      } else {
        assert Keep(q, first) == [q[0]] + tail && ([q[0]] + tail)[1..] == tail;
      }
    }
  }

  lemma Regroup(a: seq<nat>, b: seq<nat>, c: seq<nat>)
    ensures a + b + c == a + (b + c)
  {}

  lemma {:induction false} KeepSplit(q: seq<nat>, r: seq<nat>, drop: nat -> bool)
    ensures Keep(q + r, drop) == Keep(q, drop) + Keep(r, drop)
  {
    if q == [] {
      assert q + r == r;
    } else {
      KeepSplit(q[1..], r, drop);
      assert (q + r)[0] == q[0] && (q + r)[1..] == q[1..] + r;
      Regroup(if drop(q[0]) then [] else [q[0]], Keep(q[1..], drop), Keep(r, drop));
    }
  }

  lemma {:induction false} KeepAgrees(q: seq<nat>, drop: nat -> bool, drop': nat -> bool)
    requires forall id :: id in q ==> drop(id) == drop'(id)
    ensures Keep(q, drop) == Keep(q, drop')
  {
    if q != [] { KeepAgrees(q[1..], drop, drop'); }
  }

  lemma {:induction false} KeepAll(q: seq<nat>, drop: nat -> bool)
    requires forall id :: id in q ==> !drop(id)
    ensures Keep(q, drop) == q
  {
    if q != [] { KeepAll(q[1..], drop); }
  }

  /** Dropping from a queue only what its batch can settle. */
  lemma LeftIsKeep(q: seq<nat>, settleable: nat -> bool, gone: nat -> bool)
    requires NoRepeat(q) && forall id :: id in q ==> (gone(id) <==> id in Take(q, LIMIT) && settleable(id))
    ensures Left(q, settleable) == Keep(q, gone)
  {
    assert q == Take(q, LIMIT) + Skip(q, LIMIT);
    KeepSplit(Take(q, LIMIT), Skip(q, LIMIT), gone);
    KeepAgrees(Take(q, LIMIT), gone, settleable);
    forall id | id in Skip(q, LIMIT) ensures !gone(id) {
      if id in Take(q, LIMIT) { Apart(q, id); }
    }
    KeepAll(Skip(q, LIMIT), gone);
  }

  lemma Apart(q: seq<nat>, id: nat)
    requires NoRepeat(q) && id in Take(q, LIMIT)
    ensures id !in Skip(q, LIMIT)
  {}

  /** One round on the store: `order` lists all calculations by time of creation. */
  method Round(store: Store, order: seq<nat>, templates: map<nat, Template>, due: seq<nat>)
    requires Consistent(store.View()) && NoRepeat(order) && forall id :: id in order ==> id in store.calculations
    requires due == Take(Unsettled(order, store.settlements), LIMIT)
    modifies store
    ensures store.calculations == old(store.calculations) && Consistent(store.View())
    ensures Unsettled(order, store.settlements) ==
      Left(old(Unsettled(order, store.settlements)), SettleableBy(store.calculations, templates))
  {
    ghost var before := store.settlements;
    DueIsPending(order, before, due);
    var count, failure := store.SettleBacklog(due, templates);
    RoundLeaves(order, before, store.settlements, store.calculations, templates);
  }

  lemma DueIsPending(order: seq<nat>, settlements: seq<SettlementRow>, due: seq<nat>)
    requires NoRepeat(order) && due == Take(Unsettled(order, settlements), LIMIT)
    ensures NoRepeat(due) && forall id :: id in due ==> id in order && Find(settlements, id).None?
  {
    KeepMembers(order, SettledIn(settlements));
    forall id | id in due ensures id in order && Find(settlements, id).None? {
      assert id in Unsettled(order, settlements);
      assert !SettledIn(settlements)(id);
    }
  }

  lemma RoundLeaves(
      order: seq<nat>, before: seq<SettlementRow>, after: seq<SettlementRow>, calculations: map<nat, Calculation>, templates: map<nat, Template>)
    requires NoRepeat(order)
    requires var due := Take(Unsettled(order, before), LIMIT);
      forall id: nat :: if id in due then (Find(after, id).Some? <==> Settleable(calculations, templates, id))
                        else Find(after, id) == Find(before, id)
    ensures Unsettled(order, after) == Left(Unsettled(order, before), SettleableBy(calculations, templates))
  {
    var q := Unsettled(order, before);
    var ok := SettleableBy(calculations, templates);
    var gone: nat -> bool := (id: nat) => id in Take(q, LIMIT) && ok(id);
    KeepMembers(order, SettledIn(before));
    forall id | id in order ensures SettledIn(after)(id) <==> SettledIn(before)(id) || gone(id) {
      if id in Take(q, LIMIT) { assert id in q; }
    }
    KeepTwice(order, SettledIn(before), gone, SettledIn(after));
    LeftIsKeep(q, ok, gone);
  }

  // -------------------------------------------------------------- round after round

  /** Between rounds newer calculations join the end; the templates stay as they are. */
  ghost predicate Rounds(run: seq<seq<nat>>, settleable: nat -> bool) {
    run != [] && forall k :: 0 <= k < |run| - 1 ==> Left(run[k], settleable) <= run[k + 1]
  }

  /** What a round leaves of those before a calculation that it does not reach. */
  function Ahead(p: seq<nat>, settleable: nat -> bool): seq<nat>
    requires |p| >= LIMIT
  {
    Keep(p[..LIMIT], settleable) + p[LIMIT..]
  }

  lemma NotReached(p: seq<nat>, c: nat, r: seq<nat>, settleable: nat -> bool)
    requires |p| >= LIMIT
    ensures Left(p + [c] + r, settleable) == Ahead(p, settleable) + [c] + r
  {
    var q := p + [c] + r;
    assert q[..LIMIT] == p[..LIMIT] && q[LIMIT..] == p[LIMIT..] + [c] + r;
  }

  lemma {:induction false} KeepShrinks(q: seq<nat>, drop: nat -> bool)
    ensures |Keep(q, drop)| <= |q|
    ensures |Keep(q, drop)| < |q| || Keep(q, drop) == q
  {
    if q != [] { KeepShrinks(q[1..], drop); }
  }

  /** The unsettleable ones stay, and unless they fill the batch somebody leaves. */
  lemma AheadShrinks(p: seq<nat>, settleable: nat -> bool)
    requires |p| >= LIMIT
    ensures Keep(Ahead(p, settleable), settleable) == Keep(p, settleable)
    ensures |Keep(p, settleable)| < LIMIT ==> |Ahead(p, settleable)| < |p|
  {
    var batch, rest := p[..LIMIT], p[LIMIT..];
    assert p == batch + rest;
    KeepSplit(batch, rest, settleable);
    KeepSplit(Keep(batch, settleable), rest, settleable);
    KeepTwice(batch, settleable, settleable, settleable);
    KeepShrinks(batch, settleable);
  }

  ghost predicate Queued(q: seq<nat>, p: seq<nat>, c: nat) { p + [c] <= q }

  /** A round that does not reach a calculation leaves it queued behind what stays ahead of it. */
  lemma StaysQueued(q: seq<nat>, q': seq<nat>, p: seq<nat>, c: nat, settleable: nat -> bool)
    requires Queued(q, p, c) && |p| >= LIMIT && Left(q, settleable) <= q'
    ensures Queued(q', Ahead(p, settleable), c)
  {
    var r := q[|p| + 1..];
    assert q == p + [c] + r;
    NotReached(p, c, r, settleable);
  }

  /** Fewer than 50 unsettleable calculations ahead: after at most as many rounds as there are ahead, the calculation is reached. */
  lemma {:induction false} Reached(run: seq<seq<nat>>, p: seq<nat>, c: nat, settleable: nat -> bool) returns (k: nat)
    requires Rounds(run, settleable) && |run| > |p| && Queued(run[0], p, c)
    requires |Keep(p, settleable)| < 50
    ensures k < |run| && c in Take(run[k], 50)
    decreases |p|
  {
    if |p| < LIMIT {
      assert run[0][|p|] == c;
      k := 0;
      assert c == Take(run[0], LIMIT)[|p|];
    } else {
      AheadShrinks(p, settleable);
      assert Left(run[0], settleable) <= run[1];
      StaysQueued(run[0], run[1], p, c, settleable);
      var later := run[1..];
      forall n | 0 <= n < |later| - 1 ensures Left(later[n], settleable) <= later[n + 1] {
        assert Left(run[n + 1], settleable) <= run[n + 2];
      }
      k := Reached(later, Ahead(p, settleable), c, settleable);
      k := k + 1;
    }
  }

  /** With 50 or more of them ahead no round ever reaches it. */
  lemma {:induction false} Starved(run: seq<seq<nat>>, p: seq<nat>, c: nat, settleable: nat -> bool, k: nat)
    requires Rounds(run, settleable) && k < |run| && NoRepeat(run[k]) && Queued(run[0], p, c)
    requires |Keep(p, settleable)| >= 50
    ensures c in run[k] && c !in Take(run[k], 50)
    decreases k
  {
    KeepShrinks(p, settleable);
    if k == 0 {
      assert run[0][|p|] == c;
    } else {
      AheadShrinks(p, settleable);
      assert Left(run[0], settleable) <= run[1];
      StaysQueued(run[0], run[1], p, c, settleable);
      var later := run[1..];
      forall n | 0 <= n < |later| - 1 ensures Left(later[n], settleable) <= later[n + 1] {
        assert Left(run[n + 1], settleable) <= run[n + 2];
      }
      Starved(later, Ahead(p, settleable), c, settleable, k - 1);
    }
  }
}
