/** Reconciling the internal ledger with the channel's report (internal/central/admin/finance_ops.go). */
module Reconcile {
  import opened Basics

  datatype Amount = Amount(ref: string, cents: Int64)

  datatype Reason = AmountsDiffer | NoInternalRecord

  datatype Diff = Diff(ref: string, internal: Int64, channel: Int64, reason: Reason)

  type Ledger = map<string, Int64>

  /** The differences found so far, their number and what they add up to. */
  datatype Found = Found(diffs: seq<Diff>, count: nat, cents: Int64)

  datatype Outcome = Outcome(
    found: Found, internalCount: nat, externalCount: nat, internalCents: Int64, externalCents: Int64)

  /** Go's map read: a missing key counts as 0. */
  function Get(m: Ledger, ref: string): Int64 { if ref in m then m[ref] else 0 }

  /** int64 addition and subtraction. */
  function Plus(x: int, y: int): Int64 { Wrap64(x + y) }

  function Minus(x: int, y: int): Int64 { Wrap64(x - y) }

  // ---------------------------------------------------------------- aggregation

  /** Amounts by reference; rows without a reference do not count. */
  function Index(rows: seq<Amount>): Ledger {
    if rows == [] then map[]
    else
      var n := |rows| - 1;
      var rest := Index(rows[..n]);
      if rows[n].ref == "" then rest else Counted(rest, rows[n])
  }

  function Counted(m: Ledger, row: Amount): Ledger { m[row.ref := Wrap64(Get(m, row.ref) + row.cents)] }

  lemma IndexStep(rows: seq<Amount>, i: nat)
    requires i < |rows|
    ensures Index(rows[..i + 1]) == if rows[i].ref == "" then Index(rows[..i]) else Counted(Index(rows[..i]), rows[i])
  {
    assert rows[..i + 1][..i] == rows[..i];
  }

  method IndexAmounts(rows: seq<Amount>) returns (out: Ledger)
    ensures out == Index(rows)
  {
    out := map[];
    var i := 0;
    while i < |rows|
      invariant 0 <= i <= |rows|
      invariant out == Index(rows[..i])
    {
      IndexStep(rows, i);
      if rows[i].ref != "" { out := Counted(out, rows[i]); }
      i := i + 1;
    }
    assert rows[..i] == rows;
  }

  const MAX_ROWS: nat := 2000

  /** The channel's report: one to 2000 rows, each with a valid reference; `valid` refuses the empty one. */
  method CollectChannel(rows: seq<Amount>, valid: string -> bool) returns (r: Result<Ledger, ()>)
    requires !valid("")
    ensures r.Ok? <==> 1 <= |rows| <= 2000 && forall k :: 0 <= k < |rows| ==> valid(rows[k].ref)
    ensures r.Ok? ==> r.value == Index(rows)
  {
    if |rows| == 0 || |rows| > MAX_ROWS { return Err(()); }
    var channel: Ledger, i := map[], 0;
    while i < |rows|
      invariant 0 <= i <= |rows|
      invariant channel == Index(rows[..i])
      invariant forall k :: 0 <= k < i ==> valid(rows[k].ref)
    {
      if !valid(rows[i].ref) { return Err(()); }
      IndexStep(rows, i);
      channel := Counted(channel, rows[i]);
      i := i + 1;
    }
    assert rows[..i] == rows;
    r := Ok(channel);
  }

  /** The exact sum of the rows that a predicate picks by reference. */
  function Total(rows: seq<Amount>, picks: string -> bool): int {
    if rows == [] then 0
    else
      var n := |rows| - 1;
      Total(rows[..n], picks) + if picks(rows[n].ref) then rows[n].cents else 0
  }

  /** Aggregation keeps every reference's sum, modulo 64 bits. */
  lemma {:induction false} IndexKeepsSums(rows: seq<Amount>, ref: string)
    ensures ref in Index(rows) <==> ref != "" && exists k :: 0 <= k < |rows| && rows[k].ref == ref
    ensures ref != "" ==> Get(Index(rows), ref) == Wrap64(Total(rows, r => r == ref))
  {
    if rows != [] {
      var n := |rows| - 1;
      IndexKeepsSums(rows[..n], ref);
      WrapSum(Total(rows[..n], r => r == ref), rows[n].cents);
      TotalStep(rows, r => r == ref);
    }
  }

  lemma TotalStep(rows: seq<Amount>, picks: string -> bool)
    requires rows != []
    ensures Total(rows, picks) == Total(rows[..|rows| - 1], picks) + if picks(rows[|rows| - 1].ref) then rows[|rows| - 1].cents else 0
  {}

  /** Adding to one entry, wrapped, adds to the wrapped total. */
  lemma WrappedUpdate(others: int, entry: int, x: int, exact: int)
    requires Wrap64(others + entry) == Wrap64(exact)
    ensures Wrap64(others + Wrap64(entry + x)) == Wrap64(exact + x)
  {
    var i := WrapShift(entry + x);
    var j := WrapShift(others + entry);
    var k := WrapShift(exact);
    WrapPeriodic(exact + x, k - j + i);
  }

  /** How one row changes the aggregated total. */
  lemma UpdatedTotal(rest: Ledger, row: Amount, before: int, exact: int, exact1: int)
    requires before == MapSum(rest) && Wrap64(before) == Wrap64(exact) && exact1 == exact + row.cents
    ensures Wrap64(MapSum(Counted(rest, row))) == Wrap64(exact1)
  {
    var ref := row.ref;
    var x: int := row.cents;
    var entry := Get(rest, ref);
    var entry1 := Wrap64(entry + x);
    MapSumUpdate(rest, ref, entry1);
    WrappedUpdate(before - entry, entry, x, exact);
    Renamed(Wrap64(exact + x), before - entry + entry1, MapSum(rest[ref := entry1]));
    Renamed(Wrap64(exact + x), exact + x, exact1);
  }

  /** And the sum of everything that has a reference. */
  lemma {:induction false} IndexKeepsTotal(rows: seq<Amount>)
    ensures Wrap64(MapSum(Index(rows))) == Wrap64(Total(rows, r => r != ""))
  {
    if rows != [] {
      var n := |rows| - 1;
      var rest := Index(rows[..n]);
      IndexKeepsTotal(rows[..n]);
      TotalStep(rows, r => r != "");
      if rows[n].ref != "" {
        UpdatedTotal(rest, rows[n], MapSum(rest), Total(rows[..n], r => r != ""), Total(rows, r => r != ""));
      }
    }
  }

  lemma Renamed(cents: Int64, x: int, y: int)
    requires cents == Wrap64(x) && x == y
    ensures cents == Wrap64(y)
  {}

  // ----------------------------------------------------------------- comparison

  /** A reference is in dispute if its amounts differ or only the channel knows it. */
  predicate Disputed(internal: Ledger, channel: Ledger, ref: string) {
    (ref in internal && Get(channel, ref) != internal[ref]) || (ref in channel && ref !in internal)
  }

  function DiffOf(internal: Ledger, channel: Ledger, ref: string): Diff {
    Diff(ref, Get(internal, ref), Get(channel, ref), if ref in internal then AmountsDiffer else NoInternalRecord)
  }

  /** The differences of the references in `done`, each once, in any order. */
  ghost predicate Lists(diffs: seq<Diff>, internal: Ledger, channel: Ledger, done: set<string>) {
    && (forall k :: 0 <= k < |diffs| ==>
         diffs[k].ref in done && Disputed(internal, channel, diffs[k].ref) && diffs[k] == DiffOf(internal, channel, diffs[k].ref))
    && (forall j, k :: 0 <= j < k < |diffs| ==> diffs[j].ref != diffs[k].ref)
    && (forall ref :: ref in done && Disputed(internal, channel, ref) ==> DiffOf(internal, channel, ref) in diffs)
  }

  function Within(m: Ledger, keys: set<string>): Ledger { map ref | ref in m && ref in keys :: m[ref] }

  /** Channel minus internal over a set of references. */
  ghost function Gap(internal: Ledger, channel: Ledger, keys: set<string>): int {
    MapSum(Within(channel, keys)) - MapSum(Within(internal, keys))
  }

  lemma WithinMore(m: Ledger, keys: set<string>, ref: string)
    requires ref !in keys
    ensures MapSum(Within(m, keys + {ref})) == MapSum(Within(m, keys)) + Get(m, ref)
  {
    if ref in m {
      assert Within(m, keys + {ref}) == Within(m, keys)[ref := m[ref]];
      MapSumUpdate(Within(m, keys), ref, m[ref]);
    } else {
      assert Within(m, keys + {ref}) == Within(m, keys);
    }
  }

  lemma WithinAll(m: Ledger, keys: set<string>)
    requires m.Keys <= keys
    ensures Within(m, keys) == m
  {}

  lemma GapMore(internal: Ledger, channel: Ledger, keys: set<string>, ref: string)
    requires ref !in keys
    ensures Gap(internal, channel, keys + {ref}) == Gap(internal, channel, keys) + Get(channel, ref) - Get(internal, ref)
  {
    WithinMore(internal, keys, ref);
    WithinMore(channel, keys, ref);
  }

  lemma ListsMore(diffs: seq<Diff>, internal: Ledger, channel: Ledger, done: set<string>, ref: string)
    requires Lists(diffs, internal, channel, done) && ref !in done
    ensures Disputed(internal, channel, ref) ==>
      Lists(diffs + [DiffOf(internal, channel, ref)], internal, channel, done + {ref})
    ensures !Disputed(internal, channel, ref) ==> Lists(diffs, internal, channel, done + {ref})
  {
    var longer := diffs + [DiffOf(internal, channel, ref)];
    assert forall d :: d in longer <==> d in diffs || d == DiffOf(internal, channel, ref);
  }

  function Add(f: Found, d: Diff): Found { Found(f.diffs + [d], f.count + 1, Plus(f.cents, Minus(d.channel, d.internal))) }

  function Note(f: Found, internal: Ledger, channel: Ledger, ref: string): Found {
    if Disputed(internal, channel, ref) then Add(f, DiffOf(internal, channel, ref)) else f
  }

  /** The first loop: every internal reference. */
  function NoteAll(f: Found, internal: Ledger, channel: Ledger, order: seq<string>): Found
    decreases |order|
  {
    if order == [] then f else NoteAll(Note(f, internal, channel, order[0]), internal, channel, order[1..])
  }

  /** The second loop: the channel's references that the first did not see. */
  function NoteUnseen(f: Found, internal: Ledger, channel: Ledger, order: seq<string>): Found
    decreases |order|
  {
    if order == [] then f
    else NoteUnseen(if order[0] in internal then f else Note(f, internal, channel, order[0]), internal, channel, order[1..])
  }

  /** The keys of a ledger in the arbitrary order of a Go map iteration. */
  ghost predicate Iterates(order: seq<string>, m: Ledger) {
    (forall ref :: ref in order <==> ref in m) && NoRepeat(order)
  }

  ghost predicate NoRepeat(order: seq<string>) {
    forall j, k :: 0 <= j < k < |order| ==> order[j] != order[k]
  }

  /** What the loops have established once the references in `done` are dealt with. */
  ghost predicate Progress(f: Found, internal: Ledger, channel: Ledger, done: set<string>) {
    Lists(f.diffs, internal, channel, done) && f.count == |f.diffs| && f.cents == Wrap64(Gap(internal, channel, done))
  }

  lemma CentsMore(internal: Ledger, channel: Ledger, done: set<string>, ref: string, cents: Int64)
    requires ref !in done && cents == Wrap64(Gap(internal, channel, done))
    ensures Plus(cents, Minus(Get(channel, ref), Get(internal, ref))) == Wrap64(Gap(internal, channel, done + {ref}))
    ensures Get(channel, ref) == Get(internal, ref) ==> cents == Wrap64(Gap(internal, channel, done + {ref}))
  {
    GapMore(internal, channel, done, ref);
    WrapSum(Gap(internal, channel, done), Get(channel, ref) - Get(internal, ref));
  }

  lemma NoteProgress(f: Found, internal: Ledger, channel: Ledger, done: set<string>, ref: string)
    requires Progress(f, internal, channel, done) && ref !in done && (ref in internal || ref in channel)
    ensures Progress(Note(f, internal, channel, ref), internal, channel, done + {ref})
  {
    CentsMore(internal, channel, done, ref, f.cents);
    ListsMore(f.diffs, internal, channel, done, ref);
  }

  function Keys(order: seq<string>): set<string> { set ref | ref in order }

  lemma KeysFirst(order: seq<string>)
    requires order != [] && NoRepeat(order)
    ensures Keys(order) == {order[0]} + Keys(order[1..]) && order[0] !in Keys(order[1..]) && NoRepeat(order[1..])
  {
    assert order == [order[0]] + order[1..];
  }

  lemma {:induction false} NoteAllProgress(f: Found, internal: Ledger, channel: Ledger, done: set<string>, order: seq<string>)
    requires Progress(f, internal, channel, done) && NoRepeat(order) && Keys(order) !! done && Keys(order) <= internal.Keys
    ensures Progress(NoteAll(f, internal, channel, order), internal, channel, done + Keys(order))
    decreases |order|
  {
    if order == [] {
      assert done + Keys(order) == done;
    } else {
      KeysFirst(order);
      NoteProgress(f, internal, channel, done, order[0]);
      NoteAllProgress(Note(f, internal, channel, order[0]), internal, channel, done + {order[0]}, order[1..]);
      assert done + {order[0]} + Keys(order[1..]) == done + Keys(order);
    }
  }

  lemma {:induction false} NoteUnseenProgress(f: Found, internal: Ledger, channel: Ledger, done: set<string>, order: seq<string>)
    requires Progress(f, internal, channel, done) && NoRepeat(order) && Keys(order) <= channel.Keys
    requires internal.Keys <= done && Keys(order) * done <= internal.Keys
    ensures Progress(NoteUnseen(f, internal, channel, order), internal, channel, done + Keys(order))
    decreases |order|
  {
    if order == [] {
      assert done + Keys(order) == done;
    } else {
      var ref := order[0];
      KeysFirst(order);
      if ref in internal {
        NoteUnseenProgress(f, internal, channel, done, order[1..]);
        assert done + Keys(order[1..]) == done + Keys(order);
      } else {
        NoteProgress(f, internal, channel, done, ref);
        NoteUnseenProgress(Note(f, internal, channel, ref), internal, channel, done + {ref}, order[1..]);
        assert done + {ref} + Keys(order[1..]) == done + Keys(order);
      }
    }
  }

  lemma NothingYet(internal: Ledger, channel: Ledger)
    ensures Progress(Found([], 0, 0), internal, channel, {})
  {
    assert Within(internal, {}) == map[] && Within(channel, {}) == map[];
  }

  lemma IteratedKeys(order: seq<string>, m: Ledger)
    requires Iterates(order, m)
    ensures Keys(order) == m.Keys && {} + Keys(order) == m.Keys
  {}

  /** Whatever the iteration orders: every disputed reference is listed once and correctly, and the cents are channel minus internal. */
  lemma LoopsFindAll(internal: Ledger, channel: Ledger, internalOrder: seq<string>, channelOrder: seq<string>)
    requires Iterates(internalOrder, internal) && Iterates(channelOrder, channel)
    ensures var f := NoteUnseen(NoteAll(Found([], 0, 0), internal, channel, internalOrder), internal, channel, channelOrder);
      && Lists(f.diffs, internal, channel, internal.Keys + channel.Keys) && f.count == |f.diffs|
      && f.cents == Wrap64(MapSum(channel) - MapSum(internal))
  {
    IteratedKeys(internalOrder, internal);
    IteratedKeys(channelOrder, channel);
    NothingYet(internal, channel);
    NoteAllProgress(Found([], 0, 0), internal, channel, {}, internalOrder);
    SecondLoop(NoteAll(Found([], 0, 0), internal, channel, internalOrder), internal, channel, channelOrder);
  }

  lemma SecondLoop(f: Found, internal: Ledger, channel: Ledger, order: seq<string>)
    requires Progress(f, internal, channel, internal.Keys) && NoRepeat(order) && Keys(order) == channel.Keys
    ensures var after := NoteUnseen(f, internal, channel, order);
      && Lists(after.diffs, internal, channel, internal.Keys + channel.Keys) && after.count == |after.diffs|
      && after.cents == Wrap64(MapSum(channel) - MapSum(internal))
  {
    NoteUnseenProgress(f, internal, channel, internal.Keys, order);
    AllProgress(NoteUnseen(f, internal, channel, order), internal, channel);
  }

  lemma AllProgress(f: Found, internal: Ledger, channel: Ledger)
    requires Progress(f, internal, channel, internal.Keys + channel.Keys)
    ensures Lists(f.diffs, internal, channel, internal.Keys + channel.Keys) && f.count == |f.diffs|
    ensures f.cents == Wrap64(MapSum(channel) - MapSum(internal))
  {
    WithinAll(internal, internal.Keys + channel.Keys);
    WithinAll(channel, internal.Keys + channel.Keys);
    CentsAll(internal, channel, internal.Keys + channel.Keys, f.cents);
  }

  lemma CentsAll(internal: Ledger, channel: Ledger, all: set<string>, cents: Int64)
    requires cents == Wrap64(Gap(internal, channel, all))
    requires Within(internal, all) == internal && Within(channel, all) == channel
    ensures cents == Wrap64(MapSum(channel) - MapSum(internal))
  {}

  function OrderSum(m: Ledger, order: seq<string>): int
    requires forall ref :: ref in order ==> ref in m
  {
    if order == [] then 0 else OrderSum(m, order[..|order| - 1]) + m[order[|order| - 1]]
  }

  lemma {:induction false} OrderSumWithin(m: Ledger, order: seq<string>)
    requires NoRepeat(order) && forall ref :: ref in order ==> ref in m
    ensures OrderSum(m, order) == MapSum(Within(m, Keys(order)))
  {
    if order == [] {
      assert Within(m, Keys(order)) == map[];
    } else {
      var n := |order| - 1;
      OrderSumWithin(m, order[..n]);
      assert order == order[..n] + [order[n]];
      assert Keys(order) == Keys(order[..n]) + {order[n]};
      WithinMore(m, Keys(order[..n]), order[n]);
    }
  }

  lemma OrderSumIsTotal(m: Ledger, order: seq<string>)
    requires Iterates(order, m)
    ensures OrderSum(m, order) == MapSum(m)
  {
    OrderSumWithin(m, order);
    WithinAll(m, Keys(order));
  }

  /** A ledger's total, in any order. */
  method CentsOf(m: Ledger, order: seq<string>) returns (cents: Int64)
    requires Iterates(order, m)
    ensures cents == Wrap64(MapSum(m))
  {
    cents := 0;
    var i := 0;
    while i < |order|
      invariant 0 <= i <= |order|
      invariant cents == Wrap64(OrderSum(m, order[..i]))
    {
      assert order[..i + 1][..i] == order[..i];
      WrapSum(OrderSum(m, order[..i]), m[order[i]]);
      cents := Wrap64(cents + m[order[i]]);
      i := i + 1;
    }
    assert order[..i] == order;
    OrderSumIsTotal(m, order);
  }

  method CompareInternal(internal: Ledger, channel: Ledger, order: seq<string>) returns (f: Found)
    requires Iterates(order, internal)
    ensures f == NoteAll(Found([], 0, 0), internal, channel, order)
  {
    f := Found([], 0, 0);
    var i := 0;
    while i < |order|
      invariant 0 <= i <= |order|
      invariant NoteAll(Found([], 0, 0), internal, channel, order) == NoteAll(f, internal, channel, order[i..])
    {
      var ref := order[i];
      assert order[i..][1..] == order[i + 1..];
      if Get(channel, ref) != internal[ref] {
        f := Add(f, Diff(ref, internal[ref], Get(channel, ref), AmountsDiffer));
      }
      i := i + 1;
    }
  }

  method CompareChannel(before: Found, internal: Ledger, channel: Ledger, order: seq<string>) returns (f: Found)
    requires Iterates(order, channel)
    ensures f == NoteUnseen(before, internal, channel, order)
  {
    f := before;
    var i := 0;
    while i < |order|
      invariant 0 <= i <= |order|
      invariant NoteUnseen(before, internal, channel, order) == NoteUnseen(f, internal, channel, order[i..])
    {
      var ref := order[i];
      assert order[i..][1..] == order[i + 1..];
      if ref !in internal {
        f := Add(f, Diff(ref, 0, channel[ref], NoInternalRecord));
      }
      i := i + 1;
    }
  }

  /** The recorded difference is the recorded channel total minus the recorded internal one, in 64-bit arithmetic. */
  lemma RecordedBalance(x: int, y: int, cents: Int64, external: Int64, internal: Int64)
    requires cents == Wrap64(x - y) && external == Wrap64(x) && internal == Wrap64(y)
    ensures cents == Wrap64(external - internal)
  {
    WrapDifference(x, y);
  }

  lemma LoopsBalance(internal: Ledger, channel: Ledger, f: Found, external: Int64, own: Int64)
    requires f.cents == Wrap64(MapSum(channel) - MapSum(internal))
    requires external == Wrap64(MapSum(channel)) && own == Wrap64(MapSum(internal))
    ensures f.cents == Minus(external, own)
  {
    RecordedBalance(MapSum(channel), MapSum(internal), f.cents, external, own);
  }

  /** The four loops; each may run through its map in its own order. */
  method ReconcileType(internal: Ledger, channel: Ledger, orders: (seq<string>, seq<string>, seq<string>, seq<string>)) returns (out: Outcome)
    requires Iterates(orders.0, internal) && Iterates(orders.1, channel) && Iterates(orders.2, internal) && Iterates(orders.3, channel)
    ensures Lists(out.found.diffs, internal, channel, internal.Keys + channel.Keys) && out.found.count == |out.found.diffs|
    ensures out.internalCents == Wrap64(MapSum(internal)) && out.externalCents == Wrap64(MapSum(channel))
    ensures out.found.cents == Minus(out.externalCents, out.internalCents)
    ensures out.internalCount == |internal| && out.externalCount == |channel|
  {
    var f := CompareInternal(internal, channel, orders.0);
    f := CompareChannel(f, internal, channel, orders.1);
    LoopsFindAll(internal, channel, orders.0, orders.1);
    var internalCents := CentsOf(internal, orders.2);
    var externalCents := CentsOf(channel, orders.3);
    LoopsBalance(internal, channel, f, externalCents, internalCents);
    out := Outcome(f, |internal|, |channel|, internalCents, externalCents);
  }

  // ------------------------------------------------------- what the outcome means

  /** The books agree: every reference has the same amount on both sides, a missing one counting as 0. */
  predicate Agree(internal: Ledger, channel: Ledger) {
    (forall ref :: ref in internal ==> Get(channel, ref) == internal[ref]) && (forall ref :: ref in channel ==> Get(internal, ref) == channel[ref])
  }

  /** No difference is listed exactly if the books agree and the channel knows no reference that is unknown internally. */
  lemma NoDiffsExactly(diffs: seq<Diff>, internal: Ledger, channel: Ledger)
    requires Lists(diffs, internal, channel, internal.Keys + channel.Keys)
    ensures diffs == [] <==> Agree(internal, channel) && channel.Keys <= internal.Keys
  {
    if diffs == [] {
      forall ref | ref in internal.Keys + channel.Keys ensures !Disputed(internal, channel, ref) {
        assert DiffOf(internal, channel, ref) !in diffs;
      }
    } else {
      assert Disputed(internal, channel, diffs[0].ref);
    }
  }

  /** A reference is listed exactly if its amounts differ or only the channel has it, with both amounts and the reason. */
  lemma ListedExactly(diffs: seq<Diff>, internal: Ledger, channel: Ledger, ref: string)
    requires Lists(diffs, internal, channel, internal.Keys + channel.Keys)
    ensures (exists k :: 0 <= k < |diffs| && diffs[k].ref == ref) <==>
      || (ref in internal && internal[ref] != if ref in channel then channel[ref] else 0)
      || (ref in channel && ref !in internal)
    ensures forall k :: 0 <= k < |diffs| && diffs[k].ref == ref ==>
      && diffs[k].internal == (if ref in internal then internal[ref] else 0)
      && diffs[k].channel == (if ref in channel then channel[ref] else 0)
      && (diffs[k].reason == NoInternalRecord <==> ref !in internal)
  {
    if ref in internal.Keys + channel.Keys && Disputed(internal, channel, ref) {
      var k :| 0 <= k < |diffs| && diffs[k] == DiffOf(internal, channel, ref);
    }
  }

  /** A channel row of 0 cents that is unknown internally is listed although the books agree. */
  lemma ZeroRowIsListed(ref: string) returns (internal: Ledger, channel: Ledger)
    ensures Agree(internal, channel) && Disputed(internal, channel, ref)
  {
    internal, channel := map[], map[ref := 0];
  }
}
