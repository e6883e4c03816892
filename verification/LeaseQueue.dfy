/**
 * The regulatory report queue: claims under a lease, sends, and finishes by lease token
 * (internal/central/admin/delivery_dispatch.go, internal/delivery/regulatory.go).
 * Times are milliseconds.
 */
module LeaseQueue {
  import opened Basics

  type Token = nat

  const LEASE: int := 120_000
  const MAX_BATCH: int := 20

  datatype Status = Queued | Processing | Delivered

  datatype Report = Report(status: Status, attempts: nat, nextAttempt: int, token: Option<Token>, leaseUntil: Option<int>)

  type Table = map<nat, Report>

  datatype Claimed = Claimed(id: nat, token: Token)

  datatype Outcome = Outcome(id: nat, token: Token, delivered: bool)

  datatype Tally = Tally(finished: nat, lost: nat)

  // -------------------------------------------------------------------- claims

  predicate Due(r: Report, now: int) {
    && !r.status.Delivered?
    && r.nextAttempt <= now
    && (r.leaseUntil.None? || r.leaseUntil.value < now)
  }

  /** The answer of the claiming query: the first `limit` due reports by ID. */
  ghost predicate Selected(rows: Table, now: int, limit: nat, ids: seq<nat>) {
    && |ids| <= limit
    && (forall k :: 0 <= k < |ids| ==> ids[k] in rows && Due(rows[ids[k]], now))
    && (forall j, k :: 0 <= j < k < |ids| ==> ids[j] < ids[k])
    && (forall id :: id in rows && Due(rows[id], now) && id !in ids ==>
          |ids| == limit && forall k :: 0 <= k < |ids| ==> ids[k] < id)
  }

  function Lease(r: Report, token: Token, now: int): Report {
    r.(status := Processing, token := Some(token), leaseUntil := Some(now + LEASE))
  }

  /** Row i of the selection gets token i. */
  ghost predicate ClaimedInto(rows: Table, ids: seq<nat>, tokens: seq<Token>, now: int, rows': Table)
    requires |ids| <= |tokens| && forall k :: 0 <= k < |ids| ==> ids[k] in rows
  {
    && rows'.Keys == rows.Keys
    && (forall k :: 0 <= k < |ids| ==> rows'[ids[k]] == Lease(rows[ids[k]], tokens[k], now))
    && (forall id :: id in rows && id !in ids ==> rows'[id] == rows[id])
  }

  lemma ClaimNext(rows: Table, ids: seq<nat>, tokens: seq<Token>, now: int, rows': Table, i: nat)
    requires i < |ids| <= |tokens| && forall k :: 0 <= k < |ids| ==> ids[k] in rows
    requires forall k :: 0 <= k < i ==> ids[k] != ids[i]
    requires ClaimedInto(rows, ids[..i], tokens, now, rows')
    ensures ids[i] in rows' && rows'[ids[i]] == rows[ids[i]]
    ensures ClaimedInto(rows, ids[..i + 1], tokens, now, rows'[ids[i] := Lease(rows[ids[i]], tokens[i], now)])
  {
    assert ids[..i + 1] == ids[..i] + [ids[i]];
    assert ids[i] !in ids[..i];
  }

  // ------------------------------------------------------------------ finishes

  function Power2(n: nat): nat { if n == 0 then 1 else 2 * Power2(n - 1) }

  /** Two to the number of attempts in seconds, bounded. */
  function Backoff(attempts: nat): int { 1000 * Power2(if attempts < 11 then attempts else 11) }

  function Finished(r: Report, delivered: bool, now: int): Report {
    if delivered then r.(status := Delivered, attempts := r.attempts + 1, token := None, leaseUntil := None)
    else r.(status := Queued, attempts := r.attempts + 1, nextAttempt := now + Backoff(r.attempts + 1),
            token := None, leaseUntil := None)
  }

  predicate Current(rows: Table, item: Outcome) { item.id in rows && rows[item.id].token == Some(item.token) }

  function FinishOne(rows: Table, item: Outcome, now: int): Table {
    if Current(rows, item) then rows[item.id := Finished(rows[item.id], item.delivered, now)] else rows
  }

  /** The items are applied in their order. */
  function FinishAll(rows: Table, items: seq<Outcome>, now: int): Table {
    if items == [] then rows else FinishAll(FinishOne(rows, items[0], now), items[1..], now)
  }

  function FinishedCount(rows: Table, items: seq<Outcome>, now: int): nat {
    if items == [] then 0
    else (if Current(rows, items[0]) then 1 else 0) + FinishedCount(FinishOne(rows, items[0], now), items[1..], now)
  }

  class Dispatch {
    var rows: Table

    constructor (rows: Table)
      ensures this.rows == rows
    {
      this.rows := rows;
    }

    /** `ids` is what the locking query answers; `tokens` are fresh UUIDs. */
    method Claim(limit: int, now: int, ids: seq<nat>, tokens: seq<Token>) returns (r: Result<seq<Claimed>, ()>)
      requires 0 <= limit ==> Selected(rows, now, limit, ids) && limit <= |tokens|
      modifies this
      ensures r.Ok? <==> 0 < limit <= 20
      ensures r.Err? ==> rows == old(rows)
      ensures r.Ok? ==> |r.value| == |ids| && ClaimedInto(old(rows), ids, tokens, now, rows)
      ensures r.Ok? ==> forall k :: 0 <= k < |ids| ==> r.value[k] == Claimed(ids[k], tokens[k])
    {
      if limit <= 0 || limit > MAX_BATCH { return Err(()); }
      var claimed: seq<Claimed>, i := [], 0;
      ghost var before := rows;
      while i < |ids|
        invariant 0 <= i <= |ids|
        invariant ClaimedInto(before, ids[..i], tokens, now, rows)
        invariant |claimed| == i && forall k :: 0 <= k < i ==> claimed[k] == Claimed(ids[k], tokens[k])
      {
        ClaimNext(before, ids, tokens, now, rows, i);
        rows := rows[ids[i] := Lease(rows[ids[i]], tokens[i], now)];
        claimed := claimed + [Claimed(ids[i], tokens[i])];
        i := i + 1;
      }
      assert ids[..i] == ids;
      r := Ok(claimed);
    }

    method Finish(items: seq<Outcome>, now: int) returns (tally: Tally)
      modifies this
      ensures rows == FinishAll(old(rows), items, now)
      ensures tally.finished == FinishedCount(old(rows), items, now)
      ensures tally.finished + tally.lost == |items|
    {
      tally := Tally(0, 0);
      var i := 0;
      while i < |items|
        invariant 0 <= i <= |items|
        invariant FinishAll(old(rows), items, now) == FinishAll(rows, items[i..], now)
        invariant FinishedCount(old(rows), items, now) == tally.finished + FinishedCount(rows, items[i..], now)
        invariant tally.finished + tally.lost == i
      {
        var item := items[i];
        assert items[i..][0] == item && items[i..][1..] == items[i + 1..];
        if item.id in rows && rows[item.id].token == Some(item.token) {
          rows := rows[item.id := Finished(rows[item.id], item.delivered, now)];
          tally := tally.(finished := tally.finished + 1);
        } else {
          tally := tally.(lost := tally.lost + 1);
        }
        i := i + 1;
      }
    }
  }

  function CountTrue(s: seq<bool>): nat {
    if s == [] then 0 else (if s[0] then 1 else 0) + CountTrue(s[1..])
  }

  lemma {:induction false} CountTrueAppend(s: seq<bool>, b: bool)
    ensures CountTrue(s + [b]) == CountTrue(s) + (if b then 1 else 0)
  {
    if s == [] {
      assert s + [b] == [b];
    } else {
      CountTrueAppend(s[1..], b);
      assert (s + [b])[1..] == s[1..] + [b];
    }
  }

  /** The worker's loop: one send and one receipt for every claimed report. */
  method SendBatch(batch: seq<Claimed>, sent: seq<bool>) returns (receipts: seq<Outcome>, delivered: nat, failures: nat)
    requires |sent| == |batch|
    ensures |receipts| == |batch|
    ensures forall k :: 0 <= k < |batch| ==> receipts[k] == Outcome(batch[k].id, batch[k].token, sent[k])
    ensures delivered == CountTrue(sent) && delivered + failures == |batch|
  {
    receipts, delivered, failures := [], 0, 0;
    var i := 0;
    while i < |batch|
      invariant 0 <= i <= |batch| == |sent|
      invariant |receipts| == i
      invariant forall k :: 0 <= k < i ==> receipts[k] == Outcome(batch[k].id, batch[k].token, sent[k])
      invariant delivered == CountTrue(sent[..i]) && delivered + failures == i
    {
      assert sent[..i + 1] == sent[..i] + [sent[i]];
      CountTrueAppend(sent[..i], sent[i]);
      if sent[i] { delivered := delivered + 1; } else { failures := failures + 1; }
      receipts := receipts + [Outcome(batch[i].id, batch[i].token, sent[i])];
      i := i + 1;
    }
    assert sent[..i] == sent;
  }

  // ---------------------------------------------- the whole system and its runs

  /** One effective finish of a report. */
  datatype Entry = Entry(token: Token, delivered: bool, at: int)

  /**
   * The table, every token ever issued, every claim ever handed to a worker, every receipt a worker
   * may still post (any number of times), every successful send, and per report its effective
   * finishes and the time of its latest claim.
   */
  datatype System = System(
    rows: Table, issued: set<Token>, claims: set<Claimed>, receipts: set<Outcome>, sends: set<Claimed>,
    history: map<nat, seq<Entry>>, claimedAt: map<nat, int>)

  datatype Event =
    | ClaimEvent(now: int, limit: nat, ids: seq<nat>, tokens: seq<Token>)
    | SendEvent(claim: Claimed, delivered: bool)
    | FinishEvent(item: Outcome, now: int)

  ghost predicate Fresh(tokens: seq<Token>, issued: set<Token>) {
    && (forall k :: 0 <= k < |tokens| ==> tokens[k] !in issued)
    && (forall j, k :: 0 <= j < k < |tokens| ==> tokens[j] != tokens[k])
  }

  ghost predicate Init(s: System) {
    && (forall id :: id in s.rows ==>
         s.rows[id].status.Queued? && s.rows[id].attempts == 0 && s.rows[id].token.None? && s.rows[id].leaseUntil.None?)
    && s.issued == {} && s.claims == {} && s.receipts == {} && s.sends == {}
    && s.history == (map id | id in s.rows :: []) && s.claimedAt == map[]
  }

  ghost predicate Next(s: System, e: Event, s': System) {
    match e
    case ClaimEvent(now, limit, ids, tokens) =>
      && Selected(s.rows, now, limit, ids) && |ids| == |tokens| && Fresh(tokens, s.issued)
      && ClaimedInto(s.rows, ids, tokens, now, s'.rows)
      && s'.issued == s.issued + (set k | 0 <= k < |tokens| :: tokens[k])
      && s'.claims == s.claims + (set k | 0 <= k < |ids| :: Claimed(ids[k], tokens[k]))
      && s'.claimedAt == (map id | id in s.rows && (id in ids || id in s.claimedAt) :: if id in ids then now else s.claimedAt[id])
      && s'.receipts == s.receipts && s'.sends == s.sends && s'.history == s.history
    case SendEvent(claim, delivered) =>
      && claim in s.claims
      && s' == s.(receipts := s.receipts + {Outcome(claim.id, claim.token, delivered)},
                  sends := if delivered then s.sends + {claim} else s.sends)
    case FinishEvent(item, now) =>
      && item in s.receipts
      && s' == s.(rows := FinishOne(s.rows, item, now),
                  history := if Current(s.rows, item) && item.id in s.history
                             then s.history[item.id := s.history[item.id] + [Entry(item.token, item.delivered, now)]]
                             else s.history)
  }

  ghost predicate Step(s: System, s': System) { exists e :: Next(s, e, s') }

  ghost predicate Run(run: seq<System>) {
    run != [] && Init(run[0]) && forall i :: 0 <= i < |run| - 1 ==> Step(run[i], run[i + 1])
  }

  /** A report holds a lease exactly while it is being processed, from its latest claim on. */
  ghost predicate LeaseOk(s: System, id: nat)
    requires id in s.rows
  {
    var r := s.rows[id];
    && (r.status.Processing? <==> r.token.Some?)
    && (r.token.Some? <==> r.leaseUntil.Some?)
    && (r.token.Some? ==> Claimed(id, r.token.value) in s.claims)
    && (r.token.Some? ==> id in s.claimedAt && r.leaseUntil == Some(s.claimedAt[id] + LEASE))
  }

  /** Only the last finish can be a delivery, and it is backed by a send under its token. */
  ghost predicate OutcomeOk(s: System, id: nat)
    requires id in s.rows && id in s.history
  {
    var r, h := s.rows[id], s.history[id];
    && r.attempts == |h|
    && (forall k :: 0 <= k < |h| - 1 ==> !h[k].delivered)
    && (r.status.Delivered? <==> h != [] && h[|h| - 1].delivered)
    && (r.status.Delivered? ==> Claimed(id, h[|h| - 1].token) in s.sends)
    && (h != [] && !r.status.Delivered? ==> r.nextAttempt == h[|h| - 1].at + Backoff(|h|))
  }

  /** Spent tokens stay spent. */
  ghost predicate TokensOk(s: System, id: nat)
    requires id in s.rows && id in s.history
  {
    var r, h := s.rows[id], s.history[id];
    && (forall k :: 0 <= k < |h| ==> Claimed(id, h[k].token) in s.claims && r.token != Some(h[k].token))
    && (forall j, k :: 0 <= j < k < |h| ==> h[j].token != h[k].token)
  }

  ghost predicate ReportOk(s: System, id: nat)
    requires id in s.rows
  {
    id in s.history && LeaseOk(s, id) && OutcomeOk(s, id) && TokensOk(s, id)
  }

  ghost predicate Inv(s: System) {
    && s.history.Keys == s.rows.Keys
    && (forall c :: c in s.claims ==> c.token in s.issued)
    && (forall c, d :: c in s.claims && d in s.claims && c.token == d.token ==> c == d)
    && (forall o :: o in s.receipts ==>
          Claimed(o.id, o.token) in s.claims && (o.delivered ==> Claimed(o.id, o.token) in s.sends))
    && (forall id :: id in s.rows ==> ReportOk(s, id))
  }

  lemma InitInv(s: System)
    requires Init(s)
    ensures Inv(s)
  {}

  lemma SelectedAreDue(rows: Table, now: int, limit: nat, ids: seq<nat>, id: nat) returns (k: nat)
    requires Selected(rows, now, limit, ids) && id in ids
    ensures k < |ids| && ids[k] == id && id in rows && Due(rows[id], now)
  {
    k :| 0 <= k < |ids| && ids[k] == id;
  }

  lemma ReportUntouched(s: System, s': System, id: nat)
    requires id in s.rows && ReportOk(s, id)
    requires id in s'.rows && s'.rows[id] == s.rows[id] && id in s'.history && s'.history[id] == s.history[id]
    requires s.claims <= s'.claims && s.sends <= s'.sends
    requires id in s.claimedAt ==> id in s'.claimedAt && s'.claimedAt[id] == s.claimedAt[id]
    ensures ReportOk(s', id)
  {}

  lemma ReportClaimed(s: System, s': System, id: nat, token: Token, now: int)
    requires id in s.rows && ReportOk(s, id) && !s.rows[id].status.Delivered?
    requires id in s'.rows && s'.rows[id] == Lease(s.rows[id], token, now)
    requires s'.history == s.history && s.claims <= s'.claims && Claimed(id, token) in s'.claims
    requires id in s'.claimedAt && s'.claimedAt[id] == now
    requires forall c :: c in s.claims ==> c.token != token
    ensures ReportOk(s', id)
  {}

  lemma ClaimKeepsReport(s: System, e: Event, s': System, id: nat)
    requires Inv(s) && e.ClaimEvent? && Next(s, e, s') && id in s'.rows
    ensures ReportOk(s', id)
  {
    assert ReportOk(s, id);
    if id in e.ids {
      var k := SelectedAreDue(s.rows, e.now, e.limit, e.ids, id);
      assert Claimed(e.ids[k], e.tokens[k]) in s'.claims;
      ReportClaimed(s, s', id, e.tokens[k], e.now);
    } else {
      ReportUntouched(s, s', id);
    }
  }

  /** A claim is an old one or one of those just handed out. */
  lemma ClaimOrigin(s: System, e: Event, s': System, c: Claimed) returns (k: nat)
    requires e.ClaimEvent? && Next(s, e, s') && c in s'.claims && c !in s.claims
    ensures k < |e.ids| == |e.tokens| && c == Claimed(e.ids[k], e.tokens[k])
    ensures c.token !in s.issued && c.token in s'.issued
  {
    k :| 0 <= k < |e.ids| && c == Claimed(e.ids[k], e.tokens[k]);
  }

  lemma ClaimsApart(s: System, e: Event, s': System, c: Claimed, d: Claimed)
    requires Inv(s) && e.ClaimEvent? && Next(s, e, s')
    requires c in s'.claims && d in s'.claims && c.token == d.token
    ensures c == d
  {
    if c !in s.claims && d !in s.claims {
      var j := ClaimOrigin(s, e, s', c);
      var k := ClaimOrigin(s, e, s', d);
    } else if c !in s.claims {
      var j := ClaimOrigin(s, e, s', c);
    } else if d !in s.claims {
      var k := ClaimOrigin(s, e, s', d);
    }
  }

  lemma ClaimTokensFresh(s: System, e: Event, s': System)
    requires Inv(s) && e.ClaimEvent? && Next(s, e, s')
    ensures forall c :: c in s'.claims ==> c.token in s'.issued
    ensures forall c, d :: c in s'.claims && d in s'.claims && c.token == d.token ==> c == d
  {
    forall c | c in s'.claims ensures c.token in s'.issued {
      if c !in s.claims { var k := ClaimOrigin(s, e, s', c); }
    }
    forall c, d | c in s'.claims && d in s'.claims && c.token == d.token ensures c == d { ClaimsApart(s, e, s', c, d); }
  }

  lemma ClaimKeepsInv(s: System, e: Event, s': System)
    requires Inv(s) && e.ClaimEvent? && Next(s, e, s')
    ensures Inv(s')
  {
    ClaimTokensFresh(s, e, s');
    forall id | id in s'.rows ensures ReportOk(s', id) { ClaimKeepsReport(s, e, s', id); }
  }

  lemma SendKeepsInv(s: System, e: Event, s': System)
    requires Inv(s) && e.SendEvent? && Next(s, e, s')
    ensures Inv(s')
  {
    forall id | id in s'.rows ensures ReportOk(s', id) {
      assert ReportOk(s, id);
      ReportUntouched(s, s', id);
    }
  }

  lemma ReportFinished(s: System, s': System, id: nat, entry: Entry)
    requires id in s.rows && ReportOk(s, id) && s.rows[id].token == Some(entry.token)
    requires id in s'.rows && s'.rows[id] == Finished(s.rows[id], entry.delivered, entry.at)
    requires id in s'.history && s'.history[id] == s.history[id] + [entry]
    requires s'.claims == s.claims && s'.sends == s.sends
    requires entry.delivered ==> Claimed(id, entry.token) in s.sends
    ensures ReportOk(s', id)
  {
    assert forall k :: 0 <= k < |s.history[id]| ==> !s.history[id][k].delivered;
  }

  lemma FinishKeepsInv(s: System, e: Event, s': System)
    requires Inv(s) && e.FinishEvent? && Next(s, e, s')
    ensures Inv(s')
  {
    forall id | id in s'.rows ensures ReportOk(s', id) {
      assert ReportOk(s, id);
      if Current(s.rows, e.item) && id == e.item.id {
        ReportFinished(s, s', id, Entry(e.item.token, e.item.delivered, e.now));
      } else {
        ReportUntouched(s, s', id);
      }
    }
  }

  lemma StepKeepsInv(s: System, s': System)
    requires Inv(s) && Step(s, s')
    ensures Inv(s')
  {
    var e :| Next(s, e, s');
    match e {
      case ClaimEvent(_, _, _, _) => ClaimKeepsInv(s, e, s');
      case SendEvent(_, _) => SendKeepsInv(s, e, s');
      case FinishEvent(_, _) => FinishKeepsInv(s, e, s');
    }
  }

  /** Every state of every run is consistent. */
  lemma {:induction false} RunInv(run: seq<System>, i: nat)
    requires Run(run) && i < |run|
    ensures Inv(run[i])
  {
    if i == 0 {
      InitInv(run[0]);
    } else {
      RunInv(run, i - 1);
      StepKeepsInv(run[i - 1], run[i]);
    }
  }

  lemma StepKeepsDelivered(s: System, e: Event, s': System, id: nat)
    requires Inv(s) && Next(s, e, s') && id in s.rows && s.rows[id].status.Delivered?
    ensures id in s'.rows && s'.rows[id] == s.rows[id]
  {
    assert ReportOk(s, id);
    if e.ClaimEvent? && id in e.ids {
      var k := SelectedAreDue(s.rows, e.now, e.limit, e.ids, id);
    }
  }

  /** Delivered reports of one state are the same in another. */
  ghost predicate KeepsDelivered(s: System, s': System) {
    forall id :: id in s.rows && s.rows[id].status.Delivered? ==> id in s'.rows && s'.rows[id] == s.rows[id]
  }

  lemma StepIsFinal(s: System, s': System)
    requires Inv(s) && Step(s, s')
    ensures KeepsDelivered(s, s')
  {
    var e :| Next(s, e, s');
    forall id | id in s.rows && s.rows[id].status.Delivered? ensures id in s'.rows && s'.rows[id] == s.rows[id] {
      StepKeepsDelivered(s, e, s', id);
    }
  }

  lemma {:induction false} DeliveredChain(run: seq<System>, i: nat, j: nat)
    requires i <= j < |run| && forall n :: i <= n < j ==> KeepsDelivered(run[n], run[n + 1])
    ensures KeepsDelivered(run[i], run[j])
    decreases j
  {
    if i < j { DeliveredChain(run, i, j - 1); }
  }

  /** Delivered is final: no later step of any run changes a delivered report. */
  lemma DeliveredIsFinal(run: seq<System>, i: nat, j: nat, id: nat)
    requires Run(run) && i <= j < |run| && id in run[i].rows && run[i].rows[id].status.Delivered?
    ensures id in run[j].rows && run[j].rows[id] == run[i].rows[id]
  {
    forall n | i <= n < j ensures KeepsDelivered(run[n], run[n + 1]) {
      RunInv(run, n);
      StepIsFinal(run[n], run[n + 1]);
    }
    DeliveredChain(run, i, j);
  }

  /** A delivered report was sent successfully under the very token that finished it. */
  lemma DeliveredWasSent(run: seq<System>, i: nat, id: nat)
    requires Run(run) && i < |run| && id in run[i].rows && run[i].rows[id].status.Delivered?
    ensures id in run[i].history && run[i].history[id] != []
    ensures var last := run[i].history[id][|run[i].history[id]| - 1];
      last.delivered && Claimed(id, last.token) in run[i].sends
  {
    RunInv(run, i);
    assert ReportOk(run[i], id);
  }

  /** Attempts count the effective finishes, and an undelivered report waits for the bounded backoff of its failures. */
  lemma AttemptsAndDelay(run: seq<System>, i: nat, id: nat)
    requires Run(run) && i < |run| && id in run[i].rows
    ensures var r := run[i].rows[id];
      && id in run[i].history && var h := run[i].history[id];
      && r.attempts == |h|
      && (forall k :: 0 <= k < |h| - 1 ==> !h[k].delivered)
      && (h != [] && !r.status.Delivered? ==>
           !h[|h| - 1].delivered && r.nextAttempt == h[|h| - 1].at + 1000 * Power2(if |h| < 11 then |h| else 11))
  {
    RunInv(run, i);
    assert ReportOk(run[i], id);
  }

  /** History only grows. */
  lemma {:induction false} HistoryGrows(run: seq<System>, i: nat, j: nat, id: nat)
    requires Run(run) && i <= j < |run| && id in run[i].history
    ensures id in run[j].history && run[i].history[id] <= run[j].history[id]
    decreases j
  {
    if i < j {
      HistoryGrows(run, i, j - 1, id);
      assert Step(run[j - 1], run[j]);
      var e :| Next(run[j - 1], e, run[j]);
    }
  }

  /** A token finishes at most one report, at most once. */
  lemma TokenFinishesOnce(run: seq<System>, i: nat, id: nat, k: nat, id': nat, k': nat)
    requires Run(run) && i < |run|
    requires id in run[i].history && k < |run[i].history[id]| && id' in run[i].history && k' < |run[i].history[id']|
    requires run[i].history[id][k].token == run[i].history[id'][k'].token
    ensures id == id' && k == k'
  {
    RunInv(run, i);
    assert ReportOk(run[i], id) && ReportOk(run[i], id');
    assert Claimed(id, run[i].history[id][k].token) == Claimed(id', run[i].history[id'][k'].token);
  }

  /** A posted item that names an issued token which its report does not hold. */
  ghost predicate Dead(s: System, item: Outcome) { item.token in s.issued && !Current(s.rows, item) }

  /** Tokens are never issued again, so a dead one stays dead. */
  lemma StepKeepsDead(s: System, s': System, item: Outcome)
    requires Step(s, s') && Dead(s, item)
    ensures Dead(s', item)
  {
    var e :| Next(s, e, s');
    if e.ClaimEvent? && item.id in e.ids {
      var k := SelectedAreDue(s.rows, e.now, e.limit, e.ids, item.id);
      assert e.tokens[k] != item.token;
    }
  }

  lemma {:induction false} DeadChain(run: seq<System>, i: nat, j: nat, item: Outcome)
    requires i <= j < |run| && Dead(run[i], item)
    requires forall n :: i <= n < j && Dead(run[n], item) ==> Dead(run[n + 1], item)
    ensures Dead(run[j], item)
    decreases j
  {
    if i < j { DeadChain(run, i, j - 1, item); }
  }

  /**
   * A token that its report does not hold, spent, superseded by a later claim or another report's, is
   * dead: posting it changes nothing, now or at any later time.
   */
  lemma DeadTokenIsInert(run: seq<System>, i: nat, j: nat, item: Outcome, now: int)
    requires Run(run) && i <= j < |run| && Dead(run[i], item)
    ensures FinishOne(run[j].rows, item, now) == run[j].rows
  {
    forall n | i <= n < j && Dead(run[n], item) ensures Dead(run[n + 1], item) {
      StepKeepsDead(run[n], run[n + 1], item);
    }
    DeadChain(run, i, j, item);
  }

  /** A worker whose report was claimed again can no longer finish it, at whatever later time it posts. */
  lemma SupersededTokenIsInert(run: seq<System>, i: nat, j: nat, c: Claimed, delivered: bool, now: int)
    requires Run(run) && i <= j < |run| && c in run[i].claims
    requires c.id in run[i].rows && run[i].rows[c.id].token != Some(c.token)
    ensures FinishOne(run[j].rows, Outcome(c.id, c.token, delivered), now) == run[j].rows
  {
    RunInv(run, i);
    DeadTokenIsInert(run, i, j, Outcome(c.id, c.token, delivered), now);
  }

  /** Once a token has finished its report, posting it again changes nothing, for whatever report, at any later time. */
  lemma SpentTokenIsInert(run: seq<System>, i: nat, j: nat, id: nat, k: nat, item: Outcome, now: int)
    requires Run(run) && i <= j < |run| && id in run[i].history && k < |run[i].history[id]|
    requires item.token == run[i].history[id][k].token
    ensures FinishOne(run[j].rows, item, now) == run[j].rows
  {
    RunInv(run, i);
    assert ReportOk(run[i], id);
    if item.id in run[i].rows { assert ReportOk(run[i], item.id); }
    DeadTokenIsInert(run, i, j, item, now);
  }

  /** A claimed report that nobody finished is claimed again only after its lease ran out. */
  lemma ReclaimNeedsExpiry(run: seq<System>, i: nat, e: Event, id: nat)
    requires Run(run) && i < |run| - 1 && Next(run[i], e, run[i + 1])
    requires e.ClaimEvent? && id in e.ids && id in run[i].rows && run[i].rows[id].token.Some?
    ensures id in run[i].claimedAt && e.now > run[i].claimedAt[id] + 120_000
  {
    RunInv(run, i);
    var k := SelectedAreDue(run[i].rows, e.now, e.limit, e.ids, id);
    assert ReportOk(run[i], id);
  }

  /** After its k-th failure in a row a report is not claimed before 2^min(k,11) seconds have passed. */
  lemma ClaimRespectsBackoff(run: seq<System>, i: nat, e: Event, id: nat)
    requires Run(run) && i < |run| - 1 && Next(run[i], e, run[i + 1])
    requires e.ClaimEvent? && id in e.ids
    ensures id in run[i].history
    ensures var h := run[i].history[id];
      h != [] ==> !h[|h| - 1].delivered && e.now >= h[|h| - 1].at + 1000 * Power2(if |h| < 11 then |h| else 11)
  {
    RunInv(run, i);
    var k := SelectedAreDue(run[i].rows, e.now, e.limit, e.ids, id);
    AttemptsAndDelay(run, i, id);
  }

  /** Every undelivered report is due from some time on. */
  lemma EventuallyDue(run: seq<System>, i: nat, id: nat) returns (from: int)
    requires Run(run) && i < |run| && id in run[i].rows && !run[i].rows[id].status.Delivered?
    ensures forall now :: from <= now ==> Due(run[i].rows[id], now)
  {
    RunInv(run, i);
    assert ReportOk(run[i], id);
    var r := run[i].rows[id];
    from := if r.leaseUntil.Some? && r.leaseUntil.value >= r.nextAttempt then r.leaseUntil.value + 1 else r.nextAttempt;
  }

  lemma {:induction false} AscendingCount(ids: seq<nat>, within: set<nat>)
    requires forall j, k :: 0 <= j < k < |ids| ==> ids[j] < ids[k]
    requires forall k :: 0 <= k < |ids| ==> ids[k] in within
    ensures |ids| <= |within|
  {
    if ids != [] {
      var last := ids[|ids| - 1];
      AscendingCount(ids[..|ids| - 1], within - {last});
    }
  }

  /** And a claim takes it, unless that many due reports with smaller IDs fill the batch. */
  lemma DueIsClaimed(rows: Table, now: int, limit: nat, ids: seq<nat>, id: nat)
    requires Selected(rows, now, limit, ids) && id in rows && Due(rows[id], now)
    requires |set d | d in rows && Due(rows[d], now) && d < id| < limit
    ensures id in ids
  {
    if id !in ids {
      AscendingCount(ids, set d | d in rows && Due(rows[d], now) && d < id);
    }
  }

  // ------------------------------------------------- what a posted batch does

  /** Posting a batch is one finish after the other, so all that holds in every run holds of it, and `finished` counts the held tokens. */
  lemma {:induction false} FinishIsSteps(s: System, items: seq<Outcome>, now: int) returns (states: seq<System>)
    requires forall k :: 0 <= k < |items| ==> items[k] in s.receipts
    ensures |states| == |items| + 1 && states[0] == s
    ensures forall k :: 0 <= k < |items| ==> Next(states[k], FinishEvent(items[k], now), states[k + 1])
    ensures FinishAll(s.rows, items, now) == states[|items|].rows
    decreases |items|
  {
    if items == [] {
      states := [s];
    } else {
      var item := items[0];
      var s1 := s.(rows := FinishOne(s.rows, item, now),
        history := if Current(s.rows, item) && item.id in s.history
                   then s.history[item.id := s.history[item.id] + [Entry(item.token, item.delivered, now)]]
                   else s.history);
      assert Next(s, FinishEvent(item, now), s1);
      var rest := FinishIsSteps(s1, items[1..], now);
      states := [s] + rest;
      forall k | 0 <= k < |items| ensures Next(states[k], FinishEvent(items[k], now), states[k + 1]) {
        if k > 0 { assert states[k] == rest[k - 1] && states[k + 1] == rest[k] && items[k] == items[1..][k - 1]; }
      }
    }
  }

  /** A report after one posted item: delivered or queued again with the backoff, and free; otherwise as it was. */
  lemma FinishOneExactly(rows: Table, item: Outcome, now: int, id: nat)
    requires id in rows
    ensures var r, r' := rows[id], FinishOne(rows, item, now);
      && r'.Keys == rows.Keys
      && (id == item.id && r.token == Some(item.token) ==>
           r'[id] == if item.delivered then Report(Delivered, r.attempts + 1, r.nextAttempt, None, None)
                     else Report(Queued, r.attempts + 1, now + 1000 * Power2(if r.attempts + 1 < 11 then r.attempts + 1 else 11), None, None))
      && (id != item.id || r.token != Some(item.token) ==> r'[id] == r)
  {}

  /**
   * For items of different reports: each report whose token its item names ends as that item says, and
   * every other report is left as it was.
   */
  lemma {:induction false} FinishExactly(rows: Table, items: seq<Outcome>, now: int, id: nat)
    requires id in rows && forall j, k :: 0 <= j < k < |items| ==> items[j].id != items[k].id
    ensures FinishAll(rows, items, now).Keys == rows.Keys
    ensures forall k :: 0 <= k < |items| && items[k].id == id && rows[id].token == Some(items[k].token) ==>
      FinishAll(rows, items, now)[id] ==
        if items[k].delivered then Report(Delivered, rows[id].attempts + 1, rows[id].nextAttempt, None, None)
        else Report(Queued, rows[id].attempts + 1,
                    now + 1000 * Power2(if rows[id].attempts + 1 < 11 then rows[id].attempts + 1 else 11), None, None)
    ensures (forall k :: 0 <= k < |items| ==> items[k].id != id || rows[id].token != Some(items[k].token)) ==>
      FinishAll(rows, items, now)[id] == rows[id]
    decreases |items|
  {
    if items != [] {
      FinishOneExactly(rows, items[0], now, id);
      var rows1 := FinishOne(rows, items[0], now);
      FinishExactly(rows1, items[1..], now, id);
      FinishLater(rows1, items, now, id);
    }
  }

  lemma FinishLater(rows: Table, items: seq<Outcome>, now: int, id: nat)
    requires items != [] && id in rows && FinishAll(rows, items[1..], now).Keys == rows.Keys
    requires (forall k :: 0 <= k < |items[1..]| ==> items[1..][k].id != id || rows[id].token != Some(items[1..][k].token)) ==>
      FinishAll(rows, items[1..], now)[id] == rows[id]
    ensures (forall k :: 1 <= k < |items| ==> items[k].id != id || rows[id].token != Some(items[k].token)) ==>
      FinishAll(rows, items[1..], now)[id] == rows[id]
  {
    assert forall k :: 0 <= k < |items[1..]| ==> items[1..][k] == items[k + 1];
  }

  /** The items of a batch whose token its report holds. */
  function Held(rows: Table, items: seq<Outcome>): set<nat> {
    set k | 0 <= k < |items| && items[k].id in rows && rows[items[k].id].token == Some(items[k].token)
  }

  /** And `finished` is how many of them there are. */
  lemma {:induction false} FinishedExactly(rows: Table, items: seq<Outcome>, now: int)
    requires forall j, k :: 0 <= j < k < |items| ==> items[j].id != items[k].id
    ensures FinishedCount(rows, items, now) == |Held(rows, items)|
    decreases |items|
  {
    if items == [] {
      assert Held(rows, items) == {};
    } else {
      var rows1 := FinishOne(rows, items[0], now);
      FinishedExactly(rows1, items[1..], now);
      HeldShift(rows, rows1, items);
    }
  }

  lemma HeldShift(rows: Table, rows1: Table, items: seq<Outcome>)
    requires items != [] && rows1.Keys == rows.Keys
    requires forall j, k :: 0 <= j < k < |items| ==> items[j].id != items[k].id
    requires forall id :: id in rows && id != items[0].id ==> rows1[id] == rows[id]
    ensures |Held(rows, items)| == |Held(rows1, items[1..])| + if 0 in Held(rows, items) then 1 else 0
  {
    var later := Held(rows1, items[1..]);
    var shifted := set k | k in later :: k + 1;
    ShiftKeepsSize(later, shifted);
    forall k | 0 < k < |items| ensures k in Held(rows, items) <==> k in shifted {
      assert items[1..][k - 1] == items[k];
      assert k in shifted <==> k - 1 in later;
    }
    forall k | k in shifted ensures 0 < k < |items| {}
    assert Held(rows, items) == shifted + if 0 in Held(rows, items) then {0} else {};
  }

  lemma {:induction false} ShiftKeepsSize(a: set<nat>, b: set<nat>)
    requires b == set k | k in a :: k + 1
    ensures |b| == |a|
    decreases |a|
  {
    if a != {} {
      var x :| x in a;
      var a1 := a - {x};
      ShiftKeepsSize(a1, set k | k in a1 :: k + 1);
      var b1 := set k | k in a1 :: k + 1;
      forall y | y in b ensures y in b1 + {x + 1} {
        var k :| k in a && y == k + 1;
        assert k in a1 || k == x;
      }
      assert b == b1 + {x + 1};
    } else {
      assert b == {};
    }
  }
}
