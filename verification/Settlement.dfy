/** Booking a calculated fee into the split ledger (internal/central/billing/settlement.go). */
module Settlement {
  import opened Basics
  import opened Allocation

  datatype Fee = Fee(electric: Int64, service: Int64, total: Int64)

  datatype Calculation = Calculation(orderNo: string, station: Option<nat>, fee: Fee)

  datatype TemplateMode = ModeA | ModeB | OtherMode

  datatype PartyRow = PartyRow(id: nat, code: string, ratio: Int64)

  datatype Template = Template(id: nat, mode: TemplateMode, parties: seq<Party>, ids: map<string, nat>)

  datatype SettleError = NoSplitTemplate | SplitRejected | NotPreserved | NotFound | Conflict

  datatype Receipt = Receipt(id: nat, created: bool)

  datatype SettlementRow = SettlementRow(
    id: nat, calculation: nat, template: nat, orderNo: string, fee: Fee, pool: Int64, excluded: Int64)

  datatype PartyAmount = PartyAmount(
    settlement: nat, party: nat, code: string, ratio: Int64, amount: Int64, electric: Int64, service: Int64)

  // ---------------------------------------------------------------- templates

  /** Anything but mode_b is split in full. */
  function ModeOf(mode: TemplateMode): SplitMode {
    if mode.ModeB? then SplitServiceOnly else SplitAll
  }

  function PartyOf(row: PartyRow): Party { Party(row.code, row.ratio) }

  function PartiesOf(rows: seq<PartyRow>): (ps: seq<Party>)
    ensures |ps| == |rows| && forall i :: 0 <= i < |rows| ==> ps[i] == PartyOf(rows[i])
  {
    if rows == [] then [] else [PartyOf(rows[0])] + PartiesOf(rows[1..])
  }

  predicate DistinctCodes(rows: seq<PartyRow>) {
    forall j, k :: 0 <= j < k < |rows| ==> rows[j].code != rows[k].code
  }

  lemma DistinctByCode(rows: seq<PartyRow>)
    ensures DistinctCodes(rows) <==> DistinctIds(PartiesOf(rows))
  {
    var ps := PartiesOf(rows);
    assert forall i :: 0 <= i < |rows| ==> ps[i].id == rows[i].code;
    if DistinctIds(ps) {
      forall j, k | 0 <= j < k < |rows| ensures rows[j].code != rows[k].code { assert ps[j].id != ps[k].id; }
    }
  }

  /** The party loop; among equal codes the last ID stays. */
  method ReadParties(rows: seq<PartyRow>) returns (parties: seq<Party>, ids: map<string, nat>)
    ensures parties == PartiesOf(rows)
    ensures forall k :: 0 <= k < |rows| ==> rows[k].code in ids
    ensures DistinctCodes(rows) ==> forall k :: 0 <= k < |rows| ==> ids[rows[k].code] == rows[k].id
  {
    parties, ids := [], map[];
    var i := 0;
    while i < |rows|
      invariant 0 <= i <= |rows|
      invariant |parties| == i && forall k :: 0 <= k < i ==> parties[k] == PartyOf(rows[k])
      invariant forall k :: 0 <= k < i ==> rows[k].code in ids
      invariant DistinctCodes(rows) ==> forall k :: 0 <= k < i ==> ids[rows[k].code] == rows[k].id
    {
      parties := parties + [PartyOf(rows[i])];
      ids := ids[rows[i].code := rows[i].id];
      i := i + 1;
    }
  }

  /**
   * Reads the template bound to a station; `rows` are its parties in party-code order. The trial split
   * of nothing decides once and for all: an accepted template splits every non-negative fee.
   */
  method Resolve(found: bool, id: nat, mode: TemplateMode, rows: seq<PartyRow>)
    returns (r: Result<Template, SettleError>)
    ensures r.Ok? <==> found && !mode.OtherMode? && ValidParties(PartiesOf(rows))
    ensures r.Ok? ==> r.value.id == id && r.value.mode == mode && r.value.parties == PartiesOf(rows)
    ensures r.Ok? ==> forall row :: row in rows ==> row.code in r.value.ids && r.value.ids[row.code] == row.id
    ensures r.Ok? ==> forall fee: Fee :: Allocatable(r.value, fee) <==> fee.electric >= 0 && fee.service >= 0
    ensures r.Err? ==> r.error == if found then NoSplitTemplate else NotFound
  {
    if !found { return Err(NotFound); }
    if |rows| < 2 || |rows| > 8 { return Err(NoSplitTemplate); }
    var parties, ids := ReadParties(rows);
    DistinctByCode(rows);
    if mode == OtherMode { return Err(NoSplitTemplate); }
    var trial := Allocate(0, 0, ModeOf(mode), parties);
    if trial.Err? { return Err(NoSplitTemplate); }
    r := Ok(Template(id, mode, parties, ids));
  }

  // ----------------------------------------------------------------- the pool

  function Pool(mode: TemplateMode, fee: Fee): int {
    if ModeOf(mode).SplitAll? then fee.electric + fee.service else fee.service
  }

  function Excluded(mode: TemplateMode, fee: Fee): int {
    if ModeOf(mode).SplitAll? then 0 else fee.electric
  }

  lemma WrapStep(x: int, y: int)
    ensures Wrap64(Wrap64(x) + y) == Wrap64(x + y)
  {
    WrapSum(x, y);
  }

  function Paid(s: Share): int { s.electric + s.service }

  ghost function PaidTotal(shares: seq<Share>): int { ElectricTotal(shares) + ServiceTotal(shares) }

  lemma {:induction false} PaidTotalPrefix(shares: seq<Share>, i: nat)
    requires i < |shares|
    ensures PaidTotal(shares[..i + 1]) == PaidTotal(shares[..i]) + Paid(shares[i])
  {
    if i > 0 {
      PaidTotalPrefix(shares[1..], i - 1);
      assert shares[..i + 1][1..] == shares[1..][..i];
      assert shares[..i][1..] == shares[1..][..i - 1];
    } else {
      assert shares[..1][1..] == [] && shares[..1][0] == shares[0];
      assert ElectricTotal(shares[..1][1..]) == 0 && ServiceTotal(shares[..1][1..]) == 0;
    }
  }

  /** What the shares of an allocation add up to, with int64 wrap-around. */
  method AddUp(shares: seq<Share>) returns (total: Int64)
    ensures total == Wrap64(PaidTotal(shares))
  {
    total := 0;
    var i := 0;
    while i < |shares|
      invariant 0 <= i <= |shares|
      invariant total == Wrap64(PaidTotal(shares[..i]))
    {
      PaidTotalPrefix(shares, i);
      WrapStep(PaidTotal(shares[..i]), Paid(shares[i]));
      total := Wrap64(total + Paid(shares[i]));
      i := i + 1;
    }
    assert shares[..i] == shares;
  }

  ghost predicate Allocatable(template: Template, fee: Fee) {
    ValidRequest(fee.electric, fee.service, ModeOf(template.mode), template.parties)
  }

  /** The shares that the split gives, as a value. */
  ghost function Shares(template: Template, fee: Fee): (shares: seq<Share>)
    requires Allocatable(template, fee)
    ensures IsAllocation(fee.electric, fee.service, ModeOf(template.mode), template.parties,
      Allocated(shares, Excluded(template.mode, fee)))
  {
    var mode, ps := ModeOf(template.mode), template.parties;
    DistributedConserves(fee.service, ps);
    if mode.SplitAll? then
      DistributedConserves(fee.electric, ps);
      seq(|ps|, i requires 0 <= i < |ps| => Share(ps[i].id, Distributed(fee.electric, ps)[i], Distributed(fee.service, ps)[i]))
    else
      seq(|ps|, i requires 0 <= i < |ps| => Share(ps[i].id, 0, Distributed(fee.service, ps)[i]))
  }

  /** The shares add up to the pool, so the mismatch that Settle guards against cannot happen. */
  lemma SharesFillPool(template: Template, fee: Fee)
    requires Allocatable(template, fee)
    ensures PaidTotal(Shares(template, fee)) == Pool(template.mode, fee)
    ensures Pool(template.mode, fee) + Excluded(template.mode, fee) == fee.electric + fee.service
  {
    AllocationConserves(fee.electric, fee.service, ModeOf(template.mode), template.parties,
      Allocated(Shares(template, fee), Excluded(template.mode, fee)));
  }

  /** The guard of Settle after its allocation, as the program evaluates it. */
  predicate GuardFails(paid: Int64, pool: Int64, fee: Fee) {
    paid != pool || pool < 0 || fee.total < pool
  }

  /** The guard fails exactly when the pool overflows int64 or exceeds the recorded total. */
  lemma GuardExactly(template: Template, fee: Fee)
    requires Allocatable(template, fee)
    ensures var pool := Pool(template.mode, fee);
      GuardFails(Wrap64(PaidTotal(Shares(template, fee))), Wrap64(pool), fee) <==> pool > MAX_INT64 || fee.total < pool
  {
    SharesFillPool(template, fee);
    WrapOfPool(Pool(template.mode, fee));
  }

  lemma WrapOfPool(pool: int)
    requires 0 <= pool <= 2 * MAX_INT64
    ensures Wrap64(pool) == if pool > MAX_INT64 then pool - 0x1_0000_0000_0000_0000 else pool
  {}

  /** A fee whose recorded total covers its parts, as every priced fee does, never fails the guard. */
  lemma CoveredFeePasses(template: Template, fee: Fee)
    requires Allocatable(template, fee) && fee.electric + fee.service <= fee.total
    ensures !GuardFails(Wrap64(PaidTotal(Shares(template, fee))), Wrap64(Pool(template.mode, fee)), fee)
  {
    GuardExactly(template, fee);
  }

  /** As far as the parameter of Settle goes, the guard can fail: on a fee whose total is below its parts. */
  lemma UncoveredFeeFails() returns (template: Template, fee: Fee)
    ensures Allocatable(template, fee)
    ensures GuardFails(Wrap64(PaidTotal(Shares(template, fee))), Wrap64(Pool(template.mode, fee)), fee)
  {
    var ps := [Party("a", 5000), Party("b", 5000)];
    template, fee := Template(1, ModeA, ps, map[]), Fee(1, 1, 1);
    assert SumBy(Bps(), ps) == Bps()(ps[0]) + SumBy(Bps(), ps[1..]) == 10000;
    GuardExactly(template, fee);
  }

  // --------------------------------------------------------------- the ledger

  datatype Tables = Tables(settlements: seq<SettlementRow>, parties: seq<PartyAmount>, nextId: nat)

  /** The first-generation settlement of a calculation, if there is one. */
  function Find(rows: seq<SettlementRow>, calculation: nat): (r: Option<SettlementRow>)
    ensures r.None? <==> forall row :: row in rows ==> row.calculation != calculation
    ensures r.Some? ==> r.value in rows && r.value.calculation == calculation
  {
    if rows == [] then None
    else if rows[0].calculation == calculation then Some(rows[0])
    else Find(rows[1..], calculation)
  }

  predicate SameBooking(row: SettlementRow, template: Template, fee: Fee) {
    && row.pool == Wrap64(Pool(template.mode, fee))
    && row.fee.electric == fee.electric
    && row.fee.service == fee.service
    && row.template == template.id
  }

  /** Which answer a booking request gets. */
  ghost function Answer(t: Tables, calculations: map<nat, Calculation>, id: nat, template: Template, fee: Fee)
    : Result<Receipt, SettleError>
  {
    if !Allocatable(template, fee) then Err(SplitRejected)
    else if Pool(template.mode, fee) > MAX_INT64 || fee.total < Pool(template.mode, fee) then Err(NotPreserved)
    else if id !in calculations then Err(NotFound)
    else if calculations[id].station.None? then Err(NoSplitTemplate)
    else if calculations[id].fee.total != fee.total then Err(Conflict)
    else match Find(t.settlements, id)
      case None => Ok(Receipt(t.nextId, true))
      case Some(row) => if SameBooking(row, template, fee) then Ok(Receipt(row.id, false)) else Err(Conflict)
  }

  function PartyAmountOf(settlement: nat, template: Template, i: nat, share: Share): PartyAmount
    requires i < |template.parties|
  {
    PartyAmount(settlement, if share.partyId in template.ids then template.ids[share.partyId] else 0, share.partyId,
      template.parties[i].bps, Wrap64(Paid(share)), share.electric, share.service)
  }

  function PartyAmounts(settlement: nat, template: Template, shares: seq<Share>): (rows: seq<PartyAmount>)
    requires |shares| == |template.parties|
  {
    seq(|shares|, i requires 0 <= i < |shares| => PartyAmountOf(settlement, template, i, shares[i]))
  }

  function NewRow(id: nat, calculation: nat, c: Calculation, template: Template, fee: Fee): SettlementRow
    requires Excluded(template.mode, fee) <= MAX_INT64
  {
    SettlementRow(id, calculation, template.id, c.orderNo, fee, Wrap64(Pool(template.mode, fee)), Excluded(template.mode, fee))
  }

  ghost function After(t: Tables, calculations: map<nat, Calculation>, id: nat, template: Template, fee: Fee): Tables {
    var answer := Answer(t, calculations, id, template, fee);
    if answer.Ok? && answer.value.created then
      Tables(t.settlements + [NewRow(t.nextId, id, calculations[id], template, fee)],
        t.parties + PartyAmounts(t.nextId, template, Shares(template, fee)), t.nextId + 1)
    else t
  }

  /** What a mode splits: mode_b the service only, mode_a everything. */
  lemma PoolExactly(mode: TemplateMode, fee: Fee)
    requires !mode.OtherMode?
    ensures Pool(mode, fee) == if mode == ModeA then fee.electric + fee.service else fee.service
    ensures Excluded(mode, fee) == if mode == ModeA then 0 else fee.electric
  {}

  /** The row of a new settlement, field by field. */
  lemma SettledRowExactly(t: Tables, calculations: map<nat, Calculation>, id: nat, template: Template, fee: Fee)
    requires Answer(t, calculations, id, template, fee).Ok? && Answer(t, calculations, id, template, fee).value.created
    requires !template.mode.OtherMode?
    ensures var t' := After(t, calculations, id, template, fee);
      && Answer(t, calculations, id, template, fee).value.id == t.nextId
      && |t'.settlements| == |t.settlements| + 1 && t.settlements <= t'.settlements
      && var row := t'.settlements[|t.settlements|];
         && row.id == t.nextId && row.calculation == id && row.template == template.id && row.orderNo == calculations[id].orderNo
         && row.fee == fee
         && row.pool == (if template.mode == ModeA then fee.electric + fee.service else fee.service)
         && row.excluded == (if template.mode == ModeA then 0 else fee.electric)
  {
    PoolExactly(template.mode, fee);
  }

  /**
   * The party rows of a new settlement: one per party and in their order, each under that party's own
   * code, ID and ratio, with that party's own shares.
   */
  lemma SettledPartyExactly(t: Tables, calculations: map<nat, Calculation>, id: nat, template: Template, fee: Fee, i: nat)
    requires Answer(t, calculations, id, template, fee).Ok? && Answer(t, calculations, id, template, fee).value.created
    requires !template.mode.OtherMode? && i < |template.parties|
    ensures var t' := After(t, calculations, id, template, fee);
      && |t'.parties| == |t.parties| + |template.parties| && t.parties <= t'.parties
      && var row, party := t'.parties[|t.parties| + i], template.parties[i];
         && row.settlement == t.nextId && row.code == party.id && row.ratio == party.bps
         && (party.id in template.ids ==> row.party == template.ids[party.id])
         && row.service == Distributed(fee.service, template.parties)[i]
         && row.electric == (if template.mode == ModeA then Distributed(fee.electric, template.parties)[i] else 0)
         && row.amount == row.electric + row.service
  {
    var shares := Shares(template, fee);
    SharesFillPool(template, fee);
    DistributedConserves(fee.service, template.parties);
    if template.mode == ModeA { DistributedConserves(fee.electric, template.parties); }
    PaidWithin(shares, i);
    assert After(t, calculations, id, template, fee).parties[|t.parties| + i] == PartyAmountOf(t.nextId, template, i, shares[i]);
  }

  // ------------------------------------------------------ what the ledger keeps

  function PartyRows(rows: seq<PartyAmount>, settlement: nat): seq<PartyAmount> {
    if rows == [] then []
    else if rows[0].settlement == settlement then [rows[0]] + PartyRows(rows[1..], settlement)
    else PartyRows(rows[1..], settlement)
  }

  function AmountTotal(rows: seq<PartyAmount>): int {
    if rows == [] then 0 else rows[0].amount + AmountTotal(rows[1..])
  }

  lemma {:induction false} PartyRowsAppend(a: seq<PartyAmount>, b: seq<PartyAmount>, settlement: nat)
    ensures PartyRows(a + b, settlement) == PartyRows(a, settlement) + PartyRows(b, settlement)
  {
    if a == [] {
      assert a + b == b;
    } else {
      PartyRowsAppend(a[1..], b, settlement);
      assert (a + b)[1..] == a[1..] + b;
    }
  }

  lemma {:induction false} PartyRowsUniform(rows: seq<PartyAmount>, owner: nat, settlement: nat)
    requires forall row :: row in rows ==> row.settlement == owner
    ensures PartyRows(rows, settlement) == if owner == settlement then rows else []
  {
    if rows != [] {
      assert rows[0] in rows;
      PartyRowsUniform(rows[1..], owner, settlement);
    }
  }

  lemma {:induction false} PartyRowsAbsent(rows: seq<PartyAmount>, settlement: nat)
    requires forall row :: row in rows ==> row.settlement != settlement
    ensures PartyRows(rows, settlement) == []
  {
    if rows != [] {
      assert rows[0] in rows;
      PartyRowsAbsent(rows[1..], settlement);
    }
  }

  /**
   * One settlement a calculation, its party rows adding up to its pool, and its pool and excluded
   * electricity to the fee's electricity and service. What a fee's total has beyond these two parts,
   * all of it for a device-billed fee, is not split.
   */
  ghost predicate Consistent(t: Tables) {
    && (forall i, j :: 0 <= i < j < |t.settlements| ==>
         t.settlements[i].calculation != t.settlements[j].calculation && t.settlements[i].id != t.settlements[j].id)
    && (forall row :: row in t.settlements ==>
         && row.id < t.nextId
         && 0 <= row.pool <= row.fee.total
         && row.pool + row.excluded == row.fee.electric + row.fee.service
         && AmountTotal(PartyRows(t.parties, row.id)) == row.pool)
    && (forall row :: row in t.parties ==> row.settlement < t.nextId)
  }

  lemma {:induction false} AmountsFollowShares(rows: seq<PartyAmount>, shares: seq<Share>)
    requires |rows| == |shares|
    requires forall i :: 0 <= i < |rows| ==> rows[i].amount == Paid(shares[i])
    ensures AmountTotal(rows) == PaidTotal(shares)
  {
    if rows != [] {
      AmountsFollowShares(rows[1..], shares[1..]);
    }
  }

  lemma {:induction false} PaidWithin(shares: seq<Share>, i: nat)
    requires i < |shares| && forall k :: 0 <= k < |shares| ==> shares[k].electric >= 0 && shares[k].service >= 0
    ensures 0 <= Paid(shares[i]) <= PaidTotal(shares)
  {
    PaidNonNegative(shares[1..]);
    if i > 0 { PaidWithin(shares[1..], i - 1); }
  }

  lemma {:induction false} PaidNonNegative(shares: seq<Share>)
    requires forall k :: 0 <= k < |shares| ==> shares[k].electric >= 0 && shares[k].service >= 0
    ensures PaidTotal(shares) >= 0
  {
    if shares != [] { PaidNonNegative(shares[1..]); }
  }

  lemma NewRowsFillPool(settlement: nat, template: Template, fee: Fee)
    requires Allocatable(template, fee) && Pool(template.mode, fee) <= MAX_INT64
    ensures AmountTotal(PartyAmounts(settlement, template, Shares(template, fee))) == Pool(template.mode, fee)
  {
    var shares := Shares(template, fee);
    SharesFillPool(template, fee);
    DistributedConserves(fee.service, template.parties);
    if ModeOf(template.mode).SplitAll? { DistributedConserves(fee.electric, template.parties); }
    forall i | 0 <= i < |shares| ensures Wrap64(Paid(shares[i])) == Paid(shares[i]) { PaidWithin(shares, i); }
    AmountsFollowShares(PartyAmounts(settlement, template, shares), shares);
  }

  lemma PartyRowsAfter(parties: seq<PartyAmount>, more: seq<PartyAmount>, owner: nat, settlement: nat)
    requires forall row :: row in more ==> row.settlement == owner
    requires forall row :: row in parties ==> row.settlement < owner
    ensures PartyRows(parties + more, settlement) == if settlement == owner then more else PartyRows(parties, settlement)
  {
    PartyRowsAppend(parties, more, settlement);
    PartyRowsUniform(more, owner, settlement);
    if settlement == owner { PartyRowsAbsent(parties, settlement); }
  }

  /** A balanced row with its party rows under a fresh ID keeps the ledger consistent. */
  lemma AppendKeepsConsistent(t: Tables, row: SettlementRow, more: seq<PartyAmount>)
    requires Consistent(t) && row.id == t.nextId
    requires forall r :: r in t.settlements ==> r.calculation != row.calculation
    requires forall r :: r in more ==> r.settlement == row.id
    requires 0 <= row.pool <= row.fee.total && row.pool + row.excluded == row.fee.electric + row.fee.service
    requires AmountTotal(more) == row.pool
    ensures Consistent(Tables(t.settlements + [row], t.parties + more, t.nextId + 1))
  {
    forall r | r in t.settlements + [row] ensures AmountTotal(PartyRows(t.parties + more, r.id)) == r.pool {
      PartyRowsAfter(t.parties, more, row.id, r.id);
    }
  }

  lemma SettleKeepsConsistent(t: Tables, calculations: map<nat, Calculation>, id: nat, template: Template, fee: Fee)
    requires Consistent(t)
    ensures Consistent(After(t, calculations, id, template, fee))
  {
    var answer := Answer(t, calculations, id, template, fee);
    if answer.Ok? && answer.value.created {
      NewRowsFillPool(t.nextId, template, fee);
      SharesFillPool(template, fee);
      AppendKeepsConsistent(t, NewRow(t.nextId, id, calculations[id], template, fee), PartyAmounts(t.nextId, template, Shares(template, fee)));
    }
  }

  /** Settlements are never rewritten. */
  lemma SettleOnlyAppends(t: Tables, calculations: map<nat, Calculation>, id: nat, template: Template, fee: Fee)
    ensures t.settlements <= After(t, calculations, id, template, fee).settlements
    ensures t.parties <= After(t, calculations, id, template, fee).parties
  {}

  lemma {:induction false} FindFirst(rows: seq<SettlementRow>, more: seq<SettlementRow>, calculation: nat)
    ensures Find(rows + more, calculation) ==
      if Find(rows, calculation).Some? then Find(rows, calculation) else Find(more, calculation)
  {
    if rows == [] {
      assert rows + more == more;
    } else {
      FindFirst(rows[1..], more, calculation);
      assert (rows + more)[1..] == rows[1..] + more;
    }
  }

  /** An accepted request leaves its own booking to be found. */
  lemma BookedRow(t: Tables, calculations: map<nat, Calculation>, id: nat, template: Template, fee: Fee) returns (row: SettlementRow)
    requires Answer(t, calculations, id, template, fee).Ok?
    ensures Find(After(t, calculations, id, template, fee).settlements, id) == Some(row)
    ensures SameBooking(row, template, fee) && row.id == Answer(t, calculations, id, template, fee).value.id
    ensures Pool(template.mode, fee) <= MAX_INT64
    ensures id in calculations && calculations[id].station.Some? && calculations[id].fee.total == fee.total
  {
    if Answer(t, calculations, id, template, fee).value.created {
      row := NewRow(t.nextId, id, calculations[id], template, fee);
      FindFirst(t.settlements, [row], id);
    } else {
      row := Find(t.settlements, id).value;
    }
  }

  lemma BookedAnswer(t: Tables, calculations: map<nat, Calculation>, id: nat, template: Template, fee: Fee, row: SettlementRow)
    requires Find(t.settlements, id) == Some(row) && Allocatable(template, fee) && Pool(template.mode, fee) <= fee.total <= MAX_INT64
    requires id in calculations && calculations[id].station.Some? && calculations[id].fee.total == fee.total
    ensures Answer(t, calculations, id, template, fee) == if SameBooking(row, template, fee) then Ok(Receipt(row.id, false)) else Err(Conflict)
    ensures After(t, calculations, id, template, fee) == t
  {}

  /** What the stations' templates answer for a calculation: `templates` holds what Resolve accepts, by station. */
  predicate HasTemplate(calculations: map<nat, Calculation>, templates: map<nat, Template>, id: nat) {
    id in calculations && calculations[id].station.Some? && calculations[id].station.value in templates
  }

  /** The calculations that the backlog can book. */
  ghost predicate Settleable(calculations: map<nat, Calculation>, templates: map<nat, Template>, id: nat) {
    && HasTemplate(calculations, templates, id)
    && var template, fee := templates[calculations[id].station.value], calculations[id].fee;
       Allocatable(template, fee) && Pool(template.mode, fee) <= fee.total
  }

  lemma PendingAnswer(t: Tables, calculations: map<nat, Calculation>, templates: map<nat, Template>, id: nat)
    requires HasTemplate(calculations, templates, id) && Find(t.settlements, id).None?
    ensures Answer(t, calculations, id, templates[calculations[id].station.value], calculations[id].fee).Ok? <==>
      Settleable(calculations, templates, id)
  {}

  /** The entry of a calculation after a backlog round: its booking exactly if it is settleable. */
  ghost predicate Handled(calculations: map<nat, Calculation>, templates: map<nat, Template>, id: nat, row: Option<SettlementRow>) {
    if Settleable(calculations, templates, id)
    then row.Some? && SameBooking(row.value, templates[calculations[id].station.value], calculations[id].fee)
    else row.None?
  }

  /** The first calculations of a batch have the entries `found`, all others those from before. */
  ghost predicate Progress(before: seq<SettlementRow>, now: seq<SettlementRow>, pending: seq<nat>, found: seq<Option<SettlementRow>>)
    requires |found| <= |pending|
  {
    && (forall k :: 0 <= k < |found| ==> Find(now, pending[k]) == found[k])
    && (forall other: nat :: other !in pending[..|found|] ==> Find(now, other) == Find(before, other))
  }

  lemma Untouched(before: seq<SettlementRow>, now: seq<SettlementRow>, pending: seq<nat>, found: seq<Option<SettlementRow>>)
    requires |found| < |pending| && Progress(before, now, pending, found)
    requires forall j, k :: 0 <= j < k < |pending| ==> pending[j] != pending[k]
    ensures Find(now, pending[|found|]) == Find(before, pending[|found|])
  {
    assert pending[|found|] !in pending[..|found|];
  }

  lemma ProgressNext(
      before: seq<SettlementRow>, middle: seq<SettlementRow>, now: seq<SettlementRow>, pending: seq<nat>, found: seq<Option<SettlementRow>>)
    requires |found| < |pending| && Progress(before, middle, pending, found)
    requires forall j, k :: 0 <= j < k < |pending| ==> pending[j] != pending[k]
    requires forall other: nat :: other != pending[|found|] ==> Find(now, other) == Find(middle, other)
    ensures Progress(before, now, pending, found + [Find(now, pending[|found|])])
  {
    var n := |found|;
    assert pending[..n + 1] == pending[..n] + [pending[n]];
  }

  lemma ProgressDone(before: seq<SettlementRow>, now: seq<SettlementRow>, pending: seq<nat>, found: seq<Option<SettlementRow>>)
    requires |found| == |pending| && Progress(before, now, pending, found)
    ensures forall k :: 0 <= k < |pending| ==> Find(now, pending[k]) == found[k]
    ensures forall other: nat :: other !in pending ==> Find(now, other) == Find(before, other)
  {
    assert pending[..|found|] == pending;
  }

  ghost predicate Fails(calculations: map<nat, Calculation>, templates: map<nat, Template>, id: nat) {
    HasTemplate(calculations, templates, id) && !Settleable(calculations, templates, id)
  }

  // --------------------------------------------------------------- the program

  class Store {
    var calculations: map<nat, Calculation>
    var settlements: seq<SettlementRow>
    var parties: seq<PartyAmount>
    var nextId: nat

    ghost function View(): Tables reads this { Tables(settlements, parties, nextId) }

    constructor (calculations: map<nat, Calculation>)
      ensures this.calculations == calculations && View() == Tables([], [], 1) && Consistent(View())
    {
      this.calculations, settlements, parties, nextId := calculations, [], [], 1;
    }

    method Settle(id: nat, template: Template, fee: Fee) returns (r: Result<Receipt, SettleError>)
      requires Consistent(View())
      modifies this
      ensures calculations == old(calculations)
      ensures r == Answer(old(View()), calculations, id, template, fee)
      ensures View() == After(old(View()), calculations, id, template, fee)
      ensures Consistent(View())
    {
      SettleKeepsConsistent(View(), calculations, id, template, fee);
      var allocation := Allocate(fee.electric, fee.service, ModeOf(template.mode), template.parties);
      if allocation.Err? { return Err(SplitRejected); }
      var shares := allocation.value.shares;
      assert shares == Shares(template, fee);
      var paid := AddUp(shares);
      var pool := Wrap64(if ModeOf(template.mode) == SplitAll then fee.electric + fee.service else fee.service);
      GuardExactly(template, fee);
      if GuardFails(paid, pool, fee) { return Err(NotPreserved); }
      if id !in calculations { return Err(NotFound); }
      var calculation := calculations[id];
      if calculation.station.None? { return Err(NoSplitTemplate); }
      if calculation.fee.total != fee.total { return Err(Conflict); }
      var existing := Find(settlements, id);
      if existing.Some? {
        return if SameBooking(existing.value, template, fee) then Ok(Receipt(existing.value.id, false)) else Err(Conflict);
      }
      var row := SettlementRow(nextId, id, template.id, calculation.orderNo, fee, pool, allocation.value.electricExcluded);
      var rows := PartyLines(nextId, template, shares);
      settlements := settlements + [row];
      parties := parties + rows;
      nextId := nextId + 1;
      r := Ok(Receipt(row.id, true));
    }

    method PartyLines(settlement: nat, template: Template, shares: seq<Share>) returns (rows: seq<PartyAmount>)
      requires |shares| == |template.parties|
      ensures rows == PartyAmounts(settlement, template, shares)
    {
      rows := [];
      var i := 0;
      while i < |shares|
        invariant 0 <= i <= |shares|
        invariant rows == PartyAmounts(settlement, template, shares)[..i]
      {
        rows := rows + [PartyAmountOf(settlement, template, i, shares[i])];
        i := i + 1;
      }
    }

    /**
     * The backlog loop. Each pending calculation that was unsettled is booked exactly if it is settleable,
     * whatever becomes of the others; the first error is kept and stops nothing.
     */
    method SettleBacklog(pending: seq<nat>, templates: map<nat, Template>)
      returns (count: nat, failure: Option<SettleError>)
      requires Consistent(View())
      requires forall k :: 0 <= k < |pending| ==> pending[k] in calculations && Find(settlements, pending[k]).None?
      requires forall j, k :: 0 <= j < k < |pending| ==> pending[j] != pending[k]
      modifies this
      ensures calculations == old(calculations) && Consistent(View())
      ensures old(settlements) <= settlements && count == |settlements| - |old(settlements)|
      ensures forall k :: 0 <= k < |pending| ==> Handled(calculations, templates, pending[k], Find(settlements, pending[k]))
      ensures forall other: nat :: other !in pending ==> Find(settlements, other) == Find(old(settlements), other)
      ensures failure.None? <==> forall k :: 0 <= k < |pending| ==> !Fails(calculations, templates, pending[k])
    {
      count, failure := 0, None;
      ghost var known, before, found := calculations, settlements, [];
      var i := 0;
      while i < |pending|
        invariant 0 <= i <= |pending| && |found| == i
        invariant calculations == known && Consistent(View())
        invariant before <= settlements && count == |settlements| - |before|
        invariant forall k :: 0 <= k < i ==> Handled(known, templates, pending[k], found[k])
        invariant Progress(before, settlements, pending, found)
        invariant failure.None? <==> forall k :: 0 <= k < i ==> !Fails(known, templates, pending[k])
      {
        ghost var middle := settlements;
        Untouched(before, settlements, pending, found);
        var created, error := SettlePending(pending[i], templates);
        ProgressNext(before, middle, settlements, pending, found);
        count := if created then count + 1 else count;
        failure := if failure.None? then error else failure;
        found := found + [Find(settlements, pending[i])];
        i := i + 1;
      }
      ProgressDone(before, settlements, pending, found);
    }

    method SettlePending(id: nat, templates: map<nat, Template>) returns (created: bool, failure: Option<SettleError>)
      requires Consistent(View()) && id in calculations && Find(settlements, id).None?
      modifies this
      ensures calculations == old(calculations) && Consistent(View())
      ensures old(settlements) <= settlements && |settlements| == |old(settlements)| + (if created then 1 else 0)
      ensures created <==> Settleable(calculations, templates, id)
      ensures Handled(calculations, templates, id, Find(settlements, id))
      ensures failure.Some? <==> Fails(calculations, templates, id)
      ensures forall other: nat :: other != id ==> Find(settlements, other) == Find(old(settlements), other)
    {
      created, failure := false, None;
      var calculation := calculations[id];
      if calculation.station.Some? && calculation.station.value in templates {
        ghost var before := View();
        var template := templates[calculation.station.value];
        PendingAnswer(before, calculations, templates, id);
        var r := Settle(id, template, calculation.fee);
        if r.Err? {
          failure := Some(r.error);
        } else {
          created := r.value.created;
          FindAllAfter(before, calculations, id, template, calculation.fee);
        }
      }
    }
  }

  lemma FindOther(rows: seq<SettlementRow>, row: SettlementRow, other: nat)
    requires row.calculation != other
    ensures Find(rows + [row], other) == Find(rows, other)
  {
    FindFirst(rows, [row], other);
  }

  /** Booking one calculation leaves the others' entries as they were. */
  lemma FindAllAfter(t: Tables, calculations: map<nat, Calculation>, id: nat, template: Template, fee: Fee)
    requires Answer(t, calculations, id, template, fee).Ok?
    ensures var rows := After(t, calculations, id, template, fee).settlements;
      && Find(rows, id).Some? && SameBooking(Find(rows, id).value, template, fee)
      && forall other: nat :: other != id ==> Find(rows, other) == Find(t.settlements, other)
  {
    var booked := BookedRow(t, calculations, id, template, fee);
    if Answer(t, calculations, id, template, fee).value.created {
      var row := NewRow(t.nextId, id, calculations[id], template, fee);
      forall other: nat | other != id ensures Find(t.settlements + [row], other) == Find(t.settlements, other) {
        FindOther(t.settlements, row, other);
      }
    }
  }

  datatype Request = Request(calculation: nat, template: Template, fee: Fee)

  /** The tables after any sequence of direct and backlog bookings. */
  ghost function Run(t: Tables, calculations: map<nat, Calculation>, requests: seq<Request>): Tables
    decreases |requests|
  {
    if requests == [] then t
    else
      var q := requests[0];
      Run(After(t, calculations, q.calculation, q.template, q.fee), calculations, requests[1..])
  }

  lemma FindStable(rows: seq<SettlementRow>, longer: seq<SettlementRow>, calculation: nat)
    requires rows <= longer && Find(rows, calculation).Some?
    ensures Find(longer, calculation) == Find(rows, calculation)
  {
    FindFirst(rows, longer[|rows|..], calculation);
    assert longer == rows + longer[|rows|..];
  }

  lemma {:induction false} RunAppends(t: Tables, calculations: map<nat, Calculation>, requests: seq<Request>)
    requires Consistent(t)
    ensures Consistent(Run(t, calculations, requests)) && t.settlements <= Run(t, calculations, requests).settlements
    decreases |requests|
  {
    if requests != [] {
      var q := requests[0];
      SettleKeepsConsistent(t, calculations, q.calculation, q.template, q.fee);
      SettleOnlyAppends(t, calculations, q.calculation, q.template, q.fee);
      RunAppends(After(t, calculations, q.calculation, q.template, q.fee), calculations, requests[1..]);
    }
  }

  lemma {:induction false} RunOnlyAppends(t: Tables, calculations: map<nat, Calculation>, requests: seq<Request>)
    ensures t.settlements <= Run(t, calculations, requests).settlements
    decreases |requests|
  {
    if requests != [] {
      var q := requests[0];
      SettleOnlyAppends(t, calculations, q.calculation, q.template, q.fee);
      RunOnlyAppends(After(t, calculations, q.calculation, q.template, q.fee), calculations, requests[1..]);
    }
  }

  /**
   * Once booked, and after any other bookings, a request replays exactly when template ID, electricity,
   * service and pool are the booked ones.
   */
  lemma ReplayExactly(
      t: Tables, calculations: map<nat, Calculation>, id: nat, template: Template, fee: Fee,
      requests: seq<Request>, template': Template, fee': Fee)
    requires Answer(t, calculations, id, template, fee).Ok?
    requires Allocatable(template', fee') && fee'.total == fee.total
    requires Pool(template'.mode, fee') <= fee'.total
    ensures var later := Run(After(t, calculations, id, template, fee), calculations, requests);
      var first, again := Answer(t, calculations, id, template, fee), Answer(later, calculations, id, template', fee');
      && After(later, calculations, id, template', fee') == later
      && (again == Ok(Receipt(first.value.id, false)) || again == Err(Conflict))
      && (again.Ok? <==>
           template'.id == template.id && fee' == fee && Pool(template'.mode, fee') == Pool(template.mode, fee))
  {
    var row := BookedRow(t, calculations, id, template, fee);
    var booked := After(t, calculations, id, template, fee);
    RunOnlyAppends(booked, calculations, requests);
    FindStable(booked.settlements, Run(booked, calculations, requests).settlements, id);
    BookedAnswer(Run(booked, calculations, requests), calculations, id, template', fee', row);
    SameAsBooked(row, template, fee, template', fee');
  }

  /** Two bookings that fit one row agree in all that the row records of them. */
  lemma SameAsBooked(row: SettlementRow, template: Template, fee: Fee, template': Template, fee': Fee)
    requires SameBooking(row, template, fee) && fee'.total == fee.total
    requires 0 <= Pool(template.mode, fee) <= MAX_INT64 && 0 <= Pool(template'.mode, fee') <= MAX_INT64
    ensures SameBooking(row, template', fee') <==>
      template'.id == template.id && fee' == fee && Pool(template'.mode, fee') == Pool(template.mode, fee)
  {}

  /** Over every run, a calculation keeps its first settlement and the ledger stays consistent. */
  lemma RunKeepsFirstBooking(t: Tables, calculations: map<nat, Calculation>, requests: seq<Request>, calculation: nat)
    requires Consistent(t) && Find(t.settlements, calculation).Some?
    ensures Consistent(Run(t, calculations, requests))
    ensures Find(Run(t, calculations, requests).settlements, calculation) == Find(t.settlements, calculation)
  {
    RunAppends(t, calculations, requests);
    FindStable(t.settlements, Run(t, calculations, requests).settlements, calculation);
  }
}
