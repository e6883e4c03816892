/**
 * From a finished charge to a delivered fee: calculate once, apply, mark delivered, retry anything
 * (internal/central/billing/store.go, internal/central/billing/service.go); the charge service's side of
 * Apply follows internal/central/settlement/billing.go.
 */
module BillingPipeline {
  import opened Basics

  datatype Fee = Fee(electric: int, service: int, total: int)

  /** `meter` stands for the rule, offer and meter data that pricing reads. */
  datatype Source = Source(
    order: nat, orderNo: string, user: nat, station: nat, finalFee: Option<Fee>, reviewId: string,
    offerPrice: Option<int>, meter: nat)

  datatype FeeResult = FeeResult(number: string, source: Source, fee: Fee)

  datatype PriceError = MeterReview | InvalidPricing

  datatype BillError = Refused | NeedsReview(error: PriceError) | Missing | Storage

  /** Automatic pricing: any deterministic function of the source. */
  type Pricer = Source -> Result<Fee, PriceError>

  datatype Receipt = Receipt(source: Source, calculation: Option<nat>)

  datatype Calculation = Calculation(order: nat, result: FeeResult)

  datatype Delivery = Delivery(payload: FeeResult, delivered: bool, attempts: nat)

  datatype Review = Pending | Resolved

  datatype Db = Db(
    receipts: map<nat, Receipt>, calculations: map<nat, Calculation>, deliveries: map<nat, Delivery>,
    reviews: map<nat, Review>, nextId: nat)

  // -------------------------------------------------------------- calculation

  /** A manual fee needs a review, an offer, and must add up within the offer; otherwise the pricer decides. */
  function PriceSource(price: Pricer, s: Source): Result<Fee, BillError> {
    if s.finalFee.Some? then
      var f := s.finalFee.value;
      if s.reviewId == "" || s.offerPrice.None? || f.electric < 0 || f.service < 0
         || f.total != f.electric + f.service || f.total > s.offerPrice.value
      then Err(Refused) else Ok(f)
    else match price(s) case Ok(f) => Ok(f) case Err(e) => Err(NeedsReview(e))
  }

  /** The fee number follows from the order alone; `number` stands for CalculationNumber. */
  function ResultFor(number: (string, nat) -> string, s: Source, f: Fee): FeeResult {
    FeeResult(number(s.orderNo, s.order), s, f)
  }

  predicate Identified(s: Source) { s.order != 0 && s.orderNo != "" && s.user != 0 && s.station != 0 }

  datatype Rules = Rules(price: Pricer, number: (string, nat) -> string)

  /** The tables and the result after calculating a source. */
  function CalculateTx(db: Db, rules: Rules, s: Source): Result<(Db, FeeResult), BillError> {
    if !Identified(s) then Err(Refused)
    else
      var fee := PriceSource(rules.price, s);
      if fee.Err? then Err(fee.error)
      else
        var receipt := if s.order in db.receipts then db.receipts[s.order] else Receipt(s, None);
        if receipt.source != s then Err(Refused)
        else if receipt.calculation.Some? then
          if s.order in db.deliveries then Ok((db, db.deliveries[s.order].payload)) else Err(Missing)
        else if s.order in db.deliveries then Err(Storage)
        else
          var result := ResultFor(rules.number, s, fee.value);
          Ok((Insert(db, result), result))
  }

  /** The three rows of a new calculation. */
  function Insert(db: Db, r: FeeResult): Db {
    var o := r.source.order;
    db.(receipts := db.receipts[o := Receipt(r.source, Some(db.nextId))],
        calculations := db.calculations[db.nextId := Calculation(o, r)],
        deliveries := db.deliveries[o := Delivery(r, false, 0)],
        nextId := db.nextId + 1)
  }

  function Resolve(reviews: map<nat, Review>, order: nat): map<nat, Review> {
    if order in reviews then reviews[order := Resolved] else reviews
  }

  /** A review is opened once; asking again, even after it was resolved, changes nothing. */
  function Ask(reviews: map<nat, Review>, order: nat): map<nat, Review> {
    if order in reviews then reviews else reviews[order := Pending]
  }

  function Marked(db: Db, order: nat): Db {
    if order in db.deliveries
    then db.(deliveries := db.deliveries[order := db.deliveries[order].(delivered := true)], reviews := Resolve(db.reviews, order))
    else db.(reviews := Resolve(db.reviews, order))
  }

  /** A failed delivery counts an attempt unless somebody delivered it meanwhile. */
  function Postponed(db: Db, order: nat): Db {
    if order in db.deliveries && !db.deliveries[order].delivered
    then db.(deliveries := db.deliveries[order := db.deliveries[order].(attempts := db.deliveries[order].attempts + 1)])
    else db
  }

  // ------------------------------------------------- the store and the service

  /** What the world answers while one due order is billed. */
  datatype Attempt = Attempt(
    order: nat, source: Option<Source>, reviewSaved: bool, deferred: bool, applied: bool, marked: bool,
    billIssued: bool, splitBooked: bool)

  class Service {
    const rules: Rules
    var db: Db

    constructor (rules: Rules, db: Db)
      ensures this.rules == rules && this.db == db
    {
      this.rules, this.db := rules, db;
    }

    method Calculate(s: Source) returns (r: Result<FeeResult, BillError>)
      modifies this
      ensures r.Ok? ==> CalculateTx(old(db), rules, s) == Ok((db, r.value))
      ensures r.Err? ==> CalculateTx(old(db), rules, s) == Err(r.error) && db == old(db)
    {
      if !Identified(s) { return Err(Refused); }
      var fee := PriceSource(rules.price, s);
      if fee.Err? { return Err(fee.error); }
      var tx := db;
      if s.order !in tx.receipts { tx := tx.(receipts := tx.receipts[s.order := Receipt(s, None)]); }
      var receipt := tx.receipts[s.order];
      if receipt.source != s { return Err(Refused); }
      if receipt.calculation.Some? {
        if s.order !in tx.deliveries { return Err(Missing); }
        return Ok(tx.deliveries[s.order].payload);
      }
      var result := ResultFor(rules.number, s, fee.value);
      var id := tx.nextId;
      tx := tx.(calculations := tx.calculations[id := Calculation(s.order, result)], nextId := id + 1);
      tx := tx.(receipts := tx.receipts[s.order := receipt.(calculation := Some(id))]);
      if s.order in tx.deliveries { return Err(Storage); }
      tx := tx.(deliveries := tx.deliveries[s.order := Delivery(result, false, 0)]);
      assert tx.receipts == db.receipts[s.order := Receipt(s, Some(id))];
      db := tx;
      r := Ok(result);
    }

    method MarkDelivered(order: nat)
      modifies this
      ensures db == Marked(old(db), order)
    {
      if order in db.deliveries {
        db := db.(deliveries := db.deliveries[order := db.deliveries[order].(delivered := true)]);
      }
      db := db.(reviews := Resolve(db.reviews, order));
    }

    /**
     * One due order of Run; `done` counts it, `failed` reports an error. A bill that cannot be issued or
     * a split that cannot be booked is reported, and the order counts all the same.
     */
    method Bill(a: Attempt) returns (done: bool, failed: bool)
      modifies this
      ensures db == Billed(old(db), rules, a)
      ensures done <==> a.source.Some? && CalculateTx(old(db), rules, a.source.value).Ok? && a.applied && a.marked
      ensures failed <==>
        if done then !(a.billIssued && a.splitBooked)
        else !(a.source.Some? && AsksReview(old(db), rules, a.source.value) && a.reviewSaved && a.deferred)
    {
      if a.source.None? { return false, true; }
      var calculated := Calculate(a.source.value);
      if calculated.Err? {
        if calculated.error.NeedsReview? && a.reviewSaved {
          db := db.(reviews := Ask(db.reviews, a.order));
          if a.deferred { return false, false; }
        }
        return false, true;
      }
      if a.applied && a.marked {
        MarkDelivered(a.order);
        return true, !a.billIssued || !a.splitBooked;
      }
      return false, true;
    }

    /** The retry loop over undelivered results: apply the stored payload, then mark. */
    method DeliverPending(pending: seq<nat>, applied: seq<bool>, marked: seq<bool>) returns (count: nat)
      requires |pending| == |applied| == |marked|
      requires forall k :: 0 <= k < |pending| ==> pending[k] in db.deliveries
      modifies this
      ensures db == Delivered(old(db), pending, applied, marked)
      ensures count == Successes(old(db), pending, applied, marked)
    {
      count := 0;
      var i := 0;
      while i < |pending|
        invariant 0 <= i <= |pending| == |applied| == |marked|
        invariant db.deliveries.Keys == old(db).deliveries.Keys
        invariant Delivered(old(db), pending, applied, marked) == Delivered(db, pending[i..], applied[i..], marked[i..])
        invariant Successes(old(db), pending, applied, marked) == count + Successes(db, pending[i..], applied[i..], marked[i..])
      {
        var order := pending[i];
        assert pending[i..][1..] == pending[i + 1..] && applied[i..][1..] == applied[i + 1..] && marked[i..][1..] == marked[i + 1..];
        if db.deliveries[order].payload.source.order == order && applied[i] && marked[i] {
          MarkDelivered(order);
          count := count + 1;
        } else if !db.deliveries[order].delivered {
          db := db.(deliveries := db.deliveries[order := db.deliveries[order].(attempts := db.deliveries[order].attempts + 1)]);
        }
        i := i + 1;
      }
    }
  }

  predicate AsksReview(db: Db, rules: Rules, s: Source) {
    var r := CalculateTx(db, rules, s);
    r.Err? && r.error.NeedsReview?
  }

  function Billed(db: Db, rules: Rules, a: Attempt): Db {
    if a.source.None? then db
    else match CalculateTx(db, rules, a.source.value)
      case Ok((db1, _)) => if a.applied && a.marked then Marked(db1, a.order) else db1
      case Err(e) => if e.NeedsReview? && a.reviewSaved then db.(reviews := Ask(db.reviews, a.order)) else db
  }

  predicate Deliverable(db: Db, order: nat, applied: bool, marked: bool) {
    order in db.deliveries && db.deliveries[order].payload.source.order == order && applied && marked
  }

  function DeliveredOne(db: Db, order: nat, applied: bool, marked: bool): Db {
    if Deliverable(db, order, applied, marked) then Marked(db, order) else Postponed(db, order)
  }

  function Delivered(db: Db, pending: seq<nat>, applied: seq<bool>, marked: seq<bool>): Db
    requires |pending| == |applied| == |marked|
    decreases |pending|
  {
    if pending == [] then db
    else Delivered(DeliveredOne(db, pending[0], applied[0], marked[0]), pending[1..], applied[1..], marked[1..])
  }

  function Successes(db: Db, pending: seq<nat>, applied: seq<bool>, marked: seq<bool>): nat
    requires |pending| == |applied| == |marked|
    decreases |pending|
  {
    if pending == [] then 0
    else var first := if Deliverable(db, pending[0], applied[0], marked[0]) then 1 else 0;
      first + Successes(DeliveredOne(db, pending[0], applied[0], marked[0]), pending[1..], applied[1..], marked[1..])
  }

  // ------------------------------------------------ the charge service's side

  /** What the charge service holds of an order when a result is applied. */
  datatype Order = Order(source: Source, enough: bool)

  /** The fee receipts of the charge service, after applying a result to an order; None is a refusal. */
  function ApplyTx(charged: map<nat, FeeResult>, rules: Rules, order: Order, r: FeeResult): Option<map<nat, FeeResult>> {
    if order.source != r.source || PriceSource(rules.price, order.source) != Ok(r.fee)
       || r.number != rules.number(order.source.orderNo, order.source.order) then None
    else if r.source.order in charged then
      if charged[r.source.order] == r then Some(charged) else None
    else if order.enough then Some(charged[r.source.order := r])
    else None
  }

  // ---------------------------------------------- the whole system and its runs

  /** A worker holds a result it calculated or loaded, and later the acknowledgement of its application. */
  datatype Worker = Has(order: nat, result: FeeResult) | Acked(order: nat, result: FeeResult)

  datatype Call = Call(order: nat, result: FeeResult, acknowledged: bool)

  /** Workers that hold nothing are absent; `calls` logs every application that was ever tried. */
  datatype System = System(db: Db, charged: map<nat, FeeResult>, workers: map<nat, Worker>, calls: seq<Call>)

  /** A transaction may commit and answer, commit without its answer arriving, or not happen. */
  datatype Fault = Clean | ReplyLost | RolledBack

  datatype Event =
    | CalculateEvent(worker: nat, source: Source, fault: Fault)
    | ReviewEvent(order: nat)
    | LoadEvent(worker: nat, order: nat)
    | ApplyEvent(worker: nat, current: Order, fault: Fault)
    | MarkEvent(worker: nat, fault: Fault)
    | PostponeEvent(order: nat)
    | CrashEvent(worker: nat)

  function Calculated(s: System, rules: Rules, worker: nat, source: Source, fault: Fault): System {
    match CalculateTx(s.db, rules, source)
    case Err(_) => s
    case Ok((db1, r)) =>
      if fault.RolledBack? then s
      else if fault.ReplyLost? then s.(db := db1)
      else s.(db := db1, workers := s.workers[worker := Has(source.order, r)])
  }

  function Loaded(s: System, worker: nat, order: nat): System {
    if order in s.db.deliveries && !s.db.deliveries[order].delivered && s.db.deliveries[order].payload.source.order == order
    then s.(workers := s.workers[worker := Has(order, s.db.deliveries[order].payload)])
    else s
  }

  function Applied(s: System, rules: Rules, worker: nat, order: Order, fault: Fault): System
    requires worker in s.workers
  {
    var w := s.workers[worker];
    var charged1 := ApplyTx(s.charged, rules, order, w.result);
    if charged1.None? || !fault.Clean? then
      s.(charged := if charged1.Some? && fault.ReplyLost? then charged1.value else s.charged,
         workers := s.workers - {worker}, calls := s.calls + [Call(w.order, w.result, false)])
    else
      s.(charged := charged1.value, workers := s.workers[worker := Acked(w.order, w.result)],
         calls := s.calls + [Call(w.order, w.result, true)])
  }

  function Closed(s: System, worker: nat, fault: Fault): System
    requires worker in s.workers
  {
    s.(db := if fault.RolledBack? then s.db else Marked(s.db, s.workers[worker].order), workers := s.workers - {worker})
  }

  /** A source read for an order names that order (internal/central/settlement/billing.go:98). */
  ghost predicate Next(s: System, rules: Rules, e: Event, s': System) {
    match e
    case CalculateEvent(worker, source, fault) => worker !in s.workers && s' == Calculated(s, rules, worker, source, fault)
    case ReviewEvent(order) => s' == s.(db := s.db.(reviews := Ask(s.db.reviews, order)))
    case LoadEvent(worker, order) => worker !in s.workers && s' == Loaded(s, worker, order)
    case ApplyEvent(worker, order, fault) =>
      worker in s.workers && s.workers[worker].Has? && s' == Applied(s, rules, worker, order, fault)
    case MarkEvent(worker, fault) => worker in s.workers && s.workers[worker].Acked? && s' == Closed(s, worker, fault)
    case PostponeEvent(order) => s' == s.(db := Postponed(s.db, order))
    case CrashEvent(worker) => s' == s.(workers := s.workers - {worker})
  }

  ghost predicate Step(s: System, rules: Rules, s': System) { exists e :: Next(s, rules, e, s') }

  ghost predicate Run(rules: Rules, run: seq<System>) {
    && run != []
    && run[0] == System(Db(map[], map[], map[], map[], 0), map[], map[], [])
    && forall i :: 0 <= i < |run| - 1 ==> Step(run[i], rules, run[i + 1])
  }

  // ------------------------------------------------------------- the invariant

  /** The receipt, the calculation and the stored payload of an order tell one story. */
  ghost predicate OrderOk(db: Db, rules: Rules, o: nat)
    requires o in db.receipts && o in db.deliveries
  {
    var receipt, payload := db.receipts[o], db.deliveries[o].payload;
    && receipt.calculation.Some? && receipt.calculation.value in db.calculations
    && db.calculations[receipt.calculation.value] == Calculation(o, payload)
    && receipt.source == payload.source && payload.source.order == o
    && PriceSource(rules.price, payload.source) == Ok(payload.fee)
    && payload == ResultFor(rules.number, payload.source, payload.fee)
  }

  ghost predicate CalculationOk(db: Db, c: nat)
    requires c in db.calculations
  {
    var o := db.calculations[c].order;
    c < db.nextId && o in db.receipts && db.receipts[o].calculation == Some(c)
  }

  ghost predicate DbOk(db: Db, rules: Rules) {
    && db.receipts.Keys == db.deliveries.Keys
    && (forall o :: o in db.receipts ==> OrderOk(db, rules, o))
    && (forall c :: c in db.calculations ==> CalculationOk(db, c))
  }

  predicate Holds(db: Db, order: nat, r: FeeResult) { order in db.deliveries && db.deliveries[order].payload == r }

  ghost predicate WorkersOk(s: System) {
    forall w :: w in s.workers ==>
      && Holds(s.db, s.workers[w].order, s.workers[w].result)
      && (s.workers[w].Acked? ==> Settled(s, s.workers[w].order, s.workers[w].result))
  }

  /** The charge service recorded the result and some application of it was acknowledged. */
  ghost predicate Settled(s: System, order: nat, r: FeeResult) {
    order in s.charged && s.charged[order] == r && Call(order, r, true) in s.calls
  }

  ghost predicate CallsOk(s: System) {
    && (forall c :: c in s.calls ==> Holds(s.db, c.order, c.result))
    && (forall o :: o in s.charged ==> Holds(s.db, o, s.charged[o]))
  }

  ghost predicate DeliveriesOk(s: System) {
    forall o :: o in s.db.deliveries && s.db.deliveries[o].delivered ==> Settled(s, o, s.db.deliveries[o].payload)
  }

  ghost predicate Inv(s: System, rules: Rules) { DbOk(s.db, rules) && WorkersOk(s) && CallsOk(s) && DeliveriesOk(s) }

  /** Payloads are kept and nothing is newly delivered. */
  ghost predicate Grows(db: Db, db': Db) {
    && (forall o :: o in db.deliveries ==> o in db'.deliveries && db'.deliveries[o].payload == db.deliveries[o].payload)
    && (forall o :: o in db'.deliveries && db'.deliveries[o].delivered ==> o in db.deliveries && db.deliveries[o].delivered)
  }

  /** Only flags and counters of deliveries and the reviews differ. */
  ghost predicate SameMoney(db: Db, db': Db) {
    && db'.receipts == db.receipts && db'.calculations == db.calculations && db'.nextId == db.nextId
    && db'.deliveries.Keys == db.deliveries.Keys
    && (forall o :: o in db.deliveries ==> db'.deliveries[o].payload == db.deliveries[o].payload)
  }

  lemma SameMoneyKeepsDbOk(db: Db, db': Db, rules: Rules)
    requires DbOk(db, rules) && SameMoney(db, db')
    ensures DbOk(db', rules)
  {
    forall o | o in db'.receipts ensures OrderOk(db', rules, o) { assert OrderOk(db, rules, o); }
    forall c | c in db'.calculations ensures CalculationOk(db', c) { assert CalculationOk(db, c); }
  }

  /** A refused calculation is refused for exactly three reasons; an accepted one answers the stored payload if there is one. */
  lemma CalculateExactly(db: Db, rules: Rules, s: Source)
    requires DbOk(db, rules)
    ensures CalculateTx(db, rules, s).Ok? <==>
      && s.order != 0 && s.orderNo != "" && s.user != 0 && s.station != 0
      && PriceSource(rules.price, s).Ok? && (s.order in db.receipts ==> db.receipts[s.order].source == s)
    ensures CalculateTx(db, rules, s).Ok? && s.order in db.receipts ==>
      CalculateTx(db, rules, s) == Ok((db, db.deliveries[s.order].payload))
  {
    if s.order in db.receipts { assert OrderOk(db, rules, s.order); }
  }

  lemma InsertKeepsOrder(db: Db, rules: Rules, r: FeeResult, o: nat)
    requires DbOk(db, rules) && o in db.receipts && o != r.source.order
    ensures var db1 := Insert(db, r); o in db1.receipts && o in db1.deliveries && OrderOk(db1, rules, o)
  {
    assert OrderOk(db, rules, o);
    CalculationsApart(db, o);
  }

  lemma InsertKeepsCalculation(db: Db, rules: Rules, r: FeeResult, c: nat)
    requires DbOk(db, rules) && r.source.order !in db.receipts && c in db.calculations
    ensures var db1 := Insert(db, r); c in db1.calculations && CalculationOk(db1, c)
  {
    assert CalculationOk(db, c);
  }

  lemma InsertKeepsDbOk(db: Db, rules: Rules, r: FeeResult)
    requires DbOk(db, rules) && r.source.order !in db.receipts
    requires PriceSource(rules.price, r.source) == Ok(r.fee) && r == ResultFor(rules.number, r.source, r.fee)
    ensures DbOk(Insert(db, r), rules)
  {
    var db1 := Insert(db, r);
    forall o | o in db1.receipts ensures OrderOk(db1, rules, o) {
      if o != r.source.order { InsertKeepsOrder(db, rules, r, o); }
    }
    forall c | c in db1.calculations ensures CalculationOk(db1, c) {
      if c != db.nextId { InsertKeepsCalculation(db, rules, r, c); }
    }
  }

  /** What is calculated for a new order. */
  lemma NewCalculation(db: Db, rules: Rules, s: Source) returns (r: FeeResult)
    requires s.order !in db.receipts && CalculateTx(db, rules, s).Ok?
    ensures CalculateTx(db, rules, s).value == (Insert(db, r), r)
    ensures r.source == s && PriceSource(rules.price, s) == Ok(r.fee) && r == ResultFor(rules.number, s, r.fee)
  {
    r := ResultFor(rules.number, s, PriceSource(rules.price, s).value);
  }

  lemma InsertGrows(db: Db, r: FeeResult)
    requires r.source.order !in db.deliveries
    ensures Grows(db, Insert(db, r)) && Holds(Insert(db, r), r.source.order, r)
  {}

  lemma CalculateKeepsDbOk(db: Db, rules: Rules, s: Source, db1: Db, r: FeeResult)
    requires DbOk(db, rules) && CalculateTx(db, rules, s) == Ok((db1, r))
    ensures DbOk(db1, rules) && Grows(db, db1) && Holds(db1, s.order, r)
  {
    if s.order in db.receipts {
      CalculateExactly(db, rules, s);
    } else {
      var calculated := NewCalculation(db, rules, s);
      InsertKeepsDbOk(db, rules, r);
      InsertGrows(db, r);
    }
  }

  lemma CalculationsApart(db: Db, o: nat)
    requires o in db.receipts && db.receipts[o].calculation.Some? && db.receipts[o].calculation.value in db.calculations
    requires forall c :: c in db.calculations ==> CalculationOk(db, c)
    ensures db.receipts[o].calculation.value < db.nextId
  {
    assert CalculationOk(db, db.receipts[o].calculation.value);
  }

  /** The log and the charges only grow. */
  ghost predicate LogGrows(s: System, s': System) {
    && (forall c :: c in s.calls ==> c in s'.calls)
    && (forall o :: o in s.charged ==> o in s'.charged && s'.charged[o] == s.charged[o])
  }

  /** What was delivered or acknowledged before, and still is, stays settled. */
  lemma SettledStays(s: System, s': System)
    requires WorkersOk(s) && DeliveriesOk(s) && LogGrows(s, s')
    ensures forall o :: o in s.db.deliveries && s.db.deliveries[o].delivered ==> Settled(s', o, s.db.deliveries[o].payload)
    ensures forall w :: w in s.workers && s.workers[w].Acked? ==> Settled(s', s.workers[w].order, s.workers[w].result)
  {
    forall o | o in s.db.deliveries && s.db.deliveries[o].delivered ensures Settled(s', o, s.db.deliveries[o].payload) {
      assert Settled(s, o, s.db.deliveries[o].payload);
    }
    forall w | w in s.workers && s.workers[w].Acked? ensures Settled(s', s.workers[w].order, s.workers[w].result) {
      assert Settled(s, s.workers[w].order, s.workers[w].result);
    }
  }

  lemma GrowthKeepsRest(s: System, s': System)
    requires WorkersOk(s) && CallsOk(s) && DeliveriesOk(s)
    requires Grows(s.db, s'.db) && s'.workers == s.workers && s'.calls == s.calls && s'.charged == s.charged
    ensures WorkersOk(s') && CallsOk(s') && DeliveriesOk(s')
  {
    SettledStays(s, s');
  }

  lemma HiredKeepsRest(s: System, s': System, w: nat, worker: Worker)
    requires WorkersOk(s) && CallsOk(s) && DeliveriesOk(s) && s' == s.(workers := s.workers[w := worker])
    requires worker.Has? && Holds(s.db, worker.order, worker.result)
    ensures WorkersOk(s') && CallsOk(s') && DeliveriesOk(s')
  {
    SettledStays(s, s');
  }

  lemma CalculateKeepsInv(s: System, rules: Rules, worker: nat, source: Source, fault: Fault)
    requires Inv(s, rules)
    ensures Inv(Calculated(s, rules, worker, source, fault), rules)
  {
    var r := CalculateTx(s.db, rules, source);
    if r.Ok? {
      CalculateKeepsDbOk(s.db, rules, source, r.value.0, r.value.1);
      var s1 := s.(db := r.value.0);
      GrowthKeepsRest(s, s1);
      HiredKeepsRest(s1, s1.(workers := s1.workers[worker := Has(source.order, r.value.1)]), worker, Has(source.order, r.value.1));
    }
  }

  lemma LoadKeepsInv(s: System, rules: Rules, worker: nat, order: nat)
    requires Inv(s, rules)
    ensures Inv(Loaded(s, worker, order), rules)
  {
    var s' := Loaded(s, worker, order);
    if s' != s { HiredKeepsRest(s, s', worker, s'.workers[worker]); }
  }

  /** Nothing else than the charge service and the log moves, and both only grow. */
  lemma AppliedKeepsRest(s: System, s': System, w: nat)
    requires WorkersOk(s) && CallsOk(s) && DeliveriesOk(s) && w in s.workers && s'.db == s.db
    requires s'.charged == s.charged || (s.workers[w].order !in s.charged && s'.charged == s.charged[s.workers[w].order := s.workers[w].result])
    requires var h := s.workers[w];
      || (s'.workers == s.workers - {w} && s'.calls == s.calls + [Call(h.order, h.result, false)])
      || (s'.workers == s.workers[w := Acked(h.order, h.result)] && s'.calls == s.calls + [Call(h.order, h.result, true)]
          && h.order in s'.charged && s'.charged[h.order] == h.result)
    ensures WorkersOk(s') && CallsOk(s') && DeliveriesOk(s')
  {
    SettledStays(s, s');
  }

  lemma HeldSource(s: System, rules: Rules, worker: nat)
    requires Inv(s, rules) && worker in s.workers
    ensures s.workers[worker].result.source.order == s.workers[worker].order
  {
    assert OrderOk(s.db, rules, s.workers[worker].order);
  }

  /** The charge service takes the held result or nothing, and the worker moves on or off. */
  lemma AppliedShape(s: System, rules: Rules, w: nat, order: Order, fault: Fault)
    requires w in s.workers && s.workers[w].result.source.order == s.workers[w].order
    ensures var s', h := Applied(s, rules, w, order, fault), s.workers[w];
      && s'.db == s.db
      && (s'.charged == s.charged || (h.order !in s.charged && s'.charged == s.charged[h.order := h.result]))
      && (|| (s'.workers == s.workers - {w} && s'.calls == s.calls + [Call(h.order, h.result, false)])
          || (s'.workers == s.workers[w := Acked(h.order, h.result)] && s'.calls == s.calls + [Call(h.order, h.result, true)]
              && h.order in s'.charged && s'.charged[h.order] == h.result))
  {}

  lemma ApplyKeepsInv(s: System, rules: Rules, worker: nat, order: Order, fault: Fault)
    requires Inv(s, rules) && worker in s.workers
    ensures Inv(Applied(s, rules, worker, order, fault), rules)
  {
    HeldSource(s, rules, worker);
    AppliedShape(s, rules, worker, order, fault);
    AppliedKeepsRest(s, Applied(s, rules, worker, order, fault), worker);
  }

  lemma MarkKeepsInv(s: System, rules: Rules, worker: nat, fault: Fault)
    requires Inv(s, rules) && worker in s.workers && s.workers[worker].Acked?
    ensures Inv(Closed(s, worker, fault), rules)
  {
    var s' := Closed(s, worker, fault);
    SameMoneyKeepsDbOk(s.db, s'.db, rules);
    SettledStays(s, s');
  }

  lemma TablesKeepInv(s: System, rules: Rules, s': System)
    requires Inv(s, rules) && s' == s.(db := s'.db) && SameMoney(s.db, s'.db) && Grows(s.db, s'.db)
    ensures Inv(s', rules)
  {
    SameMoneyKeepsDbOk(s.db, s'.db, rules);
    GrowthKeepsRest(s, s');
  }

  lemma CrashKeepsInv(s: System, rules: Rules, worker: nat)
    requires Inv(s, rules)
    ensures Inv(s.(workers := s.workers - {worker}), rules)
  {
    var s' := s.(workers := s.workers - {worker});
    SettledStays(s, s');
  }

  lemma StepKeepsInv(s: System, rules: Rules, e: Event, s': System)
    requires Inv(s, rules) && Next(s, rules, e, s')
    ensures Inv(s', rules)
  {
    match e {
      case CalculateEvent(worker, source, fault) => CalculateKeepsInv(s, rules, worker, source, fault);
      case ReviewEvent(_) => TablesKeepInv(s, rules, s');
      case LoadEvent(worker, order) => LoadKeepsInv(s, rules, worker, order);
      case ApplyEvent(worker, order, fault) => ApplyKeepsInv(s, rules, worker, order, fault);
      case MarkEvent(worker, fault) => MarkKeepsInv(s, rules, worker, fault);
      case PostponeEvent(_) => TablesKeepInv(s, rules, s');
      case CrashEvent(worker) => CrashKeepsInv(s, rules, worker);
    }
  }

  lemma {:induction false} RunInv(rules: Rules, run: seq<System>, i: nat)
    requires Run(rules, run) && i < |run|
    ensures Inv(run[i], rules)
  {
    if i > 0 {
      RunInv(rules, run, i - 1);
      assert Step(run[i - 1], rules, run[i]);
      var e :| Next(run[i - 1], rules, e, run[i]);
      StepKeepsInv(run[i - 1], rules, e, run[i]);
    }
  }

  // --------------------------------------------------------------- the theorems

  /** Every receipt belongs to a priced source, and each order has at most one calculation. */
  lemma OneCalculation(rules: Rules, run: seq<System>, i: nat, c: nat, d: nat)
    requires Run(rules, run) && i < |run| && c in run[i].db.calculations && d in run[i].db.calculations
    requires run[i].db.calculations[c].order == run[i].db.calculations[d].order
    ensures c == d
  {
    RunInv(rules, run, i);
    assert CalculationOk(run[i].db, c) && CalculationOk(run[i].db, d);
  }

  /** A receipt exists only for a source that pricing accepts, and holds exactly its price. */
  lemma ReceiptsArePriced(rules: Rules, run: seq<System>, i: nat, o: nat)
    requires Run(rules, run) && i < |run| && o in run[i].db.receipts
    ensures o in run[i].db.deliveries
    ensures var source := run[i].db.receipts[o].source;
      source.order == o && PriceSource(rules.price, source) == Ok(run[i].db.deliveries[o].payload.fee)
  {
    RunInv(rules, run, i);
    assert OrderOk(run[i].db, rules, o);
  }

  /** What is calculated, charged or delivered for an order in one state is so, unchanged, in another. */
  ghost predicate Kept(s: System, s': System, o: nat) {
    && (o in s.db.deliveries ==>
         && o in s'.db.deliveries && s'.db.deliveries[o].payload == s.db.deliveries[o].payload
         && (s.db.deliveries[o].delivered ==> s'.db.deliveries[o].delivered))
    && (o in s.charged ==> o in s'.charged && s'.charged[o] == s.charged[o])
  }

  lemma CalculateKeeps(s: System, rules: Rules, worker: nat, source: Source, fault: Fault, o: nat)
    requires Inv(s, rules)
    ensures Kept(s, Calculated(s, rules, worker, source, fault), o)
  {
    CalculateExactly(s.db, rules, source);
  }

  lemma ApplyKeeps(s: System, rules: Rules, worker: nat, order: Order, fault: Fault, o: nat)
    requires worker in s.workers
    ensures Kept(s, Applied(s, rules, worker, order, fault), o)
  {}

  lemma MarkKeeps(s: System, worker: nat, fault: Fault, o: nat)
    requires worker in s.workers
    ensures Kept(s, Closed(s, worker, fault), o)
  {}

  lemma StepKeeps(s: System, rules: Rules, e: Event, s': System, o: nat)
    requires Inv(s, rules) && Next(s, rules, e, s')
    ensures Kept(s, s', o)
  {
    match e {
      case CalculateEvent(worker, source, fault) => CalculateKeeps(s, rules, worker, source, fault, o);
      case ApplyEvent(worker, order, fault) => ApplyKeeps(s, rules, worker, order, fault, o);
      case ReviewEvent(_) =>
      case LoadEvent(_, _) =>
      case MarkEvent(worker, fault) => MarkKeeps(s, worker, fault, o);
      case PostponeEvent(_) =>
      case CrashEvent(_) =>
    }
  }

  lemma StepKeepsAll(s: System, rules: Rules, s': System, o: nat)
    requires Inv(s, rules) && Step(s, rules, s')
    ensures Kept(s, s', o)
  {
    var e :| Next(s, rules, e, s');
    StepKeeps(s, rules, e, s', o);
  }

  lemma KeptTransitive(s: System, t: System, u: System, o: nat)
    requires Kept(s, t, o) && Kept(t, u, o)
    ensures Kept(s, u, o)
  {}

  lemma {:induction false} KeptChain(run: seq<System>, i: nat, j: nat, o: nat)
    requires i <= j < |run| && forall n :: i <= n < j ==> Kept(run[n], run[n + 1], o)
    ensures Kept(run[i], run[j], o)
    decreases j
  {
    if i < j {
      KeptChain(run, i, j - 1, o);
      KeptTransitive(run[i], run[j - 1], run[j], o);
    }
  }

  /** What is once calculated, charged or delivered for an order stays so, unchanged, forever. */
  lemma PermanentOnce(rules: Rules, run: seq<System>, i: nat, j: nat, o: nat)
    requires Run(rules, run) && i <= j < |run|
    ensures Kept(run[i], run[j], o)
  {
    forall n | i <= n < j ensures Kept(run[n], run[n + 1], o) {
      RunInv(rules, run, n);
      StepKeepsAll(run[n], rules, run[n + 1], o);
    }
    KeptChain(run, i, j, o);
  }

  /** Every application ever tried for an order, by any worker, carried one and the same result. */
  lemma CallsAgree(rules: Rules, run: seq<System>, i: nat, j: nat, c: Call, d: Call)
    requires Run(rules, run) && i <= j < |run| && c in run[i].calls && d in run[j].calls && c.order == d.order
    ensures c.result == d.result && c.result.source.order == c.order
    ensures c.order in run[j].charged ==> run[j].charged[c.order] == c.result
  {
    RunInv(rules, run, i);
    RunInv(rules, run, j);
    PermanentOnce(rules, run, i, j, c.order);
    assert Holds(run[i].db, c.order, c.result) && Holds(run[j].db, d.order, d.result);
    assert OrderOk(run[i].db, rules, c.order);
  }

  /** The charge service never holds anything but the calculated result of an order, at the price of its source. */
  lemma ChargedAsCalculated(rules: Rules, run: seq<System>, i: nat, o: nat)
    requires Run(rules, run) && i < |run| && o in run[i].charged
    ensures o in run[i].db.deliveries && run[i].charged[o] == run[i].db.deliveries[o].payload
    ensures PriceSource(rules.price, run[i].charged[o].source) == Ok(run[i].charged[o].fee) && run[i].charged[o].source.order == o
  {
    RunInv(rules, run, i);
    assert Holds(run[i].db, o, run[i].charged[o]);
    assert OrderOk(run[i].db, rules, o);
  }

  /** A worker's result is accepted exactly if the order still has its source and was charged before or can pay; it never conflicts. */
  lemma AppliesExactly(rules: Rules, run: seq<System>, i: nat, w: nat, order: Order)
    requires Run(rules, run) && i < |run| && w in run[i].workers
    ensures var held := run[i].workers[w];
      ApplyTx(run[i].charged, rules, order, held.result) ==
      if order.source != held.result.source || (held.order !in run[i].charged && !order.enough) then None
      else Some(run[i].charged[held.order := held.result])
  {
    RunInv(rules, run, i);
    var held := run[i].workers[w];
    assert Holds(run[i].db, held.order, held.result);
    assert OrderOk(run[i].db, rules, held.order);
    if held.order in run[i].charged {
      assert Holds(run[i].db, held.order, run[i].charged[held.order]);
      assert run[i].charged[held.order := held.result] == run[i].charged;
    }
  }

  /** A delivered fee was charged as calculated, and some earlier application of it was acknowledged. */
  lemma DeliveredWasApplied(rules: Rules, run: seq<System>, i: nat, o: nat)
    requires Run(rules, run) && i < |run| && o in run[i].db.deliveries && run[i].db.deliveries[o].delivered
    ensures o in run[i].charged && run[i].charged[o] == run[i].db.deliveries[o].payload
    ensures Call(o, run[i].db.deliveries[o].payload, true) in run[i].calls
  {
    RunInv(rules, run, i);
    assert Settled(run[i], o, run[i].db.deliveries[o].payload);
  }

  /** Once an order has a receipt, no other source of it is ever accepted, and its own source keeps its answer. */
  lemma SourceIsFixed(rules: Rules, run: seq<System>, i: nat, j: nat, s: Source)
    requires Run(rules, run) && i <= j < |run| && s.order in run[i].db.receipts
    requires Identified(s) && PriceSource(rules.price, s).Ok?
    ensures s.order in run[i].db.deliveries
    ensures s != run[i].db.receipts[s.order].source ==> CalculateTx(run[j].db, rules, s) == Err(Refused)
    ensures s == run[i].db.receipts[s.order].source ==>
      CalculateTx(run[j].db, rules, s) == Ok((run[j].db, run[i].db.deliveries[s.order].payload))
  {
    RunInv(rules, run, i);
    RunInv(rules, run, j);
    PermanentOnce(rules, run, i, j, s.order);
    assert OrderOk(run[i].db, rules, s.order) && OrderOk(run[j].db, rules, s.order);
  }

  /** The states after an undisturbed load, application and mark by one worker. */
  lemma Retry(s: System, rules: Rules, o: nat, w: nat, order: Order) returns (s1: System, s2: System, end: System)
    requires Inv(s, rules) && w !in s.workers
    requires o in s.db.receipts && o in s.db.deliveries && !s.db.deliveries[o].delivered
    requires order.source == s.db.receipts[o].source && (order.enough || o in s.charged)
    ensures Next(s, rules, LoadEvent(w, o), s1)
    ensures Next(s1, rules, ApplyEvent(w, order, Clean), s2)
    ensures Next(s2, rules, MarkEvent(w, Clean), end)
    ensures o in end.db.deliveries && end.db.deliveries[o].delivered
    ensures o in end.charged && end.charged[o] == s.db.deliveries[o].payload
    ensures o in s.charged ==> end.charged == s.charged
  {
    assert OrderOk(s.db, rules, o);
    s1 := Loaded(s, w, o);
    s2 := Applied(s1, rules, w, order, Clean);
    end := Closed(s2, w, Clean);
  }

  lemma RunExtends(rules: Rules, run: seq<System>, i: nat, e: Event, s: System) returns (longer: seq<System>)
    requires Run(rules, run) && i < |run| && Next(run[i], rules, e, s)
    ensures longer == run[..i + 1] + [s] && Run(rules, longer)
  {
    longer := run[..i + 1] + [s];
    assert Step(run[i], rules, s);
    forall k | 0 <= k < |longer| - 1 ensures Step(longer[k], rules, longer[k + 1]) {
      if k < i { assert longer[k] == run[k] && longer[k + 1] == run[k + 1]; }
    }
  }

  /** Whatever failed before, three more undisturbed steps deliver the order, charging it only if that had not happened yet. */
  lemma RetryCompletes(rules: Rules, run: seq<System>, i: nat, o: nat, w: nat, order: Order) returns (longer: seq<System>)
    requires Run(rules, run) && i < |run| && w !in run[i].workers
    requires o in run[i].db.receipts && o in run[i].db.deliveries && !run[i].db.deliveries[o].delivered
    requires order.source == run[i].db.receipts[o].source && (order.enough || o in run[i].charged)
    ensures Run(rules, longer) && |longer| == i + 4 && longer[..i + 1] == run[..i + 1]
    ensures var end := longer[i + 3];
      && o in end.db.deliveries && end.db.deliveries[o].delivered
      && o in end.charged && end.charged[o] == run[i].db.deliveries[o].payload
      && (o in run[i].charged ==> end.charged == run[i].charged)
  {
    RunInv(rules, run, i);
    var s1, s2, end := Retry(run[i], rules, o, w, order);
    var run1 := RunExtends(rules, run, i, LoadEvent(w, o), s1);
    var run2 := RunExtends(rules, run1, i + 1, ApplyEvent(w, order, Clean), s2);
    longer := RunExtends(rules, run2, i + 2, MarkEvent(w, Clean), end);
  }

  // ---------------------------------------------- what the retry loop leaves

  /** A row after one attempt: delivered if the attempt went through, else one attempt more. */
  function After(d: Delivery, success: bool): Delivery {
    if success then d.(delivered := true)
    else if d.delivered then d
    else d.(attempts := d.attempts + 1)
  }

  lemma DeliveredOneExactly(db: Db, order: nat, applied: bool, marked: bool)
    requires order in db.deliveries && db.deliveries[order].payload.source.order == order
    ensures DeliveredOne(db, order, applied, marked).deliveries ==
      db.deliveries[order := After(db.deliveries[order], applied && marked)]
  {}

  lemma NotFirst(pending: seq<nat>, o: nat)
    requires pending != [] && pending[0] != o
    ensures o in pending <==> o in pending[1..]
    ensures forall k :: 0 <= k < |pending| && pending[k] == o ==> 0 < k && pending[1..][k - 1] == o
  {
    assert pending == [pending[0]] + pending[1..];
  }

  /** In a consistent store every row is delivered exactly if its application and its mark succeeded; no row affects another. */
  lemma {:induction false} DeliveredExactly(db: Db, pending: seq<nat>, applied: seq<bool>, marked: seq<bool>, o: nat)
    requires |pending| == |applied| == |marked|
    requires forall j, k :: 0 <= j < k < |pending| ==> pending[j] != pending[k]
    requires forall p :: p in pending ==> p in db.deliveries
    requires forall p :: p in db.deliveries ==> db.deliveries[p].payload.source.order == p
    requires o in db.deliveries
    ensures var db' := Delivered(db, pending, applied, marked);
      && db'.deliveries.Keys == db.deliveries.Keys
      && (o !in pending ==> db'.deliveries[o] == db.deliveries[o])
      && (forall k :: 0 <= k < |pending| && pending[k] == o ==>
            db'.deliveries[o] == After(db.deliveries[o], applied[k] && marked[k]))
    decreases |pending|
  {
    if pending != [] {
      DeliveredOneExactly(db, pending[0], applied[0], marked[0]);
      var db1 := DeliveredOne(db, pending[0], applied[0], marked[0]);
      DeliveredExactly(db1, pending[1..], applied[1..], marked[1..], o);
      if pending[0] != o { NotFirst(pending, o); }
    }
  }

  /** And the count is that of the attempts that went through. */
  function Through(applied: seq<bool>, marked: seq<bool>): nat
    requires |applied| == |marked|
  {
    if applied == [] then 0 else (if applied[0] && marked[0] then 1 else 0) + Through(applied[1..], marked[1..])
  }

  lemma {:induction false} SuccessesExactly(db: Db, pending: seq<nat>, applied: seq<bool>, marked: seq<bool>)
    requires |pending| == |applied| == |marked|
    requires forall p :: p in pending ==> p in db.deliveries
    requires forall p :: p in db.deliveries ==> db.deliveries[p].payload.source.order == p
    ensures Successes(db, pending, applied, marked) == Through(applied, marked)
    decreases |pending|
  {
    if pending != [] {
      assert pending[0] in pending;
      DeliveredOneExactly(db, pending[0], applied[0], marked[0]);
      SuccessesExactly(DeliveredOne(db, pending[0], applied[0], marked[0]), pending[1..], applied[1..], marked[1..]);
    }
  }

  // -------------------------------------------------- what billing one order does

  /** A manual fee is priced as it stands if and only if it was reviewed, adds up and stays within the offer. */
  lemma ManualFeeExactly(price: Pricer, s: Source)
    ensures s.finalFee.Some? ==>
      (PriceSource(price, s) == Ok(s.finalFee.value) <==>
         && s.reviewId != "" && s.offerPrice.Some?
         && 0 <= s.finalFee.value.electric && 0 <= s.finalFee.value.service
         && s.finalFee.value.electric + s.finalFee.value.service == s.finalFee.value.total <= s.offerPrice.value)
    ensures s.finalFee.Some? && PriceSource(price, s) != Ok(s.finalFee.value) ==> PriceSource(price, s) == Err(Refused)
    ensures s.finalFee.None? && price(s).Ok? ==> PriceSource(price, s) == Ok(price(s).value)
    ensures s.finalFee.None? && price(s).Err? ==> PriceSource(price, s) == Err(NeedsReview(price(s).error))
  {}

  /** So no manual fee is ever charged that nobody reviewed, or above the offer. */
  lemma ManualChargesAreReviewed(rules: Rules, run: seq<System>, i: nat, o: nat)
    requires Run(rules, run) && i < |run| && o in run[i].charged && run[i].charged[o].source.finalFee.Some?
    ensures var r := run[i].charged[o];
      && r.fee == r.source.finalFee.value && r.source.reviewId != "" && r.source.offerPrice.Some?
      && 0 <= r.fee.electric && 0 <= r.fee.service && r.fee.electric + r.fee.service == r.fee.total <= r.source.offerPrice.value
  {
    ChargedAsCalculated(rules, run, i, o);
    ManualFeeExactly(rules.price, run[i].charged[o].source);
  }

  /** Calculation, application and mark of a billed order all succeeded. */
  predicate WentThrough(db: Db, rules: Rules, a: Attempt) {
    a.source.Some? && CalculateTx(db, rules, a.source.value).Ok? && a.applied && a.marked
  }

  /** What marking does to the rows, in full. */
  lemma MarkedExactly(db: Db, order: nat, o: nat)
    ensures var db' := Marked(db, order);
      && db'.deliveries.Keys == db.deliveries.Keys
      && (o in db.deliveries ==>
           db'.deliveries[o] == if o == order then Delivery(db.deliveries[o].payload, true, db.deliveries[o].attempts) else db.deliveries[o])
      && db'.reviews.Keys == db.reviews.Keys
      && (o in db.reviews ==> db'.reviews[o] == if o == order then Resolved else db.reviews[o])
  {}

  /** What a successful calculation does to the rows, in full. */
  lemma CalculatedExactly(db: Db, rules: Rules, s: Source, o: nat)
    requires DbOk(db, rules) && CalculateTx(db, rules, s).Ok?
    ensures var db' := CalculateTx(db, rules, s).value.0;
      && db'.reviews == db.reviews && s.order in db'.deliveries
      && (o in db.deliveries ==> o in db'.deliveries && db'.deliveries[o] == db.deliveries[o])
      && (o in db'.deliveries && o !in db.deliveries ==>
           o == s.order && db'.deliveries[o].payload.source == s && !db'.deliveries[o].delivered && db'.deliveries[o].attempts == 0)
  {
    CalculateExactly(db, rules, s);
    if s.order !in db.receipts { var r := NewCalculation(db, rules, s); }
  }

  /** Billing an order delivers exactly that order, and only if all of it went through; it changes no payload and no other row. */
  lemma BilledExactly(db: Db, rules: Rules, a: Attempt, o: nat)
    requires DbOk(db, rules) && (a.source.Some? ==> a.source.value.order == a.order)
    ensures var db', done := Billed(db, rules, a), WentThrough(db, rules, a);
      && (done ==> a.order in db'.deliveries && db'.deliveries[a.order].delivered)
      && (o in db.deliveries ==>
           && o in db'.deliveries && db'.deliveries[o].payload == db.deliveries[o].payload
           && (db'.deliveries[o].delivered <==> db.deliveries[o].delivered || (done && o == a.order))
           && db'.deliveries[o].attempts == db.deliveries[o].attempts)
      && (o in db'.deliveries && o !in db.deliveries ==>
           o == a.order && a.source.Some? && db'.deliveries[o].payload.source == a.source.value
           && (db'.deliveries[o].delivered <==> done) && db'.deliveries[o].attempts == 0)
  {
    if a.source.Some? && CalculateTx(db, rules, a.source.value).Ok? {
      CalculatedExactly(db, rules, a.source.value, o);
      MarkedExactly(CalculateTx(db, rules, a.source.value).value.0, a.order, o);
    }
  }

  /** A review is opened only for a pricing failure of its order, once, and resolved only by delivering it. */
  lemma ReviewsExactly(db: Db, rules: Rules, a: Attempt, o: nat)
    requires DbOk(db, rules) && (a.source.Some? ==> a.source.value.order == a.order)
    ensures var db', asks := Billed(db, rules, a), a.source.Some? && AsksReview(db, rules, a.source.value) && a.reviewSaved;
      && (o in db.reviews ==> o in db'.reviews && db'.reviews[o] == if WentThrough(db, rules, a) && o == a.order then Resolved else db.reviews[o])
      && (o !in db.reviews ==> (o in db'.reviews <==> asks && o == a.order))
      && (o !in db.reviews && o in db'.reviews ==> db'.reviews[o] == Pending)
  {
    if a.source.Some? && CalculateTx(db, rules, a.source.value).Ok? {
      CalculatedExactly(db, rules, a.source.value, o);
      MarkedExactly(CalculateTx(db, rules, a.source.value).value.0, a.order, o);
    }
  }

  /** A finite piece of a run. */
  ghost predicate Steps(rules: Rules, events: seq<Event>, states: seq<System>) {
    |states| == |events| + 1 && forall k :: 0 <= k < |events| ==> Next(states[k], rules, events[k], states[k + 1])
  }

  /**
   * Billing an order is a piece of a run: calculate, apply, mark, or ask for a review. So everything
   * that holds in every run holds while orders are billed.
   */
  lemma BillIsSteps(s: System, rules: Rules, a: Attempt, w: nat, order: Order) returns (events: seq<Event>, states: seq<System>)
    requires w !in s.workers && (a.source.Some? ==> a.source.value.order == a.order)
    requires a.source.Some? && CalculateTx(s.db, rules, a.source.value).Ok? ==>
      (a.applied <==> ApplyTx(s.charged, rules, order, CalculateTx(s.db, rules, a.source.value).value.1).Some?)
    ensures Steps(rules, events, states) && states[0] == s
    ensures states[|events|].db == Billed(s.db, rules, a)
  {
    events, states := [], [s];
    if a.source.Some? {
      var source, calculated := a.source.value, CalculateTx(s.db, rules, a.source.value);
      if calculated.Ok? {
        var s1 := Calculated(s, rules, w, source, Clean);
        events, states := [CalculateEvent(w, source, Clean)], [s, s1];
        if a.applied {
          var s2 := Applied(s1, rules, w, order, Clean);
          events, states := [CalculateEvent(w, source, Clean), ApplyEvent(w, order, Clean)], [s, s1, s2];
          if a.marked {
            events, states := events + [MarkEvent(w, Clean)], states + [Closed(s2, w, Clean)];
          }
        }
      } else if calculated.error.NeedsReview? && a.reviewSaved {
        events, states := [ReviewEvent(a.order)], [s, s.(db := s.db.(reviews := Ask(s.db.reviews, a.order)))];
      }
    }
  }
}
