/**
 * Online cards: swipes that start or extend a session, refunds and the billing cutoff of a
 * prepaid duration (internal/central/card/online_card.go, internal/central/card/deadline.go),
 * with the order events around them. A transaction is one atomic step. Times are milliseconds.
 */
module CardLedger {
  import opened Basics

  type UInt16 = x: int | 0 <= x < 0x1_0000

  const MINUTE: int := 60_000

  datatype Package = Package(isDuration: bool, price: Int64, minutes: UInt16)

  datatype OrderStatus = Ordered | Charging | Completed | Refunding | OrderRefunded

  datatype Order = Order(user: nat, payment: nat, status: OrderStatus, startedAt: Option<int>)

  datatype PaymentStatus = Paid | PartialRefunded | Refunded

  datatype Payment = Payment(paid: int, total: int, refunded: int, status: PaymentStatus)

  datatype Session = Session(card: nat, port: string, paid: int, purchased: UInt16, max: UInt16, package: Package)

  datatype Kind = StartSession | ExtendSession

  datatype OperationStatus = Confirming | Confirmed | Failed

  datatype Operation = Operation(
    device: string, event: string, order: nat, card: nat, kind: Kind, price: int, minutes: UInt16, status: OperationStatus)

  datatype Reason = CardDuration | OtherReason

  datatype Cutoff = Cutoff(at: int, reason: Reason)

  datatype Wallet = Wallet(balance: int, frozen: int, active: bool)

  datatype Card = Card(id: nat, user: nat, active: bool)

  datatype Transfer = Transfer(user: nat, cents: int)

  /** The tables; `ports` is the unique index on the port that a session occupies. */
  datatype Db = Db(
    cards: map<string, Card>, activeUsers: set<nat>, wallets: map<nat, Wallet>,
    orders: map<nat, Order>, payments: map<nat, Payment>, sessions: map<nat, Session>, ports: map<string, nat>,
    operations: seq<Operation>, cutoffs: map<nat, Cutoff>, transfers: seq<Transfer>, nextId: nat)

  datatype Port = Port(found: bool, online: bool, isPort: bool, available: bool, id: string, device: string)

  /** What the pricing rule offers to cards, if anything. */
  datatype Offer = Offer(package: Package, max: UInt16)

  datatype Swipe = Swipe(cardNo: string, event: string, port: Port, offer: Option<Offer>, portFree: bool, now: int)

  datatype Refusal = NotAllowed | BalanceTooLow | NotFound

  // ------------------------------------------------------------------ the wallet

  /** Debits need an active wallet with enough spendable balance; credits always pass. */
  function Move(db: Db, user: nat, cents: int): Result<Db, Refusal>
    requires user in db.wallets
  {
    var w := db.wallets[user];
    if cents < 0 && !w.active then Err(NotAllowed)
    else if cents < 0 && w.balance - w.frozen < -cents then Err(BalanceTooLow)
    else if cents == 0 then Ok(db)
    else Ok(db.(wallets := db.wallets[user := w.(balance := w.balance + cents)],
                transfers := db.transfers + [Transfer(user, cents)]))
  }

  // ---------------------------------------------------------------------- swipes

  /** The whole package fits or nothing is bought. */
  predicate CanExtend(card: nat, orderCard: nat, p: Package, purchased: UInt16, max: UInt16, balance: int, pending: bool) {
    && card == orderCard
    && p.isDuration && p.price > 0 && p.minutes > 0
    && !pending
    && balance >= p.price
    && purchased + p.minutes <= max
  }

  predicate IsDigit(c: char) { '0' <= c <= '9' }

  function Numeral(s: string): Option<nat> {
    if s == "" || !IsDigit(s[|s| - 1]) then None
    else
      var digit := s[|s| - 1] as int - '0' as int;
      if |s| == 1 then Some(digit) else match Numeral(s[..|s| - 1]) case None => None case Some(n) => Some(10 * n + digit)
  }

  /** A positive 32-bit number in canonical decimal form. */
  predicate GoodCardNo(s: string) {
    var n := Numeral(s);
    n.Some? && 0 < n.value < 0x1_0000_0000 && s[0] != '0'
  }

  predicate GoodSwipe(q: Swipe) {
    GoodCardNo(q.cardNo) && 0 < |q.event| <= 128 && q.port.found && q.port.online && q.port.isPort
  }

  function Find(ops: seq<Operation>, device: string, event: string): (r: Option<Operation>)
    ensures r.Some? ==> r.value in ops && r.value.device == device && r.value.event == event
    ensures r.None? ==> forall op :: op in ops ==> op.device != device || op.event != event
  {
    if ops == [] then None
    else if ops[0].device == device && ops[0].event == event then Some(ops[0])
    else Find(ops[1..], device, event)
  }

  predicate Pending(ops: seq<Operation>, order: nat) { exists k :: 0 <= k < |ops| && ops[k].order == order && ops[k].status.Confirming? }

  function Spendable(w: Wallet): int { w.balance - w.frozen }

  /** The refusal when a purchase does not fit: only the balance is missing, or something else is. */
  function WhyNot(card: nat, orderCard: nat, p: Package, purchased: UInt16, max: UInt16, pending: bool): Refusal {
    if CanExtend(card, orderCard, p, purchased, max, p.price, pending) then BalanceTooLow else NotAllowed
  }

  function Deadline(o: Order, s: Session): int
    requires o.startedAt.Some?
  {
    o.startedAt.value + s.purchased * MINUTE
  }

  /** Buys the session's package once more. */
  function Extend(db: Db, q: Swipe, card: Card): Result<(Db, Operation), Refusal>
    requires card.user in db.wallets && q.port.id in db.ports
  {
    var id := db.ports[q.port.id];
    if id !in db.sessions || id !in db.orders || !db.orders[id].status.Charging? then Err(NotAllowed)
    else
      var s, o := db.sessions[id], db.orders[id];
      var p, pending := s.package, Pending(db.operations, id);
      if o.startedAt.None? || q.now >= Deadline(o, s) || o.user != card.user || id in db.cutoffs then Err(NotAllowed)
      else if !CanExtend(card.id, s.card, p, s.purchased, s.max, Spendable(db.wallets[card.user]), pending)
      then Err(WhyNot(card.id, s.card, p, s.purchased, s.max, pending))
      else if o.payment !in db.payments || db.payments[o.payment].status.Refunded? then Err(NotAllowed)
      else
        var pay, op := db.payments[o.payment], Operation(q.port.device, q.event, id, card.id, ExtendSession, p.price, p.minutes, Confirmed);
        Ok((db.(payments := db.payments[o.payment := pay.(paid := pay.paid + p.price, total := pay.total + p.price)],
                sessions := db.sessions[id := s.(paid := s.paid + p.price, purchased := s.purchased + p.minutes)]), op))
  }

  /** Opens a session on a free port: payment, order and session under new IDs. */
  function Start(db: Db, q: Swipe, card: Card): Result<(Db, Operation), Refusal>
    requires card.user in db.wallets
  {
    if !q.portFree || !q.port.available || q.offer.None? then Err(NotAllowed)
    else
      var p, max := q.offer.value.package, q.offer.value.max;
      if !CanExtend(card.id, card.id, p, 0, max, Spendable(db.wallets[card.user]), false)
      then Err(WhyNot(card.id, card.id, p, 0, max, false))
      else
        var payment, order := db.nextId, db.nextId + 1;
        var op := Operation(q.port.device, q.event, order, card.id, StartSession, p.price, p.minutes, Confirming);
        Ok((db.(payments := db.payments[payment := Payment(p.price, p.price, 0, Paid)],
                orders := db.orders[order := Order(card.user, payment, Ordered, None)],
                sessions := db.sessions[order := Session(card.id, q.port.id, p.price, p.minutes, max, p)],
                ports := db.ports[q.port.id := order],
                nextId := db.nextId + 2), op))
  }

  /** A swipe: the tables afterwards and the operation reported to the device. */
  function SwipeTx(db: Db, q: Swipe): Result<(Db, Operation), Refusal> {
    if !GoodSwipe(q) then Err(NotAllowed)
    else if q.cardNo !in db.cards then Err(NotFound)
    else
      var card, previous := db.cards[q.cardNo], Find(db.operations, q.port.device, q.event);
      if previous.Some? then
        var op := previous.value;
        if op.card == card.id && op.order in db.sessions && db.sessions[op.order].port == q.port.id
        then Ok((db, op)) else Err(NotAllowed)
      else if !card.active || card.user !in db.activeUsers then Err(NotAllowed)
      else if card.user !in db.wallets then Err(NotFound)
      else
        var bought := if q.port.id in db.ports then Extend(db, q, card) else Start(db, q, card);
        if bought.Err? then bought
        else
          var (db1, op) := bought.value;
          var moved := Move(db1, card.user, -op.price);
          if moved.Err? then Err(moved.error)
          else Ok((moved.value.(operations := moved.value.operations + [op]), op))
  }

  // --------------------------------------------------------------------- refunds

  /** Returns cents of an order's payment to its wallet. */
  function RefundTx(db: Db, order: Order, cents: int): Result<Db, Refusal>
    requires order.user in db.wallets
  {
    if cents <= 0 then Ok(db)
    else
      var moved := Move(db, order.user, cents);
      if moved.Err? then moved
      else if order.payment !in db.payments then Err(NotFound)
      else
        var pay := db.payments[order.payment];
        if pay.paid - pay.refunded < cents then Err(NotAllowed)
        else
          var status := if pay.refunded + cents == pay.paid then Refunded else PartialRefunded;
          Ok(moved.value.(payments := db.payments[order.payment := pay.(refunded := pay.refunded + cents, status := status)]))
  }

  // -------------------------------------------------------------------- deadline

  /** Freezes the billing cutoff of an exhausted duration; the flag asks for a stop. */
  function FreezeTx(db: Db, id: nat, now: int): Result<(Db, bool), Refusal> {
    if id !in db.sessions || id !in db.orders then Err(NotFound)
    else
      var s, o := db.sessions[id], db.orders[id];
      if !o.status.Charging? || o.startedAt.None? || now < Deadline(o, s) then Ok((db, false))
      else if id in db.cutoffs then Err(NotAllowed)
      else Ok((db.(cutoffs := db.cutoffs[id := Cutoff(Deadline(o, s), CardDuration)]), true))
  }

  // ------------------------------------------------------- order events around

  /** The start operation of an order gets its final status. */
  function Settle(ops: seq<Operation>, order: nat, status: OperationStatus): (r: seq<Operation>)
    ensures |r| == |ops|
    ensures forall k :: 0 <= k < |ops| ==> r[k] == ops[k] || (ops[k].order == order && r[k] == ops[k].(status := status))
  {
    seq(|ops|, k requires 0 <= k < |ops| =>
      if ops[k].order == order && ops[k].kind.StartSession? && (status.Failed? || ops[k].status.Confirming?)
      then ops[k].(status := status) else ops[k])
  }

  function Release(ports: map<string, nat>, id: nat): map<string, nat> {
    map p | p in ports && ports[p] != id :: ports[p]
  }

  function StartSucceeded(db: Db, id: nat, at: int): Db
    requires id in db.orders
  {
    db.(orders := db.orders[id := db.orders[id].(status := Charging, startedAt := Some(at))],
        operations := Settle(db.operations, id, Confirmed))
  }

  function StartFailed(db: Db, id: nat): Db
    requires id in db.orders
  {
    db.(orders := db.orders[id := db.orders[id].(status := OrderRefunded)], ports := Release(db.ports, id),
        operations := Settle(db.operations, id, Failed))
  }

  datatype Event =
    | SwipeEvent(swipe: Swipe)
    | RefundEvent(id: nat, cents: int)
    | FreezeEvent(id: nat, now: int)
    | StartAck(id: nat, success: bool, at: int)
    | EndEvent(id: nat)
    | StopRequest(id: nat, at: int)
    | Recharge(user: nat, amount: nat)
    | Administer(cards: map<string, Card>, activeUsers: set<nat>, wallets: map<nat, Wallet>)

  ghost predicate SameMoney(a: map<nat, Wallet>, b: map<nat, Wallet>) {
    a.Keys == b.Keys && forall u :: u in a ==> a[u].balance == b[u].balance
  }

  predicate HasOrder(db: Db, id: nat) {
    id in db.sessions && id in db.orders && db.orders[id].payment in db.payments && db.orders[id].user in db.wallets
  }

  /** One event; a refused transaction leaves the tables as they were. */
  ghost function Apply(db: Db, e: Event): Db {
    match e
    case SwipeEvent(q) => var r := SwipeTx(db, q); if r.Ok? then r.value.0 else db
    case RefundEvent(id, cents) =>
      if !HasOrder(db, id) then db
      else var r := RefundTx(db, db.orders[id], cents); if r.Ok? then r.value else db
    case FreezeEvent(id, now) => var r := FreezeTx(db, id, now); if r.Ok? then r.value.0 else db
    case StartAck(id, success, at) =>
      if !HasOrder(db, id) || !db.orders[id].status.Ordered? then db
      else if success then StartSucceeded(db, id, at)
      else
        var o := db.orders[id];
        var r := RefundTx(db, o, db.payments[o.payment].paid - db.payments[o.payment].refunded);
        if r.Err? then db else StartFailed(r.value, id)
    case EndEvent(id) =>
      if !HasOrder(db, id) || !db.orders[id].status.Charging? then db
      else db.(orders := db.orders[id := db.orders[id].(status := Completed)], ports := Release(db.ports, id))
    case StopRequest(id, at) =>
      if !HasOrder(db, id) || !db.orders[id].status.Charging? || id in db.cutoffs then db
      else db.(cutoffs := db.cutoffs[id := Cutoff(at, OtherReason)])
    case Recharge(user, amount) =>
      if user !in db.wallets then db
      else var w := db.wallets[user]; db.(wallets := db.wallets[user := w.(balance := w.balance + amount)])
    case Administer(cards, users, wallets) =>
      if !SameMoney(db.wallets, wallets) then db else db.(cards := cards, activeUsers := users, wallets := wallets)
  }

  ghost function Exec(db: Db, events: seq<Event>): Db
    decreases |events|
  {
    if events == [] then db else Exec(Apply(db, events[0]), events[1..])
  }

  // ------------------------------------------------------------- the invariant

  function PriceSum(ops: seq<Operation>, order: nat): int {
    if ops == [] then 0
    else PriceSum(ops[..|ops| - 1], order) + (if ops[|ops| - 1].order == order then ops[|ops| - 1].price else 0)
  }

  function MinuteSum(ops: seq<Operation>, order: nat): int {
    if ops == [] then 0
    else MinuteSum(ops[..|ops| - 1], order) + (if ops[|ops| - 1].order == order then ops[|ops| - 1].minutes else 0)
  }

  lemma OperationAdded(ops: seq<Operation>, op: Operation, order: nat)
    ensures PriceSum(ops + [op], order) == PriceSum(ops, order) + (if op.order == order then op.price else 0)
    ensures MinuteSum(ops + [op], order) == MinuteSum(ops, order) + (if op.order == order then op.minutes else 0)
  {
    assert (ops + [op])[..|ops|] == ops;
  }

  lemma {:induction false} SumsIgnoreStatus(ops: seq<Operation>, ops': seq<Operation>, order: nat)
    requires |ops| == |ops'| && forall k :: 0 <= k < |ops| ==> ops'[k] == ops[k].(status := ops'[k].status)
    ensures PriceSum(ops', order) == PriceSum(ops, order) && MinuteSum(ops', order) == MinuteSum(ops, order)
  {
    if ops != [] { SumsIgnoreStatus(ops[..|ops| - 1], ops'[..|ops| - 1], order); }
  }

  lemma {:induction false} NoOperations(ops: seq<Operation>, order: nat)
    requires forall k :: 0 <= k < |ops| ==> ops[k].order != order
    ensures PriceSum(ops, order) == 0 && MinuteSum(ops, order) == 0
  {
    if ops != [] { NoOperations(ops[..|ops| - 1], order); }
  }

  /** What the payment of a session looks like. */
  ghost predicate PaymentOk(pay: Payment) {
    && 0 <= pay.refunded <= pay.paid == pay.total && 0 < pay.paid
    && (pay.status.Paid? <==> pay.refunded == 0)
    && (pay.status.Refunded? <==> pay.refunded == pay.paid)
  }

  /** What one session looks like: money, minutes and cutoff all agree. */
  ghost predicate SessionOk(db: Db, id: nat)
    requires id in db.sessions
  {
    && HasOrder(db, id) && id < db.nextId && db.orders[id].payment < db.nextId
    && var s, o := db.sessions[id], db.orders[id];
    && var pay := db.payments[o.payment];
    && PaymentOk(pay)
    && s.paid == pay.paid == PriceSum(db.operations, id)
    && s.purchased == MinuteSum(db.operations, id) <= s.max
    && (o.status.Charging? ==> o.startedAt.Some?)
    && (id in db.cutoffs ==> !o.status.Ordered?)
    && (id in db.cutoffs && db.cutoffs[id].reason.CardDuration? ==> o.startedAt.Some? && db.cutoffs[id].at == Deadline(o, s))
  }

  ghost predicate SessionsOk(db: Db) { forall id :: id in db.sessions ==> SessionOk(db, id) }

  ghost predicate OwnPayments(db: Db) {
    forall i, j :: i in db.sessions && j in db.sessions && i in db.orders && j in db.orders && i != j ==>
      db.orders[i].payment != db.orders[j].payment
  }

  ghost predicate OneEventOneOperation(ops: seq<Operation>) {
    forall i, j :: 0 <= i < j < |ops| ==> ops[i].device != ops[j].device || ops[i].event != ops[j].event
  }

  function Debits(ts: seq<Transfer>): seq<int> {
    if ts == [] then []
    else Debits(ts[..|ts| - 1]) + (if ts[|ts| - 1].cents < 0 then [-ts[|ts| - 1].cents] else [])
  }

  function Prices(ops: seq<Operation>): seq<int> {
    if ops == [] then [] else Prices(ops[..|ops| - 1]) + [ops[|ops| - 1].price]
  }

  /** Identifiers from nextId on are unused. */
  ghost predicate FreshIds(db: Db) {
    forall id :: id in db.sessions || id in db.orders || id in db.payments || id in db.cutoffs ==> id < db.nextId
  }

  /** The whole ledger. */
  ghost predicate Inv(db: Db) {
    && FreshIds(db)
    && SessionsOk(db)
    && OwnPayments(db)
    && (forall p :: p in db.ports ==> db.ports[p] in db.sessions)
    && (forall k :: 0 <= k < |db.operations| ==> db.operations[k].order in db.sessions)
    && OneEventOneOperation(db.operations)
    && Debits(db.transfers) == Prices(db.operations)
  }

  // ------------------------------------------------------- every event keeps it

  lemma SessionUntouched(db: Db, db': Db, id: nat)
    requires id in db.sessions && SessionOk(db, id)
    requires id in db'.sessions && db'.sessions[id] == db.sessions[id]
    requires id in db'.orders && db'.orders[id] == db.orders[id]
    requires db.orders[id].payment in db'.payments && db'.payments[db.orders[id].payment] == db.payments[db.orders[id].payment]
    requires db'.wallets.Keys == db.wallets.Keys && db.nextId <= db'.nextId
    requires PriceSum(db'.operations, id) == PriceSum(db.operations, id)
    requires MinuteSum(db'.operations, id) == MinuteSum(db.operations, id)
    requires id in db'.cutoffs <==> id in db.cutoffs
    requires id in db.cutoffs ==> db'.cutoffs[id] == db.cutoffs[id]
    ensures SessionOk(db', id)
  {}

  lemma DebitRecorded(ts: seq<Transfer>, ops: seq<Operation>, user: nat, op: Operation)
    requires Debits(ts) == Prices(ops) && op.price > 0
    ensures Debits(ts + [Transfer(user, -op.price)]) == Prices(ops + [op])
  {
    var t := Transfer(user, -op.price);
    assert (ts + [t])[..|ts|] == ts && (ops + [op])[..|ops|] == ops;
  }

  lemma CreditNotRecorded(ts: seq<Transfer>, t: Transfer)
    requires t.cents >= 0
    ensures Debits(ts + [t]) == Debits(ts)
  {
    assert (ts + [t])[..|ts|] == ts;
  }

  lemma {:induction false} PricesIgnoreStatus(ops: seq<Operation>, ops': seq<Operation>)
    requires |ops| == |ops'| && forall k :: 0 <= k < |ops| ==> ops'[k] == ops[k].(status := ops'[k].status)
    ensures Prices(ops') == Prices(ops)
  {
    if ops != [] { PricesIgnoreStatus(ops[..|ops| - 1], ops'[..|ops| - 1]); }
  }

  /** What a purchase does to the books, apart from the session bought. */
  ghost predicate Booked(db: Db, db': Db, op: Operation, user: nat) {
    && op.price > 0
    && Find(db.operations, op.device, op.event).None?
    && db'.operations == db.operations + [op]
    && db'.transfers == db.transfers + [Transfer(user, -op.price)]
    && user in db.wallets && db'.wallets == db.wallets[user := db.wallets[user].(balance := db.wallets[user].balance - op.price)]
    && db'.cutoffs == db.cutoffs
  }

  /** A session gained one package. */
  ghost predicate Extended(db: Db, db': Db, op: Operation, user: nat) {
    && Booked(db, db', op, user)
    && var id := op.order;
    && HasOrder(db, id) && id !in db.cutoffs && db.orders[id].status.Charging?
    && var s, o := db.sessions[id], db.orders[id];
    && var pay := db.payments[o.payment];
    && s.purchased + op.minutes <= s.max && !pay.status.Refunded?
    && db'.sessions == db.sessions[id := s.(paid := s.paid + op.price, purchased := s.purchased + op.minutes)]
    && db'.payments == db.payments[o.payment := pay.(paid := pay.paid + op.price, total := pay.total + op.price)]
    && db'.orders == db.orders && db'.ports == db.ports && db'.nextId == db.nextId
  }

  /** A session was opened under new identifiers. */
  ghost predicate Started(db: Db, db': Db, op: Operation, user: nat, s: Session) {
    && Booked(db, db', op, user) && op.order == db.nextId + 1
    && db'.nextId == db.nextId + 2
    && db'.orders == db.orders[op.order := Order(user, db.nextId, Ordered, None)]
    && db'.payments == db.payments[db.nextId := Payment(op.price, op.price, 0, Paid)]
    && s.paid == op.price && s.purchased == op.minutes <= s.max
    && db'.sessions == db.sessions[op.order := s]
    && db'.ports == db.ports[s.port := op.order]
  }

  lemma ExtendShape(db: Db, q: Swipe, card: Card, db1: Db, op: Operation, db2: Db)
    requires card.user in db.wallets && q.port.id in db.ports
    requires Find(db.operations, q.port.device, q.event).None?
    requires Extend(db, q, card) == Ok((db1, op)) && Move(db1, card.user, -op.price) == Ok(db2)
    ensures Extended(db, db2.(operations := db2.operations + [op]), op, card.user)
  {}

  lemma StartShape(db: Db, q: Swipe, card: Card, db1: Db, op: Operation, db2: Db)
    requires card.user in db.wallets
    requires Find(db.operations, q.port.device, q.event).None?
    requires Start(db, q, card) == Ok((db1, op)) && Move(db1, card.user, -op.price) == Ok(db2)
    ensures q.offer.Some? && op.price == q.offer.value.package.price && op.minutes == q.offer.value.package.minutes
    ensures var s := Session(card.id, q.port.id, op.price, op.minutes, q.offer.value.max, q.offer.value.package);
      Started(db, db2.(operations := db2.operations + [op]), op, card.user, s)
  {}

  ghost predicate Replayed(db: Db, db': Db, q: Swipe, op: Operation) {
    db' == db && op in db.operations && op.device == q.port.device && op.event == q.event
  }

  /** A swipe that is not refused replays an operation, extends a session or starts one. */
  lemma SwipeShape(db: Db, q: Swipe) returns (user: nat, s: Option<Session>)
    requires SwipeTx(db, q).Ok?
    ensures var (db', op) := SwipeTx(db, q).value;
      && op.device == q.port.device && op.event == q.event
      && (|| Replayed(db, db', q, op)
          || Extended(db, db', op, user)
          || (s.Some? && Started(db, db', op, user, s.value)))
  {
    var card := db.cards[q.cardNo];
    user, s := card.user, None;
    if Find(db.operations, q.port.device, q.event).None? {
      if q.port.id in db.ports {
        var (db1, op) := Extend(db, q, card).value;
        ExtendShape(db, q, card, db1, op, Move(db1, card.user, -op.price).value);
      } else {
        var (db1, op) := Start(db, q, card).value;
        StartShape(db, q, card, db1, op, Move(db1, card.user, -op.price).value);
        s := Some(Session(card.id, q.port.id, op.price, op.minutes, q.offer.value.max, q.offer.value.package));
      }
    }
  }

  lemma BookedKeepsLog(db: Db, db': Db, op: Operation, user: nat)
    requires Inv(db) && Booked(db, db', op, user)
    ensures OneEventOneOperation(db'.operations) && Debits(db'.transfers) == Prices(db'.operations)
  {
    DebitRecorded(db.transfers, db.operations, user, op);
  }

  lemma ExtendedSession(db: Db, db': Db, op: Operation, user: nat)
    requires Extended(db, db', op, user) && SessionOk(db, op.order)
    ensures SessionOk(db', op.order)
  {
    OperationAdded(db.operations, op, op.order);
  }

  lemma ExtendedSessions(db: Db, db': Db, op: Operation, user: nat)
    requires Inv(db) && Extended(db, db', op, user)
    ensures SessionsOk(db')
  {
    forall i | i in db'.sessions ensures SessionOk(db', i) {
      assert SessionOk(db, i);
      OperationAdded(db.operations, op, i);
      if i == op.order { ExtendedSession(db, db', op, user); } else { SessionUntouched(db, db', i); }
    }
  }

  lemma ExtendedKeepsInv(db: Db, db': Db, op: Operation, user: nat)
    requires Inv(db) && Extended(db, db', op, user)
    ensures Inv(db')
  {
    BookedKeepsLog(db, db', op, user);
    ExtendedSessions(db, db', op, user);
  }

  lemma StartedSession(db: Db, db': Db, op: Operation, user: nat, s: Session)
    requires Inv(db) && Started(db, db', op, user, s)
    ensures op.order in db'.sessions && SessionOk(db', op.order)
  {
    OperationAdded(db.operations, op, op.order);
    NoOperations(db.operations, op.order);
  }

  lemma StartedOwnPayments(db: Db, db': Db, op: Operation, user: nat, s: Session)
    requires Inv(db) && Started(db, db', op, user, s)
    ensures OwnPayments(db')
  {
    forall i | i in db.sessions ensures db'.orders[i] == db.orders[i] && db.orders[i].payment < db.nextId {
      assert SessionOk(db, i);
    }
  }

  lemma StartedSessions(db: Db, db': Db, op: Operation, user: nat, s: Session)
    requires Inv(db) && Started(db, db', op, user, s)
    ensures SessionsOk(db')
  {
    StartedSession(db, db', op, user, s);
    forall i | i in db'.sessions ensures SessionOk(db', i) {
      if i != op.order {
        assert SessionOk(db, i);
        OperationAdded(db.operations, op, i);
        SessionUntouched(db, db', i);
      }
    }
  }

  lemma StartedKeepsInv(db: Db, db': Db, op: Operation, user: nat, s: Session)
    requires Inv(db) && Started(db, db', op, user, s)
    ensures Inv(db')
  {
    BookedKeepsLog(db, db', op, user);
    StartedOwnPayments(db, db', op, user, s);
    StartedSessions(db, db', op, user, s);
  }

  lemma SwipeKeepsInv(db: Db, q: Swipe)
    requires Inv(db) && SwipeTx(db, q).Ok?
    ensures Inv(SwipeTx(db, q).value.0)
  {
    var user, s := SwipeShape(db, q);
    var (db', op) := SwipeTx(db, q).value;
    if Extended(db, db', op, user) {
      ExtendedKeepsInv(db, db', op, user);
    } else if !Replayed(db, db', q, op) {
      StartedKeepsInv(db, db', op, user, s.value);
    }
  }

  // refunds

  /** Cents went back from a payment to its wallet; the order row may change beside it. */
  ghost predicate MoneyBack(db: Db, db': Db, order: Order, cents: int) {
    && order.user in db.wallets && order.payment in db.payments && 0 < cents
    && var w, pay := db.wallets[order.user], db.payments[order.payment];
    && cents <= pay.paid - pay.refunded
    && db'.wallets == db.wallets[order.user := w.(balance := w.balance + cents)]
    && db'.transfers == db.transfers + [Transfer(order.user, cents)]
    && db'.payments == db.payments[order.payment := pay.(
         refunded := pay.refunded + cents, status := if pay.refunded + cents == pay.paid then Refunded else PartialRefunded)]
  }

  lemma RefundShape(db: Db, order: Order, cents: int)
    requires order.user in db.wallets && RefundTx(db, order, cents).Ok? && cents > 0
    ensures var db' := RefundTx(db, order, cents).value;
      MoneyBack(db, db', order, cents)
      && db' == db.(wallets := db'.wallets, transfers := db'.transfers, payments := db'.payments)
  {}

  /** The order row and the start operation of one order may change; the rest of the books may not. */
  ghost predicate OrderMoved(db: Db, db': Db, id: nat) {
    && HasOrder(db, id)
    && db'.sessions == db.sessions && db'.nextId == db.nextId
    && db'.orders.Keys == db.orders.Keys && (forall i :: i in db.orders && i != id ==> db'.orders[i] == db.orders[i])
    && db'.orders[id].user == db.orders[id].user && db'.orders[id].payment == db.orders[id].payment
    && db'.wallets.Keys == db.wallets.Keys
    && (forall p :: p in db'.ports ==> p in db.ports && db'.ports[p] == db.ports[p])
    && |db'.operations| == |db.operations|
    && (forall k :: 0 <= k < |db.operations| ==> db'.operations[k] == db.operations[k].(status := db'.operations[k].status))
    && Debits(db'.transfers) == Debits(db.transfers)
    && db'.payments.Keys == db.payments.Keys
    && (forall p :: p in db.payments && p != db.orders[id].payment ==> db'.payments[p] == db.payments[p])
    && (forall i :: i in db'.cutoffs <==> (i in db.cutoffs || (i == id && i in db'.cutoffs)))
    && (forall i :: i in db.cutoffs ==> db'.cutoffs[i] == db.cutoffs[i])
  }

  lemma OrderMovedSessions(db: Db, db': Db, id: nat)
    requires Inv(db) && OrderMoved(db, db', id) && SessionOk(db', id)
    ensures SessionsOk(db')
  {
    forall i | i in db'.sessions ensures SessionOk(db', i) {
      assert SessionOk(db, i);
      SumsIgnoreStatus(db.operations, db'.operations, i);
      if i != id { SessionUntouched(db, db', i); }
    }
  }

  lemma OrderMovedRows(db: Db, db': Db, id: nat)
    requires Inv(db) && OrderMoved(db, db', id)
    ensures FreshIds(db') && OwnPayments(db') && OneEventOneOperation(db'.operations)
  {
    assert SessionOk(db, id);
  }

  lemma OrderMovedKeepsInv(db: Db, db': Db, id: nat)
    requires Inv(db) && OrderMoved(db, db', id) && SessionOk(db', id)
    ensures Inv(db')
  {
    PricesIgnoreStatus(db.operations, db'.operations);
    OrderMovedSessions(db, db', id);
    OrderMovedRows(db, db', id);
  }

  lemma MoneyBackSession(db: Db, db': Db, id: nat, cents: int)
    requires Inv(db) && HasOrder(db, id) && MoneyBack(db, db', db.orders[id], cents)
    requires OrderMoved(db, db', id) && db'.cutoffs == db.cutoffs
    requires db'.orders[id].status.Charging? ==> db'.orders[id] == db.orders[id]
    requires db'.orders[id].status.Ordered? ==> db.orders[id].status.Ordered?
    requires db'.orders[id].startedAt == db.orders[id].startedAt
    ensures SessionOk(db', id)
  {
    assert SessionOk(db, id);
    SumsIgnoreStatus(db.operations, db'.operations, id);
  }

  lemma RefundKeepsInv(db: Db, id: nat, cents: int)
    requires Inv(db) && HasOrder(db, id) && RefundTx(db, db.orders[id], cents).Ok?
    ensures Inv(RefundTx(db, db.orders[id], cents).value)
  {
    if cents > 0 {
      var db' := RefundTx(db, db.orders[id], cents).value;
      RefundShape(db, db.orders[id], cents);
      CreditNotRecorded(db.transfers, Transfer(db.orders[id].user, cents));
      MoneyBackSession(db, db', id, cents);
      OrderMovedKeepsInv(db, db', id);
    }
  }

  /** Only an order's row, its ports and the status of its operations change. */
  ghost predicate StatusMoved(db: Db, db': Db, id: nat, order: Order) {
    && HasOrder(db, id)
    && db' == db.(orders := db.orders[id := order], ports := db'.ports, operations := db'.operations)
    && order.user == db.orders[id].user && order.payment == db.orders[id].payment
    && (order.startedAt == db.orders[id].startedAt || db.orders[id].status.Ordered?)
    && (order.status.Charging? ==> order.startedAt.Some?) && !order.status.Ordered?
    && (forall p :: p in db'.ports ==> p in db.ports && db'.ports[p] == db.ports[p])
    && |db'.operations| == |db.operations|
    && (forall k :: 0 <= k < |db.operations| ==> db'.operations[k] == db.operations[k].(status := db'.operations[k].status))
  }

  lemma StatusMovedKeepsInv(db: Db, db': Db, id: nat, order: Order)
    requires Inv(db) && StatusMoved(db, db', id, order)
    ensures Inv(db')
  {
    assert SessionOk(db, id);
    SumsIgnoreStatus(db.operations, db'.operations, id);
    OrderMovedKeepsInv(db, db', id);
  }

  lemma StartSucceededKeepsInv(db: Db, id: nat, at: int)
    requires Inv(db) && HasOrder(db, id) && db.orders[id].status.Ordered?
    ensures Inv(StartSucceeded(db, id, at))
  {
    StatusMovedKeepsInv(db, StartSucceeded(db, id, at), id, db.orders[id].(status := Charging, startedAt := Some(at)));
  }

  lemma StartFailedKeepsInv(db: Db, id: nat)
    requires Inv(db) && HasOrder(db, id) && db.orders[id].status.Ordered?
    ensures Inv(StartFailed(db, id))
  {
    StatusMovedKeepsInv(db, StartFailed(db, id), id, db.orders[id].(status := OrderRefunded));
  }

  lemma RefundKeepsOrder(db: Db, id: nat, cents: int)
    requires HasOrder(db, id) && RefundTx(db, db.orders[id], cents).Ok?
    ensures var db' := RefundTx(db, db.orders[id], cents).value;
      db'.orders == db.orders && db'.sessions == db.sessions && HasOrder(db', id)
  {}

  lemma RefundedStartKeepsInv(db: Db, id: nat, cents: int)
    requires Inv(db) && HasOrder(db, id) && db.orders[id].status.Ordered? && RefundTx(db, db.orders[id], cents).Ok?
    ensures var db' := RefundTx(db, db.orders[id], cents).value; id in db'.orders && Inv(StartFailed(db', id))
  {
    RefundKeepsInv(db, id, cents);
    RefundKeepsOrder(db, id, cents);
    StartFailedKeepsInv(RefundTx(db, db.orders[id], cents).value, id);
  }

  lemma StartAckKeepsInv(db: Db, id: nat, success: bool, at: int)
    requires Inv(db)
    ensures Inv(Apply(db, StartAck(id, success, at)))
  {
    if HasOrder(db, id) && db.orders[id].status.Ordered? {
      if success {
        StartSucceededKeepsInv(db, id, at);
      } else {
        var o := db.orders[id];
        var cents := db.payments[o.payment].paid - db.payments[o.payment].refunded;
        if RefundTx(db, o, cents).Ok? { RefundedStartKeepsInv(db, id, cents); }
      }
    }
  }

  lemma CutoffKeepsInv(db: Db, db': Db, id: nat, c: Cutoff)
    requires Inv(db) && HasOrder(db, id) && id !in db.cutoffs && db.orders[id].status.Charging?
    requires db' == db.(cutoffs := db.cutoffs[id := c])
    requires c.reason.CardDuration? ==> c.at == Deadline(db.orders[id], db.sessions[id])
    ensures Inv(db')
  {
    assert SessionOk(db, id);
    OrderMovedKeepsInv(db, db', id);
  }

  lemma EndKeepsInv(db: Db, id: nat)
    requires Inv(db)
    ensures Inv(Apply(db, EndEvent(id)))
  {
    if HasOrder(db, id) && db.orders[id].status.Charging? {
      assert SessionOk(db, id);
      StatusMovedKeepsInv(db, Apply(db, EndEvent(id)), id, db.orders[id].(status := Completed));
    }
  }

  lemma WalletsKeepInv(db: Db, db': Db)
    requires Inv(db) && db'.wallets.Keys == db.wallets.Keys
    requires db' == db.(cards := db'.cards, activeUsers := db'.activeUsers, wallets := db'.wallets)
    ensures Inv(db')
  {
    forall i | i in db'.sessions ensures SessionOk(db', i) {
      assert SessionOk(db, i);
      SessionUntouched(db, db', i);
    }
  }

  lemma FreezeKeepsInv(db: Db, id: nat, now: int)
    requires Inv(db)
    ensures Inv(Apply(db, FreezeEvent(id, now)))
  {
    if FreezeTx(db, id, now).Ok? && FreezeTx(db, id, now).value.1 {
      assert SessionOk(db, id);
      CutoffKeepsInv(db, Apply(db, FreezeEvent(id, now)), id, Cutoff(Deadline(db.orders[id], db.sessions[id]), CardDuration));
    }
  }

  lemma StopKeepsInv(db: Db, id: nat, at: int)
    requires Inv(db)
    ensures Inv(Apply(db, StopRequest(id, at)))
  {
    var db' := Apply(db, StopRequest(id, at));
    if db' != db { CutoffKeepsInv(db, db', id, Cutoff(at, OtherReason)); }
  }

  lemma SwipeEventKeepsInv(db: Db, q: Swipe)
    requires Inv(db)
    ensures Inv(Apply(db, SwipeEvent(q)))
  {
    if SwipeTx(db, q).Ok? { SwipeKeepsInv(db, q); }
  }

  lemma RefundEventKeepsInv(db: Db, id: nat, cents: int)
    requires Inv(db)
    ensures Inv(Apply(db, RefundEvent(id, cents)))
  {
    if HasOrder(db, id) && RefundTx(db, db.orders[id], cents).Ok? { RefundKeepsInv(db, id, cents); }
  }

  lemma RechargeKeepsInv(db: Db, user: nat, amount: nat)
    requires Inv(db)
    ensures Inv(Apply(db, Recharge(user, amount)))
  {
    if user in db.wallets {
      var w := db.wallets[user];
      WalletsKeepInv(db, db.(wallets := db.wallets[user := w.(balance := w.balance + amount)]));
    }
  }

  lemma AdministerKeepsInv(db: Db, e: Event)
    requires Inv(db) && e.Administer?
    ensures Inv(Apply(db, e))
  {
    if SameMoney(db.wallets, e.wallets) { WalletsKeepInv(db, Apply(db, e)); }
  }

  lemma ApplyKeepsInv(db: Db, e: Event)
    requires Inv(db)
    ensures Inv(Apply(db, e))
  {
    match e {
      case SwipeEvent(q) => SwipeEventKeepsInv(db, q);
      case RefundEvent(id, cents) => RefundEventKeepsInv(db, id, cents);
      case FreezeEvent(id, now) => FreezeKeepsInv(db, id, now);
      case StartAck(id, success, at) => StartAckKeepsInv(db, id, success, at);
      case EndEvent(id) => EndKeepsInv(db, id);
      case StopRequest(id, at) => StopKeepsInv(db, id, at);
      case Recharge(user, amount) => RechargeKeepsInv(db, user, amount);
      case Administer(_, _, _) => AdministerKeepsInv(db, e);
    }
  }

  /** The ledger is consistent in every reachable state. */
  lemma {:induction false} ExecKeepsInv(db: Db, events: seq<Event>)
    requires Inv(db)
    ensures Inv(Exec(db, events))
    decreases |events|
  {
    if events != [] {
      ApplyKeepsInv(db, events[0]);
      ExecKeepsInv(Apply(db, events[0]), events[1..]);
    }
  }

  // ----------------------------------------------------- what this says of a run

  /** Before any card order exists. */
  ghost predicate Opening(db: Db) {
    && db.orders == map[] && db.payments == map[] && db.sessions == map[] && db.ports == map[]
    && db.operations == [] && db.cutoffs == map[] && db.transfers == []
  }

  /** Operations, session and payment of one order tell the same story. */
  ghost predicate Agree(db: Db, id: nat) {
    && HasOrder(db, id)
    && var s, pay := db.sessions[id], db.payments[db.orders[id].payment];
    && PriceSum(db.operations, id) == s.paid == pay.paid == pay.total
    && MinuteSum(db.operations, id) == s.purchased <= s.max < 0x1_0000
    && 0 <= pay.refunded <= pay.paid
    && pay.status == (if pay.refunded == 0 then Paid else if pay.refunded == pay.paid then Refunded else PartialRefunded)
  }

  lemma InvAgrees(db: Db, id: nat)
    requires Inv(db) && id in db.sessions
    ensures Agree(db, id)
  {
    assert SessionOk(db, id);
  }

  /** Per order the operations, the session and the payment agree, in every reachable state. */
  lemma LedgerAgrees(db: Db, events: seq<Event>, id: nat)
    requires Opening(db) && id in Exec(db, events).sessions
    ensures Agree(Exec(db, events), id)
  {
    ExecKeepsInv(db, events);
    InvAgrees(Exec(db, events), id);
  }

  /** Each hardware event is one operation, and the debits are the prices of the operations, one each, in order. */
  lemma EachEventDebitsOnce(db: Db, events: seq<Event>)
    requires Opening(db)
    ensures OneEventOneOperation(Exec(db, events).operations)
    ensures Debits(Exec(db, events).transfers) == Prices(Exec(db, events).operations)
  {
    ExecKeepsInv(db, events);
  }

  // conservation

  function Balances(ws: map<nat, Wallet>): map<nat, int> { map u | u in ws :: ws[u].balance }

  function Unrefunded(ps: map<nat, Payment>): map<nat, int> { map p | p in ps :: ps[p].paid - ps[p].refunded }

  /** All money of the users: wallets and what card payments still hold. */
  ghost function Worth(db: Db): int { MapSum(Balances(db.wallets)) + MapSum(Unrefunded(db.payments)) }

  lemma WalletWorth(db: Db, user: nat, w: Wallet)
    requires user in db.wallets
    ensures MapSum(Balances(db.wallets[user := w])) == MapSum(Balances(db.wallets)) - db.wallets[user].balance + w.balance
  {
    MapSumUpdate(Balances(db.wallets), user, w.balance);
    assert Balances(db.wallets[user := w]) == Balances(db.wallets)[user := w.balance];
  }

  lemma PaymentWorth(db: Db, p: nat, pay: Payment)
    ensures MapSum(Unrefunded(db.payments[p := pay])) == MapSum(Unrefunded(db.payments))
      - (if p in db.payments then db.payments[p].paid - db.payments[p].refunded else 0) + pay.paid - pay.refunded
  {
    MapSumUpdate(Unrefunded(db.payments), p, pay.paid - pay.refunded);
    assert Unrefunded(db.payments[p := pay]) == Unrefunded(db.payments)[p := pay.paid - pay.refunded];
  }

  function Inflow(db: Db, e: Event): int { if e.Recharge? && e.user in db.wallets then e.amount else 0 }

  lemma RefundConserves(db: Db, order: Order, cents: int)
    requires order.user in db.wallets && RefundTx(db, order, cents).Ok?
    ensures Worth(RefundTx(db, order, cents).value) == Worth(db)
  {
    if cents > 0 {
      var db' := RefundTx(db, order, cents).value;
      RefundShape(db, order, cents);
      WalletWorth(db, order.user, db'.wallets[order.user]);
      PaymentWorth(db, order.payment, db'.payments[order.payment]);
    }
  }

  lemma SwipeConserves(db: Db, q: Swipe)
    requires Inv(db) && SwipeTx(db, q).Ok?
    ensures Worth(SwipeTx(db, q).value.0) == Worth(db)
  {
    var user, s := SwipeShape(db, q);
    var (db', op) := SwipeTx(db, q).value;
    if !Replayed(db, db', q, op) {
      WalletWorth(db, user, db'.wallets[user]);
      if Extended(db, db', op, user) {
        var p := db.orders[op.order].payment;
        PaymentWorth(db, p, db'.payments[p]);
      } else {
        PaymentWorth(db, db.nextId, db'.payments[db.nextId]);
      }
    }
  }

  lemma SameWorth(db: Db, db': Db)
    requires db'.wallets == db.wallets && db'.payments == db.payments
    ensures Worth(db') == Worth(db)
  {}

  lemma RefundedStartConserves(db: Db, id: nat, cents: int)
    requires HasOrder(db, id) && RefundTx(db, db.orders[id], cents).Ok?
    ensures var db' := RefundTx(db, db.orders[id], cents).value; id in db'.orders && Worth(StartFailed(db', id)) == Worth(db)
  {
    RefundConserves(db, db.orders[id], cents);
    RefundKeepsOrder(db, id, cents);
    var db' := RefundTx(db, db.orders[id], cents).value;
    SameWorth(db', StartFailed(db', id));
  }

  lemma StartAckConserves(db: Db, id: nat, success: bool, at: int)
    ensures Worth(Apply(db, StartAck(id, success, at))) == Worth(db)
  {
    if HasOrder(db, id) && db.orders[id].status.Ordered? {
      if success {
        SameWorth(db, StartSucceeded(db, id, at));
      } else {
        var o := db.orders[id];
        var cents := db.payments[o.payment].paid - db.payments[o.payment].refunded;
        if RefundTx(db, o, cents).Ok? { RefundedStartConserves(db, id, cents); }
      }
    }
  }

  lemma RechargeConserves(db: Db, user: nat, amount: nat)
    ensures Worth(Apply(db, Recharge(user, amount))) == Worth(db) + Inflow(db, Recharge(user, amount))
  {
    if user in db.wallets { WalletWorth(db, user, Apply(db, Recharge(user, amount)).wallets[user]); }
  }

  lemma AdministerConserves(db: Db, e: Event)
    requires e.Administer?
    ensures Worth(Apply(db, e)) == Worth(db)
  {
    if SameMoney(db.wallets, e.wallets) { assert Balances(db.wallets) == Balances(e.wallets); }
  }

  lemma OthersConserve(db: Db, e: Event)
    requires e.FreezeEvent? || e.EndEvent? || e.StopRequest?
    ensures Worth(Apply(db, e)) == Worth(db)
  {
    SameWorth(db, Apply(db, e));
  }

  lemma RefundEventConserves(db: Db, id: nat, cents: int)
    ensures Worth(Apply(db, RefundEvent(id, cents))) == Worth(db)
  {
    if HasOrder(db, id) && RefundTx(db, db.orders[id], cents).Ok? { RefundConserves(db, db.orders[id], cents); }
  }

  lemma SwipeEventConserves(db: Db, q: Swipe)
    requires Inv(db)
    ensures Worth(Apply(db, SwipeEvent(q))) == Worth(db)
  {
    if SwipeTx(db, q).Ok? { SwipeConserves(db, q); }
  }

  /** No event creates or destroys money; only recharges bring some in. */
  lemma ApplyConserves(db: Db, e: Event)
    requires Inv(db)
    ensures Worth(Apply(db, e)) == Worth(db) + Inflow(db, e)
  {
    match e {
      case SwipeEvent(q) => SwipeEventConserves(db, q);
      case RefundEvent(id, cents) => RefundEventConserves(db, id, cents);
      case StartAck(id, success, at) => StartAckConserves(db, id, success, at);
      case Recharge(user, amount) => RechargeConserves(db, user, amount);
      case Administer(_, _, _) => AdministerConserves(db, e);
      case _ => OthersConserve(db, e);
    }
  }

  ghost function TotalInflow(db: Db, events: seq<Event>): int
    decreases |events|
  {
    if events == [] then 0 else Inflow(db, events[0]) + TotalInflow(Apply(db, events[0]), events[1..])
  }

  lemma {:induction false} ExecConserves(db: Db, events: seq<Event>)
    requires Inv(db)
    ensures Worth(Exec(db, events)) == Worth(db) + TotalInflow(db, events)
    decreases |events|
  {
    if events != [] {
      ApplyConserves(db, events[0]);
      ApplyKeepsInv(db, events[0]);
      ExecConserves(Apply(db, events[0]), events[1..]);
    }
  }

  // extension against deadline

  ghost predicate Frozen(db: Db, id: nat) { id in db.sessions && id in db.cutoffs && db.cutoffs[id].reason.CardDuration? }

  lemma RefundFrame(db: Db, order: Order, cents: int)
    requires order.user in db.wallets && RefundTx(db, order, cents).Ok?
    ensures var db' := RefundTx(db, order, cents).value;
      db'.sessions == db.sessions && db'.orders == db.orders && db'.cutoffs == db.cutoffs
  {}

  /** Swipes write no cutoff and sell nothing to an order that has one. */
  lemma SwipeFrame(db: Db, q: Swipe, id: nat)
    requires Inv(db) && SwipeTx(db, q).Ok? && id in db.sessions
    ensures var db' := SwipeTx(db, q).value.0;
      && db'.cutoffs == db.cutoffs && id in db'.sessions
      && (id in db.cutoffs ==> db'.sessions[id].purchased == db.sessions[id].purchased)
  {
    assert SessionOk(db, id);
    var user, s := SwipeShape(db, q);
  }

  lemma StartAckFrame(db: Db, id: nat, success: bool, at: int)
    ensures var db' := Apply(db, StartAck(id, success, at));
      db'.sessions == db.sessions && db'.cutoffs == db.cutoffs
  {
    if HasOrder(db, id) {
      var o := db.orders[id];
      var cents := db.payments[o.payment].paid - db.payments[o.payment].refunded;
      if RefundTx(db, o, cents).Ok? { RefundFrame(db, o, cents); }
    }
  }

  lemma SwipeEventFrame(db: Db, q: Swipe)
    ensures Apply(db, SwipeEvent(q)).cutoffs == db.cutoffs
  {
    if SwipeTx(db, q).Ok? { var user, s := SwipeShape(db, q); }
  }

  ghost predicate CutoffKept(db: Db, db': Db, id: nat)
    requires id in db.sessions && id in db.cutoffs
  {
    && id in db'.sessions && db'.sessions[id].purchased == db.sessions[id].purchased
    && id in db'.cutoffs && db'.cutoffs[id] == db.cutoffs[id]
  }

  lemma RefundEventFrame(db: Db, id: nat, cents: int)
    ensures var db' := Apply(db, RefundEvent(id, cents));
      db'.sessions == db.sessions && db'.cutoffs == db.cutoffs
  {
    if HasOrder(db, id) && RefundTx(db, db.orders[id], cents).Ok? { RefundFrame(db, db.orders[id], cents); }
  }

  lemma OtherFrames(db: Db, e: Event)
    requires !e.SwipeEvent? && !e.RefundEvent? && !e.StartAck?
    ensures Apply(db, e).sessions == db.sessions
    ensures forall id :: id in db.cutoffs ==> id in Apply(db, e).cutoffs && Apply(db, e).cutoffs[id] == db.cutoffs[id]
  {}

  lemma ApplyKeepsCutoff(db: Db, e: Event, id: nat)
    requires Inv(db) && id in db.sessions && id in db.cutoffs
    ensures CutoffKept(db, Apply(db, e), id)
  {
    match e {
      case SwipeEvent(q) => if SwipeTx(db, q).Ok? { SwipeFrame(db, q, id); }
      case RefundEvent(i, cents) => RefundEventFrame(db, i, cents);
      case StartAck(i, success, at) => StartAckFrame(db, i, success, at);
      case _ => OtherFrames(db, e);
    }
  }

  /**
   * In whatever order swipes, deadline checks and everything else happen: once a billing cutoff exists it never
   * changes, no extension is sold any more, and a cutoff frozen for an exhausted duration is the start plus
   * the finally purchased minutes.
   */
  lemma {:induction false} CutoffIsFinal(db: Db, events: seq<Event>, id: nat)
    requires Inv(db) && id in db.sessions && id in db.cutoffs
    ensures var end := Exec(db, events);
      && id in end.sessions && id in end.orders && id in end.cutoffs
      && end.sessions[id].purchased == db.sessions[id].purchased
      && end.cutoffs[id] == db.cutoffs[id]
      && (Frozen(end, id) ==>
           end.orders[id].startedAt.Some? && end.cutoffs[id].at == end.orders[id].startedAt.value + end.sessions[id].purchased * MINUTE)
    decreases |events|
  {
    if events == [] {
      assert SessionOk(db, id);
    } else {
      ApplyKeepsCutoff(db, events[0], id);
      ApplyKeepsInv(db, events[0]);
      CutoffIsFinal(Apply(db, events[0]), events[1..], id);
    }
  }

  lemma OthersFreezeNothing(db: Db, e: Event, id: nat)
    requires Inv(db) && id in db.sessions && !Frozen(db, id) && !e.FreezeEvent?
    ensures !Frozen(Apply(db, e), id)
  {
    if id in db.cutoffs {
      ApplyKeepsCutoff(db, e, id);
    } else {
      match e {
        case SwipeEvent(q) => SwipeEventFrame(db, q);
        case RefundEvent(i, cents) => RefundEventFrame(db, i, cents);
        case StartAck(i, success, at) => StartAckFrame(db, i, success, at);
        case _ =>
      }
    }
  }

  /** A duration cutoff is only ever written by a check at or after the deadline, on an order without one. */
  lemma FrozenAtDeadline(db: Db, e: Event, id: nat)
    requires Inv(db) && id in db.sessions && !Frozen(db, id) && Frozen(Apply(db, e), id)
    ensures e.FreezeEvent? && e.id == id && id !in db.cutoffs
    ensures id in db.orders && db.orders[id].startedAt.Some?
    ensures e.now >= Deadline(db.orders[id], db.sessions[id]) == Apply(db, e).cutoffs[id].at
  {
    if !e.FreezeEvent? { OthersFreezeNothing(db, e, id); }
  }

  // retries

  /** Operations stay in the log; only their status moves. */
  ghost predicate LogKept(ops: seq<Operation>, ops': seq<Operation>) {
    |ops| <= |ops'| && forall k :: 0 <= k < |ops| ==> ops'[k] == ops[k].(status := ops'[k].status)
  }

  lemma RefundKeepsLog(db: Db, order: Order, cents: int)
    requires order.user in db.wallets && RefundTx(db, order, cents).Ok?
    ensures RefundTx(db, order, cents).value.operations == db.operations
  {}

  lemma SwipeKeepsLog(db: Db, q: Swipe)
    requires SwipeTx(db, q).Ok?
    ensures LogKept(db.operations, SwipeTx(db, q).value.0.operations)
  {
    var user, s := SwipeShape(db, q);
  }

  lemma StartAckKeepsLog(db: Db, id: nat, success: bool, at: int)
    ensures LogKept(db.operations, Apply(db, StartAck(id, success, at)).operations)
  {
    if HasOrder(db, id) {
      var o := db.orders[id];
      var cents := db.payments[o.payment].paid - db.payments[o.payment].refunded;
      if RefundTx(db, o, cents).Ok? { RefundKeepsLog(db, o, cents); }
    }
  }

  lemma ApplyKeepsLog(db: Db, e: Event)
    ensures LogKept(db.operations, Apply(db, e).operations)
  {
    match e {
      case SwipeEvent(q) => if SwipeTx(db, q).Ok? { SwipeKeepsLog(db, q); }
      case RefundEvent(i, cents) =>
        if HasOrder(db, i) && RefundTx(db, db.orders[i], cents).Ok? { RefundKeepsLog(db, db.orders[i], cents); }
      case StartAck(id, success, at) => StartAckKeepsLog(db, id, success, at);
      case _ =>
    }
  }

  lemma {:induction false} ExecKeepsLog(db: Db, events: seq<Event>)
    ensures LogKept(db.operations, Exec(db, events).operations)
    decreases |events|
  {
    if events != [] {
      ApplyKeepsLog(db, events[0]);
      ExecKeepsLog(Apply(db, events[0]), events[1..]);
    }
  }

  ghost predicate Logged(ops: seq<Operation>, device: string, event: string, k: nat) {
    k < |ops| && ops[k].device == device && ops[k].event == event
  }

  lemma SwipeIsLogged(db: Db, q: Swipe) returns (k: nat)
    requires SwipeTx(db, q).Ok?
    ensures Logged(SwipeTx(db, q).value.0.operations, q.port.device, q.event, k)
  {
    var user, s := SwipeShape(db, q);
    var (db', op) := SwipeTx(db, q).value;
    if Replayed(db, db', q, op) {
      k :| 0 <= k < |db'.operations| && db'.operations[k] == op;
    } else {
      k := |db.operations|;
    }
  }

  lemma LoggedSwipeIsInert(db: Db, q: Swipe, k: nat)
    requires Logged(db.operations, q.port.device, q.event, k)
    ensures Apply(db, SwipeEvent(q)) == db
  {
    assert db.operations[k] in db.operations;
  }

  /** Once a hardware event has bought something, its retries change nothing, whatever happens in between. */
  lemma RetryNeverDebits(db: Db, q: Swipe, events: seq<Event>, retry: Swipe)
    requires SwipeTx(db, q).Ok? && retry.port.device == q.port.device && retry.event == q.event
    ensures var later := Exec(SwipeTx(db, q).value.0, events);
      Apply(later, SwipeEvent(retry)) == later
  {
    var k := SwipeIsLogged(db, q);
    ExecKeepsLog(SwipeTx(db, q).value.0, events);
    LoggedSwipeIsInert(Exec(SwipeTx(db, q).value.0, events), retry, k);
  }

  // ------------------------------------------------ when each transaction succeeds

  function Decimal(n: nat): (s: string)
    ensures |s| > 0
  {
    var digit := ['0' + (n % 10) as char];
    if n < 10 then digit else Decimal(n / 10) + digit
  }

  lemma {:induction false} NumeralOfDecimal(n: nat)
    ensures Numeral(Decimal(n)) == Some(n)
    ensures n > 0 ==> Decimal(n)[0] != '0'
  {
    if n >= 10 {
      NumeralOfDecimal(n / 10);
      var s := Decimal(n);
      assert s[..|s| - 1] == Decimal(n / 10);
    }
  }

  lemma {:induction false} DecimalOfNumeral(s: string)
    requires Numeral(s).Some? && s != "" && s[0] != '0'
    ensures Numeral(s).value > 0 && Decimal(Numeral(s).value) == s
  {
    var n := |s| - 1;
    if n > 0 {
      DecimalOfNumeral(s[..n]);
      assert s == s[..n] + [s[n]];
    }
  }

  /** A card number is good exactly if it is the usual decimal form of a positive 32-bit number. */
  lemma GoodCardNoExactly(s: string)
    ensures GoodCardNo(s) <==> exists n: nat :: 0 < n < 0x1_0000_0000 && s == Decimal(n)
  {
    if GoodCardNo(s) {
      DecimalOfNumeral(s);
      assert s == Decimal(Numeral(s).value);
    }
    forall n: nat | 0 < n < 0x1_0000_0000 && s == Decimal(n) ensures GoodCardNo(s) { NumeralOfDecimal(n); }
  }

  /** What a device, a card and its holder have to bring before anything can be bought. */
  predicate Presented(db: Db, q: Swipe) {
    && GoodCardNo(q.cardNo) && 0 < |q.event| <= 128 && q.port.found && q.port.online && q.port.isPort
    && q.cardNo in db.cards && db.cards[q.cardNo].active
    && db.cards[q.cardNo].user in db.activeUsers && db.cards[q.cardNo].user in db.wallets
  }

  ghost predicate Unused(ops: seq<Operation>, device: string, event: string) {
    forall op :: op in ops ==> op.device != device || op.event != event
  }

  lemma FreshSwipe(db: Db, q: Swipe)
    requires Presented(db, q) && Unused(db.operations, q.port.device, q.event)
    ensures var card := db.cards[q.cardNo];
      var bought := if q.port.id in db.ports then Extend(db, q, card) else Start(db, q, card);
      SwipeTx(db, q) ==
        if bought.Err? then bought
        else
          var moved := Move(bought.value.0, card.user, -bought.value.1.price);
          if moved.Err? then Err(moved.error)
          else Ok((moved.value.(operations := moved.value.operations + [bought.value.1]), bought.value.1))
  {
    assert Find(db.operations, q.port.device, q.event).None?;
  }

  /** Buying the package once more depends on these and nothing else. */
  ghost predicate MayExtend(o: Order, s: Session, card: Card, cutoff: bool, ops: seq<Operation>, id: nat, now: int) {
    && o.status.Charging? && o.startedAt.Some? && now < o.startedAt.value + s.purchased * 60_000
    && o.user == card.user && s.card == card.id && !cutoff
    && (forall k :: 0 <= k < |ops| && ops[k].order == id ==> !ops[k].status.Confirming?)
    && s.package.isDuration && s.package.price > 0 && s.package.minutes > 0
    && s.purchased + s.package.minutes <= s.max
  }

  /**
   * On an occupied port a fresh swipe extends the session if and only if the order is charging, the
   * purchased time is not over, order and session are the card holder's, no cutoff and no pending
   * operation exist, the package fits, the wallet is active and covers it, and the payment is not
   * refunded. It buys exactly the session's package.
   */
  lemma ExtendsExactly(db: Db, q: Swipe)
    requires Presented(db, q) && Unused(db.operations, q.port.device, q.event)
    requires q.port.id in db.ports && HasOrder(db, db.ports[q.port.id])
    ensures var card, id := db.cards[q.cardNo], db.ports[q.port.id];
      var o, s, w := db.orders[id], db.sessions[id], db.wallets[card.user];
      SwipeTx(db, q).Ok? <==>
        && MayExtend(o, s, card, id in db.cutoffs, db.operations, id, q.now)
        && w.active && w.balance - w.frozen >= s.package.price && !db.payments[o.payment].status.Refunded?
    ensures SwipeTx(db, q).Ok? ==>
      var card, id := db.cards[q.cardNo], db.ports[q.port.id];
      var (db', op) := SwipeTx(db, q).value;
      && op == Operation(q.port.device, q.event, id, card.id, ExtendSession, db.sessions[id].package.price, db.sessions[id].package.minutes, Confirmed)
      && Extended(db, db', op, card.user)
  {
    FreshSwipe(db, q);
    var card := db.cards[q.cardNo];
    if Extend(db, q, card).Ok? {
      var (db1, op) := Extend(db, q, card).value;
      if Move(db1, card.user, -op.price).Ok? { ExtendShape(db, q, card, db1, op, Move(db1, card.user, -op.price).value); }
    }
  }

  /** The holder is told that the balance is too low exactly if nothing else about the session stands in the way. */
  lemma ExtensionTooDear(db: Db, q: Swipe)
    requires Presented(db, q) && Unused(db.operations, q.port.device, q.event)
    requires q.port.id in db.ports && HasOrder(db, db.ports[q.port.id])
    ensures var card, id := db.cards[q.cardNo], db.ports[q.port.id];
      var o, s, w := db.orders[id], db.sessions[id], db.wallets[card.user];
      SwipeTx(db, q) == Err(BalanceTooLow) <==>
        MayExtend(o, s, card, id in db.cutoffs, db.operations, id, q.now) && w.balance - w.frozen < s.package.price
    ensures SwipeTx(db, q).Err? ==> SwipeTx(db, q).error != NotFound
  {
    FreshSwipe(db, q);
  }

  predicate MayStart(q: Swipe) {
    && q.portFree && q.port.available && q.offer.Some?
    && q.offer.value.package.isDuration && q.offer.value.package.price > 0
    && 0 < q.offer.value.package.minutes <= q.offer.value.max
  }

  /**
   * On a free port a fresh swipe starts a session if and only if the port is available, the rule offers
   * cards a package that fits its maximum, and the wallet is active and covers it. The session is the
   * card's, on that port, with that package and maximum, waiting for the device.
   */
  lemma StartsExactly(db: Db, q: Swipe)
    requires Presented(db, q) && Unused(db.operations, q.port.device, q.event) && q.port.id !in db.ports
    ensures var w := db.wallets[db.cards[q.cardNo].user];
      SwipeTx(db, q).Ok? <==> MayStart(q) && w.active && w.balance - w.frozen >= q.offer.value.package.price
    ensures var w := db.wallets[db.cards[q.cardNo].user];
      SwipeTx(db, q) == Err(BalanceTooLow) <==> MayStart(q) && w.balance - w.frozen < q.offer.value.package.price
    ensures SwipeTx(db, q).Ok? ==>
      var card, p := db.cards[q.cardNo], q.offer.value.package;
      var (db', op) := SwipeTx(db, q).value;
      && op == Operation(q.port.device, q.event, db.nextId + 1, card.id, StartSession, p.price, p.minutes, Confirming)
      && Started(db, db', op, card.user, Session(card.id, q.port.id, p.price, p.minutes, q.offer.value.max, p))
  {
    FreshSwipe(db, q);
    var card := db.cards[q.cardNo];
    if Start(db, q, card).Ok? {
      var (db1, op) := Start(db, q, card).value;
      if Move(db1, card.user, -op.price).Ok? { StartShape(db, q, card, db1, op, Move(db1, card.user, -op.price).value); }
    }
  }

  /** A used event answers its operation, to the same card on the same port only; anything not presented is refused. */
  lemma ReplaysExactly(db: Db, q: Swipe, k: nat)
    requires k < |db.operations| && OneEventOneOperation(db.operations)
    requires db.operations[k].device == q.port.device && db.operations[k].event == q.event
    ensures var op := db.operations[k];
      SwipeTx(db, q).Ok? <==>
        && GoodCardNo(q.cardNo) && 0 < |q.event| <= 128 && q.port.found && q.port.online && q.port.isPort && q.cardNo in db.cards
        && op.card == db.cards[q.cardNo].id && op.order in db.sessions && db.sessions[op.order].port == q.port.id
    ensures SwipeTx(db, q).Ok? ==> SwipeTx(db, q).value == (db, db.operations[k])
  {
    var op := db.operations[k];
    assert op in db.operations;
    var found := Find(db.operations, q.port.device, q.event);
    if found.Some? {
      var j :| 0 <= j < |db.operations| && db.operations[j] == found.value;
      assert j == k;
    }
  }

  lemma UnpresentedIsRefused(db: Db, q: Swipe)
    requires !Presented(db, q) && Unused(db.operations, q.port.device, q.event)
    ensures SwipeTx(db, q).Err?
  {
    assert Find(db.operations, q.port.device, q.event).None?;
  }

  /** A refund of some cents succeeds if and only if that much of the payment is left, and returns exactly that to the wallet. */
  lemma RefundsExactly(db: Db, id: nat, cents: int)
    requires HasOrder(db, id) && cents > 0
    ensures var o := db.orders[id];
      var w, pay := db.wallets[o.user], db.payments[o.payment];
      RefundTx(db, o, cents) ==
        if cents > pay.paid - pay.refunded then Err(NotAllowed)
        else Ok(db.(wallets := db.wallets[o.user := Wallet(w.balance + cents, w.frozen, w.active)],
                    transfers := db.transfers + [Transfer(o.user, cents)],
                    payments := db.payments[o.payment := Payment(pay.paid, pay.total, pay.refunded + cents,
                      if pay.refunded + cents == pay.paid then Refunded else PartialRefunded)]))
  {}

  /** A deadline check writes a cutoff if and only if the order is charging, its purchased time is over and it has none yet. */
  lemma FreezesExactly(db: Db, id: nat, now: int)
    requires HasOrder(db, id)
    ensures var o, s := db.orders[id], db.sessions[id];
      var over := o.status.Charging? && o.startedAt.Some? && now >= o.startedAt.value + s.purchased * 60_000;
      FreezeTx(db, id, now) ==
        if !over then Ok((db, false))
        else if id in db.cutoffs then Err(NotAllowed)
        else Ok((db.(cutoffs := db.cutoffs[id := Cutoff(o.startedAt.value + s.purchased * 60_000, CardDuration)]), true))
  {}

  /** A start that the device refuses gives all the money back, frees the port and ends the order. */
  lemma FailedStartExactly(db: Db, id: nat, at: int)
    requires Inv(db) && HasOrder(db, id) && db.orders[id].status.Ordered?
    ensures var o, db' := db.orders[id], Apply(db, StartAck(id, false, at));
      && db'.payments[o.payment].refunded == db.payments[o.payment].paid
      && db'.wallets[o.user].balance == db.wallets[o.user].balance + db.payments[o.payment].paid - db.payments[o.payment].refunded
      && db'.orders == db.orders[id := o.(status := OrderRefunded)]
      && (forall p :: p in db'.ports <==> p in db.ports && db.ports[p] != id)
      && (forall k :: 0 <= k < |db.operations| && db.operations[k].order == id && db.operations[k].kind.StartSession? ==>
            db'.operations[k].status.Failed?)
  {
    assert SessionOk(db, id);
    var o := db.orders[id];
    var cents := db.payments[o.payment].paid - db.payments[o.payment].refunded;
    if cents > 0 { RefundsExactly(db, id, cents); }
  }

  // ------------------------------------------------------------------- the store

  /** Transactions work on their own copy of the tables and assign it on commit. */
  class CardStore {
    var db: Db

    constructor (db: Db)
      ensures this.db == db
    {
      this.db := db;
    }

    method Swipe(q: Swipe) returns (r: Result<Operation, Refusal>)
      modifies this
      ensures r.Ok? ==> SwipeTx(old(db), q) == Ok((db, r.value))
      ensures r.Err? ==> SwipeTx(old(db), q) == Err(r.error) && db == old(db)
    {
      if !GoodSwipe(q) { return Err(NotAllowed); }
      var tx := db;
      if q.cardNo !in tx.cards { return Err(NotFound); }
      var card := tx.cards[q.cardNo];
      var previous := Find(tx.operations, q.port.device, q.event);
      if previous.Some? {
        var op := previous.value;
        if op.card != card.id || op.order !in tx.sessions || tx.sessions[op.order].port != q.port.id { return Err(NotAllowed); }
        return Ok(op);
      }
      if !card.active || card.user !in tx.activeUsers { return Err(NotAllowed); }
      if card.user !in tx.wallets { return Err(NotFound); }
      var bought := if q.port.id in tx.ports then Extend(tx, q, card) else Start(tx, q, card);
      if bought.Err? { return Err(bought.error); }
      var op := bought.value.1;
      tx := bought.value.0;
      var moved := Move(tx, card.user, -op.price);
      if moved.Err? { return Err(moved.error); }
      tx := moved.value;
      tx := tx.(operations := tx.operations + [op]);
      db := tx;
      r := Ok(op);
    }

    method Refund(id: nat, cents: int) returns (r: Result<(), Refusal>)
      requires HasOrder(db, id)
      modifies this
      ensures r.Ok? ==> RefundTx(old(db), old(db).orders[id], cents) == Ok(db)
      ensures r.Err? ==> RefundTx(old(db), old(db).orders[id], cents) == Err(r.error) && db == old(db)
    {
      if cents <= 0 { return Ok(()); }
      var order, tx := db.orders[id], db;
      var moved := Move(tx, order.user, cents);
      if moved.Err? { return Err(moved.error); }
      tx := moved.value;
      var payment := tx.payments[order.payment];
      if payment.paid - payment.refunded < cents { return Err(NotAllowed); }
      var status := PartialRefunded;
      if payment.refunded + cents == payment.paid { status := Refunded; }
      tx := tx.(payments := tx.payments[order.payment := payment.(refunded := payment.refunded + cents, status := status)]);
      db := tx;
      r := Ok(());
    }

    method FreezeDeadline(id: nat, now: int) returns (r: Result<bool, Refusal>)
      modifies this
      ensures r.Ok? ==> FreezeTx(old(db), id, now) == Ok((db, r.value))
      ensures r.Err? ==> FreezeTx(old(db), id, now) == Err(r.error) && db == old(db)
    {
      if id !in db.sessions || id !in db.orders { return Err(NotFound); }
      var session, order := db.sessions[id], db.orders[id];
      if order.status != Charging || order.startedAt.None? { return Ok(false); }
      var deadline := order.startedAt.value + session.purchased * MINUTE;
      if now < deadline { return Ok(false); }
      if id in db.cutoffs { return Err(NotAllowed); }
      db := db.(cutoffs := db.cutoffs[id := Cutoff(deadline, CardDuration)]);
      r := Ok(true);
    }
  }
}
