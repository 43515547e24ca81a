/**
 What the books promise between transactions, table by table, and what "the ledger
 explains the stock" means.
 */
module Books {
  import opened Wrappers
  import opened Tables
  import opened Transactions
  import opened Movements

  // ---- The ledger of one stock row ----

  /** What the rows of one key add up to: the last level, how many rows, and two running sums. */
  datatype Tally = Tally(last: Qty, count: nat, adjusted: int, consumed: int)

  function TallyOf(ledger: seq<Entry>, key: StockKey): Tally {
    if ledger == [] then Tally(Qty(0, 0), 0, 0, 0)
    else
      var t := TallyOf(ledger[..|ledger| - 1], key);
      var e := ledger[|ledger| - 1];
      if e.key != key then t
      else Tally(
        e.after,
        t.count + 1,
        t.adjusted + (if e.kind == ManualAdjustment then e.after.available - e.before.available else 0),
        t.consumed + (if e.kind == Consume then e.quantity else 0))
  }

  /** The levels of a row are exactly what a movement of its kind and quantity does. */
  predicate Describes(e: Entry) {
    && e.quantity > 0
    && match e.kind
       case ManualAdjustment =>
         Abs(e.after.available - e.before.available) == e.quantity && e.after.reserved == e.before.reserved
       case Reserve => e.after == Qty(e.before.available - e.quantity, e.before.reserved + e.quantity)
       case Release => e.after == Qty(e.before.available + e.quantity, e.before.reserved - e.quantity)
       case Consume => e.after == Qty(e.before.available, e.before.reserved - e.quantity)
  }

  /** Every row starts where the previous row of the same key ended. */
  predicate Chained(ledger: seq<Entry>) {
    forall i :: 0 <= i < |ledger| ==>
      ledger[i].before == TallyOf(ledger[..i], ledger[i].key).last && Describes(ledger[i])
  }

  function LevelAt(stock: map<StockKey, Level>, key: StockKey): Level {
    if key in stock then stock[key] else Level(0, 0, 0)
  }

  predicate Explains(level: Level, t: Tally) {
    && level.available >= 0 && level.reserved >= 0
    && QtyOf(level) == t.last
    && level.version == t.count
    && t.adjusted == level.available + level.reserved + t.consumed
  }

  ghost predicate LedgerBooks(s: Ledgered) {
    && Chained(s.ledger)
    && forall k :: Explains(LevelAt(s.stock, k), TallyOf(s.ledger, k))
  }

  // ---- Reserved stock ----

  function HeldQty(rows: seq<Reservation>, key: StockKey): int {
    if rows == [] then 0
    else (if rows[0].status == Held && rows[0].Key() == key then rows[0].qty else 0) + HeldQty(rows[1..], key)
  }

  /** The sum of the held reservations of one stock row, over all orders. */
  ghost function HeldSum(reservations: map<Id, seq<Reservation>>, key: StockKey): int
    decreases |reservations|
  {
    if reservations == map[] then 0
    else
      var o :| o in reservations;
      HeldQty(reservations[o], key) + HeldSum(reservations - {o}, key)
  }

  ghost predicate StockBooks(stock: map<StockKey, Level>, reservations: map<Id, seq<Reservation>>) {
    forall k :: LevelAt(stock, k).reserved == HeldSum(reservations, k)
  }

  // ---- Orders and their reservations ----

  function ExpectedStatus(status: OrderStatus): ReservationStatus {
    match status
    case Fulfilled => Consumed
    case Cancelled => Released
    case Expired => Released
    case _ => Held
  }

  predicate ByProduct(rows: seq<Reservation>) {
    forall i, j :: 0 <= i < j < |rows| ==> rows[i].product < rows[j].product
  }

  predicate OnePerProduct(rows: seq<Reservation>) {
    forall i, j :: 0 <= i < j < |rows| ==> rows[i].product != rows[j].product
  }

  /** The reservations of an order: its own warehouse, one per product, all in step with it; stored in any order. */
  predicate Follows(order: Order, rows: seq<Reservation>) {
    && rows != []
    && OnePerProduct(rows)
    && forall r :: r in rows ==>
         r.warehouse == order.warehouse && r.qty >= 1 && r.status == ExpectedStatus(order.status)
  }

  ghost predicate OrderBooks(orders: map<Id, Order>, reservations: map<Id, seq<Reservation>>) {
    && orders.Keys == reservations.Keys
    && forall o :: o in orders ==>
         orders[o].status in {Reserved, Paid, Fulfilled, Cancelled, Expired} && Follows(orders[o], reservations[o])
  }

  // ---- Ledger rows by cause ----

  function Caused(ledger: seq<Entry>, id: TxnId): seq<Entry> {
    if ledger == [] then []
    else
      var e := ledger[|ledger| - 1];
      Caused(ledger[..|ledger| - 1], id) + (if e.id == id then [e] else [])
  }

  /** Exactly one row, of this kind, key and quantity. */
  predicate OneRow(rows: seq<Entry>, kind: TxnType, key: StockKey, qty: int) {
    |rows| == 1 && rows[0].kind == kind && rows[0].key == key && rows[0].quantity == qty
  }

  predicate Traced(ledger: seq<Entry>, order: Id, r: Reservation) {
    && OneRow(Caused(ledger, OfReservation(order, r.product, Reserve)), Reserve, r.Key(), r.qty)
    && (if r.status == Released
        then OneRow(Caused(ledger, OfReservation(order, r.product, Release)), Release, r.Key(), r.qty)
        else Caused(ledger, OfReservation(order, r.product, Release)) == [])
    && (if r.status == Consumed
        then OneRow(Caused(ledger, OfReservation(order, r.product, Consume)), Consume, r.Key(), r.qty)
        else Caused(ledger, OfReservation(order, r.product, Consume)) == [])
  }

  ghost predicate ReservationBooks(reservations: map<Id, seq<Reservation>>, ledger: seq<Entry>) {
    && (forall o, r :: o in reservations && r in reservations[o] ==> Traced(ledger, o, r))
    && (forall o, p, kind :: o !in reservations ==> Caused(ledger, OfReservation(o, p, kind)) == [])
  }

  ghost predicate ProposalBooks(proposals: map<Id, Proposal>, ledger: seq<Entry>) {
    forall p ::
      var rows := Caused(ledger, OfProposal(p));
      if p in proposals && proposals[p].status == Approved then
        var row := proposals[p];
        && OneRow(rows, ManualAdjustment, row.Key(), Abs(row.delta))
        && rows[0].after.available - rows[0].before.available == row.delta
        && row.applied == Some(OfProposal(p))
        && row.decidedBy.Some? && row.decidedBy.value != row.proposer
      else
        rows == [] && (p in proposals ==> proposals[p].applied == None)
  }

  // ---- Events ----

  function EventsOf(outbox: seq<Event>, order: Id): seq<Event> {
    if outbox == [] then []
    else
      var ev := outbox[|outbox| - 1];
      EventsOf(outbox[..|outbox| - 1], order) + (if ev.order == order then [ev] else [])
  }

  /** The status a history leads to, if it is a path through the transition table from `created`. */
  function Spelled(events: seq<Event>): Option<OrderStatus> {
    if events == [] then None
    else
      match events[|events| - 1]
      case Created(_) => if |events| == 1 then Some(Reserved) else None
      case Moved(_, from, to) =>
        if Spelled(events[..|events| - 1]) == Some(from) && CanTransition(from, to) then Some(to) else None
  }

  ghost predicate EventBooks(orders: map<Id, Order>, outbox: seq<Event>) {
    forall o ::
      if o in orders then Spelled(EventsOf(outbox, o)) == Some(orders[o].status)
      else EventsOf(outbox, o) == []
  }

  ghost predicate Sound(db: Db) {
    && LedgerBooks(LedgeredOf(db))
    && StockBooks(db.stock, db.reservations)
    && OrderBooks(db.orders, db.reservations)
    && ReservationBooks(db.reservations, db.ledger)
    && ProposalBooks(db.proposals, db.ledger)
    && EventBooks(db.orders, db.outbox)
  }

  const EMPTY := Db(map[], map[], map[], map[], [], [])

  lemma {:induction false} EmptySound()
    ensures Sound(EMPTY)
  {}

  // ---- Sums over the reservations ----

  lemma {:induction false} HeldSumAt(reservations: map<Id, seq<Reservation>>, o: Id, key: StockKey)
    requires o in reservations
    ensures HeldSum(reservations, key) == HeldQty(reservations[o], key) + HeldSum(reservations - {o}, key)
    decreases |reservations|
  {
    var p :| p in reservations &&
      HeldSum(reservations, key) == HeldQty(reservations[p], key) + HeldSum(reservations - {p}, key);
    if p != o {
      HeldSumAt(reservations - {p}, o, key);
      HeldSumAt(reservations - {o}, p, key);
      assert reservations - {p} - {o} == reservations - {o} - {p};
    }
  }

  lemma {:induction false} HeldSumPut(reservations: map<Id, seq<Reservation>>, o: Id, rows: seq<Reservation>, key: StockKey)
    ensures HeldSum(reservations[o := rows], key) == HeldSum(reservations, key) + HeldQty(rows, key)
              - (if o in reservations then HeldQty(reservations[o], key) else 0)
  {
    HeldSumAt(reservations[o := rows], o, key);
    assert reservations[o := rows] - {o} == reservations - {o};
    if o in reservations {
      HeldSumAt(reservations, o, key);
    } else {
      assert reservations - {o} == reservations;
    }
  }

  lemma {:induction false} HeldQtyNonNegative(rows: seq<Reservation>, key: StockKey)
    requires forall r :: r in rows ==> r.qty >= 1
    ensures HeldQty(rows, key) >= 0
  {
    if rows != [] { HeldQtyNonNegative(rows[1..], key); }
  }

  /** No order holds more of a stock row than the row has reserved. */
  lemma {:induction false} CoveredByStock(db: Db, o: Id, key: StockKey)
    requires Sound(db) && o in db.reservations
    ensures HeldQty(db.reservations[o], key) <= LevelAt(db.stock, key).reserved
  {
    HeldSumAt(db.reservations, o, key);
    HeldSumNonNegative(db.reservations - {o}, key);
  }

  lemma {:induction false} HeldSumNonNegative(reservations: map<Id, seq<Reservation>>, key: StockKey)
    requires forall o, r :: o in reservations && r in reservations[o] ==> r.qty >= 1
    ensures HeldSum(reservations, key) >= 0
    decreases |reservations|
  {
    if reservations != map[] {
      var o :| o in reservations &&
        HeldSum(reservations, key) == HeldQty(reservations[o], key) + HeldSum(reservations - {o}, key);
      HeldQtyNonNegative(reservations[o], key);
      HeldSumNonNegative(reservations - {o}, key);
    }
  }
}
