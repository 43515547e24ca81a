/**
 The tables of the transactional core and the row writes that change them: stock,
 orders, reservations, proposals, the stock ledger and the outbox.

 Uuids are numbers (module UuidOrder relates the order of the numbers to the order of
 the strings). One stock row exists per (product, warehouse), so the pair is its id.
 A reservation is named by its order and product: an order holds each product once.
 The reservations of an order are kept together, in the order they were inserted.
 */
module Tables {
  import opened Wrappers

  type Id = nat

  datatype StockKey = StockKey(product: Id, warehouse: Id)

  datatype Level = Level(available: int, reserved: int, version: int)

  datatype OrderStatus =
    | Pending | Reserved | AwaitingPayment | Paid | Fulfilled | Completed | Cancelled | Expired

  datatype Order = Order(warehouse: Id, status: OrderStatus)

  datatype ReservationStatus = Held | Released | Consumed

  datatype Reservation = Reservation(product: Id, warehouse: Id, qty: int, status: ReservationStatus) {
    function Key(): StockKey { StockKey(product, warehouse) }
  }

  datatype ProposalStatus = Undecided | Approved | Rejected

  datatype Proposal = Proposal(
    product: Id, warehouse: Id, delta: int, proposer: Id,
    status: ProposalStatus, decidedBy: Option<Id>, applied: Option<TxnId>)
  {
    function Key(): StockKey { StockKey(product, warehouse) }
  }

  datatype TxnType = ManualAdjustment | Reserve | Release | Consume

  /** A ledger row's fresh id, named by what caused the row. */
  datatype TxnId =
    | OfAdjustment(request: nat)
    | OfProposal(proposal: Id)
    | OfReservation(order: Id, product: Id, kind: TxnType)

  datatype Qty = Qty(available: int, reserved: int)

  /** One ledger row. `quantity` is positive; the direction is in the levels. */
  datatype Entry = Entry(id: TxnId, key: StockKey, kind: TxnType, quantity: int, before: Qty, after: Qty)

  datatype Event =
    | Created(order: Id)
    | Moved(order: Id, from: OrderStatus, to: OrderStatus)

  datatype Db = Db(
    stock: map<StockKey, Level>,
    orders: map<Id, Order>,
    reservations: map<Id, seq<Reservation>>,
    proposals: map<Id, Proposal>,
    ledger: seq<Entry>,
    outbox: seq<Event>)

  /** A row version written by a statement. */
  datatype Write =
    | PutStock(key: StockKey, level: Level)
    | PutOrder(id: Id, order: Order)
    | PutReservations(id: Id, rows: seq<Reservation>)
    | PutProposal(id: Id, proposal: Proposal)
    | AddEntry(entry: Entry)
    | AddEvent(event: Event)

  function Apply(db: Db, w: Write): Db {
    match w
    case PutStock(k, level) => db.(stock := db.stock[k := level])
    case PutOrder(id, o) => db.(orders := db.orders[id := o])
    case PutReservations(id, rows) => db.(reservations := db.reservations[id := rows])
    case PutProposal(id, p) => db.(proposals := db.proposals[id := p])
    case AddEntry(e) => db.(ledger := db.ledger + [e])
    case AddEvent(ev) => db.(outbox := db.outbox + [ev])
  }

  function ApplyAll(db: Db, ws: seq<Write>): Db
    decreases |ws|
  {
    if ws == [] then db else ApplyAll(Apply(db, ws[0]), ws[1..])
  }

  lemma {:induction false} ApplyAllConcat(db: Db, ws: seq<Write>, more: seq<Write>)
    ensures ApplyAll(db, ws + more) == ApplyAll(ApplyAll(db, ws), more)
    decreases |ws|
  {
    if ws == [] {
      assert ws + more == more;
    } else {
      assert (ws + more)[1..] == ws[1..] + more;
      ApplyAllConcat(Apply(db, ws[0]), ws[1..], more);
    }
  }

  // ---- The order lifecycle ----

  /** Where an order in `status` may go next. */
  function NextStatuses(status: OrderStatus): set<OrderStatus> {
    match status
    case Reserved => {Paid, Cancelled, Expired}
    case Paid => {Fulfilled}
    case _ => {}
  }

  predicate CanTransition(from: OrderStatus, to: OrderStatus) {
    to in NextStatuses(from)
  }

  /** Closed with its stock given back. */
  const RELEASED: set<OrderStatus> := {Cancelled, Expired}

  /** What entering a status does to the stock the order holds. */
  function StockEffect(target: OrderStatus): Option<TxnType> {
    match target
    case Cancelled => Some(Release)
    case Expired => Some(Release)
    case Fulfilled => Some(Consume)
    case _ => None
  }
}
