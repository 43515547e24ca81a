/**
 What each use case does to the tables, statement by statement. A transaction is a list
 of statements still to run; executing one yields the rows it writes and the statements
 it makes necessary (a `FOR UPDATE` read decides what follows), or a thrown error.
 */
module Transactions {
  import opened Wrappers
  import opened Tables
  import opened Cart
  import opened Sequences

  datatype Error =
    | EmptyOrder | DuplicateProduct | InvalidQuantity | InvalidAdjustment
    | InsufficientStock(product: Id, requested: int) | NotEnoughStock
    | OrderNotFound | CannotTransition(from: OrderStatus, to: OrderStatus)
    | ProposalNotFound | AlreadyDecided(status: ProposalStatus) | OwnProposal
    | DuplicateKey       // a primary key is taken
    | BooksBroken        // "Reservation holds more than inventory has reserved"

  datatype Request =
    | Create(order: Id, warehouse: Id, lines: seq<Line>, idempotencyKey: Option<nat>)
    | Transition(order: Id, target: OrderStatus)
    | Adjust(request: nat, key: StockKey, delta: int)
    | Propose(proposal: Id, key: StockKey, delta: int, proposer: Id)
    | Decision(proposal: Id, actor: Id, approve: bool)

  datatype Stmt =
    | Validate(verdict: Option<Error>)
    | InsertOrder(order: Id, warehouse: Id)
    | EnsureStockRow(key: StockKey)
    | MoveStock(move: Move)
    | RecordMove(entry: Entry)
    | InsertReservations(order: Id, rows: seq<Reservation>)
    | LockOrder(order: Id, target: OrderStatus)
    | LockHeld(order: Id, target: OrderStatus)
    | Settle(order: Id, products: set<Id>, status: ReservationStatus)
    | SetStatus(order: Id, target: OrderStatus)
    | AppendEvent(event: Event)
    | InsertProposal(proposal: Id, row: Proposal)
    | LockProposal(proposal: Id, actor: Id, approve: bool)
    | Decide(proposal: Id, decision: ProposalStatus, actor: Id, applied: Option<TxnId>)
    | CompleteKey(idempotencyKey: nat)

  /** A requested stock movement; `onNull` is what the caller throws when the row does not allow it. */
  datatype Move = Move(kind: TxnType, key: StockKey, amount: int, id: TxnId, onNull: Error)

  // ---- The four conditional updates ----

  /** The row an update leaves behind, or None when its WHERE does not match. */
  function MovedLevel(kind: TxnType, row: Level, amount: int): Option<Level> {
    match kind
    case ManualAdjustment =>
      if row.available + amount >= 0
      then Some(Level(row.available + amount, row.reserved, row.version + 1)) else None
    case Reserve =>
      if row.available >= amount
      then Some(Level(row.available - amount, row.reserved + amount, row.version + 1)) else None
    case Release =>
      if row.reserved >= amount
      then Some(Level(row.available + amount, row.reserved - amount, row.version + 1)) else None
    case Consume =>
      if row.reserved >= amount
      then Some(Level(row.available, row.reserved - amount, row.version + 1)) else None
  }

  /** The check in front of every update. */
  function AmountError(kind: TxnType, amount: int): Option<Error> {
    if kind == ManualAdjustment then (if amount == 0 then Some(InvalidAdjustment) else None)
    else if amount < 1 then Some(InvalidQuantity) else None
  }

  function Abs(x: int): int { if x < 0 then -x else x }

  function QtyOf(l: Level): Qty { Qty(l.available, l.reserved) }

  function EntryOf(m: Move, before: Level, after: Level): Entry {
    Entry(m.id, m.key, m.kind, Abs(m.amount), QtyOf(before), QtyOf(after))
  }

  // ---- Ordering of lines ----

  predicate LineBefore(a: Line, b: Line) { a.product < b.product }

  /** `[...items].sort(byProductId)`. */
  function SortByProduct(lines: seq<Line>): seq<Line> { StableSort(lines, LineBefore) }

  predicate RepeatsProduct(lines: seq<Line>) {
    exists i, j :: 0 <= i < j < |lines| && lines[i].product == lines[j].product
  }

  /** What is rejected before any row is touched. */
  function LinesError(lines: seq<Line>): Option<Error> {
    if lines == [] then Some(EmptyOrder)
    else if RepeatsProduct(lines) then Some(DuplicateProduct)
    else if exists l :: l in lines && l.qty < 1 then Some(InvalidQuantity)
    else None
  }

  // ---- Statement lists ----

  function ReserveMoves(order: Id, warehouse: Id, lines: seq<Line>): seq<Move> {
    if lines == [] then []
    else
      [Move(Reserve, StockKey(lines[0].product, warehouse), lines[0].qty,
            OfReservation(order, lines[0].product, Reserve),
            InsufficientStock(lines[0].product, lines[0].qty))]
      + ReserveMoves(order, warehouse, lines[1..])
  }

  function SettleMoves(order: Id, held: seq<Reservation>, effect: TxnType): seq<Move> {
    if held == [] then []
    else
      [Move(effect, held[0].Key(), held[0].qty, OfReservation(order, held[0].product, effect), BooksBroken)]
      + SettleMoves(order, held[1..], effect)
  }

  function MoveStmts(moves: seq<Move>): seq<Stmt> {
    seq(|moves|, i requires 0 <= i < |moves| => MoveStock(moves[i]))
  }

  /** The reservation rows `reserveStock` collects. */
  function NewReservations(warehouse: Id, lines: seq<Line>): seq<Reservation> {
    seq(|lines|, i requires 0 <= i < |lines| => Reservation(lines[i].product, warehouse, lines[i].qty, Held))
  }

  /** `WHERE status = 'held'`, in whatever order the rows are stored. */
  function OnlyHeld(rows: seq<Reservation>): seq<Reservation> {
    if rows == [] then []
    else (if rows[0].status == Held then [rows[0]] else []) + OnlyHeld(rows[1..])
  }

  predicate RowBefore(a: Reservation, b: Reservation) { a.product < b.product }

  /** The locking read: the held rows, `ORDER BY product_id`. */
  function HeldRows(rows: seq<Reservation>): seq<Reservation> { StableSort(OnlyHeld(rows), RowBefore) }

  function Products(rows: seq<Reservation>): set<Id> {
    set r | r in rows :: r.product
  }

  function SettledStatus(effect: TxnType): ReservationStatus {
    if effect == Consume then Consumed else Released
  }

  /** `UPDATE ... SET status WHERE id = ANY(ids) AND status = 'held'`. */
  function SettleRows(rows: seq<Reservation>, products: set<Id>, status: ReservationStatus): seq<Reservation> {
    seq(|rows|, i requires 0 <= i < |rows| =>
      if rows[i].status == Held && rows[i].product in products then rows[i].(status := status) else rows[i])
  }

  function AdjustStmts(key: StockKey, delta: int, id: TxnId): seq<Stmt> {
    [Validate(AmountError(ManualAdjustment, delta))]
    + (if delta > 0 then [EnsureStockRow(key)] else [])
    + [MoveStock(Move(ManualAdjustment, key, delta, id, NotEnoughStock))]
  }

  /** Completing the idempotency key is the last statement of the work's transaction. */
  function KeyStmts(idem: Option<nat>): seq<Stmt> {
    if idem.Some? then [CompleteKey(idem.value)] else []
  }

  function CreateStmts(order: Id, warehouse: Id, lines: seq<Line>, idem: Option<nat>): seq<Stmt> {
    var sorted := SortByProduct(lines);
    [Validate(LinesError(lines)), InsertOrder(order, warehouse)]
    + MoveStmts(ReserveMoves(order, warehouse, sorted))
    + [InsertReservations(order, NewReservations(warehouse, sorted)), AppendEvent(Created(order))]
    + KeyStmts(idem)
  }

  function Program(r: Request): seq<Stmt> {
    match r
    case Create(order, warehouse, lines, idem) => CreateStmts(order, warehouse, lines, idem)
    case Transition(order, target) => [LockOrder(order, target)]
    case Adjust(request, key, delta) => AdjustStmts(key, delta, OfAdjustment(request))
    case Propose(id, key, delta, proposer) =>
      [Validate(AmountError(ManualAdjustment, delta)),
       InsertProposal(id, Proposal(key.product, key.warehouse, delta, proposer, Undecided, None, None))]
    case Decision(id, actor, approve) => [LockProposal(id, actor, approve)]
  }

  /** Neither a transition nor a decision that must follow a lock is left once its lock is taken. */
  function Depth(s: Stmt): nat {
    match s
    case LockOrder(_, _) => 3
    case LockHeld(_, _) => 2
    case LockProposal(_, _, _) => 2
    case MoveStock(_) => 1
    case _ => 0
  }

  datatype Effect = Effect(writes: seq<Write>, next: seq<Stmt>)

  function Settled(current: OrderStatus, target: OrderStatus): bool {
    current == target || (target in RELEASED && current in RELEASED)
  }

  /** What follows once an order is locked and found to be in `from`. */
  function TransitionStmts(order: Id, from: OrderStatus, target: OrderStatus): seq<Stmt> {
    (if StockEffect(target).Some? then [LockHeld(order, target)] else [])
    + [SetStatus(order, target), AppendEvent(Moved(order, from, target))]
  }

  function SettleStmts(order: Id, held: seq<Reservation>, effect: TxnType): seq<Stmt> {
    MoveStmts(SettleMoves(order, held, effect)) + [Settle(order, Products(held), SettledStatus(effect))]
  }

  function DecisionStmts(id: Id, p: Proposal, actor: Id, approve: bool): seq<Stmt> {
    if approve
    then AdjustStmts(p.Key(), p.delta, OfProposal(id)) + [Decide(id, Approved, actor, Some(OfProposal(id)))]
    else [Decide(id, Rejected, actor, None)]
  }

  /** One statement on the rows a transaction sees. */
  function Exec(s: Stmt, db: Db): (r: Outcome<Effect, Error>)
    ensures r.Ok? ==> forall n :: n in r.value.next ==> Depth(n) < Depth(s)
  {
    match s
    case Validate(verdict) =>
      if verdict.Some? then Fail(verdict.value) else Ok(Effect([], []))
    case InsertOrder(id, warehouse) =>
      if id in db.orders then Fail(DuplicateKey)
      else Ok(Effect([PutOrder(id, Order(warehouse, Reserved))], []))
    case EnsureStockRow(key) =>
      Ok(Effect(if key in db.stock then [] else [PutStock(key, Level(0, 0, 0))], []))
    case MoveStock(m) =>
      if AmountError(m.kind, m.amount).Some? then Fail(AmountError(m.kind, m.amount).value)
      else if m.key !in db.stock then Fail(m.onNull)
      else
        var moved := MovedLevel(m.kind, db.stock[m.key], m.amount);
        if moved.None? then Fail(m.onNull)
        else Ok(Effect([PutStock(m.key, moved.value)], [RecordMove(EntryOf(m, db.stock[m.key], moved.value))]))
    case RecordMove(e) => Ok(Effect([AddEntry(e)], []))
    case InsertReservations(id, rows) => Ok(Effect([PutReservations(id, rows)], []))
    case LockOrder(id, target) =>
      if id !in db.orders then Fail(OrderNotFound)
      else
        var from := db.orders[id].status;
        if Settled(from, target) then Ok(Effect([], []))
        else if !CanTransition(from, target) then Fail(CannotTransition(from, target))
        else Ok(Effect([], TransitionStmts(id, from, target)))
    case LockHeld(id, target) =>
      if id !in db.reservations || StockEffect(target).None? then Ok(Effect([], []))
      else Ok(Effect([], SettleStmts(id, HeldRows(db.reservations[id]), StockEffect(target).value)))
    case Settle(id, products, status) =>
      if id !in db.reservations then Ok(Effect([], []))
      else Ok(Effect([PutReservations(id, SettleRows(db.reservations[id], products, status))], []))
    case SetStatus(id, status) =>
      if id !in db.orders then Fail(OrderNotFound)
      else Ok(Effect([PutOrder(id, db.orders[id].(status := status))], []))
    case AppendEvent(ev) => Ok(Effect([AddEvent(ev)], []))
    case InsertProposal(id, row) =>
      if id in db.proposals then Fail(DuplicateKey) else Ok(Effect([PutProposal(id, row)], []))
    case LockProposal(id, actor, approve) =>
      if id !in db.proposals then Fail(ProposalNotFound)
      else
        var p := db.proposals[id];
        if p.status != Undecided then Fail(AlreadyDecided(p.status))
        else if p.proposer == actor then Fail(OwnProposal)
        else Ok(Effect([], DecisionStmts(id, p, actor, approve)))
    case Decide(id, status, actor, applied) =>
      if id !in db.proposals || db.proposals[id].status != Undecided then Ok(Effect([], []))
      else
        Ok(Effect([PutProposal(id,
          db.proposals[id].(status := status, decidedBy := Some(actor), applied := applied))], []))
    case CompleteKey(_) => Ok(Effect([], []))
  }

  // ---- Running a transaction alone ----

  /** How many statements of one depth are left; the measure of a run. */
  ghost function Cost(todo: seq<Stmt>, depth: nat): nat {
    if todo == [] then 0
    else (if Depth(todo[0]) == depth then 1 else 0) + Cost(todo[1..], depth)
  }

  lemma {:induction false} CostConcat(a: seq<Stmt>, b: seq<Stmt>, depth: nat)
    ensures Cost(a + b, depth) == Cost(a, depth) + Cost(b, depth)
  {
    if a == [] {
      assert a + b == b;
    } else {
      assert (a + b)[1..] == a[1..] + b;
      CostConcat(a[1..], b, depth);
    }
  }

  lemma {:induction false} CostShallow(a: seq<Stmt>, depth: nat)
    requires forall s :: s in a ==> Depth(s) < depth
    ensures Cost(a, depth) == 0
  {
    if a != [] { CostShallow(a[1..], depth); }
  }

  /** A step removes one statement and adds only shallower ones. */
  lemma {:induction false} StepShrinks(next: seq<Stmt>, todo: seq<Stmt>)
    requires todo != []
    requires forall n :: n in next ==> Depth(n) < Depth(todo[0])
    ensures forall d: nat :: d > Depth(todo[0]) ==> Cost(next + todo[1..], d) == Cost(todo, d)
    ensures Cost(next + todo[1..], Depth(todo[0])) < Cost(todo, Depth(todo[0]))
  {
    forall d: nat | d >= Depth(todo[0]) ensures Cost(next + todo[1..], d) == Cost(todo[1..], d) {
      CostShallow(next, d);
      CostConcat(next, todo[1..], d);
    }
  }

  /** All the statements left, on `db`: the committed tables, or the error that rolls everything back. */
  function Run(todo: seq<Stmt>, db: Db): Outcome<Db, Error>
    decreases Cost(todo, 3), Cost(todo, 2), Cost(todo, 1), Cost(todo, 0)
  {
    if todo == [] then Ok(db)
    else
      match Exec(todo[0], db)
      case Fail(e) => Fail(e)
      case Ok(effect) =>
        StepShrinks(effect.next, todo);
        Run(effect.next + todo[1..], ApplyAll(db, effect.writes))
  }

  /** A whole request, in one transaction. */
  function RunRequest(r: Request, db: Db): Outcome<Db, Error> {
    Run(Program(r), db)
  }
}
