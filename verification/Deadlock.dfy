/**
 Why transactions never wait for each other in a circle: rows are ranked (orders,
 reservations, proposals, stock by product, the idempotency key) and every transaction
 takes its locks in strictly rising rank, whatever the rows it reads tell it to do next.
 */
module Deadlock {
  import opened Wrappers
  import opened Tables
  import opened Transactions
  import opened Cart
  import opened Movements
  import opened Books
  import opened BooksKept
  import opened Interleaving

  function Kind(row: RowKey): nat {
    match row
    case OrderRow(_) => 0
    case ReservationRows(_) => 1
    case ProposalRow(_) => 2
    case StockRow(_) => 3
    case KeyRow(_) => 4
  }

  function ProductOf(row: RowKey): nat {
    if row.StockRow? then row.key.product else 0
  }

  predicate Before(a: RowKey, b: RowKey) {
    Kind(a) < Kind(b) || (Kind(a) == Kind(b) && ProductOf(a) < ProductOf(b))
  }

  /** The rows a statement may be the first of its transaction to lock. */
  function MayLock(s: Stmt): set<RowKey> {
    match s
    case InsertOrder(o, _) => {OrderRow(o)}
    case LockOrder(o, _) => {OrderRow(o)}
    case LockHeld(o, _) => {ReservationRows(o)}
    case InsertProposal(p, _) => {ProposalRow(p)}
    case LockProposal(p, _, _) => {ProposalRow(p)}
    case EnsureStockRow(key) => {StockRow(key)}
    case MoveStock(m) => {StockRow(m.key)}
    case CompleteKey(k) => {KeyRow(k)}
    case _ => {}
  }

  /** The rows a statement touches that an earlier one has locked. */
  function MustHold(s: Stmt): set<RowKey> {
    match s
    case InsertReservations(o, _) => {OrderRow(o)}
    case LockHeld(o, _) => {OrderRow(o)}
    case Settle(o, _, _) => {OrderRow(o), ReservationRows(o)}
    case SetStatus(o, _) => {OrderRow(o)}
    case Decide(p, _, _, _) => {ProposalRow(p)}
    case _ => {}
  }

  predicate LocksNothing(todo: seq<Stmt>) {
    forall s :: s in todo ==> MayLock(s) == {}
  }

  /**
   The statements left take their locks in rising rank and find locked what they rely on:
   `held` is locked for certain and `possible` at most. A statement that decides what
   follows it has only statements after it that lock nothing new.
   */
  predicate Disciplined(held: set<RowKey>, possible: set<RowKey>, todo: seq<Stmt>)
    decreases |todo|
  {
    todo == [] ||
    var s := todo[0];
    && MustHold(s) <= held
    && (forall h, r :: h in possible && r in MayLock(s) ==> h == r || Before(h, r))
    && (Depth(s) >= 2 ==> LocksNothing(todo[1..]))
    && Disciplined(held + (if s.EnsureStockRow? then {} else MayLock(s)), possible + MayLock(s), todo[1..])
  }

  /** Reservations of an order are read before anything is written. */
  predicate ReadsFirst(todo: seq<Stmt>, writes: seq<Write>) {
    && (forall i :: 0 < i < |todo| ==> !todo[i].LockHeld? && !todo[i].LockOrder?)
    && (todo != [] && (todo[0].LockHeld? || todo[0].LockOrder?) ==> writes == [])
  }

  /** Rejected by its first statement, before it locks anything. */
  predicate Doomed(todo: seq<Stmt>) {
    todo != [] && todo[0].Validate? && todo[0].verdict.Some?
  }

  predicate Orderly(tx: Tx) {
    Doomed(tx.todo) || (Disciplined(tx.locks, tx.locks, tx.todo) && ReadsFirst(tx.todo, tx.writes))
  }

  lemma {:induction false} NeedsSplit(s: Stmt, db: Db)
    ensures Needs(s, db) <= MayLock(s) + MustHold(s)
    ensures !s.EnsureStockRow? ==> MayLock(s) <= Needs(s, db)
  {}

  lemma {:induction false} DisciplineWeakens(
      held: set<RowKey>, possible: set<RowKey>, held': set<RowKey>, possible': set<RowKey>, todo: seq<Stmt>)
    requires Disciplined(held, possible, todo) && held <= held' && possible' <= possible
    ensures Disciplined(held', possible', todo)
    decreases |todo|
  {
    if todo != [] {
      var more := if todo[0].EnsureStockRow? then {} else MayLock(todo[0]);
      DisciplineWeakens(held + more, possible + MayLock(todo[0]),
                        held' + more, possible' + MayLock(todo[0]), todo[1..]);
    }
  }

  lemma {:induction false} DisciplineAny(
      held: set<RowKey>, possible: set<RowKey>, possible': set<RowKey>, todo: seq<Stmt>)
    requires Disciplined(held, possible, todo) && LocksNothing(todo)
    ensures Disciplined(held, possible', todo)
    decreases |todo|
  {
    if todo != [] {
      assert MayLock(todo[0]) == {};
      DisciplineAny(held + {}, possible + {}, possible' + {}, todo[1..]);
    }
  }

  lemma {:induction false} DisciplineAppend(
      held: set<RowKey>, possible: set<RowKey>, first: seq<Stmt>, rest: seq<Stmt>)
    requires Disciplined(held, possible, first) && Disciplined(held, possible, rest) && LocksNothing(rest)
    ensures Disciplined(held, possible, first + rest)
    decreases |first|
  {
    if first == [] {
      assert first + rest == rest;
    } else {
      var s := first[0];
      var more := if s.EnsureStockRow? then {} else MayLock(s);
      assert (first + rest)[1..] == first[1..] + rest;
      DisciplineWeakens(held, possible, held + more, possible, rest);
      DisciplineAny(held + more, possible, possible + MayLock(s), rest);
      DisciplineAppend(held + more, possible + MayLock(s), first[1..], rest);
    }
  }

  lemma {:induction false} DisciplineLock(held: set<RowKey>, possible: set<RowKey>, s: Stmt, rest: seq<Stmt>)
    requires MustHold(s) <= held && (Depth(s) >= 2 ==> LocksNothing(rest))
    requires forall h, r :: h in possible && r in MayLock(s) ==> h == r || Before(h, r)
    requires Disciplined(held + (if s.EnsureStockRow? then {} else MayLock(s)), possible + MayLock(s), rest)
    ensures Disciplined(held, possible, [s] + rest)
  {
    assert ([s] + rest)[1..] == rest;
  }

  lemma {:induction false} DisciplineFree(held: set<RowKey>, possible: set<RowKey>, s: Stmt, rest: seq<Stmt>)
    requires MustHold(s) <= held && MayLock(s) == {} && Disciplined(held, possible, rest)
    requires Depth(s) < 2
    ensures Disciplined(held, possible, [s] + rest)
  {
    DisciplineWeakens(held, possible, held + MayLock(s), possible + MayLock(s), rest);
    DisciplineLock(held, possible, s, rest);
  }

  // ---- The programs are disciplined ----

  /** Moves in strict product order. */
  predicate MovesRise(moves: seq<Move>) {
    forall i, j :: 0 <= i < j < |moves| ==> moves[i].key.product < moves[j].key.product
  }

  function StockRows(moves: seq<Move>): set<RowKey> {
    set m | m in moves :: StockRow(m.key)
  }

  /** Every one of the moves ranks above the rows locked so far. */
  predicate Above(locks: set<RowKey>, moves: seq<Move>) {
    forall h, i :: h in locks && 0 <= i < |moves| ==> Before(h, StockRow(moves[i].key))
  }

  lemma {:induction false} AboveStep(locks: set<RowKey>, moves: seq<Move>)
    requires moves != [] && MovesRise(moves) && Above(locks, moves)
    ensures MovesRise(moves[1..]) && Above(locks + {StockRow(moves[0].key)}, moves[1..])
  {}

  lemma {:induction false} MovesDisciplined(
      held: set<RowKey>, possible: set<RowKey>, all: set<RowKey>, moves: seq<Move>, rest: seq<Stmt>)
    requires MovesRise(moves) && Above(possible, moves)
    requires possible <= all && forall i :: 0 <= i < |moves| ==> StockRow(moves[i].key) in all
    requires Disciplined(held, all, rest)
    ensures Disciplined(held, possible, MoveStmts(moves) + rest)
    decreases |moves|
  {
    if moves == [] {
      assert MoveStmts(moves) + rest == rest;
      DisciplineWeakens(held, all, held, possible, rest);
    } else {
      var row := {StockRow(moves[0].key)};
      AboveStep(possible, moves);
      DisciplineWeakens(held, all, held + row, all, rest);
      MovesDisciplined(held + row, possible + row, all, moves[1..], rest);
      DisciplineLock(held, possible, MoveStock(moves[0]), MoveStmts(moves[1..]) + rest);
      assert MoveStmts(moves) + rest == [MoveStock(moves[0])] + (MoveStmts(moves[1..]) + rest);
    }
  }

  lemma {:induction false} ReserveRows(order: Id, warehouse: Id, lines: seq<Line>)
    ensures |ReserveMoves(order, warehouse, lines)| == |lines|
    ensures forall i :: 0 <= i < |lines| ==>
      ReserveMoves(order, warehouse, lines)[i].key == StockKey(lines[i].product, warehouse)
  {
    if lines != [] { ReserveRows(order, warehouse, lines[1..]); }
  }

  lemma {:induction false} SettleRowKeys(order: Id, held: seq<Reservation>, effect: TxnType)
    ensures |SettleMoves(order, held, effect)| == |held|
    ensures forall i :: 0 <= i < |held| ==> SettleMoves(order, held, effect)[i].key == held[i].Key()
  {
    if held != [] { SettleRowKeys(order, held[1..], effect); }
  }

  lemma {:induction false} CreateTailOrderly(held: set<RowKey>, possible: set<RowKey>, order: Id, rows: seq<Reservation>, idem: Option<nat>)
    requires OrderRow(order) in held && forall h :: h in possible ==> Kind(h) <= 3
    ensures Disciplined(held, possible, CreateTail(order, rows, idem))
  {
    if idem.Some? {
      DisciplineLock(held, possible, CompleteKey(idem.value), []);
      assert KeyStmts(idem) == [CompleteKey(idem.value)] + [];
    }
    DisciplineFree(held, possible, AppendEvent(Created(order)), KeyStmts(idem));
    DisciplineFree(held, possible, InsertReservations(order, rows), [AppendEvent(Created(order))] + KeyStmts(idem));
  }

  lemma {:induction false} ReserveRise(order: Id, warehouse: Id, lines: seq<Line>)
    requires LinesError(lines).None?
    ensures MovesRise(ReserveMoves(order, warehouse, SortByProduct(lines)))
    ensures Above({OrderRow(order)}, ReserveMoves(order, warehouse, SortByProduct(lines)))
  {
    SortedLines(lines);
    ReserveRows(order, warehouse, SortByProduct(lines));
  }

  lemma {:induction false} CreateOrderly(order: Id, warehouse: Id, lines: seq<Line>, idem: Option<nat>)
    requires LinesError(lines).None?
    ensures Disciplined({}, {}, CreateStmts(order, warehouse, lines, idem))
  {
    var moves := ReserveMoves(order, warehouse, SortByProduct(lines));
    var tail := CreateTail(order, NewReservations(warehouse, SortByProduct(lines)), idem);
    var insert := InsertOrder(order, warehouse);
    var body := MoveStmts(moves) + tail;
    var locked: set<RowKey> := {OrderRow(order)};
    var all := locked + StockRows(moves);
    ReserveRise(order, warehouse, lines);
    CreateTailOrderly(locked, all, order, NewReservations(warehouse, SortByProduct(lines)), idem);
    MovesDisciplined(locked, locked, all, moves, tail);
    DisciplineWeakens(locked, locked, {} + MayLock(insert), {} + MayLock(insert), body);
    DisciplineLock({}, {}, insert, body);
    DisciplineFree({}, {}, Validate(LinesError(lines)), [insert] + body);
    CreateShape(order, warehouse, lines, idem);
  }

  lemma {:induction false} CreateShape(order: Id, warehouse: Id, lines: seq<Line>, idem: Option<nat>)
    ensures CreateStmts(order, warehouse, lines, idem) ==
      [Validate(LinesError(lines))] + ([InsertOrder(order, warehouse)]
        + (MoveStmts(ReserveMoves(order, warehouse, SortByProduct(lines)))
           + CreateTail(order, NewReservations(warehouse, SortByProduct(lines)), idem)))
  {}

  lemma {:induction false} AdjustOrderly(locks: set<RowKey>, key: StockKey, delta: int, id: TxnId, rest: seq<Stmt>)
    requires forall h :: h in locks ==> Kind(h) < 3
    requires LocksNothing(rest) && Disciplined(locks, locks, rest)
    ensures Disciplined(locks, locks, AdjustStmts(key, delta, id) + rest)
  {
    var check := Validate(AmountError(ManualAdjustment, delta));
    var move := MoveStock(Move(ManualAdjustment, key, delta, id, NotEnoughStock));
    var row := {StockRow(key)};
    MoveOrderly(locks, locks + row, move, rest);
    if delta > 0 {
      DisciplineWeakens(locks, locks + row, locks + {}, locks + row, [move] + rest);
      DisciplineLock(locks, locks, EnsureStockRow(key), [move] + rest);
      DisciplineFree(locks, locks, check, [EnsureStockRow(key)] + ([move] + rest));
      assert AdjustStmts(key, delta, id) + rest == [check] + ([EnsureStockRow(key)] + ([move] + rest));
    } else {
      DisciplineWeakens(locks, locks + row, locks, locks, [move] + rest);
      DisciplineFree(locks, locks, check, [move] + rest);
      assert AdjustStmts(key, delta, id) + rest == [check] + ([move] + rest);
    }
  }

  lemma {:induction false} MoveOrderly(held: set<RowKey>, possible: set<RowKey>, s: Stmt, rest: seq<Stmt>)
    requires s.MoveStock? && forall h :: h in possible ==> Kind(h) < 3 || h == StockRow(s.move.key)
    requires LocksNothing(rest) && Disciplined(held, held, rest)
    ensures Disciplined(held, possible, [s] + rest)
  {
    DisciplineWeakens(held, held, held + MayLock(s), held, rest);
    DisciplineAny(held + MayLock(s), held, possible + MayLock(s), rest);
    DisciplineLock(held, possible, s, rest);
  }

  /** Completing the idempotency key, which locks its row, is the last thing an order's transaction does. */
  lemma {:induction false} KeyIsLast(order: Id, warehouse: Id, lines: seq<Line>, idempotencyKey: nat, db: Db)
    ensures var todo := Program(Create(order, warehouse, lines, Some(idempotencyKey)));
      && todo != [] && todo[|todo| - 1] == CompleteKey(idempotencyKey)
      && Needs(todo[|todo| - 1], db) == {KeyRow(idempotencyKey)}
      && forall i :: 0 <= i < |todo| - 1 ==> KeyRow(idempotencyKey) !in Needs(todo[i], db)
  {
    CreateShape(order, warehouse, lines, Some(idempotencyKey));
  }

  lemma {:induction false} CreateReadsNothing(order: Id, warehouse: Id, lines: seq<Line>, idem: Option<nat>)
    ensures ReadsFirst(CreateStmts(order, warehouse, lines, idem), [])
  {}

  lemma {:induction false} ProgramOrderly(r: Request)
    ensures Orderly(Tx(r, 0, Program(r), [], {}))
  {
    match r
    case Create(order, warehouse, lines, idem) =>
      if LinesError(lines).None? {
        CreateOrderly(order, warehouse, lines, idem);
        CreateReadsNothing(order, warehouse, lines, idem);
      }
    case Transition(order, target) => DisciplineLock({}, {}, LockOrder(order, target), []);
      assert Program(r) == [LockOrder(order, target)] + [];
    case Adjust(n, key, delta) =>
      AdjustOrderly({}, key, delta, OfAdjustment(n), []);
      assert Program(r) == AdjustStmts(key, delta, OfAdjustment(n)) + [];
    case Propose(id, key, delta, proposer) =>
      var insert := Program(r)[1];
      DisciplineLock({}, {}, insert, []);
      DisciplineFree({}, {}, Program(r)[0], [insert] + []);
      assert Program(r) == [Program(r)[0]] + ([insert] + []);
    case Decision(id, actor, approve) =>
      DisciplineLock({}, {}, LockProposal(id, actor, approve), []);
      assert Program(r) == [LockProposal(id, actor, approve)] + [];
  }

  // ---- A step keeps a transaction orderly ----

  lemma {:induction false} TransitionOrderly(locks: set<RowKey>, order: Id, from: OrderStatus, target: OrderStatus)
    requires locks == {OrderRow(order)}
    ensures Disciplined(locks, locks, TransitionStmts(order, from, target))
  {
    var last := AppendEvent(Moved(order, from, target));
    var finish := [SetStatus(order, target), last];
    var rows := locks + {ReservationRows(order)};
    DisciplineFree(locks, locks, last, []);
    DisciplineFree(locks, locks, SetStatus(order, target), [last] + []);
    assert finish == [SetStatus(order, target)] + ([last] + []);
    if StockEffect(target).Some? {
      DisciplineWeakens(locks, locks, rows, locks, finish);
      DisciplineAny(rows, locks, rows, finish);
      DisciplineLock(locks, locks, LockHeld(order, target), finish);
      assert TransitionStmts(order, from, target) == [LockHeld(order, target)] + finish;
    } else {
      assert TransitionStmts(order, from, target) == finish;
    }
  }

  lemma {:induction false} SettleOrderly(locks: set<RowKey>, order: Id, held: seq<Reservation>, effect: TxnType)
    requires ByProduct(held) && OrderRow(order) in locks && ReservationRows(order) in locks
    requires forall h :: h in locks ==> Kind(h) < 3
    ensures Disciplined(locks, locks, SettleStmts(order, held, effect))
  {
    var moves := SettleMoves(order, held, effect);
    var settle := Settle(order, Products(held), SettledStatus(effect));
    SettleRowKeys(order, held, effect);
    DisciplineFree(locks, locks + StockRows(moves), settle, []);
    MovesDisciplined(locks, locks, locks + StockRows(moves), moves, [settle] + []);
    assert SettleStmts(order, held, effect) == MoveStmts(moves) + ([settle] + []);
  }

  /** The locking read puts an order's reservations in product order, in whatever order they are stored. */
  lemma {:induction false} HeldRise(db: Db, order: Id)
    requires Sound(db) && order in db.reservations
    ensures ByProduct(HeldRows(db.reservations[order]))
  {
    assert Follows(db.orders[order], db.reservations[order]);
    OnlyHeldOnePerProduct(db.reservations[order]);
    SortedRows(OnlyHeld(db.reservations[order]));
  }

  lemma {:induction false} OnlyHeldIn(rows: seq<Reservation>)
    ensures forall r :: r in OnlyHeld(rows) ==> r in rows
  {
    if rows != [] {
      OnlyHeldIn(rows[1..]);
      assert rows == [rows[0]] + rows[1..];
    }
  }

  lemma {:induction false} OnePerProductCons(r: Reservation, rows: seq<Reservation>)
    requires OnePerProduct(rows) && forall x :: x in rows ==> x.product != r.product
    ensures OnePerProduct([r] + rows)
  {
    forall i, j | 0 <= i < j < |[r] + rows| ensures ([r] + rows)[i].product != ([r] + rows)[j].product {
      assert rows[j - 1] in rows;
    }
  }

  lemma {:induction false} OnlyHeldOnePerProduct(rows: seq<Reservation>)
    requires OnePerProduct(rows)
    ensures OnePerProduct(OnlyHeld(rows))
    decreases |rows|
  {
    if rows != [] {
      var rest := rows[1..];
      OnlyHeldOnePerProduct(rest);
      OnlyHeldIn(rest);
      assert forall r :: r in rest ==> rows[0].product != r.product;
      OnePerProductCons(rows[0], OnlyHeld(rest));
      assert [] + OnlyHeld(rest) == OnlyHeld(rest);
    }
  }

  /** An order is locked first, so nothing ranks above what its transaction holds. */
  lemma {:induction false} LockOrderAlone(locks: set<RowKey>, o: Id, target: OrderStatus, rest: seq<Stmt>)
    requires Disciplined(locks, locks, [LockOrder(o, target)] + rest)
    ensures locks + {OrderRow(o)} == {OrderRow(o)}
  {
    assert OrderRow(o) in MayLock(LockOrder(o, target));
    forall h | h in locks ensures h == OrderRow(o) {
      assert h == OrderRow(o) || Before(h, OrderRow(o));
    }
  }

  lemma {:induction false} HeldDisciplined(db: Db, locks: set<RowKey>, o: Id, effect: TxnType)
    requires Sound(db) && o in db.reservations && OrderRow(o) in locks && ReservationRows(o) in locks
    requires forall h :: h in locks ==> Kind(h) < 3
    ensures Disciplined(locks, locks, SettleStmts(o, HeldRows(db.reservations[o]), effect))
  {
    HeldRise(db, o);
    SettleOrderly(locks, o, HeldRows(db.reservations[o]), effect);
  }

  /** When the held reservations are locked the order is too, and nothing that ranks above them. */
  lemma {:induction false} HeldLocks(locks: set<RowKey>, o: Id, target: OrderStatus, rest: seq<Stmt>)
    requires Disciplined(locks, locks, [LockHeld(o, target)] + rest)
    ensures var all := locks + {OrderRow(o), ReservationRows(o)}; forall h :: h in all ==> Kind(h) < 3
  {
    assert ReservationRows(o) in MayLock(LockHeld(o, target));
  }

  lemma {:induction false} HeldStmtsOrderly(db: Db, locks: set<RowKey>, o: Id, target: OrderStatus, rest: seq<Stmt>)
    requires Sound(db) && Disciplined(locks, locks, [LockHeld(o, target)] + rest)
    ensures var all := locks + Needs(LockHeld(o, target), db);
      Disciplined(all, all, Exec(LockHeld(o, target), db).value.next)
  {
    HeldLocks(locks, o, target, rest);
    if o in db.reservations && StockEffect(target).Some? {
      HeldDisciplined(db, locks + {OrderRow(o), ReservationRows(o)}, o, StockEffect(target).value);
    }
  }

  lemma {:induction false} ProposalStmtsOrderly(db: Db, locks: set<RowKey>, p: Id, actor: Id, approve: bool, rest: seq<Stmt>)
    requires Disciplined(locks, locks, [LockProposal(p, actor, approve)] + rest)
    requires Exec(LockProposal(p, actor, approve), db).Ok?
    ensures var all := locks + Needs(LockProposal(p, actor, approve), db);
      Disciplined(all, all, Exec(LockProposal(p, actor, approve), db).value.next)
  {
    var all := locks + Needs(LockProposal(p, actor, approve), db);
    assert ProposalRow(p) in MayLock(LockProposal(p, actor, approve));
    var decide := if approve then Decide(p, Approved, actor, Some(OfProposal(p))) else Decide(p, Rejected, actor, None);
    DisciplineFree(all, all, decide, []);
    assert [decide] + [] == [decide];
    if approve {
      AdjustOrderly(all, db.proposals[p].Key(), db.proposals[p].delta, OfProposal(p), [decide]);
    }
  }

  /** What the next statement makes necessary is in order too. */
  lemma {:induction false} NextOrderly(db: Db, tx: Tx)
    requires Sound(db) && Orderly(tx) && !Doomed(tx.todo) && tx.todo != []
    requires Exec(tx.todo[0], ApplyAll(db, tx.writes)).Ok?
    ensures var view := ApplyAll(db, tx.writes);
      var locks := tx.locks + Needs(tx.todo[0], view);
      Disciplined(locks, locks, Exec(tx.todo[0], view).value.next)
  {
    var s := tx.todo[0];
    var view := ApplyAll(db, tx.writes);
    assert tx.todo == [s] + tx.todo[1..];
    match s
    case LockOrder(o, target) =>
      LockOrderAlone(tx.locks, o, target, tx.todo[1..]);
      if Exec(s, view).value.next != [] {
        TransitionOrderly(tx.locks + {OrderRow(o)}, o, view.orders[o].status, target);
      }
    case LockHeld(o, target) => HeldStmtsOrderly(db, tx.locks, o, target, tx.todo[1..]);
    case LockProposal(p, actor, approve) => ProposalStmtsOrderly(view, tx.locks, p, actor, approve, tx.todo[1..]);
    case _ =>
  }

  /** Only the first of the statements a statement makes necessary may be a locking read, and then nothing was written. */
  lemma {:induction false} NextReads(s: Stmt, db: Db)
    requires Exec(s, db).Ok?
    ensures var effect := Exec(s, db).value;
      && (forall i :: 0 < i < |effect.next| ==> !effect.next[i].LockHeld? && !effect.next[i].LockOrder?)
      && (effect.next != [] && (effect.next[0].LockHeld? || effect.next[0].LockOrder?) ==> s.LockOrder? && effect.writes == [])
  {}

  lemma {:induction false} ReadsFirstJoin(s: Stmt, rest: seq<Stmt>, next: seq<Stmt>, writes: seq<Write>, more: seq<Write>)
    requires ReadsFirst([s] + rest, writes)
    requires forall i :: 0 < i < |next| ==> !next[i].LockHeld? && !next[i].LockOrder?
    requires next != [] && (next[0].LockHeld? || next[0].LockOrder?) ==> s.LockOrder? && more == []
    ensures ReadsFirst(next + rest, writes + more)
  {
    assert ([s] + rest)[0] == s;
    forall i | 0 <= i < |rest| ensures !rest[i].LockHeld? && !rest[i].LockOrder? {
      assert rest[i] == ([s] + rest)[i + 1];
    }
  }

  lemma {:induction false} StepReadsFirst(s: Stmt, rest: seq<Stmt>, db: Db, writes: seq<Write>)
    requires ReadsFirst([s] + rest, writes) && Exec(s, db).Ok?
    ensures var effect := Exec(s, db).value; ReadsFirst(effect.next + rest, writes + effect.writes)
  {
    NextReads(s, db);
    ReadsFirstJoin(s, rest, Exec(s, db).value.next, writes, Exec(s, db).value.writes);
  }

  lemma {:induction false} StepDisciplined(s: Stmt, rest: seq<Stmt>, db: Db, locks: set<RowKey>)
    requires Disciplined(locks, locks, [s] + rest) && Exec(s, db).Ok?
    requires var all := locks + Needs(s, db); Disciplined(all, all, Exec(s, db).value.next)
    ensures var all := locks + Needs(s, db); Disciplined(all, all, Exec(s, db).value.next + rest)
  {
    var next := Exec(s, db).value.next;
    var all := locks + Needs(s, db);
    NeedsSplit(s, db);
    assert ([s] + rest)[1..] == rest;
    DisciplineWeakens(locks + (if s.EnsureStockRow? then {} else MayLock(s)), locks + MayLock(s), all, all, rest);
    if next == [] {
      assert next + rest == rest;
    } else if Depth(s) >= 2 {
      DisciplineAppend(all, all, next, rest);
    } else {
      assert next == [next[0]];
      DisciplineFree(all, all, next[0], rest);
    }
  }

  lemma {:induction false} StepOrderly(db: Db, tx: Tx)
    requires Sound(db) && Orderly(tx) && tx.todo != []
    requires Exec(tx.todo[0], ApplyAll(db, tx.writes)).Ok?
    ensures var view := ApplyAll(db, tx.writes);
      Orderly(Advance(tx, Exec(tx.todo[0], view).value, Needs(tx.todo[0], view)))
  {
    var s, rest := tx.todo[0], tx.todo[1..];
    var view := ApplyAll(db, tx.writes);
    assert tx.todo == [s] + rest;
    NextOrderly(db, tx);
    StepDisciplined(s, rest, view, tx.locks);
    StepReadsFirst(s, rest, view, tx.writes);
  }

  // ---- Runs ----

  ghost predicate AllOrderly(s: State) {
    forall t :: t in s.active ==> Orderly(s.active[t])
  }

  lemma {:induction false} CommitSound(db0: Db, s: State, t: nat)
    requires Invariant(db0, s) && Sound(s.db) && t in s.active && s.active[t].todo == []
    ensures Sound(View(s, t))
  {
    var tx := s.active[t];
    assert Undisturbed(tx, s.db);
    ReplayRuns(tx.request, tx.pc, s.db);
    RequestKeeps(tx.request, s.db);
  }

  lemma {:induction false} NextStateOrderly(db0: Db, s: State, l: Label)
    requires Invariant(db0, s) && Sound(s.db) && AllOrderly(s) && Next(s, l).Some?
    ensures AllOrderly(Next(s, l).value) && Sound(Next(s, l).value.db)
  {
    match l
    case Begin(t, r) => ProgramOrderly(r);
    case Step(t) => StepOrderly(s.db, s.active[t]);
    case Throw(t) =>
    case Commit(t) => CommitSound(db0, s, t);
    case Abort(t) =>
  }

  lemma {:induction false} StepsOrderly(db0: Db, s: State, ls: seq<Label>)
    requires Invariant(db0, s) && Sound(s.db) && AllOrderly(s) && Steps(s, ls).Some?
    ensures AllOrderly(Steps(s, ls).value)
    decreases |ls|
  {
    if ls != [] {
      NextKeeps(db0, s, ls[0]);
      NextStateOrderly(db0, s, ls[0]);
      StepsOrderly(db0, Next(s, ls[0]).value, ls[1..]);
    }
  }

  /** A row waited for ranks above every row the waiting transaction holds. */
  lemma {:induction false} WaitsUpwards(s: State, t: nat, u: nat) returns (row: RowKey)
    requires Consistent(s) && AllOrderly(s) && Waits(s, t, u)
    ensures row in s.active[u].locks
    ensures forall h :: h in s.active[t].locks ==> Before(h, row)
  {
    var tx := s.active[t];
    row :| row in Needs(tx.todo[0], View(s, t)) && row in s.active[u].locks;
    NeedsSplit(tx.todo[0], View(s, t));
    assert row !in tx.locks;
    assert row in MayLock(tx.todo[0]);
  }

  /** Each transaction of the path waits for the next one. */
  predicate WaitPath(s: State, path: seq<nat>) {
    path != [] && forall i :: 0 <= i < |path| - 1 ==> Waits(s, path[i], path[i + 1])
  }

  lemma {:induction false} PathClimbs(s: State, path: seq<nat>, row: RowKey) returns (top: RowKey)
    requires Consistent(s) && AllOrderly(s) && WaitPath(s, path)
    requires path[0] in s.active && row in s.active[path[0]].locks
    ensures path[|path| - 1] in s.active && top in s.active[path[|path| - 1]].locks
    ensures top == row || Before(row, top)
    decreases |path|
  {
    if |path| == 1 {
      top := row;
    } else {
      var next := WaitsUpwards(s, path[0], path[1]);
      forall i | 0 <= i < |path[1..]| - 1 ensures Waits(s, path[1..][i], path[1..][i + 1]) {
        assert Waits(s, path[i + 1], path[i + 2]);
      }
      top := PathClimbs(s, path[1..], next);
    }
  }

  /** The wait-for graph of any reachable state, over any transactions, has no cycle. */
  lemma {:induction false} NoDeadlock(db: Db, ls: seq<Label>, path: seq<nat>)
    requires Sound(db) && Steps(Start(db), ls).Some?
    requires WaitPath(Steps(Start(db), ls).value, path)
    ensures !Waits(Steps(Start(db), ls).value, path[|path| - 1], path[0])
  {
    var s := Steps(Start(db), ls).value;
    StepsKeep(db, Start(db), ls);
    StepsOrderly(db, Start(db), ls);
    if Waits(s, path[|path| - 1], path[0]) {
      var row := WaitsUpwards(s, path[|path| - 1], path[0]);
      var top := PathClimbs(s, path, row);
      assert false;
    }
  }

  /** `t` has nothing left to do but commit, or waits for nobody. */
  predicate Free(s: State, t: nat) {
    t in s.active && (s.active[t].todo == [] || forall u :: u in s.active ==> !Waits(s, t, u))
  }

  predicate Distinct(path: seq<nat>) {
    forall i, j :: 0 <= i < j < |path| ==> path[i] != path[j]
  }

  lemma {:induction false} DistinctSize(path: seq<nat>, all: set<nat>)
    requires Distinct(path) && forall t :: t in path ==> t in all
    ensures |path| <= |all|
  {
    if path != [] {
      var last := path[|path| - 1];
      assert last in path;
      DistinctSize(path[..|path| - 1], all - {last});
    }
  }

  lemma {:induction false} PathTail(s: State, path: seq<nat>, i: nat)
    requires WaitPath(s, path) && i < |path|
    ensures WaitPath(s, path[i..])
  {
    forall j | 0 <= j < |path[i..]| - 1 ensures Waits(s, path[i..][j], path[i..][j + 1]) {
      assert Waits(s, path[i + j], path[i + j + 1]);
    }
  }

  /** Following a wait path to its end never comes back to it, so the path grows until somebody is free. */
  lemma {:induction false} PathEndsFree(db: Db, ls: seq<Label>, path: seq<nat>)
    requires Sound(db) && Steps(Start(db), ls).Some?
    requires var s := Steps(Start(db), ls).value;
      WaitPath(s, path) && Distinct(path) && forall t :: t in path ==> t in s.active
    ensures var s := Steps(Start(db), ls).value; exists t :: t in s.active && Free(s, t)
    decreases |Steps(Start(db), ls).value.active| - |path|
  {
    var s := Steps(Start(db), ls).value;
    var last := path[|path| - 1];
    assert last in path;
    DistinctSize(path, s.active.Keys);
    assert |s.active.Keys| == |s.active|;
    if !Free(s, last) {
      var u :| u in s.active && Waits(s, last, u);
      forall i | 0 <= i < |path| ensures path[i] != u {
        PathTail(s, path, i);
        NoDeadlock(db, ls, path[i..]);
      }
      Extended(s, path, u);
      DistinctSize(path + [u], s.active.Keys);
      PathEndsFree(db, ls, path + [u]);
    }
  }

  lemma {:induction false} Extended(s: State, path: seq<nat>, u: nat)
    requires WaitPath(s, path) && Distinct(path) && Waits(s, path[|path| - 1], u)
    requires forall i :: 0 <= i < |path| ==> path[i] != u
    ensures WaitPath(s, path + [u]) && Distinct(path + [u])
  {
    var longer := path + [u];
    forall i | 0 <= i < |longer| - 1 ensures Waits(s, longer[i], longer[i + 1]) {
      if i < |path| - 1 { assert Waits(s, path[i], path[i + 1]); }
    }
  }

  /** In every reachable state with a transaction under way, one of them can go on. */
  lemma {:induction false} SomeoneIsFree(db: Db, ls: seq<Label>)
    requires Sound(db) && Steps(Start(db), ls).Some? && Steps(Start(db), ls).value.active != map[]
    ensures var s := Steps(Start(db), ls).value; exists t :: t in s.active && Free(s, t)
  {
    var s := Steps(Start(db), ls).value;
    var t :| t in s.active;
    PathEndsFree(db, ls, [t]);
  }
}
