/**
 Every request keeps the books: a sum that settling an order's reservations one by one
 breaks in between is whole again when the transaction ends.
 */
module BooksKept {
  import opened Wrappers
  import opened Tables
  import opened Transactions
  import opened Cart
  import opened Sequences
  import opened Movements
  import opened Books

  // ---- The ledger through one movement and through many ----

  lemma {:induction false} TallyAppend(ledger: seq<Entry>, e: Entry, key: StockKey)
    ensures e.key != key ==> TallyOf(ledger + [e], key) == TallyOf(ledger, key)
    ensures e.key == key ==>
      var t, t' := TallyOf(ledger, key), TallyOf(ledger + [e], key);
      && t'.last == e.after && t'.count == t.count + 1
      && t'.adjusted == t.adjusted
           + (if e.kind == ManualAdjustment then e.after.available - e.before.available else 0)
      && t'.consumed == t.consumed + (if e.kind == Consume then e.quantity else 0)
  {
    assert (ledger + [e])[..|ledger|] == ledger;
  }

  lemma {:induction false} ChainedAppend(ledger: seq<Entry>, e: Entry)
    requires Chained(ledger) && Describes(e) && e.before == TallyOf(ledger, e.key).last
    ensures Chained(ledger + [e])
  {
    forall i | 0 <= i < |ledger + [e]|
      ensures var all := ledger + [e]; all[i].before == TallyOf(all[..i], all[i].key).last && Describes(all[i])
    {
      assert (ledger + [e])[..i] == if i < |ledger| then ledger[..i] else ledger;
    }
  }

  lemma {:induction false} MoveOneLedger(s: Ledgered, m: Move)
    requires LedgerBooks(s) && MoveOne(s, m).Ok?
    ensures LedgerBooks(MoveOne(s, m).value)
  {
    var s' := MoveOne(s, m).value;
    var e := EntryOf(m, s.stock[m.key], s'.stock[m.key]);
    assert Explains(LevelAt(s.stock, m.key), TallyOf(s.ledger, m.key));
    ChainedAppend(s.ledger, e);
    forall k ensures Explains(LevelAt(s'.stock, k), TallyOf(s'.ledger, k)) {
      assert Explains(LevelAt(s.stock, k), TallyOf(s.ledger, k));
      TallyAppend(s.ledger, e, k);
    }
  }

  lemma {:induction false} MoveAllLedger(s: Ledgered, moves: seq<Move>)
    requires LedgerBooks(s) && MoveAll(s, moves).Ok?
    ensures LedgerBooks(MoveAll(s, moves).value)
    decreases |moves|
  {
    if moves != [] {
      MoveOneLedger(s, moves[0]);
      MoveAllLedger(MoveOne(s, moves[0]).value, moves[1..]);
    }
  }

  // ---- Reserved stock through many movements ----

  function ReservedDelta(moves: seq<Move>, key: StockKey): int {
    if moves == [] then 0
    else
      var m := moves[0];
      (if m.key != key || m.kind == ManualAdjustment then 0 else if m.kind == Reserve then m.amount else -m.amount)
      + ReservedDelta(moves[1..], key)
  }

  lemma {:induction false} MoveAllReserved(s: Ledgered, moves: seq<Move>, key: StockKey)
    requires MoveAll(s, moves).Ok?
    ensures LevelAt(MoveAll(s, moves).value.stock, key).reserved
         == LevelAt(s.stock, key).reserved + ReservedDelta(moves, key)
    decreases |moves|
  {
    if moves != [] {
      MoveAllReserved(MoveOne(s, moves[0]).value, moves[1..], key);
    }
  }

  lemma {:induction false} ReserveDelta(order: Id, warehouse: Id, lines: seq<Line>, key: StockKey)
    ensures ReservedDelta(ReserveMoves(order, warehouse, lines), key) == HeldQty(NewReservations(warehouse, lines), key)
  {
    if lines != [] {
      ReserveDelta(order, warehouse, lines[1..], key);
      assert NewReservations(warehouse, lines)[1..] == NewReservations(warehouse, lines[1..]);
    }
  }

  predicate AllHeld(rows: seq<Reservation>) {
    forall r :: r in rows ==> r.status == Held
  }

  lemma {:induction false} SettleDelta(order: Id, held: seq<Reservation>, effect: TxnType, key: StockKey)
    requires AllHeld(held) && effect in {Release, Consume}
    ensures ReservedDelta(SettleMoves(order, held, effect), key) == -HeldQty(held, key)
  {
    if held != [] { SettleDelta(order, held[1..], effect, key); }
  }

  /** As long as the row covers what is held, no release or consume of a loop over it finds too little. */
  lemma {:induction false} SettleSucceeds(s: Ledgered, order: Id, held: seq<Reservation>, effect: TxnType)
    requires AllHeld(held) && effect in {Release, Consume}
    requires forall r :: r in held ==> r.qty >= 1
    requires forall k :: HeldQty(held, k) <= LevelAt(s.stock, k).reserved
    ensures MoveAll(s, SettleMoves(order, held, effect)).Ok?
    decreases |held|
  {
    if held != [] {
      var m := SettleMoves(order, held, effect)[0];
      assert HeldQty(held, m.key) <= LevelAt(s.stock, m.key).reserved;
      HeldQtyNonNegative(held[1..], m.key);
      var s' := MoveOne(s, m).value;
      forall k ensures HeldQty(held[1..], k) <= LevelAt(s'.stock, k).reserved {
        assert HeldQty(held, k) <= LevelAt(s.stock, k).reserved;
      }
      SettleSucceeds(s', order, held[1..], effect);
    }
  }

  // ---- Which ledger rows a list of movements adds ----

  function MovesFor(moves: seq<Move>, id: TxnId): seq<Move> {
    if moves == [] then [] else (if moves[0].id == id then [moves[0]] else []) + MovesFor(moves[1..], id)
  }

  lemma {:induction false} CausedAppend(ledger: seq<Entry>, e: Entry, id: TxnId)
    ensures Caused(ledger + [e], id) == Caused(ledger, id) + (if e.id == id then [e] else [])
  {
    assert (ledger + [e])[..|ledger|] == ledger;
  }

  lemma {:induction false} MoveAllCausedNone(s: Ledgered, moves: seq<Move>, id: TxnId)
    requires MoveAll(s, moves).Ok? && MovesFor(moves, id) == []
    ensures Caused(MoveAll(s, moves).value.ledger, id) == Caused(s.ledger, id)
    decreases |moves|
  {
    if moves != [] {
      var s' := MoveOne(s, moves[0]).value;
      CausedAppend(s.ledger, s'.ledger[|s.ledger|], id);
      MoveAllCausedNone(s', moves[1..], id);
    }
  }

  lemma {:induction false} MoveAllCausedOne(s: Ledgered, moves: seq<Move>, id: TxnId, m: Move)
    requires MoveAll(s, moves).Ok? && MovesFor(moves, id) == [m] && Caused(s.ledger, id) == []
    ensures OneRow(Caused(MoveAll(s, moves).value.ledger, id), m.kind, m.key, Abs(m.amount))
    decreases |moves|
  {
    var s' := MoveOne(s, moves[0]).value;
    CausedAppend(s.ledger, s'.ledger[|s.ledger|], id);
    if moves[0].id == id {
      assert MovesFor(moves, id)[0] == moves[0] && MovesFor(moves, id)[1..] == MovesFor(moves[1..], id);
      MoveAllCausedNone(s', moves[1..], id);
    } else {
      MoveAllCausedOne(s', moves[1..], id, m);
    }
  }

  lemma {:induction false} SettleMovesFor(order: Id, held: seq<Reservation>, effect: TxnType, id: TxnId)
    requires ByProduct(held)
    ensures forall r :: r in held && id == OfReservation(order, r.product, effect) ==>
      MovesFor(SettleMoves(order, held, effect), id) == [Move(effect, r.Key(), r.qty, id, BooksBroken)]
    ensures (forall r :: r in held ==> id != OfReservation(order, r.product, effect)) ==>
      MovesFor(SettleMoves(order, held, effect), id) == []
    decreases |held|
  {
    if held != [] {
      SettleMovesFor(order, held[1..], effect, id);
    }
  }

  predicate LinesByProduct(lines: seq<Line>) {
    forall i, j :: 0 <= i < j < |lines| ==> lines[i].product < lines[j].product
  }

  lemma {:induction false} ReserveMovesFor(order: Id, warehouse: Id, lines: seq<Line>, id: TxnId)
    requires LinesByProduct(lines)
    ensures forall l :: l in lines && id == OfReservation(order, l.product, Reserve) ==>
      MovesFor(ReserveMoves(order, warehouse, lines), id) ==
        [Move(Reserve, StockKey(l.product, warehouse), l.qty, id, InsufficientStock(l.product, l.qty))]
    ensures (forall l :: l in lines ==> id != OfReservation(order, l.product, Reserve)) ==>
      MovesFor(ReserveMoves(order, warehouse, lines), id) == []
    decreases |lines|
  {
    if lines != [] {
      ReserveMovesFor(order, warehouse, lines[1..], id);
    }
  }

  // ---- Sorting the lines ----

  /** Sorting by product keeps the lines and, when no product repeats, puts them in strict order. */
  lemma {:induction false} SortSorts(lines: seq<Line>)
    requires !RepeatsProduct(lines)
    ensures LinesByProduct(SortByProduct(lines))
    ensures multiset(SortByProduct(lines)) == multiset(lines)
  {
    SortPermutes(lines, LineBefore);
    assert StrictWeak(LineBefore) && NoTies(lines, LineBefore);
    SortStrict(lines, LineBefore);
    var sorted := SortByProduct(lines);
    forall i, j | 0 <= i < j < |sorted| ensures sorted[i].product < sorted[j].product {
      assert LineBefore(sorted[i], sorted[j]);
    }
  }

  lemma {:induction false} SortedLines(lines: seq<Line>)
    requires LinesError(lines).None?
    ensures LinesByProduct(SortByProduct(lines)) && SortByProduct(lines) != []
    ensures forall l :: l in SortByProduct(lines) ==> l.qty >= 1
  {
    SortSorts(lines);
    SameElements(SortByProduct(lines), lines);
  }

  // ---- Events ----

  lemma {:induction false} EventsAppend(outbox: seq<Event>, ev: Event, order: Id)
    ensures EventsOf(outbox + [ev], order) == EventsOf(outbox, order) + (if ev.order == order then [ev] else [])
  {
    assert (outbox + [ev])[..|outbox|] == outbox;
  }

  lemma {:induction false} SpelledAppend(events: seq<Event>, ev: Event)
    ensures Spelled(events + [ev]) ==
      if ev.Created? then (if events == [] then Some(Reserved) else None)
      else if Spelled(events) == Some(ev.from) && CanTransition(ev.from, ev.to) then Some(ev.to) else None
  {
    assert (events + [ev])[..|events|] == events;
  }

  /** One event, and the status change it records. */
  predicate Records(orders: map<Id, Order>, ev: Event, order: Order) {
    match ev
    case Created(id) => id !in orders && order.status == Reserved
    case Moved(id, from, to) =>
      id in orders && from == orders[id].status && to == order.status && CanTransition(from, to)
  }

  lemma {:induction false} EventKept(orders: map<Id, Order>, outbox: seq<Event>, order: Order, ev: Event)
    requires EventBooks(orders, outbox) && Records(orders, ev, order)
    ensures EventBooks(orders[ev.order := order], outbox + [ev])
  {
    SpelledAppend(EventsOf(outbox, ev.order), ev);
    forall o ensures o != ev.order ==> EventsOf(outbox + [ev], o) == EventsOf(outbox, o) {
      EventsAppend(outbox, ev, o);
    }
    EventsAppend(outbox, ev, ev.order);
    var spelled := Spelled(EventsOf(outbox + [ev], ev.order));
    assert spelled == Some(order.status);
  }

  // ---- Creating an order ----

  lemma {:induction false} CreateFollows(warehouse: Id, lines: seq<Line>)
    requires LinesError(lines).None?
    ensures Follows(Order(warehouse, Reserved), NewReservations(warehouse, SortByProduct(lines)))
  {
    SortedLines(lines);
  }

  lemma {:induction false} TracedKept(ledger: seq<Entry>, ledger': seq<Entry>, order: Id, r: Reservation)
    requires Traced(ledger, order, r)
    requires forall kind :: Caused(ledger', OfReservation(order, r.product, kind)) ==
                            Caused(ledger, OfReservation(order, r.product, kind))
    ensures Traced(ledger', order, r)
  {}

  /** Movements made for one order leave the rows of every other order traced as they were. */
  lemma {:induction false} OthersTraced(db: Db, moves: seq<Move>, order: Id, kind: TxnType)
    requires Sound(db) && MoveAll(LedgeredOf(db), moves).Ok?
    requires forall m :: m in moves ==> exists p :: m.id == OfReservation(order, p, kind)
    ensures var ledger := MoveAll(LedgeredOf(db), moves).value.ledger;
      && (forall o, p, k :: o != order || k != kind ==>
            Caused(ledger, OfReservation(o, p, k)) == Caused(db.ledger, OfReservation(o, p, k)))
      && (forall p :: Caused(ledger, OfProposal(p)) == Caused(db.ledger, OfProposal(p)))
      && (forall o, r :: o != order && o in db.reservations && r in db.reservations[o] ==> Traced(ledger, o, r))
  {
    var ledger := MoveAll(LedgeredOf(db), moves).value.ledger;
    forall id: TxnId | forall p :: id != OfReservation(order, p, kind)
      ensures Caused(ledger, id) == Caused(db.ledger, id)
    {
      NoMovesFor(moves, id);
      MoveAllCausedNone(LedgeredOf(db), moves, id);
    }
    forall o, r | o != order && o in db.reservations && r in db.reservations[o] ensures Traced(ledger, o, r) {
      TracedKept(db.ledger, ledger, o, r);
    }
  }

  lemma {:induction false} NoMovesFor(moves: seq<Move>, id: TxnId)
    requires forall m :: m in moves ==> m.id != id
    ensures MovesFor(moves, id) == []
  {
    if moves != [] { NoMovesFor(moves[1..], id); }
  }

  lemma {:induction false} ReserveMoveIds(order: Id, warehouse: Id, lines: seq<Line>)
    ensures forall m :: m in ReserveMoves(order, warehouse, lines) ==>
      exists p :: m.id == OfReservation(order, p, Reserve)
  {
    if lines != [] { ReserveMoveIds(order, warehouse, lines[1..]); }
  }

  lemma {:induction false} SettleMoveIds(order: Id, held: seq<Reservation>, effect: TxnType)
    ensures forall m :: m in SettleMoves(order, held, effect) ==>
      exists p :: m.id == OfReservation(order, p, effect)
  {
    if held != [] { SettleMoveIds(order, held[1..], effect); }
  }

  lemma {:induction false} CreateTraced(db: Db, order: Id, warehouse: Id, lines: seq<Line>, r: Reservation)
    requires Sound(db) && CreateResult(db, order, warehouse, lines).Ok?
    requires r in NewReservations(warehouse, SortByProduct(lines))
    ensures Traced(CreateResult(db, order, warehouse, lines).value.ledger, order, r)
  {
    var sorted := SortByProduct(lines);
    var moves := ReserveMoves(order, warehouse, sorted);
    var id := OfReservation(order, r.product, Reserve);
    SortedLines(lines);
    ReserveMoveIds(order, warehouse, sorted);
    OthersTraced(db, moves, order, Reserve);
    ReserveMovesFor(order, warehouse, sorted, id);
    var i :| 0 <= i < |sorted| && r == NewReservations(warehouse, sorted)[i];
    assert sorted[i] in sorted;
    MoveAllCausedOne(LedgeredOf(db), moves, id, MovesFor(moves, id)[0]);
  }

  lemma {:induction false} OrderPut(db: Db, id: Id, order: Order, rows: seq<Reservation>)
    requires OrderBooks(db.orders, db.reservations) && Follows(order, rows)
    requires order.status in {Reserved, Paid, Fulfilled, Cancelled, Expired}
    ensures OrderBooks(db.orders[id := order], db.reservations[id := rows])
  {}

  lemma {:induction false} ReservationPut(db: Db, ledger: seq<Entry>, id: Id, rows: seq<Reservation>, kind: TxnType)
    requires ReservationBooks(db.reservations, db.ledger)
    requires forall o, p, k :: o != id || k != kind ==>
      Caused(ledger, OfReservation(o, p, k)) == Caused(db.ledger, OfReservation(o, p, k))
    requires forall o, r :: o != id && o in db.reservations && r in db.reservations[o] ==> Traced(ledger, o, r)
    requires forall r :: r in rows ==> Traced(ledger, id, r)
    ensures ReservationBooks(db.reservations[id := rows], ledger)
  {}

  lemma {:induction false} CreateStockBooks(db: Db, order: Id, warehouse: Id, lines: seq<Line>)
    requires Sound(db) && CreateResult(db, order, warehouse, lines).Ok?
    ensures var db' := CreateResult(db, order, warehouse, lines).value; StockBooks(db'.stock, db'.reservations)
  {
    var db' := CreateResult(db, order, warehouse, lines).value;
    var sorted := SortByProduct(lines);
    forall k ensures LevelAt(db'.stock, k).reserved == HeldSum(db'.reservations, k) {
      MoveAllReserved(LedgeredOf(db), ReserveMoves(order, warehouse, sorted), k);
      ReserveDelta(order, warehouse, sorted, k);
      HeldSumPut(db.reservations, order, NewReservations(warehouse, sorted), k);
      assert LevelAt(db.stock, k).reserved == HeldSum(db.reservations, k);
    }
  }

  lemma {:induction false} CreateKeeps(db: Db, order: Id, warehouse: Id, lines: seq<Line>)
    requires Sound(db) && CreateResult(db, order, warehouse, lines).Ok?
    ensures Sound(CreateResult(db, order, warehouse, lines).value)
  {
    var db' := CreateResult(db, order, warehouse, lines).value;
    var sorted := SortByProduct(lines);
    var rows := NewReservations(warehouse, sorted);
    var moves := ReserveMoves(order, warehouse, sorted);
    MoveAllLedger(LedgeredOf(db), moves);
    assert LedgeredOf(db') == MoveAll(LedgeredOf(db), moves).value;
    CreateStockBooks(db, order, warehouse, lines);
    CreateFollows(warehouse, lines);
    OrderPut(db, order, Order(warehouse, Reserved), rows);
    ReserveMoveIds(order, warehouse, sorted);
    OthersTraced(db, moves, order, Reserve);
    forall r | r in rows ensures Traced(db'.ledger, order, r) {
      CreateTraced(db, order, warehouse, lines, r);
    }
    ReservationPut(db, db'.ledger, order, rows, Reserve);
    EventKept(db.orders, db.outbox, Order(warehouse, Reserved), Created(order));
  }

  // ---- Moving an order ----

  lemma {:induction false} OnlyHeldAll(rows: seq<Reservation>)
    requires AllHeld(rows)
    ensures OnlyHeld(rows) == rows
  {
    if rows != [] {
      OnlyHeldAll(rows[1..]);
      assert rows == [rows[0]] + rows[1..];
    }
  }

  /** Rows of different products are read in strict product order, however they are stored. */
  lemma {:induction false} SortedRows(rows: seq<Reservation>)
    requires OnePerProduct(rows)
    ensures multiset(StableSort(rows, RowBefore)) == multiset(rows) && ByProduct(StableSort(rows, RowBefore))
  {
    SortPermutes(rows, RowBefore);
    assert StrictWeak(RowBefore) && NoTies(rows, RowBefore);
    SortStrict(rows, RowBefore);
    var sorted := StableSort(rows, RowBefore);
    forall i, j | 0 <= i < j < |sorted| ensures sorted[i].product < sorted[j].product {
      assert RowBefore(sorted[i], sorted[j]);
    }
  }

  /** The locking read of an open order returns all of its rows, in product order. */
  lemma {:induction false} HeldRowsAll(rows: seq<Reservation>)
    requires AllHeld(rows) && OnePerProduct(rows)
    ensures ByProduct(HeldRows(rows)) && AllHeld(HeldRows(rows))
    ensures forall r :: r in HeldRows(rows) <==> r in rows
    ensures forall k :: HeldQty(HeldRows(rows), k) == HeldQty(rows, k)
  {
    OnlyHeldAll(rows);
    SortedRows(rows);
    SameElements(HeldRows(rows), rows);
    forall k ensures HeldQty(HeldRows(rows), k) == HeldQty(rows, k) {
      HeldQtyPermutes(HeldRows(rows), rows, k);
    }
  }

  function QtyIf(key: StockKey): Reservation -> int {
    (r: Reservation) => if r.status == Held && r.Key() == key then r.qty else 0
  }

  lemma {:induction false} HeldQtyIsSum(rows: seq<Reservation>, key: StockKey)
    ensures HeldQty(rows, key) == SumOf(rows, QtyIf(key))
  {
    if rows != [] { HeldQtyIsSum(rows[1..], key); }
  }

  lemma {:induction false} HeldQtyPermutes(rows: seq<Reservation>, rows': seq<Reservation>, key: StockKey)
    requires multiset(rows) == multiset(rows')
    ensures HeldQty(rows, key) == HeldQty(rows', key)
  {
    HeldQtyIsSum(rows, key);
    HeldQtyIsSum(rows', key);
    SumPermutes(rows, rows', QtyIf(key));
  }

  function WithStatus(rows: seq<Reservation>, status: ReservationStatus): seq<Reservation> {
    seq(|rows|, i requires 0 <= i < |rows| => rows[i].(status := status))
  }

  lemma {:induction false} SettleRowsAll(rows: seq<Reservation>, held: seq<Reservation>, status: ReservationStatus)
    requires AllHeld(rows) && forall r :: r in rows ==> r in held
    ensures SettleRows(rows, Products(held), status) == WithStatus(rows, status)
  {
    forall i | 0 <= i < |rows| ensures rows[i].product in Products(held) {
      assert rows[i] in held;
    }
  }

  /** The movements that settle an order: one for every held reservation, in the order they are read. */
  function Settling(db: Db, order: Id, effect: TxnType): seq<Move>
    requires order in db.reservations
  {
    SettleMoves(order, HeldRows(db.reservations[order]), effect)
  }

  /** Settling an order that is still open: every reservation it has, and the error branch never. */
  lemma {:induction false} SettleSettles(db: Db, order: Id, effect: TxnType) returns (s: Ledgered)
    requires Sound(db) && order in db.orders && effect in {Release, Consume}
    requires ExpectedStatus(db.orders[order].status) == Held
    ensures AllHeld(db.reservations[order])
    ensures MoveAll(LedgeredOf(db), Settling(db, order, effect)) == Ok(s)
    ensures SettleResult(db, order, effect) == Ok(WithLedgered(db, s).(
      reservations := db.reservations[order := WithStatus(db.reservations[order], SettledStatus(effect))]))
  {
    var rows := db.reservations[order];
    var held := HeldRows(rows);
    assert Follows(db.orders[order], rows);
    HeldRowsAll(rows);
    SettleRowsAll(rows, held, SettledStatus(effect));
    forall k ensures HeldQty(held, k) <= LevelAt(db.stock, k).reserved {
      CoveredByStock(db, order, k);
    }
    SettleSucceeds(LedgeredOf(db), order, held, effect);
    s := MoveAll(LedgeredOf(db), Settling(db, order, effect)).value;
  }

  lemma {:induction false} NotHeldQty(rows: seq<Reservation>, key: StockKey)
    requires forall r :: r in rows ==> r.status != Held
    ensures HeldQty(rows, key) == 0
  {
    if rows != [] { NotHeldQty(rows[1..], key); }
  }

  lemma {:induction false} SettleTraced(db: Db, s: Ledgered, order: Id, effect: TxnType, r: Reservation)
    requires Sound(db) && order in db.orders && effect in {Release, Consume}
    requires AllHeld(db.reservations[order]) && r in db.reservations[order]
    requires MoveAll(LedgeredOf(db), Settling(db, order, effect)) == Ok(s)
    ensures Traced(s.ledger, order, r.(status := SettledStatus(effect)))
  {
    var moves := Settling(db, order, effect);
    var held := HeldRows(db.reservations[order]);
    var id := OfReservation(order, r.product, effect);
    assert Follows(db.orders[order], db.reservations[order]);
    HeldRowsAll(db.reservations[order]);
    SettleMoveIds(order, held, effect);
    OthersTraced(db, moves, order, effect);
    SettleMovesFor(order, held, effect, id);
    assert Traced(db.ledger, order, r);
    MoveAllCausedOne(LedgeredOf(db), moves, id, MovesFor(moves, id)[0]);
  }

  lemma {:induction false} SettleStock(db: Db, s: Ledgered, order: Id, effect: TxnType, key: StockKey)
    requires order in db.reservations && effect in {Release, Consume}
    requires AllHeld(db.reservations[order]) && OnePerProduct(db.reservations[order])
    requires MoveAll(LedgeredOf(db), Settling(db, order, effect)) == Ok(s)
    requires LevelAt(db.stock, key).reserved == HeldSum(db.reservations, key)
    ensures LevelAt(s.stock, key).reserved ==
      HeldSum(db.reservations[order := WithStatus(db.reservations[order], SettledStatus(effect))], key)
  {
    var rows := db.reservations[order];
    var rows' := WithStatus(rows, SettledStatus(effect));
    HeldRowsAll(rows);
    MoveAllReserved(LedgeredOf(db), Settling(db, order, effect), key);
    SettleDelta(order, HeldRows(rows), effect, key);
    NotHeldQty(rows', key);
    HeldSumPut(db.reservations, order, rows', key);
  }

  lemma {:induction false} SettleReservations(db: Db, s: Ledgered, order: Id, effect: TxnType)
    requires Sound(db) && order in db.orders && effect in {Release, Consume}
    requires AllHeld(db.reservations[order])
    requires MoveAll(LedgeredOf(db), Settling(db, order, effect)) == Ok(s)
    ensures ProposalBooks(db.proposals, s.ledger)
    ensures ReservationBooks(
      db.reservations[order := WithStatus(db.reservations[order], SettledStatus(effect))], s.ledger)
  {
    var rows := db.reservations[order];
    var rows' := WithStatus(rows, SettledStatus(effect));
    SettleMoveIds(order, HeldRows(rows), effect);
    OthersTraced(db, Settling(db, order, effect), order, effect);
    forall r | r in rows' ensures Traced(s.ledger, order, r) {
      var i :| 0 <= i < |rows| && r == rows'[i];
      SettleTraced(db, s, order, effect, rows[i]);
    }
    ReservationPut(db, s.ledger, order, rows', effect);
  }

  lemma {:induction false} SettleKeeps(db: Db, order: Id, target: OrderStatus)
    requires Sound(db) && order in db.orders && StockEffect(target).Some?
    requires ExpectedStatus(db.orders[order].status) == Held
    ensures SettleResult(db, order, StockEffect(target).value).Ok?
    ensures var db' := SettleResult(db, order, StockEffect(target).value).value;
      && LedgerBooks(LedgeredOf(db')) && StockBooks(db'.stock, db'.reservations)
      && ReservationBooks(db'.reservations, db'.ledger) && ProposalBooks(db'.proposals, db'.ledger)
      && OrderBooks(db.orders[order := db.orders[order].(status := target)], db'.reservations)
      && db'.orders == db.orders && db'.outbox == db.outbox && db'.proposals == db.proposals
  {
    var effect := StockEffect(target).value;
    var s := SettleSettles(db, order, effect);
    var db' := SettleResult(db, order, effect).value;
    assert LedgeredOf(db') == s;
    MoveAllLedger(LedgeredOf(db), Settling(db, order, effect));
    assert Follows(db.orders[order], db.reservations[order]);
    forall k ensures LevelAt(db'.stock, k).reserved == HeldSum(db'.reservations, k) {
      assert LevelAt(db.stock, k).reserved == HeldSum(db.reservations, k);
      SettleStock(db, s, order, effect, k);
    }
    SettleReservations(db, s, order, effect);
    SettleFollows(db.orders[order], db.reservations[order], target);
    OrderPut(db, order, db.orders[order].(status := target), db'.reservations[order]);
  }

  lemma {:induction false} SettleFollows(order: Order, rows: seq<Reservation>, target: OrderStatus)
    requires Follows(order, rows) && StockEffect(target).Some?
    ensures Follows(order.(status := target), WithStatus(rows, SettledStatus(StockEffect(target).value)))
  {}

  /** A transition keeps the books, and never meets a reservation its stock row does not cover. */
  lemma {:induction false} TransitionKeeps(db: Db, order: Id, target: OrderStatus)
    requires Sound(db)
    ensures var r := TransitionResult(db, order, target);
      if r.Ok? then Sound(r.value) else r.error == OrderNotFound || r.error.CannotTransition?
  {
    if order in db.orders {
      var from := db.orders[order].status;
      if !Settled(from, target) && CanTransition(from, target) {
        var order' := db.orders[order].(status := target);
        EventKept(db.orders, db.outbox, order', Moved(order, from, target));
        if StockEffect(target).Some? {
          SettleKeeps(db, order, target);
        } else {
          OrderPut(db, order, order', db.reservations[order]);
          assert db.reservations[order := db.reservations[order]] == db.reservations;
        }
      }
    }
  }

  // ---- Adjusting stock and deciding proposals ----

  /** Making sure that a row exists changes no level. */
  lemma {:induction false} EnsuredLevels(db: Db, key: StockKey, delta: int)
    ensures forall k :: LevelAt(Ensured(db, key, delta).stock, k) == LevelAt(db.stock, k)
  {}

  /** The row an adjustment adds to the ledger, which goes on explaining the stock. */
  lemma {:induction false} AdjustLedger(db: Db, key: StockKey, delta: int, id: TxnId) returns (e: Entry)
    requires LedgerBooks(LedgeredOf(db)) && AdjustResult(db, key, delta, id).Ok?
    ensures var db' := AdjustResult(db, key, delta, id).value;
      && LedgerBooks(LedgeredOf(db'))
      && db'.ledger == db.ledger + [e] && e.id == id && e.key == key && e.kind == ManualAdjustment
      && e.quantity == Abs(delta) && e.after.available - e.before.available == delta
  {
    EnsuredLevels(db, key, delta);
    MoveOneLedger(LedgeredOf(Ensured(db, key, delta)), Move(ManualAdjustment, key, delta, id, NotEnoughStock));
    e := AdjustResult(db, key, delta, id).value.ledger[|db.ledger|];
  }

  /** An adjustment reserves nothing. */
  lemma {:induction false} AdjustStock(db: Db, key: StockKey, delta: int, id: TxnId)
    requires StockBooks(db.stock, db.reservations) && AdjustResult(db, key, delta, id).Ok?
    ensures var db' := AdjustResult(db, key, delta, id).value; StockBooks(db'.stock, db'.reservations)
  {
    var db' := AdjustResult(db, key, delta, id).value;
    EnsuredLevels(db, key, delta);
    forall k ensures LevelAt(db'.stock, k).reserved == HeldSum(db'.reservations, k) {
      assert LevelAt(db.stock, k).reserved == HeldSum(db.reservations, k);
    }
  }

  /** One adjustment: the row it adds to the ledger, and nothing else moves. */
  lemma {:induction false} AdjustLedgered(db: Db, key: StockKey, delta: int, id: TxnId) returns (e: Entry)
    requires LedgerBooks(LedgeredOf(db)) && StockBooks(db.stock, db.reservations)
    requires AdjustResult(db, key, delta, id).Ok?
    ensures var db' := AdjustResult(db, key, delta, id).value;
      && LedgerBooks(LedgeredOf(db')) && StockBooks(db'.stock, db'.reservations)
      && db'.ledger == db.ledger + [e] && e.id == id && e.key == key && e.kind == ManualAdjustment
      && e.quantity == Abs(delta) && e.after.available - e.before.available == delta
  {
    e := AdjustLedger(db, key, delta, id);
    AdjustStock(db, key, delta, id);
  }

  lemma {:induction false} AdjustReservations(db: Db, e: Entry)
    requires ReservationBooks(db.reservations, db.ledger) && !e.id.OfReservation?
    ensures ReservationBooks(db.reservations, db.ledger + [e])
  {
    forall o, p, kind
      ensures Caused(db.ledger + [e], OfReservation(o, p, kind)) == Caused(db.ledger, OfReservation(o, p, kind))
    {
      CausedAppend(db.ledger, e, OfReservation(o, p, kind));
    }
    forall o, r | o in db.reservations && r in db.reservations[o] ensures Traced(db.ledger + [e], o, r) {
      TracedKept(db.ledger, db.ledger + [e], o, r);
    }
  }

  lemma {:induction false} AdjustKeeps(db: Db, request: nat, key: StockKey, delta: int)
    requires Sound(db) && AdjustResult(db, key, delta, OfAdjustment(request)).Ok?
    ensures Sound(AdjustResult(db, key, delta, OfAdjustment(request)).value)
  {
    var e := AdjustLedgered(db, key, delta, OfAdjustment(request));
    AdjustReservations(db, e);
    forall p ensures Caused(db.ledger + [e], OfProposal(p)) == Caused(db.ledger, OfProposal(p)) {
      CausedAppend(db.ledger, e, OfProposal(p));
    }
  }

  lemma {:induction false} ApprovalKeeps(db: Db, id: Id, actor: Id, e: Entry)
    requires ProposalBooks(db.proposals, db.ledger)
    requires id in db.proposals && db.proposals[id].status == Undecided && db.proposals[id].proposer != actor
    requires e.id == OfProposal(id) && e.key == db.proposals[id].Key() && e.kind == ManualAdjustment
    requires e.quantity == Abs(db.proposals[id].delta)
    requires e.after.available - e.before.available == db.proposals[id].delta
    ensures ProposalBooks(db.proposals[id := db.proposals[id].(
      status := Approved, decidedBy := Some(actor), applied := Some(OfProposal(id)))], db.ledger + [e])
  {
    assert Caused(db.ledger, OfProposal(id)) == [];
    forall p {
      CausedAppend(db.ledger, e, OfProposal(p));
    }
  }

  lemma {:induction false} ApproveKeeps(db: Db, id: Id, actor: Id)
    requires Sound(db) && DecisionResult(db, id, actor, true).Ok?
    ensures Sound(DecisionResult(db, id, actor, true).value)
  {
    var p := db.proposals[id];
    var adjusted := AdjustResult(db, p.Key(), p.delta, OfProposal(id));
    var e := AdjustLedgered(db, p.Key(), p.delta, OfProposal(id));
    AdjustReservations(db, e);
    ApprovalKeeps(db, id, actor, e);
    AdjustTouches(db, p.Key(), p.delta, OfProposal(id));
    var db' := DecisionResult(db, id, actor, true).value;
    assert LedgeredOf(db') == LedgeredOf(adjusted.value);
    assert db'.orders == db.orders && db'.reservations == db.reservations && db'.outbox == db.outbox;
  }

  /** An adjustment leaves every other table alone. */
  lemma {:induction false} AdjustTouches(db: Db, key: StockKey, delta: int, id: TxnId)
    requires AdjustResult(db, key, delta, id).Ok?
    ensures var db' := AdjustResult(db, key, delta, id).value; db' == db.(stock := db'.stock, ledger := db'.ledger)
  {}

  lemma {:induction false} RejectKeeps(db: Db, id: Id, actor: Id)
    requires Sound(db) && DecisionResult(db, id, actor, false).Ok?
    ensures Sound(DecisionResult(db, id, actor, false).value)
  {
    assert Caused(db.ledger, OfProposal(id)) == [];
  }

  lemma {:induction false} DecisionKeeps(db: Db, id: Id, actor: Id, approve: bool)
    requires Sound(db) && DecisionResult(db, id, actor, approve).Ok?
    ensures Sound(DecisionResult(db, id, actor, approve).value)
  {
    if approve { ApproveKeeps(db, id, actor); } else { RejectKeeps(db, id, actor); }
  }

  /** Whatever the request, if it commits the books are kept. */
  lemma {:induction false} RequestKeeps(r: Request, db: Db)
    requires Sound(db) && RunRequest(r, db).Ok?
    ensures Sound(RunRequest(r, db).value)
  {
    RequestRuns(r, db);
    match r
    case Create(order, warehouse, lines, _) => CreateKeeps(db, order, warehouse, lines);
    case Transition(order, target) => TransitionKeeps(db, order, target);
    case Adjust(n, key, delta) => AdjustKeeps(db, n, key, delta);
    case Propose(id, key, delta, proposer) =>
    case Decision(id, actor, approve) => DecisionKeeps(db, id, actor, approve);
  }

  /** "Reservation holds more than inventory has reserved" is never thrown. */
  lemma {:induction false} BooksNeverBroken(r: Request, db: Db)
    requires Sound(db)
    ensures RunRequest(r, db) != Fail(BooksBroken)
  {
    RequestRuns(r, db);
    match r
    case Create(order, warehouse, lines, _) =>
      ReserveErrors(LedgeredOf(db), order, warehouse, SortByProduct(lines));
    case Transition(order, target) => TransitionKeeps(db, order, target);
    case Adjust(n, key, delta) => AdjustErrors(db, key, delta, OfAdjustment(n));
    case Propose(_, _, _, _) =>
    case Decision(id, actor, approve) => DecisionErrors(db, id, actor, approve);
  }

  lemma {:induction false} AdjustErrors(db: Db, key: StockKey, delta: int, id: TxnId)
    ensures var r := AdjustResult(db, key, delta, id); r.Fail? ==> r.error in {InvalidAdjustment, NotEnoughStock}
  {}

  lemma {:induction false} DecisionErrors(db: Db, id: Id, actor: Id, approve: bool)
    ensures DecisionResult(db, id, actor, approve) != Fail(BooksBroken)
  {
    if id in db.proposals {
      AdjustErrors(db, db.proposals[id].Key(), db.proposals[id].delta, OfProposal(id));
    }
  }

  lemma {:induction false} ReserveErrors(s: Ledgered, order: Id, warehouse: Id, lines: seq<Line>)
    ensures var r := MoveAll(s, ReserveMoves(order, warehouse, lines));
      r.Fail? ==> r.error == InvalidQuantity || r.error.InsufficientStock?
    decreases |lines|
  {
    if lines != [] {
      var first := MoveOne(s, ReserveMoves(order, warehouse, lines)[0]);
      if first.Ok? {
        ReserveErrors(first.value, order, warehouse, lines[1..]);
      }
    }
  }
}
