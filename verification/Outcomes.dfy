/**
 When each request succeeds, what it fails with otherwise, and what it leaves behind, field
 by field and without the functions it is computed with.
 */
module Outcomes {
  import opened Wrappers
  import opened Tables
  import opened Transactions
  import opened Cart
  import opened Sequences
  import opened Movements
  import opened Books
  import opened BooksKept

  /** The stock row of a key is what it was, or missing as it was. */
  predicate Untouched(stock: map<StockKey, Level>, stock': map<StockKey, Level>, key: StockKey) {
    (key in stock <==> key in stock') && (key in stock ==> stock'[key] == stock[key])
  }

  // ---- Creating an order ----

  predicate Covers(stock: map<StockKey, Level>, warehouse: Id, l: Line) {
    var key := StockKey(l.product, warehouse);
    key in stock && stock[key].available >= l.qty
  }

  /** Every line's quantity has gone from available to reserved; no other row has changed. */
  ghost predicate LinesReserved(stock: map<StockKey, Level>, stock': map<StockKey, Level>, warehouse: Id, lines: seq<Line>) {
    && (forall l :: l in lines ==>
          var key := StockKey(l.product, warehouse);
          && key in stock && key in stock'
          && stock'[key] == Level(stock[key].available - l.qty, stock[key].reserved + l.qty, stock[key].version + 1))
    && (forall key :: (forall l :: l in lines ==> key != StockKey(l.product, warehouse)) ==> Untouched(stock, stock', key))
  }

  /** The first line, in product order, that its row does not cover. */
  predicate FirstShort(stock: map<StockKey, Level>, warehouse: Id, lines: seq<Line>, l: Line) {
    && l in lines && !Covers(stock, warehouse, l)
    && forall x :: x in lines && x.product < l.product ==> Covers(stock, warehouse, x)
  }

  lemma {:induction false} ReserveFirst(s: Ledgered, order: Id, warehouse: Id, l: Line)
    requires l.qty >= 1
    ensures var key := StockKey(l.product, warehouse);
      var r := MoveOne(s, ReserveMoves(order, warehouse, [l])[0]);
      && (r.Ok? <==> Covers(s.stock, warehouse, l))
      && (r.Fail? ==> r.error == InsufficientStock(l.product, l.qty))
      && (r.Ok? ==> r.value.stock == s.stock[key :=
            Level(s.stock[key].available - l.qty, s.stock[key].reserved + l.qty, s.stock[key].version + 1)])
  {}

  /** What reserving some lines comes to. */
  ghost predicate ReserveOutcome(stock: map<StockKey, Level>, r: Outcome<Ledgered, Error>, warehouse: Id, lines: seq<Line>) {
    && (r.Ok? <==> forall l :: l in lines ==> Covers(stock, warehouse, l))
    && (r.Fail? ==> exists l :: FirstShort(stock, warehouse, lines, l) && r.error == InsufficientStock(l.product, l.qty))
    && (r.Ok? ==> LinesReserved(stock, r.value.stock, warehouse, lines))
  }

  lemma {:induction false} ReserveStops(
      stock: map<StockKey, Level>, r: Outcome<Ledgered, Error>, warehouse: Id, l: Line, rest: seq<Line>)
    requires !Covers(stock, warehouse, l) && r == Fail(InsufficientStock(l.product, l.qty))
    requires forall x :: x in rest ==> l.product < x.product
    ensures ReserveOutcome(stock, r, warehouse, [l] + rest)
  {
    assert l in [l] + rest;
    assert FirstShort(stock, warehouse, [l] + rest, l);
  }

  lemma {:induction false} ReserveGoesOn(
      stock: map<StockKey, Level>, stock1: map<StockKey, Level>, r: Outcome<Ledgered, Error>,
      warehouse: Id, l: Line, rest: seq<Line>)
    requires Covers(stock, warehouse, l) && ReserveOutcome(stock1, r, warehouse, rest)
    requires var key := StockKey(l.product, warehouse);
      stock1 == stock[key := Level(stock[key].available - l.qty, stock[key].reserved + l.qty, stock[key].version + 1)]
    requires forall x :: x in rest ==> l.product < x.product
    ensures ReserveOutcome(stock, r, warehouse, [l] + rest)
  {
    var lines := [l] + rest;
    assert forall x :: x in lines <==> x == l || x in rest;
    ReserveOn(stock, stock1, warehouse, l, rest);
    if r.Ok? {
      ReservedOn(stock, stock1, r.value.stock, warehouse, l, rest);
    } else {
      var x :| FirstShort(stock1, warehouse, rest, x) && r.error == InsufficientStock(x.product, x.qty);
      assert FirstShort(stock, warehouse, lines, x);
    }
  }

  lemma {:induction false} ReserveStep(s: Ledgered, order: Id, warehouse: Id, l: Line, rest: seq<Line>)
    ensures var first := MoveOne(s, ReserveMoves(order, warehouse, [l])[0]);
      MoveAll(s, ReserveMoves(order, warehouse, [l] + rest)) ==
        if first.Fail? then first else MoveAll(first.value, ReserveMoves(order, warehouse, rest))
  {
    assert ([l] + rest)[1..] == rest;
    var m, moves := ReserveMoves(order, warehouse, [l])[0], ReserveMoves(order, warehouse, rest);
    assert ReserveMoves(order, warehouse, [l] + rest) == [m] + moves && ([m] + moves)[1..] == moves;
  }

  lemma {:induction false} ReserveCons(s: Ledgered, order: Id, warehouse: Id, l: Line, rest: seq<Line>)
    requires l.qty >= 1 && forall x :: x in rest ==> l.product < x.product
    requires var first := MoveOne(s, ReserveMoves(order, warehouse, [l])[0]);
      first.Ok? ==>
        ReserveOutcome(first.value.stock, MoveAll(first.value, ReserveMoves(order, warehouse, rest)), warehouse, rest)
    ensures ReserveOutcome(s.stock, MoveAll(s, ReserveMoves(order, warehouse, [l] + rest)), warehouse, [l] + rest)
  {
    ReserveFirst(s, order, warehouse, l);
    ReserveStep(s, order, warehouse, l, rest);
    var first := MoveOne(s, ReserveMoves(order, warehouse, [l])[0]);
    var all := MoveAll(s, ReserveMoves(order, warehouse, [l] + rest));
    if first.Ok? {
      ReserveGoesOn(s.stock, first.value.stock, all, warehouse, l, rest);
    } else {
      ReserveStops(s.stock, all, warehouse, l, rest);
    }
  }

  lemma {:induction false} ReserveNone(s: Ledgered, order: Id, warehouse: Id)
    ensures ReserveOutcome(s.stock, MoveAll(s, ReserveMoves(order, warehouse, [])), warehouse, [])
  {}

  lemma {:induction false} ReserveAll(s: Ledgered, order: Id, warehouse: Id, lines: seq<Line>)
    requires LinesByProduct(lines) && forall l :: l in lines ==> l.qty >= 1
    ensures ReserveOutcome(s.stock, MoveAll(s, ReserveMoves(order, warehouse, lines)), warehouse, lines)
    decreases |lines|
  {
    if lines == [] {
      ReserveNone(s, order, warehouse);
    } else {
      var l, rest := lines[0], lines[1..];
      var first := MoveOne(s, ReserveMoves(order, warehouse, [l])[0]);
      if first.Ok? { ReserveAll(first.value, order, warehouse, rest); }
      ReserveCons(s, order, warehouse, l, rest);
      assert lines == [l] + rest;
    }
  }

  /** Reserving one line changes nothing for the others. */
  lemma {:induction false} ReserveOn(
      stock: map<StockKey, Level>, stock1: map<StockKey, Level>, warehouse: Id, l: Line, rest: seq<Line>)
    requires forall key :: key != StockKey(l.product, warehouse) ==> Untouched(stock, stock1, key)
    requires forall x :: x in rest ==> l.product < x.product
    ensures forall x :: x in rest ==> (Covers(stock1, warehouse, x) <==> Covers(stock, warehouse, x))
  {
    forall x | x in rest ensures Covers(stock1, warehouse, x) <==> Covers(stock, warehouse, x) {
      assert Untouched(stock, stock1, StockKey(x.product, warehouse));
    }
  }

  lemma {:induction false} ReservedOn(
      stock: map<StockKey, Level>, stock1: map<StockKey, Level>, stock2: map<StockKey, Level>,
      warehouse: Id, l: Line, rest: seq<Line>)
    requires var key := StockKey(l.product, warehouse);
      key in stock && stock1 == stock[key :=
        Level(stock[key].available - l.qty, stock[key].reserved + l.qty, stock[key].version + 1)]
    requires LinesReserved(stock1, stock2, warehouse, rest) && forall x :: x in rest ==> l.product < x.product
    ensures LinesReserved(stock, stock2, warehouse, [l] + rest)
  {
    var lines := [l] + rest;
    assert Untouched(stock1, stock2, StockKey(l.product, warehouse));
    forall key | forall x :: x in lines ==> key != StockKey(x.product, warehouse) ensures Untouched(stock, stock2, key) {
      assert l in lines;
      assert forall x :: x in rest ==> x in lines;
      assert Untouched(stock1, stock2, key);
    }
  }

  /** What the source asks of an order, and of the stock it is for. */
  predicate Acceptable(db: Db, order: Id, warehouse: Id, lines: seq<Line>) {
    && lines != []
    && (forall i, j :: 0 <= i < j < |lines| ==> lines[i].product != lines[j].product)
    && (forall l :: l in lines ==> l.qty >= 1)
    && order !in db.orders
    && (forall l :: l in lines ==>
          var key := StockKey(l.product, warehouse); key in db.stock && db.stock[key].available >= l.qty)
  }

  lemma {:induction false} SameOutcome(
      stock: map<StockKey, Level>, r: Outcome<Ledgered, Error>, warehouse: Id, sorted: seq<Line>, lines: seq<Line>)
    requires ReserveOutcome(stock, r, warehouse, sorted) && forall l :: l in sorted <==> l in lines
    ensures ReserveOutcome(stock, r, warehouse, lines)
  {
    if r.Fail? {
      var l :| FirstShort(stock, warehouse, sorted, l) && r.error == InsufficientStock(l.product, l.qty);
      assert FirstShort(stock, warehouse, lines, l);
    }
  }

  lemma {:induction false} CreateReserves(db: Db, order: Id, warehouse: Id, lines: seq<Line>)
    requires LinesError(lines).None?
    ensures ReserveOutcome(db.stock, MoveAll(LedgeredOf(db), ReserveMoves(order, warehouse, SortByProduct(lines))), warehouse, lines)
  {
    var sorted := SortByProduct(lines);
    SortedLines(lines);
    SortSorts(lines);
    SameElements(sorted, lines);
    ReserveAll(LedgeredOf(db), order, warehouse, sorted);
    SameOutcome(db.stock, MoveAll(LedgeredOf(db), ReserveMoves(order, warehouse, sorted)), warehouse, sorted, lines);
  }

  lemma {:induction false} LinesErrorIs(lines: seq<Line>)
    ensures LinesError(lines).None? <==>
      && lines != []
      && (forall i, j :: 0 <= i < j < |lines| ==> lines[i].product != lines[j].product)
      && (forall l :: l in lines ==> l.qty >= 1)
  {}

  /** An order is accepted exactly when it is well formed, new, and covered line by line. */
  lemma {:induction false} CreateAccepted(db: Db, order: Id, warehouse: Id, lines: seq<Line>, idem: Option<nat>)
    ensures RunRequest(Create(order, warehouse, lines, idem), db).Ok? <==> Acceptable(db, order, warehouse, lines)
  {
    RequestRuns(Create(order, warehouse, lines, idem), db);
    LinesErrorIs(lines);
    if LinesError(lines).None? {
      CreateReserves(db, order, warehouse, lines);
      assert forall l :: l in lines ==> (Covers(db.stock, warehouse, l) <==>
        StockKey(l.product, warehouse) in db.stock && db.stock[StockKey(l.product, warehouse)].available >= l.qty);
    }
  }

  /** What an order that is not accepted fails with, in the order of the checks. */
  lemma {:induction false} CreateRefused(db: Db, order: Id, warehouse: Id, lines: seq<Line>, idem: Option<nat>)
    requires !Acceptable(db, order, warehouse, lines)
    ensures var r := RunRequest(Create(order, warehouse, lines, idem), db);
      r.Fail? &&
      if lines == [] then r.error == EmptyOrder
      else if exists i, j :: 0 <= i < j < |lines| && lines[i].product == lines[j].product then r.error == DuplicateProduct
      else if exists l :: l in lines && l.qty < 1 then r.error == InvalidQuantity
      else if order in db.orders then r.error == DuplicateKey
      else exists l :: FirstShort(db.stock, warehouse, lines, l) && r.error == InsufficientStock(l.product, l.qty)
  {
    CreateAccepted(db, order, warehouse, lines, idem);
    RequestRuns(Create(order, warehouse, lines, idem), db);
    LinesErrorIs(lines);
    if LinesError(lines).None? {
      CreateReserves(db, order, warehouse, lines);
    }
  }

  /** The reservations of an order are its lines, held. */
  ghost predicate ReservesLines(rows: seq<Reservation>, warehouse: Id, lines: seq<Line>) {
    && |rows| == |lines|
    && (forall r :: r in rows ==> r.warehouse == warehouse && r.status == Held && Line(r.product, r.qty) in lines)
    && (forall l :: l in lines ==> Reservation(l.product, warehouse, l.qty, Held) in rows)
  }

  lemma {:induction false} RowsAreLines(warehouse: Id, lines: seq<Line>)
    requires LinesError(lines).None?
    ensures ReservesLines(NewReservations(warehouse, SortByProduct(lines)), warehouse, lines)
  {
    var sorted := SortByProduct(lines);
    var rows := NewReservations(warehouse, sorted);
    SortSorts(lines);
    SameElements(sorted, lines);
    forall r | r in rows ensures r.warehouse == warehouse && r.status == Held && Line(r.product, r.qty) in lines {
      var i :| 0 <= i < |rows| && rows[i] == r;
      assert sorted[i] in sorted && sorted[i] == Line(r.product, r.qty);
    }
    forall l | l in lines ensures Reservation(l.product, warehouse, l.qty, Held) in rows {
      var i :| 0 <= i < |sorted| && sorted[i] == l;
      assert rows[i] in rows;
    }
  }

  /** What an accepted order leaves: the lines moved to reserved, one held reservation each, one event, nothing else. */
  lemma {:induction false} CreateDoes(db: Db, order: Id, warehouse: Id, lines: seq<Line>, idem: Option<nat>)
    requires RunRequest(Create(order, warehouse, lines, idem), db).Ok?
    ensures var db' := RunRequest(Create(order, warehouse, lines, idem), db).value;
      && LinesReserved(db.stock, db'.stock, warehouse, lines)
      && db'.orders == db.orders[order := Order(warehouse, Reserved)]
      && order in db'.reservations && db'.reservations == db.reservations[order := db'.reservations[order]]
      && ReservesLines(db'.reservations[order], warehouse, lines)
      && db'.proposals == db.proposals && db'.outbox == db.outbox + [Created(order)]
  {
    RequestRuns(Create(order, warehouse, lines, idem), db);
    CreateReserves(db, order, warehouse, lines);
    RowsAreLines(warehouse, lines);
  }

  // ---- Moving an order ----

  /** Asked for where the order already is, or for the other way of giving back what was given back. */
  predicate Repeated(status: OrderStatus, target: OrderStatus) {
    status == target || (status in {Cancelled, Expired} && target in {Cancelled, Expired})
  }

  /** The whole lifecycle. */
  predicate Allowed(from: OrderStatus, to: OrderStatus) {
    || (from == Reserved && to == Paid) || (from == Reserved && to == Cancelled)
    || (from == Reserved && to == Expired) || (from == Paid && to == Fulfilled)
  }

  lemma {:induction false} LifecycleIs(status: OrderStatus, target: OrderStatus)
    ensures Settled(status, target) <==> Repeated(status, target)
    ensures CanTransition(status, target) <==> Allowed(status, target)
  {}

  lemma {:induction false} AllowedSucceeds(db: Db, order: Id, target: OrderStatus)
    requires Sound(db) && order in db.orders && Allowed(db.orders[order].status, target)
    ensures TransitionResult(db, order, target).Ok?
  {
    LifecycleIs(db.orders[order].status, target);
    if StockEffect(target).Some? { SettleKeeps(db, order, target); }
  }

  /** A request for a status: repeated, allowed, or refused. */
  lemma {:induction false} TransitionAccepted(db: Db, order: Id, target: OrderStatus)
    requires Sound(db)
    ensures var r := RunRequest(Transition(order, target), db);
      if order !in db.orders then r == Fail(OrderNotFound)
      else
        var status := db.orders[order].status;
        if Repeated(status, target) then r == Ok(db)
        else if Allowed(status, target) then r.Ok?
        else r == Fail(CannotTransition(status, target))
  {
    RequestRuns(Transition(order, target), db);
    if order in db.orders {
      LifecycleIs(db.orders[order].status, target);
      if Allowed(db.orders[order].status, target) { AllowedSucceeds(db, order, target); }
    }
  }

  lemma {:induction false} TransitionAnswers(db: Db, order: Id, target: OrderStatus)
    requires Sound(db) && order in db.orders
    ensures TransitionResult(db, order, target).Ok? <==>
      Repeated(db.orders[order].status, target) || Allowed(db.orders[order].status, target)
  {
    TransitionAccepted(db, order, target);
    RequestRuns(Transition(order, target), db);
  }

  /** What settling does to a stock row. */
  function SettledLevel(level: Level, qty: int, target: OrderStatus): Level {
    if target == Fulfilled then Level(level.available, level.reserved - qty, level.version + 1)
    else Level(level.available + qty, level.reserved - qty, level.version + 1)
  }

  ghost predicate RowsSettled(
      stock: map<StockKey, Level>, stock': map<StockKey, Level>, rows: seq<Reservation>, target: OrderStatus)
  {
    && (forall r :: r in rows ==>
          && r.Key() in stock && r.Key() in stock'
          && stock'[r.Key()] == SettledLevel(stock[r.Key()], r.qty, target))
    && (forall key :: (forall r :: r in rows ==> key != r.Key()) ==> Untouched(stock, stock', key))
  }

  lemma {:induction false} SettleFirst(s: Ledgered, order: Id, r: Reservation, effect: TxnType, target: OrderStatus)
    requires StockEffect(target) == Some(effect) && MoveOne(s, SettleMoves(order, [r], effect)[0]).Ok?
    requires target in {Fulfilled, Cancelled, Expired}
    ensures r.Key() in s.stock
    ensures MoveOne(s, SettleMoves(order, [r], effect)[0]).value.stock
         == s.stock[r.Key() := SettledLevel(s.stock[r.Key()], r.qty, target)]
  {}

  lemma {:induction false} SettledOn(
      stock: map<StockKey, Level>, stock1: map<StockKey, Level>, stock2: map<StockKey, Level>,
      r: Reservation, rest: seq<Reservation>, target: OrderStatus)
    requires r.Key() in stock && stock1 == stock[r.Key() := SettledLevel(stock[r.Key()], r.qty, target)]
    requires RowsSettled(stock1, stock2, rest, target) && forall x :: x in rest ==> r.product < x.product
    ensures RowsSettled(stock, stock2, [r] + rest, target)
  {
    var rows := [r] + rest;
    assert Untouched(stock1, stock2, r.Key());
    forall key | forall x :: x in rows ==> key != x.Key() ensures Untouched(stock, stock2, key) {
      assert r in rows;
      assert forall x :: x in rest ==> x in rows;
      assert Untouched(stock1, stock2, key);
    }
  }

  lemma {:induction false} SettleAll(s: Ledgered, order: Id, rows: seq<Reservation>, effect: TxnType, target: OrderStatus)
    requires StockEffect(target) == Some(effect) && target in {Fulfilled, Cancelled, Expired}
    requires ByProduct(rows) && MoveAll(s, SettleMoves(order, rows, effect)).Ok?
    ensures RowsSettled(s.stock, MoveAll(s, SettleMoves(order, rows, effect)).value.stock, rows, target)
    decreases |rows|
  {
    if rows != [] {
      var r, rest := rows[0], rows[1..];
      assert rows == [r] + rest;
      assert SettleMoves(order, rows, effect)[0] == SettleMoves(order, [r], effect)[0];
      assert SettleMoves(order, rows, effect)[1..] == SettleMoves(order, rest, effect);
      SettleFirst(s, order, r, effect, target);
      var first := MoveOne(s, SettleMoves(order, rows, effect)[0]).value;
      SettleAll(first, order, rest, effect, target);
      SettledOn(s.stock, first.stock, MoveAll(first, SettleMoves(order, rest, effect)).value.stock, r, rest, target);
    }
  }

  /** The same rows, in their places, in another status. */
  predicate Restated(rows: seq<Reservation>, rows': seq<Reservation>, status: ReservationStatus) {
    |rows'| == |rows| && forall i :: 0 <= i < |rows| ==> rows'[i] == rows[i].(status := status)
  }

  lemma {:induction false} SettleDoes(db: Db, order: Id, target: OrderStatus)
    requires Sound(db) && order in db.orders && ExpectedStatus(db.orders[order].status) == Held
    requires target in {Fulfilled, Cancelled, Expired} && StockEffect(target).Some?
    ensures var r := SettleResult(db, order, StockEffect(target).value);
      && r.Ok? && order in db.reservations && order in r.value.reservations
      && RowsSettled(db.stock, r.value.stock, db.reservations[order], target)
      && Restated(db.reservations[order], r.value.reservations[order], SettledStatus(StockEffect(target).value))
      && r.value.reservations == db.reservations[order := r.value.reservations[order]]
  {
    var effect := StockEffect(target).value;
    var rows := db.reservations[order];
    assert Follows(db.orders[order], rows);
    HeldRowsAll(rows);
    var s := SettleSettles(db, order, effect);
    SettleAll(LedgeredOf(db), order, HeldRows(rows), effect, target);
    SameRowsSettled(db.stock, s.stock, HeldRows(rows), rows, target);
  }

  lemma {:induction false} SameRowsSettled(
      stock: map<StockKey, Level>, stock': map<StockKey, Level>, held: seq<Reservation>, rows: seq<Reservation>,
      target: OrderStatus)
    requires RowsSettled(stock, stock', held, target) && forall r :: r in held <==> r in rows
    ensures RowsSettled(stock, stock', rows, target)
  {}

  /** Status and event of a transition, whatever it does to stock. */
  lemma {:induction false} TransitionTells(db: Db, order: Id, target: OrderStatus)
    requires order in db.orders && !Repeated(db.orders[order].status, target)
    requires TransitionResult(db, order, target).Ok?
    ensures var db' := TransitionResult(db, order, target).value;
      && Allowed(db.orders[order].status, target)
      && db'.orders == db.orders[order := Order(db.orders[order].warehouse, target)]
      && db'.outbox == db.outbox + [Moved(order, db.orders[order].status, target)] && db'.proposals == db.proposals
      && (var settled := if StockEffect(target).Some? then SettleResult(db, order, StockEffect(target).value) else Ok(db);
          && settled.Ok? && db'.stock == settled.value.stock && db'.ledger == settled.value.ledger
          && db'.reservations == settled.value.reservations)
  {
    LifecycleIs(db.orders[order].status, target);
  }

  /**
   What a transition leaves. Cancelling and expiring give every reserved quantity back,
   fulfilling hands it out, paying moves no stock; the order's status and its event say so.
   */
  lemma {:induction false} TransitionDoes(db: Db, order: Id, target: OrderStatus)
    requires Sound(db) && order in db.orders && !Repeated(db.orders[order].status, target)
    requires RunRequest(Transition(order, target), db).Ok?
    ensures var db' := RunRequest(Transition(order, target), db).value;
      && db'.orders == db.orders[order := Order(db.orders[order].warehouse, target)]
      && db'.outbox == db.outbox + [Moved(order, db.orders[order].status, target)] && db'.proposals == db.proposals
      && order in db.reservations && order in db'.reservations
      && db'.reservations == db.reservations[order := db'.reservations[order]]
      && (target == Paid ==> db'.stock == db.stock && db'.reservations == db.reservations && db'.ledger == db.ledger)
      && (target in {Cancelled, Expired} ==>
            && RowsSettled(db.stock, db'.stock, db.reservations[order], Cancelled)
            && Restated(db.reservations[order], db'.reservations[order], Released))
      && (target == Fulfilled ==>
            && RowsSettled(db.stock, db'.stock, db.reservations[order], Fulfilled)
            && Restated(db.reservations[order], db'.reservations[order], Consumed))
  {
    RequestRuns(Transition(order, target), db);
    TransitionTells(db, order, target);
    assert OrderBooks(db.orders, db.reservations);
    if target != Paid {
      SettleDoes(db, order, target);
      LikeCancelled(db.stock, RunRequest(Transition(order, target), db).value.stock, db.reservations[order], target);
    }
  }

  lemma {:induction false} LikeCancelled(
      stock: map<StockKey, Level>, stock': map<StockKey, Level>, rows: seq<Reservation>, target: OrderStatus)
    requires RowsSettled(stock, stock', rows, target)
    ensures target in {Cancelled, Expired} ==> RowsSettled(stock, stock', rows, Cancelled)
  {}

  // ---- Adjusting stock, and proposals ----

  /** An adjustment succeeds exactly when it is one and leaves the row, which an increase may begin, at zero or more. */
  lemma {:induction false} AdjustAccepted(db: Db, request: nat, key: StockKey, delta: int)
    ensures var r := RunRequest(Adjust(request, key, delta), db);
      && (r.Ok? <==> delta != 0 && (if key in db.stock then db.stock[key].available + delta >= 0 else delta > 0))
      && (r.Fail? ==> r.error == if delta == 0 then InvalidAdjustment else NotEnoughStock)
      && (r.Ok? ==>
            && key in r.value.stock
            && (forall k :: k != key ==> Untouched(db.stock, r.value.stock, k))
            && r.value.stock[key] ==
                 (if key in db.stock
                  then Level(db.stock[key].available + delta, db.stock[key].reserved, db.stock[key].version + 1)
                  else Level(delta, 0, 1))
            && r.value == db.(stock := r.value.stock, ledger := r.value.ledger))
  {
    RequestRuns(Adjust(request, key, delta), db);
  }

  /** A proposal is written down exactly when it proposes something, and undecided. */
  lemma {:induction false} ProposeAccepted(db: Db, id: Id, key: StockKey, delta: int, proposer: Id)
    ensures var r := RunRequest(Propose(id, key, delta, proposer), db);
      && (r.Ok? <==> delta != 0 && id !in db.proposals)
      && (r.Ok? ==> r.value == db.(proposals := db.proposals[id :=
            Proposal(key.product, key.warehouse, delta, proposer, Undecided, None, None)]))
  {
    RequestRuns(Propose(id, key, delta, proposer), db);
  }

  /** A decision is for an undecided proposal of somebody else; an approval needs the stock for it. */
  lemma {:induction false} DecisionAccepted(db: Db, id: Id, actor: Id, approve: bool)
    ensures var r := RunRequest(Decision(id, actor, approve), db);
      if id !in db.proposals then r == Fail(ProposalNotFound)
      else
        var p := db.proposals[id];
        var key := StockKey(p.product, p.warehouse);
        if p.status != Undecided then r == Fail(AlreadyDecided(p.status))
        else if p.proposer == actor then r == Fail(OwnProposal)
        else if !approve then
          r == Ok(db.(proposals := db.proposals[id := p.(status := Rejected, decidedBy := Some(actor), applied := None)]))
        else
          && (r.Ok? <==>
                p.delta != 0 && (if key in db.stock then db.stock[key].available + p.delta >= 0 else p.delta > 0))
          && (r.Ok? ==>
                && key in r.value.stock && LevelAt(r.value.stock, key).available == LevelAt(db.stock, key).available + p.delta
                && id in r.value.proposals && r.value.proposals[id].status == Approved
                && r.value.proposals[id].decidedBy == Some(actor))
  {
    RequestRuns(Decision(id, actor, approve), db);
  }
}
