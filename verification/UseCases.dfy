/**
 The use cases as they are written: repositories that change tables in place, a movement
 service that pairs every change with its ledger row, and loops over lines and held
 reservations. Each is proved to leave exactly the tables Movements gives in closed form.
 */
module UseCases {
  import opened Wrappers
  import opened Tables
  import opened Transactions
  import opened Cart
  import opened Sequences
  import opened Movements
  import opened Books
  import opened BooksKept
  import opened Outcomes

  datatype StockMove = StockMove(key: StockKey, before: Level, after: Level)

  /** The tables a transaction works on, with the statements of the repositories. */
  class Tx {
    var stock: map<StockKey, Level>
    var orders: map<Id, Order>
    var reservations: map<Id, seq<Reservation>>
    var proposals: map<Id, Proposal>
    var ledger: seq<Entry>
    var outbox: seq<Event>

    constructor ()
      ensures Rows() == EMPTY
    {
      stock, orders, reservations, proposals, ledger, outbox := map[], map[], map[], map[], [], [];
    }

    function Rows(): Db
      reads this
    {
      Db(stock, orders, reservations, proposals, ledger, outbox)
    }

    // -- inventory --

    /** None, and nothing changed, when a decrease meets no row or too little stock. */
    method AdjustAtomic(key: StockKey, delta: int) returns (r: Outcome<Option<StockMove>, Error>)
      modifies this`stock
      ensures delta == 0 ==> r == Fail(InvalidAdjustment) && stock == old(stock)
      ensures delta != 0 ==>
        var before := if delta > 0 then Some(LevelAt(old(stock), key))
                      else if key in old(stock) then Some(old(stock)[key]) else None;
        if before.Some? && before.value.available + delta >= 0
        then
          var after := Level(before.value.available + delta, before.value.reserved, before.value.version + 1);
          r == Ok(Some(StockMove(key, before.value, after))) && stock == old(stock)[key := after]
        else r == Ok(None) && stock == Ensured(old(Rows()), key, delta).stock
    {
      if delta == 0 {
        return Fail(InvalidAdjustment);
      }
      if delta > 0 && key !in stock {
        stock := stock[key := Level(0, 0, 0)];
      }
      if key in stock && stock[key].available + delta >= 0 {
        var before := stock[key];
        var after := Level(before.available + delta, before.reserved, before.version + 1);
        stock := stock[key := after];
        r := Ok(Some(StockMove(key, before, after)));
      } else {
        r := Ok(None);
      }
    }

    method ReserveAtomic(key: StockKey, qty: int) returns (r: Outcome<Option<StockMove>, Error>)
      modifies this`stock
      ensures qty < 1 ==> r == Fail(InvalidQuantity) && stock == old(stock)
      ensures qty >= 1 ==>
        if key in old(stock) && old(stock)[key].available >= qty
        then
          var before := old(stock)[key];
          var after := Level(before.available - qty, before.reserved + qty, before.version + 1);
          r == Ok(Some(StockMove(key, before, after))) && stock == old(stock)[key := after]
        else r == Ok(None) && stock == old(stock)
    {
      if qty < 1 {
        return Fail(InvalidQuantity);
      }
      if key in stock && stock[key].available >= qty {
        var before := stock[key];
        var after := Level(before.available - qty, before.reserved + qty, before.version + 1);
        stock := stock[key := after];
        r := Ok(Some(StockMove(key, before, after)));
      } else {
        r := Ok(None);
      }
    }

    method ReleaseAtomic(key: StockKey, qty: int) returns (r: Outcome<Option<StockMove>, Error>)
      modifies this`stock
      ensures qty < 1 ==> r == Fail(InvalidQuantity) && stock == old(stock)
      ensures qty >= 1 ==>
        if key in old(stock) && old(stock)[key].reserved >= qty
        then
          var before := old(stock)[key];
          var after := Level(before.available + qty, before.reserved - qty, before.version + 1);
          r == Ok(Some(StockMove(key, before, after))) && stock == old(stock)[key := after]
        else r == Ok(None) && stock == old(stock)
    {
      if qty < 1 {
        return Fail(InvalidQuantity);
      }
      if key in stock && stock[key].reserved >= qty {
        var before := stock[key];
        var after := Level(before.available + qty, before.reserved - qty, before.version + 1);
        stock := stock[key := after];
        r := Ok(Some(StockMove(key, before, after)));
      } else {
        r := Ok(None);
      }
    }

    method ConsumeAtomic(key: StockKey, qty: int) returns (r: Outcome<Option<StockMove>, Error>)
      modifies this`stock
      ensures qty < 1 ==> r == Fail(InvalidQuantity) && stock == old(stock)
      ensures qty >= 1 ==>
        if key in old(stock) && old(stock)[key].reserved >= qty
        then
          var before := old(stock)[key];
          var after := Level(before.available, before.reserved - qty, before.version + 1);
          r == Ok(Some(StockMove(key, before, after))) && stock == old(stock)[key := after]
        else r == Ok(None) && stock == old(stock)
    {
      if qty < 1 {
        return Fail(InvalidQuantity);
      }
      if key in stock && stock[key].reserved >= qty {
        var before := stock[key];
        var after := Level(before.available, before.reserved - qty, before.version + 1);
        stock := stock[key := after];
        r := Ok(Some(StockMove(key, before, after)));
      } else {
        r := Ok(None);
      }
    }

    // -- ledger and outbox --

    method AppendEntry(e: Entry)
      modifies this`ledger
      ensures ledger == old(ledger) + [e]
    {
      ledger := ledger + [e];
    }

    method AppendEvent(ev: Event)
      modifies this`outbox
      ensures outbox == old(outbox) + [ev]
    {
      outbox := outbox + [ev];
    }

    // -- reservations --

    /** The held reservations of an order: every one of them, in product order, in whatever order they are stored. */
    method LockHeldRows(order: Id) returns (held: seq<Reservation>)
      ensures held == if order in reservations then HeldRows(reservations[order]) else []
      ensures multiset(held) == multiset(if order in reservations then OnlyHeld(reservations[order]) else [])
      ensures forall i, j :: 0 <= i < j < |held| ==> held[i].product <= held[j].product
    {
      held := [];
      if order in reservations {
        var rows := reservations[order];
        var i := 0;
        while i < |rows|
          invariant 0 <= i <= |rows|
          invariant held + OnlyHeld(rows[i..]) == OnlyHeld(rows)
        {
          assert rows[i..] == [rows[i]] + rows[i + 1..];
          if rows[i].status == Held {
            held := held + [rows[i]];
          }
          i := i + 1;
        }
        assert held == OnlyHeld(rows);
        assert StrictWeak(RowBefore);
        SortPermutes(held, RowBefore);
        SortOrders(held, RowBefore);
        held := StableSort(held, RowBefore);
        forall i, j | 0 <= i < j < |held| ensures held[i].product <= held[j].product {
          assert !RowBefore(held[j], held[i]);
        }
      }
    }

    method SettleReservations(order: Id, products: set<Id>, status: ReservationStatus)
      modifies this`reservations
      ensures reservations ==
        if order in old(reservations)
        then old(reservations)[order := SettleRows(old(reservations)[order], products, status)]
        else old(reservations)
    {
      if order in reservations {
        reservations := reservations[order := SettleRows(reservations[order], products, status)];
      }
    }
  }

  // ---- StockMovementService ----

  /** A movement and its ledger row, or neither. */
  method Record(tx: Tx, move: Option<StockMove>, m: Move)
    requires move.Some? ==> move.value.key == m.key
    modifies tx`ledger
    ensures tx.ledger == old(tx.ledger)
      + (if move.Some? then [EntryOf(m, move.value.before, move.value.after)] else [])
  {
    if move.Some? {
      tx.AppendEntry(EntryOf(m, move.value.before, move.value.after));
    }
  }

  /** The tables after a recorded movement, or None with nothing left behind on a plain shortage. */
  method Reserve(tx: Tx, m: Move) returns (r: Outcome<bool, Error>)
    requires m.kind == TxnType.Reserve
    modifies tx`stock, tx`ledger
    ensures Recorded(old(LedgeredOf(tx.Rows())), m, r, LedgeredOf(tx.Rows()))
  {
    var moved := tx.ReserveAtomic(m.key, m.amount);
    if moved.Fail? { return Fail(moved.error); }
    Record(tx, moved.value, m);
    r := Ok(moved.value.Some?);
  }

  method Release(tx: Tx, m: Move) returns (r: Outcome<bool, Error>)
    requires m.kind == TxnType.Release
    modifies tx`stock, tx`ledger
    ensures Recorded(old(LedgeredOf(tx.Rows())), m, r, LedgeredOf(tx.Rows()))
  {
    var moved := tx.ReleaseAtomic(m.key, m.amount);
    if moved.Fail? { return Fail(moved.error); }
    Record(tx, moved.value, m);
    r := Ok(moved.value.Some?);
  }

  method Consume(tx: Tx, m: Move) returns (r: Outcome<bool, Error>)
    requires m.kind == TxnType.Consume
    modifies tx`stock, tx`ledger
    ensures Recorded(old(LedgeredOf(tx.Rows())), m, r, LedgeredOf(tx.Rows()))
  {
    var moved := tx.ConsumeAtomic(m.key, m.amount);
    if moved.Fail? { return Fail(moved.error); }
    Record(tx, moved.value, m);
    r := Ok(moved.value.Some?);
  }

  /** True: exactly the movement and its entry. False: nothing at all. Fail: the amount was no amount. */
  predicate Recorded(before: Ledgered, m: Move, r: Outcome<bool, Error>, after: Ledgered) {
    match r
    case Ok(true) => MoveOne(before, m) == Ok(after)
    case Ok(false) => MoveOne(before, m) == Fail(m.onNull) && after == before && AmountError(m.kind, m.amount).None?
    case Fail(e) => MoveOne(before, m) == Fail(e) && after == before
  }

  method AdjustMove(tx: Tx, m: Move) returns (r: Outcome<bool, Error>)
    requires m.kind == ManualAdjustment
    modifies tx`stock, tx`ledger
    ensures m.amount != 0 ==>
      Recorded(old(LedgeredOf(Ensured(tx.Rows(), m.key, m.amount))), m, r, LedgeredOf(tx.Rows()))
    ensures m.amount == 0 ==> r == Fail(InvalidAdjustment)
  {
    ghost var row := Ensured(tx.Rows(), m.key, m.amount).stock;
    ghost var start := tx.stock;
    var moved := tx.AdjustAtomic(m.key, m.amount);
    if moved.Fail? { return Fail(moved.error); }
    if moved.value.Some? {
      assert start[m.key := moved.value.value.after] == row[m.key := moved.value.value.after];
    }
    Record(tx, moved.value, m);
    r := Ok(moved.value.Some?);
  }

  // ---- OrderTransitions ----

  /** Settles every held reservation of an order, one movement each, in product order. */
  method SettleStock(tx: Tx, order: Id, target: OrderStatus) returns (r: Outcome<(), Error>)
    modifies tx`stock, tx`ledger, tx`reservations
    ensures var result := if StockEffect(target).Some?
                          then SettleResult(old(tx.Rows()), order, StockEffect(target).value)
                          else Ok(old(tx.Rows()));
      if result.Ok? then r.Ok? && tx.Rows() == result.value else r == Fail(result.error)
  {
    if StockEffect(target).None? {
      return Ok(());
    }
    var effect := StockEffect(target).value;
    var held := tx.LockHeldRows(order);
    r := SettleEach(tx, order, held, effect);
    if r.Fail? { return; }
    tx.SettleReservations(order, Products(held), SettledStatus(effect));
  }

  /** The loop over what the locking read returned. */
  method SettleEach(tx: Tx, order: Id, held: seq<Reservation>, effect: TxnType) returns (r: Outcome<(), Error>)
    requires effect in {TxnType.Release, TxnType.Consume}
    modifies tx`stock, tx`ledger
    ensures var result := MoveAll(old(LedgeredOf(tx.Rows())), SettleMoves(order, held, effect));
      if result.Ok? then r.Ok? && LedgeredOf(tx.Rows()) == result.value else r == Fail(result.error)
  {
    ghost var result := MoveAll(LedgeredOf(tx.Rows()), SettleMoves(order, held, effect));
    var i := 0;
    assert held[0..] == held;
    while i < |held|
      invariant 0 <= i <= |held|
      invariant result == MoveAll(LedgeredOf(tx.Rows()), SettleMoves(order, held[i..], effect))
    {
      SettleMovesStep(LedgeredOf(tx.Rows()), order, held, i, effect);
      var moved := SettleOne(tx, order, held[i], effect);
      if moved.Fail? { return Fail(moved.error); }
      if !moved.value { return Fail(BooksBroken); }
      i := i + 1;
    }
    r := Ok(());
  }

  function SettleMove(order: Id, r: Reservation, effect: TxnType): Move {
    Move(effect, r.Key(), r.qty, OfReservation(order, r.product, effect), BooksBroken)
  }

  lemma {:induction false} SettleMovesStep(s: Ledgered, order: Id, held: seq<Reservation>, i: nat, effect: TxnType)
    requires i < |held|
    ensures var first := MoveOne(s, SettleMove(order, held[i], effect));
      MoveAll(s, SettleMoves(order, held[i..], effect)) ==
        if first.Fail? then first else MoveAll(first.value, SettleMoves(order, held[i + 1..], effect))
  {
    assert held[i..][1..] == held[i + 1..];
    var m, rest := SettleMove(order, held[i], effect), SettleMoves(order, held[i + 1..], effect);
    assert SettleMoves(order, held[i..], effect) == [m] + rest && ([m] + rest)[1..] == rest;
  }

  /** One reservation given back or handed out. */
  method SettleOne(tx: Tx, order: Id, r: Reservation, effect: TxnType) returns (moved: Outcome<bool, Error>)
    requires effect in {TxnType.Release, TxnType.Consume}
    modifies tx`stock, tx`ledger
    ensures Recorded(old(LedgeredOf(tx.Rows())), SettleMove(order, r, effect), moved, LedgeredOf(tx.Rows()))
  {
    if effect == TxnType.Consume {
      moved := Consume(tx, SettleMove(order, r, effect));
    } else {
      moved := Release(tx, SettleMove(order, r, effect));
    }
  }

  /** Moves one order to a new status, in the caller's transaction. */
  method ApplyTransition(tx: Tx, order: Id, target: OrderStatus) returns (r: Outcome<Order, Error>)
    modifies tx
    ensures var result := TransitionResult(old(tx.Rows()), order, target);
      if result.Ok? then tx.Rows() == result.value && order in tx.orders && r == Ok(tx.orders[order])
      else r == Fail(result.error)
  {
    if order !in tx.orders {
      return Fail(OrderNotFound);
    }
    var current := tx.orders[order];
    var settled := current.status == target || (target in RELEASED && current.status in RELEASED);
    if !settled {
      if !CanTransition(current.status, target) {
        return Fail(CannotTransition(current.status, target));
      }
      var from := current.status;
      var done := SettleStock(tx, order, target);
      if done.Fail? { return Fail(done.error); }
      current := current.(status := target);
      tx.orders := tx.orders[order := current];
      tx.AppendEvent(Moved(order, from, target));
    }
    r := Ok(current);
  }

  /** Succeeds, on sound tables, for an order that is reserved or already given back. */
  method CancelOrder(tx: Tx, order: Id) returns (r: Outcome<Order, Error>)
    modifies tx
    ensures old(Sound(tx.Rows())) ==> (r.Ok? <==> order in old(tx.orders) && old(tx.orders)[order].status in {Reserved, Cancelled, Expired})
    ensures var result := TransitionResult(old(tx.Rows()), order, Cancelled);
      if result.Ok? then tx.Rows() == result.value else r == Fail(result.error)
  {
    if Sound(tx.Rows()) && order in tx.orders { TransitionAnswers(tx.Rows(), order, Cancelled); }
    r := ApplyTransition(tx, order, Cancelled);
  }

  /** For the same orders; the deadline is for the sweep to watch. */
  method ExpireOrder(tx: Tx, order: Id) returns (r: Outcome<Order, Error>)
    modifies tx
    ensures old(Sound(tx.Rows())) ==> (r.Ok? <==> order in old(tx.orders) && old(tx.orders)[order].status in {Reserved, Cancelled, Expired})
    ensures var result := TransitionResult(old(tx.Rows()), order, Expired);
      if result.Ok? then tx.Rows() == result.value else r == Fail(result.error)
  {
    if Sound(tx.Rows()) && order in tx.orders { TransitionAnswers(tx.Rows(), order, Expired); }
    r := ApplyTransition(tx, order, Expired);
  }

  /** For an order that is reserved, or already paid. */
  method MarkOrderPaid(tx: Tx, order: Id) returns (r: Outcome<Order, Error>)
    modifies tx
    ensures old(Sound(tx.Rows())) ==> (r.Ok? <==> order in old(tx.orders) && old(tx.orders)[order].status in {Reserved, Paid})
    ensures var result := TransitionResult(old(tx.Rows()), order, Paid);
      if result.Ok? then tx.Rows() == result.value else r == Fail(result.error)
  {
    if Sound(tx.Rows()) && order in tx.orders { TransitionAnswers(tx.Rows(), order, Paid); }
    r := ApplyTransition(tx, order, Paid);
  }

  /** For an order that is paid, or already fulfilled. */
  method FulfillOrder(tx: Tx, order: Id) returns (r: Outcome<Order, Error>)
    modifies tx
    ensures old(Sound(tx.Rows())) ==> (r.Ok? <==> order in old(tx.orders) && old(tx.orders)[order].status in {Paid, Fulfilled})
    ensures var result := TransitionResult(old(tx.Rows()), order, Fulfilled);
      if result.Ok? then tx.Rows() == result.value else r == Fail(result.error)
  {
    if Sound(tx.Rows()) && order in tx.orders { TransitionAnswers(tx.Rows(), order, Fulfilled); }
    r := ApplyTransition(tx, order, Fulfilled);
  }

  // ---- CreateOrderUseCase ----

  /** Reserves every line in product order and collects the reservations; stops at the first shortfall. */
  method ReserveStock(tx: Tx, order: Id, warehouse: Id, items: seq<Line>) returns (r: Outcome<seq<Reservation>, Error>)
    modifies tx`stock, tx`ledger
    ensures var result := MoveAll(old(LedgeredOf(tx.Rows())), ReserveMoves(order, warehouse, SortByProduct(items)));
      if result.Ok?
      then LedgeredOf(tx.Rows()) == result.value && r == Ok(NewReservations(warehouse, SortByProduct(items)))
      else r == Fail(result.error)
  {
    var lines := SortByProduct(items);
    ghost var start := LedgeredOf(tx.Rows());
    var held: seq<Reservation> := [];
    var i := 0;
    while i < |lines|
      invariant 0 <= i <= |lines|
      invariant held == NewReservations(warehouse, lines[..i])
      invariant MoveAll(start, ReserveMoves(order, warehouse, lines)) ==
                MoveAll(LedgeredOf(tx.Rows()), ReserveMoves(order, warehouse, lines[i..]))
    {
      var item := lines[i];
      var m := Move(TxnType.Reserve, StockKey(item.product, warehouse), item.qty,
                    OfReservation(order, item.product, TxnType.Reserve), InsufficientStock(item.product, item.qty));
      assert ReserveMoves(order, warehouse, lines[i..]) == [m] + ReserveMoves(order, warehouse, lines[i + 1..]) by {
        assert lines[i..][1..] == lines[i + 1..];
      }
      assert ([m] + ReserveMoves(order, warehouse, lines[i + 1..]))[1..] == ReserveMoves(order, warehouse, lines[i + 1..]);
      var moved := Reserve(tx, m);
      if moved.Fail? { return Fail(moved.error); }
      if !moved.value { return Fail(InsufficientStock(item.product, item.qty)); }
      held := held + [Reservation(item.product, warehouse, item.qty, Held)];
      i := i + 1;
    }
    assert lines[..|lines|] == lines;
    r := Ok(held);
  }

  method CreateOrder(tx: Tx, order: Id, warehouse: Id, items: seq<Line>) returns (r: Outcome<Order, Error>)
    modifies tx
    ensures var result := CreateResult(old(tx.Rows()), order, warehouse, items);
      if result.Ok? then tx.Rows() == result.value && r == Ok(Order(warehouse, Reserved)) else r == Fail(result.error)
    ensures r.Ok? <==> Acceptable(old(tx.Rows()), order, warehouse, items)
  {
    RequestRuns(Create(order, warehouse, items, None), tx.Rows());
    CreateAccepted(tx.Rows(), order, warehouse, items, None);
    var invalid := LinesError(items);
    if invalid.Some? { return Fail(invalid.value); }
    if order in tx.orders { return Fail(DuplicateKey); }
    tx.orders := tx.orders[order := Order(warehouse, Reserved)];
    var held := ReserveStock(tx, order, warehouse, items);
    if held.Fail? { return Fail(held.error); }
    tx.reservations := tx.reservations[order := held.value];
    tx.AppendEvent(Created(order));
    r := Ok(Order(warehouse, Reserved));
  }

  // ---- AdjustStockUseCase and the proposals ----

  method AdjustStock(tx: Tx, key: StockKey, quantity: int, id: TxnId) returns (r: Outcome<Level, Error>)
    modifies tx`stock, tx`ledger
    ensures var result := AdjustResult(old(tx.Rows()), key, quantity, id);
      if result.Ok? then tx.Rows() == result.value && key in tx.stock && r == Ok(tx.stock[key]) else r == Fail(result.error)
  {
    if quantity == 0 { return Fail(InvalidAdjustment); }
    var moved := AdjustMove(tx, Move(ManualAdjustment, key, quantity, id, NotEnoughStock));
    if moved.Fail? { return Fail(moved.error); }
    if !moved.value { return Fail(NotEnoughStock); }
    r := Ok(tx.stock[key]);
  }

  /** A decision under the proposal's lock; an approval adjusts stock in the same transaction. */
  method DecideProposal(tx: Tx, id: Id, actor: Id, approve: bool) returns (r: Outcome<Proposal, Error>)
    modifies tx
    ensures var result := DecisionResult(old(tx.Rows()), id, actor, approve);
      if result.Ok? then tx.Rows() == result.value && id in tx.proposals && r == Ok(tx.proposals[id])
      else r == Fail(result.error)
  {
    if id !in tx.proposals { return Fail(ProposalNotFound); }
    var p := tx.proposals[id];
    if p.status != Undecided { return Fail(AlreadyDecided(p.status)); }
    if p.proposer == actor { return Fail(OwnProposal); }
    var applied := None;
    if approve {
      var adjusted := AdjustStock(tx, p.Key(), p.delta, OfProposal(id));
      if adjusted.Fail? { return Fail(adjusted.error); }
      applied := Some(OfProposal(id));
    }
    if id in tx.proposals && tx.proposals[id].status == Undecided {
      tx.proposals := tx.proposals[id := tx.proposals[id].(
        status := if approve then Approved else Rejected, decidedBy := Some(actor), applied := applied)];
    }
    r := Ok(tx.proposals[id]);
  }

  method CreateProposal(tx: Tx, id: Id, key: StockKey, delta: int, proposer: Id) returns (r: Outcome<Proposal, Error>)
    modifies tx`proposals
    ensures var result := ProposeResult(old(tx.Rows()), id, key, delta, proposer);
      if result.Ok? then tx.Rows() == result.value && r.Ok? else r == Fail(result.error)
  {
    if delta == 0 { return Fail(InvalidAdjustment); }
    if id in tx.proposals { return Fail(DuplicateKey); }
    var row := Proposal(key.product, key.warehouse, delta, proposer, Undecided, None, None);
    tx.proposals := tx.proposals[id := row];
    r := Ok(row);
  }

  // ---- UnitOfWork ----

  method Perform(tx: Tx, request: Request) returns (error: Option<Error>)
    modifies tx
    ensures var result := RunRequest(request, old(tx.Rows()));
      if result.Ok? then error == None && tx.Rows() == result.value else error == Some(result.error)
  {
    RequestRuns(request, tx.Rows());
    match request
    case Create(order, warehouse, lines, _) =>
      var r := CreateOrder(tx, order, warehouse, lines);
      error := if r.Fail? then Some(r.error) else None;
    case Transition(order, target) =>
      var r := ApplyTransition(tx, order, target);
      error := if r.Fail? then Some(r.error) else None;
    case Adjust(n, key, delta) =>
      var r := AdjustStock(tx, key, delta, OfAdjustment(n));
      error := if r.Fail? then Some(r.error) else None;
    case Propose(id, key, delta, proposer) =>
      var r := CreateProposal(tx, id, key, delta, proposer);
      error := if r.Fail? then Some(r.error) else None;
    case Decision(id, actor, approve) =>
      var r := DecideProposal(tx, id, actor, approve);
      error := if r.Fail? then Some(r.error) else None;
  }

  /** Everything a request did, or nothing of it. */
  method WithTransaction(tx: Tx, request: Request) returns (error: Option<Error>)
    modifies tx
    ensures var result := RunRequest(request, old(tx.Rows()));
      if result.Ok? then error == None && tx.Rows() == result.value
      else error == Some(result.error) && tx.Rows() == old(tx.Rows())
    ensures old(Sound(tx.Rows())) ==> Sound(tx.Rows()) && error != Some(BooksBroken)
  {
    ghost var before := tx.Rows();
    var stock, orders, reservations := tx.stock, tx.orders, tx.reservations;
    var proposals, ledger, outbox := tx.proposals, tx.ledger, tx.outbox;
    error := Perform(tx, request);
    if error.Some? {
      tx.stock, tx.orders, tx.reservations := stock, orders, reservations;
      tx.proposals, tx.ledger, tx.outbox := proposals, ledger, outbox;
    }
    if Sound(before) {
      BooksNeverBroken(request, before);
      if error.None? {
        RequestKeeps(request, before);
      }
    }
  }
}
