/**
 What the statement lists of Transactions compute, in closed form: a run of stock
 movements is a fold over (stock, ledger), and every request that succeeds leaves
 tables that are written out here, field by field.
 */
module Movements {
  import opened Wrappers
  import opened Tables
  import opened Transactions
  import opened Cart

  datatype Ledgered = Ledgered(stock: map<StockKey, Level>, ledger: seq<Entry>)

  /** One movement and its ledger row, or what the caller throws. */
  function MoveOne(s: Ledgered, m: Move): Outcome<Ledgered, Error> {
    if AmountError(m.kind, m.amount).Some? then Fail(AmountError(m.kind, m.amount).value)
    else if m.key !in s.stock || MovedLevel(m.kind, s.stock[m.key], m.amount).None? then Fail(m.onNull)
    else
      var after := MovedLevel(m.kind, s.stock[m.key], m.amount).value;
      Ok(Ledgered(s.stock[m.key := after], s.ledger + [EntryOf(m, s.stock[m.key], after)]))
  }

  function MoveAll(s: Ledgered, moves: seq<Move>): Outcome<Ledgered, Error>
    decreases |moves|
  {
    if moves == [] then Ok(s)
    else
      match MoveOne(s, moves[0])
      case Fail(e) => Fail(e)
      case Ok(s') => MoveAll(s', moves[1..])
  }

  function LedgeredOf(db: Db): Ledgered { Ledgered(db.stock, db.ledger) }

  function WithLedgered(db: Db, s: Ledgered): Db { db.(stock := s.stock, ledger := s.ledger) }

  lemma {:induction false} RunStep(s: Stmt, rest: seq<Stmt>, db: Db)
    ensures var r := Exec(s, db);
            Run([s] + rest, db) == if r.Fail? then Fail(r.error) else Run(r.value.next + rest, ApplyAll(db, r.value.writes))
  {
    assert ([s] + rest)[1..] == rest;
  }

  /** A statement that makes nothing further necessary. */
  lemma {:induction false} RunWrites(s: Stmt, rest: seq<Stmt>, db: Db)
    ensures var r := Exec(s, db);
            r.Fail? || r.value.next == [] ==>
              Run([s] + rest, db) == if r.Fail? then Fail(r.error) else Run(rest, ApplyAll(db, r.value.writes))
  {
    RunStep(s, rest, db);
    assert [] + rest == rest;
  }

  lemma {:induction false} RunMove(m: Move, rest: seq<Stmt>, db: Db)
    ensures var r := MoveOne(LedgeredOf(db), m);
            Run([MoveStock(m)] + rest, db) == if r.Fail? then Fail(r.error) else Run(rest, WithLedgered(db, r.value))
  {
    RunStep(MoveStock(m), rest, db);
    match Exec(MoveStock(m), db)
    case Fail(_) =>
    case Ok(effect) =>
      var e := effect.next[0].entry;
      assert effect.next == [RecordMove(e)];
      RunWrites(RecordMove(e), rest, ApplyAll(db, effect.writes));
      assert ApplyAll(ApplyAll(db, effect.writes), [AddEntry(e)]) ==
             WithLedgered(db, MoveOne(LedgeredOf(db), m).value);
  }

  lemma {:induction false} RunMoves(moves: seq<Move>, rest: seq<Stmt>, db: Db)
    ensures var r := MoveAll(LedgeredOf(db), moves);
            Run(MoveStmts(moves) + rest, db) == if r.Fail? then Fail(r.error) else Run(rest, WithLedgered(db, r.value))
    decreases |moves|
  {
    if moves == [] {
      assert MoveStmts(moves) + rest == rest;
    } else {
      assert MoveStmts(moves) + rest == [MoveStock(moves[0])] + (MoveStmts(moves[1..]) + rest);
      RunMove(moves[0], MoveStmts(moves[1..]) + rest, db);
      match MoveOne(LedgeredOf(db), moves[0])
      case Fail(_) =>
      case Ok(s) =>
        RunMoves(moves[1..], rest, WithLedgered(db, s));
        assert LedgeredOf(WithLedgered(db, s)) == s;
    }
  }

  // ---- Every request in closed form ----

  function CreateResult(db: Db, order: Id, warehouse: Id, lines: seq<Line>): Outcome<Db, Error> {
    if LinesError(lines).Some? then Fail(LinesError(lines).value)
    else if order in db.orders then Fail(DuplicateKey)
    else
      match MoveAll(LedgeredOf(db), ReserveMoves(order, warehouse, SortByProduct(lines)))
      case Fail(e) => Fail(e)
      case Ok(s) => Ok(Db(
        s.stock,
        db.orders[order := Order(warehouse, Reserved)],
        db.reservations[order := NewReservations(warehouse, SortByProduct(lines))],
        db.proposals, s.ledger, db.outbox + [Created(order)]))
  }

  function CreateTail(order: Id, rows: seq<Reservation>, idem: Option<nat>): seq<Stmt> {
    [InsertReservations(order, rows)] + ([AppendEvent(Created(order))] + KeyStmts(idem))
  }

  lemma {:induction false} KeyRuns(db: Db, idem: Option<nat>)
    ensures Run(KeyStmts(idem), db) == Ok(db)
  {
    if idem.Some? {
      assert KeyStmts(idem) == [CompleteKey(idem.value)] + [];
      RunWrites(CompleteKey(idem.value), [], db);
    }
  }

  lemma {:induction false} CreateTailRuns(db: Db, order: Id, rows: seq<Reservation>, idem: Option<nat>)
    ensures Run(CreateTail(order, rows, idem), db) ==
            Ok(db.(reservations := db.reservations[order := rows], outbox := db.outbox + [Created(order)]))
  {
    RunWrites(InsertReservations(order, rows), [AppendEvent(Created(order))] + KeyStmts(idem), db);
    var db1 := db.(reservations := db.reservations[order := rows]);
    assert ApplyAll(db, [PutReservations(order, rows)]) == db1;
    RunWrites(AppendEvent(Created(order)), KeyStmts(idem), db1);
    var db2 := db1.(outbox := db.outbox + [Created(order)]);
    assert ApplyAll(db1, [AddEvent(Created(order))]) == db2;
    KeyRuns(db2, idem);
  }

  lemma {:induction false} CreateRuns(db: Db, order: Id, warehouse: Id, lines: seq<Line>, idem: Option<nat>)
    ensures RunRequest(Create(order, warehouse, lines, idem), db) == CreateResult(db, order, warehouse, lines)
  {
    var rows := NewReservations(warehouse, SortByProduct(lines));
    var moves := ReserveMoves(order, warehouse, SortByProduct(lines));
    var end := CreateTail(order, rows, idem);
    var body := [InsertOrder(order, warehouse)] + (MoveStmts(moves) + end);
    assert CreateStmts(order, warehouse, lines, idem) == [Validate(LinesError(lines))] + body;
    RunWrites(Validate(LinesError(lines)), body, db);
    RunWrites(InsertOrder(order, warehouse), MoveStmts(moves) + end, db);
    if LinesError(lines).None? && order !in db.orders {
      var db1 := ApplyAll(db, [PutOrder(order, Order(warehouse, Reserved))]);
      RunMoves(moves, end, db1);
      var moved := MoveAll(LedgeredOf(db1), moves);
      assert LedgeredOf(db1) == LedgeredOf(db);
      if moved.Ok? {
        CreateTailRuns(WithLedgered(db1, moved.value), order, rows, idem);
      }
    }
  }

  /** The stock, ledger and reservations a settled order leaves behind. */
  function SettleResult(db: Db, order: Id, effect: TxnType): Outcome<Db, Error> {
    if order !in db.reservations then Ok(db)
    else
      var held := HeldRows(db.reservations[order]);
      match MoveAll(LedgeredOf(db), SettleMoves(order, held, effect))
      case Fail(e) => Fail(e)
      case Ok(s) =>
        var rows := SettleRows(db.reservations[order], Products(held), SettledStatus(effect));
        Ok(WithLedgered(db, s).(reservations := db.reservations[order := rows]))
  }

  lemma {:induction false} SettleStmtsRun(db: Db, order: Id, effect: TxnType, rest: seq<Stmt>)
    requires order in db.reservations
    ensures var r := SettleResult(db, order, effect);
            Run(SettleStmts(order, HeldRows(db.reservations[order]), effect) + rest, db) ==
              if r.Fail? then Fail(r.error) else Run(rest, r.value)
  {
    var held := HeldRows(db.reservations[order]);
    var settle := Settle(order, Products(held), SettledStatus(effect));
    var moves := SettleMoves(order, held, effect);
    assert SettleStmts(order, held, effect) + rest == MoveStmts(moves) + ([settle] + rest);
    RunMoves(moves, [settle] + rest, db);
    match MoveAll(LedgeredOf(db), moves)
    case Fail(_) =>
    case Ok(s) => RunWrites(settle, rest, WithLedgered(db, s));
  }

  lemma {:induction false} SettleRuns(db: Db, order: Id, target: OrderStatus, rest: seq<Stmt>)
    requires StockEffect(target).Some?
    ensures var r := SettleResult(db, order, StockEffect(target).value);
            Run([LockHeld(order, target)] + rest, db) == if r.Fail? then Fail(r.error) else Run(rest, r.value)
  {
    if order !in db.reservations {
      RunWrites(LockHeld(order, target), rest, db);
    } else {
      RunStep(LockHeld(order, target), rest, db);
      SettleStmtsRun(db, order, StockEffect(target).value, rest);
    }
  }

  function TransitionResult(db: Db, order: Id, target: OrderStatus): Outcome<Db, Error> {
    if order !in db.orders then Fail(OrderNotFound)
    else
      var from := db.orders[order].status;
      if Settled(from, target) then Ok(db)
      else if !CanTransition(from, target) then Fail(CannotTransition(from, target))
      else
        match (if StockEffect(target).Some? then SettleResult(db, order, StockEffect(target).value) else Ok(db))
        case Fail(e) => Fail(e)
        case Ok(db') => Ok(db'.(
          orders := db.orders[order := db.orders[order].(status := target)],
          outbox := db.outbox + [Moved(order, from, target)]))
  }

  lemma {:induction false} FinishRuns(db: Db, order: Id, from: OrderStatus, target: OrderStatus)
    requires order in db.orders
    ensures Run([SetStatus(order, target), AppendEvent(Moved(order, from, target))], db) ==
            Ok(db.(orders := db.orders[order := db.orders[order].(status := target)],
                   outbox := db.outbox + [Moved(order, from, target)]))
  {
    var event := AppendEvent(Moved(order, from, target));
    assert [SetStatus(order, target), event] == [SetStatus(order, target)] + [event];
    RunWrites(SetStatus(order, target), [event], db);
    var db1 := ApplyAll(db, [PutOrder(order, db.orders[order].(status := target))]);
    assert [event] == [event] + [];
    RunWrites(event, [], db1);
  }

  lemma {:induction false} TransitionRuns(db: Db, order: Id, target: OrderStatus)
    ensures RunRequest(Transition(order, target), db) == TransitionResult(db, order, target)
  {
    assert Program(Transition(order, target)) == [LockOrder(order, target)] + [];
    RunStep(LockOrder(order, target), [], db);
    if order in db.orders {
      var from := db.orders[order].status;
      if !Settled(from, target) && CanTransition(from, target) {
        var finish := [SetStatus(order, target), AppendEvent(Moved(order, from, target))];
        if StockEffect(target).Some? {
          assert TransitionStmts(order, from, target) + [] == [LockHeld(order, target)] + finish;
          SettleRuns(db, order, target, finish);
          var settled := SettleResult(db, order, StockEffect(target).value);
          if settled.Ok? {
            FinishRuns(settled.value, order, from, target);
          }
        } else {
          assert TransitionStmts(order, from, target) + [] == finish;
          FinishRuns(db, order, from, target);
        }
      }
    }
  }

  /** The stock row an increase makes sure exists. */
  function Ensured(db: Db, key: StockKey, delta: int): Db {
    if delta > 0 && key !in db.stock then db.(stock := db.stock[key := Level(0, 0, 0)]) else db
  }

  function AdjustResult(db: Db, key: StockKey, delta: int, id: TxnId): Outcome<Db, Error> {
    if delta == 0 then Fail(InvalidAdjustment)
    else
      var db1 := Ensured(db, key, delta);
      match MoveOne(LedgeredOf(db1), Move(ManualAdjustment, key, delta, id, NotEnoughStock))
      case Fail(e) => Fail(e)
      case Ok(s) => Ok(WithLedgered(db, s))
  }

  lemma {:induction false} AdjustRuns(db: Db, key: StockKey, delta: int, id: TxnId, rest: seq<Stmt>)
    ensures var r := AdjustResult(db, key, delta, id);
            Run(AdjustStmts(key, delta, id) + rest, db) == if r.Fail? then Fail(r.error) else Run(rest, r.value)
  {
    var check := Validate(AmountError(ManualAdjustment, delta));
    var m := Move(ManualAdjustment, key, delta, id, NotEnoughStock);
    var move := [MoveStock(m)] + rest;
    var db1 := Ensured(db, key, delta);
    if delta > 0 {
      assert AdjustStmts(key, delta, id) + rest == [check] + ([EnsureStockRow(key)] + move);
      RunWrites(check, [EnsureStockRow(key)] + move, db);
      RunWrites(EnsureStockRow(key), move, db);
      assert ApplyAll(db, Exec(EnsureStockRow(key), db).value.writes) == db1;
    } else {
      assert AdjustStmts(key, delta, id) + rest == [check] + move;
      RunWrites(check, move, db);
    }
    RunMove(m, rest, db1);
  }

  function DecisionResult(db: Db, id: Id, actor: Id, approve: bool): Outcome<Db, Error> {
    if id !in db.proposals then Fail(ProposalNotFound)
    else
      var p := db.proposals[id];
      if p.status != Undecided then Fail(AlreadyDecided(p.status))
      else if p.proposer == actor then Fail(OwnProposal)
      else if approve then
        match AdjustResult(db, p.Key(), p.delta, OfProposal(id))
        case Fail(e) => Fail(e)
        case Ok(db') => Ok(db'.(proposals := db.proposals[id :=
          p.(status := Approved, decidedBy := Some(actor), applied := Some(OfProposal(id)))]))
      else Ok(db.(proposals := db.proposals[id := p.(status := Rejected, decidedBy := Some(actor), applied := None)]))
  }

  lemma {:induction false} ApprovalRuns(db: Db, id: Id, p: Proposal, actor: Id)
    requires id in db.proposals && db.proposals[id] == p && p.status == Undecided && p.proposer != actor
    ensures Run(DecisionStmts(id, p, actor, true), db) == DecisionResult(db, id, actor, true)
  {
    var decide := Decide(id, Approved, actor, Some(OfProposal(id)));
    AdjustRuns(db, p.Key(), p.delta, OfProposal(id), [decide]);
    var adjusted := AdjustResult(db, p.Key(), p.delta, OfProposal(id));
    if adjusted.Ok? {
      assert [decide] == [decide] + [];
      RunWrites(decide, [], adjusted.value);
    }
  }

  lemma {:induction false} RejectionRuns(db: Db, id: Id, p: Proposal, actor: Id)
    requires id in db.proposals && db.proposals[id] == p && p.status == Undecided && p.proposer != actor
    ensures Run(DecisionStmts(id, p, actor, false), db) == DecisionResult(db, id, actor, false)
  {
    var decide := Decide(id, Rejected, actor, None);
    assert DecisionStmts(id, p, actor, false) == [decide] + [];
    RunWrites(decide, [], db);
  }

  lemma {:induction false} DecisionRuns(db: Db, id: Id, actor: Id, approve: bool)
    ensures RunRequest(Decision(id, actor, approve), db) == DecisionResult(db, id, actor, approve)
  {
    assert Program(Decision(id, actor, approve)) == [LockProposal(id, actor, approve)] + [];
    RunStep(LockProposal(id, actor, approve), [], db);
    if id in db.proposals && db.proposals[id].status == Undecided && db.proposals[id].proposer != actor {
      var p := db.proposals[id];
      assert DecisionStmts(id, p, actor, approve) + [] == DecisionStmts(id, p, actor, approve);
      if approve { ApprovalRuns(db, id, p, actor); } else { RejectionRuns(db, id, p, actor); }
    }
  }

  function ProposeResult(db: Db, id: Id, key: StockKey, delta: int, proposer: Id): Outcome<Db, Error> {
    if delta == 0 then Fail(InvalidAdjustment)
    else if id in db.proposals then Fail(DuplicateKey)
    else Ok(db.(proposals := db.proposals[id :=
      Proposal(key.product, key.warehouse, delta, proposer, Undecided, None, None)]))
  }

  lemma {:induction false} ProposeRuns(db: Db, id: Id, key: StockKey, delta: int, proposer: Id)
    ensures RunRequest(Propose(id, key, delta, proposer), db) == ProposeResult(db, id, key, delta, proposer)
  {
    var check := Validate(AmountError(ManualAdjustment, delta));
    var insert := InsertProposal(id, Proposal(key.product, key.warehouse, delta, proposer, Undecided, None, None));
    assert Program(Propose(id, key, delta, proposer)) == [check] + [insert];
    RunWrites(check, [insert], db);
    assert [insert] == [insert] + [];
    RunWrites(insert, [], db);
  }

  /** The result of any request, without reference to its statements. */
  function Result(r: Request, db: Db): Outcome<Db, Error> {
    match r
    case Create(order, warehouse, lines, _) => CreateResult(db, order, warehouse, lines)
    case Transition(order, target) => TransitionResult(db, order, target)
    case Adjust(n, key, delta) => AdjustResult(db, key, delta, OfAdjustment(n))
    case Propose(id, key, delta, proposer) => ProposeResult(db, id, key, delta, proposer)
    case Decision(id, actor, approve) => DecisionResult(db, id, actor, approve)
  }

  /** Running the statements of a request one by one gives its closed form, errors included. */
  lemma {:induction false} RequestRuns(r: Request, db: Db)
    ensures RunRequest(r, db) == Result(r, db)
  {
    match r
    case Create(order, warehouse, lines, idem) => CreateRuns(db, order, warehouse, lines, idem);
    case Transition(order, target) => TransitionRuns(db, order, target);
    case Adjust(n, key, delta) =>
      AdjustRuns(db, key, delta, OfAdjustment(n), []);
      assert AdjustStmts(key, delta, OfAdjustment(n)) + [] == AdjustStmts(key, delta, OfAdjustment(n));
    case Propose(id, key, delta, proposer) => ProposeRuns(db, id, key, delta, proposer);
    case Decision(id, actor, approve) => DecisionRuns(db, id, actor, approve);
  }
}
