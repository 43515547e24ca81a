/** Overselling and underselling: K concurrent one-unit orders for N units in stock. */
module Sellout {
  import opened Tables
  import opened Transactions
  import opened Cart
  import opened Movements
  import opened Books
  import opened BooksKept
  import opened Interleaving
  import opened Outcomes

  predicate OneUnit(r: Request, key: StockKey) {
    r.Create? && r.warehouse == key.warehouse && r.lines == [Line(key.product, 1)]
  }

  function Begins(ls: seq<Label>): nat {
    if ls == [] then 0 else (if ls[0].Begin? then 1 else 0) + Begins(ls[1..])
  }

  function Available(db: Db, key: StockKey): int { LevelAt(db.stock, key).available }

  /** What one such order does to the stock row, and when it falls short. */
  lemma {:induction false} OneUnitResult(r: Request, key: StockKey, db: Db)
    requires OneUnit(r, key)
    ensures var result := RunRequest(r, db);
      && (result.Ok? ==> Available(result.value, key) == Available(db, key) - 1)
      && (result.Fail? && result.error.InsufficientStock? ==> Available(db, key) < 1)
  {
    RequestRuns(r, db);
    assert SortByProduct(r.lines[1..]) == [];
    assert SortByProduct(r.lines) == r.lines;
    assert ReserveMoves(r.order, r.warehouse, r.lines[1..]) == [];
    var moves := ReserveMoves(r.order, r.warehouse, r.lines);
    assert moves == [moves[0]];
    var first := MoveOne(LedgeredOf(db), moves[0]);
    if first.Ok? {
      assert MoveAll(first.value, moves[1..]) == first;
    }
  }

  /** Such an order is accepted exactly when it is new and a unit is there, and refused for nothing else. */
  lemma {:induction false} OneUnitAccepted(r: Request, key: StockKey, db: Db)
    requires OneUnit(r, key)
    ensures var result := RunRequest(r, db);
      && (result.Ok? <==> r.order !in db.orders && key in db.stock && db.stock[key].available >= 1)
      && (result.Fail? ==> result.error == if r.order in db.orders then DuplicateKey else InsufficientStock(key.product, 1))
  {
    CreateAccepted(db, r.order, r.warehouse, r.lines, r.idempotencyKey);
    assert r.lines[0] == Line(key.product, 1) && r.lines[0] in r.lines;
    assert forall l :: l in r.lines ==> l == Line(key.product, 1);
    if RunRequest(r, db).Fail? {
      CreateRefused(db, r.order, r.warehouse, r.lines, r.idempotencyKey);
    }
  }

  /** A run of one-unit orders in which nothing is rolled back for another reason. */
  predicate OnlyOrders(ls: seq<Label>, key: StockKey) {
    forall l :: l in ls ==> !l.Abort? && (l.Begin? ==> OneUnit(l.request, key))
  }

  predicate OnlyShortages(s: State) {
    forall th :: th in s.thrown ==> th.error.InsufficientStock?
  }

  /** Units sold plus units left, and requests accounted for. */
  predicate Tallied(s: State, key: StockKey, units: int, begun: int) {
    && (forall t :: t in s.active ==> OneUnit(s.active[t].request, key))
    && Available(s.db, key) == units - |s.history|
    && begun == |s.history| + |s.thrown| + |s.active|
    && (s.thrown != [] ==> Available(s.db, key) == 0)
  }

  ghost predicate Counted(s: State, key: StockKey, units: int, begun: int) {
    Tallied(s, key, units, begun) && Sound(s.db)
  }

  lemma {:induction false} ThrownGrows(s: State, ls: seq<Label>)
    requires Steps(s, ls).Some?
    ensures s.thrown <= Steps(s, ls).value.thrown
    decreases |ls|
  {
    if ls != [] {
      ThrownGrows(Next(s, ls[0]).value, ls[1..]);
    }
  }

  lemma {:induction false} RemovedOne<V>(m: map<nat, V>, t: nat)
    requires t in m
    ensures |m - {t}| == |m| - 1
  {
    assert (m - {t}).Keys == m.Keys - {t};
    assert |m.Keys - {t}| == |m.Keys| - 1;
  }

  lemma {:induction false} NeverNegative(db: Db, key: StockKey)
    requires Sound(db)
    ensures Available(db, key) >= 0
  {
    assert Explains(LevelAt(db.stock, key), TallyOf(db.ledger, key));
  }

  lemma {:induction false} CommitTallied(s: State, t: nat, key: StockKey, units: int, begun: int)
    requires Tallied(s, key, units, begun) && t in s.active && s.active[t].todo == []
    requires Available(View(s, t), key) == Available(s.db, key) - 1 >= 0
    ensures Tallied(Next(s, Commit(t)).value, key, units, begun)
  {
    RemovedOne(s.active, t);
  }

  lemma {:induction false} CommitCounts(db0: Db, s: State, t: nat, key: StockKey, units: int, begun: int)
    requires Invariant(db0, s) && Counted(s, key, units, begun) && Next(s, Commit(t)).Some?
    ensures Counted(Next(s, Commit(t)).value, key, units, begun)
  {
    FinishedAlone(db0, s, t);
    OneUnitResult(s.active[t].request, key, s.db);
    RequestKeeps(s.active[t].request, s.db);
    NeverNegative(View(s, t), key);
    CommitTallied(s, t, key, units, begun);
  }

  /** The next statement of `t` throws a shortage. */
  predicate Short(s: State, t: nat) {
    HasStatement(s, t) && Exec(s.active[t].todo[0], View(s, t)).Fail?
    && Exec(s.active[t].todo[0], View(s, t)).error.InsufficientStock?
  }

  lemma {:induction false} ShortMeansEmpty(db0: Db, s: State, t: nat, key: StockKey)
    requires Invariant(db0, s) && Short(s, t) && OneUnit(s.active[t].request, key) && Sound(s.db)
    ensures Available(s.db, key) == 0
  {
    ThrowIsReachedAlone(db0, s, t);
    OneUnitResult(s.active[t].request, key, s.db);
    NeverNegative(s.db, key);
  }

  lemma {:induction false} ThrowTallied(s: State, t: nat, key: StockKey, units: int, begun: int)
    requires Tallied(s, key, units, begun) && Next(s, Throw(t)).Some? && Available(s.db, key) == 0
    ensures Tallied(Next(s, Throw(t)).value, key, units, begun) && Next(s, Throw(t)).value.db == s.db
  {
    RemovedOne(s.active, t);
  }

  lemma {:induction false} BeginCounts(s: State, l: Label, key: StockKey, units: int, begun: int)
    requires Tallied(s, key, units, begun) && Next(s, l).Some? && l.Begin? && OneUnit(l.request, key)
    ensures Tallied(Next(s, l).value, key, units, begun + 1) && Next(s, l).value.db == s.db
  {
    RemovedOne(Next(s, l).value.active, l.t);
    assert Next(s, l).value.active - {l.t} == s.active;
  }

  lemma {:induction false} StepCounts(s: State, l: Label, key: StockKey, units: int, begun: int)
    requires Tallied(s, key, units, begun) && Next(s, l).Some? && l.Step?
    ensures Tallied(Next(s, l).value, key, units, begun) && Next(s, l).value.db == s.db
  {
    var s' := Next(s, l).value;
    assert s'.active.Keys == s.active.Keys;
    assert |s'.active| == |s'.active.Keys| && |s.active| == |s.active.Keys|;
  }

  lemma {:induction false} NextCounts(db0: Db, s: State, l: Label, key: StockKey, units: int, begun: int)
    requires Invariant(db0, s) && Counted(s, key, units, begun) && Next(s, l).Some?
    requires !l.Abort? && (l.Begin? ==> OneUnit(l.request, key))
    requires l.Throw? ==> Short(s, l.t)
    ensures Counted(Next(s, l).value, key, units, begun + (if l.Begin? then 1 else 0))
  {
    match l
    case Begin(_, _) => BeginCounts(s, l, key, units, begun);
    case Step(_) => StepCounts(s, l, key, units, begun);
    case Throw(t) =>
      ShortMeansEmpty(db0, s, t, key);
      ThrowTallied(s, t, key, units, begun);
    case Commit(t) => CommitCounts(db0, s, t, key, units, begun);
  }

  lemma {:induction false} RunCounts(db0: Db, s: State, ls: seq<Label>, key: StockKey, units: int, begun: int)
    requires Invariant(db0, s) && Counted(s, key, units, begun)
    requires Steps(s, ls).Some? && OnlyOrders(ls, key) && OnlyShortages(Steps(s, ls).value)
    ensures Counted(Steps(s, ls).value, key, units, begun + Begins(ls))
    decreases |ls|
  {
    if ls != [] {
      var l := ls[0];
      var s' := Next(s, l).value;
      NextKeeps(db0, s, l);
      ThrownGrows(s', ls[1..]);
      assert l in ls;
      if l.Throw? {
        assert s'.thrown[|s.thrown|] in Steps(s, ls).value.thrown;
      }
      NextCounts(db0, s, l, key, units, begun);
      RunCounts(db0, s', ls[1..], key, units, begun + (if l.Begin? then 1 else 0));
    }
  }

  /**
   K one-unit orders on N units, interleaved in any way and failing for no other reason
   than a shortage, commit exactly min(N, K) once all have ended.
   */
  lemma {:induction false} SellsExactly(db: Db, ls: seq<Label>, key: StockKey)
    requires Sound(db) && Steps(Start(db), ls).Some? && OnlyOrders(ls, key)
    requires OnlyShortages(Steps(Start(db), ls).value) && Steps(Start(db), ls).value.active == map[]
    ensures var units, orders := Available(db, key), Begins(ls);
      |Steps(Start(db), ls).value.history| == if units < orders then units else orders
  {
    RunCounts(db, Start(db), ls, key, Available(db, key), 0);
    NeverNegative(Steps(Start(db), ls).value.db, key);
  }
}
