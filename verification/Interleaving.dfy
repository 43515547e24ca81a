/**
 Concurrent transactions at READ COMMITTED, one statement at a time.

 Every transaction keeps its uncommitted row versions to itself and sees the committed
 tables overlaid with them. A statement locks the rows it reads for update or writes,
 waits while another transaction holds one of them, is evaluated on the rows as they are
 once the wait is over, and keeps its locks until commit or rollback.
 */
module Interleaving {
  import opened Wrappers
  import opened Tables
  import opened Transactions
  import opened Books
  import opened BooksKept

  datatype RowKey =
    | OrderRow(order: Id)
    | ReservationRows(order: Id)
    | ProposalRow(proposal: Id)
    | StockRow(key: StockKey)
    | KeyRow(idempotencyKey: nat)

  /**
   The rows a statement needs locked. Inserting or changing the reservations of an order
   needs the order row too (their foreign key); the insert in `adjustAtomic` locks a row
   only when it inserts one.

   A stock update always waits for its row here. In Postgres one whose WHERE already fails
   on the committed version neither waits nor locks, and one on a missing row locks nothing:
   it throws at once. That loses no run, because `ThrowIsReachedAlone` and
   `BooksBrokenUnreachable` speak of the next statement whether or not it would wait, and a
   transaction that throws is rolled back.
   */
  function Needs(s: Stmt, db: Db): set<RowKey> {
    match s
    case InsertOrder(o, _) => {OrderRow(o)}
    case EnsureStockRow(key) => if key in db.stock then {} else {StockRow(key)}
    case MoveStock(m) => {StockRow(m.key)}
    case InsertReservations(o, _) => {OrderRow(o)}
    case LockOrder(o, _) => {OrderRow(o)}
    case LockHeld(o, _) => {OrderRow(o), ReservationRows(o)}
    case Settle(o, _, _) => {OrderRow(o), ReservationRows(o)}
    case SetStatus(o, _) => {OrderRow(o)}
    case InsertProposal(p, _) => {ProposalRow(p)}
    case LockProposal(p, _, _) => {ProposalRow(p)}
    case Decide(p, _, _, _) => {ProposalRow(p)}
    case CompleteKey(k) => {KeyRow(k)}
    case _ => {}
  }

  datatype Tx = Tx(request: Request, pc: nat, todo: seq<Stmt>, writes: seq<Write>, locks: set<RowKey>)

  datatype Thrown = Thrown(request: Request, error: Error)

  datatype State = State(db: Db, active: map<nat, Tx>, history: seq<Request>, thrown: seq<Thrown>)

  /** `Abort` is a rollback for any other reason: a crash, a lost connection, a timeout. */
  datatype Label = Begin(t: nat, request: Request) | Step(t: nat) | Throw(t: nat) | Commit(t: nat) | Abort(t: nat)

  function View(s: State, t: nat): Db
    requires t in s.active
  {
    ApplyAll(s.db, s.active[t].writes)
  }

  predicate HasStatement(s: State, t: nat) {
    t in s.active && s.active[t].todo != []
  }

  /** `t` must wait for `u`: its next statement needs a row that `u` has locked. */
  predicate Waits(s: State, t: nat, u: nat) {
    && HasStatement(s, t) && u in s.active && u != t
    && Needs(s.active[t].todo[0], View(s, t)) * s.active[u].locks != {}
  }

  predicate Runnable(s: State, t: nat) {
    HasStatement(s, t) && forall u :: u in s.active ==> !Waits(s, t, u)
  }

  function Advance(tx: Tx, effect: Effect, needs: set<RowKey>): Tx
    requires tx.todo != []
  {
    Tx(tx.request, tx.pc + 1, effect.next + tx.todo[1..], tx.writes + effect.writes, tx.locks + needs)
  }

  /** One step of the system, or None when the label cannot happen. */
  function Next(s: State, l: Label): Option<State> {
    match l
    case Begin(t, r) =>
      if t in s.active then None else Some(s.(active := s.active[t := Tx(r, 0, Program(r), [], {})]))
    case Step(t) =>
      if !Runnable(s, t) || Exec(s.active[t].todo[0], View(s, t)).Fail? then None
      else
        var tx := s.active[t];
        var stmt := tx.todo[0];
        Some(s.(active := s.active[t := Advance(tx, Exec(stmt, View(s, t)).value, Needs(stmt, View(s, t)))]))
    case Throw(t) =>
      if !Runnable(s, t) || Exec(s.active[t].todo[0], View(s, t)).Ok? then None
      else
        var tx := s.active[t];
        Some(s.(active := s.active - {t}, thrown := s.thrown + [Thrown(tx.request, Exec(tx.todo[0], View(s, t)).error)]))
    case Commit(t) =>
      if t !in s.active || s.active[t].todo != [] then None
      else Some(s.(db := View(s, t), active := s.active - {t}, history := s.history + [s.active[t].request]))
    case Abort(t) =>
      if t !in s.active then None else Some(s.(active := s.active - {t}))
  }

  function Steps(s: State, ls: seq<Label>): Option<State>
    decreases |ls|
  {
    if ls == [] then Some(s)
    else
      match Next(s, ls[0])
      case None => None
      case Some(s') => Steps(s', ls[1..])
  }

  function Start(db: Db): State { State(db, map[], [], []) }

  /** The requests one after the other, each alone and each committed. */
  function Serial(db: Db, requests: seq<Request>): Outcome<Db, Error> {
    if requests == [] then Ok(db)
    else
      match Serial(db, requests[..|requests| - 1])
      case Fail(e) => Fail(e)
      case Ok(db') => RunRequest(requests[|requests| - 1], db')
  }

  // ---- Replaying a transaction's statements on other tables ----

  datatype Progress = Progress(todo: seq<Stmt>, writes: seq<Write>, locks: set<RowKey>)

  /** Where the first `n` statements of a request lead, run without interruption from `db`. */
  function Replay(r: Request, n: nat, db: Db): Option<Progress> {
    if n == 0 then Some(Progress(Program(r), [], {}))
    else
      match Replay(r, n - 1, db)
      case None => None
      case Some(p) =>
        var view := ApplyAll(db, p.writes);
        if p.todo == [] || Exec(p.todo[0], view).Fail? then None
        else
          var effect := Exec(p.todo[0], view).value;
          Some(Progress(effect.next + p.todo[1..], p.writes + effect.writes, p.locks + Needs(p.todo[0], view)))
  }

  function RowsOf(w: Write): set<RowKey> {
    match w
    case PutStock(k, _) => {StockRow(k)}
    case PutOrder(o, _) => {OrderRow(o)}
    case PutReservations(o, _) => {OrderRow(o)}
    case PutProposal(p, _) => {ProposalRow(p)}
    case _ => {}
  }

  predicate Covered(writes: seq<Write>, locks: set<RowKey>) {
    forall w :: w in writes ==> RowsOf(w) <= locks
  }

  predicate Same<K, V(==)>(m: map<K, V>, m': map<K, V>, k: K) {
    (k in m <==> k in m') && (k in m ==> m[k] == m'[k])
  }

  predicate SameRow(db: Db, db': Db, row: RowKey) {
    match row
    case OrderRow(o) => Same(db.orders, db'.orders, o) && Same(db.reservations, db'.reservations, o)
    case ProposalRow(p) => Same(db.proposals, db'.proposals, p)
    case StockRow(k) => Same(db.stock, db'.stock, k)
    case _ => true
  }

  /** Equal on the locked rows; stock rows are never deleted. */
  predicate Agree(db: Db, db': Db, locks: set<RowKey>) {
    && (forall row :: row in locks ==> SameRow(db, db', row))
    && db.stock.Keys <= db'.stock.Keys
  }

  lemma {:induction false} ExecCovered(s: Stmt, db: Db)
    requires Exec(s, db).Ok?
    ensures Covered(Exec(s, db).value.writes, Needs(s, db))
  {}

  /** A statement depends on nothing but the rows it locks. */
  lemma {:induction false} ExecFrame(s: Stmt, db: Db, db': Db)
    requires Agree(db, db', Needs(s, db))
    ensures Exec(s, db') == Exec(s, db) && Needs(s, db') == Needs(s, db)
  {
    forall row | row in Needs(s, db) ensures SameRow(db, db', row) {}
  }

  lemma {:induction false} ApplyOneFrame(db: Db, db': Db, w: Write, row: RowKey)
    requires SameRow(db, db', row)
    ensures SameRow(Apply(db, w), Apply(db', w), row)
  {}

  lemma {:induction false} ApplyFrame(db: Db, db': Db, ws: seq<Write>, locks: set<RowKey>)
    requires Agree(db, db', locks)
    ensures Agree(ApplyAll(db, ws), ApplyAll(db', ws), locks)
    decreases |ws|
  {
    if ws != [] {
      forall row | row in locks ensures SameRow(Apply(db, ws[0]), Apply(db', ws[0]), row) {
        ApplyOneFrame(db, db', ws[0], row);
      }
      ApplyFrame(Apply(db, ws[0]), Apply(db', ws[0]), ws[1..], locks);
    }
  }

  lemma {:induction false} ApplyElsewhere(db: Db, ws: seq<Write>, locks: set<RowKey>, others: set<RowKey>)
    requires Covered(ws, locks) && locks !! others
    ensures Agree(db, ApplyAll(db, ws), others)
    decreases |ws|
  {
    if ws != [] {
      assert RowsOf(ws[0]) !! others;
      ApplyElsewhere(Apply(db, ws[0]), ws[1..], locks, others);
    }
  }

  lemma {:induction false} ReplayCovered(r: Request, n: nat, db: Db)
    requires Replay(r, n, db).Some?
    ensures var p := Replay(r, n, db).value; Covered(p.writes, p.locks)
  {
    if n > 0 {
      ReplayCovered(r, n - 1, db);
      var p := Replay(r, n - 1, db).value;
      ExecCovered(p.todo[0], ApplyAll(db, p.writes));
    }
  }

  /** Changing rows a transaction has not locked changes nothing it did. */
  lemma {:induction false} ReplayFrame(r: Request, n: nat, db: Db, db': Db)
    requires Replay(r, n, db).Some? && Agree(db, db', Replay(r, n, db).value.locks)
    ensures Replay(r, n, db') == Replay(r, n, db)
  {
    if n > 0 {
      var p := Replay(r, n - 1, db).value;
      ReplayFrame(r, n - 1, db, db');
      var view, view' := ApplyAll(db, p.writes), ApplyAll(db', p.writes);
      ApplyFrame(db, db', p.writes, Replay(r, n, db).value.locks);
      ExecFrame(p.todo[0], view, view');
    }
  }

  /** A replay is a prefix of running the request alone. */
  lemma {:induction false} ReplayRuns(r: Request, n: nat, db: Db)
    requires Replay(r, n, db).Some?
    ensures var p := Replay(r, n, db).value; RunRequest(r, db) == Run(p.todo, ApplyAll(db, p.writes))
  {
    if n > 0 {
      ReplayRuns(r, n - 1, db);
      var p := Replay(r, n - 1, db).value;
      var view := ApplyAll(db, p.writes);
      ApplyAllConcat(db, p.writes, Exec(p.todo[0], view).value.writes);
    }
  }

  // ---- The invariant of a run ----

  /** What a transaction has done so far is what it would do alone on the committed tables of now. */
  predicate Undisturbed(tx: Tx, db: Db) {
    Replay(tx.request, tx.pc, db) == Some(Progress(tx.todo, tx.writes, tx.locks))
  }

  ghost predicate Consistent(s: State) {
    && (forall t :: t in s.active ==> Undisturbed(s.active[t], s.db))
    && (forall t, u :: t in s.active && u in s.active && t != u ==> s.active[t].locks !! s.active[u].locks)
  }

  ghost predicate Invariant(db0: Db, s: State) {
    && Consistent(s)
    && Serial(db0, s.history) == Ok(s.db)
  }

  /** What commits has locked no row of the others. */
  lemma {:induction false} CommitLeaves(s: State, t: nat, u: nat)
    requires Consistent(s) && t in s.active && u in s.active && t != u
    ensures Undisturbed(s.active[u], View(s, t))
  {
    var tx, other := s.active[t], s.active[u];
    assert Undisturbed(tx, s.db) && Undisturbed(other, s.db);
    ReplayCovered(tx.request, tx.pc, s.db);
    ApplyElsewhere(s.db, tx.writes, tx.locks, other.locks);
    ReplayFrame(other.request, other.pc, s.db, View(s, t));
  }

  /** The committed tables are what running the request alone adds to the serial run so far. */
  lemma {:induction false} CommitSerial(db0: Db, s: State, t: nat)
    requires t in s.active && s.active[t].todo == [] && Undisturbed(s.active[t], s.db)
    requires Serial(db0, s.history) == Ok(s.db)
    ensures Serial(db0, s.history + [s.active[t].request]) == Ok(View(s, t))
  {
    var longer := s.history + [s.active[t].request];
    ReplayRuns(s.active[t].request, s.active[t].pc, s.db);
    assert longer[..|longer| - 1] == s.history;
  }

  lemma {:induction false} CommitKeeps(db0: Db, s: State, t: nat)
    requires Invariant(db0, s) && t in s.active && s.active[t].todo == []
    ensures Invariant(db0, Next(s, Commit(t)).value)
  {
    CommitSerial(db0, s, t);
    forall u | u in s.active && u != t ensures Undisturbed(s.active[u], View(s, t)) {
      CommitLeaves(s, t, u);
    }
  }

  lemma {:induction false} StepKeeps(db0: Db, s: State, t: nat)
    requires Invariant(db0, s) && Next(s, Step(t)).Some?
    ensures Invariant(db0, Next(s, Step(t)).value)
  {
    var s' := Next(s, Step(t)).value;
    assert Undisturbed(s.active[t], s.db);
    assert Undisturbed(s'.active[t], s'.db);
    forall u | u in s.active && u != t ensures s'.active[t].locks !! s.active[u].locks {
      assert !Waits(s, t, u);
    }
  }

  lemma {:induction false} NextKeeps(db0: Db, s: State, l: Label)
    requires Invariant(db0, s) && Next(s, l).Some?
    ensures Invariant(db0, Next(s, l).value)
  {
    match l
    case Begin(t, r) =>
    case Step(t) => StepKeeps(db0, s, t);
    case Throw(t) =>
    case Commit(t) => CommitKeeps(db0, s, t);
    case Abort(t) =>
  }

  lemma {:induction false} StepsKeep(db0: Db, s: State, ls: seq<Label>)
    requires Invariant(db0, s) && Steps(s, ls).Some?
    ensures Invariant(db0, Steps(s, ls).value)
    decreases |ls|
  {
    if ls != [] {
      NextKeeps(db0, s, ls[0]);
      StepsKeep(db0, Next(s, ls[0]).value, ls[1..]);
    }
  }

  // ---- Main results ----

  /**
   However the statements of any number of transactions interleave, and whatever rolls
   back, the committed tables are those of running the committed requests alone, one
   after the other, in the order in which they committed.
   */
  lemma {:induction false} Serializable(db: Db, ls: seq<Label>)
    requires Steps(Start(db), ls).Some?
    ensures var s := Steps(Start(db), ls).value; Serial(db, s.history) == Ok(s.db)
  {
    StepsKeep(db, Start(db), ls);
  }

  lemma {:induction false} SerialSound(db: Db, requests: seq<Request>)
    requires Sound(db) && Serial(db, requests).Ok?
    ensures Sound(Serial(db, requests).value)
    decreases |requests|
  {
    if requests != [] {
      var before := requests[..|requests| - 1];
      SerialSound(db, before);
      RequestKeeps(requests[|requests| - 1], Serial(db, before).value);
    }
  }

  /** The books hold in every committed state of every interleaving. */
  lemma {:induction false} AlwaysSound(db: Db, ls: seq<Label>)
    requires Sound(db) && Steps(Start(db), ls).Some?
    ensures Sound(Steps(Start(db), ls).value.db)
  {
    Serializable(db, ls);
    SerialSound(db, Steps(Start(db), ls).value.history);
  }

  /** An error thrown under interleaving is one the request alone would meet on the committed tables. */
  lemma {:induction false} ThrowIsReachedAlone(db0: Db, s: State, t: nat)
    requires Invariant(db0, s) && HasStatement(s, t)
    requires Exec(s.active[t].todo[0], View(s, t)).Fail?
    ensures RunRequest(s.active[t].request, s.db) == Fail(Exec(s.active[t].todo[0], View(s, t)).error)
  {
    var tx := s.active[t];
    assert Undisturbed(tx, s.db);
    ReplayRuns(tx.request, tx.pc, s.db);
  }

  /** A transaction with nothing left to do has run its request alone on the committed tables. */
  lemma {:induction false} FinishedAlone(db0: Db, s: State, t: nat)
    requires Invariant(db0, s) && t in s.active && s.active[t].todo == []
    ensures RunRequest(s.active[t].request, s.db) == Ok(View(s, t))
  {
    assert Undisturbed(s.active[t], s.db);
    ReplayRuns(s.active[t].request, s.active[t].pc, s.db);
  }

  /** In no interleaving does settling an order meet a reservation that stock does not cover. */
  lemma {:induction false} BooksBrokenUnreachable(db: Db, ls: seq<Label>, t: nat)
    requires Sound(db) && Steps(Start(db), ls).Some?
    requires HasStatement(Steps(Start(db), ls).value, t)
    ensures var s := Steps(Start(db), ls).value;
      Exec(s.active[t].todo[0], View(s, t)) != Fail(BooksBroken)
  {
    var s := Steps(Start(db), ls).value;
    StepsKeep(db, Start(db), ls);
    AlwaysSound(db, ls);
    if Exec(s.active[t].todo[0], View(s, t)).Fail? {
      ThrowIsReachedAlone(db, s, t);
      BooksNeverBroken(s.active[t].request, s.db);
    }
  }
}
