/** What the books mean for a caller, over every run from empty tables. */
module Guarantees {
  import opened Wrappers
  import opened Tables
  import opened Transactions
  import opened Movements
  import opened Books
  import opened Interleaving
  import opened Outcomes

  // ---- The history of an order ----

  /** How far along the lifecycle a status is; every transition goes further. */
  function Stage(status: OrderStatus): nat {
    match status
    case Pending => 0
    case Reserved => 0
    case AwaitingPayment => 1
    case Paid => 1
    case _ => 2
  }

  /** Where an event leaves its order. */
  function Entered(ev: Event): OrderStatus {
    if ev.Created? then Reserved else ev.to
  }

  /** Created first, then each event from where the last one led, along the transition table, and no event twice. */
  predicate Path(events: seq<Event>) {
    && events != [] && events[0].Created?
    && (forall i :: 0 < i < |events| ==>
          events[i].Moved? && events[i].from == Entered(events[i - 1]) && CanTransition(events[i].from, events[i].to))
    && (forall i, j :: 0 <= i < j < |events| ==> Stage(Entered(events[i])) < Stage(Entered(events[j])))
  }

  lemma {:induction false} SpelledPath(events: seq<Event>)
    requires Spelled(events).Some?
    ensures Path(events) && Entered(events[|events| - 1]) == Spelled(events).value
  {
    if |events| > 1 {
      var front, last := events[..|events| - 1], events[|events| - 1];
      SpelledPath(front);
      assert Stage(last.from) < Stage(last.to);
      forall i | 0 <= i < |front| ensures Stage(Entered(events[i])) < Stage(Entered(last)) {
        assert events[i] == front[i];
      }
    }
  }

  /**
   In every interleaving, the outbox tells each order's whole story and nothing else: its
   events are a path through the transition table that ends at its status, so no event type
   comes twice and an order is never both cancelled and expired.
   */
  lemma {:induction false} OrderHistory(ls: seq<Label>, o: Id)
    requires Steps(Start(EMPTY), ls).Some?
    ensures var db := Steps(Start(EMPTY), ls).value.db;
      var events := EventsOf(db.outbox, o);
      if o in db.orders then Path(events) && Entered(events[|events| - 1]) == db.orders[o].status else events == []
  {
    EmptySound();
    AlwaysSound(EMPTY, ls);
    var db := Steps(Start(EMPTY), ls).value.db;
    assert EventBooks(db.orders, db.outbox);
    if o in db.orders {
      SpelledPath(EventsOf(db.outbox, o));
    }
  }

  lemma {:induction false} EventsAreTheOrders(outbox: seq<Event>, o: Id)
    ensures forall ev :: ev in EventsOf(outbox, o) ==> ev.order == o
  {
    if outbox != [] { EventsAreTheOrders(outbox[..|outbox| - 1], o); }
  }

  /**
   In every interleaving, event by event: an order is created reserved; only a reserved order
   is paid, cancelled or expired; only a paid one is fulfilled; nothing else ever happens to it.
   */
  lemma {:induction false} LegalHistory(ls: seq<Label>, o: Id, i: nat)
    requires Steps(Start(EMPTY), ls).Some? && i < |EventsOf(Steps(Start(EMPTY), ls).value.db.outbox, o)|
    ensures var events := EventsOf(Steps(Start(EMPTY), ls).value.db.outbox, o);
      var ev := events[i];
      && (i == 0 ==> ev == Created(o))
      && (i > 0 ==> ev.Moved? && ev.order == o)
      && (i > 0 && ev.to in {Paid, Cancelled, Expired} ==> i == 1 && ev.from == Reserved)
      && (i > 0 && ev.to == Fulfilled ==> i == 2 && ev.from == Paid && events[1].Moved? && events[1].to == Paid)
      && (i > 0 ==> ev.to in {Paid, Cancelled, Expired, Fulfilled})
  {
    OrderHistory(ls, o);
    var events := EventsOf(Steps(Start(EMPTY), ls).value.db.outbox, o);
    EventsAreTheOrders(Steps(Start(EMPTY), ls).value.db.outbox, o);
    PathIsLegal(events, i);
    assert events[i] in events;
  }

  lemma {:induction false} PathIsLegal(events: seq<Event>, i: nat)
    requires Path(events) && i < |events|
    ensures i == 0 <==> events[i].Created?
    ensures i > 0 && events[i].to in {Paid, Cancelled, Expired} ==> i == 1 && events[i].from == Reserved
    ensures i > 0 && events[i].to == Fulfilled ==>
      i == 2 && events[i].from == Paid && events[1].Moved? && events[1].to == Paid
    ensures i > 0 ==> events[i].to in {Paid, Cancelled, Expired, Fulfilled}
  {
    if i > 0 {
      LifecycleIs(events[i].from, events[i].to);
      PathIsLegal(events, i - 1);
    }
  }

  /** A second request for what a first one already did, or for the other way of giving stock back. */
  predicate Repeats(first: OrderStatus, second: OrderStatus) {
    second == first || (first in RELEASED && second in RELEASED)
  }

  /** The order is at least as far along as `target` takes it. */
  predicate Reached(db: Db, o: Id, target: OrderStatus) {
    o in db.orders && (Settled(db.orders[o].status, target) || Stage(db.orders[o].status) > Stage(target))
  }

  lemma {:induction false} ReachedByCommit(db: Db, o: Id, target: OrderStatus)
    requires RunRequest(Transition(o, target), db).Ok?
    ensures Reached(RunRequest(Transition(o, target), db).value, o, target)
  {
    RequestRuns(Transition(o, target), db);
  }

  /** No request takes an order back. */
  lemma {:induction false} ReachedStays(db: Db, r: Request, o: Id, target: OrderStatus)
    requires Reached(db, o, target) && RunRequest(r, db).Ok?
    ensures Reached(RunRequest(r, db).value, o, target)
  {
    RequestRuns(r, db);
  }

  lemma {:induction false} ReachedInHistory(db: Db, history: seq<Request>, i: nat, o: Id, target: OrderStatus)
    requires i < |history| && history[i] == Transition(o, target) && Serial(db, history).Ok?
    ensures Reached(Serial(db, history).value, o, target)
    decreases |history|
  {
    var front, last := history[..|history| - 1], history[|history| - 1];
    var before := Serial(db, front).value;
    if i == |front| {
      ReachedByCommit(before, o, target);
    } else {
      ReachedInHistory(db, front, i, o, target);
      ReachedStays(before, last, o, target);
    }
  }

  /** On an order that has reached `target`, a repeat of it can only commit without changing anything. */
  lemma {:induction false} RepeatChangesNothing(db: Db, o: Id, first: OrderStatus, second: OrderStatus)
    requires Reached(db, o, first) && Repeats(first, second)
    ensures var r := RunRequest(Transition(o, second), db);
      if Settled(db.orders[o].status, second) then r == Ok(db)
      else r == Fail(CannotTransition(db.orders[o].status, second))
  {
    RequestRuns(Transition(o, second), db);
  }

  /**
   Over any run: once a transition of an order is in the history, a repeat of it, or a
   cancel after an expire and the reverse, commits without changing the tables, however much
   later, whatever came between, and even if both were racing.
   */
  lemma {:induction false} RepeatsAddNothing(
      db: Db, ls: seq<Label>, i: nat, t: nat, o: Id, first: OrderStatus, second: OrderStatus)
    requires Steps(Start(db), ls).Some?
    requires var s := Steps(Start(db), ls).value;
      && i < |s.history| && s.history[i] == Transition(o, first)
      && t in s.active && s.active[t].request == Transition(o, second) && Next(s, Commit(t)).Some?
    requires Repeats(first, second)
    ensures var s := Steps(Start(db), ls).value; Next(s, Commit(t)).value.db == s.db
  {
    var s := Steps(Start(db), ls).value;
    StepsKeep(db, Start(db), ls);
    ReachedInHistory(db, s.history, i, o, first);
    FinishedAlone(db, s, t);
    RepeatChangesNothing(s.db, o, first, second);
  }

  /** And a cancel or expire of an order that was ever cancelled or expired is never refused. */
  lemma {:induction false} ReleaseNeverRefused(db: Db, requests: seq<Request>, i: nat, o: Id, first: OrderStatus, second: OrderStatus)
    requires Serial(db, requests).Ok? && i < |requests| && requests[i] == Transition(o, first)
    requires first in RELEASED && second in RELEASED
    ensures var db' := Serial(db, requests).value; RunRequest(Transition(o, second), db') == Ok(db')
  {
    ReachedInHistory(db, requests, i, o, first);
    RepeatChangesNothing(Serial(db, requests).value, o, first, second);
  }

  // ---- Stock ----

  /**
   In every interleaving, no stock row goes below zero, what it has reserved is what held
   reservations add up to, its ledger explains its level, and what was put in is what is
   there, held or handed out.
   */
  lemma {:induction false} StockConserved(ls: seq<Label>, key: StockKey)
    requires Steps(Start(EMPTY), ls).Some?
    ensures var db := Steps(Start(EMPTY), ls).value.db;
      var level, tally := LevelAt(db.stock, key), TallyOf(db.ledger, key);
      && level.available >= 0
      && level.reserved == HeldSum(db.reservations, key) >= 0
      && QtyOf(level) == tally.last && level.version == tally.count
      && tally.adjusted == level.available + level.reserved + tally.consumed
      && Chained(db.ledger)
  {
    EmptySound();
    AlwaysSound(EMPTY, ls);
    var db := Steps(Start(EMPTY), ls).value.db;
    assert LedgerBooks(LedgeredOf(db)) && StockBooks(db.stock, db.reservations);
    assert Explains(LevelAt(db.stock, key), TallyOf(db.ledger, key));
  }

  /** In every interleaving, a reservation is in step with its order and has the ledger rows its status calls for. */
  lemma {:induction false} ReservationsTraced(ls: seq<Label>, o: Id, r: Reservation)
    requires Steps(Start(EMPTY), ls).Some?
    requires var db := Steps(Start(EMPTY), ls).value.db; o in db.reservations && r in db.reservations[o]
    ensures var db := Steps(Start(EMPTY), ls).value.db;
      && o in db.orders && r.status == ExpectedStatus(db.orders[o].status)
      && Traced(db.ledger, o, r)
  {
    EmptySound();
    AlwaysSound(EMPTY, ls);
    var db := Steps(Start(EMPTY), ls).value.db;
    assert OrderBooks(db.orders, db.reservations) && ReservationBooks(db.reservations, db.ledger);
  }

  /** In every interleaving, an approved proposal moved stock once, by its delta; any other moved none. */
  lemma {:induction false} ProposalsAccounted(ls: seq<Label>, p: Id)
    requires Steps(Start(EMPTY), ls).Some?
    ensures var db := Steps(Start(EMPTY), ls).value.db;
      var rows := Caused(db.ledger, OfProposal(p));
      if p in db.proposals && db.proposals[p].status == Approved
      then |rows| == 1 && rows[0].key == db.proposals[p].Key()
           && rows[0].after.available - rows[0].before.available == db.proposals[p].delta
      else rows == []
  {
    EmptySound();
    AlwaysSound(EMPTY, ls);
    var db := Steps(Start(EMPTY), ls).value.db;
    assert ProposalBooks(db.proposals, db.ledger);
  }

  // ---- What can happen ----

  lemma {:induction false} StepsConcat(s: State, a: seq<Label>, b: seq<Label>)
    requires Steps(s, a).Some?
    ensures Steps(s, a + b) == Steps(Steps(s, a).value, b)
    decreases |a|
  {
    if a == [] {
      assert a + b == b;
    } else {
      assert (a + b)[1..] == a[1..] + b;
      StepsConcat(Next(s, a[0]).value, a[1..], b);
    }
  }

  /** A lone transaction waits for nobody, so its statements take it to its end. */
  lemma {:induction false} LoneStep(s: State, t: nat)
    requires s.active.Keys == {t} && s.active[t].todo != [] && Exec(s.active[t].todo[0], View(s, t)).Ok?
    ensures Next(s, Step(t)).Some?
    ensures var s' := Next(s, Step(t)).value;
      var effect := Exec(s.active[t].todo[0], View(s, t)).value;
      && s'.active.Keys == {t} && s' == s.(active := s'.active) && s'.active[t].request == s.active[t].request
      && s'.active[t].todo == effect.next + s.active[t].todo[1..]
      && View(s', t) == ApplyAll(View(s, t), effect.writes)
  {
    assert Runnable(s, t);
    ApplyAllConcat(s.db, s.active[t].writes, Exec(s.active[t].todo[0], View(s, t)).value.writes);
  }

  lemma {:induction false} LoneRun(s: State, t: nat) returns (ls: seq<Label>)
    requires s.active.Keys == {t} && Run(s.active[t].todo, View(s, t)).Ok?
    ensures Steps(s, ls).Some?
    ensures var end := Steps(s, ls).value;
      && end.active.Keys == {t} && end == s.(active := end.active) && end.active[t].request == s.active[t].request
      && end.active[t].todo == [] && View(end, t) == Run(s.active[t].todo, View(s, t)).value
    decreases Cost(s.active[t].todo, 3), Cost(s.active[t].todo, 2), Cost(s.active[t].todo, 1), Cost(s.active[t].todo, 0)
  {
    var todo := s.active[t].todo;
    if todo == [] {
      ls := [];
    } else {
      LoneStep(s, t);
      StepShrinks(Exec(todo[0], View(s, t)).value.next, todo);
      var s' := Next(s, Step(t)).value;
      var rest := LoneRun(s', t);
      ls := [Step(t)] + rest;
      assert ls[1..] == rest;
    }
  }

  /** Whatever a request does alone it can do here: from a quiet state some run commits exactly that. */
  lemma {:induction false} CanCommit(s: State, t: nat, r: Request)
    requires s.active == map[] && RunRequest(r, s.db).Ok?
    ensures exists ls :: Steps(s, ls) == Some(State(RunRequest(r, s.db).value, map[], s.history + [r], s.thrown))
  {
    var s1 := Next(s, Begin(t, r)).value;
    assert View(s1, t) == s.db;
    var run := LoneRun(s1, t);
    var s2 := Steps(s1, run).value;
    var s3 := Next(s2, Commit(t)).value;
    assert s3.active == map[];
    assert Steps(s2, [Commit(t)]) == Some(s3) by { assert [Commit(t)][1..] == []; }
    StepsConcat(s1, run, [Commit(t)]);
    var ls := [Begin(t, r)] + (run + [Commit(t)]);
    assert ls[1..] == run + [Commit(t)];
    assert Steps(s, ls) == Some(s3);
  }
}
