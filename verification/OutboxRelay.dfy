/**
 One poll of the outbox relay: a batch of claimed events, a savepoint for each, handlers
 that may fail after writing, and the retry and dead-letter bookkeeping.
 */
module OutboxRelay {
  import opened Wrappers
  import opened Sequences

  type Id = nat
  type Kind = nat

  datatype Status = Pending | Processed | Dead

  datatype Event = Event(kind: Kind, status: Status, attempts: nat, nextAttemptAt: Option<int>)

  /** Outbox events and the event ids of the audit rows, in insertion order. */
  datatype Books = Books(events: map<Id, Event>, audit: seq<Id>)

  /**
   How dispatching one event goes: the audit rows its handler has inserted when it throws,
   or no throw at all. `jitter` is the random draw of the next delay.
   */
  datatype Attempt = Attempt(partial: seq<Id>, throws: bool, jitter: real)

  predicate Fair(a: Attempt) { 0.0 <= a.jitter < 1.0 }

  // ---- Retry delays ----

  const BASE_DELAY_MS: nat := 200
  const MAX_DELAY_MS: nat := 30000

  function Pow2(n: nat): nat {
    if n == 0 then 1 else 2 * Pow2(n - 1)
  }

  /** `Math.round`, for the non-negative numbers it is used on. */
  function Round(x: real): int { (x + 0.5).Floor }

  function BackoffMs(attempts: nat, jitter: real): int
    requires attempts >= 1
  {
    var doubled := BASE_DELAY_MS * Pow2(attempts - 1);
    var exp := if doubled < MAX_DELAY_MS then doubled else MAX_DELAY_MS;
    Round(exp as real * (0.75 + jitter * 0.5))
  }

  lemma {:induction false} Pow2Positive(n: nat)
    ensures Pow2(n) >= 1
  {
    if n > 0 { Pow2Positive(n - 1); }
  }

  lemma {:induction false} ScaledBounds(exp: real, factor: real)
    requires 200.0 <= exp <= 30000.0 && 0.75 <= factor <= 1.25
    ensures 150.0 <= exp * factor <= 37500.0
  {
    assert exp * factor >= exp * 0.75;
    assert exp * factor <= exp * 1.25;
  }

  /** Every delay lies between 150 ms and 37.5 s, whatever the attempt and the draw. */
  lemma {:induction false} BackoffBounds(attempts: nat, jitter: real)
    requires attempts >= 1 && 0.0 <= jitter < 1.0
    ensures 150 <= BackoffMs(attempts, jitter) <= 37500
  {
    Pow2Positive(attempts - 1);
    var doubled := BASE_DELAY_MS * Pow2(attempts - 1);
    var exp := if doubled < MAX_DELAY_MS then doubled else MAX_DELAY_MS;
    ScaledBounds(exp as real, 0.75 + jitter * 0.5);
  }

  /** The delay before its random quarter either way: 200 ms at first, doubled each time up to 30 s. */
  lemma {:induction false} BackoffDoubles(attempts: nat)
    requires attempts >= 1
    ensures BackoffMs(1, 0.5) == 200
    ensures BackoffMs(attempts + 1, 0.5) ==
      if 2 * BackoffMs(attempts, 0.5) < 30000 then 2 * BackoffMs(attempts, 0.5) else 30000
  {
    Pow2Positive(attempts - 1);
    Pow2Positive(attempts);
    assert BASE_DELAY_MS * Pow2(attempts) == 2 * (BASE_DELAY_MS * Pow2(attempts - 1));
    Undrawn(1);
    Undrawn(attempts);
    Undrawn(attempts + 1);
  }

  /** The middle draw leaves the delay as it is. */
  lemma {:induction false} Undrawn(attempts: nat)
    requires attempts >= 1
    ensures var doubled := BASE_DELAY_MS * Pow2(attempts - 1);
      BackoffMs(attempts, 0.5) == if doubled < MAX_DELAY_MS then doubled else MAX_DELAY_MS
  {
    var doubled := BASE_DELAY_MS * Pow2(attempts - 1);
    var exp := if doubled < MAX_DELAY_MS then doubled else MAX_DELAY_MS;
    assert 0.75 + 0.5 * 0.5 == 1.0;
    assert exp as real * 1.0 == exp as real;
    assert (exp as real + 0.5).Floor == exp;
  }

  /** Any draw moves it by at most a quarter, to the nearest millisecond. */
  lemma {:induction false} BackoffDrawn(attempts: nat, jitter: real)
    requires attempts >= 1
    ensures var drawn := BackoffMs(attempts, 0.5) as real * (0.75 + jitter * 0.5);
      drawn - 0.5 < BackoffMs(attempts, jitter) as real <= drawn + 0.5
  {
    Undrawn(attempts);
  }

  // ---- One event on its own ----

  /** `INSERT ... ON CONFLICT (event_id) DO NOTHING`. */
  function InsertAudit(audit: seq<Id>, id: Id): seq<Id> {
    if id in audit then audit else audit + [id]
  }

  /** The rows a handler wrote one after the other. */
  function InsertAll(audit: seq<Id>, ids: seq<Id>): seq<Id> {
    if ids == [] then audit else InsertAudit(InsertAll(audit, ids[..|ids| - 1]), ids[|ids| - 1])
  }

  function FailedEvent(e: Event, maxAttempts: nat, jitter: real, now: int): Event {
    var attempts := e.attempts + 1;
    if attempts >= maxAttempts then e.(status := Dead, attempts := attempts, nextAttemptAt := None)
    else e.(attempts := attempts, nextAttemptAt := Some(now + BackoffMs(attempts, jitter)))
  }

  predicate Succeeds(e: Event, handlers: set<Kind>, a: Attempt) {
    e.kind in handlers && !a.throws
  }

  /**
   Handling one event alone: all of its effect (its audit row and the processed mark), or
   only the record of a failure. No handler for its type is a failure.
   */
  function HandleOne(b: Books, id: Id, handlers: set<Kind>, maxAttempts: nat, a: Attempt, now: int): Books
    requires id in b.events
  {
    var e := b.events[id];
    if Succeeds(e, handlers, a)
    then Books(b.events[id := e.(status := Processed)], InsertAudit(b.audit, id))
    else Books(b.events[id := FailedEvent(e, maxAttempts, a.jitter, now)], b.audit)
  }

  function HandleAll(b: Books, batch: seq<Id>, handlers: set<Kind>, maxAttempts: nat, script: map<Id, Attempt>, now: int): Books
    requires forall id :: id in batch ==> id in b.events && id in script
    decreases |batch|
  {
    if batch == [] then b
    else HandleAll(HandleOne(b, batch[0], handlers, maxAttempts, script[batch[0]], now),
                   batch[1..], handlers, maxAttempts, script, now)
  }

  predicate InIdOrder(batch: seq<Id>) {
    forall i, j :: 0 <= i < j < |batch| ==> batch[i] < batch[j]
  }

  // ---- Claiming ----

  predicate Due(e: Event, now: int) {
    e.status == Pending && (e.nextAttemptAt.None? || e.nextAttemptAt.value <= now)
  }

  predicate Eligible(events: map<Id, Event>, locked: set<Id>, now: int, id: Id) {
    id in events && Due(events[id], now) && id !in locked
  }

  /** `ORDER BY id LIMIT n FOR UPDATE SKIP LOCKED`: eligible rows in id order, none passed over. */
  predicate IsBatch(events: map<Id, Event>, locked: set<Id>, now: int, limit: nat, batch: seq<Id>) {
    && InIdOrder(batch) && |batch| <= limit
    && (forall id :: id in batch ==> Eligible(events, locked, now, id))
    && (forall id :: id in events && Eligible(events, locked, now, id) && id !in batch ==>
          |batch| == limit && forall b :: b in batch ==> b < id)
  }

  predicate Smaller(a: Id, b: Id) { a < b }

  /** Whatever is due, the claiming query has an answer. */
  lemma {:induction false} BatchExists(events: map<Id, Event>, locked: set<Id>, now: int, limit: nat)
    ensures exists batch :: IsBatch(events, locked, now, limit, batch)
  {
    var all: set<Id> := set id | id in events && Eligible(events, locked, now, id);
    assert StrictTotal<Id>(Smaller);
    var batch := FirstFew<Id>(all, Smaller, limit);
    assert forall i, j :: 0 <= i < j < |batch| ==> Smaller(batch[i], batch[j]);
    assert forall id, b :: id in all && id !in batch && b in batch ==> Smaller(b, id);
    assert IsBatch(events, locked, now, limit, batch);
  }

  /** What a batch is, field by field: pending rows that are due and unlocked, and none of those passed over. */
  lemma {:induction false} BatchTakes(events: map<Id, Event>, locked: set<Id>, now: int, limit: nat, batch: seq<Id>, id: Id)
    requires IsBatch(events, locked, now, limit, batch)
    ensures var due := id in events && id !in locked && events[id].status == Pending
                       && (events[id].nextAttemptAt.Some? ==> events[id].nextAttemptAt.value <= now);
      && (id in batch ==> due)
      && (due && id !in batch ==> |batch| == limit && forall b :: b in batch ==> b < id)
  {}

  /** Neighbours in a batch do not touch each other: each event ends as if it had been the only one. */
  lemma {:induction false} EachAlone(
      b: Books, batch: seq<Id>, handlers: set<Kind>, maxAttempts: nat, script: map<Id, Attempt>, now: int, id: Id)
    requires forall i :: i in batch ==> i in b.events && i in script
    requires InIdOrder(batch) && id in b.events
    ensures var all := HandleAll(b, batch, handlers, maxAttempts, script, now);
      && all.events.Keys == b.events.Keys
      && all.events[id] ==
           (if id in batch then HandleOne(b, id, handlers, maxAttempts, script[id], now).events[id] else b.events[id])
      && (id in all.audit <==> id in b.audit || (id in batch && b.events[id].kind in handlers && !script[id].throws))
      && (id in batch && b.events[id].status == Pending ==>
            (all.events[id].status == Processed <==> b.events[id].kind in handlers && !script[id].throws))
    decreases |batch|
  {
    if batch != [] {
      var b' := HandleOne(b, batch[0], handlers, maxAttempts, script[batch[0]], now);
      assert forall i :: i in batch[1..] ==> batch[0] < i;
      assert id in batch <==> id == batch[0] || id in batch[1..];
      EachAlone(b', batch[1..], handlers, maxAttempts, script, now, id);
    }
  }

  // ---- The transaction ----

  datatype PollResult = PollResult(claimed: nat, processed: nat, failed: nat, dead: nat)

  class Connection {
    var books: Books
    var saved: Books

    constructor (b: Books)
      ensures books == b
    {
      books, saved := b, b;
    }

    method Savepoint()
      modifies this`saved
      ensures saved == books
    {
      saved := books;
    }

    method RollbackToSavepoint()
      modifies this`books
      ensures books == saved
    {
      books := saved;
    }

    method InsertAuditRow(id: Id)
      modifies this`books
      ensures books == old(books).(audit := InsertAudit(old(books).audit, id))
    {
      if id !in books.audit {
        books := books.(audit := books.audit + [id]);
      }
    }

    method UpdateEvent(id: Id, e: Event)
      modifies this`books
      ensures books == old(books).(events := old(books).events[id := e])
    {
      books := books.(events := books.events[id := e]);
    }
  }

  /** The handler: its row, or the rows it got to write before it throws. */
  method Handle(tx: Connection, id: Id, a: Attempt) returns (ok: bool)
    modifies tx`books
    ensures ok == !a.throws
    ensures tx.books == old(tx.books).(
      audit := if ok then InsertAudit(old(tx.books).audit, id) else InsertAll(old(tx.books).audit, a.partial))
  {
    if a.throws {
      var i := 0;
      while i < |a.partial|
        invariant 0 <= i <= |a.partial|
        invariant tx.books == old(tx.books).(audit := InsertAll(old(tx.books).audit, a.partial[..i]))
      {
        assert a.partial[..i + 1][..i] == a.partial[..i];
        tx.InsertAuditRow(a.partial[i]);
        i := i + 1;
      }
      assert a.partial[..|a.partial|] == a.partial;
      return false;
    }
    tx.InsertAuditRow(id);
    ok := true;
  }

  /** Writes the failure down; says whether it was the last one. */
  method RecordFailure(tx: Connection, id: Id, e: Event, maxAttempts: nat, a: Attempt, now: int) returns (dead: bool)
    modifies tx`books
    ensures tx.books == old(tx.books).(events := old(tx.books).events[id := FailedEvent(e, maxAttempts, a.jitter, now)])
    ensures dead <==> e.attempts + 1 >= maxAttempts
    ensures tx.books.audit == old(tx.books).audit
    ensures var e' := tx.books.events[id];
      && e'.kind == e.kind && e'.attempts == e.attempts + 1
      && e'.status == (if dead then Dead else e.status)
      && (dead ==> e'.nextAttemptAt == None)
      && (!dead && Fair(a) ==> e'.nextAttemptAt.Some? && now + 150 <= e'.nextAttemptAt.value <= now + 37500)
  {
    if Fair(a) { BackoffBounds(e.attempts + 1, a.jitter); }
    var attempts := e.attempts + 1;
    if attempts >= maxAttempts {
      tx.UpdateEvent(id, e.(status := Dead, attempts := attempts, nextAttemptAt := None));
      return true;
    }
    tx.UpdateEvent(id, e.(attempts := attempts, nextAttemptAt := Some(now + BackoffMs(attempts, a.jitter))));
    dead := false;
  }

  /** One event inside its savepoint: whatever its handler wrote before throwing is gone again. */
  method DispatchOne(tx: Connection, id: Id, e: Event, handlers: set<Kind>, maxAttempts: nat, a: Attempt, now: int)
    returns (ok: bool, dead: bool)
    requires id in tx.books.events && tx.books.events[id] == e
    modifies tx
    ensures tx.books == HandleOne(old(tx.books), id, handlers, maxAttempts, a, now)
    ensures ok <==> e.kind in handlers && !a.throws
    ensures ok ==> tx.books == Books(old(tx.books).events[id := e.(status := Processed)], InsertAudit(old(tx.books).audit, id))
    ensures !ok ==> tx.books.audit == old(tx.books).audit
    ensures !ok ==> id in tx.books.events && tx.books.events[id].attempts == e.attempts + 1
    ensures dead <==> !ok && e.attempts + 1 >= maxAttempts
  {
    tx.Savepoint();
    ok, dead := false, false;
    if e.kind in handlers {
      ok := Handle(tx, id, a);
      if ok {
        tx.UpdateEvent(id, e.(status := Processed));
      }
    }
    if !ok {
      tx.RollbackToSavepoint();
      dead := RecordFailure(tx, id, e, maxAttempts, a, now);
    }
  }

  function Successes(events: map<Id, Event>, batch: seq<Id>, handlers: set<Kind>, script: map<Id, Attempt>): nat
    requires forall id :: id in batch ==> id in events && id in script
  {
    if batch == [] then 0
    else (if Succeeds(events[batch[0]], handlers, script[batch[0]]) then 1 else 0)
         + Successes(events, batch[1..], handlers, script)
  }

  /** The events of a batch that have a handler which does not throw. */
  function HandledOf(events: map<Id, Event>, batch: seq<Id>, handlers: set<Kind>, script: map<Id, Attempt>): set<Id>
    requires forall id :: id in batch ==> id in events && id in script
  {
    set id | id in batch && events[id].kind in handlers && !script[id].throws
  }

  lemma {:induction false} HandledCons(
      events: map<Id, Event>, id: Id, rest: seq<Id>, handlers: set<Kind>, script: map<Id, Attempt>)
    requires forall x :: x in [id] + rest ==> x in events && x in script
    requires id !in rest
    ensures forall x :: x in rest ==> x in events && x in script
    ensures |HandledOf(events, [id] + rest, handlers, script)| ==
      |HandledOf(events, rest, handlers, script)| + (if events[id].kind in handlers && !script[id].throws then 1 else 0)
  {
    assert forall x :: x in [id] + rest <==> x == id || x in rest;
    var all, later := HandledOf(events, [id] + rest, handlers, script), HandledOf(events, rest, handlers, script);
    assert id !in later;
    if events[id].kind in handlers && !script[id].throws {
      assert all == later + {id};
    } else {
      assert all == later;
    }
  }

  lemma {:induction false} SuccessesCount(events: map<Id, Event>, batch: seq<Id>, handlers: set<Kind>, script: map<Id, Attempt>)
    requires InIdOrder(batch) && forall id :: id in batch ==> id in events && id in script
    ensures Successes(events, batch, handlers, script) == |HandledOf(events, batch, handlers, script)|
  {
    if batch == [] {
      assert HandledOf(events, batch, handlers, script) == {};
    } else {
      var id, rest := batch[0], batch[1..];
      assert forall x :: x in rest ==> x in batch && id < x;
      SuccessesCount(events, rest, handlers, script);
      assert batch == [id] + rest;
      HandledCons(events, id, rest, handlers, script);
    }
  }

  /** The loop with one savepoint per event leaves what handling each event alone would leave, and counts each once. */
  method DispatchAll(tx: Connection, batch: seq<Id>, handlers: set<Kind>, maxAttempts: nat,
                     script: map<Id, Attempt>, now: int)
    returns (r: PollResult)
    requires InIdOrder(batch)
    requires forall id :: id in batch ==> id in tx.books.events && id in script
    modifies tx
    ensures tx.books == HandleAll(old(tx.books), batch, handlers, maxAttempts, script, now)
    ensures r.claimed == |batch| && r.processed + r.failed == r.claimed && r.dead <= r.failed
    ensures r.processed == Successes(old(tx.books).events, batch, handlers, script)
  {
    ghost var start := tx.books;
    var rows := tx.books.events;
    var processed, failed, dead := 0, 0, 0;
    var i := 0;
    while i < |batch|
      invariant 0 <= i <= |batch|
      invariant tx.books.events.Keys == rows.Keys
      invariant forall j :: i <= j < |batch| ==> tx.books.events[batch[j]] == rows[batch[j]]
      invariant HandleAll(start, batch, handlers, maxAttempts, script, now) ==
                HandleAll(tx.books, batch[i..], handlers, maxAttempts, script, now)
      invariant processed + failed == i && dead <= failed
      invariant processed + Successes(rows, batch[i..], handlers, script) == Successes(rows, batch, handlers, script)
    {
      var id := batch[i];
      assert batch[i..][0] == id && batch[i..][1..] == batch[i + 1..];
      var ok, last := DispatchOne(tx, id, rows[id], handlers, maxAttempts, script[id], now);
      if ok {
        processed := processed + 1;
      } else {
        failed := failed + 1;
        if last { dead := dead + 1; }
      }
      i := i + 1;
    }
    r := PollResult(|batch|, processed, failed, dead);
  }

  /**
   One poll. `batch` is what the claiming query returns, `locked` what other relays hold;
   `now` is the start of the transaction, for the query and for every failure in it.
   */
  method ClaimAndDispatch(tx: Connection, locked: set<Id>, batchSize: nat, batch: seq<Id>, handlers: set<Kind>,
                          maxAttempts: nat, script: map<Id, Attempt>, now: int)
    returns (r: PollResult)
    requires IsBatch(tx.books.events, locked, now, batchSize, batch)
    requires forall id :: id in batch ==> id in script
    modifies tx
    ensures tx.books == HandleAll(old(tx.books), batch, handlers, maxAttempts, script, now)
    ensures r.claimed <= batchSize && r.processed + r.failed == r.claimed && r.dead <= r.failed
    ensures r.processed == |HandledOf(old(tx.books).events, batch, handlers, script)|
    ensures forall id :: id in old(tx.books).events && id !in batch ==>
      id in tx.books.events && tx.books.events[id] == old(tx.books).events[id]
  {
    SuccessesCount(tx.books.events, batch, handlers, script);
    forall id | id in tx.books.events && id !in batch
      ensures var all := HandleAll(tx.books, batch, handlers, maxAttempts, script, now);
        id in all.events && all.events[id] == tx.books.events[id]
    {
      EachAlone(tx.books, batch, handlers, maxAttempts, script, now, id);
    }
    r := DispatchAll(tx, batch, handlers, maxAttempts, script, now);
  }

  // ---- Registering handlers ----

  class Relay {
    var handlers: map<Kind, nat>

    constructor ()
      ensures handlers == map[]
    {
      handlers := map[];
    }

    /** All of a handler's event types, or none of them. */
    method RegisterHandler(types: seq<Kind>, handler: nat) returns (ok: bool)
      modifies this
      ensures ok <==> forall t :: t in types ==> t !in old(handlers)
      ensures !ok ==> handlers == old(handlers)
      ensures ok ==> handlers == map t | t in old(handlers).Keys + (set t | t in types) ::
                                   if t in types then handler else old(handlers)[t]
    {
      var i := 0;
      while i < |types|
        invariant 0 <= i <= |types|
        invariant forall j :: 0 <= j < i ==> types[j] !in handlers
        invariant handlers == old(handlers)
      {
        if types[i] in handlers {
          return false;
        }
        i := i + 1;
      }
      i := 0;
      while i < |types|
        invariant 0 <= i <= |types|
        invariant handlers.Keys == old(handlers).Keys + (set j | 0 <= j < i :: types[j])
        invariant forall t :: t in handlers ==>
          handlers[t] == if t in types[..i] then handler else old(handlers)[t]
      {
        handlers := handlers[types[i] := handler];
        i := i + 1;
      }
      ok := true;
    }
  }
}
