/**
 Any number of relays polling one outbox. A relay claims rows other relays have not
 locked, dispatches them one by one inside its transaction, and either commits all of it
 or crashes, which rolls all of it back; ordering transactions append events meanwhile.
 */
module RelayRuns {
  import opened Wrappers
  import opened OutboxRelay

  datatype Settings = Settings(handlers: set<Kind>, maxAttempts: nat, batchSize: nat)

  /**
   A poll's claimed rows, how many are dispatched, its uncommitted row versions and audit
   rows, and when its transaction started: `now()` is that moment for all its statements.
   */
  datatype Poll = Poll(batch: seq<Id>, done: nat, changed: map<Id, Event>, rows: seq<Id>, startedAt: int)

  /**
   History no statement reads: `failures` counts, per event, the dispatches that failed and
   were committed as failed; `failedAt` is when the poll of the last one started.
   */
  datatype State = State(
    books: Books, polls: map<nat, Poll>, now: int, failures: map<Id, nat>, failedAt: map<Id, int>)

  datatype Label =
    | Append(id: Id, kind: Kind)
    | Claim(r: nat, batch: seq<Id>)
    | Dispatch(r: nat, attempt: Attempt)
    | Commit(r: nat)
    | Crash(r: nat)
    | Tick(ms: nat)

  function View(s: State, p: Poll): Books {
    Books(s.books.events + p.changed, s.books.audit + p.rows)
  }

  function Locked(s: State): set<Id> {
    set r, id | r in s.polls && id in s.polls[r].batch :: id
  }

  predicate CanClaim(s: State, id: Id) { Eligible(s.books.events, Locked(s), s.now, id) }

  function Failures(s: State, p: Poll): map<Id, nat> {
    map id | id in s.failures ::
      s.failures[id] + (if id in p.changed && p.changed[id].status != Processed then 1 else 0)
  }

  function FailedAt(s: State, p: Poll): map<Id, int> {
    s.failedAt + map id | id in p.changed && p.changed[id].status != Processed :: p.startedAt
  }

  /** The next row of the batch handled on the poll's view of the books, and what that changed kept aside. */
  function DispatchNext(cfg: Settings, s: State, p: Poll, a: Attempt): Poll
    requires p.done < |p.batch| && p.batch[p.done] in View(s, p).events
  {
    var id := p.batch[p.done];
    var before := View(s, p);
    var after := HandleOne(before, id, cfg.handlers, cfg.maxAttempts, a, p.startedAt);
    Poll(p.batch, p.done + 1, p.changed[id := after.events[id]],
         if |after.audit| > |before.audit| then p.rows + [id] else p.rows, p.startedAt)
  }

  function Next(cfg: Settings, s: State, l: Label): Option<State> {
    match l
    case Append(id, kind) =>
      if id in s.books.events then None
      else Some(s.(books := s.books.(events := s.books.events[id := Event(kind, Pending, 0, None)]),
                   failures := s.failures[id := 0]))
    case Claim(r, batch) =>
      if r in s.polls || !IsBatch(s.books.events, Locked(s), s.now, cfg.batchSize, batch) then None
      else Some(s.(polls := s.polls[r := Poll(batch, 0, map[], [], s.now)]))
    case Dispatch(r, a) =>
      if r !in s.polls || s.polls[r].done >= |s.polls[r].batch| || !Fair(a) then None
      else
        if s.polls[r].batch[s.polls[r].done] !in View(s, s.polls[r]).events then None
        else Some(s.(polls := s.polls[r := DispatchNext(cfg, s, s.polls[r], a)]))
    case Commit(r) =>
      if r !in s.polls || s.polls[r].done < |s.polls[r].batch| then None
      else Some(s.(books := View(s, s.polls[r]), polls := s.polls - {r},
                   failures := Failures(s, s.polls[r]), failedAt := FailedAt(s, s.polls[r])))
    case Crash(r) =>
      if r !in s.polls then None else Some(s.(polls := s.polls - {r}))
    case Tick(ms) => Some(s.(now := s.now + ms))
  }

  function Steps(cfg: Settings, s: State, ls: seq<Label>): Option<State>
    decreases |ls|
  {
    if ls == [] then Some(s)
    else
      match Next(cfg, s, ls[0])
      case None => None
      case Some(s') => Steps(cfg, s', ls[1..])
  }

  const START := State(Books(map[], []), map[], 0, map[], map[])

  // ---- The invariant ----

  ghost predicate Unique(ids: seq<Id>) {
    forall i, j :: 0 <= i < j < |ids| ==> ids[i] != ids[j]
  }

  /** How often an event has failed tells whether it is still alive. */
  ghost predicate EventOk(e: Event, maxAttempts: nat) {
    && (e.status == Pending ==> e.attempts < maxAttempts)
    && (e.status == Dead ==> e.attempts == maxAttempts)
  }

  /** An audit row exists if and only if the event is processed, and then once. */
  ghost predicate BooksOk(b: Books, maxAttempts: nat) {
    && (forall id :: id in b.events ==> EventOk(b.events[id], maxAttempts))
    && (forall id :: id in b.audit <==> id in b.events && b.events[id].status == Processed)
    && Unique(b.audit)
  }

  /** One dispatch: processed, or one more failed attempt. */
  ghost predicate Dispatched(e: Event, e': Event, maxAttempts: nat) {
    || e' == e.(status := Processed)
    || (e'.kind == e.kind && e'.attempts == e.attempts + 1
        && e'.status == if e.attempts + 1 >= maxAttempts then Dead else Pending)
  }

  ghost predicate PollOk(s: State, p: Poll, maxAttempts: nat) {
    && p.done <= |p.batch| && InIdOrder(p.batch)
    && (forall id :: id in p.batch ==> id in s.books.events && s.books.events[id].status == Pending)
    && p.changed.Keys == (set i | 0 <= i < p.done :: p.batch[i])
    && (forall id :: id in p.changed ==>
          id in p.batch && Dispatched(s.books.events[id], p.changed[id], maxAttempts))
    && (forall id :: id in p.rows <==> id in p.changed && p.changed[id].status == Processed)
    && Unique(p.rows)
  }

  ghost predicate Disjoint(s: State) {
    forall r, q, id :: r in s.polls && q in s.polls && r != q && id in s.polls[r].batch ==> id !in s.polls[q].batch
  }

  ghost predicate FailuresOk(s: State) {
    s.failures.Keys == s.books.events.Keys && forall id :: id in s.failures ==> s.failures[id] == s.books.events[id].attempts
  }

  ghost predicate Invariant(cfg: Settings, s: State) {
    && BooksOk(s.books, cfg.maxAttempts)
    && (forall r :: r in s.polls ==> PollOk(s, s.polls[r], cfg.maxAttempts))
    && Disjoint(s) && FailuresOk(s)
  }

  lemma {:induction false} PollElsewhere(s: State, s': State, p: Poll, maxAttempts: nat)
    requires PollOk(s, p, maxAttempts)
    requires forall id :: id in p.batch ==> id in s'.books.events && s'.books.events[id] == s.books.events[id]
    ensures PollOk(s', p, maxAttempts)
  {}

  /** What dispatching one pending event alone does to it and to the audit rows. */
  lemma {:induction false} OneDispatched(b: Books, id: Id, cfg: Settings, a: Attempt, now: int)
    requires id in b.events && b.events[id].status == Pending && id !in b.audit
    ensures var b' := HandleOne(b, id, cfg.handlers, cfg.maxAttempts, a, now);
      && b'.events.Keys == b.events.Keys
      && Dispatched(b.events[id], b'.events[id], cfg.maxAttempts)
      && (|b'.audit| > |b.audit| <==> b'.events[id].status == Processed)
  {}

  lemma {:induction false} SnocUnique(rows: seq<Id>, id: Id)
    requires Unique(rows) && id !in rows
    ensures Unique(rows + [id])
  {}

  /** The dispatched event joins the poll's changed rows. */
  lemma {:induction false} ChangedKeeps(s: State, p: Poll, e: Event, rows: seq<Id>, maxAttempts: nat)
    requires PollOk(s, p, maxAttempts) && p.done < |p.batch|
    requires Dispatched(s.books.events[p.batch[p.done]], e, maxAttempts)
    requires rows == if e.status == Processed then p.rows + [p.batch[p.done]] else p.rows
    ensures PollOk(s, Poll(p.batch, p.done + 1, p.changed[p.batch[p.done] := e], rows, p.startedAt), maxAttempts)
  {
    var id := p.batch[p.done];
    assert id !in p.changed;
    assert (set i | 0 <= i < p.done + 1 :: p.batch[i]) == (set i | 0 <= i < p.done :: p.batch[i]) + {id};
    assert id !in p.rows;
    SnocUnique(p.rows, id);
  }

  lemma {:induction false} DispatchPoll(cfg: Settings, s: State, p: Poll, a: Attempt)
    requires BooksOk(s.books, cfg.maxAttempts) && PollOk(s, p, cfg.maxAttempts) && p.done < |p.batch|
    ensures p.batch[p.done] in View(s, p).events && PollOk(s, DispatchNext(cfg, s, p, a), cfg.maxAttempts)
  {
    var id := p.batch[p.done];
    assert id in p.batch && id !in p.changed;
    var before := View(s, p);
    assert before.events[id] == s.books.events[id];
    assert id !in before.audit;
    OneDispatched(before, id, cfg, a, p.startedAt);
    var p' := DispatchNext(cfg, s, p, a);
    ChangedKeeps(s, p, p'.changed[id], p'.rows, cfg.maxAttempts);
  }

  lemma {:induction false} CommitBooks(cfg: Settings, s: State, p: Poll)
    requires BooksOk(s.books, cfg.maxAttempts) && PollOk(s, p, cfg.maxAttempts) && cfg.maxAttempts >= 1
    ensures BooksOk(View(s, p), cfg.maxAttempts)
  {
    var b := View(s, p);
    forall id | id in b.events ensures EventOk(b.events[id], cfg.maxAttempts) {
      if id in p.changed { assert EventOk(s.books.events[id], cfg.maxAttempts); }
    }
    forall id ensures id in b.audit <==> id in b.events && b.events[id].status == Processed {
      assert id in b.audit <==> id in s.books.audit || id in p.rows;
    }
    forall i, j | 0 <= i < j < |b.audit| ensures b.audit[i] != b.audit[j] {
      if i < |s.books.audit| <= j {
        assert b.audit[i] in s.books.audit && b.audit[j] in p.rows;
      }
    }
  }

  lemma {:induction false} CommitFailures(cfg: Settings, s: State, p: Poll)
    requires FailuresOk(s) && PollOk(s, p, cfg.maxAttempts)
    ensures FailuresOk(s.(books := View(s, p), failures := Failures(s, p)))
  {}

  lemma {:induction false} CommitKeeps(cfg: Settings, s: State, r: nat)
    requires Invariant(cfg, s) && cfg.maxAttempts >= 1 && Next(cfg, s, Commit(r)).Some?
    ensures Invariant(cfg, Next(cfg, s, Commit(r)).value)
  {
    var p := s.polls[r];
    var s' := Next(cfg, s, Commit(r)).value;
    CommitBooks(cfg, s, p);
    CommitFailures(cfg, s, p);
    forall q | q in s'.polls ensures PollOk(s', s'.polls[q], cfg.maxAttempts) {
      PollElsewhere(s, s', s.polls[q], cfg.maxAttempts);
    }
  }

  /** A step that leaves the books alone and changes at most the poll of `r`, or ends it. */
  lemma {:induction false} QuietKeeps(cfg: Settings, s: State, s': State, r: nat)
    requires Invariant(cfg, s) && s'.books == s.books && s'.failures == s.failures
    requires s'.polls.Keys <= s.polls.Keys + {r}
    requires forall q :: q in s'.polls && q != r ==> q in s.polls && s'.polls[q] == s.polls[q]
    requires r in s'.polls ==> PollOk(s, s'.polls[r], cfg.maxAttempts)
    requires r in s'.polls ==>
      forall q, id :: q in s.polls && q != r && id in s'.polls[r].batch ==> id !in s.polls[q].batch
    ensures Invariant(cfg, s')
  {
    forall q | q in s'.polls ensures PollOk(s', s'.polls[q], cfg.maxAttempts) {
      PollElsewhere(s, s', s'.polls[q], cfg.maxAttempts);
    }
  }

  lemma {:induction false} AppendKeeps(cfg: Settings, s: State, id: Id, kind: Kind)
    requires Invariant(cfg, s) && cfg.maxAttempts >= 1 && Next(cfg, s, Append(id, kind)).Some?
    ensures Invariant(cfg, Next(cfg, s, Append(id, kind)).value)
  {
    var s' := Next(cfg, s, Append(id, kind)).value;
    forall q | q in s'.polls ensures PollOk(s', s'.polls[q], cfg.maxAttempts) {
      PollElsewhere(s, s', s.polls[q], cfg.maxAttempts);
    }
  }

  lemma {:induction false} ClaimKeeps(cfg: Settings, s: State, r: nat, batch: seq<Id>)
    requires Invariant(cfg, s) && Next(cfg, s, Claim(r, batch)).Some?
    ensures Invariant(cfg, Next(cfg, s, Claim(r, batch)).value)
  {
    var p := Poll(batch, 0, map[], [], s.now);
    assert IsBatch(s.books.events, Locked(s), s.now, cfg.batchSize, batch);
    assert PollOk(s, p, cfg.maxAttempts);
    forall q, id | q in s.polls && id in s.polls[q].batch ensures id in Locked(s) {}
    QuietKeeps(cfg, s, s.(polls := s.polls[r := p]), r);
  }

  lemma {:induction false} DispatchKeeps(cfg: Settings, s: State, r: nat, a: Attempt)
    requires Invariant(cfg, s) && Next(cfg, s, Dispatch(r, a)).Some?
    ensures Invariant(cfg, Next(cfg, s, Dispatch(r, a)).value)
  {
    DispatchPoll(cfg, s, s.polls[r], a);
    SameBatchKeeps(cfg, s, r, DispatchNext(cfg, s, s.polls[r], a));
  }

  lemma {:induction false} SameBatchKeeps(cfg: Settings, s: State, r: nat, p: Poll)
    requires Invariant(cfg, s) && r in s.polls && p.batch == s.polls[r].batch && PollOk(s, p, cfg.maxAttempts)
    ensures Invariant(cfg, s.(polls := s.polls[r := p]))
  {
    QuietKeeps(cfg, s, s.(polls := s.polls[r := p]), r);
  }

  lemma {:induction false} CrashKeeps(cfg: Settings, s: State, r: nat)
    requires Invariant(cfg, s)
    ensures Invariant(cfg, s.(polls := s.polls - {r}))
  {
    QuietKeeps(cfg, s, s.(polls := s.polls - {r}), r);
  }

  lemma {:induction false} TickKeeps(cfg: Settings, s: State, ms: nat)
    requires Invariant(cfg, s)
    ensures Invariant(cfg, s.(now := s.now + ms))
  {
    QuietKeeps(cfg, s, s.(now := s.now + ms), 0);
  }

  lemma {:induction false} NextKeeps(cfg: Settings, s: State, l: Label)
    requires Invariant(cfg, s) && cfg.maxAttempts >= 1 && Next(cfg, s, l).Some?
    ensures Invariant(cfg, Next(cfg, s, l).value)
  {
    match l
    case Append(id, kind) => AppendKeeps(cfg, s, id, kind);
    case Claim(r, batch) => ClaimKeeps(cfg, s, r, batch);
    case Dispatch(r, a) => DispatchKeeps(cfg, s, r, a);
    case Commit(r) => CommitKeeps(cfg, s, r);
    case Crash(r) => CrashKeeps(cfg, s, r);
    case Tick(ms) => TickKeeps(cfg, s, ms);
  }

  lemma {:induction false} StepsKeep(cfg: Settings, s: State, ls: seq<Label>)
    requires Invariant(cfg, s) && cfg.maxAttempts >= 1 && Steps(cfg, s, ls).Some?
    ensures Invariant(cfg, Steps(cfg, s, ls).value)
    decreases |ls|
  {
    if ls != [] {
      NextKeeps(cfg, s, ls[0]);
      StepsKeep(cfg, Next(cfg, s, ls[0]).value, ls[1..]);
    }
  }

  // ---- Main results ----

  /**
   In every state any number of relays can reach: no event is in two polls; an event is
   processed if and only if it has an audit row, and it has one at most; a pending event
   has failed fewer than the allowed times, a dead one exactly that many; and `attempts`
   is the number of failed dispatches that were committed, whatever crashed in between.
   */
  lemma {:induction false} EveryRun(cfg: Settings, ls: seq<Label>, id: Id)
    requires cfg.maxAttempts >= 1 && Steps(cfg, START, ls).Some?
    ensures var s := Steps(cfg, START, ls).value;
      && (forall r, q :: r in s.polls && q in s.polls && id in s.polls[r].batch && id in s.polls[q].batch ==> r == q)
      && multiset(s.books.audit)[id] == (if id in s.books.events && s.books.events[id].status == Processed then 1 else 0)
      && (id in s.books.events ==>
            var e := s.books.events[id];
            && id in s.failures && e.attempts == s.failures[id]
            && (e.status != Processed ==> (e.status == Dead <==> s.failures[id] == cfg.maxAttempts))
            && (e.status == Pending ==> s.failures[id] < cfg.maxAttempts))
  {
    StepsKeep(cfg, START, ls);
    var s := Steps(cfg, START, ls).value;
    assert BooksOk(s.books, cfg.maxAttempts);
    UniqueCount(s.books.audit, id);
    if id in s.books.events { assert EventOk(s.books.events[id], cfg.maxAttempts); }
  }

  lemma {:induction false} UniqueCount(ids: seq<Id>, id: Id)
    requires Unique(ids)
    ensures multiset(ids)[id] == if id in ids then 1 else 0
  {
    if ids != [] {
      assert ids == [ids[0]] + ids[1..];
      UniqueCount(ids[1..], id);
    }
  }

  /** An event that is no longer pending never changes again; attempts and audit rows only grow. */
  ghost predicate Onwards(b: Books, b': Books) {
    && b.audit <= b'.audit
    && forall id :: id in b.events ==>
         && id in b'.events
         && (b.events[id].status != Pending ==> b'.events[id] == b.events[id])
         && b.events[id].attempts <= b'.events[id].attempts
  }

  lemma {:induction false} OnlyOnwards(cfg: Settings, s: State, ls: seq<Label>)
    requires Invariant(cfg, s) && cfg.maxAttempts >= 1 && Steps(cfg, s, ls).Some?
    ensures Onwards(s.books, Steps(cfg, s, ls).value.books)
    decreases |ls|
  {
    if ls != [] {
      var s' := Next(cfg, s, ls[0]).value;
      NextKeeps(cfg, s, ls[0]);
      if ls[0].Commit? { CommitOnwards(cfg, s, s.polls[ls[0].r]); }
      OnlyOnwards(cfg, s', ls[1..]);
    }
  }

  /** From any reachable state on: status only leaves pending, once, and nothing settled or recorded is undone. */
  lemma {:induction false} EventsOnlySettle(cfg: Settings, before: seq<Label>, after: seq<Label>)
    requires cfg.maxAttempts >= 1 && Steps(cfg, START, before).Some?
    requires Steps(cfg, Steps(cfg, START, before).value, after).Some?
    ensures var s := Steps(cfg, START, before).value; Onwards(s.books, Steps(cfg, s, after).value.books)
  {
    StepsKeep(cfg, START, before);
    OnlyOnwards(cfg, Steps(cfg, START, before).value, after);
  }

  lemma {:induction false} CommitOnwards(cfg: Settings, s: State, p: Poll)
    requires PollOk(s, p, cfg.maxAttempts)
    ensures Onwards(s.books, View(s, p))
  {}

  // ---- A poll is the relay's loop ----

  function Dispatches(r: nat, batch: seq<Id>, script: map<Id, Attempt>): seq<Label>
    requires forall id :: id in batch ==> id in script
  {
    if batch == [] then [] else [Dispatch(r, script[batch[0]])] + Dispatches(r, batch[1..], script)
  }

  lemma {:induction false} DispatchView(cfg: Settings, s: State, p: Poll, a: Attempt)
    requires p.done < |p.batch| && p.batch[p.done] in View(s, p).events
    ensures View(s, DispatchNext(cfg, s, p, a))
         == HandleOne(View(s, p), p.batch[p.done], cfg.handlers, cfg.maxAttempts, a, p.startedAt)
  {
    var id := p.batch[p.done];
    var after := HandleOne(View(s, p), id, cfg.handlers, cfg.maxAttempts, a, p.startedAt);
    assert s.books.events + p.changed[id := after.events[id]] == (s.books.events + p.changed)[id := after.events[id]];
    assert s.books.audit + (p.rows + [id]) == s.books.audit + p.rows + [id];
  }

  /** Dispatching the rest of a poll's batch, step by step, is handling it in one go. */
  lemma {:induction false} PollHandlesAll(cfg: Settings, s: State, r: nat, rest: seq<Id>, script: map<Id, Attempt>)
    requires r in s.polls && s.polls[r].done <= |s.polls[r].batch| && rest == s.polls[r].batch[s.polls[r].done..]
    requires forall id :: id in rest ==> id in View(s, s.polls[r]).events && id in script && Fair(script[id])
    ensures var end := Steps(cfg, s, Dispatches(r, rest, script));
      && end.Some? && r in end.value.polls && end.value.polls[r].done == |end.value.polls[r].batch|
      && View(end.value, end.value.polls[r])
         == HandleAll(View(s, s.polls[r]), rest, cfg.handlers, cfg.maxAttempts, script, s.polls[r].startedAt)
    decreases |rest|
  {
    if rest != [] {
      var p := s.polls[r];
      var id := rest[0];
      assert id in rest && id == p.batch[p.done];
      DispatchView(cfg, s, p, script[id]);
      var s' := s.(polls := s.polls[r := DispatchNext(cfg, s, p, script[id])]);
      assert Next(cfg, s, Dispatch(r, script[id])) == Some(s');
      assert rest[1..] == p.batch[p.done + 1..];
      assert forall i :: i in rest[1..] ==> i in rest;
      PollHandlesAll(cfg, s', r, rest[1..], script);
      assert Dispatches(r, rest, script)[1..] == Dispatches(r, rest[1..], script);
    }
  }

  // ---- The queue drains ----

  /** How many more failures an event can take. */
  function Weight(e: Event, maxAttempts: nat): nat {
    if e.status == Pending && e.attempts < maxAttempts then maxAttempts - e.attempts else 0
  }

  ghost function Potential(events: map<Id, Event>, maxAttempts: nat): nat
    decreases |events|
  {
    if events == map[] then 0
    else
      var id :| id in events;
      Weight(events[id], maxAttempts) + Potential(events - {id}, maxAttempts)
  }

  lemma {:induction false} PotentialAt(events: map<Id, Event>, id: Id, maxAttempts: nat)
    requires id in events
    ensures Potential(events, maxAttempts) == Weight(events[id], maxAttempts) + Potential(events - {id}, maxAttempts)
    decreases |events|
  {
    var i :| i in events && Potential(events, maxAttempts) ==
      Weight(events[i], maxAttempts) + Potential(events - {i}, maxAttempts);
    if i != id {
      PotentialAt(events - {i}, id, maxAttempts);
      PotentialAt(events - {id}, i, maxAttempts);
      assert events - {i} - {id} == events - {id} - {i};
    }
  }

  ghost predicate Lighter(changed: map<Id, Event>, events: map<Id, Event>, maxAttempts: nat) {
    changed.Keys <= events.Keys
    && forall id :: id in changed ==> Weight(changed[id], maxAttempts) < Weight(events[id], maxAttempts)
  }

  lemma {:induction false} LighterWithout(changed: map<Id, Event>, events: map<Id, Event>, maxAttempts: nat, id: Id)
    requires Lighter(changed, events, maxAttempts) && id in changed
    ensures Lighter(changed - {id}, events - {id}, maxAttempts)
  {}

  lemma {:induction false} WithoutOne(changed: map<Id, Event>, events: map<Id, Event>, id: Id)
    requires id in changed && changed.Keys <= events.Keys
    ensures (events + changed) - {id} == (events - {id}) + (changed - {id})
    ensures |changed - {id}| == |changed| - 1
  {
    assert (changed - {id}).Keys == changed.Keys - {id};
    assert |(changed - {id}).Keys| == |changed.Keys| - 1;
  }

  /** Every changed event loses at least one. */
  lemma {:induction false} PotentialDrops(events: map<Id, Event>, changed: map<Id, Event>, maxAttempts: nat)
    requires Lighter(changed, events, maxAttempts)
    ensures Potential(events + changed, maxAttempts) + |changed| <= Potential(events, maxAttempts)
    decreases |changed|
  {
    if changed == map[] {
      assert events + changed == events;
    } else {
      var id :| id in changed;
      PotentialAt(events, id, maxAttempts);
      PotentialAt(events + changed, id, maxAttempts);
      LighterWithout(changed, events, maxAttempts, id);
      WithoutOne(changed, events, id);
      PotentialDrops(events - {id}, changed - {id}, maxAttempts);
    }
  }

  lemma {:induction false} BatchSize(batch: seq<Id>, n: nat)
    requires InIdOrder(batch) && n <= |batch|
    ensures |set i | 0 <= i < n :: batch[i]| == n
  {
    if n > 0 {
      BatchSize(batch, n - 1);
      assert (set i | 0 <= i < n :: batch[i]) == (set i | 0 <= i < n - 1 :: batch[i]) + {batch[n - 1]};
    }
  }

  lemma {:induction false} DispatchedLighter(e: Event, e': Event, maxAttempts: nat)
    requires EventOk(e, maxAttempts) && e.status == Pending && Dispatched(e, e', maxAttempts)
    ensures Weight(e', maxAttempts) < Weight(e, maxAttempts)
  {}

  lemma {:induction false} PollLighter(s: State, p: Poll, maxAttempts: nat)
    requires PollOk(s, p, maxAttempts) && p.done == |p.batch|
    requires forall id :: id in s.books.events ==> EventOk(s.books.events[id], maxAttempts)
    ensures Lighter(p.changed, s.books.events, maxAttempts) && |p.changed| == |p.batch|
  {
    forall id | id in p.changed ensures Weight(p.changed[id], maxAttempts) < Weight(s.books.events[id], maxAttempts) {
      DispatchedLighter(s.books.events[id], p.changed[id], maxAttempts);
    }
    BatchSize(p.batch, |p.batch|);
    assert |p.changed| == |p.changed.Keys|;
  }

  /** A committed poll takes at least one from the potential for every event it claimed. */
  lemma {:induction false} CommitDrains(cfg: Settings, s: State, r: nat)
    requires Invariant(cfg, s) && Next(cfg, s, Commit(r)).Some?
    ensures Potential(Next(cfg, s, Commit(r)).value.books.events, cfg.maxAttempts) + |s.polls[r].batch|
              <= Potential(s.books.events, cfg.maxAttempts)
  {
    PollLighter(s, s.polls[r], cfg.maxAttempts);
    PotentialDrops(s.books.events, s.polls[r].changed, cfg.maxAttempts);
  }

  /** How many events the committed polls of a run had claimed. */
  function Handled(cfg: Settings, s: State, ls: seq<Label>): nat
    requires Steps(cfg, s, ls).Some?
    decreases |ls|
  {
    if ls == [] then 0
    else (if ls[0].Commit? then |s.polls[ls[0].r].batch| else 0) + Handled(cfg, Next(cfg, s, ls[0]).value, ls[1..])
  }

  /** With no new events, however relays interleave and crash, the potential pays for all they commit. */
  lemma {:induction false} Drains(cfg: Settings, s: State, ls: seq<Label>)
    requires Invariant(cfg, s) && cfg.maxAttempts >= 1 && Steps(cfg, s, ls).Some?
    requires forall l :: l in ls ==> !l.Append?
    ensures Handled(cfg, s, ls) + Potential(Steps(cfg, s, ls).value.books.events, cfg.maxAttempts)
              <= Potential(s.books.events, cfg.maxAttempts)
    decreases |ls|
  {
    if ls != [] {
      NextKeeps(cfg, s, ls[0]);
      if ls[0].Commit? { CommitDrains(cfg, s, ls[0].r); }
      assert forall l :: l in ls[1..] ==> l in ls;
      Drains(cfg, Next(cfg, s, ls[0]).value, ls[1..]);
    }
  }

  /**
   From any reachable state, once nothing new comes in, relays can commit at most as many
   dispatches as the pending events have attempts left between them: the queue drains.
   */
  lemma {:induction false} QueueDrains(cfg: Settings, before: seq<Label>, after: seq<Label>)
    requires cfg.maxAttempts >= 1 && Steps(cfg, START, before).Some?
    requires Steps(cfg, Steps(cfg, START, before).value, after).Some? && forall l :: l in after ==> !l.Append?
    ensures var s := Steps(cfg, START, before).value;
      Handled(cfg, s, after) + Potential(Steps(cfg, s, after).value.books.events, cfg.maxAttempts)
        <= Potential(s.books.events, cfg.maxAttempts)
  {
    StepsKeep(cfg, START, before);
    Drains(cfg, Steps(cfg, START, before).value, after);
  }

  /** The potential is spent exactly when nothing is pending. */
  lemma {:induction false} SpentWhenDrained(events: map<Id, Event>, maxAttempts: nat)
    requires forall id :: id in events ==> EventOk(events[id], maxAttempts)
    ensures Potential(events, maxAttempts) == 0 <==> forall id :: id in events ==> events[id].status != Pending
    decreases |events|
  {
    if events != map[] {
      var id :| id in events;
      PotentialAt(events, id, maxAttempts);
      SpentWhenDrained(events - {id}, maxAttempts);
      assert EventOk(events[id], maxAttempts);
      if Potential(events, maxAttempts) == 0 {
        assert forall i :: i in events ==> i == id || i in events - {id};
      }
    }
  }

  // ---- Failures do not block others ----

  /** The failures a poll is about to commit keep their events away for 150 ms to 37.5 s from its start. */
  predicate Delayed(p: Poll) {
    forall id :: id in p.changed && p.changed[id].status == Pending ==>
      p.changed[id].nextAttemptAt.Some?
      && p.startedAt + 150 <= p.changed[id].nextAttemptAt.value <= p.startedAt + 37500
  }

  /** An event still alive after a failure is due between 150 ms and 37.5 s after the start of the poll it failed in. */
  predicate Spaced(s: State) {
    forall id :: id in s.failedAt ==>
      && id in s.books.events
      && (s.books.events[id].status == Pending ==>
            s.books.events[id].nextAttemptAt.Some?
            && s.failedAt[id] + 150 <= s.books.events[id].nextAttemptAt.value <= s.failedAt[id] + 37500)
  }

  /** `failedAt` knows exactly the events that have failed. */
  ghost predicate FailedKnown(s: State) {
    forall id :: id in s.failedAt <==> id in s.failures && s.failures[id] > 0
  }

  ghost predicate Retries(s: State) {
    Spaced(s) && FailedKnown(s) && forall r :: r in s.polls ==> Delayed(s.polls[r])
  }

  lemma {:induction false} FailedStepsAside(e: Event, maxAttempts: nat, a: Attempt, now: int)
    requires Fair(a)
    ensures var e' := FailedEvent(e, maxAttempts, a.jitter, now);
      e'.status == Pending && e.status == Pending ==>
        e'.nextAttemptAt.Some? && now + 150 <= e'.nextAttemptAt.value <= now + 37500
  {
    BackoffBounds(e.attempts + 1, a.jitter);
  }

  lemma {:induction false} DispatchDelayed(cfg: Settings, s: State, p: Poll, a: Attempt)
    requires PollOk(s, p, cfg.maxAttempts) && Delayed(p) && Fair(a)
    requires p.done < |p.batch| && p.batch[p.done] in View(s, p).events
    ensures Delayed(DispatchNext(cfg, s, p, a))
  {
    var id := p.batch[p.done];
    assert id in p.batch && id !in p.changed;
    FailedStepsAside(s.books.events[id], cfg.maxAttempts, a, p.startedAt);
  }

  lemma {:induction false} CommitSpaced(s: State, p: Poll)
    requires Spaced(s) && Delayed(p) && p.changed.Keys <= s.books.events.Keys
    ensures Spaced(s.(books := View(s, p), failedAt := FailedAt(s, p)))
  {}

  lemma {:induction false} CommitKnown(cfg: Settings, s: State, p: Poll)
    requires FailedKnown(s) && FailuresOk(s) && PollOk(s, p, cfg.maxAttempts)
    ensures FailedKnown(s.(failures := Failures(s, p), failedAt := FailedAt(s, p)))
  {}

  lemma {:induction false} AppendRetries(cfg: Settings, s: State, id: Id, kind: Kind)
    requires FailuresOk(s) && Retries(s) && Next(cfg, s, Append(id, kind)).Some?
    ensures Retries(Next(cfg, s, Append(id, kind)).value)
  {}

  /** A step that touches neither the books nor the history, and at most one poll. */
  lemma {:induction false} QuietRetries(s: State, s': State, r: nat)
    requires Retries(s) && s'.books == s.books && s'.failures == s.failures && s'.failedAt == s.failedAt
    requires forall q :: q in s'.polls && q != r ==> q in s.polls && s'.polls[q] == s.polls[q]
    requires r in s'.polls ==> Delayed(s'.polls[r])
    ensures Retries(s')
  {}

  lemma {:induction false} CommitRetries(cfg: Settings, s: State, r: nat)
    requires FailuresOk(s) && Retries(s) && r in s.polls && PollOk(s, s.polls[r], cfg.maxAttempts)
    requires Next(cfg, s, Commit(r)).Some?
    ensures Retries(Next(cfg, s, Commit(r)).value)
  {
    CommitSpaced(s, s.polls[r]);
    CommitKnown(cfg, s, s.polls[r]);
  }

  lemma {:induction false} ClaimRetries(cfg: Settings, s: State, r: nat, batch: seq<Id>)
    requires Retries(s) && Next(cfg, s, Claim(r, batch)).Some?
    ensures Retries(Next(cfg, s, Claim(r, batch)).value)
  {
    QuietRetries(s, s.(polls := s.polls[r := Poll(batch, 0, map[], [], s.now)]), r);
  }

  lemma {:induction false} DispatchRetries(cfg: Settings, s: State, r: nat, a: Attempt)
    requires Retries(s) && r in s.polls && PollOk(s, s.polls[r], cfg.maxAttempts)
    requires Next(cfg, s, Dispatch(r, a)).Some?
    ensures Retries(Next(cfg, s, Dispatch(r, a)).value)
  {
    assert Delayed(s.polls[r]);
    DispatchDelayed(cfg, s, s.polls[r], a);
    QuietRetries(s, s.(polls := s.polls[r := DispatchNext(cfg, s, s.polls[r], a)]), r);
  }

  lemma {:induction false} CrashRetries(s: State, r: nat)
    requires Retries(s)
    ensures Retries(s.(polls := s.polls - {r}))
  {
    QuietRetries(s, s.(polls := s.polls - {r}), r);
  }

  lemma {:induction false} TickRetries(s: State, ms: nat)
    requires Retries(s)
    ensures Retries(s.(now := s.now + ms))
  {}

  lemma {:induction false} NextRetries(cfg: Settings, s: State, l: Label)
    requires Invariant(cfg, s) && Retries(s) && Next(cfg, s, l).Some?
    ensures Retries(Next(cfg, s, l).value)
  {
    match l
    case Append(id, kind) => AppendRetries(cfg, s, id, kind);
    case Claim(r, batch) => ClaimRetries(cfg, s, r, batch);
    case Dispatch(r, a) => DispatchRetries(cfg, s, r, a);
    case Commit(r) => CommitRetries(cfg, s, r);
    case Crash(r) => CrashRetries(s, r);
    case Tick(ms) => TickRetries(s, ms);
  }

  lemma {:induction false} StepsRetries(cfg: Settings, s: State, ls: seq<Label>)
    requires Invariant(cfg, s) && Retries(s) && cfg.maxAttempts >= 1 && Steps(cfg, s, ls).Some?
    ensures Retries(Steps(cfg, s, ls).value)
    decreases |ls|
  {
    if ls != [] {
      NextKeeps(cfg, s, ls[0]);
      NextRetries(cfg, s, ls[0]);
      StepsRetries(cfg, Next(cfg, s, ls[0]).value, ls[1..]);
    }
  }

  /**
   In no run does a poll claim an event that has failed before, unless its last committed
   failure came from a poll that started at least 150 ms earlier.
   */
  lemma {:induction false} NoEarlyRetry(cfg: Settings, ls: seq<Label>, r: nat, batch: seq<Id>, id: Id)
    requires cfg.maxAttempts >= 1 && Steps(cfg, START, ls).Some?
    requires Next(cfg, Steps(cfg, START, ls).value, Claim(r, batch)).Some? && id in batch
    ensures var s := Steps(cfg, START, ls).value;
      && id in s.failures
      && (s.failures[id] > 0 ==> id in s.failedAt && s.now >= s.failedAt[id] + 150)
  {
    StepsKeep(cfg, START, ls);
    StepsRetries(cfg, START, ls);
    var s := Steps(cfg, START, ls).value;
    assert CanClaim(s, id) && FailuresOk(s);
  }

  /** Nor is a failed event forgotten: while it lives, it is due again 37.5 s after that poll started. */
  lemma {:induction false} RetriedInTime(cfg: Settings, ls: seq<Label>, id: Id)
    requires cfg.maxAttempts >= 1 && Steps(cfg, START, ls).Some?
    requires var s := Steps(cfg, START, ls).value;
      && id in s.failedAt && s.now >= s.failedAt[id] + 37500
      && id in s.books.events && s.books.events[id].status == Pending
      && forall r :: r in s.polls ==> id !in s.polls[r].batch
    ensures CanClaim(Steps(cfg, START, ls).value, id)
  {
    StepsKeep(cfg, START, ls);
    StepsRetries(cfg, START, ls);
  }

  /** A poll takes an eligible event unless a full batch of eligible events comes before it. */
  lemma {:induction false} ClaimedInTurn(s: State, batch: seq<Id>, limit: nat, id: Id)
    requires IsBatch(s.books.events, Locked(s), s.now, limit, batch) && CanClaim(s, id)
    requires |set i | i in s.books.events && CanClaim(s, i) && i < id :: i| < limit
    ensures id in batch
  {
    var earlier := set i | i in s.books.events && CanClaim(s, i) && i < id :: i;
    if id !in batch {
      var all := set i | 0 <= i < |batch| :: batch[i];
      BatchSize(batch, |batch|);
      forall i | 0 <= i < |batch| ensures batch[i] in earlier {
        assert batch[i] in batch;
      }
      SubsetSize(all, earlier);
      assert false;
    }
  }

  // ---- How long an event can be passed over ----

  function Commits(ls: seq<Label>): nat {
    if ls == [] then 0 else (if ls[0].Commit? then 1 else 0) + Commits(ls[1..])
  }

  /** The polls that hold less than a full batch. */
  function Partial(cfg: Settings, s: State): set<nat> {
    set r | r in s.polls && |s.polls[r].batch| != cfg.batchSize
  }

  /** No poll of the run takes the event. */
  predicate NeverTaken(ls: seq<Label>, id: Id) {
    forall l :: l in ls && l.Claim? ==> id !in l.batch
  }

  /** One step past an event that could be claimed: it stays so. */
  lemma {:induction false} StaysClaimable(cfg: Settings, s: State, l: Label, id: Id)
    requires Invariant(cfg, s) && Next(cfg, s, l).Some? && !l.Append?
    requires CanClaim(s, id) && (l.Claim? ==> id !in l.batch)
    ensures var s' := Next(cfg, s, l).value; CanClaim(s', id) && s'.books.events[id] == s.books.events[id]
  {
    forall r, i | r in s.polls && i in s.polls[r].batch ensures i in Locked(s) {}
    var s' := Next(cfg, s, l).value;
    forall r | r in s'.polls ensures id !in s'.polls[r].batch {}
    assert id !in Locked(s');
    if l.Commit? { assert PollOk(s, s.polls[l.r], cfg.maxAttempts); }
  }

  /** And only full batches are claimed ahead of it. */
  lemma {:induction false} OnlyFullAhead(cfg: Settings, s: State, l: Label, id: Id)
    requires Next(cfg, s, l).Some? && CanClaim(s, id) && (l.Claim? ==> id !in l.batch)
    ensures Partial(cfg, Next(cfg, s, l).value) <= Partial(cfg, s)
    ensures l.Commit? ==> l.r !in Partial(cfg, Next(cfg, s, l).value)
  {}

  /** `n` batches of `b`. */
  function Slots(n: nat, b: nat): nat {
    if n == 0 then 0 else b + Slots(n - 1, b)
  }

  lemma {:induction false} SlotsAre(n: nat, b: nat)
    ensures Slots(n, b) == n * b
  {
    if n > 0 {
      SlotsAre(n - 1, b);
      assert n * b == (n - 1) * b + b;
    }
  }

  lemma {:induction false} SlotsGrow(x: nat, y: nat, b: nat)
    requires x <= y
    ensures Slots(x, b) <= Slots(y, b) && (x < y ==> Slots(x, b) + b <= Slots(y, b))
  {
    if x < y { SlotsGrow(x, y - 1, b); }
  }

  lemma {:induction false} RunPast(cfg: Settings, s: State, ls: seq<Label>, id: Id)
    requires Invariant(cfg, s) && cfg.maxAttempts >= 1 && Steps(cfg, s, ls).Some?
    requires (forall l :: l in ls ==> !l.Append?) && CanClaim(s, id) && NeverTaken(ls, id)
    ensures var end := Steps(cfg, s, ls).value; CanClaim(end, id) && end.books.events[id] == s.books.events[id]
    ensures Slots(Commits(ls), cfg.batchSize) <= Handled(cfg, s, ls) + Slots(|Partial(cfg, s)|, cfg.batchSize)
    decreases |ls|
  {
    if ls != [] {
      var l, rest := ls[0], ls[1..];
      var s' := Next(cfg, s, l).value;
      assert l in ls && forall x :: x in rest ==> x in ls;
      StaysClaimable(cfg, s, l, id);
      OnlyFullAhead(cfg, s, l, id);
      NextKeeps(cfg, s, l);
      RunPast(cfg, s', rest, id);
      CommitSlots(cfg, s, s', l);
    }
  }

  /** A committed poll handles a full batch, or is one of the partial ones. */
  lemma {:induction false} CommitSlots(cfg: Settings, s: State, s': State, l: Label)
    requires Partial(cfg, s') <= Partial(cfg, s)
    requires l.Commit? ==> l.r in s.polls && l.r !in Partial(cfg, s')
    ensures var b := cfg.batchSize;
      var before, after := Slots(|Partial(cfg, s)|, b), Slots(|Partial(cfg, s')|, b);
      if l.Commit? then b + after <= |s.polls[l.r].batch| + before else after <= before
  {
    var before, after := Partial(cfg, s), Partial(cfg, s');
    if l.Commit? && l.r in before {
      SubsetSize(after, before - {l.r});
    } else {
      SubsetSize(after, before);
    }
    SlotsGrow(|after|, |before|, cfg.batchSize);
  }

  /**
   Failing events do not hold the others up. From any reachable state with nothing new
   coming in, as long as polls pass over an event that is due, what they have handled leaves
   that event's own attempts untouched in the potential, and every poll that commits, except
   those under way at the start, has handled a full batch. So at most
   (potential - its attempts left) / batch size polls commit before the event is taken.
   */
  lemma {:induction false} NotHeldUp(cfg: Settings, before: seq<Label>, after: seq<Label>, id: Id)
    requires cfg.maxAttempts >= 1 && Steps(cfg, START, before).Some?
    requires var s := Steps(cfg, START, before).value; CanClaim(s, id) && Steps(cfg, s, after).Some?
    requires (forall l :: l in after ==> !l.Append?) && NeverTaken(after, id)
    ensures var s := Steps(cfg, START, before).value;
      var e := s.books.events[id];
      && CanClaim(Steps(cfg, s, after).value, id)
      && Handled(cfg, s, after) + (cfg.maxAttempts - e.attempts) <= Potential(s.books.events, cfg.maxAttempts)
      && Commits(after) * cfg.batchSize <= Handled(cfg, s, after) + |s.polls| * cfg.batchSize
  {
    var s := Steps(cfg, START, before).value;
    StepsKeep(cfg, START, before);
    RunPast(cfg, s, after, id);
    WhatIsLeft(cfg, s, after, id);
    SubsetSize(Partial(cfg, s), s.polls.Keys);
    SlotsGrow(|Partial(cfg, s)|, |s.polls|, cfg.batchSize);
    SlotsAre(Commits(after), cfg.batchSize);
    SlotsAre(|s.polls|, cfg.batchSize);
  }

  /** An event no poll took keeps its share of the potential. */
  lemma {:induction false} WhatIsLeft(cfg: Settings, s: State, ls: seq<Label>, id: Id)
    requires Invariant(cfg, s) && cfg.maxAttempts >= 1 && Steps(cfg, s, ls).Some?
    requires (forall l :: l in ls ==> !l.Append?) && id in s.books.events && s.books.events[id].status == Pending
    requires var end := Steps(cfg, s, ls).value; id in end.books.events && end.books.events[id] == s.books.events[id]
    ensures Handled(cfg, s, ls) + (cfg.maxAttempts - s.books.events[id].attempts)
              <= Potential(s.books.events, cfg.maxAttempts)
  {
    Drains(cfg, s, ls);
    PotentialAt(Steps(cfg, s, ls).value.books.events, id, cfg.maxAttempts);
    assert EventOk(s.books.events[id], cfg.maxAttempts);
  }

  lemma {:induction false} SubsetSize(a: set<Id>, b: set<Id>)
    requires a <= b
    ensures |a| <= |b|
  {
    if a != {} {
      var x :| x in a;
      SubsetSize(a - {x}, b - {x});
    }
  }

  // ---- Events nobody handles ----

  /** No event without a handler is processed, nor about to be. */
  ghost predicate Unhandled(cfg: Settings, s: State) {
    && (forall id :: id in s.books.events && s.books.events[id].kind !in cfg.handlers ==> s.books.events[id].status != Processed)
    && (forall r, id :: r in s.polls && id in s.polls[r].changed && s.polls[r].changed[id].kind !in cfg.handlers ==>
          s.polls[r].changed[id].status != Processed)
  }

  /** A dispatch is processed exactly when there is a handler for the event and it does not throw. */
  lemma {:induction false} DispatchDecides(cfg: Settings, s: State, p: Poll, a: Attempt)
    requires PollOk(s, p, cfg.maxAttempts) && p.done < |p.batch| && p.batch[p.done] in View(s, p).events
    ensures var id := p.batch[p.done];
      var p' := DispatchNext(cfg, s, p, a);
      && id in s.books.events && id in p'.changed && p'.changed[id].kind == s.books.events[id].kind
      && p'.changed == p.changed[id := p'.changed[id]]
      && (p'.changed[id].status == Processed <==> s.books.events[id].kind in cfg.handlers && !a.throws)
  {
    var id := p.batch[p.done];
    assert id in p.batch && id !in p.changed;
  }

  lemma {:induction false} DispatchUnhandled(cfg: Settings, s: State, r: nat, a: Attempt)
    requires Unhandled(cfg, s) && r in s.polls && PollOk(s, s.polls[r], cfg.maxAttempts)
    requires Next(cfg, s, Dispatch(r, a)).Some?
    ensures Unhandled(cfg, Next(cfg, s, Dispatch(r, a)).value)
  {
    DispatchDecides(cfg, s, s.polls[r], a);
  }

  lemma {:induction false} NextUnhandled(cfg: Settings, s: State, l: Label)
    requires Invariant(cfg, s) && Unhandled(cfg, s) && Next(cfg, s, l).Some?
    ensures Unhandled(cfg, Next(cfg, s, l).value)
  {
    if l.Dispatch? { DispatchUnhandled(cfg, s, l.r, l.attempt); }
  }

  lemma {:induction false} StepsUnhandled(cfg: Settings, s: State, ls: seq<Label>)
    requires Invariant(cfg, s) && Unhandled(cfg, s) && cfg.maxAttempts >= 1 && Steps(cfg, s, ls).Some?
    ensures Unhandled(cfg, Steps(cfg, s, ls).value)
    decreases |ls|
  {
    if ls != [] {
      NextKeeps(cfg, s, ls[0]);
      NextUnhandled(cfg, s, ls[0]);
      StepsUnhandled(cfg, Next(cfg, s, ls[0]).value, ls[1..]);
    }
  }

  /** In no run is an event without a handler processed or audited: it fails until it is dead. */
  lemma {:induction false} NeverSilentlyProcessed(cfg: Settings, ls: seq<Label>, id: Id)
    requires cfg.maxAttempts >= 1 && Steps(cfg, START, ls).Some?
    requires var s := Steps(cfg, START, ls).value; id in s.books.events && s.books.events[id].kind !in cfg.handlers
    ensures var s := Steps(cfg, START, ls).value;
      s.books.events[id].status in {Pending, Dead} && id !in s.books.audit
  {
    StepsKeep(cfg, START, ls);
    StepsUnhandled(cfg, START, ls);
  }

  /** Every committed dispatch of it adds one failure. */
  lemma {:induction false} UnhandledFails(cfg: Settings, ls: seq<Label>, r: nat, id: Id)
    requires cfg.maxAttempts >= 1 && Steps(cfg, START, ls).Some?
    requires var s := Steps(cfg, START, ls).value;
      && id in s.books.events && s.books.events[id].kind !in cfg.handlers
      && r in s.polls && id in s.polls[r].batch && Next(cfg, s, Commit(r)).Some?
    ensures var s := Steps(cfg, START, ls).value;
      var s' := Next(cfg, s, Commit(r)).value;
      && id in s.failures && id in s'.failures && s'.failures[id] == s.failures[id] + 1
      && id in s'.books.events && s'.books.events[id].attempts == s.books.events[id].attempts + 1
  {
    var s := Steps(cfg, START, ls).value;
    StepsKeep(cfg, START, ls);
    StepsUnhandled(cfg, START, ls);
    var p := s.polls[r];
    assert PollOk(s, p, cfg.maxAttempts) && id in s.failures;
    AllChanged(s, p, cfg.maxAttempts, id);
    OneMoreFailure(s.books.events[id], p.changed[id], cfg.maxAttempts);
  }

  lemma {:induction false} OneMoreFailure(e: Event, e': Event, maxAttempts: nat)
    requires Dispatched(e, e', maxAttempts) && e'.status != Processed
    ensures e'.attempts == e.attempts + 1
  {}

  /** A poll that has dispatched its whole batch has changed every row of it. */
  lemma {:induction false} AllChanged(s: State, p: Poll, maxAttempts: nat, id: Id)
    requires PollOk(s, p, maxAttempts) && p.done == |p.batch| && id in p.batch
    ensures id in p.changed
  {
    var i :| 0 <= i < |p.batch| && p.batch[i] == id;
    assert p.batch[i] in set i | 0 <= i < p.done :: p.batch[i];
  }

  // ---- What can happen ----

  /** A relay that meets one due event with a handler processes it. */
  lemma {:induction false} CanProcess(cfg: Settings, id: Id, kind: Kind, r: nat, a: Attempt)
    requires kind in cfg.handlers && !a.throws && Fair(a) && cfg.batchSize >= 1
    ensures var s1 := Next(cfg, START, Append(id, kind));
      && s1.Some?
      && var s2 := Next(cfg, s1.value, Claim(r, [id]));
      && s2.Some?
      && var s3 := Next(cfg, s2.value, Dispatch(r, a));
      && s3.Some?
      && var s4 := Next(cfg, s3.value, Commit(r));
      && s4.Some? && id in s4.value.books.events
      && s4.value.books.events[id].status == Processed && s4.value.books.audit == [id]
  {
    var s1 := Next(cfg, START, Append(id, kind)).value;
    assert Locked(s1) == {};
    assert CanClaim(s1, id);
    assert forall i :: i in s1.books.events ==> i == id;
    assert id in [id];
    var s2 := Next(cfg, s1, Claim(r, [id])).value;
    assert View(s2, s2.polls[r]) == s2.books;
    var s3 := Next(cfg, s2, Dispatch(r, a)).value;
    assert s3.polls[r].rows == [id];
  }
}
