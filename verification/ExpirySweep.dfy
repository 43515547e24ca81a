/**
 The sweep that expires reservations past their deadline: it reads a page of expired
 orders after a cursor, tries each one, and starts over after a short page. Between two
 runs the set of expired orders may change in any way.
 */
module ExpirySweep {
  import opened Wrappers
  import opened Sequences

  type Id = nat

  /** What the index orders by; also the cursor. */
  datatype Key = Key(expiresAt: int, id: Id)

  predicate Less(a: Key, b: Key) {
    a.expiresAt < b.expiresAt || (a.expiresAt == b.expiresAt && a.id < b.id)
  }

  predicate Ascending(keys: seq<Key>) {
    forall i, j :: 0 <= i < j < |keys| ==> Less(keys[i], keys[j])
  }

  predicate Above(k: Key, cursor: Option<Key>) {
    cursor.None? || Less(cursor.value, k)
  }

  /** `WHERE (expires_at, id) > cursor ORDER BY expires_at, id LIMIT n`: in order, and none passed over. */
  ghost predicate IsPage(page: seq<Key>, expired: set<Key>, cursor: Option<Key>, limit: nat) {
    && Ascending(page) && |page| <= limit
    && (forall k :: k in page ==> k in expired && Above(k, cursor))
    && (forall k :: k in expired && Above(k, cursor) && k !in page ==>
          |page| == limit && forall p :: p in page ==> Less(p, k))
  }

  /** Whatever has expired, the query has an answer. */
  lemma {:induction false} PageExists(expired: set<Key>, cursor: Option<Key>, limit: nat)
    ensures exists page :: IsPage(page, expired, cursor, limit)
  {
    var all := set k | k in expired && Above(k, cursor);
    assert StrictTotal(Less);
    var page := FirstFew(all, Less, limit);
    assert IsPage(page, expired, cursor, limit);
  }

  /** Soonest deadline first, then id; an order left for later expires no sooner than those on the page, which is full. */
  lemma {:induction false} PageInOrder(page: seq<Key>, expired: set<Key>, cursor: Option<Key>, limit: nat, later: Key)
    requires IsPage(page, expired, cursor, limit)
    ensures forall i, j :: 0 <= i < j < |page| ==>
      page[i].expiresAt < page[j].expiresAt || (page[i].expiresAt == page[j].expiresAt && page[i].id < page[j].id)
    ensures forall k :: k in page && cursor.Some? ==>
      cursor.value.expiresAt < k.expiresAt || (cursor.value.expiresAt == k.expiresAt && cursor.value.id < k.id)
    ensures later in expired && later !in page && (cursor.Some? ==> cursor.value.expiresAt < later.expiresAt) ==>
      |page| == limit && forall k :: k in page ==> k.expiresAt <= later.expiresAt
  {
    assert cursor.Some? && cursor.value.expiresAt < later.expiresAt ==> Above(later, cursor);
    forall i, j | 0 <= i < j < |page| ensures Less(page[i], page[j]) {}
  }

  /** And only one. */
  lemma {:induction false} PageUnique(page: seq<Key>, other: seq<Key>, expired: set<Key>, cursor: Option<Key>, limit: nat)
    requires IsPage(page, expired, cursor, limit) && IsPage(other, expired, cursor, limit)
    ensures page == other
  {
    SameFew(page, other, (set k | k in expired && Above(k, cursor)), limit);
  }

  lemma {:induction false} FewSize(page: seq<Key>, all: set<Key>, limit: nat)
    requires FirstOf(page, all, Less, limit)
    ensures |page| == if |all| < limit then |all| else limit
  {
    if page == [] {
      if all != {} {
        var x :| x in all;
        assert x !in page;
      }
    } else {
      assert page[0] in page;
      TailFew(page, all, limit);
      FewSize(page[1..], all - {page[0]}, limit - 1);
    }
  }

  lemma {:induction false} SameFew(page: seq<Key>, other: seq<Key>, all: set<Key>, limit: nat)
    requires FirstOf(page, all, Less, limit) && FirstOf(other, all, Less, limit)
    ensures page == other
  {
    FewSize(page, all, limit);
    FewSize(other, all, limit);
    if page != [] {
      SameHead(page, other, all, limit);
      var k := page[0];
      assert page == [k] + page[1..] && other == [k] + other[1..];
      TailFew(page, all, limit);
      TailFew(other, all, limit);
      SameFew(page[1..], other[1..], all - {k}, limit - 1);
    }
  }

  lemma {:induction false} SameHead(page: seq<Key>, other: seq<Key>, all: set<Key>, limit: nat)
    requires FirstOf(page, all, Less, limit) && FirstOf(other, all, Less, limit) && page != [] && other != []
    ensures page[0] == other[0]
  {
    NothingBefore(page, all, limit, other[0]);
    NothingBefore(other, all, limit, page[0]);
  }

  lemma {:induction false} NothingBefore(page: seq<Key>, all: set<Key>, limit: nat, x: Key)
    requires FirstOf(page, all, Less, limit) && page != [] && x in all
    ensures !Less(x, page[0])
  {
    assert page[0] in page;
    if x in page {
      var j :| 0 <= j < |page| && page[j] == x;
      assert j > 0 ==> Less(page[0], page[j]);
    } else {
      assert Less(page[0], x);
    }
  }

  lemma {:induction false} TailFew(page: seq<Key>, all: set<Key>, limit: nat)
    requires FirstOf(page, all, Less, limit) && page != []
    ensures limit > 0 && FirstOf(page[1..], all - {page[0]}, Less, limit - 1)
  {
    assert page == [page[0]] + page[1..];
    forall x | x in page[1..] ensures x in all - {page[0]} {
      var j :| 0 <= j < |page[1..]| && page[1..][j] == x;
      assert x in page && Less(page[0], page[j + 1]);
    }
    forall x | x in all - {page[0]} && x !in page[1..]
      ensures |page[1..]| == limit - 1 && forall y :: y in page[1..] ==> Less(y, x)
    {
      assert x !in page;
    }
  }

  function LastTouched(cursor: Option<Key>, page: seq<Key>): Option<Key> {
    if page == [] then cursor else Some(page[|page| - 1])
  }

  /** The cursor a run leaves behind. */
  function NextCursor(cursor: Option<Key>, page: seq<Key>, batchSize: nat): Option<Key> {
    if |page| < batchSize then None else LastTouched(cursor, page)
  }

  // ---- The job ----

  datatype Status = Reserved | Expired | Closed

  datatype Row = Row(status: Status, expiresAt: int)

  function ExpiredAt(rows: map<Id, Row>, now: int): set<Key> {
    set id | id in rows && rows[id].status == Reserved && rows[id].expiresAt < now :: Key(rows[id].expiresAt, id)
  }

  class Orders {
    var rows: map<Id, Row>

    constructor (rows: map<Id, Row>)
      ensures this.rows == rows
    {
      this.rows := rows;
    }

    /** One transaction: it expires the order or, thrown out of, does nothing. */
    method Expire(id: Id, fails: bool) returns (ok: bool)
      requires id in rows && rows[id].status in {Reserved, Expired}
      modifies this
      ensures ok == !fails
      ensures rows == if fails then old(rows) else old(rows)[id := old(rows)[id].(status := Expired)]
    {
      if fails { return false; }
      if rows[id].status == Reserved {
        rows := rows[id := rows[id].(status := Expired)];
      }
      ok := true;
    }
  }

  /** Expired if it is on the page and its transaction does not fail; otherwise as it was. */
  function Tried(row: Row, id: Id, page: seq<Key>, failing: set<Id>): Row {
    if id !in failing && row.status == Reserved && Key(row.expiresAt, id) in page then row.(status := Expired) else row
  }

  class ReservationExpiryJob {
    var cursor: Option<Key>
    const batchSize: nat

    constructor (batchSize: nat)
      ensures this.batchSize == batchSize && cursor == None
    {
      this.batchSize := batchSize;
      cursor := None;
    }

    /** Every order of the page gets its try, whichever of the others fail, and the cursor moves past them all. */
    method Run(orders: Orders, now: int, page: seq<Key>, failing: set<Id>)
      requires IsPage(page, ExpiredAt(orders.rows, now), cursor, batchSize)
      modifies this`cursor, orders
      ensures cursor == NextCursor(old(cursor), page, batchSize)
      ensures orders.rows == map id | id in old(orders.rows) :: Tried(old(orders.rows)[id], id, page, failing)
      ensures forall k :: k in page ==>
        && k.id in old(orders.rows) && old(orders.rows)[k.id].status == Reserved
        && old(orders.rows)[k.id].expiresAt == k.expiresAt < now
        && k.id in orders.rows
        && orders.rows[k.id].status == (if k.id in failing then Reserved else Expired)
      ensures forall id :: id in old(orders.rows) && (forall k :: k in page ==> k.id != id) ==>
        id in orders.rows && orders.rows[id] == old(orders.rows)[id]
    {
      ghost var before := orders.rows;
      ghost var start := cursor;
      var i := 0;
      while i < |page|
        invariant 0 <= i <= |page|
        invariant cursor == LastTouched(start, page[..i])
        invariant orders.rows.Keys == before.Keys
        invariant forall id :: id in before ==>
          orders.rows[id] == Tried(before[id], id, page[..i], failing)
      {
        assert page[i] in page;
        var ok := orders.Expire(page[i].id, page[i].id in failing);
        cursor := Some(page[i]);
        assert page[..i + 1] == page[..i] + [page[i]];
        i := i + 1;
      }
      assert page[..|page|] == page;
      if |page| < batchSize {
        cursor := None;
      }
    }
  }

  // ---- Runs, with the set changing between them ----

  /** The cursor after the first `n` runs, from a null cursor. */
  function CursorAfter(pages: seq<seq<Key>>, n: nat, batchSize: nat): Option<Key>
    requires n <= |pages|
  {
    if n == 0 then None else NextCursor(CursorAfter(pages, n - 1, batchSize), pages[n - 1], batchSize)
  }

  ghost predicate PageRead(pages: seq<seq<Key>>, expired: seq<set<Key>>, i: nat, batchSize: nat)
    requires i < |pages| == |expired|
  {
    IsPage(pages[i], expired[i], CursorAfter(pages, i, batchSize), batchSize)
  }

  /** Run `i` reads its page from `expired[i]`, whatever the runs before have done to the set. */
  ghost predicate Runs(pages: seq<seq<Key>>, expired: seq<set<Key>>, batchSize: nat) {
    |pages| == |expired|
    && forall i :: 0 <= i < |pages| ==> PageRead(pages, expired, i, batchSize)
  }

  function Attempts(pages: seq<seq<Key>>): seq<Key> {
    if pages == [] then [] else Attempts(pages[..|pages| - 1]) + pages[|pages| - 1]
  }

  predicate Unfinished(pages: seq<seq<Key>>, i: nat, batchSize: nat)
    requires i <= |pages|
  {
    CursorAfter(pages, i, batchSize).Some?
  }

  /** The first `n` runs have not come to the end of the set. */
  predicate Underway(pages: seq<seq<Key>>, n: nat, batchSize: nat)
    requires n <= |pages|
  {
    forall i :: 0 < i <= n ==> Unfinished(pages, i, batchSize)
  }

  ghost predicate Within(keys: seq<Key>, universe: set<Key>) {
    forall k :: k in keys ==> k in universe
  }

  /** A run in the middle of a sweep reads a full page, and its last order becomes the cursor. */
  lemma {:induction false} FullPage(pages: seq<seq<Key>>, expired: seq<set<Key>>, i: nat, b: nat)
    requires b >= 1 && Runs(pages, expired, b) && i < |pages| && Unfinished(pages, i + 1, b)
    ensures |pages[i]| == b && CursorAfter(pages, i + 1, b) == Some(pages[i][b - 1])
    ensures Ascending(pages[i]) && Within(pages[i], expired[i])
    ensures forall k :: k in pages[i] ==> Above(k, CursorAfter(pages, i, b)) && !Above(k, CursorAfter(pages, i + 1, b))
  {
    assert PageRead(pages, expired, i, b);
  }

  /** The first `n` runs tried orders in ascending order, none above the cursor they left. */
  ghost predicate Behind(pages: seq<seq<Key>>, n: nat, b: nat)
    requires n <= |pages|
  {
    Ascending(Attempts(pages[..n])) && forall k :: k in Attempts(pages[..n]) ==> !Above(k, CursorAfter(pages, n, b))
  }

  lemma {:induction false} BehindNext(pages: seq<seq<Key>>, expired: seq<set<Key>>, n: nat, b: nat)
    requires b >= 1 && Runs(pages, expired, b) && n < |pages|
    requires Behind(pages, n, b) && Unfinished(pages, n + 1, b)
    ensures Behind(pages, n + 1, b)
  {
    StepAttempts(pages, expired, n, b);
    FullPage(pages, expired, n, b);
    var all := Attempts(pages[..n + 1]);
    assert all[|all| - 1] == pages[n][b - 1];
    forall k | k in all ensures !Above(k, CursorAfter(pages, n + 1, b)) {
      BelowLast(all, k);
    }
  }

  /** While a sweep is underway its attempts are in order, and none is above the cursor. */
  lemma {:induction false} UnderwayAscends(pages: seq<seq<Key>>, expired: seq<set<Key>>, n: nat, b: nat)
    requires b >= 1 && Runs(pages, expired, b) && n <= |pages| && Underway(pages, n, b)
    ensures Behind(pages, n, b)
  {
    if n > 0 {
      UnderwayAscends(pages, expired, n - 1, b);
      BehindNext(pages, expired, n - 1, b);
    }
  }

  /** A sweep underway has tried `b` orders in every run. */
  lemma {:induction false} UnderwayCount(pages: seq<seq<Key>>, expired: seq<set<Key>>, n: nat, b: nat, universe: set<Key>)
    requires b >= 1 && Runs(pages, expired, b) && n <= |pages| && Underway(pages, n, b)
    requires forall i :: 0 <= i < n ==> expired[i] <= universe
    ensures |Attempts(pages[..n])| == n * b && Within(Attempts(pages[..n]), universe)
  {
    if n > 0 {
      UnderwayCount(pages, expired, n - 1, b, universe);
      FullPage(pages, expired, n - 1, b);
      assert pages[..n][..n - 1] == pages[..n - 1];
      assert n * b == (n - 1) * b + b;
    }
  }

  lemma {:induction false} BelowLast(keys: seq<Key>, k: Key)
    requires Ascending(keys) && k in keys
    ensures !Less(keys[|keys| - 1], k)
  {}

  /** One more page goes on where the attempts so far stopped. */
  lemma {:induction false} StepAttempts(pages: seq<seq<Key>>, expired: seq<set<Key>>, n: nat, b: nat)
    requires b >= 1 && Runs(pages, expired, b) && n < |pages|
    requires Behind(pages, n, b)
    ensures Attempts(pages[..n + 1]) == Attempts(pages[..n]) + pages[n]
    ensures Ascending(Attempts(pages[..n + 1]))
  {
    assert pages[..n + 1][..n] == pages[..n];
    assert PageRead(pages, expired, n, b);
    var sofar, page := Attempts(pages[..n]), pages[n];
    forall i, j | 0 <= i < |sofar| && 0 <= j < |page| ensures Less(sofar[i], page[j]) {
      assert sofar[i] in sofar && page[j] in page;
    }
  }

  lemma {:induction false} AscendingSize(keys: seq<Key>, universe: set<Key>)
    requires Ascending(keys) && Within(keys, universe)
    ensures |keys| <= |universe|
  {
    if keys != [] {
      var last := keys[|keys| - 1];
      assert last in keys;
      AscendingSize(keys[..|keys| - 1], universe - {last});
    }
  }

  lemma {:induction false} TimesGrows(x: nat, y: nat, b: nat)
    requires x < y
    ensures x * b + b <= y * b
  {
    assert y * b == (y - 1) * b + b;
    if x < y - 1 { TimesGrows(x, y - 1, b); }
  }

  lemma {:induction false} DivisionBound(n: nat, size: nat, b: nat)
    requires b >= 1 && n * b <= size
    ensures n <= size / b
  {
    var q, r := size / b, size % b;
    assert size == q * b + r;
    if q < n { TimesGrows(q, n, b); }
  }

  /** A sweep that is not over yet has been going on for at most |universe| / b runs. */
  lemma {:induction false} UnderwayBound(pages: seq<seq<Key>>, expired: seq<set<Key>>, n: nat, b: nat, universe: set<Key>)
    requires b >= 1 && Runs(pages, expired, b) && n <= |pages| && Underway(pages, n, b)
    requires forall i :: 0 <= i < n ==> expired[i] <= universe
    ensures n <= |universe| / b
  {
    UnderwayAscends(pages, expired, n, b);
    UnderwayCount(pages, expired, n, b, universe);
    AscendingSize(Attempts(pages[..n]), universe);
    DivisionBound(n, |universe|, b);
  }

  /** The sweep is over after `k` runs and not before. */
  predicate EndsAt(pages: seq<seq<Key>>, k: nat, b: nat) {
    0 < k <= |pages| && Underway(pages, k - 1, b) && CursorAfter(pages, k, b) == None
  }

  lemma {:induction false} EndOf(pages: seq<seq<Key>>, n: nat, b: nat) returns (k: nat)
    requires n <= |pages| && !Underway(pages, n, b)
    ensures k <= n && EndsAt(pages, k, b)
  {
    if Underway(pages, n - 1, b) {
      k := n;
    } else {
      k := EndOf(pages, n - 1, b);
    }
  }

  /** The run in whose stretch of keys `x` lies. */
  predicate ReachedBy(pages: seq<seq<Key>>, i: nat, x: Key, b: nat)
    requires i < |pages|
  {
    Above(x, CursorAfter(pages, i, b))
    && (CursorAfter(pages, i + 1, b).None? || !Above(x, CursorAfter(pages, i + 1, b)))
  }

  lemma {:induction false} ReachedBefore(pages: seq<seq<Key>>, n: nat, x: Key, b: nat) returns (i: nat)
    requires n <= |pages| && !Above(x, CursorAfter(pages, n, b))
    ensures i < n && ReachedBy(pages, i, x, b)
  {
    if Above(x, CursorAfter(pages, n - 1, b)) {
      i := n - 1;
    } else {
      i := ReachedBefore(pages, n - 1, x, b);
    }
  }

  lemma {:induction false} AttemptsHold(pages: seq<seq<Key>>, n: nat, i: nat, x: Key)
    requires i < n <= |pages| && x in pages[i]
    ensures x in Attempts(pages[..n])
  {
    assert pages[..n][..n - 1] == pages[..n - 1];
    if i < n - 1 { AttemptsHold(pages, n - 1, i, x); }
  }

  // ---- Main results ----

  /** With n orders and batches of b, a sweep is over within n / b + 1 runs, whatever fails or changes. */
  lemma {:induction false} SweepEnds(pages: seq<seq<Key>>, expired: seq<set<Key>>, b: nat, universe: set<Key>)
    requires b >= 1 && Runs(pages, expired, b)
    requires forall i :: 0 <= i < |expired| ==> expired[i] <= universe
    requires |pages| >= |universe| / b + 1
    ensures exists k: nat :: k <= |universe| / b + 1 && EndsAt(pages, k, b)
  {
    var n := |universe| / b + 1;
    if Underway(pages, n, b) {
      UnderwayBound(pages, expired, n, b, universe);
      assert false;
    }
    var k := EndOf(pages, n, b);
  }

  /** Run `i` is the one run of a sweep of `k` runs whose stretch holds `x`, and tries it if it is still expired. */
  ghost predicate Turn(pages: seq<seq<Key>>, expired: seq<set<Key>>, k: nat, i: nat, x: Key, b: nat)
    requires k <= |pages| == |expired|
  {
    && i < k && ReachedBy(pages, i, x, b)
    && (x in pages[i] <==> x in expired[i])
    && forall j :: 0 <= j < k && j != i ==> !ReachedBy(pages, j, x, b) && x !in pages[j]
  }

  /**
   Over one whole sweep no order is tried twice, and every order has its turn: exactly one
   run reaches it and tries it there if it is still expired then. Orders that leave the set
   meanwhile never make the sweep skip another.
   */
  lemma {:induction false} SweepIsFair(pages: seq<seq<Key>>, expired: seq<set<Key>>, k: nat, b: nat, x: Key)
    requires b >= 1 && Runs(pages, expired, b) && EndsAt(pages, k, b)
    ensures Ascending(Attempts(pages[..k]))
    ensures exists i: nat :: i < k && Turn(pages, expired, k, i, x, b)
  {
    UnderwayAscends(pages, expired, k - 1, b);
    StepAttempts(pages, expired, k - 1, b);
    var i := ReachedIn(pages, k, x, b);
    ItsTurn(pages, expired, k, i, x, b);
  }

  /** One of the runs of a sweep reaches `x`. */
  lemma {:induction false} ReachedIn(pages: seq<seq<Key>>, k: nat, x: Key, b: nat) returns (i: nat)
    requires EndsAt(pages, k, b)
    ensures i < k && ReachedBy(pages, i, x, b)
  {
    i := k - 1;
    if !Above(x, CursorAfter(pages, k - 1, b)) {
      i := ReachedBefore(pages, k - 1, x, b);
    }
  }

  lemma {:induction false} ItsTurn(pages: seq<seq<Key>>, expired: seq<set<Key>>, k: nat, i: nat, x: Key, b: nat)
    requires b >= 1 && Runs(pages, expired, b) && EndsAt(pages, k, b) && i < k && ReachedBy(pages, i, x, b)
    ensures Turn(pages, expired, k, i, x, b)
  {
    ReachedTries(pages, expired, i, b, x);
    forall j | 0 <= j < k && j != i ensures !ReachedBy(pages, j, x, b) && x !in pages[j] {
      if x in pages[j] { TriedWhereReached(pages, expired, k, b, x, i, j); }
      if i < j { ReachedOnce(pages, expired, k, b, x, i, j); } else { ReachedOnce(pages, expired, k, b, x, j, i); }
    }
  }

  lemma {:induction false} ReachedTries(pages: seq<seq<Key>>, expired: seq<set<Key>>, i: nat, b: nat, x: Key)
    requires b >= 1 && Runs(pages, expired, b) && i < |pages| && ReachedBy(pages, i, x, b)
    ensures x in pages[i] <==> x in expired[i]
  {
    assert PageRead(pages, expired, i, b);
    if CursorAfter(pages, i + 1, b).Some? {
      assert pages[i][|pages[i]| - 1] in pages[i];
    }
  }

  /** The cursor only rises until the sweep is over. */
  lemma {:induction false} CursorRises(pages: seq<seq<Key>>, expired: seq<set<Key>>, m: nat, n: nat, b: nat, x: Key)
    requires b >= 1 && Runs(pages, expired, b) && m <= n <= |pages| && Underway(pages, n, b)
    requires !Above(x, CursorAfter(pages, m, b))
    ensures !Above(x, CursorAfter(pages, n, b))
  {
    if m < n {
      CursorRises(pages, expired, m, n - 1, b, x);
      FullPage(pages, expired, n - 1, b);
      assert pages[n - 1][b - 1] in pages[n - 1];
    }
  }

  lemma {:induction false} TriedAbove(pages: seq<seq<Key>>, expired: seq<set<Key>>, j: nat, b: nat, x: Key)
    requires Runs(pages, expired, b) && j < |pages| && x in pages[j]
    ensures Above(x, CursorAfter(pages, j, b))
  {
    assert PageRead(pages, expired, j, b);
  }

  lemma {:induction false} TriedWhereReached(pages: seq<seq<Key>>, expired: seq<set<Key>>, k: nat, b: nat, x: Key, i: nat, j: nat)
    requires b >= 1 && Runs(pages, expired, b) && EndsAt(pages, k, b)
    requires i < k && j < k && ReachedBy(pages, i, x, b) && x in pages[j]
    ensures i == j
  {
    TriedAbove(pages, expired, j, b, x);
    if i < j {
      assert Unfinished(pages, i + 1, b);
      CursorRises(pages, expired, i + 1, j, b, x);
    } else if j < i {
      FullPage(pages, expired, j, b);
      CursorRises(pages, expired, j + 1, i, b, x);
    }
  }

  /** A later run of the same sweep starts beyond what an earlier one reached. */
  lemma {:induction false} ReachedOnce(pages: seq<seq<Key>>, expired: seq<set<Key>>, k: nat, b: nat, x: Key, i: nat, j: nat)
    requires b >= 1 && Runs(pages, expired, b) && EndsAt(pages, k, b) && i < j < k
    ensures !(ReachedBy(pages, i, x, b) && ReachedBy(pages, j, x, b))
  {
    if ReachedBy(pages, i, x, b) {
      assert Unfinished(pages, i + 1, b);
      CursorRises(pages, expired, i + 1, j, b, x);
    }
  }

  /** An order that stays expired is tried once in every sweep, however many orders before it keep failing. */
  lemma {:induction false} NeverCrowdedOut(pages: seq<seq<Key>>, expired: seq<set<Key>>, b: nat, universe: set<Key>, x: Key)
    requires b >= 1 && Runs(pages, expired, b) && |pages| >= |universe| / b + 1
    requires forall j :: 0 <= j < |expired| ==> x in expired[j] && expired[j] <= universe
    ensures exists k: nat :: k <= |universe| / b + 1 && EndsAt(pages, k, b) && multiset(Attempts(pages[..k]))[x] == 1
  {
    SweepEnds(pages, expired, b, universe);
    var k: nat :| k <= |universe| / b + 1 && EndsAt(pages, k, b);
    SweepIsFair(pages, expired, k, b, x);
    var i: nat :| i < k && Turn(pages, expired, k, i, x, b);
    AttemptsHold(pages, k, i, x);
    assert Ascending(Attempts(pages[..k]));
    CountAscending(Attempts(pages[..k]), x);
  }

  lemma {:induction false} CountAscending(keys: seq<Key>, x: Key)
    requires Ascending(keys)
    ensures multiset(keys)[x] == if x in keys then 1 else 0
  {
    if keys != [] {
      assert keys == [keys[0]] + keys[1..];
      CountAscending(keys[1..], x);
    }
  }
}
