/**
 The life of one idempotency key under any number of requests, duplicates, crashes, lost
 or stale releases and clean-up runs that delete it at any moment.

 Claim, work and release are three separate commits. The work's transaction locks the key
 row with its completing update and keeps the lock to its end; the plain read behind a
 refused claim does not wait and sees the last committed row.
 */
module Idempotency {
  import opened Wrappers

  type Hash = nat
  type Response = nat

  datatype KeyStatus = InProgress | Completed | Failed

  datatype Row = Row(status: KeyStatus, hash: Hash, response: Option<Response>)

  datatype Worker =
    | Lookup(hash: Hash)                              // the claim matched nothing; the row is read next
    | Working(hash: Hash)                             // the claim committed; the work's transaction is open
    | Completing(hash: Hash, response: Response)      // the key is updated, not yet committed
    | Releasing(hash: Hash)                           // the work failed, or seems to have
    | Deleting                                        // clean-up: deleted, not yet committed

  datatype Done = Done(hash: Hash, response: Response)

  /** A response handed out without working, and how many works had committed by then. */
  datatype Replayed = Replayed(hash: Hash, response: Response, commits: nat)

  datatype State = State(
    row: Option<Row>,
    lock: Option<nat>,
    workers: map<nat, Worker>,
    commits: seq<Done>,
    deletions: nat,                                   // committed deletions of a completed row
    replays: seq<Replayed>)

  datatype Label =
    | Claim(p: nat, hash: Hash)
    | Read(p: nat)
    | Complete(p: nat, response: Response)
    | Throw(p: nat)
    | Commit(p: nat, acknowledged: bool)
    | Release(p: nat)
    | Delete(p: nat)
    | Die(p: nat)

  function Finish(s: State, p: nat): State { s.(workers := s.workers - {p}) }

  function Goto(s: State, p: nat, w: Worker): State { s.(workers := s.workers[p := w]) }

  function Unlock(s: State, p: nat): State { if s.lock == Some(p) then s.(lock := None) else s }

  /** The row a claiming upsert leaves when it claims. */
  predicate Claims(row: Option<Row>) { row.None? || row.value.status == Failed }

  /** The WHERE of `complete` and `release`. */
  predicate HeldBy(row: Option<Row>, hash: Hash) {
    row.Some? && row.value.hash == hash && row.value.status == InProgress
  }

  function Next(s: State, l: Label): Option<State> {
    match l
    case Claim(p, hash) =>
      if p in s.workers || s.lock.Some? then None
      else if Claims(s.row) then Some(Goto(s.(row := Some(Row(InProgress, hash, None))), p, Working(hash)))
      else Some(Goto(s, p, Lookup(hash)))
    case Read(p) =>
      if p !in s.workers || !s.workers[p].Lookup? then None
      else
        var hash := s.workers[p].hash;
        if s.row.Some? && s.row.value.hash == hash && s.row.value.status == Completed && s.row.value.response.Some?
        then Some(Finish(s, p).(replays := s.replays + [Replayed(hash, s.row.value.response.value, |s.commits|)]))
        else Some(Finish(s, p))  // KEY_REUSED or IN_PROGRESS
    case Complete(p, response) =>
      if p !in s.workers || !s.workers[p].Working? || s.lock.Some? then None
      else
        var hash := s.workers[p].hash;
        if HeldBy(s.row, hash) then Some(Goto(s, p, Completing(hash, response)).(lock := Some(p)))
        else Some(Goto(s, p, Releasing(hash)))
    case Throw(p) =>
      if p !in s.workers || !(s.workers[p].Working? || s.workers[p].Completing?) then None
      else Some(Unlock(Goto(s, p, Releasing(s.workers[p].hash)), p))
    case Commit(p, acknowledged) =>
      if p !in s.workers || s.lock != Some(p) then None
      else if s.workers[p].Completing? then
        var w := s.workers[p];
        var s' := s.(row := Some(Row(Completed, w.hash, Some(w.response))), lock := None,
                     commits := s.commits + [Done(w.hash, w.response)]);
        Some(if acknowledged then Finish(s', p) else Goto(s', p, Releasing(w.hash)))
      else
        var completed := s.row.Some? && s.row.value.status == Completed;
        Some(Finish(s.(row := None, lock := None, deletions := s.deletions + (if completed then 1 else 0)), p))
    case Release(p) =>
      if p !in s.workers || !s.workers[p].Releasing? || s.lock.Some? then None
      else if HeldBy(s.row, s.workers[p].hash) then Some(Finish(s.(row := Some(s.row.value.(status := Failed))), p))
      else Some(Finish(s, p))
    case Delete(p) =>
      if p in s.workers || s.lock.Some? || s.row.None? then None
      else Some(Goto(s, p, Deleting).(lock := Some(p)))
    case Die(p) =>
      if p !in s.workers then None else Some(Unlock(Finish(s, p), p))
  }

  function Steps(s: State, ls: seq<Label>): Option<State>
    decreases |ls|
  {
    if ls == [] then Some(s)
    else
      match Next(s, ls[0])
      case None => None
      case Some(s') => Steps(s', ls[1..])
  }

  const START := State(None, None, map[], [], 0, [])

  predicate IsCompleted(row: Option<Row>) { row.Some? && row.value.status == Completed }

  /** A completed key is the last committed work. */
  predicate RowIsLast(s: State) {
    IsCompleted(s.row) ==>
      s.commits != [] && Done(s.row.value.hash, s.row.value.response.GetOr(0)) == s.commits[|s.commits| - 1]
      && s.row.value.response.Some?
  }

  predicate LockOk(s: State) {
    && (s.lock.Some? ==>
          && s.lock.value in s.workers && s.row.Some?
          && (s.workers[s.lock.value].Completing? || s.workers[s.lock.value].Deleting?))
    && (forall p :: p in s.workers && s.workers[p].Completing? ==>
          s.lock == Some(p) && HeldBy(s.row, s.workers[p].hash))
    && (forall p :: p in s.workers && s.workers[p].Deleting? ==> s.lock == Some(p))
  }

  predicate ReplaysOk(s: State) {
    forall r :: r in s.replays ==>
      0 < r.commits <= |s.commits| && s.commits[r.commits - 1] == Done(r.hash, r.response)
  }

  predicate Invariant(s: State) {
    && LockOk(s) && RowIsLast(s) && ReplaysOk(s)
    && |s.commits| == s.deletions + (if IsCompleted(s.row) then 1 else 0)
  }

  lemma {:induction false} NextLock(s: State, l: Label)
    requires LockOk(s) && Next(s, l).Some?
    ensures LockOk(Next(s, l).value)
  {}

  lemma {:induction false} NextCounts(s: State, l: Label)
    requires LockOk(s) && RowIsLast(s) && |s.commits| == s.deletions + (if IsCompleted(s.row) then 1 else 0)
    requires Next(s, l).Some?
    ensures var s' := Next(s, l).value;
      RowIsLast(s') && |s'.commits| == s'.deletions + (if IsCompleted(s'.row) then 1 else 0)
  {}

  lemma {:induction false} NextReplays(s: State, l: Label)
    requires RowIsLast(s) && ReplaysOk(s) && Next(s, l).Some?
    ensures ReplaysOk(Next(s, l).value)
  {
    var s' := Next(s, l).value;
    assert s.commits <= s'.commits;
    forall r | r in s'.replays ensures 0 < r.commits <= |s'.commits| && s'.commits[r.commits - 1] == Done(r.hash, r.response) {
      assert r in s.replays || (l.Read? && r == s'.replays[|s.replays|]);
    }
  }

  lemma {:induction false} NextKeeps(s: State, l: Label)
    requires Invariant(s) && Next(s, l).Some?
    ensures Invariant(Next(s, l).value)
  {
    NextLock(s, l);
    NextCounts(s, l);
    NextReplays(s, l);
  }

  lemma {:induction false} StepsKeep(s: State, ls: seq<Label>)
    requires Invariant(s) && Steps(s, ls).Some?
    ensures Invariant(Steps(s, ls).value)
    decreases |ls|
  {
    if ls != [] {
      NextKeeps(s, ls[0]);
      StepsKeep(Next(s, ls[0]).value, ls[1..]);
    }
  }

  /**
   Whatever interleaves, dies or is deleted: committed works are the committed deletions of
   a completed key, plus one if the key is completed now. Without such a deletion a key
   protects at most one work, ever.
   */
  lemma {:induction false} WorksOnce(ls: seq<Label>)
    requires Steps(START, ls).Some?
    ensures var s := Steps(START, ls).value;
      && |s.commits| == s.deletions + (if IsCompleted(s.row) then 1 else 0)
      && (s.deletions == 0 ==> |s.commits| <= 1)
  {
    StepsKeep(START, ls);
  }

  /** A replay is the response of the last work committed by then, given to a request with the same hash only. */
  lemma {:induction false} ReplaysAreCommitted(ls: seq<Label>, i: nat)
    requires Steps(START, ls).Some? && i < |Steps(START, ls).value.replays|
    ensures var s := Steps(START, ls).value;
      var r := s.replays[i];
      0 < r.commits <= |s.commits| && s.commits[r.commits - 1] == Done(r.hash, r.response)
  {
    StepsKeep(START, ls);
    var s := Steps(START, ls).value;
    assert s.replays[i] in s.replays;
  }

  // ---- What can happen ----

  /** A first request works and commits; a duplicate after it gets the same response. */
  lemma {:induction false} WorksThenReplays(p: nat, q: nat, hash: Hash, response: Response)
    requires p != q
    ensures var s1 := Next(START, Claim(p, hash));
      && s1.Some?
      && var s2 := Next(s1.value, Complete(p, response));
      && s2.Some?
      && var s3 := Next(s2.value, Commit(p, true));
      && s3.Some? && s3.value.commits == [Done(hash, response)]
      && var s4 := Next(s3.value, Claim(q, hash));
      && s4.Some?
      && var s5 := Next(s4.value, Read(q));
      && s5.Some? && s5.value.replays == [Replayed(hash, response, 1)] && s5.value.commits == s3.value.commits
  {}

  /** A key whose work failed can be claimed again, with another body. */
  lemma {:induction false} FailedIsRetried(p: nat, q: nat, hash: Hash, other: Hash, response: Response)
    requires p != q
    ensures var s1 := Next(START, Claim(p, hash));
      && s1.Some?
      && var s2 := Next(s1.value, Throw(p));
      && s2.Some?
      && var s3 := Next(s2.value, Release(p));
      && s3.Some?
      && var s4 := Next(s3.value, Claim(q, other));
      && s4.Some?
      && var s5 := Next(s4.value, Complete(q, response));
      && s5.Some?
      && var s6 := Next(s5.value, Commit(q, true));
      && s6.Some? && s6.value.commits == [Done(other, response)]
  {}
}
