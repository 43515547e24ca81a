/** The key table and the service that runs a write under a key, one request at a time. */
module IdempotencyService {
  import opened Wrappers
  import opened Idempotency

  datatype Key = Key(org: nat, endpoint: nat, key: nat)

  datatype Stored = Stored(row: Row, updatedAt: int)

  datatype ClaimOutcome = Claimed | Taken(row: Row)

  datatype ServiceError = KeyReused | InProgressError | NoLongerHeld | WorkFailed

  class KeyTable {
    var rows: map<Key, Stored>

    constructor ()
      ensures rows == map[]
    {
      rows := map[];
    }

    function At(key: Key): Option<Row>
      reads this
    {
      if key in rows then Some(rows[key].row) else None
    }

    method Claim(key: Key, hash: Hash, now: int) returns (outcome: ClaimOutcome)
      modifies this
      ensures if Claims(old(At(key)))
              then outcome == Claimed && rows == old(rows)[key := Stored(Row(InProgress, hash, None), now)]
              else outcome == Taken(old(At(key)).value) && rows == old(rows)
    {
      if key !in rows || rows[key].row.status == Failed {
        rows := rows[key := Stored(Row(InProgress, hash, None), now)];
        return Claimed;
      }
      outcome := Taken(rows[key].row);
    }

    /** False, with nothing changed, when the claim vanished or changed hands. */
    method Complete(key: Key, hash: Hash, response: Response, now: int) returns (held: bool)
      modifies this
      ensures held <==> HeldBy(old(At(key)), hash)
      ensures rows == if held then old(rows)[key := Stored(Row(Completed, hash, Some(response)), now)] else old(rows)
    {
      held := key in rows && rows[key].row.hash == hash && rows[key].row.status == InProgress;
      if held {
        rows := rows[key := Stored(rows[key].row.(status := Completed, response := Some(response)), now)];
      }
    }

    method Release(key: Key, hash: Hash, now: int)
      modifies this
      ensures rows ==
        if HeldBy(old(At(key)), hash)
        then old(rows)[key := Stored(old(rows)[key].row.(status := Failed), now)]
        else old(rows)
    {
      if key in rows && rows[key].row.hash == hash && rows[key].row.status == InProgress {
        rows := rows[key := Stored(rows[key].row.(status := Failed), now)];
      }
    }

    /** By the time of the last claim or change, so a key claimed again just now survives. */
    method DeleteExpired(before: int) returns (deleted: nat)
      modifies this
      ensures forall k :: k in rows <==> k in old(rows) && old(rows)[k].updatedAt >= before
      ensures forall k :: k in rows ==> rows[k] == old(rows)[k]
      ensures deleted == |old(rows)| - |rows|
    {
      var expired := set k | k in rows && rows[k].updatedAt < before;
      ghost var all := rows;
      rows := rows - expired;
      deleted := |expired|;
      assert rows.Keys == all.Keys - expired && expired <= all.Keys;
      assert |all.Keys - expired| == |all.Keys| - |expired|;
    }
  }

  /**
   `work` is what the caller's transaction comes to, `releases` whether the release gets
   through, `worked` whether the work committed.
   */
  method Execute(keys: KeyTable, key: Key, hash: Hash, work: Outcome<Response, ()>, releases: bool, now: int)
    returns (r: Outcome<Response, ServiceError>, worked: bool)
    modifies keys
    ensures worked ==> Claims(old(keys.At(key))) && work.Ok? && r == Ok(work.value)
    ensures worked ==> keys.At(key) == Some(Row(Completed, hash, Some(work.value)))
    ensures Claims(old(keys.At(key))) && work.Ok? ==> worked
    ensures Claims(old(keys.At(key))) && work.Fail? ==>
      r == Fail(WorkFailed) && keys.At(key) == Some(Row(if releases then Failed else InProgress, hash, None))
    ensures !Claims(old(keys.At(key))) ==>
      var row := old(keys.At(key)).value;
      && keys.rows == old(keys.rows)
      && (r.Ok? <==> row.hash == hash && row.status == Completed)
      && (r.Ok? ==> r.value == row.response.GetOr(0))
      && (row.hash != hash ==> r == Fail(KeyReused))
      && (row.hash == hash && row.status == InProgress ==> r == Fail(InProgressError))
    ensures forall k :: k != key ==> keys.At(k) == old(keys.At(k))
  {
    worked := false;
    var outcome := keys.Claim(key, hash, now);
    if outcome.Taken? {
      if outcome.row.hash != hash { return Fail(KeyReused), false; }
      if outcome.row.status != Completed { return Fail(InProgressError), false; }
      return Ok(outcome.row.response.GetOr(0)), false;
    }
    var failure := WorkFailed;
    if work.Ok? {
      var held := keys.Complete(key, hash, work.value, now);
      if held { return Ok(work.value), true; }
      failure := NoLongerHeld;
    }
    if releases {
      keys.Release(key, hash, now);
    }
    r := Fail(failure);
  }
}
