/** The refresh, logout and session-ending use cases, statement by statement on the token table. */
module RefreshSession {
  import opened Wrappers
  import opened RefreshTokens

  datatype Known = Known(family: Id, spent: bool)

  class TokenRepository {
    var rows: Table

    constructor ()
      ensures rows == map[]
    {
      rows := map[];
    }

    method Create(hash: Hash, t: Token)
      modifies this
      ensures rows == old(rows)[hash := t]
    {
      rows := rows[hash := t];
    }

    /** The row as it was, now used; None, and no change, when the update matches nothing. */
    method Claim(hash: Hash, now: int) returns (claimed: Option<Token>)
      modifies this
      ensures if Claimable(old(rows), hash, now)
              then claimed == Some(old(rows)[hash]) && rows == MarkUsed(old(rows), hash)
              else claimed == None && rows == old(rows)
      ensures claimed.Some? <==> Good(old(rows), hash, now)
      ensures claimed.Some? ==> rows == old(rows)[hash := old(rows)[hash].(used := true)]
    {
      if Claimable(rows, hash, now) {
        claimed := Some(rows[hash]);
        rows := rows[hash := rows[hash].(used := true)];
      } else {
        claimed := None;
      }
    }

    method FindByHash(hash: Hash) returns (known: Option<Known>)
      ensures known.Some? <==> hash in rows
      ensures known.Some? ==> known.value == Known(rows[hash].family, rows[hash].used || rows[hash].revoked)
    {
      known := if hash in rows then Some(Known(rows[hash].family, rows[hash].used || rows[hash].revoked)) else None;
    }

    method RevokeFamily(family: Id)
      modifies this
      ensures rows == Revoke(old(rows), LiveOfFamily(old(rows), family))
      ensures forall h :: h in old(rows) && old(rows)[h].family == family ==> Dead(rows, family)
    {
      rows := map h | h in rows :: if rows[h].family == family then rows[h].(revoked := true) else rows[h];
      assert forall h :: h in old(rows) && old(rows)[h].family == family ==> h in rows && rows[h].revoked;
    }

    method RevokeAllForUser(user: Id)
      modifies this
      ensures rows == Revoke(old(rows), LiveOfUser(old(rows), user))
      ensures forall h :: h in old(rows) && old(rows)[h].user == user ==> Dead(rows, old(rows)[h].family)
    {
      rows := map h | h in rows :: if rows[h].user == user then rows[h].(revoked := true) else rows[h];
      forall h | h in old(rows) && old(rows)[h].user == user ensures Dead(rows, old(rows)[h].family) {
        assert h in rows && rows[h].revoked;
      }
    }
  }

  datatype SessionFamily = SessionFamily(id: Id, expiresAt: int)

  /** A new family on login, the given one on rotation. */
  method IssueSession(cfg: Settings, tokens: TokenRepository, user: Id, org: Id, family: Option<SessionFamily>,
                      freshFamily: Id, freshHash: Hash, now: int) returns (t: Token)
    modifies tokens
    ensures t == (if family.Some?
                  then NewToken(cfg, user, org, family.value.id, family.value.expiresAt, now)
                  else NewToken(cfg, user, org, freshFamily, now + cfg.sessionMax, now))
    ensures t.expiresAt <= t.sessionExpiresAt && t.expiresAt <= now + cfg.refreshTtl
    ensures t.expiresAt == t.sessionExpiresAt || t.expiresAt == now + cfg.refreshTtl
    ensures t.user == user && t.org == org && !t.used && !t.revoked
    ensures if family.Some? then t.family == family.value.id && t.sessionExpiresAt == family.value.expiresAt
            else t.family == freshFamily && t.sessionExpiresAt == now + cfg.sessionMax
    ensures tokens.rows == old(tokens.rows)[freshHash := t]
  {
    var session := if family.Some? then family.value else SessionFamily(freshFamily, now + cfg.sessionMax);
    t := NewToken(cfg, user, org, session.id, session.expiresAt, now);
    tokens.Create(freshHash, t);
  }

  /** Alone on the table; `member` is whether the membership is still active. */
  method Refresh(cfg: Settings, tokens: TokenRepository, raw: Option<Hash>, member: bool, freshHash: Hash, now: int)
    returns (session: Option<Token>)
    requires freshHash !in tokens.rows
    modifies tokens
    ensures session.Some? <==> raw.Some? && Good(old(tokens.rows), raw.value, now) && member
    ensures session.Some? ==>
      var claimed := old(tokens.rows)[raw.value];
      && session.value.user == claimed.user && session.value.family == claimed.family
      && session.value.sessionExpiresAt == claimed.sessionExpiresAt && !session.value.used && !session.value.revoked
    ensures raw == None ==> session == None && tokens.rows == old(tokens.rows)
    ensures raw.Some? && Claimable(old(tokens.rows), raw.value, now) && member ==>
      var claimed := old(tokens.rows)[raw.value];
      && session == Some(NewToken(cfg, claimed.user, claimed.org, claimed.family, claimed.sessionExpiresAt, now))
      && tokens.rows == MarkUsed(old(tokens.rows), raw.value)[freshHash := session.value]
    ensures raw.Some? && Claimable(old(tokens.rows), raw.value, now) && !member ==>
      session == None && Dead(tokens.rows, old(tokens.rows)[raw.value].family)
    ensures raw.Some? && !Claimable(old(tokens.rows), raw.value, now) ==>
      var t := old(tokens.rows);
      && session == None
      && (if raw.value in t && (t[raw.value].used || t[raw.value].revoked)
          then Dead(tokens.rows, t[raw.value].family)
               && tokens.rows == Revoke(t, LiveOfFamily(t, t[raw.value].family))
          else tokens.rows == t)
  {
    if raw.None? { return None; }
    var claimed := tokens.Claim(raw.value, now);
    if claimed.None? {
      var known := tokens.FindByHash(raw.value);
      if known.Some? && known.value.spent {
        tokens.RevokeFamily(known.value.family);
      }
      return None;
    }
    if !member {
      assert raw.value in tokens.rows && tokens.rows[raw.value].family == claimed.value.family;
      tokens.RevokeFamily(claimed.value.family);
      return None;
    }
    var t := IssueSession(cfg, tokens, claimed.value.user, claimed.value.org,
                          Some(SessionFamily(claimed.value.family, claimed.value.sessionExpiresAt)), 0, freshHash, now);
    session := Some(t);
  }

  method Logout(tokens: TokenRepository, raw: Option<Hash>)
    modifies tokens
    ensures if raw.Some? && raw.value in old(tokens.rows)
            then Dead(tokens.rows, old(tokens.rows)[raw.value].family)
                 && tokens.rows == Revoke(old(tokens.rows),
                                          LiveOfFamily(old(tokens.rows), old(tokens.rows)[raw.value].family))
            else tokens.rows == old(tokens.rows)
  {
    if raw.Some? {
      var known := tokens.FindByHash(raw.value);
      if known.Some? {
        tokens.RevokeFamily(known.value.family);
      }
    }
  }
}
