/**
 Refresh-token families: rotation with reuse detection, as in section 4.14.2 of RFC 9700.

 A refresh runs on an autocommit handle, so other requests run between any two of its
 statements; the revocation behind a password change or a deactivation runs in a
 transaction, which holds the rows it has updated until it commits or rolls back.
 */
module RefreshTokens {
  import opened Wrappers

  type Id = nat
  type Hash = nat

  datatype Token = Token(
    user: Id, org: Id, family: Id, expiresAt: int, sessionExpiresAt: int, used: bool, revoked: bool)

  type Table = map<Hash, Token>

  /** A family, once revoked, stays dead: any revoked row marks it. */
  predicate Dead(tokens: Table, family: Id) {
    exists h :: h in tokens && tokens[h].family == family && tokens[h].revoked
  }

  /** The WHERE of the claiming update. */
  predicate Claimable(tokens: Table, hash: Hash, now: int) {
    && hash in tokens && !tokens[hash].used && !tokens[hash].revoked && tokens[hash].expiresAt > now
    && !Dead(tokens, tokens[hash].family)
  }

  function MarkUsed(tokens: Table, hash: Hash): Table
    requires hash in tokens
  {
    tokens[hash := tokens[hash].(used := true)]
  }

  function Revoke(tokens: Table, rows: set<Hash>): Table {
    map h | h in tokens :: if h in rows then tokens[h].(revoked := true) else tokens[h]
  }

  function LiveOfFamily(tokens: Table, family: Id): set<Hash> {
    set h | h in tokens && tokens[h].family == family && !tokens[h].revoked
  }

  function LiveOfUser(tokens: Table, user: Id): set<Hash> {
    set h | h in tokens && tokens[h].user == user && !tokens[h].revoked
  }

  function Min(a: int, b: int): int { if a < b then a else b }

  datatype Settings = Settings(refreshTtl: nat, sessionMax: nat)

  /** The row `issue` creates; a token never outlives its session. */
  function NewToken(cfg: Settings, user: Id, org: Id, family: Id, sessionExpiresAt: int, now: int): Token {
    Token(user, org, family, Min(now + cfg.refreshTtl, sessionExpiresAt), sessionExpiresAt, false, false)
  }

  // ---- Requests in flight ----

  datatype Proc =
    | Proven(user: Id, org: Id)                // password checked against what was read; a session is issued next
    | Claimed(token: Hash)                     // claimed; the membership is read next
    | Allowed(token: Hash)                     // membership found; a token is issued next
    | Refused(family: Id)                      // no membership, spent token or logout: the family is revoked next
    | Unclaimed(hash: Hash)                    // nothing claimed; the token is looked up next
    | Ending(user: Id, rows: set<Hash>)        // account update: rows revoked, not yet committed

  /**
   `chains` records, per family, its tokens in the order they were issued; it is history
   and no statement reads it.
   */
  datatype State = State(tokens: Table, procs: map<nat, Proc>, now: int, chains: map<Id, seq<Hash>>)

  datatype Label =
    | CheckCredentials(p: nat, user: Id, org: Id)
    | Login(p: nat, family: Id, hash: Hash, user: Id, org: Id)
    | Claim(p: nat, hash: Hash)
    | Find(p: nat)
    | Check(p: nat, member: bool)
    | Issue(p: nat, hash: Hash)
    | RevokeFamily(p: nat)
    | Logout(p: nat, hash: Hash)
    | EndSessions(p: nat, user: Id)
    | CommitEnd(p: nat)
    | Crash(p: nat)
    | Tick(ms: nat)

  function Locked(s: State): set<Hash> {
    set p, h | p in s.procs && s.procs[p].Ending? && h in s.procs[p].rows :: h
  }

  function Issued(s: State, hash: Hash, t: Token): State {
    s.(tokens := s.tokens[hash := t],
       chains := s.chains[t.family := (if t.family in s.chains then s.chains[t.family] else []) + [hash]])
  }

  function Finish(s: State, p: nat): State { s.(procs := s.procs - {p}) }

  function Goto(s: State, p: nat, proc: Proc): State { s.(procs := s.procs[p := proc]) }

  /** One statement of one request, or None when it cannot happen (a new id that is not new, a locked row). */
  function Next(cfg: Settings, s: State, l: Label): Option<State> {
    match l
    case CheckCredentials(p, user, org) =>
      if p in s.procs then None else Some(Goto(s, p, Proven(user, org)))
    case Login(p, family, hash, user, org) =>
      if p !in s.procs || s.procs[p] != Proven(user, org) || family in s.chains || hash in s.tokens then None
      else Some(Finish(Issued(s, hash, NewToken(cfg, user, org, family, s.now + cfg.sessionMax, s.now)), p))
    case Claim(p, hash) =>
      if p in s.procs then None
      else if !Claimable(s.tokens, hash, s.now) then Some(Goto(s, p, Unclaimed(hash)))
      else if hash in Locked(s) then None
      else Some(Goto(s.(tokens := MarkUsed(s.tokens, hash)), p, Claimed(hash)))
    case Find(p) =>
      if p !in s.procs || !s.procs[p].Unclaimed? then None
      else
        var hash := s.procs[p].hash;
        if hash in s.tokens && (s.tokens[hash].used || s.tokens[hash].revoked)
        then Some(Goto(s, p, Refused(s.tokens[hash].family)))
        else Some(Finish(s, p))
    case Check(p, member) =>
      if p !in s.procs || !s.procs[p].Claimed? || s.procs[p].token !in s.tokens then None
      else
        Some(Goto(s, p, if member then Allowed(s.procs[p].token) else Refused(s.tokens[s.procs[p].token].family)))
    case Issue(p, hash) =>
      if p !in s.procs || !s.procs[p].Allowed? || s.procs[p].token !in s.tokens || hash in s.tokens then None
      else
        var claimed := s.tokens[s.procs[p].token];
        var t := NewToken(cfg, claimed.user, claimed.org, claimed.family, claimed.sessionExpiresAt, s.now);
        Some(Finish(Issued(s, hash, t), p))
    case RevokeFamily(p) =>
      if p !in s.procs || !s.procs[p].Refused? then None
      else
        var rows := LiveOfFamily(s.tokens, s.procs[p].family);
        if rows * Locked(s) != {} then None else Some(Finish(s.(tokens := Revoke(s.tokens, rows)), p))
    case Logout(p, hash) =>
      if p in s.procs then None
      else if hash in s.tokens then Some(Goto(s, p, Refused(s.tokens[hash].family)))
      else Some(s)
    case EndSessions(p, user) =>
      if p in s.procs || LiveOfUser(s.tokens, user) * Locked(s) != {} then None
      else Some(Goto(s, p, Ending(user, LiveOfUser(s.tokens, user))))
    case CommitEnd(p) =>
      if p !in s.procs || !s.procs[p].Ending? then None
      else Some(Finish(s.(tokens := Revoke(s.tokens, s.procs[p].rows)), p))
    case Crash(p) =>
      if p !in s.procs then None else Some(Finish(s, p))
    case Tick(ms) => Some(s.(now := s.now + ms))
  }

  function Steps(cfg: Settings, s: State, ls: seq<Label>): Option<State>
    decreases |ls|
  {
    if ls == [] then Some(s)
    else
      match Next(cfg, s, ls[0])
      case None => None
      case Some(s') => Steps(cfg, s', ls[1..])
  }

  const START := State(map[], map[], 0, map[])

  // ---- The invariant ----

  predicate InFlight(proc: Proc) { proc.Claimed? || proc.Allowed? }

  function Last(chain: seq<Hash>): Hash
    requires chain != []
  {
    chain[|chain| - 1]
  }

  /** The chain of a family holds exactly its tokens; only the newest can be unused. */
  predicate ChainOk(s: State, family: Id, chain: seq<Hash>) {
    && chain != []
    && (forall h :: h in chain ==> h in s.tokens && s.tokens[h].family == family)
    && (forall i :: 0 <= i < |chain| - 1 ==> s.tokens[chain[i]].used)
    && (forall h :: h in chain ==>
          && s.tokens[h].user == s.tokens[chain[0]].user
          && s.tokens[h].sessionExpiresAt == s.tokens[chain[0]].sessionExpiresAt
          && s.tokens[h].expiresAt <= s.tokens[h].sessionExpiresAt)
  }

  /** A claim not yet followed by an issue claimed the newest token of its family. */
  predicate FlightOk(s: State, proc: Proc) {
    InFlight(proc) ==>
      && proc.token in s.tokens && s.tokens[proc.token].used
      && s.tokens[proc.token].family in s.chains
      && s.chains[s.tokens[proc.token].family] != []
      && proc.token == Last(s.chains[s.tokens[proc.token].family])
  }

  /** At most one request at a time follows up on a claimed token. */
  predicate FlightsOk(s: State) {
    && (forall p :: p in s.procs ==> FlightOk(s, s.procs[p]))
    && (forall p, q :: p in s.procs && q in s.procs && p != q && InFlight(s.procs[p]) && InFlight(s.procs[q]) ==>
          s.procs[p].token != s.procs[q].token)
    && (forall p :: p in s.procs && s.procs[p].Ending? ==> s.procs[p].rows <= s.tokens.Keys)
  }

  predicate ChainsOk(s: State) {
    && (forall f :: f in s.chains ==> ChainOk(s, f, s.chains[f]))
    && (forall h :: h in s.tokens ==> s.tokens[h].family in s.chains && h in s.chains[s.tokens[h].family])
  }

  predicate Invariant(s: State) {
    ChainsOk(s) && FlightsOk(s)
  }

  /** The same rows, possibly with more `used` and `revoked` marks. */
  predicate MoreMarks(t: Table, t': Table) {
    && t'.Keys == t.Keys
    && forall h :: h in t ==>
         && t'[h].(used := t[h].used, revoked := t[h].revoked) == t[h]
         && (t[h].used ==> t'[h].used) && (t[h].revoked ==> t'[h].revoked)
  }

  lemma {:induction false} ChainKept(s: State, s': State, f: Id)
    requires f in s.chains && ChainOk(s, f, s.chains[f]) && f in s'.chains && s'.chains[f] == s.chains[f]
    requires s.tokens.Keys <= s'.tokens.Keys
    requires forall h :: h in s.chains[f] ==> (
      && s'.tokens[h].(used := s.tokens[h].used, revoked := s.tokens[h].revoked) == s.tokens[h]
      && (s.tokens[h].used ==> s'.tokens[h].used))
    ensures ChainOk(s', f, s'.chains[f])
  {}

  lemma {:induction false} MarksKeep(s: State, s': State)
    requires ChainsOk(s) && s'.chains == s.chains && MoreMarks(s.tokens, s'.tokens)
    ensures ChainsOk(s')
  {
    forall f | f in s'.chains ensures ChainOk(s', f, s'.chains[f]) {
      ChainKept(s, s', f);
    }
  }

  lemma {:induction false} FlightKept(s: State, s': State, proc: Proc)
    requires FlightOk(s, proc) && s'.chains == s.chains && MoreMarks(s.tokens, s'.tokens)
    ensures FlightOk(s', proc)
  {}

  /** A step of one request that is not in flight afterwards, or was on the same token before. */
  predicate Quiet(s: State, s': State, p: nat) {
    && s'.procs.Keys <= s.procs.Keys + {p}
    && (forall q :: q in s'.procs && q != p ==> q in s.procs && s'.procs[q] == s.procs[q])
    && (p in s'.procs && InFlight(s'.procs[p]) ==>
          p in s.procs && InFlight(s.procs[p]) && s.procs[p].token == s'.procs[p].token)
    && (p in s'.procs && s'.procs[p].Ending? ==> s'.procs[p].rows <= s.tokens.Keys)
  }

  lemma {:induction false} FlightsKept(s: State, s': State, p: nat)
    requires FlightsOk(s) && s'.chains == s.chains && MoreMarks(s.tokens, s'.tokens) && Quiet(s, s', p)
    ensures FlightsOk(s')
  {
    forall q | q in s'.procs ensures FlightOk(s', s'.procs[q]) {
      if q in s.procs {
        FlightKept(s, s', s.procs[q]);
        if q == p && InFlight(s'.procs[p]) {
          assert s'.procs[p].token == s.procs[p].token;
        }
      }
    }
  }

  lemma {:induction false} ProcKeeps(s: State, s': State, p: nat)
    requires Invariant(s) && s'.chains == s.chains && MoreMarks(s.tokens, s'.tokens) && Quiet(s, s', p)
    ensures Invariant(s')
  {
    MarksKeep(s, s');
    FlightsKept(s, s', p);
  }

  /** An unused token is the newest of its family. */
  lemma {:induction false} UnusedIsNewest(s: State, hash: Hash)
    requires ChainsOk(s) && hash in s.tokens && !s.tokens[hash].used
    ensures var f := s.tokens[hash].family;
      f in s.chains && s.chains[f] != [] && hash == Last(s.chains[f])
  {
    var f := s.tokens[hash].family;
    assert ChainOk(s, f, s.chains[f]);
    var i :| 0 <= i < |s.chains[f]| && s.chains[f][i] == hash;
    assert i == |s.chains[f]| - 1;
  }

  lemma {:induction false} ClaimFlights(s: State, p: nat, hash: Hash)
    requires FlightsOk(s) && p !in s.procs && hash in s.tokens && !s.tokens[hash].used
    requires s.tokens[hash].family in s.chains && s.chains[s.tokens[hash].family] != []
    requires hash == Last(s.chains[s.tokens[hash].family])
    ensures FlightsOk(Goto(s.(tokens := MarkUsed(s.tokens, hash)), p, Claimed(hash)))
  {
    var s' := Goto(s.(tokens := MarkUsed(s.tokens, hash)), p, Claimed(hash));
    forall q | q in s'.procs ensures FlightOk(s', s'.procs[q]) {
      if q != p { FlightKept(s, s', s.procs[q]); }
    }
    forall q | q in s.procs && InFlight(s.procs[q]) ensures s.procs[q].token != hash {
      assert FlightOk(s, s.procs[q]);
    }
  }

  lemma {:induction false} ClaimKeeps(s: State, p: nat, hash: Hash)
    requires Invariant(s) && p !in s.procs && Claimable(s.tokens, hash, s.now)
    ensures Invariant(Goto(s.(tokens := MarkUsed(s.tokens, hash)), p, Claimed(hash)))
  {
    UnusedIsNewest(s, hash);
    MarksKeep(s, Goto(s.(tokens := MarkUsed(s.tokens, hash)), p, Claimed(hash)));
    ClaimFlights(s, p, hash);
  }

  lemma {:induction false} IssuedFlight(s: State, s': State, proc: Proc, hash: Hash, f: Id)
    requires FlightOk(s, proc) && hash !in s.tokens
    requires InFlight(proc) ==> s.tokens[proc.token].family != f
    requires forall h :: h in s.tokens ==> h in s'.tokens && s'.tokens[h] == s.tokens[h]
    requires forall g :: g in s.chains && g != f ==> g in s'.chains && s'.chains[g] == s.chains[g]
    ensures FlightOk(s', proc)
  {}

  /** The chain a new token joins or begins. */
  lemma {:induction false} JoinedChain(s: State, s': State, f: Id, before: seq<Hash>, hash: Hash)
    requires hash !in s.tokens && hash in s'.tokens && s'.tokens[hash].family == f
    requires s'.tokens[hash].expiresAt <= s'.tokens[hash].sessionExpiresAt
    requires forall h :: h in s.tokens ==> h in s'.tokens && s'.tokens[h] == s.tokens[h]
    requires before != [] ==>
      && ChainOk(s, f, before)
      && var last := s.tokens[Last(before)];
         last.used && last.user == s'.tokens[hash].user && last.sessionExpiresAt == s'.tokens[hash].sessionExpiresAt
    ensures ChainOk(s', f, before + [hash])
  {
    var chain := before + [hash];
    if before != [] {
      assert chain[0] == before[0] && Last(before) in before;
      forall i | 0 <= i < |chain| - 1 ensures s'.tokens[chain[i]].used {
        assert chain[i] == before[i] && before[i] in before;
      }
    }
  }

  lemma {:induction false} OtherChains(s: State, hash: Hash, t: Token)
    requires ChainsOk(s) && hash !in s.tokens
    ensures var s' := Issued(s, hash, t);
      forall g :: g in s'.chains && g != t.family ==> ChainOk(s', g, s'.chains[g])
  {
    var s' := Issued(s, hash, t);
    forall g | g in s'.chains && g != t.family ensures ChainOk(s', g, s'.chains[g]) {
      assert ChainOk(s, g, s.chains[g]);
      ChainKept(s, s', g);
    }
  }

  /** A new token at the end of a chain whose tokens are all used, or in a chain of its own. */
  lemma {:induction false} IssuedKeeps(s: State, hash: Hash, t: Token)
    requires ChainsOk(s) && hash !in s.tokens
    requires t.expiresAt <= t.sessionExpiresAt
    requires t.family in s.chains ==>
      var last := s.tokens[Last(s.chains[t.family])];
      last.used && last.user == t.user && last.sessionExpiresAt == t.sessionExpiresAt
    ensures ChainsOk(Issued(s, hash, t))
  {
    var s' := Issued(s, hash, t);
    var before := if t.family in s.chains then s.chains[t.family] else [];
    if t.family in s.chains { assert ChainOk(s, t.family, before); }
    JoinedChain(s, s', t.family, before, hash);
    OtherChains(s, hash, t);
    forall h | h in s'.tokens ensures s'.tokens[h].family in s'.chains && h in s'.chains[s'.tokens[h].family] {
      if h != hash { assert h in s.chains[s.tokens[h].family]; }
    }
  }

  lemma {:induction false} LoginKeeps(s: State, family: Id, hash: Hash, t: Token)
    requires Invariant(s) && family !in s.chains && hash !in s.tokens
    requires t.family == family && t.expiresAt <= t.sessionExpiresAt
    ensures Invariant(Issued(s, hash, t))
  {
    var s' := Issued(s, hash, t);
    IssuedKeeps(s, hash, t);
    forall p | p in s'.procs ensures FlightOk(s', s'.procs[p]) {
      IssuedFlight(s, s', s.procs[p], hash, family);
    }
  }

  lemma {:induction false} IssueFlights(s: State, p: nat, hash: Hash, t: Token)
    requires FlightsOk(s) && p in s.procs && InFlight(s.procs[p]) && hash !in s.tokens
    requires t.family == s.tokens[s.procs[p].token].family
    ensures FlightsOk(Finish(Issued(s, hash, t), p))
  {
    var s' := Finish(Issued(s, hash, t), p);
    assert FlightOk(s, s.procs[p]);
    forall q | q in s'.procs ensures FlightOk(s', s'.procs[q]) {
      assert FlightOk(s, s.procs[q]);
      IssuedFlight(s, s', s.procs[q], hash, t.family);
    }
  }

  lemma {:induction false} IssueKeeps(cfg: Settings, s: State, p: nat, hash: Hash)
    requires Invariant(s) && Next(cfg, s, Issue(p, hash)).Some?
    ensures Invariant(Next(cfg, s, Issue(p, hash)).value)
  {
    var claimed := s.tokens[s.procs[p].token];
    var t := NewToken(cfg, claimed.user, claimed.org, claimed.family, claimed.sessionExpiresAt, s.now);
    assert FlightOk(s, s.procs[p]);
    IssuedKeeps(s, hash, t);
    IssueFlights(s, p, hash, t);
    var s1 := Issued(s, hash, t);
    MarksKeep(s1, Finish(s1, p));
  }

  lemma {:induction false} RevokeMarks(tokens: Table, rows: set<Hash>)
    ensures MoreMarks(tokens, Revoke(tokens, rows))
  {}

  /** Every other statement only marks rows and moves its own request on. */
  lemma {:induction false} QuietNext(cfg: Settings, s: State, l: Label)
    requires Next(cfg, s, l).Some? && !l.Login? && !l.Issue? && !l.Tick?
    requires l.Claim? ==> !Claimable(s.tokens, l.hash, s.now)
    ensures var s' := Next(cfg, s, l).value;
      s'.chains == s.chains && MoreMarks(s.tokens, s'.tokens) && Quiet(s, s', l.p)
  {
    match l
    case RevokeFamily(p) => RevokeMarks(s.tokens, LiveOfFamily(s.tokens, s.procs[p].family));
    case CommitEnd(p) => RevokeMarks(s.tokens, s.procs[p].rows);
    case _ =>
  }

  lemma {:induction false} FinishKeeps(s: State, p: nat)
    requires Invariant(s)
    ensures Invariant(Finish(s, p))
  {
    assert MoreMarks(s.tokens, s.tokens);
    ProcKeeps(s, Finish(s, p), p);
  }

  lemma {:induction false} LoginStep(cfg: Settings, s: State, p: nat, family: Id, hash: Hash, user: Id, org: Id)
    requires Invariant(s) && family !in s.chains && hash !in s.tokens
    ensures Invariant(Finish(Issued(s, hash, NewToken(cfg, user, org, family, s.now + cfg.sessionMax, s.now)), p))
  {
    var t := NewToken(cfg, user, org, family, s.now + cfg.sessionMax, s.now);
    LoginKeeps(s, family, hash, t);
    FinishKeeps(Issued(s, hash, t), p);
  }

  /** What a login, and a claim that matches, come to. */
  lemma {:induction false} LoginNext(cfg: Settings, s: State, l: Label)
    requires l.Login? && Next(cfg, s, l).Some?
    ensures l.family !in s.chains && l.hash !in s.tokens
    ensures Next(cfg, s, l).value ==
      Finish(Issued(s, l.hash, NewToken(cfg, l.user, l.org, l.family, s.now + cfg.sessionMax, s.now)), l.p)
  {}

  lemma {:induction false} ClaimNext(cfg: Settings, s: State, l: Label)
    requires l.Claim? && Next(cfg, s, l).Some? && Claimable(s.tokens, l.hash, s.now)
    ensures l.p !in s.procs
    ensures Next(cfg, s, l).value == Goto(s.(tokens := MarkUsed(s.tokens, l.hash)), l.p, Claimed(l.hash))
  {}

  lemma {:induction false} TickStep(s: State, ms: nat)
    requires Invariant(s)
    ensures Invariant(s.(now := s.now + ms))
  {
    ProcKeeps(s, s.(now := s.now + ms), 0);
  }

  lemma {:induction false} QuietStep(cfg: Settings, s: State, l: Label)
    requires Invariant(s) && Next(cfg, s, l).Some? && !l.Login? && !l.Issue? && !l.Tick?
    requires l.Claim? ==> !Claimable(s.tokens, l.hash, s.now)
    ensures Invariant(Next(cfg, s, l).value)
  {
    QuietNext(cfg, s, l);
    ProcKeeps(s, Next(cfg, s, l).value, l.p);
  }

  lemma {:induction false} NextKeeps(cfg: Settings, s: State, l: Label)
    requires Invariant(s) && Next(cfg, s, l).Some?
    ensures Invariant(Next(cfg, s, l).value)
  {
    if l.Login? {
      LoginNext(cfg, s, l);
      LoginStep(cfg, s, l.p, l.family, l.hash, l.user, l.org);
    } else if l.Issue? {
      IssueKeeps(cfg, s, l.p, l.hash);
    } else if l.Tick? {
      TickStep(s, l.ms);
    } else if l.Claim? && Claimable(s.tokens, l.hash, s.now) {
      ClaimNext(cfg, s, l);
      ClaimKeeps(s, l.p, l.hash);
    } else {
      QuietStep(cfg, s, l);
    }
  }

  lemma {:induction false} StepsKeep(cfg: Settings, s: State, ls: seq<Label>)
    requires Invariant(s) && Steps(cfg, s, ls).Some?
    ensures Invariant(Steps(cfg, s, ls).value)
    decreases |ls|
  {
    if ls != [] {
      NextKeeps(cfg, s, ls[0]);
      StepsKeep(cfg, Next(cfg, s, ls[0]).value, ls[1..]);
    }
  }

  // ---- Main results ----

  function Usable(s: State, family: Id): set<Hash> {
    set h | h in s.tokens && s.tokens[h].family == family && !s.tokens[h].used && !s.tokens[h].revoked
  }

  function Following(s: State, family: Id): set<nat> {
    set p | p in s.procs && InFlight(s.procs[p]) && s.procs[p].token in s.tokens
            && s.tokens[s.procs[p].token].family == family
  }

  lemma {:induction false} AtMostOne<T>(xs: set<T>)
    requires forall x, y :: x in xs && y in xs ==> x == y
    ensures |xs| <= 1
  {
    if xs != {} {
      var x :| x in xs;
      assert xs == {x};
    }
  }

  lemma {:induction false} LiveOnce(s: State, family: Id)
    requires Invariant(s)
    ensures |Usable(s, family)| + |Following(s, family)| <= 1
  {
    forall h | h in Usable(s, family) ensures family in s.chains && s.chains[family] != [] && h == Last(s.chains[family]) {
      UnusedIsNewest(s, h);
    }
    forall p | p in Following(s, family)
      ensures family in s.chains && s.chains[family] != [] && s.procs[p].token == Last(s.chains[family])
      ensures s.tokens[s.procs[p].token].used
    {
      assert FlightOk(s, s.procs[p]);
    }
    AtMostOne(Usable(s, family));
    AtMostOne(Following(s, family));
    if h :| h in Usable(s, family) {
      assert Following(s, family) == {};
    }
  }

  /**
   In every interleaving, the tokens of a family that could still be claimed plus the
   claims not yet followed by an issue number at most one.
   */
  lemma {:induction false} RotationNeverForks(cfg: Settings, ls: seq<Label>, family: Id)
    requires Steps(cfg, START, ls).Some?
    ensures var s := Steps(cfg, START, ls).value; |Usable(s, family)| + |Following(s, family)| <= 1
  {
    StepsKeep(cfg, START, ls);
    LiveOnce(Steps(cfg, START, ls).value, family);
  }

  /** The tokens of a family are one chain of rotations: one session end for all of them, and none outlives it. */
  lemma {:induction false} OneSession(cfg: Settings, ls: seq<Label>, a: Hash, b: Hash)
    requires Steps(cfg, START, ls).Some?
    requires var t := Steps(cfg, START, ls).value.tokens; a in t && b in t && t[a].family == t[b].family
    ensures var t := Steps(cfg, START, ls).value.tokens;
      t[a].sessionExpiresAt == t[b].sessionExpiresAt && t[a].user == t[b].user && t[a].expiresAt <= t[b].sessionExpiresAt
  {
    StepsKeep(cfg, START, ls);
    var s := Steps(cfg, START, ls).value;
    assert ChainOk(s, s.tokens[a].family, s.chains[s.tokens[a].family]);
  }

  predicate UsedToken(tokens: Table, family: Id, h: Hash) {
    h in tokens && tokens[h].family == family && tokens[h].used
  }

  lemma {:induction false} DeadStep(cfg: Settings, s: State, l: Label, family: Id)
    requires Dead(s.tokens, family) && Next(cfg, s, l).Some?
    ensures var s' := Next(cfg, s, l).value;
      Dead(s'.tokens, family) && forall h :: UsedToken(s'.tokens, family, h) ==> UsedToken(s.tokens, family, h)
  {
    var r :| r in s.tokens && s.tokens[r].family == family && s.tokens[r].revoked;
    var s' := Next(cfg, s, l).value;
    assert r in s'.tokens && s'.tokens[r].family == family && s'.tokens[r].revoked;
  }

  /**
   Once a family is revoked no claim in it succeeds again, in any continuation: no token
   becomes used that was not, whether it existed then or was issued afterwards by a
   refresh already in flight.
   */
  lemma {:induction false} NoClaimAfterRevocation(cfg: Settings, s: State, ls: seq<Label>, family: Id)
    requires Dead(s.tokens, family) && Steps(cfg, s, ls).Some?
    ensures var s' := Steps(cfg, s, ls).value;
      Dead(s'.tokens, family) && forall h :: UsedToken(s'.tokens, family, h) ==> UsedToken(s.tokens, family, h)
    decreases |ls|
  {
    if ls != [] {
      DeadStep(cfg, s, ls[0], family);
      NoClaimAfterRevocation(cfg, Next(cfg, s, ls[0]).value, ls[1..], family);
    }
  }

  /** Revoking a family that has a token kills it: a replayed token, a logout, a lost membership. */
  lemma {:induction false} RevokeKills(cfg: Settings, s: State, p: nat)
    requires Next(cfg, s, RevokeFamily(p)).Some?
    requires exists h :: h in s.tokens && s.tokens[h].family == s.procs[p].family
    ensures Dead(Next(cfg, s, RevokeFamily(p)).value.tokens, s.procs[p].family)
  {
    var family := s.procs[p].family;
    var h :| h in s.tokens && s.tokens[h].family == family;
    var tokens := Next(cfg, s, RevokeFamily(p)).value.tokens;
    assert h in tokens && tokens[h].family == family && tokens[h].revoked;
  }

  /** A spent token presented again ends its family two statements later, unless the request dies in between. */
  lemma {:induction false} ReplayEndsFamily(cfg: Settings, s: State, p: nat, hash: Hash, between: seq<Label>)
    requires p in s.procs && s.procs[p] == Unclaimed(hash)
    requires hash in s.tokens && (s.tokens[hash].used || s.tokens[hash].revoked)
    requires forall l :: l in between ==> l.Tick? || l.p != p
    requires Steps(cfg, Next(cfg, s, Find(p)).value, between).Some?
    requires Next(cfg, Steps(cfg, Next(cfg, s, Find(p)).value, between).value, RevokeFamily(p)).Some?
    ensures Dead(Next(cfg, Steps(cfg, Next(cfg, s, Find(p)).value, between).value, RevokeFamily(p)).value.tokens,
                 s.tokens[hash].family)
  {
    var s1 := Next(cfg, s, Find(p)).value;
    OthersLeave(cfg, s1, between, p, hash);
    var s2 := Steps(cfg, s1, between).value;
    assert hash in s2.tokens && s2.tokens[hash].family == s2.procs[p].family;
    RevokeKills(cfg, s2, p);
  }

  lemma {:induction false} OthersLeave(cfg: Settings, s: State, ls: seq<Label>, p: nat, hash: Hash)
    requires Steps(cfg, s, ls).Some? && p in s.procs && hash in s.tokens
    requires forall l :: l in ls ==> l.Tick? || l.p != p
    ensures var s' := Steps(cfg, s, ls).value;
      && p in s'.procs && s'.procs[p] == s.procs[p]
      && hash in s'.tokens && s'.tokens[hash].family == s.tokens[hash].family
    decreases |ls|
  {
    if ls != [] {
      assert ls[0] in ls;
      OthersLeave(cfg, Next(cfg, s, ls[0]).value, ls[1..], p, hash);
    }
  }

  /**
   Committing a password change or a deactivation kills every family the user had a token
   in when the update read them, whatever ran between the statement and the commit.
   */
  lemma {:induction false} EndSessionsKills(cfg: Settings, s: State, p: nat, user: Id, between: seq<Label>, h: Hash)
    requires Next(cfg, s, EndSessions(p, user)).Some? && h in s.tokens && s.tokens[h].user == user
    requires forall l :: l in between ==> l.Tick? || l.p != p
    requires Steps(cfg, Next(cfg, s, EndSessions(p, user)).value, between).Some?
    ensures var s2 := Steps(cfg, Next(cfg, s, EndSessions(p, user)).value, between).value;
      && Next(cfg, s2, CommitEnd(p)).Some?
      && Dead(Next(cfg, s2, CommitEnd(p)).value.tokens, s.tokens[h].family)
  {
    var s1 := Next(cfg, s, EndSessions(p, user)).value;
    OthersLeave(cfg, s1, between, p, h);
    if s.tokens[h].revoked {
      assert Dead(s1.tokens, s.tokens[h].family);
      NoClaimAfterRevocation(cfg, s1, between, s.tokens[h].family);
    }
    var s2 := Steps(cfg, s1, between).value;
    var s3 := Next(cfg, s2, CommitEnd(p)).value;
    if !s.tokens[h].revoked {
      assert h in s3.tokens && s3.tokens[h].revoked && s3.tokens[h].family == s.tokens[h].family;
    } else {
      DeadStep(cfg, s2, CommitEnd(p), s.tokens[h].family);
    }
  }

  // ---- Expiry ----

  /** In no run is a token claimed that has expired, or whose session has ended. */
  lemma {:induction false} ClaimedInTime(cfg: Settings, ls: seq<Label>, p: nat, h: Hash)
    requires Steps(cfg, START, ls).Some?
    requires var s := Steps(cfg, START, ls).value;
      && Next(cfg, s, Claim(p, h)).Some? && p in Next(cfg, s, Claim(p, h)).value.procs
      && Next(cfg, s, Claim(p, h)).value.procs[p] == Claimed(h)
    ensures var s := Steps(cfg, START, ls).value;
      h in s.tokens && s.now < s.tokens[h].expiresAt <= s.tokens[h].sessionExpiresAt
  {
    StepsKeep(cfg, START, ls);
    var s := Steps(cfg, START, ls).value;
    assert ChainOk(s, s.tokens[h].family, s.chains[s.tokens[h].family]);
  }

  /** One step after the end of a session marks none of its tokens used. */
  lemma {:induction false} EndedStep(cfg: Settings, s: State, l: Label, g: Hash)
    requires Invariant(s) && Next(cfg, s, l).Some? && g in s.tokens && s.now >= s.tokens[g].sessionExpiresAt
    ensures var s' := Next(cfg, s, l).value;
      && s'.now >= s.now
      && forall h :: UsedToken(s'.tokens, s.tokens[g].family, h) ==> UsedToken(s.tokens, s.tokens[g].family, h)
  {
    var family := s.tokens[g].family;
    assert ChainOk(s, family, s.chains[family]);
    if l.Claim? && Claimable(s.tokens, l.hash, s.now) {
      assert s.tokens[l.hash].family != family;
    }
  }

  /** Once a session has ended, none of its tokens is ever claimed again, those issued late included. */
  lemma {:induction false} NothingAfterEnd(cfg: Settings, s: State, ls: seq<Label>, g: Hash)
    requires Invariant(s) && g in s.tokens && s.now >= s.tokens[g].sessionExpiresAt && Steps(cfg, s, ls).Some?
    ensures var s' := Steps(cfg, s, ls).value;
      forall h :: UsedToken(s'.tokens, s.tokens[g].family, h) ==> UsedToken(s.tokens, s.tokens[g].family, h)
    decreases |ls|
  {
    if ls != [] {
      NextKeeps(cfg, s, ls[0]);
      EndedStep(cfg, s, ls[0], g);
      TokenStaysOnce(cfg, s, ls[0], g);
      NothingAfterEnd(cfg, Next(cfg, s, ls[0]).value, ls[1..], g);
    }
  }

  lemma {:induction false} NoClaimAfterSessionEnd(cfg: Settings, before: seq<Label>, after: seq<Label>, g: Hash)
    requires Steps(cfg, START, before).Some? && Steps(cfg, Steps(cfg, START, before).value, after).Some?
    requires var s := Steps(cfg, START, before).value; g in s.tokens && s.now >= s.tokens[g].sessionExpiresAt
    ensures var s := Steps(cfg, START, before).value;
      forall h :: UsedToken(Steps(cfg, s, after).value.tokens, s.tokens[g].family, h) ==>
        UsedToken(s.tokens, s.tokens[g].family, h)
  {
    StepsKeep(cfg, START, before);
    NothingAfterEnd(cfg, Steps(cfg, START, before).value, after, g);
  }

  /** A token that can be refreshed: known, unused, in time, and nobody has revoked any of its family. */
  predicate Good(tokens: Table, h: Hash, now: int) {
    && h in tokens && !tokens[h].used && now < tokens[h].expiresAt
    && forall g :: g in tokens && tokens[g].family == tokens[h].family ==> !tokens[g].revoked
  }

  /** A good token nobody has locked is claimed, and what the user gets for it continues its session. */
  lemma {:induction false} GoodTokenRotates(cfg: Settings, s: State, p: nat, h: Hash, issued: Hash)
    requires Good(s.tokens, h, s.now) && p !in s.procs && issued !in s.tokens
    requires forall q :: q in s.procs && s.procs[q].Ending? ==> h !in s.procs[q].rows
    ensures var s1 := Next(cfg, s, Claim(p, h));
      && s1.Some? && s1.value.tokens == s.tokens[h := s.tokens[h].(used := true)]
      && var s2 := Next(cfg, s1.value, Check(p, true));
      && s2.Some?
      && var s3 := Next(cfg, s2.value, Issue(p, issued));
      && s3.Some? && issued in s3.value.tokens && p !in s3.value.procs
      && var spent, next := s.tokens[h], s3.value.tokens[issued];
      && next.user == spent.user && next.org == spent.org && next.family == spent.family
      && next.sessionExpiresAt == spent.sessionExpiresAt && !next.used && !next.revoked
      && next.expiresAt == (if s.now + cfg.refreshTtl < spent.sessionExpiresAt then s.now + cfg.refreshTtl
                           else spent.sessionExpiresAt)
  {}

  // ---- Which sessions an account update ends ----

  /** Every session the user has is revoked. */
  predicate AllRevoked(tokens: Table, user: Id) {
    forall h :: h in tokens && tokens[h].user == user ==> Dead(tokens, tokens[h].family)
  }

  /** A session of the user began in these steps. */
  predicate Began(ls: seq<Label>, user: Id, family: Id) {
    exists l :: l in ls && l.Login? && l.user == user && l.family == family
  }

  predicate HasFamily(tokens: Table, user: Id, family: Id) {
    exists h :: h in tokens && tokens[h].user == user && tokens[h].family == family
  }

  lemma {:induction false} TokenStaysOnce(cfg: Settings, s: State, l: Label, h: Hash)
    requires Next(cfg, s, l).Some? && h in s.tokens
    ensures var t := Next(cfg, s, l).value.tokens;
      h in t && t[h].family == s.tokens[h].family && t[h].user == s.tokens[h].user
      && t[h].sessionExpiresAt == s.tokens[h].sessionExpiresAt
  {}

  lemma {:induction false} TokenStays(cfg: Settings, s: State, ls: seq<Label>, h: Hash)
    requires Steps(cfg, s, ls).Some? && h in s.tokens
    ensures var t := Steps(cfg, s, ls).value.tokens;
      h in t && t[h].family == s.tokens[h].family && t[h].user == s.tokens[h].user
    decreases |ls|
  {
    if ls != [] {
      TokenStaysOnce(cfg, s, ls[0], h);
      TokenStays(cfg, Next(cfg, s, ls[0]).value, ls[1..], h);
    }
  }

  /** A token that is there after one step continues a family of its user, or begins one. */
  lemma {:induction false} FamilyOnce(cfg: Settings, s: State, l: Label, h: Hash)
    requires Next(cfg, s, l).Some? && h in Next(cfg, s, l).value.tokens
    ensures var t := Next(cfg, s, l).value.tokens[h];
      HasFamily(s.tokens, t.user, t.family) || (l.Login? && l.user == t.user && l.family == t.family)
  {
    var t := Next(cfg, s, l).value.tokens[h];
    if h in s.tokens {
      TokenStaysOnce(cfg, s, l, h);
    } else if l.Issue? {
      var g := s.procs[l.p].token;
      assert g in s.tokens && s.tokens[g].user == t.user && s.tokens[g].family == t.family;
    }
  }

  lemma {:induction false} FamilyFrom(cfg: Settings, s: State, ls: seq<Label>, h: Hash)
    requires Steps(cfg, s, ls).Some? && h in Steps(cfg, s, ls).value.tokens
    ensures var t := Steps(cfg, s, ls).value.tokens[h];
      HasFamily(s.tokens, t.user, t.family) || Began(ls, t.user, t.family)
    decreases |ls|
  {
    if ls != [] {
      var t := Steps(cfg, s, ls).value.tokens[h];
      var s' := Next(cfg, s, ls[0]).value;
      FamilyFrom(cfg, s', ls[1..], h);
      if HasFamily(s'.tokens, t.user, t.family) {
        var g :| g in s'.tokens && s'.tokens[g].user == t.user && s'.tokens[g].family == t.family;
        FamilyOnce(cfg, s, ls[0], g);
        assert ls[0] in ls;
      } else {
        assert forall l :: l in ls[1..] ==> l in ls;
      }
    }
  }

  lemma {:induction false} ChainsGrow(cfg: Settings, s: State, l: Label)
    requires Next(cfg, s, l).Some?
    ensures s.chains.Keys <= Next(cfg, s, l).value.chains.Keys
  {}

  /** A login begins a family that was not there, and its token stays. */
  lemma {:induction false} LoginIsNew(cfg: Settings, s: State, ls: seq<Label>, l: Label)
    requires Steps(cfg, s, ls).Some? && l in ls && l.Login?
    ensures l.family !in s.chains
    ensures var t := Steps(cfg, s, ls).value.tokens;
      l.hash in t && t[l.hash].user == l.user && t[l.hash].family == l.family
    decreases |ls|
  {
    var s' := Next(cfg, s, ls[0]).value;
    if l == ls[0] {
      TokenStays(cfg, s', ls[1..], l.hash);
    } else {
      assert l in ls[1..];
      LoginIsNew(cfg, s', ls[1..], l);
      ChainsGrow(cfg, s, ls[0]);
    }
  }

  /** The commit revokes no token of a family that began after the update read the rows. */
  lemma {:induction false} NewFamilyKept(cfg: Settings, s: State, p: nat, user: Id, between: seq<Label>, f: Id)
    requires Invariant(s) && Next(cfg, s, EndSessions(p, user)).Some? && f !in s.chains
    requires forall l :: l in between ==> l.Tick? || l.p != p
    requires Steps(cfg, Next(cfg, s, EndSessions(p, user)).value, between).Some?
    requires var s2 := Steps(cfg, Next(cfg, s, EndSessions(p, user)).value, between).value;
      Next(cfg, s2, CommitEnd(p)).Some? && Dead(Next(cfg, s2, CommitEnd(p)).value.tokens, f)
    ensures Dead(Steps(cfg, Next(cfg, s, EndSessions(p, user)).value, between).value.tokens, f)
  {
    var s1 := Next(cfg, s, EndSessions(p, user)).value;
    var s2 := Steps(cfg, s1, between).value;
    var s3 := Next(cfg, s2, CommitEnd(p)).value;
    var r :| r in s3.tokens && s3.tokens[r].family == f && s3.tokens[r].revoked;
    if r in s.tokens {
      TokenStays(cfg, s1, between, r);
      TokenStaysOnce(cfg, s2, CommitEnd(p), r);
      assert false;
    }
    ProcStays(cfg, s1, between, p);
    assert s2.procs[p] == Ending(user, LiveOfUser(s.tokens, user));
  }

  lemma {:induction false} ProcStays(cfg: Settings, s: State, ls: seq<Label>, p: nat)
    requires Steps(cfg, s, ls).Some? && p in s.procs
    requires forall l :: l in ls ==> l.Tick? || l.p != p
    ensures var s' := Steps(cfg, s, ls).value; p in s'.procs && s'.procs[p] == s.procs[p]
    decreases |ls|
  {
    if ls != [] {
      assert ls[0] in ls;
      ProcStays(cfg, Next(cfg, s, ls[0]).value, ls[1..], p);
    }
  }

  /** Every session of the user begun in these steps has been revoked again. */
  predicate LoginsRevoked(ls: seq<Label>, user: Id, tokens: Table) {
    forall l :: l in ls && l.Login? && l.user == user ==> Dead(tokens, l.family)
  }

  /**
   A committed password change or deactivation leaves every session of the user revoked
   exactly when every session of theirs issued between the update and its commit was revoked
   again before the commit; so without such a login it always does.
   */
  lemma {:induction false} EndsEverySession(cfg: Settings, before: seq<Label>, p: nat, user: Id, between: seq<Label>)
    requires Steps(cfg, START, before).Some?
    requires var s := Steps(cfg, START, before).value; Next(cfg, s, EndSessions(p, user)).Some?
    requires forall l :: l in between ==> l.Tick? || l.p != p
    requires Steps(cfg, Next(cfg, Steps(cfg, START, before).value, EndSessions(p, user)).value, between).Some?
    ensures var s2 := Steps(cfg, Next(cfg, Steps(cfg, START, before).value, EndSessions(p, user)).value, between).value;
      && Next(cfg, s2, CommitEnd(p)).Some?
      && (AllRevoked(Next(cfg, s2, CommitEnd(p)).value.tokens, user) <==> LoginsRevoked(between, user, s2.tokens))
  {
    var s := Steps(cfg, START, before).value;
    StepsKeep(cfg, START, before);
    var s1 := Next(cfg, s, EndSessions(p, user)).value;
    ProcStays(cfg, s1, between, p);
    var s2 := Steps(cfg, s1, between).value;
    var s3 := Next(cfg, s2, CommitEnd(p)).value;
    if AllRevoked(s3.tokens, user) {
      forall l | l in between && l.Login? && l.user == user ensures Dead(s2.tokens, l.family) {
        LoginIsNew(cfg, s1, between, l);
        TokenStaysOnce(cfg, s2, CommitEnd(p), l.hash);
        NewFamilyKept(cfg, s, p, user, between, l.family);
      }
    }
    if LoginsRevoked(between, user, s2.tokens) {
      forall h | h in s3.tokens && s3.tokens[h].user == user ensures Dead(s3.tokens, s3.tokens[h].family) {
        EndedBy(cfg, s, p, user, between, h);
      }
    }
  }

  lemma {:induction false} EndedBy(cfg: Settings, s: State, p: nat, user: Id, between: seq<Label>, h: Hash)
    requires Next(cfg, s, EndSessions(p, user)).Some?
    requires forall l :: l in between ==> l.Tick? || l.p != p
    requires Steps(cfg, Next(cfg, s, EndSessions(p, user)).value, between).Some?
    requires var s2 := Steps(cfg, Next(cfg, s, EndSessions(p, user)).value, between).value;
      && Next(cfg, s2, CommitEnd(p)).Some? && LoginsRevoked(between, user, s2.tokens)
      && h in Next(cfg, s2, CommitEnd(p)).value.tokens && Next(cfg, s2, CommitEnd(p)).value.tokens[h].user == user
    ensures var s2 := Steps(cfg, Next(cfg, s, EndSessions(p, user)).value, between).value;
      var t := Next(cfg, s2, CommitEnd(p)).value.tokens; Dead(t, t[h].family)
  {
    var s2 := Steps(cfg, Next(cfg, s, EndSessions(p, user)).value, between).value;
    var f := Next(cfg, s2, CommitEnd(p)).value.tokens[h].family;
    if Began(between, user, f) {
      var l :| l in between && l.Login? && l.user == user && l.family == f;
      DeadStep(cfg, s2, CommitEnd(p), f);
    } else {
      NotBegunEnds(cfg, s, p, user, between, h);
    }
  }

  lemma {:induction false} StepsCons(cfg: Settings, s: State, l: Label, ls: seq<Label>)
    requires Next(cfg, s, l).Some?
    ensures Steps(cfg, s, [l] + ls) == Steps(cfg, Next(cfg, s, l).value, ls)
  {
    assert ([l] + ls)[1..] == ls;
  }

  /** A login issues on credentials proven before these steps, or checked in them. */
  lemma {:induction false} LoginWasProven(cfg: Settings, s: State, ls: seq<Label>, l: Label)
    requires Steps(cfg, s, ls).Some? && l in ls && l.Login?
    ensures (l.p in s.procs && s.procs[l.p] == Proven(l.user, l.org)) || CheckCredentials(l.p, l.user, l.org) in ls
    decreases |ls|
  {
    if l != ls[0] {
      var s' := Next(cfg, s, ls[0]).value;
      LoginWasProven(cfg, s', ls[1..], l);
      if l.p in s'.procs && s'.procs[l.p] == Proven(l.user, l.org) {
        ProvenOnce(cfg, s, ls[0], l.p, l.user, l.org);
      }
      assert forall x :: x in ls[1..] ==> x in ls;
    }
  }

  lemma {:induction false} ProvenOnce(cfg: Settings, s: State, l: Label, p: nat, user: Id, org: Id)
    requires Next(cfg, s, l).Some?
    requires var s' := Next(cfg, s, l).value; p in s'.procs && s'.procs[p] == Proven(user, org)
    ensures (p in s.procs && s.procs[p] == Proven(user, org)) || l == CheckCredentials(p, user, org)
  {}

  /** A session of the user issued in these steps by a login that had its credentials checked before them. */
  predicate InFlightLogin(s: State, ls: seq<Label>, user: Id, family: Id) {
    exists l :: l in ls && l.Login? && l.user == user && l.family == family
      && l.p in s.procs && s.procs[l.p] == Proven(user, l.org)
  }

  /** And by one that had them checked in these steps. */
  predicate NewLogin(ls: seq<Label>, user: Id, family: Id) {
    exists l :: l in ls && l.Login? && l.user == user && l.family == family
      && CheckCredentials(l.p, user, l.org) in ls
  }

  /**
   What a password change or deactivation leaves, at any time after its commit: a session of
   the user that is not revoked was issued between the update and the commit, or issued
   after it by a login that had checked the credentials before, or rests on credentials
   checked after the commit. Nothing older survives.
   */
  lemma {:induction false} SurvivingSessions(
      cfg: Settings, before: seq<Label>, p: nat, user: Id, between: seq<Label>, after: seq<Label>, h: Hash)
    requires Steps(cfg, START, before).Some?
    requires var s := Steps(cfg, START, before).value; Next(cfg, s, EndSessions(p, user)).Some?
    requires forall l :: l in between ==> l.Tick? || l.p != p
    requires Steps(cfg, Next(cfg, Steps(cfg, START, before).value, EndSessions(p, user)).value, between).Some?
    requires var s2 := Steps(cfg, Next(cfg, Steps(cfg, START, before).value, EndSessions(p, user)).value, between).value;
      && Next(cfg, s2, CommitEnd(p)).Some?
      && Steps(cfg, Next(cfg, s2, CommitEnd(p)).value, after).Some?
      && var t := Steps(cfg, Next(cfg, s2, CommitEnd(p)).value, after).value.tokens;
      h in t && t[h].user == user && !Dead(t, t[h].family)
    ensures var s2 := Steps(cfg, Next(cfg, Steps(cfg, START, before).value, EndSessions(p, user)).value, between).value;
      var s3 := Next(cfg, s2, CommitEnd(p)).value;
      var f := Steps(cfg, s3, after).value.tokens[h].family;
      Began(between, user, f) || InFlightLogin(s3, after, user, f) || NewLogin(after, user, f)
  {
    var s := Steps(cfg, START, before).value;
    var s1 := Next(cfg, s, EndSessions(p, user)).value;
    var s2 := Steps(cfg, s1, between).value;
    var s3 := Next(cfg, s2, CommitEnd(p)).value;
    var f := Steps(cfg, s3, after).value.tokens[h].family;
    FamilyFrom(cfg, s3, after, h);
    if HasFamily(s3.tokens, user, f) {
      var g :| g in s3.tokens && s3.tokens[g].user == user && s3.tokens[g].family == f;
      if Dead(s3.tokens, f) {
        NoClaimAfterRevocation(cfg, s3, after, f);
      } else if !Began(between, user, f) {
        NotBegunEnds(cfg, s, p, user, between, g);
      }
    } else {
      var l :| l in after && l.Login? && l.user == user && l.family == f;
      LoginWasProven(cfg, s3, after, l);
    }
  }

  /** A session the update could see is revoked by its commit. */
  lemma {:induction false} NotBegunEnds(cfg: Settings, s: State, p: nat, user: Id, between: seq<Label>, h: Hash)
    requires Next(cfg, s, EndSessions(p, user)).Some?
    requires forall l :: l in between ==> l.Tick? || l.p != p
    requires Steps(cfg, Next(cfg, s, EndSessions(p, user)).value, between).Some?
    requires var s2 := Steps(cfg, Next(cfg, s, EndSessions(p, user)).value, between).value;
      && Next(cfg, s2, CommitEnd(p)).Some?
      && var t := Next(cfg, s2, CommitEnd(p)).value.tokens;
      h in t && t[h].user == user && !Began(between, user, t[h].family)
    ensures var s2 := Steps(cfg, Next(cfg, s, EndSessions(p, user)).value, between).value;
      var t := Next(cfg, s2, CommitEnd(p)).value.tokens; Dead(t, t[h].family)
  {
    var s1 := Next(cfg, s, EndSessions(p, user)).value;
    var s2 := Steps(cfg, s1, between).value;
    FamilyOnce(cfg, s2, CommitEnd(p), h);
    TokenStaysOnce(cfg, s2, CommitEnd(p), h);
    FamilyFrom(cfg, s1, between, h);
    var f := s2.tokens[h].family;
    var g :| g in s1.tokens && s1.tokens[g].user == user && s1.tokens[g].family == f;
    EndSessionsKills(cfg, s, p, user, between, g);
  }

  // ---- Runs ----

  /** A run in two steps. */
  function Two(l: Label, m: Label): seq<Label> { [l] + ([m] + []) }

  lemma {:induction false} StepsTwo(cfg: Settings, s: State, l: Label, m: Label)
    requires Next(cfg, s, l).Some? && Next(cfg, Next(cfg, s, l).value, m).Some?
    ensures Steps(cfg, s, Two(l, m)) == Next(cfg, Next(cfg, s, l).value, m)
  {
    StepsCons(cfg, s, l, [m] + []);
    StepsCons(cfg, Next(cfg, s, l).value, m, []);
  }

  lemma {:induction false} LoginRuns(cfg: Settings, s: State, q: nat, user: Id, org: Id, family: Id, hash: Hash)
    requires q !in s.procs && family !in s.chains && hash !in s.tokens
    ensures var s' := Steps(cfg, s, Two(CheckCredentials(q, user, org), Login(q, family, hash, user, org)));
      && s'.Some? && s'.value.procs == s.procs
      && s'.value.tokens == s.tokens[hash := NewToken(cfg, user, org, family, s.now + cfg.sessionMax, s.now)]
  {
    StepsTwo(cfg, s, CheckCredentials(q, user, org), Login(q, family, hash, user, org));
  }

  /** The promise fails: a login issued between the update and its commit goes on after it. */
  lemma {:induction false} LoginOutlives(cfg: Settings, p: nat, q: nat, user: Id, org: Id, family: Id, hash: Hash)
    requires p != q
    ensures var s1 := Next(cfg, START, EndSessions(p, user)).value;
      var s2 := Steps(cfg, s1, Two(CheckCredentials(q, user, org), Login(q, family, hash, user, org)));
      && s2.Some? && Next(cfg, s2.value, CommitEnd(p)).Some?
      && !AllRevoked(Next(cfg, s2.value, CommitEnd(p)).value.tokens, user)
  {
    var s1 := Next(cfg, START, EndSessions(p, user)).value;
    LoginRuns(cfg, s1, q, user, org, family, hash);
    var s2 := Steps(cfg, s1, Two(CheckCredentials(q, user, org), Login(q, family, hash, user, org))).value;
    var t := Next(cfg, s2, CommitEnd(p)).value.tokens;
    assert t.Keys == {hash} && t[hash].family == family && !t[hash].revoked && t[hash].user == user;
  }

  /** It fails the other way too: a login that had checked the old credentials issues after the commit. */
  lemma {:induction false} LateLoginOutlives(cfg: Settings, p: nat, q: nat, user: Id, org: Id, family: Id, hash: Hash)
    requires p != q
    ensures var s1 := Next(cfg, START, EndSessions(p, user)).value;
      var s2 := Next(cfg, s1, CheckCredentials(q, user, org));
      && s2.Some? && Next(cfg, s2.value, CommitEnd(p)).Some?
      && var s3 := Next(cfg, s2.value, CommitEnd(p)).value;
      && Next(cfg, s3, Login(q, family, hash, user, org)).Some?
      && !AllRevoked(Next(cfg, s3, Login(q, family, hash, user, org)).value.tokens, user)
  {
    var s1 := Next(cfg, START, EndSessions(p, user)).value;
    var s2 := Next(cfg, s1, CheckCredentials(q, user, org)).value;
    var s3 := Next(cfg, s2, CommitEnd(p)).value;
    var t := Next(cfg, s3, Login(q, family, hash, user, org)).value.tokens;
    assert t.Keys == {hash} && t[hash].family == family && !t[hash].revoked && t[hash].user == user;
  }

  lemma {:induction false} LogoutRuns(cfg: Settings, s: State, q: nat, hash: Hash)
    requires q !in s.procs && hash in s.tokens && !s.tokens[hash].revoked && Locked(s) == {}
    ensures var s' := Steps(cfg, s, Two(Logout(q, hash), RevokeFamily(q)));
      && s'.Some? && s'.value.procs == s.procs
      && s'.value.tokens == Revoke(s.tokens, LiveOfFamily(s.tokens, s.tokens[hash].family))
  {
    var s1 := Next(cfg, s, Logout(q, hash)).value;
    assert Locked(s1) == {};
    StepsTwo(cfg, s, Logout(q, hash), RevokeFamily(q));
  }

  lemma {:induction false} StepsConcat(cfg: Settings, s: State, a: seq<Label>, b: seq<Label>)
    requires Steps(cfg, s, a).Some?
    ensures Steps(cfg, s, a + b) == Steps(cfg, Steps(cfg, s, a).value, b)
    decreases |a|
  {
    if a == [] {
      assert a + b == b;
    } else {
      assert (a + b)[1..] == a[1..] + b;
      StepsConcat(cfg, Next(cfg, s, a[0]).value, a[1..], b);
    }
  }

  /** A login in between that is logged out again leaves no session behind: its coming alone does not decide. */
  lemma {:induction false} LoginAndOut(cfg: Settings, p: nat, q: nat, user: Id, org: Id, family: Id, hash: Hash)
    requires p != q
    ensures var s1 := Next(cfg, START, EndSessions(p, user)).value;
      var s2 := Steps(cfg, s1, Two(CheckCredentials(q, user, org), Login(q, family, hash, user, org))
                               + Two(Logout(q, hash), RevokeFamily(q)));
      && s2.Some? && Next(cfg, s2.value, CommitEnd(p)).Some?
      && AllRevoked(Next(cfg, s2.value, CommitEnd(p)).value.tokens, user)
  {
    var s1 := Next(cfg, START, EndSessions(p, user)).value;
    var login := Two(CheckCredentials(q, user, org), Login(q, family, hash, user, org));
    var logout := Two(Logout(q, hash), RevokeFamily(q));
    LoginRuns(cfg, s1, q, user, org, family, hash);
    var there := Steps(cfg, s1, login).value;
    assert Locked(there) == {};
    LogoutRuns(cfg, there, q, hash);
    StepsConcat(cfg, s1, login, logout);
    assert hash in LiveOfFamily(there.tokens, family);
    CommitAfterLogout(cfg, Steps(cfg, there, logout).value, p, user, hash);
  }

  lemma {:induction false} CommitAfterLogout(cfg: Settings, s: State, p: nat, user: Id, hash: Hash)
    requires p in s.procs && s.procs[p].Ending? && s.tokens.Keys == {hash} && s.tokens[hash].revoked
    ensures Next(cfg, s, CommitEnd(p)).Some? && AllRevoked(Next(cfg, s, CommitEnd(p)).value.tokens, user)
  {
    var t := Next(cfg, s, CommitEnd(p)).value.tokens;
    assert t.Keys == {hash} && t[hash].revoked;
  }
}
