/** What runs of the atomic store keep: the last enabled privileged account, tokens with enabled accounts alone, and
    revoked sessions that stay revoked. */
module AccountLaws {
  import opened Basics
  import opened Accounts

  /** One call of the store. Guarded writes carry no privileged set: a run has one for all of them. */
  datatype Call =
    | NewUser(id: Id, user: User)
    | FirstUser(id: Id, user: User)
    | NewSession(hash: Hash, session: Session)
    | EndSession(hash: Hash)
    | ExpireSessions(now: Time)
    | WriteRole(id: Id, held: Option<Role>, role: Role)
    | WriteDisabled(id: Id, held: Option<Role>, disabled: bool)
    | Unguarded(id: Id, disabled: bool)
    | Grant(role: Role)
    | NewToken(hash: Hash, token: Token, live: int, now: Time)
    | SwapToken(hash: Hash, token: Token)
    | Activate(hash: Hash, now: Time, password: string)
    | ResetPassword(hash: Hash, now: Time, password: string)
    | Sweep(now: Time)

  ghost function Perform(db: Db, call: Call, privileged: Roles): Outcome {
    match call
    case NewUser(id, user) => CreateUser(db, id, user)
    case FirstUser(id, user) => CreateFirstUser(db, id, user)
    case NewSession(hash, session) => CreateSession(db, hash, session)
    case EndSession(hash) => DeleteSession(db, hash)
    case ExpireSessions(now) => DeleteExpiredSessions(db, now)
    case WriteRole(id, held, role) => GuardedRole(db, id, held, role, privileged)
    case WriteDisabled(id, held, disabled) => GuardedDisable(db, id, held, disabled, privileged)
    case Unguarded(id, disabled) => SetDisabled(db, id, disabled)
    case Grant(role) => GrantRole(db, role)
    case NewToken(hash, token, live, now) => CreateToken(db, hash, token, live, now)
    case SwapToken(hash, token) => ReplaceToken(db, hash, token)
    case Activate(hash, now, password) => ActivateByToken(db, hash, now, password)
    case ResetPassword(hash, now, password) => ResetByToken(db, hash, now, password)
    case Sweep(now) => DeleteExpiredTokens(db, now)
  }

  /** A new account's id is one no account holds. */
  predicate Fits(db: Db, call: Call) {
    call.NewUser? ==> call.id !in db.users
  }

  ghost predicate Runs(db: Db, calls: seq<Call>, privileged: Roles)
    decreases calls
  {
    calls == [] || (Fits(db, calls[0]) && Runs(Perform(db, calls[0], privileged).db, calls[1..], privileged))
  }

  ghost function After(db: Db, calls: seq<Call>, privileged: Roles): Db
    decreases calls
  {
    if calls == [] then db else After(Perform(db, calls[0], privileged).db, calls[1..], privileged)
  }

  // The last privileged account

  /** The calls that take privileged accounts away without asking the guard. */
  predicate Bypasses(call: Call) {
    call.Sweep? || (call.Unguarded? && call.disabled)
  }

  lemma StillCovers(before: map<Id, User>, after: map<Id, User>, privileged: Roles)
    requires Covered(before, privileged)
    requires forall id :: id in before && PrivilegedAccount(before[id], privileged) ==>
               id in after && PrivilegedAccount(after[id], privileged)
    ensures Covered(after, privileged)
  {
    var id :| id in before && PrivilegedAccount(before[id], privileged);
    assert id in after;
  }

  lemma RoleKeepsCover(db: Db, id: Id, held: Option<Role>, role: Role, privileged: Roles)
    requires Covered(db.users, privileged)
    ensures Covered(GuardedRole(db, id, held, role, privileged).db.users, privileged)
  {
    var after := GuardedRole(db, id, held, role, privileged).db.users;
    if id in db.users && !Holds(privileged, role) && PrivilegedAccount(db.users[id], privileged) && after != db.users {
      var other :| other in db.users && other != id && PrivilegedAccount(db.users[other], privileged);
      assert other in after && after[other] == db.users[other];
    } else {
      StillCovers(db.users, after, privileged);
    }
  }

  lemma DisableKeepsCover(db: Db, id: Id, held: Option<Role>, disabled: bool, privileged: Roles)
    requires Covered(db.users, privileged)
    ensures Covered(GuardedDisable(db, id, held, disabled, privileged).db.users, privileged)
  {
    var after := GuardedDisable(db, id, held, disabled, privileged).db.users;
    if id in db.users && disabled && PrivilegedAccount(db.users[id], privileged) && after != db.users {
      var other :| other in db.users && other != id && PrivilegedAccount(db.users[other], privileged);
      assert other in after && after[other] == db.users[other];
    } else {
      StillCovers(db.users, after, privileged);
    }
  }

  lemma CallKeepsCover(db: Db, call: Call, privileged: Roles)
    requires Covered(db.users, privileged) && Fits(db, call) && !Bypasses(call)
    ensures Covered(Perform(db, call, privileged).db.users, privileged)
  {
    match call
    case WriteRole(id, held, role) => RoleKeepsCover(db, id, held, role, privileged);
    case WriteDisabled(id, held, disabled) => DisableKeepsCover(db, id, held, disabled, privileged);
    case _ => StillCovers(db.users, Perform(db, call, privileged).db.users, privileged);
  }

  /** Once an enabled privileged account exists, no run of calls that do not bypass the guard removes the last one. */
  lemma {:induction false} CoverStays(db: Db, calls: seq<Call>, privileged: Roles)
    requires Covered(db.users, privileged) && Runs(db, calls, privileged)
    requires forall i :: 0 <= i < |calls| ==> !Bypasses(calls[i])
    ensures Covered(After(db, calls, privileged).users, privileged)
    decreases calls
  {
    if calls != [] {
      CallKeepsCover(db, calls[0], privileged);
      CoverStays(Perform(db, calls[0], privileged).db, calls[1..], privileged);
    }
  }

  /** A call keeps the last privileged account wherever it runs exactly when it does not bypass the guard. */
  lemma KeepsCoverIff(call: Call, privileged: Roles, role: Role)
    requires Holds(privileged, role)
    ensures (forall db: Db :: Covered(db.users, privileged) && Fits(db, call) ==>
                            Covered(Perform(db, call, privileged).db.users, privileged))
            <==> !Bypasses(call)
  {
    var only := User("a", "a", "", false, false, role);
    if call.Sweep? {
      var db := Db(map[0 := only], map[], map[0 := Token(0, Invite, call.now)]);
      assert PrivilegedAccount(db.users[0], privileged);
      assert 0 in Expired(db.tokens, call.now) && Standing(db.tokens, 0, Invite, call.now) == {};
      assert 0 in Stranded(db, call.now);
      assert !Covered(Perform(db, call, privileged).db.users, privileged);
    } else if call.Unguarded? && call.disabled {
      var db := Db(map[call.id := only], map[], map[]);
      assert PrivilegedAccount(db.users[call.id], privileged);
      assert !Covered(Perform(db, call, privileged).db.users, privileged);
    } else {
      forall db: Db | Covered(db.users, privileged) && Fits(db, call)
        ensures Covered(Perform(db, call, privileged).db.users, privileged)
      {
        CallKeepsCover(db, call, privileged);
      }
    }
  }

  /** Whether an account is the only enabled one under a privileged role. */
  ghost predicate Sole(db: Db, id: Id, privileged: Roles) {
    && id in db.users && !db.users[id].disabled && db.users[id].role != "" && db.users[id].role in privileged
    && forall other :: other in db.users && other != id ==>
         db.users[other].disabled || db.users[other].role == "" || db.users[other].role !in privileged
  }

  lemma SoleIff(db: Db, id: Id, privileged: Roles)
    ensures Sole(db, id, privileged) <==> Uncovers(db, id, privileged)
  {
  }

  // Tokens and sessions

  /** Every token belongs to an enabled account. */
  predicate TokensSound(db: Db) {
    forall hash :: hash in db.tokens ==> Enabled(db.users, db.tokens[hash].user)
  }

  lemma CallKeepsTokensSound(db: Db, call: Call, privileged: Roles)
    requires TokensSound(db) && Fits(db, call)
    ensures TokensSound(Perform(db, call, privileged).db)
  {
  }

  /** No run of calls leaves a disabled account with a token. */
  lemma {:induction false} TokensStaySound(db: Db, calls: seq<Call>, privileged: Roles)
    requires TokensSound(db) && Runs(db, calls, privileged)
    ensures TokensSound(After(db, calls, privileged))
    decreases calls
  {
    if calls != [] {
      CallKeepsTokensSound(db, calls[0], privileged);
      TokensStaySound(Perform(db, calls[0], privileged).db, calls[1..], privileged);
    }
  }

  lemma {:induction false} GoneStaysGone(db: Db, calls: seq<Call>, privileged: Roles, hash: Hash)
    requires hash !in db.sessions && Runs(db, calls, privileged)
    requires forall i :: 0 <= i < |calls| && calls[i].NewSession? ==> calls[i].hash != hash
    ensures hash !in After(db, calls, privileged).sessions
    decreases calls
  {
    if calls != [] {
      assert hash !in Perform(db, calls[0], privileged).db.sessions;
      GoneStaysGone(Perform(db, calls[0], privileged).db, calls[1..], privileged, hash);
    }
  }

  /** A disable that lands ends the account's sessions for good: no later run, enables included, brings one back. */
  lemma RevokedForGood(db: Db, id: Id, held: Option<Role>, privileged: Roles, calls: seq<Call>, hash: Hash, now: Time)
    requires hash in db.sessions && db.sessions[hash].user == id
    requires GuardedDisable(db, id, held, true, privileged).answer == Done
    requires Runs(GuardedDisable(db, id, held, true, privileged).db, calls, privileged)
    requires forall i :: 0 <= i < |calls| && calls[i].NewSession? ==> calls[i].hash != hash
    ensures var closed := GuardedDisable(db, id, held, true, privileged).db;
            UserBySession(After(closed, calls, privileged), hash, now) == SessionNotFound
  {
    GoneStaysGone(GuardedDisable(db, id, held, true, privileged).db, calls, privileged, hash);
  }

  /** The session is stored and its account is enabled. */
  predicate Lasting(db: Db, hash: Hash, session: Session) {
    hash in db.sessions && db.sessions[hash] == session && Enabled(db.users, session.user)
  }

  /** The calls that end a session: its own end or replacement, an expiry at or past its time, a disable of its account
      that lands, a reset by a live token of its account, and a sweep that strands its account. */
  ghost predicate Ends(db: Db, call: Call, privileged: Roles, hash: Hash, session: Session) {
    match call
    case NewSession(other, replacing) => other == hash && replacing != session
    case EndSession(other) => other == hash
    case ExpireSessions(now) => now >= session.expiresAt
    case WriteDisabled(id, held, disabled) =>
      disabled && id == session.user && GuardedDisable(db, id, held, true, privileged).answer == Done
    case Unguarded(id, disabled) => disabled && id == session.user
    case ResetPassword(token, now, _) =>
      Redeemable(db.tokens, token, Reset, now) && db.tokens[token].user == session.user
    case Sweep(now) => session.user in Stranded(db, now)
    case _ => false
  }

  /** A lasting session stays so exactly through the calls that do not end it. */
  lemma CallKeepsSessionIff(db: Db, call: Call, privileged: Roles, hash: Hash, session: Session)
    requires Lasting(db, hash, session) && Fits(db, call)
    ensures Lasting(Perform(db, call, privileged).db, hash, session) <==> !Ends(db, call, privileged, hash, session)
  {
  }

  /** Whether some call of a run ends the session. */
  ghost predicate RunEnds(db: Db, calls: seq<Call>, privileged: Roles, hash: Hash, session: Session)
    decreases calls
  {
    calls != [] &&
    (Ends(db, calls[0], privileged, hash, session) ||
     RunEnds(Perform(db, calls[0], privileged).db, calls[1..], privileged, hash, session))
  }

  lemma {:induction false} RunKeepsSession(db: Db, calls: seq<Call>, privileged: Roles, hash: Hash, session: Session)
    requires Lasting(db, hash, session) && Runs(db, calls, privileged)
    requires !RunEnds(db, calls, privileged, hash, session)
    ensures Lasting(After(db, calls, privileged), hash, session)
    decreases calls
  {
    if calls != [] {
      CallKeepsSessionIff(db, calls[0], privileged, hash, session);
      RunKeepsSession(Perform(db, calls[0], privileged).db, calls[1..], privileged, hash, session);
    }
  }

  /** A session created for an enabled account answers that account, as it is by then, through every run none of whose
      calls ends it, at each moment exactly until it expires. */
  lemma SessionLasts(db: Db, hash: Hash, session: Session, calls: seq<Call>, privileged: Roles, now: Time)
    requires Enabled(db.users, session.user) && Runs(CreateSession(db, hash, session).db, calls, privileged)
    requires !RunEnds(CreateSession(db, hash, session).db, calls, privileged, hash, session)
    ensures var after := After(CreateSession(db, hash, session).db, calls, privileged);
            session.user in after.users &&
            UserBySession(after, hash, now) ==
            if now < session.expiresAt then Found(after.users[session.user]) else SessionNotFound
  {
    RunKeepsSession(CreateSession(db, hash, session).db, calls, privileged, hash, session);
  }

  /** A deleted session is not found through every later run that creates none under its hash. */
  lemma DeletedForGood(db: Db, hash: Hash, calls: seq<Call>, privileged: Roles, now: Time)
    requires Runs(DeleteSession(db, hash).db, calls, privileged)
    requires forall i :: 0 <= i < |calls| && calls[i].NewSession? ==> calls[i].hash != hash
    ensures UserBySession(After(DeleteSession(db, hash).db, calls, privileged), hash, now) == SessionNotFound
  {
    GoneStaysGone(DeleteSession(db, hash).db, calls, privileged, hash);
  }
}
