/** The SQLite store: each method runs its statements in order inside one write transaction, rolled back when it
    refuses. Every method is proved against the contract that the in-memory store keeps, the constraints of the tables
    aside. */
module SqliteStore {
  import opened Basics
  import opened Accounts

  /** The guard's condition as SQL reads the privileged list, in which the empty role is a role like any other. */
  predicate SqlPrivileged(user: User, privileged: Roles) {
    user.role in privileged && !user.disabled
  }

  ghost predicate SqlUncovers(db: Db, id: Id, privileged: Roles) {
    && id in db.users && SqlPrivileged(db.users[id], privileged)
    && !(exists other :: other in db.users && other != id && SqlPrivileged(db.users[other], privileged))
  }

  /** What a statement's constraint makes of an outcome that stores a row: a failure that leaves the tables alone. */
  function Constrained(db: Db, outcome: Outcome, violated: bool): Outcome {
    if outcome.answer == Done && violated then Outcome(Failed, db) else outcome
  }

  class UserStore {
    var tables: Db

    constructor ()
      ensures tables == EMPTY_DB && Consistent(tables)
    {
      tables := EMPTY_DB;
    }

    // Statements

    method InsertUser(id: Id, user: User) returns (stored: bool)
      modifies this
      ensures stored <==> id !in old(tables).users &&
                          forall other :: other in old(tables).users ==> old(tables).users[other].email != user.email
      ensures tables == if stored then old(tables).(users := old(tables).users[id := user]) else old(tables)
    {
      if id in tables.users || exists other :: other in tables.users && tables.users[other].email == user.email {
        return false;
      }
      tables := tables.(users := tables.users[id := user]);
      stored := true;
    }

    method InsertToken(hash: Hash, token: Token) returns (stored: bool)
      modifies this
      ensures stored <==> hash !in old(tables).tokens && token.user in old(tables).users
      ensures tables == if stored then old(tables).(tokens := old(tables).tokens[hash := token]) else old(tables)
    {
      if hash in tables.tokens || token.user !in tables.users {
        return false;
      }
      tables := tables.(tokens := tables.tokens[hash := token]);
      stored := true;
    }

    method DeleteUserSessions(id: Id)
      modifies this
      ensures tables == old(tables).(sessions := WithoutSessionsOf(old(tables).sessions, {id}))
    {
      tables := tables.(sessions := WithoutSessionsOf(tables.sessions, {id}));
    }

    method DeleteUserTokens(id: Id)
      modifies this
      ensures tables == old(tables).(tokens := WithoutTokensOf(old(tables).tokens, {id}))
    {
      tables := tables.(tokens := WithoutTokensOf(tables.tokens, {id}));
    }

    method DeleteUserTokensForPurpose(id: Id, purpose: Purpose)
      modifies this
      ensures tables == old(tables).(tokens := WithoutPurpose(old(tables).tokens, id, purpose))
    {
      tables := tables.(tokens := WithoutPurpose(tables.tokens, id, purpose));
    }

    method DeleteToken(hash: Hash)
      modifies this
      ensures tables == old(tables).(tokens := old(tables).tokens - {hash})
    {
      tables := tables.(tokens := tables.tokens - {hash});
    }

    /** UPDATE of one account's row, counting the rows that passed its WHERE clause. */
    method UpdateUser(id: Id, passes: bool, user: User) returns (count: nat)
      modifies this
      ensures count == if id in old(tables).users && passes then 1 else 0
      ensures tables == if count == 1 then old(tables).(users := old(tables).users[id := user]) else old(tables)
    {
      if id in tables.users && passes {
        tables := tables.(users := tables.users[id := user]);
        return 1;
      }
      count := 0;
    }

    /** The expired token rows, each once, in whatever order the statement yields them. */
    method ExpiredTokens(now: Time) returns (rows: seq<Hash>)
      ensures |rows| == |Expired(tables.tokens, now)|
      ensures forall hash :: hash in rows <==> hash in Expired(tables.tokens, now)
    {
      rows := [];
      var left := Expired(tables.tokens, now);
      while left != {}
        invariant left <= Expired(tables.tokens, now)
        invariant forall hash :: hash in rows <==> hash in Expired(tables.tokens, now) && hash !in left
        invariant |rows| + |left| == |Expired(tables.tokens, now)|
        decreases left
      {
        var hash :| hash in left;
        rows := rows + [hash];
        left := left - {hash};
      }
    }

    /** DELETE of accounts, whose sessions and tokens cascade. */
    method DeleteUnconfirmedAccounts(ids: set<Id>, now: Time)
      modifies this
      ensures var gone := set id | id in ids && id in old(tables).users && !old(tables).users[id].confirmed &&
                                   Standing(old(tables).tokens, id, Invite, now) == {};
              tables == Db(old(tables).users - gone, WithoutSessionsOf(old(tables).sessions, gone),
                           WithoutTokensOf(old(tables).tokens, gone))
    {
      var gone := set id | id in ids && id in tables.users && !tables.users[id].confirmed &&
                           Standing(tables.tokens, id, Invite, now) == {};
      tables := Db(tables.users - gone, WithoutSessionsOf(tables.sessions, gone), WithoutTokensOf(tables.tokens, gone));
    }

    // Methods

    method CreateUser(id: Id, user: User) returns (answer: Answer)
      requires Consistent(tables)
      modifies this
      ensures Consistent(tables)
      ensures Outcome(answer, tables) ==
              if id in old(tables).users then Outcome(EmailTaken, old(tables))
              else Accounts.CreateUser(old(tables), id, user)
    {
      var stored := InsertUser(id, user);
      answer := if stored then Done else EmailTaken;
    }

    method CreateFirstUser(id: Id, user: User) returns (answer: Answer)
      requires Consistent(tables)
      modifies this
      ensures Consistent(tables)
      ensures Outcome(answer, tables) == Accounts.CreateFirstUser(old(tables), id, user)
    {
      if tables.users != map[] {
        return SetupDone;
      }
      var stored := InsertUser(id, user);
      answer := Done;
    }

    method CreateSession(hash: Hash, session: Session) returns (answer: Answer)
      requires Consistent(tables)
      modifies this
      ensures Consistent(tables)
      ensures Outcome(answer, tables) ==
              Constrained(old(tables), Accounts.CreateSession(old(tables), hash, session),
                          hash in old(tables).sessions || session.user !in old(tables).users)
    {
      if hash in tables.sessions || session.user !in tables.users {
        return Failed;
      }
      tables := tables.(sessions := tables.sessions[hash := session]);
      answer := Done;
    }

    method UserBySession(hash: Hash, now: Time) returns (answer: Answer)
      requires Consistent(tables)
      ensures answer == Accounts.UserBySession(tables, hash, now)
    {
      if hash in tables.sessions && tables.sessions[hash].expiresAt > now {
        var user := tables.users[tables.sessions[hash].user];
        if !user.disabled {
          return Found(user);
        }
      }
      answer := SessionNotFound;
    }

    method DeleteSession(hash: Hash) returns (answer: Answer)
      requires Consistent(tables)
      modifies this
      ensures Consistent(tables)
      ensures Outcome(answer, tables) == Accounts.DeleteSession(old(tables), hash)
    {
      tables := tables.(sessions := tables.sessions - {hash});
      answer := Done;
    }

    method DeleteExpiredSessions(now: Time) returns (answer: Answer)
      requires Consistent(tables)
      modifies this
      ensures Consistent(tables)
      ensures Outcome(answer, tables) == Accounts.DeleteExpiredSessions(old(tables), now)
    {
      var gone := set hash | hash in tables.sessions && tables.sessions[hash].expiresAt <= now;
      ExpiredSessions(tables.sessions, gone, now);
      tables := tables.(sessions := tables.sessions - gone);
      answer := Counted(|gone|);
    }

    /** disable and revoke. */
    method Disable(id: Id, disabled: bool) returns (answer: Answer)
      requires Consistent(tables)
      modifies this
      ensures Consistent(tables)
      ensures Outcome(answer, tables) == SetDisabled(old(tables), id, disabled)
    {
      var row :=
        if id in tables.users then tables.users[id].(disabled := disabled) else User("", "", "", true, false, "");
      var count := UpdateUser(id, true, row);
      if count == 0 {
        return UserNotFound;
      }
      if disabled {
        DeleteUserSessions(id);
        DeleteUserTokens(id);
      }
      answer := Done;
    }

    /** refuseUncovered: HoldsPrivilege, then CountCover. */
    method RefuseUncovered(id: Id, privileged: Roles, removesCover: bool) returns (refused: bool)
      ensures refused <==> removesCover && SqlUncovers(tables, id, privileged)
    {
      if |privileged| == 0 || !removesCover {
        return false;
      }
      if !(id in tables.users && SqlPrivileged(tables.users[id], privileged)) {
        return false;
      }
      var cover := set other | other in tables.users && other != id && SqlPrivileged(tables.users[other], privileged);
      if |cover| != 0 {
        var other :| other in cover;
        return false;
      }
      assert forall other :: other in tables.users && other != id && SqlPrivileged(tables.users[other], privileged) ==>
                               other in cover;
      refused := true;
    }

    method SetRole(id: Id, held: Option<Role>, role: Role, privileged: Roles) returns (answer: Answer)
      requires Consistent(tables)
      modifies this
      ensures Consistent(tables)
      ensures Outcome(answer, tables) ==
              CheckedRole(old(tables), id, held, role, !Holds(privileged, role) &&
                SqlUncovers(old(tables), id, privileged))
    {
      if held.Some? && id in tables.users && tables.users[id].role != held.value {
        return RoleChanged;
      }
      var refused := RefuseUncovered(id, privileged, !Holds(privileged, role));
      if refused {
        return LastPrivileged;
      }
      var row := if id in tables.users then tables.users[id].(role := role) else User("", "", "", true, false, "");
      var count := UpdateUser(id, true, row);
      answer := if count == 0 then UserNotFound else Done;
    }

    method DisableUnderCover(id: Id, held: Option<Role>, disabled: bool, privileged: Roles) returns (answer: Answer)
      requires Consistent(tables)
      modifies this
      ensures Consistent(tables)
      ensures Outcome(answer, tables) ==
              CheckedDisable(old(tables), id, held, disabled, disabled && SqlUncovers(old(tables), id, privileged))
    {
      if held.Some? && id in tables.users && tables.users[id].role != held.value {
        return RoleChanged;
      }
      var refused := RefuseUncovered(id, privileged, disabled);
      if refused {
        return LastPrivileged;
      }
      answer := Disable(id, disabled);
    }

    method GrantRoleToRoleless(role: Role) returns (answer: Answer)
      requires Consistent(tables)
      modifies this
      ensures Consistent(tables)
      ensures Outcome(answer, tables) == GrantRole(old(tables), role)
    {
      if role == "" {
        return EmptyRole;
      }
      var rows := Roleless(tables.users);
      tables := tables.(users := tables.users + map id | id in rows :: tables.users[id].(role := role));
      assert tables.users == GrantRole(old(tables), role).db.users;
      answer := Counted(|rows|);
    }

    method CreateToken(hash: Hash, token: Token, live: int, now: Time) returns (answer: Answer)
      requires Consistent(tables)
      modifies this
      ensures Consistent(tables)
      ensures Outcome(answer, tables) ==
              Constrained(old(tables), Accounts.CreateToken(old(tables), hash, token, live, now),
                          hash in old(tables).tokens)
    {
      if !Enabled(tables.users, token.user) {
        return UserNotFound;
      }
      if |Standing(tables.tokens, token.user, token.purpose, now)| >= live {
        return TokenExists;
      }
      var stored := InsertToken(hash, token);
      answer := if stored then Done else Failed;
    }

    method ReplaceToken(hash: Hash, token: Token) returns (answer: Answer)
      requires Consistent(tables)
      modifies this
      ensures Consistent(tables)
      ensures Outcome(answer, tables) ==
              Constrained(old(tables), Accounts.ReplaceToken(old(tables), hash, token),
                          hash in WithoutPurpose(old(tables).tokens, token.user, token.purpose))
    {
      var begun := tables;
      if token.purpose != Invite {
        if !Enabled(tables.users, token.user) {
          return UserNotFound;
        }
      } else if !(Enabled(tables.users, token.user) && !tables.users[token.user].confirmed) {
        return UserNotFound;
      }
      DeleteUserTokensForPurpose(token.user, token.purpose);
      var stored := InsertToken(hash, token);
      if !stored {
        tables := begun;
        return Failed;
      }
      answer := Done;
    }

    /** redeem with ActivateUser. */
    method ActivateByToken(hash: Hash, now: Time, password: string) returns (answer: Answer)
      requires Consistent(tables)
      modifies this
      ensures Consistent(tables)
      ensures Outcome(answer, tables) == Accounts.ActivateByToken(old(tables), hash, now, password)
    {
      var begun := tables;
      if !Redeemable(tables.tokens, hash, Invite, now) {
        return TokenNotFound;
      }
      var id := tables.tokens[hash].user;
      if !Enabled(tables.users, id) {
        return UserNotFound;
      }
      DeleteToken(hash);
      var row := tables.users[id];
      var count := UpdateUser(id, !row.disabled && !row.confirmed, row.(passwordHash := password, confirmed := true));
      if count == 0 {
        tables := begun;
        return UserNotFound;
      }
      answer := Account(id);
    }

    /** redeem with SetUserPassword and the deletions after it. */
    method ResetByToken(hash: Hash, now: Time, password: string) returns (answer: Answer)
      requires Consistent(tables)
      modifies this
      ensures Consistent(tables)
      ensures Outcome(answer, tables) == Accounts.ResetByToken(old(tables), hash, now, password)
    {
      var begun := tables;
      if !Redeemable(tables.tokens, hash, Reset, now) {
        return TokenNotFound;
      }
      var id := tables.tokens[hash].user;
      if !Enabled(tables.users, id) {
        return UserNotFound;
      }
      DeleteToken(hash);
      var row := tables.users[id];
      var count := UpdateUser(id, !row.disabled, row.(passwordHash := password));
      DeleteUserSessions(id);
      DeleteUserTokensForPurpose(id, Reset);
      if count == 0 {
        assert false;
      }
      assert tables.tokens == WithoutPurpose(begun.tokens, id, Reset);
      answer := Account(id);
    }

    /** The sweep's loop over the expired rows, collecting the accounts of the invites. */
    method NoteStranded(expired: seq<Hash>, now: Time) returns (stranded: seq<Id>)
      requires forall j :: 0 <= j < |expired| ==> expired[j] in tables.tokens
      ensures forall id :: id in stranded <==>
                exists j :: 0 <= j < |expired| && tables.tokens[expired[j]].purpose == Invite &&
                            tables.tokens[expired[j]].user == id
    {
      stranded := [];
      for i := 0 to |expired|
        invariant forall id :: id in stranded <==>
                    exists j :: 0 <= j < i && tables.tokens[expired[j]].purpose == Invite &&
                                tables.tokens[expired[j]].user == id
      {
        if tables.tokens[expired[i]].purpose == Invite {
          stranded := stranded + [tables.tokens[expired[i]].user];
        }
      }
    }

    /** sweepStranded: the accounts noted that are unconfirmed and hold no live invite go, with what cascades. */
    method SweepStranded(expired: seq<Hash>, stranded: seq<Id>, now: Time)
      requires forall hash :: hash in expired <==> hash in Expired(tables.tokens, now)
      requires forall j :: 0 <= j < |expired| ==> expired[j] in Expired(tables.tokens, now)
      requires forall id :: id in stranded <==>
                 exists j :: 0 <= j < |expired| && tables.tokens[expired[j]].purpose == Invite &&
                             tables.tokens[expired[j]].user == id
      modifies this
      ensures var gone := Stranded(old(tables), now);
              tables == Db(old(tables).users - gone, WithoutSessionsOf(old(tables).sessions, gone),
                           WithoutTokensOf(old(tables).tokens, gone))
    {
      var held := set id | id in tables.users && !tables.users[id].confirmed && id in stranded;
      StrandedFound(tables, expired, stranded, now);
      SweptAlike(tables, Stranded(tables, now), now);
      if held == {} {
        assert Stranded(tables, now) == {};
        return;
      }
      DeleteUnconfirmedAccounts(held, now);
    }

    /** The sweep: the stranded accounts first, with what cascades, and then the expired tokens. */
    method DeleteExpiredTokens(now: Time) returns (answer: Answer)
      requires Consistent(tables)
      modifies this
      ensures Consistent(tables)
      ensures Outcome(answer, tables) == Accounts.DeleteExpiredTokens(old(tables), now)
    {
      var expired := ExpiredTokens(now);
      forall j | 0 <= j < |expired| ensures expired[j] in Expired(tables.tokens, now) {
        assert expired[j] in expired;
      }
      var stranded := NoteStranded(expired, now);
      SweepStranded(expired, stranded, now);
      SweptAlike(old(tables), Stranded(old(tables), now), now);
      tables := tables.(tokens := tables.tokens - Expired(tables.tokens, now));
      answer := Counted(|expired|);
    }
  }

  /** The accounts the sweep drops are the stranded ones of the contract. */
  lemma StrandedFound(db: Db, expired: seq<Hash>, stranded: seq<Id>, now: Time)
    requires forall hash :: hash in expired <==> hash in Expired(db.tokens, now)
    requires forall j :: 0 <= j < |expired| ==> expired[j] in Expired(db.tokens, now)
    requires forall id :: id in stranded <==>
               exists j :: 0 <= j < |expired| && db.tokens[expired[j]].purpose == Invite &&
                 db.tokens[expired[j]].user == id
    ensures (set id | id in db.users && !db.users[id].confirmed && id in stranded &&
             Standing(db.tokens, id, Invite, now) == {})
            == Stranded(db, now)
  {
    forall id | id in Stranded(db, now) ensures id in stranded {
      var hash :| hash in Expired(db.tokens, now) && db.tokens[hash].purpose == Invite && db.tokens[hash].user == id;
      var j :| 0 <= j < |expired| && expired[j] == hash;
    }
  }

  /** Dropping accounts before the expired tokens leaves the same rows as dropping them after. */
  lemma SweptAlike(db: Db, gone: set<Id>, now: Time)
    ensures var cascaded := WithoutTokensOf(db.tokens, gone);
            var kept := map hash | hash in db.tokens && db.tokens[hash].expiresAt > now :: db.tokens[hash];
            cascaded - Expired(cascaded, now) == WithoutTokensOf(kept, gone)
    ensures gone == {} ==> (WithoutTokensOf(db.tokens, gone) == db.tokens &&
                 WithoutSessionsOf(db.sessions, gone) == db.sessions)
  {
  }

  lemma ExpiredSessions(sessions: map<Hash, Session>, gone: set<Hash>, now: Time)
    requires forall hash :: hash in gone <==> hash in sessions && sessions[hash].expiresAt <= now
    ensures var live := map hash | hash in sessions && sessions[hash].expiresAt > now :: sessions[hash];
            sessions - gone == live && gone == sessions.Keys - live.Keys
  {
  }

  // How far the two stores agree

  /** A privileged list without the empty role guards alike in both stores, and no other list does. */
  lemma GuardsAgreeIff(privileged: Roles)
    ensures (forall db, id :: SqlUncovers(db, id, privileged) <==> Uncovers(db, id, privileged)) <==> "" !in privileged
  {
    if "" in privileged {
      var db := Db(map[0 := User("a", "a", "", false, true, "")], map[], map[]);
      assert SqlPrivileged(db.users[0], privileged);
      assert SqlUncovers(db, 0, privileged) && !Uncovers(db, 0, privileged);
    } else {
      forall db, id ensures SqlUncovers(db, id, privileged) <==> Uncovers(db, id, privileged) {
        assert forall other :: other in db.users ==>
                 (SqlPrivileged(db.users[other], privileged) <==> PrivilegedAccount(db.users[other], privileged));
      }
    }
  }
}
