/** The in-memory store: three maps changed in place under one mutex, each method proved against the contract. */
module TestkitStore {
  import opened Basics
  import opened Accounts

  class Store {
    var Users: map<Id, User>
    var Sessions: map<Hash, Session>
    var Tokens: map<Hash, Token>

    function Rows(): Db
      reads this
    {
      Db(Users, Sessions, Tokens)
    }

    constructor ()
      ensures Rows() == EMPTY_DB
    {
      Users, Sessions, Tokens := map[], map[], map[];
    }

    method CreateUser(id: Id, user: User) returns (answer: Answer)
      modifies this
      ensures Outcome(answer, Rows()) == Accounts.CreateUser(old(Rows()), id, user)
    {
      var left := Users.Keys;
      while left != {}
        invariant left <= Users.Keys
        invariant forall other :: other in Users && other !in left ==> Users[other].email != user.email
        invariant Rows() == old(Rows())
        decreases left
      {
        var other :| other in left;
        if Users[other].email == user.email {
          return EmailTaken;
        }
        left := left - {other};
      }
      Users := Users[id := user];
      answer := Done;
    }

    method HasUsers() returns (held: bool)
      ensures held <==> exists id :: id in Users
    {
      held := Users != map[];
    }

    method CreateFirstUser(id: Id, user: User) returns (answer: Answer)
      modifies this
      ensures Outcome(answer, Rows()) == Accounts.CreateFirstUser(old(Rows()), id, user)
    {
      if |Users| > 0 {
        return SetupDone;
      }
      Users := Users[id := user];
      answer := Done;
    }

    method UserByEmail(email: string) returns (answer: Answer)
      ensures answer.Found? ==> answer.user.email == email && answer.user in Users.Values
      ensures !answer.Found? ==> answer == UserNotFound && forall id :: id in Users ==> Users[id].email != email
    {
      var left := Users.Keys;
      while left != {}
        invariant left <= Users.Keys
        invariant forall id :: id in Users && id !in left ==> Users[id].email != email
        decreases left
      {
        var id :| id in left;
        if Users[id].email == email {
          return Found(Users[id]);
        }
        left := left - {id};
      }
      answer := UserNotFound;
    }

    method CreateSession(hash: Hash, session: Session) returns (answer: Answer)
      modifies this
      ensures Outcome(answer, Rows()) == Accounts.CreateSession(old(Rows()), hash, session)
    {
      Sessions := Sessions[hash := session];
      answer := Done;
    }

    method UserBySession(hash: Hash, now: Time) returns (answer: Answer)
      ensures answer == Accounts.UserBySession(Rows(), hash, now)
    {
      if hash !in Sessions || !(Sessions[hash].expiresAt > now) {
        return SessionNotFound;
      }
      var id := Sessions[hash].user;
      if id !in Users || Users[id].disabled {
        return SessionNotFound;
      }
      answer := Found(Users[id]);
    }

    method DeleteSession(hash: Hash) returns (answer: Answer)
      modifies this
      ensures Outcome(answer, Rows()) == Accounts.DeleteSession(old(Rows()), hash)
    {
      Sessions := Sessions - {hash};
      answer := Done;
    }

    method DeleteExpiredSessions(now: Time) returns (answer: Answer)
      modifies this
      ensures Outcome(answer, Rows()) == Accounts.DeleteExpiredSessions(old(Rows()), now)
    {
      var held := |Sessions|;
      var before := Sessions;
      Sessions := map hash | hash in Sessions && !(Sessions[hash].expiresAt <= now) :: Sessions[hash];
      assert Sessions == Accounts.DeleteExpiredSessions(old(Rows()), now).db.sessions;
      DroppedCount(before, Sessions);
      answer := Counted(held - |Sessions|);
    }

    method SetUserDisabled(id: Id, disabled: bool) returns (answer: Answer)
      modifies this
      ensures Outcome(answer, Rows()) == Accounts.SetDisabled(old(Rows()), id, disabled)
    {
      if id !in Users {
        return UserNotFound;
      }
      Users := Users[id := Users[id].(disabled := disabled)];
      if disabled {
        Sessions := map hash | hash in Sessions && Sessions[hash].user != id :: Sessions[hash];
        Tokens := map hash | hash in Tokens && Tokens[hash].user != id :: Tokens[hash];
        assert Sessions == WithoutSessionsOf(old(Sessions), {id});
        assert Tokens == WithoutTokensOf(old(Tokens), {id});
      }
      answer := Done;
    }

    /** Whether a write that takes cover away leaves none, looking through the other accounts in any order. */
    method RefuseUncovered(id: Id, privileged: Roles, removesCover: bool) returns (refused: bool)
      ensures refused <==> removesCover && Uncovers(Rows(), id, privileged)
    {
      if !removesCover || id !in Users || !PrivilegedAccount(Users[id], privileged) {
        return false;
      }
      var left := Users.Keys;
      while left != {}
        invariant left <= Users.Keys
        invariant forall other :: other in Users && other !in left && other != id ==>
                    !PrivilegedAccount(Users[other], privileged)
        decreases left
      {
        var other :| other in left;
        if other != id && PrivilegedAccount(Users[other], privileged) {
          return false;
        }
        left := left - {other};
      }
      refused := true;
    }

    /** setRole, with the held role for SetUserRoleFrom and none for SetUserRole. */
    method SetRole(id: Id, held: Option<Role>, role: Role, privileged: Roles) returns (answer: Answer)
      modifies this
      ensures Outcome(answer, Rows()) == GuardedRole(old(Rows()), id, held, role, privileged)
    {
      if id !in Users {
        return UserNotFound;
      }
      if held.Some? && Users[id].role != held.value {
        return RoleChanged;
      }
      var refused := RefuseUncovered(id, privileged, !Holds(privileged, role));
      if refused {
        return LastPrivileged;
      }
      Users := Users[id := Users[id].(role := role)];
      answer := Done;
    }

    /** disableUnderCover, with the held role for SetUserDisabledFrom and none for SetUserDisabledUnderCover. */
    method DisableUnderCover(id: Id, held: Option<Role>, disabled: bool, privileged: Roles) returns (answer: Answer)
      modifies this
      ensures Outcome(answer, Rows()) == GuardedDisable(old(Rows()), id, held, disabled, privileged)
    {
      if id in Users && held.Some? && Users[id].role != held.value {
        return RoleChanged;
      }
      var refused := RefuseUncovered(id, privileged, disabled);
      if refused {
        return LastPrivileged;
      }
      answer := SetUserDisabled(id, disabled);
    }

    method GrantRoleToRoleless(role: Role) returns (answer: Answer)
      modifies this
      ensures Outcome(answer, Rows()) == GrantRole(old(Rows()), role)
    {
      if role == "" {
        return EmptyRole;
      }
      var granted: nat := 0;
      var left := Users.Keys;
      GrantBounds(Rows(), role);
      while left != {}
        invariant left <= old(Users).Keys
        invariant Users == GrantedBut(old(Users), left, role)
        invariant Sessions == old(Sessions) && Tokens == old(Tokens)
        invariant granted == |Roleless(old(Users)) - left|
        decreases left
      {
        var id :| id in left;
        GrantOneMore(old(Users), left, id, role);
        if Users[id].role == "" {
          Users := Users[id := Users[id].(role := role)];
          granted := granted + 1;
        }
        left := left - {id};
      }
      answer := Counted(granted);
    }

    method CreateToken(hash: Hash, token: Token, live: int, now: Time) returns (answer: Answer)
      modifies this
      ensures Outcome(answer, Rows()) == Accounts.CreateToken(old(Rows()), hash, token, live, now)
    {
      if token.user !in Users || Users[token.user].disabled {
        return UserNotFound;
      }
      var standing: nat := 0;
      var left := Tokens.Keys;
      ghost var counted: set<Hash> := {};
      while left != {}
        invariant left <= Tokens.Keys && Rows() == old(Rows())
        invariant counted == (set h | h in Standing(Tokens, token.user, token.purpose, now) && h !in left)
        invariant standing == |counted|
        decreases left
      {
        var h :| h in left;
        if LiveFor(Tokens[h], token.user, token.purpose, now) {
          standing := standing + 1;
          counted := counted + {h};
        }
        left := left - {h};
      }
      assert counted == Standing(Tokens, token.user, token.purpose, now);
      if standing >= live {
        return TokenExists;
      }
      Tokens := Tokens[hash := token];
      answer := Done;
    }

    method ReplaceToken(hash: Hash, token: Token) returns (answer: Answer)
      modifies this
      ensures Outcome(answer, Rows()) == Accounts.ReplaceToken(old(Rows()), hash, token)
    {
      if token.user !in Users || Users[token.user].disabled ||
         (token.purpose == Invite && Users[token.user].confirmed) {
        return UserNotFound;
      }
      Tokens :=
        map h | h in Tokens && !(Tokens[h].user == token.user && Tokens[h].purpose == token.purpose) :: Tokens[h];
      Tokens := Tokens[hash := token];
      answer := Done;
    }

    method ActivateByToken(hash: Hash, now: Time, password: string) returns (answer: Answer)
      modifies this
      ensures Outcome(answer, Rows()) == Accounts.ActivateByToken(old(Rows()), hash, now, password)
    {
      if hash !in Tokens || Tokens[hash].purpose != Invite || !(Tokens[hash].expiresAt > now) {
        return TokenNotFound;
      }
      var id := Tokens[hash].user;
      if id !in Users || Users[id].disabled || Users[id].confirmed {
        return UserNotFound;
      }
      Users := Users[id := Users[id].(passwordHash := password, confirmed := true)];
      Tokens := Tokens - {hash};
      answer := Account(id);
    }

    method ResetByToken(hash: Hash, now: Time, password: string) returns (answer: Answer)
      modifies this
      ensures Outcome(answer, Rows()) == Accounts.ResetByToken(old(Rows()), hash, now, password)
    {
      if hash !in Tokens || Tokens[hash].purpose != Reset || !(Tokens[hash].expiresAt > now) {
        return TokenNotFound;
      }
      var id := Tokens[hash].user;
      if id !in Users || Users[id].disabled {
        return UserNotFound;
      }
      Users := Users[id := Users[id].(passwordHash := password)];
      Sessions := map h | h in Sessions && Sessions[h].user != id :: Sessions[h];
      Tokens := map h | h in Tokens && !(Tokens[h].user == id && Tokens[h].purpose == Reset) :: Tokens[h];
      Tokens := Tokens - {hash};
      assert Sessions == WithoutSessionsOf(old(Sessions), {id});
      assert Tokens == WithoutPurpose(old(Tokens), id, Reset);
      answer := Account(id);
    }

    method HoldsLiveInvite(id: Id, now: Time) returns (held: bool)
      ensures held <==> Standing(Tokens, id, Invite, now) != {}
    {
      var left := Tokens.Keys;
      while left != {}
        invariant left <= Tokens.Keys
        invariant forall h :: h in Standing(Tokens, id, Invite, now) ==> h in left
        decreases left
      {
        var h :| h in left;
        if LiveFor(Tokens[h], id, Invite, now) {
          assert h in Standing(Tokens, id, Invite, now);
          return true;
        }
        left := left - {h};
      }
      held := false;
    }

    /** dropStranded: an unconfirmed account with no live invite goes, with its sessions and tokens. */
    method DropStranded(id: Id, now: Time)
      modifies this
      ensures var drops :=
                id in old(Users) && !old(Users)[id].confirmed && Standing(old(Tokens), id, Invite, now) == {};
              var gone := if drops then {id} else {};
              Rows() ==
              Db(old(Users) - gone, WithoutSessionsOf(old(Sessions), gone), WithoutTokensOf(old(Tokens), gone))
    {
      assert WithoutSessionsOf(Sessions, {}) == Sessions && WithoutTokensOf(Tokens, {}) == Tokens;
      if id !in Users || Users[id].confirmed {
        return;
      }
      var held := HoldsLiveInvite(id, now);
      if held {
        return;
      }
      Users := Users - {id};
      Sessions := map h | h in Sessions && Sessions[h].user != id :: Sessions[h];
      Tokens := map h | h in Tokens && Tokens[h].user != id :: Tokens[h];
      assert Sessions == WithoutSessionsOf(old(Sessions), {id});
      assert Tokens == WithoutTokensOf(old(Tokens), {id});
    }

    /** The first loop of the sweep: the expired tokens go, and the accounts of the expired invites are noted. */
    method DropExpired(now: Time) returns (stranded: set<Id>, count: nat)
      modifies this
      ensures Users == old(Users) && Sessions == old(Sessions)
      ensures Tokens == old(Tokens) - Expired(old(Tokens), now)
      ensures count == |Expired(old(Tokens), now)|
      ensures forall id :: id in stranded <==>
                exists h :: h in Expired(old(Tokens), now) && old(Tokens)[h].purpose == Invite &&
                  old(Tokens)[h].user == id
    {
      stranded, count := {}, 0;
      var left := Tokens.Keys;
      ghost var dropped: set<Hash> := {};
      while left != {}
        invariant left <= old(Tokens).Keys && dropped !! left
        invariant dropped == (set h | h in Expired(old(Tokens), now) && h !in left) && count == |dropped|
        invariant Tokens == old(Tokens) - dropped
        invariant Users == old(Users) && Sessions == old(Sessions)
        invariant forall id :: id in stranded <==>
                    exists h :: h in dropped && old(Tokens)[h].purpose == Invite && old(Tokens)[h].user == id
        decreases left
      {
        var h :| h in left;
        left := left - {h};
        if Tokens[h].expiresAt > now {
          continue;
        }
        if Tokens[h].purpose == Invite {
          stranded := stranded + {Tokens[h].user};
        }
        Tokens := Tokens - {h};
        count := count + 1;
        dropped := dropped + {h};
      }
      assert dropped == Expired(old(Tokens), now);
    }

    /** The sweep: the expired tokens first, then the accounts they strand in any order, each judged on what is left. */
    method DeleteExpiredTokens(now: Time) returns (answer: Answer)
      modifies this
      ensures Outcome(answer, Rows()) == Accounts.DeleteExpiredTokens(old(Rows()), now)
    {
      var stranded, count := DropExpired(now);
      ghost var kept := Tokens;
      var left := stranded;
      ghost var gone: set<Id> := {};
      assert WithoutSessionsOf(Sessions, {}) == Sessions && WithoutTokensOf(kept, {}) == kept;
      while left != {}
        invariant left <= stranded
        invariant gone == (set id | id in stranded && id !in left && Drops(old(Users), kept, id, now))
        invariant Rows() == Db(old(Users) - gone, WithoutSessionsOf(old(Sessions), gone), WithoutTokensOf(kept, gone))
        decreases left
      {
        var id :| id in left;
        left := left - {id};
        ghost var drops := if Drops(old(Users), kept, id, now) then {id} else {};
        DropOneMore(old(Rows()), kept, gone, id, now);
        DropStranded(id, now);
        gone := gone + drops;
      }
      StrandedDropped(old(Rows()), stranded, now);
      assert gone == Stranded(old(Rows()), now);
      answer := Counted(count);
    }
  }

  /** The accounts once a role was granted to every roleless one but those left to visit. */
  function GrantedBut(users: map<Id, User>, left: set<Id>, role: Role): map<Id, User> {
    map id | id in users :: if users[id].role == "" && id !in left then users[id].(role := role) else users[id]
  }

  lemma GrantBounds(db: Db, role: Role)
    requires role != ""
    ensures GrantedBut(db.users, db.users.Keys, role) == db.users && |Roleless(db.users) - db.users.Keys| == 0
    ensures GrantRole(db, role) ==
            Outcome(Counted(|Roleless(db.users) - {}|), db.(users := GrantedBut(db.users, {}, role)))
  {
    assert Roleless(db.users) - db.users.Keys == {};
    assert Roleless(db.users) - {} == Roleless(db.users);
    assert GrantRole(db, role).db.users == GrantedBut(db.users, {}, role);
  }

  /** Visiting one account more grants the role to it if it has none, and counts it then. */
  lemma GrantOneMore(users: map<Id, User>, left: set<Id>, id: Id, role: Role)
    requires id in left && left <= users.Keys && role != ""
    ensures GrantedBut(users, left, role)[id] == users[id]
    ensures var granted := GrantedBut(users, left, role);
            GrantedBut(users, left - {id}, role) ==
            if users[id].role == "" then granted[id := granted[id].(role := role)] else granted
    ensures |Roleless(users) - (left - {id})| == |Roleless(users) - left| + if users[id].role == "" then 1 else 0
  {
    if users[id].role == "" {
      assert Roleless(users) - (left - {id}) == (Roleless(users) - left) + {id};
    } else {
      assert Roleless(users) - (left - {id}) == Roleless(users) - left;
    }
  }

  /** Whether the sweep drops an account, judged on the tokens that are not expired. */
  predicate Drops(users: map<Id, User>, kept: map<Hash, Token>, id: Id, now: Time) {
    id in users && !users[id].confirmed && Standing(kept, id, Invite, now) == {}
  }

  /** Dropping one account more, after the accounts of `gone`, judges it as on the tokens before them. */
  lemma DropOneMore(db: Db, kept: map<Hash, Token>, gone: set<Id>, id: Id, now: Time)
    requires id !in gone
    ensures Standing(WithoutTokensOf(kept, gone), id, Invite, now) == Standing(kept, id, Invite, now)
    ensures forall drops: set<Id> {:trigger gone + drops} ::
              && (db.users - gone) - drops == db.users - (gone + drops)
              && WithoutSessionsOf(WithoutSessionsOf(db.sessions, gone), drops) ==
                 WithoutSessionsOf(db.sessions, gone + drops)
              && WithoutTokensOf(WithoutTokensOf(kept, gone), drops) == WithoutTokensOf(kept, gone + drops)
  {
  }

  /** The accounts dropped are the stranded ones of the contract. */
  lemma StrandedDropped(db: Db, noted: set<Id>, now: Time)
    requires forall id :: id in noted <==>
               exists h :: h in Expired(db.tokens, now) && db.tokens[h].purpose == Invite && db.tokens[h].user == id
    ensures (set id | id in noted && Drops(db.users, db.tokens - Expired(db.tokens, now), id, now)) == Stranded(db, now)
    ensures db.tokens - Expired(db.tokens, now) ==
            map hash | hash in db.tokens && db.tokens[hash].expiresAt > now :: db.tokens[hash]
  {
    forall id
      ensures Standing(db.tokens - Expired(db.tokens, now), id, Invite, now) == Standing(db.tokens, id, Invite, now)
    {
    }
  }

  /** What a deletion from a map removed is the difference of the sizes. */
  lemma DroppedCount<K, V>(before: map<K, V>, after: map<K, V>)
    requires after.Keys <= before.Keys
    ensures |before| - |after| == |before.Keys - after.Keys|
  {
    assert before.Keys == after.Keys + (before.Keys - after.Keys);
  }
}
