/** What a row of the atomic store holds after a run of calls, told from what the calls answered: each field of an
    account is the one last written to it by a call that answered so, and a token stands until a call spends it. */
module RowLaws {
  import opened Basics
  import opened Accounts
  import opened AccountLaws

  /** Whether a redemption answered an account. */
  predicate Redeems(call: Call, answer: Answer, id: Id) {
    (call.Activate? || call.ResetPassword?) && answer == Account(id)
  }

  /** Whether a disable or enable of an account answered that it is done. */
  predicate Disables(call: Call, answer: Answer, id: Id) {
    (call.WriteDisabled? || call.Unguarded?) && call.id == id && answer == Done
  }

  // Arriving and leaving

  /** An account arrives as a creation answered that it is done, whole and under an email no account had, and its
      arrival changes no other account. */
  lemma ArrivesAsCreated(db: Db, call: Call, privileged: Roles, id: Id)
    requires Fits(db, call) && id !in db.users
    ensures var (after, answer) := (Perform(db, call, privileged).db, Perform(db, call, privileged).answer);
            && (id in after.users <==> (call.NewUser? || call.FirstUser?) && call.id == id && answer == Done)
            && (id in after.users ==>
                  && after == Db(db.users[id := call.user], db.sessions, db.tokens)
                  && (forall other :: other in db.users ==> db.users[other].email != call.user.email))
  {
  }

  /** A creation is refused exactly for its email, and a first one exactly for any account. */
  lemma CreationAnswers(db: Db, id: Id, user: User, privileged: Roles)
    ensures Perform(db, NewUser(id, user), privileged).answer ==
            if exists other :: other in db.users && db.users[other].email == user.email then EmailTaken else Done
    ensures Perform(db, FirstUser(id, user), privileged).answer == if db.users.Keys == {} then Done else SetupDone
  {
    if db.users.Keys == {} {
      assert db.users == map[];
    }
  }

  /** An account leaves exactly by a sweep that finds it unconfirmed, with an expired invite and without a live one. */
  lemma LeavesIffStranded(db: Db, call: Call, privileged: Roles, id: Id)
    requires Fits(db, call) && id in db.users
    ensures id !in Perform(db, call, privileged).db.users <==>
            && call.Sweep? && !db.users[id].confirmed
            && (exists hash :: hash in db.tokens && db.tokens[hash].user == id && db.tokens[hash].purpose == Invite &&
                               db.tokens[hash].expiresAt <= call.now)
            && (forall hash :: hash in db.tokens && db.tokens[hash].user == id && db.tokens[hash].purpose == Invite ==>
                  db.tokens[hash].expiresAt <= call.now)
  {
    if call.Sweep? {
      assert (forall hash :: hash in db.tokens && db.tokens[hash].user == id && db.tokens[hash].purpose == Invite ==>
                db.tokens[hash].expiresAt <= call.now) <==> Standing(db.tokens, id, Invite, call.now) == {} by {
        if hash :| hash in Standing(db.tokens, id, Invite, call.now) {
          assert db.tokens[hash].user == id;
        }
        if hash :| hash in db.tokens && db.tokens[hash].user == id && db.tokens[hash].purpose == Invite &&
                   db.tokens[hash].expiresAt > call.now {
          assert hash in Standing(db.tokens, id, Invite, call.now);
        }
      }
      forall hash | hash in db.tokens && db.tokens[hash].user == id && db.tokens[hash].purpose == Invite &&
                    db.tokens[hash].expiresAt <= call.now
        ensures hash in Expired(db.tokens, call.now)
      {
      }
    }
  }

  // Fields

  /** No call changes an account's email or name. */
  lemma NamesStay(db: Db, call: Call, privileged: Roles, id: Id)
    requires Fits(db, call) && id in db.users && id in Perform(db, call, privileged).db.users
    ensures var after := Perform(db, call, privileged).db.users[id];
            after.email == db.users[id].email && after.name == db.users[id].name
  {
  }

  /** A password hash is the one of the redemption that answered its account, and otherwise stays. */
  lemma PasswordWritten(db: Db, call: Call, privileged: Roles, id: Id)
    requires Fits(db, call) && id in db.users && id in Perform(db, call, privileged).db.users
    ensures var outcome := Perform(db, call, privileged);
            outcome.db.users[id].passwordHash ==
            if Redeems(call, outcome.answer, id) then call.password else db.users[id].passwordHash
  {
  }

  /** An account is confirmed by the activation that answered it, which finds it unconfirmed, and never the other
      way. */
  lemma ConfirmedWritten(db: Db, call: Call, privileged: Roles, id: Id)
    requires Fits(db, call) && id in db.users && id in Perform(db, call, privileged).db.users
    ensures var outcome := Perform(db, call, privileged);
            && (outcome.db.users[id].confirmed <==>
                  db.users[id].confirmed || (call.Activate? && outcome.answer == Account(id)))
            && (call.Activate? && outcome.answer == Account(id) ==> !db.users[id].confirmed)
  {
  }

  /** An account is disabled or enabled as the last call that answered so said. */
  lemma DisabledWritten(db: Db, call: Call, privileged: Roles, id: Id)
    requires Fits(db, call) && id in db.users && id in Perform(db, call, privileged).db.users
    ensures var outcome := Perform(db, call, privileged);
            outcome.db.users[id].disabled ==
            if Disables(call, outcome.answer, id) then call.disabled else db.users[id].disabled
  {
  }

  /** A role is the one a role write answered done or a grant gave to the account that held none. */
  lemma RoleWritten(db: Db, call: Call, privileged: Roles, id: Id)
    requires Fits(db, call) && id in db.users && id in Perform(db, call, privileged).db.users
    ensures var outcome := Perform(db, call, privileged);
            outcome.db.users[id].role ==
            if call.WriteRole? && call.id == id && outcome.answer == Done then call.role
            else if call.Grant? && db.users[id].role == "" then call.role
            else db.users[id].role
  {
  }

  // Redemptions

  /** Whether an unexpired token of a purpose stands under a hash. */
  predicate Live(db: Db, hash: Hash, purpose: Purpose, now: Time) {
    hash in db.tokens && db.tokens[hash].purpose == purpose && now < db.tokens[hash].expiresAt
  }

  /** A reset of an enabled account's live token answers that account and stores the password; it ends the account's
      sessions, takes its reset tokens, and leaves everything else. Any other reset changes nothing. */
  lemma ResetLands(db: Db, hash: Hash, now: Time, password: string, privileged: Roles)
    ensures var outcome := Perform(db, ResetPassword(hash, now, password), privileged);
            var after := outcome.db;
            if !Live(db, hash, Reset, now) then outcome == Outcome(TokenNotFound, db)
            else
              var id := db.tokens[hash].user;
              if id !in db.users || db.users[id].disabled then outcome == Outcome(UserNotFound, db)
              else
                && outcome.answer == Account(id) && after.users.Keys == db.users.Keys
                && after.users[id].passwordHash == password
                && (forall other :: other in db.users && other != id ==> after.users[other] == db.users[other])
                && (forall s :: s in after.sessions <==> s in db.sessions && db.sessions[s].user != id)
                && (forall s :: s in after.sessions ==> after.sessions[s] == db.sessions[s])
                && (forall t :: t in after.tokens <==>
                      t in db.tokens && !(db.tokens[t].user == id && db.tokens[t].purpose == Reset))
                && (forall t :: t in after.tokens ==> after.tokens[t] == db.tokens[t])
  {
  }

  /** An activation by a live invite of an enabled, unconfirmed account answers that account, confirms it and stores the
      password; it takes the invite and leaves everything else. Any other activation changes nothing. */
  lemma ActivationLands(db: Db, hash: Hash, now: Time, password: string, privileged: Roles)
    ensures var outcome := Perform(db, Activate(hash, now, password), privileged);
            var after := outcome.db;
            if !Live(db, hash, Invite, now) then outcome == Outcome(TokenNotFound, db)
            else
              var id := db.tokens[hash].user;
              if id !in db.users || db.users[id].disabled || db.users[id].confirmed then
                outcome == Outcome(UserNotFound, db)
              else
                && outcome.answer == Account(id) && after.users.Keys == db.users.Keys
                && after.users[id].confirmed && after.users[id].passwordHash == password
                && (forall other :: other in db.users && other != id ==> after.users[other] == db.users[other])
                && after.sessions == db.sessions && hash !in after.tokens
                && (forall t :: t in db.tokens && t != hash ==> t in after.tokens && after.tokens[t] == db.tokens[t])
                && (forall t :: t in after.tokens ==> t in db.tokens)
  {
  }

  // Passwords and confirmations over runs

  /** Whether a call lets an account go: a sweep after which it is no longer stored. */
  ghost predicate LetsGo(db: Db, call: Call, privileged: Roles, id: Id) {
    call.Sweep? && id !in Perform(db, call, privileged).db.users
  }

  /** Whether some call of a run redeems a token of an account or lets the account go. */
  ghost predicate RunRewrites(db: Db, calls: seq<Call>, privileged: Roles, id: Id)
    decreases calls
  {
    calls != [] &&
    (Redeems(calls[0], Perform(db, calls[0], privileged).answer, id) || LetsGo(db, calls[0], privileged, id) ||
     RunRewrites(Perform(db, calls[0], privileged).db, calls[1..], privileged, id))
  }

  lemma {:induction false} PasswordStays(db: Db, calls: seq<Call>, privileged: Roles, id: Id)
    requires id in db.users && Runs(db, calls, privileged) && !RunRewrites(db, calls, privileged, id)
    ensures id in After(db, calls, privileged).users
    ensures After(db, calls, privileged).users[id].passwordHash == db.users[id].passwordHash
    decreases calls
  {
    if calls != [] {
      LeavesIffStranded(db, calls[0], privileged, id);
      PasswordWritten(db, calls[0], privileged, id);
      PasswordStays(Perform(db, calls[0], privileged).db, calls[1..], privileged, id);
    }
  }

  /** Once a redemption answered an account, the account holds that password through every later run that neither
      redeems another of its tokens nor sweeps it away. */
  lemma RedeemedPasswordStays(db: Db, call: Call, id: Id, calls: seq<Call>, privileged: Roles)
    requires Redeems(call, Perform(db, call, privileged).answer, id)
    requires Runs(Perform(db, call, privileged).db, calls, privileged)
    requires !RunRewrites(Perform(db, call, privileged).db, calls, privileged, id)
    ensures var after := After(Perform(db, call, privileged).db, calls, privileged);
            id in after.users && after.users[id].passwordHash == call.password
  {
    PasswordWritten(db, call, privileged, id);
    PasswordStays(Perform(db, call, privileged).db, calls, privileged, id);
  }

  lemma {:induction false} ConfirmedStays(db: Db, calls: seq<Call>, privileged: Roles, id: Id)
    requires id in db.users && db.users[id].confirmed && Runs(db, calls, privileged)
    ensures id in After(db, calls, privileged).users && After(db, calls, privileged).users[id].confirmed
    decreases calls
  {
    if calls != [] {
      LeavesIffStranded(db, calls[0], privileged, id);
      ConfirmedWritten(db, calls[0], privileged, id);
      ConfirmedStays(Perform(db, calls[0], privileged).db, calls[1..], privileged, id);
    }
  }

  /** An activation that answered an account does so once and for all: through every later run, sweeps included, the
      account stays stored and confirmed, no activation answers it again and no invite is issued for it again. */
  lemma ActivatedForGood(db: Db, call: Call, id: Id, calls: seq<Call>, privileged: Roles, next: Call)
    requires call.Activate? && Perform(db, call, privileged).answer == Account(id)
    requires Runs(Perform(db, call, privileged).db, calls, privileged)
    ensures var after := After(Perform(db, call, privileged).db, calls, privileged);
            && id in after.users && after.users[id].confirmed
            && (next.Activate? ==> Perform(after, next, privileged).answer != Account(id))
            && (next.SwapToken? && next.token.user == id && next.token.purpose == Invite ==>
                  Perform(after, next, privileged) == Outcome(UserNotFound, after))
  {
    ConfirmedWritten(db, call, privileged, id);
    ConfirmedStays(Perform(db, call, privileged).db, calls, privileged, id);
    var after := After(Perform(db, call, privileged).db, calls, privileged);
    if Fits(after, next) && id in Perform(after, next, privileged).db.users {
      ConfirmedWritten(after, next, privileged, id);
    }
  }

  /** A reset that answered an account ends its sessions for good: none of them is found after any later run that
      creates none under its hash. */
  lemma ResetRevokesForGood(db: Db, call: Call, id: Id, hash: Hash, calls: seq<Call>, privileged: Roles, now: Time)
    requires call.ResetPassword? && Perform(db, call, privileged).answer == Account(id)
    requires hash in db.sessions && db.sessions[hash].user == id
    requires Runs(Perform(db, call, privileged).db, calls, privileged)
    requires forall i :: 0 <= i < |calls| && calls[i].NewSession? ==> calls[i].hash != hash
    ensures UserBySession(After(Perform(db, call, privileged).db, calls, privileged), hash, now) == SessionNotFound
  {
    GoneStaysGone(Perform(db, call, privileged).db, calls, privileged, hash);
  }

  // Disabled accounts

  /** Whether some call of a run enables an account or lets it go. */
  ghost predicate RunReopens(db: Db, calls: seq<Call>, privileged: Roles, id: Id)
    decreases calls
  {
    calls != [] &&
    ((Disables(calls[0], Perform(db, calls[0], privileged).answer, id) && !calls[0].disabled) ||
     LetsGo(db, calls[0], privileged, id) ||
     RunReopens(Perform(db, calls[0], privileged).db, calls[1..], privileged, id))
  }

  lemma {:induction false} DisabledStays(db: Db, calls: seq<Call>, privileged: Roles, id: Id)
    requires id in db.users && db.users[id].disabled && Runs(db, calls, privileged)
    requires !RunReopens(db, calls, privileged, id)
    ensures id in After(db, calls, privileged).users && After(db, calls, privileged).users[id].disabled
    decreases calls
  {
    if calls != [] {
      LeavesIffStranded(db, calls[0], privileged, id);
      DisabledWritten(db, calls[0], privileged, id);
      DisabledStays(Perform(db, calls[0], privileged).db, calls[1..], privileged, id);
    }
  }

  /** Once a disable answered that it is done, no session of the account is found through every later run that does not
      enable it or sweep it away, not even one created meanwhile; nor does a redemption answer it. */
  lemma DisabledIsNotFound(db: Db, call: Call, id: Id, calls: seq<Call>, privileged: Roles, hash: Hash, now: Time)
    requires Disables(call, Perform(db, call, privileged).answer, id) && call.disabled
    requires Runs(Perform(db, call, privileged).db, calls, privileged)
    requires !RunReopens(Perform(db, call, privileged).db, calls, privileged, id)
    ensures var after := After(Perform(db, call, privileged).db, calls, privileged);
            && (hash in after.sessions && after.sessions[hash].user == id ==>
                  UserBySession(after, hash, now) == SessionNotFound)
            && (forall next: Call :: !Redeems(next, Perform(after, next, privileged).answer, id))
  {
    DisabledWritten(db, call, privileged, id);
    DisabledStays(Perform(db, call, privileged).db, calls, privileged, id);
  }

  // Tokens

  /** The token stands under its hash and its account is enabled. */
  predicate Stands(db: Db, hash: Hash, token: Token) {
    hash in db.tokens && db.tokens[hash] == token && Enabled(db.users, token.user)
  }

  /** The calls that take a token: another one issued under its hash, a replacement for its account and purpose, a
      redemption that takes it, a disable of its account, and a sweep past its time or that strands its account. */
  ghost predicate Takes(db: Db, call: Call, privileged: Roles, hash: Hash, token: Token) {
    var answer := Perform(db, call, privileged).answer;
    match call
    case NewToken(other, issued, _, _) => answer == Done && other == hash && issued != token
    case SwapToken(other, issued) =>
      answer == Done && !(other == hash && issued == token) &&
      (other == hash || (issued.user == token.user && issued.purpose == token.purpose))
    case Activate(other, _, _) => answer.Account? && other == hash
    case ResetPassword(_, _, _) => answer == Account(token.user) && token.purpose == Reset
    case WriteDisabled(id, _, disabled) => disabled && id == token.user && answer == Done
    case Unguarded(id, disabled) => disabled && id == token.user
    case Sweep(now) => token.expiresAt <= now || LetsGo(db, call, privileged, token.user)
    case _ => false
  }

  /** A standing token stays so exactly through the calls that do not take it. */
  lemma CallKeepsTokenIff(db: Db, call: Call, privileged: Roles, hash: Hash, token: Token)
    requires Stands(db, hash, token) && Fits(db, call)
    ensures Stands(Perform(db, call, privileged).db, hash, token) <==> !Takes(db, call, privileged, hash, token)
  {
  }

  /** Whether some call of a run takes the token. */
  ghost predicate RunTakes(db: Db, calls: seq<Call>, privileged: Roles, hash: Hash, token: Token)
    decreases calls
  {
    calls != [] &&
    (Takes(db, calls[0], privileged, hash, token) ||
     RunTakes(Perform(db, calls[0], privileged).db, calls[1..], privileged, hash, token))
  }

  lemma {:induction false} RunKeepsToken(db: Db, calls: seq<Call>, privileged: Roles, hash: Hash, token: Token)
    requires Stands(db, hash, token) && Runs(db, calls, privileged) && !RunTakes(db, calls, privileged, hash, token)
    ensures Stands(After(db, calls, privileged), hash, token)
    decreases calls
  {
    if calls != [] {
      CallKeepsTokenIff(db, calls[0], privileged, hash, token);
      RunKeepsToken(Perform(db, calls[0], privileged).db, calls[1..], privileged, hash, token);
    }
  }

  lemma StandingRedeems(db: Db, hash: Hash, token: Token, privileged: Roles, now: Time, password: string)
    requires Stands(db, hash, token)
    ensures Perform(db, ResetPassword(hash, now, password), privileged).answer ==
            if token.purpose == Reset && now < token.expiresAt then Account(token.user) else TokenNotFound
    ensures Perform(db, Activate(hash, now, password), privileged).answer ==
            if !(token.purpose == Invite && now < token.expiresAt) then TokenNotFound
            else if db.users[token.user].confirmed then UserNotFound else Account(token.user)
  {
  }

  /** A token that was issued stands through every run none of whose calls takes it, and until it expires redeems its
      account: a reset token by a reset, an invite by an activation of an account not yet confirmed. */
  lemma IssuedRedeems(db: Db, call: Call, calls: seq<Call>, privileged: Roles, now: Time, password: string)
    requires (call.NewToken? || call.SwapToken?) && Perform(db, call, privileged).answer == Done
    requires Runs(Perform(db, call, privileged).db, calls, privileged)
    requires !RunTakes(Perform(db, call, privileged).db, calls, privileged, call.hash, call.token)
    ensures var after := After(Perform(db, call, privileged).db, calls, privileged);
            var token := call.token;
            && Stands(after, call.hash, token)
            && Perform(after, ResetPassword(call.hash, now, password), privileged).answer ==
               (if token.purpose == Reset && now < token.expiresAt then Account(token.user) else TokenNotFound)
            && Perform(after, Activate(call.hash, now, password), privileged).answer ==
               (if !(token.purpose == Invite && now < token.expiresAt) then TokenNotFound
                else if after.users[token.user].confirmed then UserNotFound else Account(token.user))
  {
    RunKeepsToken(Perform(db, call, privileged).db, calls, privileged, call.hash, call.token);
    StandingRedeems(After(Perform(db, call, privileged).db, calls, privileged), call.hash, call.token, privileged, now,
                    password);
  }

  /** An issue is refused exactly for a missing or disabled account, or for as many unexpired tokens of its account and
      purpose as it may leave. What was issued is the one token added. */
  lemma IssueLands(db: Db, hash: Hash, token: Token, live: int, now: Time, privileged: Roles)
    ensures var standing := set h | h in db.tokens && db.tokens[h].user == token.user &&
                                    db.tokens[h].purpose == token.purpose && now < db.tokens[h].expiresAt;
            Perform(db, NewToken(hash, token, live, now), privileged) ==
            if token.user !in db.users || db.users[token.user].disabled then Outcome(UserNotFound, db)
            else if |standing| >= live then Outcome(TokenExists, db)
            else Outcome(Done, Db(db.users, db.sessions, db.tokens[hash := token]))
  {
    assert (set h | h in db.tokens && db.tokens[h].user == token.user &&
                    db.tokens[h].purpose == token.purpose && now < db.tokens[h].expiresAt) ==
           Standing(db.tokens, token.user, token.purpose, now);
  }

  /** A replacement is refused exactly for a missing or disabled account, or for an invite of a confirmed one. What was
      issued is the one token left of its account and purpose, and every other token stays. */
  lemma ReplacementLands(db: Db, hash: Hash, token: Token, privileged: Roles)
    ensures var outcome := Perform(db, SwapToken(hash, token), privileged);
            var after := outcome.db;
            if token.user !in db.users || db.users[token.user].disabled ||
               (token.purpose == Invite && db.users[token.user].confirmed)
            then outcome == Outcome(UserNotFound, db)
            else
              && outcome.answer == Done && after.users == db.users && after.sessions == db.sessions
              && hash in after.tokens && after.tokens[hash] == token
              && (forall other :: other in after.tokens && other != hash <==>
                    other in db.tokens && other != hash &&
                    !(db.tokens[other].user == token.user && db.tokens[other].purpose == token.purpose))
              && (forall other :: other in after.tokens && other != hash ==> after.tokens[other] == db.tokens[other])
  {
  }

  // Sweeps and counts

  /** A sweep takes exactly the expired tokens and those of the accounts it lets go, with their sessions, and counts the
      expired ones. */
  lemma SweepTakes(db: Db, now: Time, privileged: Roles)
    ensures var outcome := Perform(db, Sweep(now), privileged);
            var after := outcome.db;
            && outcome.answer == Counted(|set hash | hash in db.tokens && db.tokens[hash].expiresAt <= now|)
            && (forall hash :: hash in after.tokens <==>
                  && hash in db.tokens && now < db.tokens[hash].expiresAt
                  && (db.tokens[hash].user in db.users ==> db.tokens[hash].user in after.users))
            && (forall hash :: hash in after.tokens ==> after.tokens[hash] == db.tokens[hash])
            && (forall hash :: hash in after.sessions <==>
                  hash in db.sessions && (db.sessions[hash].user in db.users ==> db.sessions[hash].user in after.users))
            && (forall hash :: hash in after.sessions ==> after.sessions[hash] == db.sessions[hash])
            && (forall id :: id in after.users ==> id in db.users && after.users[id] == db.users[id])
  {
    assert (set hash | hash in db.tokens && db.tokens[hash].expiresAt <= now) == Expired(db.tokens, now);
  }

  /** An expiry takes exactly the expired sessions and counts them. */
  lemma ExpiryTakes(db: Db, now: Time, privileged: Roles)
    ensures var outcome := Perform(db, ExpireSessions(now), privileged);
            && outcome.answer == Counted(|set hash | hash in db.sessions && db.sessions[hash].expiresAt <= now|)
            && outcome.db.users == db.users && outcome.db.tokens == db.tokens
            && (forall hash :: hash in outcome.db.sessions <==>
                  hash in db.sessions && now < db.sessions[hash].expiresAt)
            && (forall hash :: hash in outcome.db.sessions ==> outcome.db.sessions[hash] == db.sessions[hash])
  {
    var live := map hash | hash in db.sessions && db.sessions[hash].expiresAt > now :: db.sessions[hash];
    assert db.sessions.Keys - live.Keys == set hash | hash in db.sessions && db.sessions[hash].expiresAt <= now;
  }

  /** A grant leaves no account without a role and counts the accounts it changed. */
  lemma GrantCounts(db: Db, role: Role, privileged: Roles)
    ensures var outcome := Perform(db, Grant(role), privileged);
            if role == "" then outcome == Outcome(EmptyRole, db)
            else
              && outcome.db.users.Keys == db.users.Keys
              && outcome.answer == Counted(|set id | id in db.users && outcome.db.users[id] != db.users[id]|)
              && (forall id :: id in db.users ==> outcome.db.users[id].role != "")
              && outcome.db.sessions == db.sessions && outcome.db.tokens == db.tokens
  {
    var outcome := Perform(db, Grant(role), privileged);
    if role != "" {
      assert (set id | id in db.users && outcome.db.users[id] != db.users[id]) == Roleless(db.users);
    }
  }

  // Guarded writes

  /** A guarded role write answers, in this order, for a missing account, for another role than the held one, and for
      the sole privileged account under a role that is not; a refused one changes nothing. */
  lemma RoleAnswers(db: Db, id: Id, held: Option<Role>, role: Role, privileged: Roles)
    ensures var outcome := Perform(db, WriteRole(id, held, role), privileged);
            && outcome.answer ==
               (if id !in db.users then UserNotFound
                else if held.Some? && held.value != db.users[id].role then RoleChanged
                else if Sole(db, id, privileged) && (role == "" || role !in privileged) then LastPrivileged
                else Done)
            && (outcome.answer != Done ==> outcome.db == db)
            && outcome.db.sessions == db.sessions && outcome.db.tokens == db.tokens
            && outcome.db.users.Keys == db.users.Keys
            && (forall other :: other in db.users && other != id ==> outcome.db.users[other] == db.users[other])
  {
    SoleIff(db, id, privileged);
  }

  /** A guarded disable answers alike, and then does what an unguarded one does. */
  lemma DisableAnswers(db: Db, id: Id, held: Option<Role>, disabled: bool, privileged: Roles)
    ensures var outcome := Perform(db, WriteDisabled(id, held, disabled), privileged);
            && outcome.answer ==
               (if id !in db.users then UserNotFound
                else if held.Some? && held.value != db.users[id].role then RoleChanged
                else if Sole(db, id, privileged) && disabled then LastPrivileged
                else Done)
            && (outcome.answer != Done ==> outcome.db == db)
            && (outcome.answer == Done ==> outcome == Perform(db, Unguarded(id, disabled), privileged))
  {
    SoleIff(db, id, privileged);
  }

  /** A disable ends exactly the account's sessions and takes exactly its tokens, an enable none. */
  lemma DisableTakes(db: Db, id: Id, disabled: bool, privileged: Roles)
    ensures var outcome := Perform(db, Unguarded(id, disabled), privileged);
            var after := outcome.db;
            && outcome.answer == (if id in db.users then Done else UserNotFound)
            && (forall hash :: hash in after.sessions <==>
                  hash in db.sessions && !(disabled && id in db.users && db.sessions[hash].user == id))
            && (forall hash :: hash in after.sessions ==> after.sessions[hash] == db.sessions[hash])
            && (forall hash :: hash in after.tokens <==>
                  hash in db.tokens && !(disabled && id in db.users && db.tokens[hash].user == id))
            && (forall hash :: hash in after.tokens ==> after.tokens[hash] == db.tokens[hash])
            && after.users.Keys == db.users.Keys
            && (forall other :: other in db.users && other != id ==> after.users[other] == db.users[other])
  {
  }

  // Emails

  /** No two accounts share an email. */
  predicate EmailsUnique(users: map<Id, User>) {
    forall a, b :: a in users && b in users && users[a].email == users[b].email ==> a == b
  }

  lemma CallKeepsEmails(db: Db, call: Call, privileged: Roles)
    requires EmailsUnique(db.users) && Fits(db, call)
    ensures EmailsUnique(Perform(db, call, privileged).db.users)
  {
    var after := Perform(db, call, privileged).db.users;
    forall a, b | a in after && b in after && after[a].email == after[b].email ensures a == b {
      if a in db.users && b in db.users {
        NamesStay(db, call, privileged, a);
        NamesStay(db, call, privileged, b);
      } else {
        if a !in db.users {
          ArrivesAsCreated(db, call, privileged, a);
        } else {
          ArrivesAsCreated(db, call, privileged, b);
        }
      }
    }
  }

  /** No run of calls leaves two accounts under one email. */
  lemma {:induction false} EmailsStayUnique(db: Db, calls: seq<Call>, privileged: Roles)
    requires EmailsUnique(db.users) && Runs(db, calls, privileged)
    ensures EmailsUnique(After(db, calls, privileged).users)
    decreases calls
  {
    if calls != [] {
      CallKeepsEmails(db, calls[0], privileged);
      EmailsStayUnique(Perform(db, calls[0], privileged).db, calls[1..], privileged);
    }
  }
}
