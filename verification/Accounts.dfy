/** The accounts, sessions and tokens a store keeps, and the contract every store answers by: each operation as one
    change from the rows it found to the rows it leaves. */
module Accounts {
  import opened Basics

  type Id = nat
  type Hash = nat
  type Role = string
  type Roles = seq<Role>
  type Time = int

  datatype Purpose = Invite | Reset | Confirm

  datatype User = User(
    email: string, name: string, passwordHash: string, disabled: bool, confirmed: bool, role: Role)

  datatype Session = Session(user: Id, expiresAt: Time)

  datatype Token = Token(user: Id, purpose: Purpose, expiresAt: Time)

  datatype Db = Db(users: map<Id, User>, sessions: map<Hash, Session>, tokens: map<Hash, Token>)

  datatype Answer =
    | Done
    | Account(id: Id)
    | Found(user: User)
    | Counted(count: nat)
    | UserNotFound
    | EmailTaken
    | EmptyRole
    | LastPrivileged
    | RoleChanged
    | SessionNotFound
    | SetupDone
    | TokenExists
    | TokenNotFound
    | Failed

  datatype Outcome = Outcome(answer: Answer, db: Db)

  const EMPTY_DB := Db(map[], map[], map[])

  // Roles and privilege

  /** Whether a role is one of the set, an account holding no role never being one. */
  predicate Holds(roles: Roles, role: Role) {
    role != "" && role in roles
  }

  predicate PrivilegedAccount(user: User, privileged: Roles) {
    !user.disabled && Holds(privileged, user.role)
  }

  /** Whether some enabled account apart from one holds a privileged role. */
  ghost predicate CoveredWithout(users: map<Id, User>, id: Id, privileged: Roles) {
    exists other :: other in users && other != id && PrivilegedAccount(users[other], privileged)
  }

  /** Whether some enabled account holds a privileged role. */
  ghost predicate Covered(users: map<Id, User>, privileged: Roles) {
    exists id :: id in users && PrivilegedAccount(users[id], privileged)
  }

  /** Every session and token belongs to a stored account, and no two accounts share an email. */
  ghost predicate Consistent(db: Db) {
    && (forall hash :: hash in db.sessions ==> db.sessions[hash].user in db.users)
    && (forall hash :: hash in db.tokens ==> db.tokens[hash].user in db.users)
    && (forall a, b :: a in db.users && b in db.users && db.users[a].email == db.users[b].email ==> a == b)
  }

  // Tokens

  predicate LiveFor(token: Token, user: Id, purpose: Purpose, now: Time) {
    token.user == user && token.purpose == purpose && token.expiresAt > now
  }

  /** The tokens of one account and purpose that are unexpired at a moment. */
  function Standing(tokens: map<Hash, Token>, user: Id, purpose: Purpose, now: Time): set<Hash> {
    set hash | hash in tokens && LiveFor(tokens[hash], user, purpose, now)
  }

  function Expired(tokens: map<Hash, Token>, now: Time): set<Hash> {
    set hash | hash in tokens && tokens[hash].expiresAt <= now
  }

  /** The unconfirmed accounts an expired invite leaves behind with no live one. */
  function Stranded(db: Db, now: Time): set<Id> {
    set id | id in db.users && !db.users[id].confirmed && Standing(db.tokens, id, Invite, now) == {} &&
             (exists hash :: hash in Expired(db.tokens, now) && db.tokens[hash].purpose == Invite &&
                             db.tokens[hash].user == id)
  }

  function WithoutSessionsOf(sessions: map<Hash, Session>, ids: set<Id>): map<Hash, Session> {
    map hash | hash in sessions && sessions[hash].user !in ids :: sessions[hash]
  }

  function WithoutTokensOf(tokens: map<Hash, Token>, ids: set<Id>): map<Hash, Token> {
    map hash | hash in tokens && tokens[hash].user !in ids :: tokens[hash]
  }

  function WithoutPurpose(tokens: map<Hash, Token>, user: Id, purpose: Purpose): map<Hash, Token> {
    map hash | hash in tokens && !(tokens[hash].user == user && tokens[hash].purpose == purpose) :: tokens[hash]
  }

  // The contract of each operation

  ghost function CreateUser(db: Db, id: Id, user: User): Outcome {
    if exists other :: other in db.users && db.users[other].email == user.email then
      Outcome(EmailTaken, db)
    else
      Outcome(Done, db.(users := db.users[id := user]))
  }

  function CreateFirstUser(db: Db, id: Id, user: User): Outcome {
    if db.users != map[] then Outcome(SetupDone, db) else Outcome(Done, db.(users := map[id := user]))
  }

  function CreateSession(db: Db, hash: Hash, session: Session): Outcome {
    Outcome(Done, db.(sessions := db.sessions[hash := session]))
  }

  function DeleteSession(db: Db, hash: Hash): Outcome {
    Outcome(Done, db.(sessions := db.sessions - {hash}))
  }

  function DeleteExpiredSessions(db: Db, now: Time): Outcome {
    var live := map hash | hash in db.sessions && db.sessions[hash].expiresAt > now :: db.sessions[hash];
    Outcome(Counted(|db.sessions.Keys - live.Keys|), db.(sessions := live))
  }

  function UserBySession(db: Db, hash: Hash, now: Time): Answer {
    if hash !in db.sessions || db.sessions[hash].expiresAt <= now then SessionNotFound
    else
      var id := db.sessions[hash].user;
      if id !in db.users || db.users[id].disabled then SessionNotFound else Found(db.users[id])
  }

  function SetDisabled(db: Db, id: Id, disabled: bool): Outcome {
    if id !in db.users then Outcome(UserNotFound, db)
    else
      var users := db.users[id := db.users[id].(disabled := disabled)];
      if disabled then
        Outcome(Done, Db(users, WithoutSessionsOf(db.sessions, {id}), WithoutTokensOf(db.tokens, {id})))
      else
        Outcome(Done, db.(users := users))
  }

  /** Whether a write that takes cover away may not land: the account covers and no other one does. */
  ghost predicate Uncovers(db: Db, id: Id, privileged: Roles) {
    id in db.users && PrivilegedAccount(db.users[id], privileged) && !CoveredWithout(db.users, id, privileged)
  }

  /** A disable or enable, checked against a held role when one is given, and then refused by its guard or not. */
  function CheckedDisable(db: Db, id: Id, held: Option<Role>, disabled: bool, refused: bool): Outcome {
    if id in db.users && held.Some? && db.users[id].role != held.value then Outcome(RoleChanged, db)
    else if refused then Outcome(LastPrivileged, db)
    else SetDisabled(db, id, disabled)
  }

  /** A role write, checked against a held role when one is given, and then refused by its guard or not. */
  function CheckedRole(db: Db, id: Id, held: Option<Role>, role: Role, refused: bool): Outcome {
    if id !in db.users then Outcome(UserNotFound, db)
    else if held.Some? && db.users[id].role != held.value then Outcome(RoleChanged, db)
    else if refused then Outcome(LastPrivileged, db)
    else Outcome(Done, db.(users := db.users[id := db.users[id].(role := role)]))
  }

  /** A disable or enable under the guard of a privileged set. */
  ghost function GuardedDisable(db: Db, id: Id, held: Option<Role>, disabled: bool, privileged: Roles): Outcome {
    CheckedDisable(db, id, held, disabled, disabled && Uncovers(db, id, privileged))
  }

  /** A role write under the guard of a privileged set. */
  ghost function GuardedRole(db: Db, id: Id, held: Option<Role>, role: Role, privileged: Roles): Outcome {
    CheckedRole(db, id, held, role, !Holds(privileged, role) && Uncovers(db, id, privileged))
  }

  function Roleless(users: map<Id, User>): set<Id> {
    set id | id in users && users[id].role == ""
  }

  function GrantRole(db: Db, role: Role): Outcome {
    if role == "" then Outcome(EmptyRole, db)
    else
      var users := map id | id in db.users ::
        if db.users[id].role == "" then db.users[id].(role := role) else db.users[id];
      Outcome(Counted(|Roleless(db.users)|), db.(users := users))
  }

  predicate Enabled(users: map<Id, User>, id: Id) {
    id in users && !users[id].disabled
  }

  predicate Replaceable(users: map<Id, User>, token: Token) {
    Enabled(users, token.user) && !(token.purpose == Invite && users[token.user].confirmed)
  }

  function CreateToken(db: Db, hash: Hash, token: Token, live: int, now: Time): Outcome {
    if !Enabled(db.users, token.user) then Outcome(UserNotFound, db)
    else if |Standing(db.tokens, token.user, token.purpose, now)| >= live then Outcome(TokenExists, db)
    else Outcome(Done, db.(tokens := db.tokens[hash := token]))
  }

  function ReplaceToken(db: Db, hash: Hash, token: Token): Outcome {
    if !Replaceable(db.users, token) then Outcome(UserNotFound, db)
    else Outcome(Done, db.(tokens := WithoutPurpose(db.tokens, token.user, token.purpose)[hash := token]))
  }

  predicate Redeemable(tokens: map<Hash, Token>, hash: Hash, purpose: Purpose, now: Time) {
    hash in tokens && tokens[hash].purpose == purpose && tokens[hash].expiresAt > now
  }

  function ActivateByToken(db: Db, hash: Hash, now: Time, password: string): Outcome {
    if !Redeemable(db.tokens, hash, Invite, now) then Outcome(TokenNotFound, db)
    else
      var id := db.tokens[hash].user;
      if !Enabled(db.users, id) || db.users[id].confirmed then Outcome(UserNotFound, db)
      else
        var user := db.users[id].(passwordHash := password, confirmed := true);
        Outcome(Account(id), db.(users := db.users[id := user], tokens := db.tokens - {hash}))
  }

  function ResetByToken(db: Db, hash: Hash, now: Time, password: string): Outcome {
    if !Redeemable(db.tokens, hash, Reset, now) then Outcome(TokenNotFound, db)
    else
      var id := db.tokens[hash].user;
      if !Enabled(db.users, id) then Outcome(UserNotFound, db)
      else
        Outcome(Account(id), Db(
                  db.users[id := db.users[id].(passwordHash := password)],
                  WithoutSessionsOf(db.sessions, {id}),
                  WithoutPurpose(db.tokens, id, Reset)))
  }

  /** The sweep: every expired token goes, and with them each unconfirmed account they strand. */
  function DeleteExpiredTokens(db: Db, now: Time): Outcome {
    var stranded := Stranded(db, now);
    var kept := map hash | hash in db.tokens && db.tokens[hash].expiresAt > now :: db.tokens[hash];
    Outcome(Counted(|Expired(db.tokens, now)|),
            Db(db.users - stranded, WithoutSessionsOf(db.sessions, stranded), WithoutTokensOf(kept, stranded)))
  }
}
