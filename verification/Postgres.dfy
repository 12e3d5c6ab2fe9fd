/** The PostgreSQL store's transactions as READ COMMITTED runs them, statement by statement and in any interleaving.

    A statement sees what was committed before it and what its own transaction wrote. A write stays in its transaction
    until the commit and keeps the rows it touched locked. A statement that finds a row locked by another transaction
    waits, and judges its WHERE clause again on the row it then finds (section 13.2.1 of the PostgreSQL manual). */
module Postgres {
  import opened Basics
  import opened Accounts

  datatype Tables = Tables(users: map<Id, User>, tokens: map<Hash, Token>)

  /** What a guarded transaction writes. */
  datatype Write = ToRole(role: Role) | ToDisabled(disabled: bool)

  /** The transactions of the store, the sweep's and the redemptions' times as their callers gave them. */
  datatype Op =
    | Issue(hash: Hash, token: Token, live: int)
    | Replace(hash: Hash, token: Token)
    | Activate(hash: Hash, now: Time, password: string)
    | ResetBy(hash: Hash, now: Time, password: string)
    | Disable(id: Id, disabled: bool)
    | Guarded(id: Id, held: Option<Role>, write: Write, privileged: Roles)
    | Sweep(now: Time)

  /** The statement a transaction runs next. */
  datatype Pc =
    | Start                        // holdEnabled, holdReplaceable, FindLiveToken or ExpiredTokens
    | Hold                         // LockEnabledUser on the account a redeemed token names
    | Spend                        // DeleteToken
    | Check                        // stillHolds
    | ScanStart(among: set<Id>)    // holdPrivileged or LockUnconfirmedAccounts, about to find its rows
    | Scan(rows: set<Id>)          // the same, with rows left to lock
    | Privilege                    // holdsPrivilege
    | Cover                        // countCover
    | Recheck                      // recheckedGuard
    | Apply                        // the UPDATE on the account
    | Missed                       // missedOrMoved
    | Count                        // CountLiveTokens
    | Drop                         // DeleteUnconfirmedAccounts
    | Clear                        // a DELETE of token rows, about to find them
    | Clearing(hashes: set<Hash>)  // the same, with rows left to delete
    | Insert                       // insertToken
    | Commit
    | Ended(answer: Answer)

  /** A transaction, with the user rows it holds and its own uncommitted writes. `deleted` also locks its token rows. */
  datatype Transaction = Transaction(
    op: Op, pc: Pc, who: Id, held: set<Id>,
    updated: map<Id, User>, dropped: set<Id>, deleted: set<Hash>, inserted: map<Hash, Token>)

  datatype World = World(
    db: Tables, txs: map<nat, Transaction>, clock: Time, minted: set<Hash>, log: seq<Op>)

  datatype Event =
    | Begin(tx: nat, op: Op)
    | Do(tx: nat)
    | TakeUser(tx: nat, row: Id)
    | TakeToken(tx: nat, hash: Hash)
    | Abort(tx: nat)
    | AddUser(id: Id, user: User)
    | Tick(now: Time)

  // One statement

  function Target(op: Op): Id {
    match op
    case Issue(_, token, _) => token.user
    case Replace(_, token) => token.user
    case Disable(id, _) => id
    case Guarded(id, _, _, _) => id
    case _ => 0
  }

  /** Whether a guarded write takes cover away, as its caller judges it before the transaction begins. */
  predicate Removes(op: Op)
    requires op.Guarded?
  {
    match op.write
    case ToRole(role) => !Holds(op.privileged, role)
    case ToDisabled(disabled) => disabled
  }

  function PastCheck(op: Op): Pc
    requires op.Guarded?
  {
    if |op.privileged| == 0 || !Removes(op) then Apply else ScanStart({})
  }

  function First(op: Op): Pc {
    match op
    case Disable(_, _) => Apply
    case Guarded(_, held, _, _) => if held.Some? then Check else PastCheck(op)
    case _ => Start
  }

  function Opened(op: Op): Transaction {
    Transaction(op, First(op), Target(op), {}, map[], {}, {}, map[])
  }

  function Finish(tx: Transaction, answer: Answer): Transaction {
    Transaction(tx.op, Ended(answer), tx.who, {}, map[], {}, {}, map[])
  }

  /** Whether the operation closes its account, so that it revokes the account's tokens. */
  predicate Closes(op: Op) {
    (op.Disable? && op.disabled) || (op.Guarded? && op.write == ToDisabled(true))
  }

  /** The WHERE clause of the operation's UPDATE. */
  predicate Matches(users: map<Id, User>, op: Op, who: Id) {
    who in users &&
    match op
    case Guarded(_, held, _, _) => held.Some? ==> users[who].role == held.value
    case Activate(_, _, _) => !users[who].disabled && !users[who].confirmed
    case ResetBy(_, _, _) => !users[who].disabled
    case _ => true
  }

  /** The SET clause of the operation's UPDATE. */
  function Changed(user: User, op: Op): User {
    match op
    case Disable(_, disabled) => user.(disabled := disabled)
    case Guarded(_, _, ToRole(role), _) => user.(role := role)
    case Guarded(_, _, ToDisabled(disabled), _) => user.(disabled := disabled)
    case Activate(_, _, password) => user.(passwordHash := password, confirmed := true)
    case ResetBy(_, _, password) => user.(passwordHash := password)
    case _ => user
  }

  /** The WHERE clause of a scan that locks accounts. */
  predicate Scanned(users: map<Id, User>, op: Op, id: Id) {
    id in users && if op.Guarded? then users[id].role in op.privileged else !users[id].confirmed
  }

  /** The WHERE clause of the operation's DELETE of token rows. */
  predicate Doomed(op: Op, who: Id, token: Token) {
    match op
    case Replace(_, t) => token.user == who && token.purpose == t.purpose
    case ResetBy(_, _, _) => token.user == who && token.purpose == Reset
    case Sweep(now) => token.expiresAt <= now
    case _ => Closes(op) && token.user == who
  }

  /** The account row a transaction's next single-row statement locks, none when its WHERE clause misses. */
  function LocksUser(db: Tables, tx: Transaction): Option<Id> {
    match tx.pc
    case Start =>
      if tx.op.Issue? && Enabled(db.users, tx.who) then Some(tx.who)
      else if tx.op.Replace? && Replaceable(db.users, tx.op.token) then Some(tx.who)
      else None
    case Hold => if Enabled(db.users, tx.who) then Some(tx.who) else None
    case Apply => if Matches(db.users, tx.op, tx.who) then Some(tx.who) else None
    case _ => None
  }

  predicate SpendsToken(db: Tables, tx: Transaction) {
    tx.pc.Spend? && (tx.op.Activate? || tx.op.ResetBy?) && tx.op.hash in db.tokens
  }

  /** What a transaction is after running its next statement, which found these rows committed. */
  function Ran(db: Tables, clock: Time, tx: Transaction): Transaction {
    match tx.pc
    case Start => RanFirst(db, tx)
    case Hold =>
      if Enabled(db.users, tx.who) then tx.(held := tx.held + {tx.who}, pc := Spend) else Finish(tx, UserNotFound)
    case Spend =>
      if SpendsToken(db, tx) then tx.(deleted := tx.deleted + {tx.op.hash}, pc := Apply)
      else Finish(tx, TokenNotFound)
    case Apply => RanUpdate(db, tx)
    case Count =>
      if tx.op.Issue? && |Standing(db.tokens, tx.who, tx.op.token.purpose, clock)| >= tx.op.live
      then Finish(tx, TokenExists)
      else tx.(pc := Insert)
    case Insert =>
      if (tx.op.Issue? || tx.op.Replace?) && tx.op.hash !in db.tokens
      then tx.(inserted := map[tx.op.hash := tx.op.token], pc := Commit)
      else Finish(tx, Failed)
    case Clear =>
      var rows := set hash | hash in db.tokens && hash !in tx.deleted && db.tokens[hash].user !in tx.dropped &&
                             Doomed(tx.op, tx.who, db.tokens[hash]);
      tx.(pc := Clearing(rows))
    case Clearing(_) => tx.(pc := if tx.op.Replace? then Insert else Commit)
    case Drop => RanDrop(db, tx)
    case ScanStart(among) =>
      var rows := set id | id in db.users && Scanned(db.users, tx.op, id) && (tx.op.Sweep? ==> id in among);
      tx.(pc := Scan(rows))
    case Scan(_) =>
      tx.(pc := if tx.op.Guarded? then Privilege else if tx.held == {} then Clear else Drop)
    case Commit => tx
    case Ended(_) => tx
    case _ => RanGuard(db, tx)
  }

  function RanFirst(db: Tables, tx: Transaction): Transaction {
    match tx.op
    case Issue(_, _, _) =>
      if Enabled(db.users, tx.who) then tx.(held := tx.held + {tx.who}, pc := Count) else Finish(tx, UserNotFound)
    case Replace(_, token) =>
      if Replaceable(db.users, token) then tx.(held := tx.held + {tx.who}, pc := Clear) else Finish(tx, UserNotFound)
    case Activate(hash, now, _) =>
      if Redeemable(db.tokens, hash, Invite, now) then tx.(who := db.tokens[hash].user, pc := Hold)
      else Finish(tx, TokenNotFound)
    case ResetBy(hash, now, _) =>
      if Redeemable(db.tokens, hash, Reset, now) then tx.(who := db.tokens[hash].user, pc := Hold)
      else Finish(tx, TokenNotFound)
    case Sweep(now) =>
      var stranded := set hash | hash in Expired(db.tokens, now) && db.tokens[hash].purpose == Invite
                    :: db.tokens[hash].user;
      tx.(pc := if stranded == {} then Clear else ScanStart(stranded))
    case _ => Finish(tx, Failed)
  }

  function RanUpdate(db: Tables, tx: Transaction): Transaction {
    if Matches(db.users, tx.op, tx.who) then
      tx.(held := tx.held + {tx.who}, updated := map[tx.who := Changed(db.users[tx.who], tx.op)],
          pc := if Closes(tx.op) || tx.op.ResetBy? then Clear else Commit)
    else if tx.op.Guarded? && tx.op.held.Some? then tx.(pc := Missed)
    else Finish(tx, UserNotFound)
  }

  function RanDrop(db: Tables, tx: Transaction): Transaction {
    var now := if tx.op.Sweep? then tx.op.now else 0;
    var rows := set id | id in tx.held && id in db.users && !db.users[id].confirmed &&
                         Standing(db.tokens, id, Invite, now) == {};
    tx.(dropped := rows, pc := Clear)
  }

  /** The reads of a guarded transaction: the held role, the privilege, the cover and the check made again. */
  function RanGuard(db: Tables, tx: Transaction): Transaction {
    if !tx.op.Guarded? then Finish(tx, Failed)
    else
      var user := if tx.who in db.users then Some(db.users[tx.who]) else None;
      match tx.pc
      case Check =>
        if user == None then Finish(tx, UserNotFound)
        else if tx.op.held.Some? && user.value.role != tx.op.held.value then Finish(tx, RoleChanged)
        else tx.(pc := PastCheck(tx.op))
      case Privilege =>
        if user != None && !user.value.disabled && user.value.role in tx.op.privileged then tx.(pc := Cover)
        else tx.(pc := Apply)
      case Cover =>
        if exists id ::
             id in db.users && id != tx.who && !db.users[id].disabled && db.users[id].role in tx.op.privileged
        then tx.(pc := Apply)
        else tx.(pc := Recheck)
      case Recheck =>
        if tx.op.held == None then Finish(tx, LastPrivileged)
        else if user == None then Finish(tx, UserNotFound)
        else if user.value.role != tx.op.held.value then Finish(tx, RoleChanged)
        else Finish(tx, LastPrivileged)
      case _ => Finish(tx, if user == None then UserNotFound else RoleChanged)
  }

  /** The tables once a transaction commits, a dropped account taking its tokens along. */
  function Committed(db: Tables, tx: Transaction): Tables {
    Tables(
      (db.users + tx.updated) - tx.dropped,
      map hash | hash in (db.tokens.Keys - tx.deleted) + tx.inserted.Keys &&
                 (if hash in tx.inserted then tx.inserted[hash] else db.tokens[hash]).user !in tx.dropped
      :: if hash in tx.inserted then tx.inserted[hash] else db.tokens[hash])
  }

  // Interleavings

  predicate UserFree(w: World, t: nat, id: Id) {
    forall other :: other in w.txs && other != t ==> id !in w.txs[other].held
  }

  predicate TokenFree(w: World, t: nat, hash: Hash) {
    forall other :: other in w.txs && other != t ==> hash !in w.txs[other].deleted
  }

  predicate Running(w: World, t: nat) {
    t in w.txs && !w.txs[t].pc.Ended?
  }

  /** Whether an event may happen now. A statement that needs a locked row may not, until the row is free. */
  predicate May(w: World, e: Event) {
    match e
    case Begin(t, op) => t !in w.txs && ((op.Issue? || op.Replace?) ==> op.hash !in w.minted)
    case Do(t) =>
      && Running(w, t)
      && (w.txs[t].pc.Scan? ==> w.txs[t].pc.rows == {})
      && (w.txs[t].pc.Clearing? ==> w.txs[t].pc.hashes == {})
      && (LocksUser(w.db, w.txs[t]).Some? ==> UserFree(w, t, LocksUser(w.db, w.txs[t]).value))
      && (SpendsToken(w.db, w.txs[t]) ==> TokenFree(w, t, w.txs[t].op.hash))
    case TakeUser(t, row) =>
      && Running(w, t) && w.txs[t].pc.Scan? && row in w.txs[t].pc.rows
      && (Scanned(w.db.users, w.txs[t].op, row) ==> UserFree(w, t, row))
    case TakeToken(t, hash) =>
      && Running(w, t) && w.txs[t].pc.Clearing? && hash in w.txs[t].pc.hashes
      && (hash in w.db.tokens ==> TokenFree(w, t, hash))
    case Abort(t) => Running(w, t)
    case AddUser(id, user) =>
      id !in w.db.users && forall other :: other in w.db.users ==> w.db.users[other].email != user.email
    case Tick(now) => w.clock <= now
  }

  /** A row left to lock, judged again on what is committed when its turn comes. */
  function TookUser(db: Tables, tx: Transaction, row: Id): Transaction
    requires tx.pc.Scan?
  {
    var rest := tx.(pc := Scan(tx.pc.rows - {row}));
    if Scanned(db.users, tx.op, row) then rest.(held := tx.held + {row}) else rest
  }

  function TookToken(db: Tables, tx: Transaction, hash: Hash): Transaction
    requires tx.pc.Clearing?
  {
    var rest := tx.(pc := Clearing(tx.pc.hashes - {hash}));
    if hash in db.tokens then rest.(deleted := tx.deleted + {hash}) else rest
  }

  function Next(w: World, e: Event): World
    requires May(w, e)
  {
    match e
    case Begin(t, op) =>
      w.(txs := w.txs[t := Opened(op)], minted := w.minted + if op.Issue? || op.Replace? then {op.hash} else {})
    case Do(t) =>
      if w.txs[t].pc.Commit? then
        w.(db := Committed(w.db, w.txs[t]), txs := w.txs[t := Finish(w.txs[t], Done)], log := w.log + [w.txs[t].op])
      else
        w.(txs := w.txs[t := Ran(w.db, w.clock, w.txs[t])])
    case TakeUser(t, row) => w.(txs := w.txs[t := TookUser(w.db, w.txs[t], row)])
    case TakeToken(t, hash) => w.(txs := w.txs[t := TookToken(w.db, w.txs[t], hash)])
    case Abort(t) => w.(txs := w.txs[t := Finish(w.txs[t], Failed)])
    case AddUser(id, user) => w.(db := w.db.(users := w.db.users[id := user]))
    case Tick(now) => w.(clock := now)
  }

  /** Whether each event of a run may happen in turn. */
  predicate Possible(w: World, run: seq<Event>)
    decreases run
  {
    run == [] || (May(w, run[0]) && Possible(Next(w, run[0]), run[1..]))
  }

  function After(w: World, run: seq<Event>): World
    requires Possible(w, run)
    decreases run
  {
    if run == [] then w else After(Next(w, run[0]), run[1..])
  }

  /** Committed tables at rest, with no transaction open and every stored hash known as taken. */
  function AtRest(db: Tables, clock: Time): World {
    World(db, map[], clock, db.tokens.Keys, [])
  }
}
