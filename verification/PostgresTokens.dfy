/** What every interleaving of the PostgreSQL store's transactions keeps about tokens: a disabled account holds none, a
    secret is redeemed once, the caps hold, and the sweep spares renewed and activated accounts. */
module PostgresTokens {
  import opened Basics
  import opened Accounts
  import opened Postgres

  // What one transaction may rely on

  predicate Redeems(op: Op) {
    op.Activate? || op.ResetBy?
  }

  predicate Issues(op: Op) {
    op.Issue? || op.Replace?
  }

  /** Every committed token row the operation's DELETE names is deleted by now, or is one of `left`. */
  ghost predicate ClearedBut(db: Tables, tx: Transaction, left: set<Hash>) {
    forall hash :: hash in db.tokens && Doomed(tx.op, tx.who, db.tokens[hash]) ==> hash in left || hash in tx.deleted
  }

  /** The account is held and enabled, so no other transaction can disable it. */
  predicate HoldsEnabled(db: Tables, tx: Transaction) {
    tx.who in tx.held && Enabled(db.users, tx.who)
  }

  predicate HoldsReplaceable(db: Tables, tx: Transaction)
    requires tx.op.Replace?
  {
    tx.who in tx.held && Replaceable(db.users, tx.op.token)
  }

  function Redeeming(op: Op): Purpose {
    if op.Activate? then Invite else Reset
  }

  /** The redeemed token is still stored, live, for the account it named, and this transaction deletes it. */
  predicate Spent(db: Tables, tx: Transaction)
    requires Redeems(tx.op)
  {
    && tx.who in tx.held && tx.op.hash in tx.deleted
    && Redeemable(db.tokens, tx.op.hash, Redeeming(tx.op), tx.op.now) && db.tokens[tx.op.hash].user == tx.who
  }

  /** The token a redemption read is the one it may still find. */
  predicate FoundAsRead(db: Tables, tx: Transaction)
    requires Redeems(tx.op)
  {
    tx.op.hash in db.tokens ==>
      Redeemable(db.tokens, tx.op.hash, Redeeming(tx.op), tx.op.now) && db.tokens[tx.op.hash].user == tx.who
  }

  /** Every stored token the transaction deletes, or is about to, is one its operation names. */
  predicate DeletesOnly(db: Tables, tx: Transaction) {
    forall hash :: (hash in tx.deleted || (tx.pc.Clearing? && hash in tx.pc.hashes)) && hash in db.tokens ==>
      Doomed(tx.op, tx.who, db.tokens[hash]) || (Redeems(tx.op) && hash == tx.op.hash)
  }

  /** The account's committed row still passes the UPDATE's WHERE clause, and the write on it is the one pending. */
  predicate Wrote(db: Tables, tx: Transaction) {
    && tx.who in tx.held && Matches(db.users, tx.op, tx.who)
    && tx.updated == map[tx.who := Changed(db.users[tx.who], tx.op)]
  }

  predicate IssueOk(db: Tables, clock: Time, tx: Transaction)
    requires tx.op.Issue?
  {
    && tx.updated == map[] && tx.deleted == {}
    && match tx.pc
       case Start => tx.inserted == map[]
       case Count => tx.inserted == map[] && HoldsEnabled(db, tx)
       case Insert =>
         && tx.inserted == map[] && HoldsEnabled(db, tx)
         && |Standing(db.tokens, tx.who, tx.op.token.purpose, clock)| < tx.op.live
       case Commit =>
         && tx.inserted == map[tx.op.hash := tx.op.token] && HoldsEnabled(db, tx)
         && |Standing(db.tokens, tx.who, tx.op.token.purpose, clock)| < tx.op.live
       case _ => false
  }

  ghost predicate ReplaceOk(db: Tables, tx: Transaction)
    requires tx.op.Replace?
  {
    && tx.updated == map[]
    && match tx.pc
       case Start => tx.inserted == map[]
       case Clear => tx.inserted == map[] && HoldsReplaceable(db, tx)
       case Clearing(left) => tx.inserted == map[] && HoldsReplaceable(db, tx) && ClearedBut(db, tx, left)
       case Insert => tx.inserted == map[] && HoldsReplaceable(db, tx) && ClearedBut(db, tx, {})
       case Commit =>
         tx.inserted == map[tx.op.hash := tx.op.token] && HoldsReplaceable(db, tx) && ClearedBut(db, tx, {})
       case _ => false
  }

  ghost predicate RedeemOk(db: Tables, tx: Transaction)
    requires Redeems(tx.op)
  {
    && tx.inserted == map[]
    && match tx.pc
       case Start => tx.updated == map[] && tx.deleted == {}
       case Hold => tx.updated == map[] && tx.deleted == {} && FoundAsRead(db, tx)
       case Spend => tx.updated == map[] && HoldsEnabled(db, tx) && FoundAsRead(db, tx)
       case Apply => tx.updated == map[] && Spent(db, tx) && HoldsEnabled(db, tx)
       case Clear => tx.op.ResetBy? && Wrote(db, tx) && Spent(db, tx)
       case Clearing(left) => tx.op.ResetBy? && Wrote(db, tx) && Spent(db, tx) && ClearedBut(db, tx, left)
       case Commit => Wrote(db, tx) && Spent(db, tx) && (tx.op.ResetBy? ==> ClearedBut(db, tx, {}))
       case _ => false
  }

  /** Whether a transaction is at the guard, between its scan and the refusal. */
  predicate AtGuard(pc: Pc) {
    pc.ScanStart? || pc.Scan? || pc.Privilege? || pc.Cover? || pc.Recheck?
  }

  /** Only a write that takes cover away runs the guard, and only one with a held role can miss it. */
  ghost predicate WriteOk(db: Tables, tx: Transaction)
    requires tx.op.Disable? || tx.op.Guarded?
  {
    && tx.inserted == map[]
    && (tx.op.Disable? ==> tx.pc.Apply? || tx.pc.Clear? || tx.pc.Clearing? || tx.pc.Commit?)
    && (tx.op.Guarded? && AtGuard(tx.pc) ==> Removes(tx.op))
    && (tx.op.Guarded? && tx.pc.Missed? ==> tx.op.held.Some?)
    && match tx.pc
       case Clear => Wrote(db, tx)
       case Clearing(left) => Wrote(db, tx) && ClearedBut(db, tx, left)
       case Commit => Wrote(db, tx) && (Closes(tx.op) ==> ClearedBut(db, tx, {}))
       case Start => false
       case Hold => false
       case Spend => false
       case Count => false
       case Drop => false
       case Insert => false
       case _ => tx.updated == map[]
  }

  /** A held account the sweep may drop: unconfirmed, with no invite live at the sweep's time. */
  predicate Sweepable(db: Tables, id: Id, now: Time) {
    id in db.users && !db.users[id].confirmed && Standing(db.tokens, id, Invite, now) == {}
  }

  ghost predicate SweepOk(db: Tables, tx: Transaction)
    requires tx.op.Sweep?
  {
    && tx.inserted == map[] && tx.updated == map[]
    && (tx.pc.Start? ==> tx.held == {})
    && (tx.pc.Start? || tx.pc.ScanStart? || tx.pc.Scan? || tx.pc.Drop? ==> tx.dropped == {})
    && (tx.pc.Start? || tx.pc.ScanStart? || tx.pc.Scan? || tx.pc.Drop? || tx.pc.Clear? || tx.pc.Clearing? ||
        tx.pc.Commit?)
    && (forall id :: id in tx.dropped ==> Sweepable(db, id, tx.op.now))
  }

  ghost predicate StepOk(db: Tables, clock: Time, tx: Transaction) {
    if tx.op.Issue? then IssueOk(db, clock, tx)
    else if tx.op.Replace? then ReplaceOk(db, tx)
    else if tx.op.Sweep? then SweepOk(db, tx)
    else if Redeems(tx.op) then RedeemOk(db, tx)
    else WriteOk(db, tx)
  }

  /** What holds of a transaction between its statements. It reads committed rows, its own record and nothing else. */
  ghost predicate TxOk(db: Tables, clock: Time, tx: Transaction) {
    && tx.held <= db.users.Keys
    && tx.updated.Keys <= tx.held
    && tx.dropped <= tx.held
    && (!tx.op.Sweep? ==> tx.dropped == {})
    && (Issues(tx.op) ==> tx.who == tx.op.token.user)
    && DeletesOnly(db, tx)
    && (tx.op.Disable? || tx.op.Guarded? ==> tx.who == tx.op.id)
    && if tx.pc.Ended? then tx == Finish(tx, tx.pc.answer) else StepOk(db, clock, tx)
  }

  lemma OpenedOk(db: Tables, clock: Time, op: Op)
    ensures TxOk(db, clock, Opened(op))
  {
  }

  predicate Ready(tx: Transaction) {
    !tx.pc.Commit? && !tx.pc.Ended? && (tx.pc.Clearing? ==> tx.pc.hashes == {})
  }

  lemma RanCreateOk(db: Tables, clock: Time, tx: Transaction)
    requires TxOk(db, clock, tx) && Ready(tx) && tx.op.Issue?
    ensures TxOk(db, clock, Ran(db, clock, tx))
  {
  }

  lemma HeldReplaceOk(db: Tables, clock: Time, tx: Transaction)
    requires TxOk(db, clock, tx) && tx.op.Replace? && (tx.pc.Start? || tx.pc.Insert?)
    ensures TxOk(db, clock, Ran(db, clock, tx))
  {
  }

  lemma ClearedReplaceOk(db: Tables, clock: Time, tx: Transaction)
    requires TxOk(db, clock, tx) && tx.op.Replace? && (tx.pc.Clear? || tx.pc == Clearing({}))
    ensures TxOk(db, clock, Ran(db, clock, tx))
  {
  }

  lemma RanIssueOk(db: Tables, clock: Time, tx: Transaction)
    requires TxOk(db, clock, tx) && Ready(tx) && Issues(tx.op)
    ensures TxOk(db, clock, Ran(db, clock, tx))
  {
    if tx.op.Issue? {
      RanCreateOk(db, clock, tx);
    } else if tx.pc.Start? || tx.pc.Insert? {
      HeldReplaceOk(db, clock, tx);
    } else {
      ClearedReplaceOk(db, clock, tx);
    }
  }

  lemma FoundRedeemOk(db: Tables, clock: Time, tx: Transaction)
    requires TxOk(db, clock, tx) && Redeems(tx.op) && tx.pc.Start?
    ensures TxOk(db, clock, Ran(db, clock, tx))
  {
  }

  lemma HeldRedeemOk(db: Tables, clock: Time, tx: Transaction)
    requires TxOk(db, clock, tx) && Redeems(tx.op) && (tx.pc.Hold? || tx.pc.Spend?)
    ensures TxOk(db, clock, Ran(db, clock, tx))
  {
  }

  lemma UpdatedRedeemOk(db: Tables, clock: Time, tx: Transaction)
    requires TxOk(db, clock, tx) && Redeems(tx.op) && tx.pc.Apply?
    ensures TxOk(db, clock, Ran(db, clock, tx))
  {
  }

  lemma ClearedRedeemOk(db: Tables, clock: Time, tx: Transaction)
    requires TxOk(db, clock, tx) && Redeems(tx.op) && (tx.pc.Clear? || tx.pc == Clearing({}))
    ensures TxOk(db, clock, Ran(db, clock, tx))
  {
  }

  lemma RanRedeemOk(db: Tables, clock: Time, tx: Transaction)
    requires TxOk(db, clock, tx) && Ready(tx) && Redeems(tx.op)
    ensures TxOk(db, clock, Ran(db, clock, tx))
  {
    if tx.pc.Start? {
      FoundRedeemOk(db, clock, tx);
    } else if tx.pc.Hold? || tx.pc.Spend? {
      HeldRedeemOk(db, clock, tx);
    } else if tx.pc.Apply? {
      UpdatedRedeemOk(db, clock, tx);
    } else {
      ClearedRedeemOk(db, clock, tx);
    }
  }

  lemma RanSweepOk(db: Tables, clock: Time, tx: Transaction)
    requires TxOk(db, clock, tx) && Ready(tx) && tx.op.Sweep?
    ensures TxOk(db, clock, Ran(db, clock, tx))
  {
  }

  lemma RanDisableOk(db: Tables, clock: Time, tx: Transaction)
    requires TxOk(db, clock, tx) && Ready(tx) && tx.op.Disable?
    ensures TxOk(db, clock, Ran(db, clock, tx))
  {
  }

  lemma RanGuardedOk(db: Tables, clock: Time, tx: Transaction)
    requires TxOk(db, clock, tx) && Ready(tx) && tx.op.Guarded?
    ensures TxOk(db, clock, Ran(db, clock, tx))
  {
  }

  /** A statement keeps what its transaction relies on. */
  lemma RanOk(db: Tables, clock: Time, tx: Transaction)
    requires TxOk(db, clock, tx) && Ready(tx)
    ensures TxOk(db, clock, Ran(db, clock, tx))
  {
    match tx.op
    case Issue(_, _, _) => RanIssueOk(db, clock, tx);
    case Replace(_, _) => RanIssueOk(db, clock, tx);
    case Activate(_, _, _) => RanRedeemOk(db, clock, tx);
    case ResetBy(_, _, _) => RanRedeemOk(db, clock, tx);
    case Disable(_, _) => RanDisableOk(db, clock, tx);
    case Guarded(_, _, _, _) => RanGuardedOk(db, clock, tx);
    case Sweep(_) => RanSweepOk(db, clock, tx);
  }

  lemma TookUserOk(db: Tables, clock: Time, tx: Transaction, row: Id)
    requires TxOk(db, clock, tx) && tx.pc.Scan?
    ensures TxOk(db, clock, TookUser(db, tx, row))
  {
  }

  lemma TookTokenOk(db: Tables, clock: Time, tx: Transaction, hash: Hash)
    requires TxOk(db, clock, tx) && tx.pc.Clearing? && hash in tx.pc.hashes
    ensures TxOk(db, clock, TookToken(db, tx, hash))
  {
  }

  // What other transactions' commits leave alone

  /** The hashes a transaction read, which no token issued later may carry. */
  function Known(tx: Transaction): set<Hash> {
    (if Redeems(tx.op) && !tx.pc.Ended? && !tx.pc.Start? then {tx.op.hash} else {}) +
    tx.deleted + (if tx.pc.Clearing? then tx.pc.hashes else {})
  }

  /** Committed rows a transaction relies on stay: its held accounts, their tokens it deletes, and no new token of
      theirs. */
  ghost predicate Undisturbed(before: Tables, db: Tables, tx: Transaction) {
    && (forall id :: id in tx.held ==> id in db.users && id in before.users && db.users[id] == before.users[id])
    && (forall hash :: hash in db.tokens ==>
          (hash in before.tokens && db.tokens[hash] == before.tokens[hash]) ||
          (db.tokens[hash].user !in tx.held && hash !in Known(tx)))
    && (forall hash :: hash in tx.deleted && hash in before.tokens && before.tokens[hash].user in tx.held ==>
          hash in db.tokens && db.tokens[hash] == before.tokens[hash])
  }

  lemma StandingShrinks(before: Tables, db: Tables, tx: Transaction, id: Id, purpose: Purpose, now: Time, later: Time)
    requires Undisturbed(before, db, tx) && id in tx.held && now <= later
    ensures Standing(db.tokens, id, purpose, later) <= Standing(before.tokens, id, purpose, now)
    ensures |Standing(db.tokens, id, purpose, later)| <= |Standing(before.tokens, id, purpose, now)|
  {
    SubsetSize(Standing(db.tokens, id, purpose, later), Standing(before.tokens, id, purpose, now));
  }

  lemma UndisturbedOk(before: Tables, db: Tables, clock: Time, later: Time, tx: Transaction)
    requires TxOk(before, clock, tx) && Undisturbed(before, db, tx) && clock <= later
    ensures TxOk(db, later, tx)
  {
    if tx.op.Issue? && tx.who in tx.held {
      StandingShrinks(before, db, tx, tx.who, tx.op.token.purpose, clock, later);
    }
    if tx.op.Sweep? {
      forall id | id in tx.dropped ensures Sweepable(db, id, tx.op.now) {
        StandingShrinks(before, db, tx, id, Invite, tx.op.now, tx.op.now);
      }
    }
  }

  // Runs

  /** The hashes an unfinished transaction issues. */
  function Issuing(tx: Transaction): set<Hash> {
    if Issues(tx.op) && !tx.pc.Ended? then {tx.op.hash} else {}
  }

  /** No two transactions hold one account, delete one token row or issue one hash. */
  ghost predicate Apart(a: Transaction, b: Transaction) {
    a.held !! b.held && a.deleted !! b.deleted && Issuing(a) !! Issuing(b)
  }

  /** The hashes redeemed so far. */
  function Redeemed(log: seq<Op>): set<Hash> {
    set i | 0 <= i < |log| && Redeems(log[i]) :: log[i].hash
  }

  /** Every stored token belongs to an enabled account. */
  predicate Sound(db: Tables) {
    forall hash :: hash in db.tokens ==> Enabled(db.users, db.tokens[hash].user)
  }

  ghost predicate HashesOk(w: World) {
    && w.db.tokens.Keys <= w.minted
    && (forall t :: t in w.txs ==> Issuing(w.txs[t]) <= w.minted && Issuing(w.txs[t]) !! w.db.tokens.Keys)
    && (forall t :: t in w.txs ==> Known(w.txs[t]) <= w.minted)
    && (forall t, u :: t in w.txs && u in w.txs ==> Known(w.txs[t]) !! Issuing(w.txs[u]))
  }

  ghost predicate SpentOnce(w: World) {
    && Redeemed(w.log) <= w.minted
    && Redeemed(w.log) !! w.db.tokens.Keys
    && (forall t :: t in w.txs ==> Redeemed(w.log) !! Issuing(w.txs[t]))
    && (forall i, j :: 0 <= i < j < |w.log| && Redeems(w.log[i]) && Redeems(w.log[j]) ==>
          w.log[i].hash != w.log[j].hash)
  }

  ghost predicate Inv(w: World) {
    && Sound(w.db)
    && (forall t :: t in w.txs ==> TxOk(w.db, w.clock, w.txs[t]))
    && (forall t, u :: t in w.txs && u in w.txs && t != u ==> Apart(w.txs[t], w.txs[u]))
    && HashesOk(w)
    && SpentOnce(w)
  }

  /** Every token a commit adds is the one it issued, for the account it holds. */
  lemma CommitInserts(db: Tables, clock: Time, tx: Transaction, hash: Hash)
    requires TxOk(db, clock, tx) && tx.pc.Commit? && hash in Committed(db, tx).tokens
    requires !(hash in db.tokens && Committed(db, tx).tokens[hash] == db.tokens[hash])
    ensures hash in Issuing(tx) && Committed(db, tx).tokens[hash].user in tx.held
  {
  }

  lemma CommitKeepsDeleted(db: Tables, clock: Time, tx: Transaction, other: Transaction, hash: Hash)
    requires TxOk(db, clock, tx) && tx.pc.Commit? && Apart(tx, other) && Issuing(tx) !! db.tokens.Keys
    requires hash in other.deleted && hash in db.tokens && db.tokens[hash].user in other.held
    ensures hash in Committed(db, tx).tokens && Committed(db, tx).tokens[hash] == db.tokens[hash]
  {
    assert hash !in tx.deleted && db.tokens[hash].user !in tx.dropped;
    assert hash !in tx.inserted;
  }

  /** A commit leaves alone what every other transaction relies on. */
  lemma CommitUndisturbs(db: Tables, clock: Time, tx: Transaction, other: Transaction)
    requires TxOk(db, clock, tx) && TxOk(db, clock, other) && tx.pc.Commit?
    requires Apart(tx, other) && Issuing(tx) !! Known(other) && Issuing(tx) !! db.tokens.Keys
    ensures Undisturbed(db, Committed(db, tx), other)
  {
    var after := Committed(db, tx);
    assert forall id :: id in other.held ==> id !in tx.updated && id !in tx.dropped;
    forall hash | hash in after.tokens && !(hash in db.tokens && after.tokens[hash] == db.tokens[hash])
      ensures after.tokens[hash].user !in other.held && hash !in Known(other)
    {
      CommitInserts(db, clock, tx, hash);
    }
    forall hash | hash in other.deleted && hash in db.tokens && db.tokens[hash].user in other.held
      ensures hash in after.tokens && after.tokens[hash] == db.tokens[hash]
    {
      CommitKeepsDeleted(db, clock, tx, other, hash);
    }
  }

  /** A commit leaves no token with a disabled account. */
  lemma CommitSound(db: Tables, clock: Time, tx: Transaction)
    requires Sound(db) && TxOk(db, clock, tx) && tx.pc.Commit?
    ensures Sound(Committed(db, tx))
  {
  }

  // One event at a time

  /** Two transactions share no account, no token row and no hash that either issues. */
  ghost predicate Beside(a: Transaction, b: Transaction) {
    Apart(a, b) && Apart(b, a) && Known(a) !! Issuing(b) && Known(b) !! Issuing(a)
  }

  /** The part of the invariant that one transaction's record must keep against every other. */
  ghost predicate FitsIn(w: World, t: nat, tx: Transaction) {
    && TxOk(w.db, w.clock, tx)
    && Issuing(tx) <= w.minted && Issuing(tx) !! w.db.tokens.Keys && Issuing(tx) !! Redeemed(w.log)
    && Known(tx) <= w.minted && Known(tx) !! Issuing(tx)
    && (forall u :: u in w.txs && u != t ==> Beside(tx, w.txs[u]))
  }

  lemma RecordKeepsHashes(w: World, t: nat, tx: Transaction)
    requires HashesOk(w) && FitsIn(w, t, tx)
    ensures HashesOk(w.(txs := w.txs[t := tx]))
  {
    forall u | u in w.txs && u != t ensures Known(tx) !! Issuing(w.txs[u]) && Known(w.txs[u]) !! Issuing(tx) {
      assert Beside(tx, w.txs[u]);
    }
  }

  lemma RecordKeepsInv(w: World, t: nat, tx: Transaction)
    requires Inv(w) && FitsIn(w, t, tx)
    ensures Inv(w.(txs := w.txs[t := tx]))
  {
    RecordKeepsHashes(w, t, tx);
    forall u | u in w.txs && u != t ensures Apart(tx, w.txs[u]) && Apart(w.txs[u], tx) {
      assert Beside(tx, w.txs[u]);
    }
  }

  /** A transaction that ended holds nothing and issues nothing. */
  lemma FinishedBeside(a: Transaction, b: Transaction, answer: Answer)
    requires Known(a) !! Issuing(b)
    ensures Beside(Finish(a, answer), b)
  {
  }

  lemma MintedKeepsInv(w: World, minted: set<Hash>)
    requires Inv(w) && w.minted <= minted
    ensures Inv(w.(minted := minted))
  {
  }

  lemma FreshBeside(op: Op, other: Transaction, minted: set<Hash>)
    requires Known(other) <= minted && Issuing(other) <= minted && (Issues(op) ==> op.hash !in minted)
    ensures Beside(Opened(op), other)
  {
  }

  lemma OpenedBeside(w: World, t: nat, op: Op, u: nat)
    requires Inv(w) && May(w, Begin(t, op)) && u in w.txs
    ensures Beside(Opened(op), w.txs[u])
  {
    FreshBeside(op, w.txs[u], w.minted);
  }

  lemma OpenedFits(w: World, t: nat, op: Op)
    requires Inv(w) && May(w, Begin(t, op))
    ensures FitsIn(w.(minted := w.minted + if Issues(op) then {op.hash} else {}), t, Opened(op))
  {
    OpenedOk(w.db, w.clock, op);
    forall u | u in w.txs ensures Beside(Opened(op), w.txs[u]) {
      OpenedBeside(w, t, op, u);
    }
  }

  lemma BeginKeepsInv(w: World, t: nat, op: Op)
    requires Inv(w) && May(w, Begin(t, op))
    ensures Inv(Next(w, Begin(t, op)))
  {
    var minted := w.minted + if Issues(op) then {op.hash} else {};
    MintedKeepsInv(w, minted);
    OpenedFits(w, t, op);
    RecordKeepsInv(w.(minted := minted), t, Opened(op));
  }

  function Locked(db: Tables, tx: Transaction): set<Id> {
    if LocksUser(db, tx).Some? then {LocksUser(db, tx).value} else {}
  }

  function SpentNow(db: Tables, tx: Transaction): set<Hash> {
    if SpendsToken(db, tx) then {tx.op.hash} else {}
  }

  /** A statement locks no row but the one it waited for, and reads no hash that is not stored. */
  predicate TakesOnly(db: Tables, tx: Transaction, ran: Transaction) {
    && ran.held <= tx.held + Locked(db, tx)
    && ran.deleted <= tx.deleted + SpentNow(db, tx)
    && Issuing(ran) <= Issuing(tx)
    && Known(ran) <= Known(tx) + db.tokens.Keys
  }

  lemma RanFirstTakes(db: Tables, tx: Transaction)
    requires tx.pc.Start?
    ensures TakesOnly(db, tx, RanFirst(db, tx))
  {
  }

  lemma RanUpdateTakes(db: Tables, tx: Transaction)
    requires tx.pc.Apply?
    ensures TakesOnly(db, tx, RanUpdate(db, tx))
  {
  }

  lemma RanGuardTakes(db: Tables, tx: Transaction)
    requires !tx.pc.Ended? && !tx.pc.Start?
    ensures TakesOnly(db, tx, RanGuard(db, tx))
  {
  }

  lemma RanTakes(db: Tables, clock: Time, tx: Transaction)
    requires Ready(tx)
    ensures TakesOnly(db, tx, Ran(db, clock, tx))
  {
    match tx.pc
    case Start => RanFirstTakes(db, tx);
    case Apply => RanUpdateTakes(db, tx);
    case Check => RanGuardTakes(db, tx);
    case Privilege => RanGuardTakes(db, tx);
    case Cover => RanGuardTakes(db, tx);
    case Recheck => RanGuardTakes(db, tx);
    case Missed => RanGuardTakes(db, tx);
    case _ =>
  }

  lemma RanBeside(w: World, t: nat, u: nat)
    requires Inv(w) && May(w, Do(t)) && !w.txs[t].pc.Commit? && u in w.txs && u != t
    requires TakesOnly(w.db, w.txs[t], Ran(w.db, w.clock, w.txs[t]))
    ensures Beside(Ran(w.db, w.clock, w.txs[t]), w.txs[u])
  {
    assert Apart(w.txs[t], w.txs[u]);
    assert Locked(w.db, w.txs[t]) !! w.txs[u].held;
    assert SpentNow(w.db, w.txs[t]) !! w.txs[u].deleted;
  }

  lemma RanFits(w: World, t: nat)
    requires Inv(w) && May(w, Do(t)) && !w.txs[t].pc.Commit?
    ensures FitsIn(w, t, Ran(w.db, w.clock, w.txs[t]))
  {
    RanOk(w.db, w.clock, w.txs[t]);
    RanTakes(w.db, w.clock, w.txs[t]);
    forall u | u in w.txs && u != t ensures Beside(Ran(w.db, w.clock, w.txs[t]), w.txs[u]) {
      RanBeside(w, t, u);
    }
  }

  lemma TookUserBeside(w: World, t: nat, row: Id, u: nat)
    requires Inv(w) && May(w, TakeUser(t, row)) && u in w.txs && u != t
    ensures Beside(TookUser(w.db, w.txs[t], row), w.txs[u])
  {
    assert Apart(w.txs[t], w.txs[u]);
  }

  lemma TookUserFits(w: World, t: nat, row: Id)
    requires Inv(w) && May(w, TakeUser(t, row))
    ensures FitsIn(w, t, TookUser(w.db, w.txs[t], row))
  {
    TookUserOk(w.db, w.clock, w.txs[t], row);
    forall u | u in w.txs && u != t ensures Beside(TookUser(w.db, w.txs[t], row), w.txs[u]) {
      TookUserBeside(w, t, row, u);
    }
  }

  lemma TookTokenApart(db: Tables, tx: Transaction, hash: Hash, other: Transaction)
    requires tx.pc.Clearing? && hash in tx.pc.hashes && (hash in db.tokens ==> hash !in other.deleted)
    requires Apart(tx, other) && Known(tx) !! Issuing(other) && Known(other) !! Issuing(tx)
    ensures Beside(TookToken(db, tx, hash), other)
  {
    assert Known(TookToken(db, tx, hash)) <= Known(tx);
  }

  lemma TookTokenBeside(w: World, t: nat, hash: Hash, u: nat)
    requires Inv(w) && May(w, TakeToken(t, hash)) && u in w.txs && u != t
    ensures Beside(TookToken(w.db, w.txs[t], hash), w.txs[u])
  {
    assert Apart(w.txs[t], w.txs[u]);
    TookTokenApart(w.db, w.txs[t], hash, w.txs[u]);
  }

  lemma TookTokenFits(w: World, t: nat, hash: Hash)
    requires Inv(w) && May(w, TakeToken(t, hash))
    ensures FitsIn(w, t, TookToken(w.db, w.txs[t], hash))
  {
    TookTokenOk(w.db, w.clock, w.txs[t], hash);
    forall u | u in w.txs && u != t ensures Beside(TookToken(w.db, w.txs[t], hash), w.txs[u]) {
      TookTokenBeside(w, t, hash, u);
    }
  }

  lemma CommitLog(log: seq<Op>, op: Op)
    ensures Redeemed(log + [op]) == Redeemed(log) + if Redeems(op) then {op.hash} else {}
  {
    var longer := log + [op];
    assert longer[|log|] == op;
    forall hash | hash in Redeemed(log) ensures hash in Redeemed(longer) {
      var i :| 0 <= i < |log| && Redeems(log[i]) && log[i].hash == hash;
      assert longer[i] == log[i];
    }
  }

  /** A commit stores no hash but the one it issued, and a redemption takes its own out of the store. */
  lemma CommittedHashes(db: Tables, clock: Time, tx: Transaction)
    requires TxOk(db, clock, tx) && tx.pc.Commit? && Issuing(tx) !! db.tokens.Keys
    ensures Committed(db, tx).tokens.Keys <= db.tokens.Keys + Issuing(tx)
    ensures Redeems(tx.op) ==>
              tx.op.hash in db.tokens && tx.op.hash !in Committed(db, tx).tokens && tx.op.hash in Known(tx)
  {
  }

  /** The world after a commit, its tables and its log given. */
  function Closed(w: World, t: nat, db: Tables, log: seq<Op>): World
    requires t in w.txs
  {
    w.(db := db, txs := w.txs[t := Finish(w.txs[t], Done)], log := log)
  }

  lemma CommitHashesOk(w: World, t: nat, db: Tables, log: seq<Op>)
    requires HashesOk(w) && Running(w, t)
    requires forall u :: u in w.txs && u != t ==> Issuing(w.txs[t]) !! Issuing(w.txs[u])
    requires db.tokens.Keys <= w.db.tokens.Keys + Issuing(w.txs[t])
    ensures HashesOk(Closed(w, t, db, log))
  {
  }

  /** A redemption commits a hash that was never redeemed before. */
  lemma CommitSpendsOnce(w: World, t: nat, db: Tables)
    requires SpentOnce(w) && Running(w, t)
    requires db.tokens.Keys <= w.db.tokens.Keys + Issuing(w.txs[t])
    requires Redeems(w.txs[t].op) ==>
               && w.txs[t].op.hash in w.db.tokens && w.txs[t].op.hash !in db.tokens && w.txs[t].op.hash in w.minted
               && (forall u :: u in w.txs ==> w.txs[t].op.hash !in Issuing(w.txs[u]))
    ensures SpentOnce(Closed(w, t, db, w.log + [w.txs[t].op]))
  {
    var op := w.txs[t].op;
    CommitLog(w.log, op);
    forall i | 0 <= i < |w.log| && Redeems(op) && Redeems(w.log[i]) ensures w.log[i].hash != op.hash {
      assert w.log[i].hash in Redeemed(w.log);
    }
  }

  /** Every other transaction relies on nothing that a commit changes. */
  lemma CommitKeepsOthers(w: World, t: nat, u: nat)
    requires Inv(w) && t in w.txs && u in w.txs && u != t && w.txs[t].pc.Commit?
    ensures TxOk(Committed(w.db, w.txs[t]), w.clock, w.txs[u])
  {
    assert Apart(w.txs[t], w.txs[u]);
    CommitUndisturbs(w.db, w.clock, w.txs[t], w.txs[u]);
    UndisturbedOk(w.db, Committed(w.db, w.txs[t]), w.clock, w.clock, w.txs[u]);
  }

  lemma FinishOk(db: Tables, before: Tables, clock: Time, tx: Transaction, answer: Answer)
    requires TxOk(before, clock, tx)
    ensures TxOk(db, clock, Finish(tx, answer))
  {
  }

  lemma ClosedKeepsInv(w: World, t: nat, db: Tables, log: seq<Op>)
    requires t in w.txs && Sound(db) && HashesOk(Closed(w, t, db, log)) && SpentOnce(Closed(w, t, db, log))
    requires forall u, v :: u in w.txs && v in w.txs && u != v ==> Apart(w.txs[u], w.txs[v])
    requires forall u :: u in w.txs && u != t ==> TxOk(db, w.clock, w.txs[u])
    requires TxOk(db, w.clock, Finish(w.txs[t], Done))
    ensures Inv(Closed(w, t, db, log))
  {
    var next := Closed(w, t, db, log);
    forall u, v | u in next.txs && v in next.txs && u != v ensures Apart(next.txs[u], next.txs[v]) {
      assert Apart(w.txs[u], w.txs[v]);
    }
  }

  lemma CommitKeepsInv(w: World, t: nat)
    requires Inv(w) && May(w, Do(t)) && w.txs[t].pc.Commit?
    ensures Inv(Next(w, Do(t)))
  {
    var tx := w.txs[t];
    var db := Committed(w.db, tx);
    assert forall u :: u in w.txs && u != t ==> Issuing(tx) !! Issuing(w.txs[u]) by {
      assert forall u :: u in w.txs && u != t ==> Apart(tx, w.txs[u]);
    }
    assert Sound(db) by { CommitSound(w.db, w.clock, tx); }
    CommittedHashes(w.db, w.clock, tx);
    CommitHashesOk(w, t, db, w.log + [tx.op]);
    CommitSpendsOnce(w, t, db);
    assert TxOk(db, w.clock, Finish(tx, Done)) by { FinishOk(db, w.db, w.clock, tx, Done); }
    forall u | u in w.txs && u != t ensures TxOk(db, w.clock, w.txs[u]) {
      CommitKeepsOthers(w, t, u);
    }
    ClosedKeepsInv(w, t, db, w.log + [tx.op]);
  }

  lemma TickKeepsInv(w: World, now: Time)
    requires Inv(w) && May(w, Tick(now))
    ensures Inv(Next(w, Tick(now)))
  {
    forall t | t in w.txs ensures TxOk(w.db, now, w.txs[t]) {
      UndisturbedOk(w.db, w.db, w.clock, now, w.txs[t]);
    }
  }

  lemma AddUserKeepsInv(w: World, id: Id, user: User)
    requires Inv(w) && May(w, AddUser(id, user))
    ensures Inv(Next(w, AddUser(id, user)))
  {
    var next := Next(w, AddUser(id, user));
    forall t | t in w.txs ensures TxOk(next.db, w.clock, w.txs[t]) {
      UndisturbedOk(w.db, next.db, w.clock, w.clock, w.txs[t]);
    }
  }

  lemma StatementKeepsInv(w: World, t: nat)
    requires Inv(w) && May(w, Do(t)) && !w.txs[t].pc.Commit?
    ensures Inv(Next(w, Do(t)))
  {
    RanFits(w, t);
    RecordKeepsInv(w, t, Ran(w.db, w.clock, w.txs[t]));
  }

  lemma TakeKeepsInv(w: World, e: Event)
    requires Inv(w) && May(w, e) && (e.TakeUser? || e.TakeToken?)
    ensures Inv(Next(w, e))
  {
    if e.TakeUser? {
      TookUserFits(w, e.tx, e.row);
      RecordKeepsInv(w, e.tx, TookUser(w.db, w.txs[e.tx], e.row));
    } else {
      TookTokenFits(w, e.tx, e.hash);
      RecordKeepsInv(w, e.tx, TookToken(w.db, w.txs[e.tx], e.hash));
    }
  }

  lemma AbortKeepsInv(w: World, t: nat)
    requires Inv(w) && May(w, Abort(t))
    ensures Inv(Next(w, Abort(t)))
  {
    FinishOk(w.db, w.db, w.clock, w.txs[t], Failed);
    forall u | u in w.txs && u != t ensures Beside(Finish(w.txs[t], Failed), w.txs[u]) {
      FinishedBeside(w.txs[t], w.txs[u], Failed);
    }
    RecordKeepsInv(w, t, Finish(w.txs[t], Failed));
  }

  /** Every event keeps the invariant. */
  lemma EventKeepsInv(w: World, e: Event)
    requires Inv(w) && May(w, e)
    ensures Inv(Next(w, e))
  {
    match e
    case Begin(t, op) => BeginKeepsInv(w, t, op);
    case Do(t) =>
      if w.txs[t].pc.Commit? {
        CommitKeepsInv(w, t);
      } else {
        StatementKeepsInv(w, t);
      }
    case Abort(t) => AbortKeepsInv(w, t);
    case AddUser(id, user) => AddUserKeepsInv(w, id, user);
    case Tick(now) => TickKeepsInv(w, now);
    case _ => TakeKeepsInv(w, e);
  }

  lemma {:induction false} RunKeepsInv(w: World, run: seq<Event>)
    requires Inv(w) && Possible(w, run)
    ensures Inv(After(w, run))
    decreases run
  {
    if run != [] {
      EventKeepsInv(w, run[0]);
      RunKeepsInv(Next(w, run[0]), run[1..]);
    }
  }

  // What every run keeps

  /** No interleaving ever commits a token to a disabled account. */
  lemma DisabledHoldsNoToken(db: Tables, clock: Time, run: seq<Event>)
    requires Sound(db) && Possible(AtRest(db, clock), run)
    ensures Sound(After(AtRest(db, clock), run).db)
  {
    RunKeepsInv(AtRest(db, clock), run);
  }

  /** No hash is ever redeemed twice, and a redeemed one is never stored again. */
  lemma RedeemedOnce(db: Tables, clock: Time, run: seq<Event>, i: nat, j: nat)
    requires Sound(db) && Possible(AtRest(db, clock), run)
    requires i < j < |After(AtRest(db, clock), run).log|
    ensures var log := After(AtRest(db, clock), run).log;
            Redeems(log[i]) && Redeems(log[j]) ==> log[i].hash != log[j].hash
    ensures Redeemed(After(AtRest(db, clock), run).log) !! After(AtRest(db, clock), run).db.tokens.Keys
  {
    RunKeepsInv(AtRest(db, clock), run);
  }

  /** Whether an event commits a transaction. */
  predicate Commits(w: World, e: Event)
    requires May(w, e)
  {
    e.Do? && w.txs[e.tx].pc.Commit?
  }

  /** A transaction that is refused, aborted or unfinished changed no committed row. */
  lemma OnlyCommitsChange(w: World, e: Event)
    requires May(w, e) && !Commits(w, e) && !e.AddUser?
    ensures Next(w, e).db == w.db && Next(w, e).log == w.log
    ensures e.Do? ==> Next(w, e).txs[e.tx].pc != Ended(Done)
  {
  }
}
