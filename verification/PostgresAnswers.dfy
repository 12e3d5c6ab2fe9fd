/** What a refused PostgreSQL transaction answers, in every run of every operation: the contract's own answer on the
    rows committed at that moment, but for four answers that speak of an earlier one. */
module PostgresAnswers {
  import opened Basics
  import opened Accounts
  import opened Postgres
  import opened PostgresTokens
  import opened PostgresCommits
  import opened PostgresCover

  /** Whether running its next statement ends a transaction with an answer of its own, a failure being none. */
  predicate Refuses(db: Tables, clock: Time, tx: Transaction) {
    Ready(tx) && Ran(db, clock, tx).pc.Ended? && Ran(db, clock, tx).pc.answer != Failed
  }

  /** The privileged set that guards an operation. */
  function GuardOf(op: Op): Roles {
    if op.Guarded? then op.privileged else []
  }

  /** Whether the contract gives an answer and changes nothing. */
  ghost predicate ContractAnswers(db: Tables, clock: Time, op: Op, answer: Answer) {
    Atomic(AsDb(db), op, clock, GuardOf(op)) == Outcome(answer, AsDb(db))
  }

  /** A redemption whose account closed after its token was found. */
  predicate ClosedSince(tx: Transaction) {
    tx.pc.Hold?
  }

  /** A guarded write that missed a role its account holds again by now. */
  predicate HeldAgain(db: Tables, tx: Transaction) {
    && tx.pc.Missed? && tx.op.Guarded? && tx.op.held.Some?
    && tx.who in db.users && db.users[tx.who].role == tx.op.held.value
  }

  /** Whether the next statement refuses a removal of the last privileged account. */
  predicate RefusesLast(db: Tables, clock: Time, tx: Transaction) {
    tx.pc.Recheck? && tx.op.Guarded? && Ran(db, clock, tx).pc == Ended(LastPrivileged)
  }

  /** A removal that counted no cover, though another account covers by now. */
  ghost predicate CoveredSince(db: Tables, clock: Time, tx: Transaction) {
    RefusesLast(db, clock, tx) && CoveredBeside(db.users, tx.who, tx.op.privileged)
  }

  /** A removal that counted no cover, though its own account covers nothing any more. */
  predicate LapsedSince(db: Tables, clock: Time, tx: Transaction) {
    RefusesLast(db, clock, tx) && !Covers(db.users, tx.who, tx.op.privileged)
  }

  /** A refusal that speaks of an earlier moment. */
  ghost predicate LateAnswer(db: Tables, clock: Time, tx: Transaction) {
    ClosedSince(tx) || HeldAgain(db, tx) || CoveredSince(db, clock, tx) || LapsedSince(db, clock, tx)
  }

  lemma IssueRefusal(db: Tables, clock: Time, tx: Transaction)
    requires TxOk(db, clock, tx) && Issues(tx.op) && Refuses(db, clock, tx)
    ensures !LateAnswer(db, clock, tx) && ContractAnswers(db, clock, tx.op, Ran(db, clock, tx).pc.answer)
  {
  }

  lemma RedeemRefusal(db: Tables, clock: Time, tx: Transaction)
    requires Sound(db) && TxOk(db, clock, tx) && Redeems(tx.op) && Refuses(db, clock, tx)
    ensures !LateAnswer(db, clock, tx) ==> ContractAnswers(db, clock, tx.op, Ran(db, clock, tx).pc.answer)
    ensures LateAnswer(db, clock, tx) ==>
              (Ran(db, clock, tx).pc.answer == UserNotFound && ContractAnswers(db, clock, tx.op, TokenNotFound))
  {
  }

  lemma DisableRefusal(db: Tables, clock: Time, tx: Transaction)
    requires TxOk(db, clock, tx) && tx.op.Disable? && Refuses(db, clock, tx)
    ensures !LateAnswer(db, clock, tx) && ContractAnswers(db, clock, tx.op, Ran(db, clock, tx).pc.answer)
  {
  }

  /** The guard's condition on the rows of a moment is the contract's. */
  lemma UncoversIff(db: Tables, who: Id, p: Roles)
    requires "" !in p
    ensures Uncovers(AsDb(db), who, p) <==> !SafeWithout(db.users, who, p)
  {
    if id :| id != who && Covers(db.users, id, p) {
      assert PrivilegedAccount(db.users[id], p);
    } else if id :| id in db.users && id != who && PrivilegedAccount(db.users[id], p) {
      assert Covers(db.users, id, p);
    }
  }

  lemma RecheckRefusal(db: Tables, clock: Time, tx: Transaction)
    requires TxOk(db, clock, tx) && tx.op.Guarded? && tx.pc.Recheck? && Refuses(db, clock, tx)
    requires "" !in tx.op.privileged
    ensures !LateAnswer(db, clock, tx) <==> ContractAnswers(db, clock, tx.op, Ran(db, clock, tx).pc.answer)
  {
    UncoversIff(db, tx.who, tx.op.privileged);
  }

  lemma GuardedRefusal(db: Tables, clock: Time, tx: Transaction)
    requires TxOk(db, clock, tx) && tx.op.Guarded? && Refuses(db, clock, tx) && "" !in tx.op.privileged
    ensures !LateAnswer(db, clock, tx) <==> ContractAnswers(db, clock, tx.op, Ran(db, clock, tx).pc.answer)
  {
    if tx.pc.Recheck? {
      RecheckRefusal(db, clock, tx);
    }
  }

  lemma RefusalIsTheContracts(db: Tables, clock: Time, tx: Transaction)
    requires Sound(db) && TxOk(db, clock, tx) && Refuses(db, clock, tx) && "" !in GuardOf(tx.op)
    ensures !LateAnswer(db, clock, tx) <==> ContractAnswers(db, clock, tx.op, Ran(db, clock, tx).pc.answer)
  {
    if Issues(tx.op) {
      IssueRefusal(db, clock, tx);
    } else if Redeems(tx.op) {
      RedeemRefusal(db, clock, tx);
    } else if tx.op.Disable? {
      DisableRefusal(db, clock, tx);
    } else if tx.op.Guarded? {
      GuardedRefusal(db, clock, tx);
    }
  }

  /** In every run a refused transaction answers what the contract answers on the tables of that moment, exactly unless
      its answer is a late one. */
  lemma RefusalsAreTheContracts(db: Tables, clock: Time, run: seq<Event>, t: nat)
    requires Sound(db) && Possible(AtRest(db, clock), run)
    requires var w := After(AtRest(db, clock), run);
             May(w, Do(t)) && Refuses(w.db, w.clock, w.txs[t]) && "" !in GuardOf(w.txs[t].op)
    ensures var w := After(AtRest(db, clock), run);
            var answer := Next(w, Do(t)).txs[t].pc.answer;
            !LateAnswer(w.db, w.clock, w.txs[t]) <==> ContractAnswers(w.db, w.clock, w.txs[t].op, answer)
  {
    RunKeepsInv(AtRest(db, clock), run);
    var w := After(AtRest(db, clock), run);
    RefusalIsTheContracts(w.db, w.clock, w.txs[t]);
  }

  lemma LastAnswer(db: Tables, clock: Time, tx: Transaction, p: Roles)
    requires TxOk(db, clock, tx) && tx.op.Guarded? && Ran(db, clock, tx).pc == Ended(LastPrivileged) && Ready(tx)
    requires GuardOk(db.users, tx, p, true) && tx.op.privileged == p && "" !in p
    ensures Covers(db.users, tx.who, p)
    ensures ContractAnswers(db, clock, tx.op, LastPrivileged) <==> !CoveredBeside(db.users, tx.who, p)
  {
    assert tx.pc.Recheck?;
    UncoversIff(db, tx.who, p);
  }

  lemma WorldLastAnswer(w: World, t: nat, p: Roles)
    requires Inv(w) && CoverInv(w, p, true) && "" !in p && May(w, Do(t))
    requires w.txs[t].op.Guarded? && Ran(w.db, w.clock, w.txs[t]).pc == Ended(LastPrivileged)
    ensures Covers(w.db.users, w.txs[t].who, p)
    ensures ContractAnswers(w.db, w.clock, w.txs[t].op, LastPrivileged) <==> !CoveredBeside(w.db.users, w.txs[t].who, p)
  {
    assert TxOk(w.db, w.clock, w.txs[t]);
    LastAnswer(w.db, w.clock, w.txs[t], p);
  }

  /** Where no account joins the pool while any removal aimed at it is between its scan and its write, an account
      refused as the last privileged one still covers, so the contract refuses it too exactly unless another one covers
      by now. */
  lemma LastPrivilegedRefusal(db: Tables, clock: Time, run: seq<Event>, p: Roles, t: nat)
    requires Sound(db) && HasCover(db.users, p) && "" !in p
    requires Possible(AtRest(db, clock), run) && SteadyRun(AtRest(db, clock), run, p, iset{})
    requires var w := After(AtRest(db, clock), run);
             May(w, Do(t)) && w.txs[t].op.Guarded? && Ran(w.db, w.clock, w.txs[t]).pc == Ended(LastPrivileged)
    ensures var w := After(AtRest(db, clock), run);
            && Covers(w.db.users, w.txs[t].who, p)
            && (ContractAnswers(w.db, w.clock, w.txs[t].op, LastPrivileged) <==>
                  !CoveredBeside(w.db.users, w.txs[t].who, p))
  {
    var id :| Covers(db.users, id, p);
    RunKeepsInv(AtRest(db, clock), run);
    RunKeepsCover(AtRest(db, clock), run, p, true);
    var w := After(AtRest(db, clock), run);
    WorldLastAnswer(w, t, p);
  }
}
