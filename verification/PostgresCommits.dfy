/** Each commit of a PostgreSQL transaction is one atomic step of the store's contract, taken at the commit, and the
    token caps hold at every moment. */
module PostgresCommits {
  import opened Basics
  import opened Accounts
  import opened Postgres
  import opened PostgresTokens

  function AsDb(tables: Tables): Db {
    Db(tables.users, map[], tables.tokens)
  }

  /** The contract of an operation on the rows it finds, a guarded write refused by `guard` alone. */
  ghost function Atomic(db: Db, op: Op, clock: Time, guard: Roles): Outcome {
    match op
    case Issue(hash, token, live) => CreateToken(db, hash, token, live, clock)
    case Replace(hash, token) => ReplaceToken(db, hash, token)
    case Activate(hash, now, password) => ActivateByToken(db, hash, now, password)
    case ResetBy(hash, now, password) => ResetByToken(db, hash, now, password)
    case Disable(id, disabled) => SetDisabled(db, id, disabled)
    case Guarded(id, held, ToRole(role), _) => GuardedRole(db, id, held, role, guard)
    case Guarded(id, held, ToDisabled(disabled), _) => GuardedDisable(db, id, held, disabled, guard)
    case Sweep(now) => DeleteExpiredTokens(db, now)
  }

  predicate Succeeds(answer: Answer) {
    answer.Done? || answer.Account?
  }

  lemma ReplaceIsAtomic(db: Tables, clock: Time, tx: Transaction)
    requires TxOk(db, clock, tx) && tx.pc.Commit? && tx.op.Replace?
    ensures Atomic(AsDb(db), tx.op, clock, []) == Outcome(Done, AsDb(Committed(db, tx)))
  {
    var atomic := Atomic(AsDb(db), tx.op, clock, []).db;
    assert atomic.tokens.Keys == Committed(db, tx).tokens.Keys;
    assert atomic.tokens == Committed(db, tx).tokens;
  }

  lemma CreateIsAtomic(db: Tables, clock: Time, tx: Transaction)
    requires TxOk(db, clock, tx) && tx.pc.Commit? && tx.op.Issue?
    ensures Atomic(AsDb(db), tx.op, clock, []) == Outcome(Done, AsDb(Committed(db, tx)))
  {
    var atomic := Atomic(AsDb(db), tx.op, clock, []).db;
    assert atomic.tokens.Keys == Committed(db, tx).tokens.Keys;
    assert atomic.tokens == Committed(db, tx).tokens;
  }

  lemma IssueIsAtomic(db: Tables, clock: Time, tx: Transaction)
    requires TxOk(db, clock, tx) && tx.pc.Commit? && Issues(tx.op)
    ensures Atomic(AsDb(db), tx.op, clock, []).db == AsDb(Committed(db, tx))
    ensures Succeeds(Atomic(AsDb(db), tx.op, clock, []).answer)
  {
    if tx.op.Issue? {
      CreateIsAtomic(db, clock, tx);
    } else {
      ReplaceIsAtomic(db, clock, tx);
    }
  }

  lemma RedeemIsAtomic(db: Tables, clock: Time, tx: Transaction)
    requires TxOk(db, clock, tx) && tx.pc.Commit? && Redeems(tx.op)
    ensures Atomic(AsDb(db), tx.op, clock, []).db == AsDb(Committed(db, tx))
    ensures Succeeds(Atomic(AsDb(db), tx.op, clock, []).answer)
  {
    var atomic := Atomic(AsDb(db), tx.op, clock, []).db;
    assert atomic.users == Committed(db, tx).users;
    assert atomic.tokens.Keys == Committed(db, tx).tokens.Keys;
    assert atomic.tokens == Committed(db, tx).tokens;
  }

  lemma DisableIsAtomic(db: Tables, clock: Time, tx: Transaction)
    requires TxOk(db, clock, tx) && tx.pc.Commit? && tx.op.Disable?
    ensures Atomic(AsDb(db), tx.op, clock, []) == Outcome(Done, AsDb(Committed(db, tx)))
  {
    var atomic := Atomic(AsDb(db), tx.op, clock, []).db;
    assert atomic.tokens.Keys == Committed(db, tx).tokens.Keys;
    assert atomic.tokens == Committed(db, tx).tokens;
  }

  lemma GuardedIsAtomic(db: Tables, clock: Time, tx: Transaction)
    requires TxOk(db, clock, tx) && tx.pc.Commit? && tx.op.Guarded?
    ensures Atomic(AsDb(db), tx.op, clock, []) == Outcome(Done, AsDb(Committed(db, tx)))
  {
    var atomic := Atomic(AsDb(db), tx.op, clock, []).db;
    assert atomic.users == Committed(db, tx).users;
    assert atomic.tokens.Keys == Committed(db, tx).tokens.Keys;
    assert atomic.tokens == Committed(db, tx).tokens;
  }

  lemma WriteIsAtomic(db: Tables, clock: Time, tx: Transaction)
    requires TxOk(db, clock, tx) && tx.pc.Commit? && (tx.op.Disable? || tx.op.Guarded?)
    ensures Atomic(AsDb(db), tx.op, clock, []) == Outcome(Done, AsDb(Committed(db, tx)))
  {
    if tx.op.Disable? {
      DisableIsAtomic(db, clock, tx);
    } else {
      GuardedIsAtomic(db, clock, tx);
    }
  }

  /** In every run each commit but the sweep's lands whole as one step of the contract on the tables of that moment. */
  lemma CommitIsAtomic(db: Tables, clock: Time, run: seq<Event>, t: nat)
    requires Sound(db) && Possible(AtRest(db, clock), run)
    requires var w := After(AtRest(db, clock), run); May(w, Do(t)) && Commits(w, Do(t)) && !w.txs[t].op.Sweep?
    ensures var w := After(AtRest(db, clock), run);
            var atomic := Atomic(AsDb(w.db), w.txs[t].op, w.clock, []);
            Succeeds(atomic.answer) && AsDb(Next(w, Do(t)).db) == atomic.db
  {
    RunKeepsInv(AtRest(db, clock), run);
    var w := After(AtRest(db, clock), run);
    var tx := w.txs[t];
    if Issues(tx.op) {
      IssueIsAtomic(w.db, w.clock, tx);
    } else if Redeems(tx.op) {
      RedeemIsAtomic(w.db, w.clock, tx);
    } else {
      WriteIsAtomic(w.db, w.clock, tx);
    }
  }

  /** A reset commits for the account of its token, then enabled, and leaves that account no reset token. */
  lemma ResetLeavesNoResetToken(db: Tables, clock: Time, run: seq<Event>, t: nat)
    requires Sound(db) && Possible(AtRest(db, clock), run)
    requires var w := After(AtRest(db, clock), run); May(w, Do(t)) && Commits(w, Do(t)) && w.txs[t].op.ResetBy?
    ensures var w := After(AtRest(db, clock), run);
            var op := w.txs[t].op;
            && Redeemable(w.db.tokens, op.hash, Reset, op.now) && Enabled(w.db.users, w.db.tokens[op.hash].user)
            && (forall hash :: hash in Next(w, Do(t)).db.tokens ==>
                  var token := Next(w, Do(t)).db.tokens[hash];
                  !(token.user == w.db.tokens[op.hash].user && token.purpose == Reset))
  {
    CommitIsAtomic(db, clock, run, t);
  }

  // Caps

  /** No account holds more live tokens of a purpose than its cap. */
  ghost predicate Capped(tokens: map<Hash, Token>, now: Time, cap: Purpose -> nat) {
    forall id, purpose :: |Standing(tokens, id, purpose, now)| <= cap(purpose)
  }

  /** Whether an operation asks for no more standing tokens than the cap. */
  predicate Within(op: Op, cap: Purpose -> nat) {
    (op.Issue? ==> op.live <= cap(op.token.purpose)) && (op.Replace? ==> 1 <= cap(op.token.purpose))
  }

  predicate AllWithin(run: seq<Event>, cap: Purpose -> nat) {
    forall i :: 0 <= i < |run| && run[i].Begin? ==> Within(run[i].op, cap)
  }

  lemma FewerTokensCapped(
      tokens: map<Hash, Token>, fewer: map<Hash, Token>, now: Time, later: Time, cap: Purpose -> nat)
    requires Capped(tokens, now, cap) && now <= later
    requires forall hash :: hash in fewer ==> hash in tokens && fewer[hash] == tokens[hash]
    ensures Capped(fewer, later, cap)
  {
    forall id, purpose ensures |Standing(fewer, id, purpose, later)| <= cap(purpose) {
      SubsetSize(Standing(fewer, id, purpose, later), Standing(tokens, id, purpose, now));
    }
  }

  /** One more token keeps the caps where its own account and purpose have room. */
  lemma OneMoreCapped(tokens: map<Hash, Token>, hash: Hash, token: Token, now: Time, cap: Purpose -> nat)
    requires Capped(tokens, now, cap)
    requires |Standing(tokens, token.user, token.purpose, now)| < cap(token.purpose)
    ensures Capped(tokens[hash := token], now, cap)
  {
    var more := tokens[hash := token];
    forall id, purpose ensures |Standing(more, id, purpose, now)| <= cap(purpose) {
      var grown := Standing(more, id, purpose, now);
      if id == token.user && purpose == token.purpose {
        SubsetSize(grown, Standing(tokens, id, purpose, now) + {hash});
      } else {
        SubsetSize(grown, Standing(tokens, id, purpose, now));
      }
    }
  }

  lemma CommitCapped(db: Tables, clock: Time, tx: Transaction, cap: Purpose -> nat)
    requires TxOk(db, clock, tx) && tx.pc.Commit? && Within(tx.op, cap) && Capped(db.tokens, clock, cap)
    ensures Capped(Committed(db, tx).tokens, clock, cap)
  {
    if tx.op.Issue? {
      IssueIsAtomic(db, clock, tx);
      OneMoreCapped(db.tokens, tx.op.hash, tx.op.token, clock, cap);
    } else if tx.op.Replace? {
      IssueIsAtomic(db, clock, tx);
      var cleared := WithoutPurpose(db.tokens, tx.who, tx.op.token.purpose);
      FewerTokensCapped(db.tokens, cleared, clock, clock, cap);
      assert Standing(cleared, tx.who, tx.op.token.purpose, clock) == {};
      OneMoreCapped(cleared, tx.op.hash, tx.op.token, clock, cap);
    } else {
      assert tx.inserted == map[];
      FewerTokensCapped(db.tokens, Committed(db, tx).tokens, clock, clock, cap);
    }
  }

  ghost predicate CapInv(w: World, cap: Purpose -> nat) {
    Capped(w.db.tokens, w.clock, cap) && forall t :: t in w.txs ==> Within(w.txs[t].op, cap)
  }

  lemma SameOp(db: Tables, clock: Time, tx: Transaction)
    ensures Ran(db, clock, tx).op == tx.op
  {
  }

  lemma EventKeepsCaps(w: World, e: Event, cap: Purpose -> nat)
    requires Inv(w) && May(w, e) && CapInv(w, cap) && (e.Begin? ==> Within(e.op, cap))
    ensures CapInv(Next(w, e), cap)
  {
    match e
    case Do(t) =>
      if w.txs[t].pc.Commit? {
        CommitCapped(w.db, w.clock, w.txs[t], cap);
      } else {
        SameOp(w.db, w.clock, w.txs[t]);
      }
    case Tick(now) => FewerTokensCapped(w.db.tokens, w.db.tokens, w.clock, now, cap);
    case _ =>
  }

  lemma {:induction false} RunKeepsCaps(w: World, run: seq<Event>, cap: Purpose -> nat)
    requires Inv(w) && Possible(w, run) && CapInv(w, cap) && AllWithin(run, cap)
    ensures CapInv(After(w, run), cap)
    decreases run
  {
    if run != [] {
      EventKeepsInv(w, run[0]);
      EventKeepsCaps(w, run[0], cap);
      RunKeepsCaps(Next(w, run[0]), run[1..], cap);
    }
  }

  /** At every moment of every run, with a clock that never goes back, each account keeps within its caps. */
  lemma CapsHold(db: Tables, clock: Time, run: seq<Event>, cap: Purpose -> nat)
    requires Sound(db) && Capped(db.tokens, clock, cap)
    requires Possible(AtRest(db, clock), run) && AllWithin(run, cap)
    ensures var w := After(AtRest(db, clock), run); Capped(w.db.tokens, w.clock, cap)
  {
    RunKeepsCaps(AtRest(db, clock), run, cap);
  }

  lemma CappedAt(tokens: map<Hash, Token>, now: Time, cap: Purpose -> nat, id: Id, purpose: Purpose)
    requires Capped(tokens, now, cap)
    ensures |Standing(tokens, id, purpose, now)| <= cap(purpose)
  {
  }

  /** The reset cap an invites config applies, anything below one counting as one. */
  function ResetLive(configured: int): nat {
    if configured < 1 then 1 else configured
  }

  /** The token writes Invite, ResendInvite and RequestReset make. */
  predicate FromInvites(op: Op, resetTokensLive: int) {
    && (op.Issue? ==> (op.token.purpose == Invite && op.live == 1) ||
                      (op.token.purpose == Reset && op.live == ResetLive(resetTokensLive)))
    && (op.Replace? ==> op.token.purpose == Invite)
  }

  /** Under the invite and reset flows an account never has two live invites, nor more live resets than configured. */
  lemma InvitesKeepCaps(clock: Time, run: seq<Event>, resetTokensLive: int)
    requires Possible(AtRest(Tables(map[], map[]), clock), run)
    requires forall i :: 0 <= i < |run| && run[i].Begin? ==> FromInvites(run[i].op, resetTokensLive)
    ensures var w := After(AtRest(Tables(map[], map[]), clock), run);
            forall id :: |Standing(w.db.tokens, id, Invite, w.clock)| <= 1 &&
                         |Standing(w.db.tokens, id, Reset, w.clock)| <= ResetLive(resetTokensLive)
  {
    var empty := Tables(map[], map[]);
    var cap := (purpose: Purpose) => if purpose == Reset then ResetLive(resetTokensLive) else 1;
    assert forall id, purpose :: Standing(empty.tokens, id, purpose, clock) == {};
    CapsHold(empty, clock, run, cap);
    var w := After(AtRest(empty, clock), run);
    forall id
      ensures |Standing(w.db.tokens, id, Invite, w.clock)| <= 1
      ensures |Standing(w.db.tokens, id, Reset, w.clock)| <= ResetLive(resetTokensLive)
    {
      CappedAt(w.db.tokens, w.clock, cap, id, Invite);
      CappedAt(w.db.tokens, w.clock, cap, id, Reset);
    }
  }
}
