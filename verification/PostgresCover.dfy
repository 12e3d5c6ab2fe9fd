/** The last-privileged guard under concurrency. A guarded removal locks the rows its scan found, so an account that
    joins the privileged pool later is outside its lock set. That harms only where the removal may still write to the
    account: a removal judged on a role outside the privileged set misses an account that joined. As long as no account
    joins the pool while any other removal aimed at that very account is between its scan and its write, no
    interleaving commits a state with no enabled privileged account. */
module PostgresCover {
  import opened Basics
  import opened Accounts
  import opened Postgres
  import opened PostgresTokens
  import opened PostgresCommits

  // The privileged pool

  /** The rows the guard's scan names: every account under a privileged role, disabled ones included. */
  predicate InPool(users: map<Id, User>, id: Id, p: Roles) {
    id in users && users[id].role in p
  }

  predicate Covers(users: map<Id, User>, id: Id, p: Roles) {
    InPool(users, id, p) && !users[id].disabled
  }

  ghost predicate HasCover(users: map<Id, User>, p: Roles) {
    exists id :: Covers(users, id, p)
  }

  ghost predicate CoveredBeside(users: map<Id, User>, who: Id, p: Roles) {
    exists id :: id != who && Covers(users, id, p)
  }

  /** The account does not cover, or another one does. */
  ghost predicate SafeWithout(users: map<Id, User>, who: Id, p: Roles) {
    Covers(users, who, p) ==> CoveredBeside(users, who, p)
  }

  // The runs

  /** The operations under the guard's one privileged set: guarded writes, promotions among them, enables, and every
      token operation but the sweep. */
  predicate Steady(op: Op, p: Roles) {
    && (op.Guarded? ==> op.privileged == p)
    && (op.Disable? ==> !op.disabled)
    && !op.Sweep?
  }

  /** A guarded write that takes cover away. */
  predicate Removal(tx: Transaction) {
    tx.op.Guarded? && Removes(tx.op)
  }

  /** Where a removal stands between its scan's snapshot and its write: locking the rows it found, about to read its
      account, or about to write it. */
  datatype Stage = Scanning | Judging | Writing

  function StageOf(pc: Pc): Option<Stage> {
    match pc
    case Scan(_) => Some(Scanning)
    case Privilege => Some(Judging)
    case Apply => Some(Writing)
    case _ => None
  }

  /** How an account comes into the pool: by a role write, or as a new account. */
  datatype Way = ByRole(role: Role) | ByCreation

  /** An account's coming into the pool while a removal aimed at it is at a stage. */
  datatype Join = Join(op: Op, stage: Stage, way: Way)

  /** Whether the removal may still write to the account that joined: it was judged on no role, or on a privileged one,
      which it found on an account that is there. */
  predicate Harmful(p: Roles, join: Join) {
    && join.op.Guarded? && join.op.privileged == p && Removes(join.op)
    && (join.op.held.Some? ==> join.op.held.value in p && join.way.ByRole?)
    && (join.way.ByRole? ==> join.way.role in p)
  }

  ghost function Harmless(p: Roles): iset<Join> {
    iset join | !Harmful(p, join)
  }

  ghost predicate AimedAt(w: World, op: Op, stage: Stage) {
    exists t :: t in w.txs && Removal(w.txs[t]) && w.txs[t].op == op && StageOf(w.txs[t].pc) == Some(stage)
  }

  ghost predicate JoinsPool(w: World, e: Event, p: Roles, id: Id)
    requires May(w, e)
  {
    !InPool(w.db.users, id, p) && InPool(Next(w, e).db.users, id, p)
  }

  ghost function WayIn(w: World, e: Event, id: Id): Way
    requires May(w, e) && id in Next(w, e).db.users
  {
    if e.AddUser? then ByCreation else ByRole(Next(w, e).db.users[id].role)
  }

  ghost predicate JoinsLate(w: World, e: Event, p: Roles, join: Join)
    requires May(w, e)
  {
    && join.op.Guarded? && JoinsPool(w, e, p, join.op.id)
    && AimedAt(w, join.op, join.stage) && join.way == WayIn(w, e, join.op.id)
  }

  /** Every late join of an event is one of these. */
  ghost predicate LateOnly(w: World, e: Event, p: Roles, late: iset<Join>)
    requires May(w, e)
  {
    forall join :: JoinsLate(w, e, p, join) ==> join in late
  }

  predicate SteadyEvent(e: Event, p: Roles) {
    e.Begin? ==> Steady(e.op, p)
  }

  /** A run of operations under one privileged set, whose late joins are all among these. */
  ghost predicate SteadyRun(w: World, run: seq<Event>, p: Roles, late: iset<Join>)
    requires Possible(w, run)
    decreases run
  {
    run != [] ==>
      SteadyEvent(run[0], p) && LateOnly(w, run[0], p, late) && SteadyRun(Next(w, run[0]), run[1..], p, late)
  }

  // What the guard relies on

  predicate PastSnapshot(pc: Pc) {
    pc.Scan? || pc.Privilege? || pc.Cover? || pc.Apply? || pc.Clear? || pc.Clearing? || pc.Commit?
  }

  /** The transaction holds the account, or found it and has yet to lock it. */
  predicate Reserves(tx: Transaction, id: Id) {
    id in tx.held || (tx.pc.Scan? && id in tx.pc.rows)
  }

  /** The removals that late joins may not be aimed at: all of them, or those that may still write to who joined. */
  predicate Watched(tx: Transaction, p: Roles, all: bool) {
    Removal(tx) && (!all && tx.op.held.Some? ==> tx.op.held.value in p)
  }

  /** The late joins that a run may make: none, or the harmless ones. */
  ghost function Allowed(p: Roles, all: bool): iset<Join> {
    if all then iset{} else Harmless(p)
  }

  /** A guarded write past the check of its held role found its account, which no operation here takes away. */
  predicate Found(users: map<Id, User>, tx: Transaction) {
    tx.op.Guarded? && tx.op.held.Some? && !tx.pc.Check? && !tx.pc.Ended? ==> tx.who in users
  }

  /** What holds of a removal: past its snapshot it reserves its own account while that is in the pool, it counts the
      cover of an account it holds and that covers, and it writes only where another account covers. */
  ghost predicate GuardOk(users: map<Id, User>, tx: Transaction, p: Roles, all: bool) {
    && Found(users, tx)
    && (Watched(tx, p, all) ==>
          && (PastSnapshot(tx.pc) && InPool(users, tx.who, p) ==> Reserves(tx, tx.who))
          && (tx.pc.Cover? || tx.pc.Recheck? ==> tx.who in tx.held && Covers(users, tx.who, p))
          && (tx.pc.Apply? || tx.pc.Clear? || tx.pc.Clearing? || tx.pc.Commit? ==> SafeWithout(users, tx.who, p)))
  }

  /** Of two removals past their snapshots, both aimed into the pool, one reserves the other's account. */
  predicate InTurn(users: map<Id, User>, a: Transaction, b: Transaction, p: Roles, all: bool) {
    Watched(a, p, all) && Watched(b, p, all) && PastSnapshot(a.pc) && PastSnapshot(b.pc) &&
    InPool(users, a.who, p) && InPool(users, b.who, p) ==>
      Reserves(a, b.who) || Reserves(b, a.who)
  }

  ghost predicate CoverInv(w: World, p: Roles, all: bool) {
    && HasCover(w.db.users, p)
    && (forall t :: t in w.txs ==> Steady(w.txs[t].op, p) && GuardOk(w.db.users, w.txs[t], p, all))
    && (forall t, u :: t in w.txs && u in w.txs && t != u ==> InTurn(w.db.users, w.txs[t], w.txs[u], p, all))
  }

  // A transaction's own statements

  /** A statement past the snapshot keeps the pool's reserved rows reserved, and the snapshot reserves the whole
      pool. */
  ghost predicate Advances(users: map<Id, User>, tx: Transaction, ran: Transaction, p: Roles) {
    && ran.op == tx.op && ran.who == tx.who
    && (Removal(tx) && PastSnapshot(ran.pc) ==>
          forall id :: InPool(users, id, p) && (PastSnapshot(tx.pc) ==> Reserves(tx, id)) ==> Reserves(ran, id))
  }

  lemma ScanAdvances(db: Tables, clock: Time, tx: Transaction, p: Roles)
    requires Removal(tx) && tx.op.privileged == p && tx.pc.ScanStart?
    ensures Advances(db.users, tx, Ran(db, clock, tx), p)
  {
  }

  lemma RanAdvances(db: Tables, clock: Time, tx: Transaction, p: Roles)
    requires TxOk(db, clock, tx) && Ready(tx) && Removal(tx) && tx.op.privileged == p && p != []
    requires tx.pc.Scan? ==> tx.pc.rows == {}
    ensures Advances(db.users, tx, Ran(db, clock, tx), p)
  {
    if tx.pc.ScanStart? {
      ScanAdvances(db, clock, tx, p);
    }
  }

  lemma ReadsGuardOk(db: Tables, clock: Time, tx: Transaction, p: Roles, all: bool)
    requires Removal(tx) && tx.op.privileged == p && GuardOk(db.users, tx, p, all) && (tx.pc.Privilege? || tx.pc.Cover?)
    ensures GuardOk(db.users, Ran(db, clock, tx), p, all)
  {
    if tx.pc.Cover? && Ran(db, clock, tx).pc.Apply? {
      var id :| id in db.users && id != tx.who && !db.users[id].disabled && db.users[id].role in tx.op.privileged;
      assert Covers(db.users, id, p);
    }
  }

  lemma RanGuardOk(db: Tables, clock: Time, tx: Transaction, p: Roles, all: bool)
    requires TxOk(db, clock, tx) && Ready(tx) && Steady(tx.op, p) && p != [] && GuardOk(db.users, tx, p, all)
    requires tx.pc.Scan? ==> tx.pc.rows == {}
    ensures GuardOk(db.users, Ran(db, clock, tx), p, all)
  {
    SameOp(db, clock, tx);
    if Removal(tx) {
      RanAdvances(db, clock, tx, p);
      if tx.pc.Privilege? || tx.pc.Cover? {
        ReadsGuardOk(db, clock, tx, p, all);
      }
    }
  }

  lemma TookUserAdvances(db: Tables, tx: Transaction, row: Id, p: Roles)
    requires tx.pc.Scan? && Steady(tx.op, p)
    ensures Advances(db.users, tx, TookUser(db, tx, row), p)
  {
  }

  /** A statement keeps the order of removals. */
  lemma AdvancesInTurn(users: map<Id, User>, tx: Transaction, ran: Transaction, other: Transaction, p: Roles, all: bool)
    requires Advances(users, tx, ran, p) && InTurn(users, tx, other, p, all)
    ensures InTurn(users, ran, other, p, all) && InTurn(users, other, ran, p, all)
  {
  }

  lemma RecordKeepsCover(w: World, t: nat, tx: Transaction, p: Roles, all: bool)
    requires CoverInv(w, p, all) && t in w.txs && GuardOk(w.db.users, tx, p, all)
    requires Advances(w.db.users, w.txs[t], tx, p)
    ensures CoverInv(w.(txs := w.txs[t := tx]), p, all)
  {
    forall u | u in w.txs && u != t
      ensures InTurn(w.db.users, tx, w.txs[u], p, all) && InTurn(w.db.users, w.txs[u], tx, p, all)
    {
      AdvancesInTurn(w.db.users, w.txs[t], tx, w.txs[u], p, all);
    }
  }

  lemma StatementKeepsCover(w: World, t: nat, p: Roles, all: bool)
    requires Inv(w) && May(w, Do(t)) && !w.txs[t].pc.Commit? && CoverInv(w, p, all) && p != []
    ensures CoverInv(Next(w, Do(t)), p, all)
  {
    var tx := w.txs[t];
    SameOp(w.db, w.clock, tx);
    RanGuardOk(w.db, w.clock, tx, p, all);
    if Removal(tx) {
      RanAdvances(w.db, w.clock, tx, p);
      RecordKeepsCover(w, t, Ran(w.db, w.clock, tx), p, all);
    } else {
      OtherKeepsCover(w, t, Ran(w.db, w.clock, tx), p, all);
    }
  }

  /** A transaction that removes no cover is free as far as the guard goes. */
  lemma OtherKeepsCover(w: World, t: nat, tx: Transaction, p: Roles, all: bool)
    requires CoverInv(w, p, all) && Steady(tx.op, p) && !Removal(tx) && Found(w.db.users, tx)
    ensures CoverInv(w.(txs := w.txs[t := tx]), p, all)
  {
  }

  lemma BeginKeepsCover(w: World, t: nat, op: Op, p: Roles, all: bool)
    requires CoverInv(w, p, all) && May(w, Begin(t, op)) && Steady(op, p) && p != []
    ensures CoverInv(Next(w, Begin(t, op)), p, all)
  {
  }

  lemma TakeKeepsCover(w: World, e: Event, p: Roles, all: bool)
    requires May(w, e) && CoverInv(w, p, all) && (e.TakeUser? || e.TakeToken? || e.Abort?)
    ensures CoverInv(Next(w, e), p, all)
  {
    if e.TakeUser? {
      TookUserAdvances(w.db, w.txs[e.tx], e.row, p);
    }
    RecordKeepsCover(w, e.tx, Next(w, e).txs[e.tx], p, all);
  }

  // Other transactions' commits

  /** A removal that an account's coming into the pool would find between its scan and its write. */
  predicate Late(users: map<Id, User>, after: map<Id, User>, tx: Transaction, p: Roles, all: bool) {
    !InPool(users, tx.who, p) && InPool(after, tx.who, p) && Watched(tx, p, all) && StageOf(tx.pc).Some?
  }

  /** Rows change, none that the transaction holds, and its own account does not join the pool too late. */
  ghost predicate Bystands(users: map<Id, User>, after: map<Id, User>, tx: Transaction, p: Roles, all: bool) {
    && users.Keys <= after.Keys
    && (forall id :: id in tx.held ==> id in users && after[id] == users[id])
    && !Late(users, after, tx, p, all)
  }

  lemma PoolSince(db: Tables, after: map<Id, User>, clock: Time, tx: Transaction, p: Roles, all: bool)
    requires TxOk(db, clock, tx) && GuardOk(db.users, tx, p, all) && Bystands(db.users, after, tx, p, all)
    requires Watched(tx, p, all) && PastSnapshot(tx.pc) && InPool(after, tx.who, p)
    ensures InPool(db.users, tx.who, p) && (!tx.pc.Scan? ==> tx.who in tx.held && after[tx.who] == db.users[tx.who])
  {
  }

  lemma BystanderInTurn(
      db: Tables, after: map<Id, User>, clock: Time, a: Transaction, b: Transaction, p: Roles, all: bool)
    requires TxOk(db, clock, a) && GuardOk(db.users, a, p, all) && Bystands(db.users, after, a, p, all)
    requires TxOk(db, clock, b) && GuardOk(db.users, b, p, all) && Bystands(db.users, after, b, p, all)
    requires InTurn(db.users, a, b, p, all)
    ensures InTurn(after, a, b, p, all)
  {
    if Watched(a, p, all) && Watched(b, p, all) && PastSnapshot(a.pc) && PastSnapshot(b.pc) &&
       InPool(after, a.who, p) && InPool(after, b.who, p) {
      PoolSince(db, after, clock, a, p, all);
      PoolSince(db, after, clock, b, p, all);
    }
  }

  /** What a removal relies on stays, where the cover it counted does. */
  lemma BystanderGuardOk(db: Tables, after: map<Id, User>, clock: Time, tx: Transaction, p: Roles, all: bool)
    requires TxOk(db, clock, tx) && GuardOk(db.users, tx, p, all) && Bystands(db.users, after, tx, p, all)
    requires (Watched(tx, p, all) && !tx.pc.Scan? && PastSnapshot(tx.pc) && Covers(after, tx.who, p) &&
              CoveredBeside(db.users, tx.who, p)) ==> CoveredBeside(after, tx.who, p)
    ensures GuardOk(after, tx, p, all)
  {
    if Watched(tx, p, all) && PastSnapshot(tx.pc) && InPool(after, tx.who, p) {
      PoolSince(db, after, clock, tx, p, all);
    }
  }

  /** Only a removal takes an account's cover away, and none that was judged on a role outside the privileged set. */
  lemma CommitCoverage(db: Tables, clock: Time, tx: Transaction, p: Roles, id: Id)
    requires TxOk(db, clock, tx) && tx.pc.Commit? && Steady(tx.op, p)
    requires Covers(db.users, id, p) && !Covers(Committed(db, tx).users, id, p)
    ensures Watched(tx, p, false) && id == tx.who && id in tx.held
  {
  }

  lemma CommitCovers(db: Tables, clock: Time, tx: Transaction, p: Roles, all: bool)
    requires TxOk(db, clock, tx) && tx.pc.Commit? && Steady(tx.op, p)
    requires HasCover(db.users, p) && GuardOk(db.users, tx, p, all)
    ensures HasCover(Committed(db, tx).users, p)
  {
    var after := Committed(db, tx).users;
    var id :| Covers(db.users, id, p);
    if !Covers(after, id, p) {
      CommitCoverage(db, clock, tx, p, id);
      var other :| other != tx.who && Covers(db.users, other, p);
      if !Covers(after, other, p) {
        CommitCoverage(db, clock, tx, p, other);
      }
      assert Covers(after, other, p);
    }
  }

  /** The account that another removal takes out of the pool was not the cover that a removal counted: of the two, one
      would hold the other's account. */
  lemma CommitKeepsCounted(db: Tables, clock: Time, tx: Transaction, other: Transaction, p: Roles, all: bool)
    requires TxOk(db, clock, tx) && tx.pc.Commit? && Steady(tx.op, p) && GuardOk(db.users, tx, p, all)
    requires TxOk(db, clock, other) && GuardOk(db.users, other, p, all) && Apart(tx, other)
    requires InTurn(db.users, tx, other, p, all)
    requires Watched(other, p, all) && !other.pc.Scan? && PastSnapshot(other.pc)
    requires InPool(db.users, other.who, p) && CoveredBeside(db.users, other.who, p)
    ensures CoveredBeside(Committed(db, tx).users, other.who, p)
  {
    var id :| id != other.who && Covers(db.users, id, p);
    if !Covers(Committed(db, tx).users, id, p) {
      CommitCoverage(db, clock, tx, p, id);
      assert false;
    }
  }

  lemma CommitKeepsGuard(db: Tables, clock: Time, tx: Transaction, other: Transaction, p: Roles, all: bool)
    requires TxOk(db, clock, tx) && tx.pc.Commit? && Steady(tx.op, p) && GuardOk(db.users, tx, p, all)
    requires TxOk(db, clock, other) && GuardOk(db.users, other, p, all) && Apart(tx, other)
    requires InTurn(db.users, tx, other, p, all)
    requires Bystands(db.users, Committed(db, tx).users, other, p, all)
    ensures GuardOk(Committed(db, tx).users, other, p, all)
  {
    var after := Committed(db, tx).users;
    if Watched(other, p, all) && !other.pc.Scan? && PastSnapshot(other.pc) && Covers(after, other.who, p) &&
       CoveredBeside(db.users, other.who, p) {
      PoolSince(db, after, clock, other, p, all);
      CommitKeepsCounted(db, clock, tx, other, p, all);
    }
    BystanderGuardOk(db, after, clock, other, p, all);
  }

  /** What an event's bringing a watched removal's account into the pool is as a late join. */
  lemma LateJoin(w: World, e: Event, u: nat, p: Roles, all: bool)
    requires May(w, e) && u in w.txs
    requires TxOk(w.db, w.clock, w.txs[u]) && Steady(w.txs[u].op, p) && Found(w.db.users, w.txs[u])
    requires Late(w.db.users, Next(w, e).db.users, w.txs[u], p, all)
    ensures var op := w.txs[u].op;
            var join := Join(op, StageOf(w.txs[u].pc).value, WayIn(w, e, op.id));
            JoinsLate(w, e, p, join) && join !in Allowed(p, all)
  {
    assert AimedAt(w, w.txs[u].op, StageOf(w.txs[u].pc).value);
  }

  /** An event whose late joins are all allowed brings no watched removal's account into the pool. */
  lemma NoneLate(w: World, e: Event, u: nat, p: Roles, all: bool)
    requires May(w, e) && LateOnly(w, e, p, Allowed(p, all)) && u in w.txs
    requires TxOk(w.db, w.clock, w.txs[u]) && Steady(w.txs[u].op, p) && Found(w.db.users, w.txs[u])
    ensures !Late(w.db.users, Next(w, e).db.users, w.txs[u], p, all)
  {
    if Late(w.db.users, Next(w, e).db.users, w.txs[u], p, all) {
      LateJoin(w, e, u, p, all);
      assert false;
    }
  }

  lemma CommitBystands(w: World, t: nat, u: nat, p: Roles, all: bool)
    requires Inv(w) && May(w, Do(t)) && w.txs[t].pc.Commit? && CoverInv(w, p, all)
    requires LateOnly(w, Do(t), p, Allowed(p, all)) && u in w.txs && u != t
    ensures Bystands(w.db.users, Committed(w.db, w.txs[t]).users, w.txs[u], p, all)
  {
    NoneLate(w, Do(t), u, p, all);
    assert Apart(w.txs[t], w.txs[u]) && TxOk(w.db, w.clock, w.txs[u]) && TxOk(w.db, w.clock, w.txs[t]);
  }

  lemma CommitKeepsOthersGuard(w: World, t: nat, u: nat, p: Roles, all: bool)
    requires Inv(w) && May(w, Do(t)) && w.txs[t].pc.Commit? && CoverInv(w, p, all) && u in w.txs && u != t
    requires LateOnly(w, Do(t), p, Allowed(p, all))
    ensures GuardOk(Committed(w.db, w.txs[t]).users, w.txs[u], p, all)
  {
    CommitBystands(w, t, u, p, all);
    assert Apart(w.txs[t], w.txs[u]);
    CommitKeepsGuard(w.db, w.clock, w.txs[t], w.txs[u], p, all);
  }

  lemma CommitKeepsTurns(w: World, t: nat, u: nat, v: nat, p: Roles, all: bool)
    requires Inv(w) && May(w, Do(t)) && w.txs[t].pc.Commit? && CoverInv(w, p, all)
    requires LateOnly(w, Do(t), p, Allowed(p, all))
    requires u in w.txs && v in w.txs && u != t && v != t && u != v
    ensures InTurn(Committed(w.db, w.txs[t]).users, w.txs[u], w.txs[v], p, all)
  {
    CommitBystands(w, t, u, p, all);
    CommitBystands(w, t, v, p, all);
    BystanderInTurn(w.db, Committed(w.db, w.txs[t]).users, w.clock, w.txs[u], w.txs[v], p, all);
  }

  lemma CommittedCovers(w: World, t: nat, db: Tables, log: seq<Op>, p: Roles, all: bool)
    requires t in w.txs && HasCover(db.users, p)
    requires forall u :: u in w.txs ==> Steady(w.txs[u].op, p)
    requires forall u :: u in w.txs && u != t ==> GuardOk(db.users, w.txs[u], p, all)
    requires forall u, v :: u in w.txs && v in w.txs && u != t && v != t && u != v ==>
               InTurn(db.users, w.txs[u], w.txs[v], p, all)
    ensures CoverInv(Closed(w, t, db, log), p, all)
  {
  }

  lemma CommitKeepsCover(w: World, t: nat, p: Roles, all: bool)
    requires Inv(w) && May(w, Do(t)) && w.txs[t].pc.Commit? && CoverInv(w, p, all)
    requires LateOnly(w, Do(t), p, Allowed(p, all))
    ensures CoverInv(Next(w, Do(t)), p, all)
  {
    var db := Committed(w.db, w.txs[t]);
    assert HasCover(db.users, p) by {
      CommitCovers(w.db, w.clock, w.txs[t], p, all);
    }
    forall u | u in w.txs && u != t ensures GuardOk(db.users, w.txs[u], p, all) {
      CommitKeepsOthersGuard(w, t, u, p, all);
    }
    forall u, v | u in w.txs && v in w.txs && u != t && v != t && u != v
      ensures InTurn(db.users, w.txs[u], w.txs[v], p, all)
    {
      CommitKeepsTurns(w, t, u, v, p, all);
    }
    CommittedCovers(w, t, db, w.log + [w.txs[t].op], p, all);
  }

  lemma NewcomerBystands(w: World, id: Id, user: User, u: nat, p: Roles, all: bool)
    requires Inv(w) && CoverInv(w, p, all) && May(w, AddUser(id, user))
    requires LateOnly(w, AddUser(id, user), p, Allowed(p, all)) && u in w.txs
    ensures Bystands(w.db.users, w.db.users[id := user], w.txs[u], p, all)
  {
    NoneLate(w, AddUser(id, user), u, p, all);
    assert TxOk(w.db, w.clock, w.txs[u]);
  }

  lemma NewcomerKeepsCovered(users: map<Id, User>, id: Id, user: User, who: Id, p: Roles)
    requires id !in users && CoveredBeside(users, who, p)
    ensures CoveredBeside(users[id := user], who, p)
  {
    var other :| other != who && Covers(users, other, p);
    assert Covers(users[id := user], other, p);
  }

  lemma AddUserKeepsCover(w: World, id: Id, user: User, p: Roles, all: bool)
    requires Inv(w) && May(w, AddUser(id, user)) && CoverInv(w, p, all)
    requires LateOnly(w, AddUser(id, user), p, Allowed(p, all))
    ensures CoverInv(Next(w, AddUser(id, user)), p, all)
  {
    var after := w.db.users[id := user];
    var other :| Covers(w.db.users, other, p);
    assert Covers(after, other, p);
    forall t | t in w.txs ensures GuardOk(after, w.txs[t], p, all) {
      NewcomerBystands(w, id, user, t, p, all);
      if CoveredBeside(w.db.users, w.txs[t].who, p) {
        NewcomerKeepsCovered(w.db.users, id, user, w.txs[t].who, p);
      }
      BystanderGuardOk(w.db, after, w.clock, w.txs[t], p, all);
    }
    forall t, u | t in w.txs && u in w.txs && t != u ensures InTurn(after, w.txs[t], w.txs[u], p, all) {
      NewcomerBystands(w, id, user, t, p, all);
      NewcomerBystands(w, id, user, u, p, all);
      BystanderInTurn(w.db, after, w.clock, w.txs[t], w.txs[u], p, all);
    }
  }

  // Every run

  lemma EventKeepsCover(w: World, e: Event, p: Roles, all: bool)
    requires Inv(w) && May(w, e) && CoverInv(w, p, all) && SteadyEvent(e, p) && LateOnly(w, e, p, Allowed(p, all))
    requires p != []
    ensures CoverInv(Next(w, e), p, all)
  {
    match e
    case Begin(t, op) => BeginKeepsCover(w, t, op, p, all);
    case Do(t) =>
      if w.txs[t].pc.Commit? {
        CommitKeepsCover(w, t, p, all);
      } else {
        StatementKeepsCover(w, t, p, all);
      }
    case AddUser(id, user) => AddUserKeepsCover(w, id, user, p, all);
    case Tick(now) =>
    case _ => TakeKeepsCover(w, e, p, all);
  }

  lemma {:induction false} RunKeepsCover(w: World, run: seq<Event>, p: Roles, all: bool)
    requires Inv(w) && Possible(w, run) && CoverInv(w, p, all) && SteadyRun(w, run, p, Allowed(p, all)) && p != []
    ensures CoverInv(After(w, run), p, all)
    decreases run
  {
    if run != [] {
      EventKeepsInv(w, run[0]);
      EventKeepsCover(w, run[0], p, all);
      RunKeepsCover(Next(w, run[0]), run[1..], p, all);
    }
  }

  /** With promotions and new privileged accounts at any moment, as long as none of them is of an account that a removal
      which may still write to it is between scanning for and writing to, no interleaving loses the last cover. */
  lemma CoverStays(db: Tables, clock: Time, run: seq<Event>, p: Roles)
    requires Sound(db) && HasCover(db.users, p)
    requires Possible(AtRest(db, clock), run) && SteadyRun(AtRest(db, clock), run, p, Harmless(p))
    ensures HasCover(After(AtRest(db, clock), run).db.users, p)
  {
    var id :| Covers(db.users, id, p);
    RunKeepsCover(AtRest(db, clock), run, p, false);
  }

  lemma GuardedStep(db: Tables, clock: Time, tx: Transaction, p: Roles)
    requires TxOk(db, clock, tx) && tx.pc.Commit? && tx.op.Guarded?
    requires Steady(tx.op, p) && GuardOk(db.users, tx, p, false) && "" !in p
    ensures Atomic(AsDb(db), tx.op, clock, p) == Outcome(Done, AsDb(Committed(db, tx)))
  {
    WriteIsAtomic(db, clock, tx);
    if Removal(tx) && Covers(db.users, tx.who, p) {
      var other :| other != tx.who && Covers(db.users, other, p);
      assert PrivilegedAccount(db.users[other], p);
      assert !Uncovers(AsDb(db), tx.who, p);
    }
  }

  /** In such runs each guarded commit is one step of the guarded contract, the guard's answer included. */
  lemma GuardedCommitIsAtomic(db: Tables, clock: Time, run: seq<Event>, p: Roles, t: nat)
    requires Sound(db) && HasCover(db.users, p) && "" !in p
    requires Possible(AtRest(db, clock), run) && SteadyRun(AtRest(db, clock), run, p, Harmless(p))
    requires var w := After(AtRest(db, clock), run); May(w, Do(t)) && Commits(w, Do(t)) && w.txs[t].op.Guarded?
    ensures var w := After(AtRest(db, clock), run);
            Atomic(AsDb(w.db), w.txs[t].op, w.clock, p) == Outcome(Done, AsDb(Next(w, Do(t)).db))
  {
    var id :| Covers(db.users, id, p);
    RunKeepsInv(AtRest(db, clock), run);
    RunKeepsCover(AtRest(db, clock), run, p, false);
    var w := After(AtRest(db, clock), run);
    GuardedStep(w.db, w.clock, w.txs[t], p);
  }

  // Runs in which no account joins the pool

  /** A removal past its snapshot reserves the whole pool. */
  ghost predicate PoolReserved(users: map<Id, User>, tx: Transaction, p: Roles) {
    Removal(tx) && PastSnapshot(tx.pc) ==> forall id :: InPool(users, id, p) ==> Reserves(tx, id)
  }

  ghost predicate PoolInv(w: World, p: Roles) {
    forall t :: t in w.txs ==> Steady(w.txs[t].op, p) && PoolReserved(w.db.users, w.txs[t], p)
  }

  /** Whether no event of a run brings an account into the pool. */
  ghost predicate PoolOnlyShrinks(w: World, run: seq<Event>, p: Roles)
    requires Possible(w, run)
    decreases run
  {
    run != [] ==> (forall id :: !JoinsPool(w, run[0], p, id)) && PoolOnlyShrinks(Next(w, run[0]), run[1..], p)
  }

  lemma ShrinkingKeepsPool(w: World, e: Event, p: Roles, u: nat)
    requires May(w, e) && PoolInv(w, p) && (forall id :: !JoinsPool(w, e, p, id)) && u in w.txs
    ensures PoolReserved(Next(w, e).db.users, w.txs[u], p)
  {
    forall id | InPool(Next(w, e).db.users, id, p) ensures InPool(w.db.users, id, p) {
      assert !JoinsPool(w, e, p, id);
    }
  }

  lemma StepKeepsPool(w: World, e: Event, p: Roles)
    requires Inv(w) && May(w, e) && PoolInv(w, p) && SteadyEvent(e, p) && p != []
    requires !Commits(w, e) && !e.AddUser? && !e.Begin? && !e.Tick?
    ensures PoolInv(Next(w, e), p)
  {
    var tx := w.txs[e.tx];
    if e.Do? {
      SameOp(w.db, w.clock, tx);
      if Removal(tx) {
        RanAdvances(w.db, w.clock, tx, p);
      }
    } else if e.TakeUser? {
      TookUserAdvances(w.db, tx, e.row, p);
    }
  }

  lemma ChangeKeepsPool(w: World, e: Event, p: Roles)
    requires Inv(w) && May(w, e) && PoolInv(w, p) && (Commits(w, e) || e.AddUser?)
    requires forall id :: !JoinsPool(w, e, p, id)
    ensures PoolInv(Next(w, e), p)
  {
    forall u | u in w.txs ensures PoolReserved(Next(w, e).db.users, w.txs[u], p) {
      ShrinkingKeepsPool(w, e, p, u);
    }
  }

  lemma EventKeepsPool(w: World, e: Event, p: Roles)
    requires Inv(w) && May(w, e) && PoolInv(w, p) && SteadyEvent(e, p) && p != []
    requires forall id :: !JoinsPool(w, e, p, id)
    ensures PoolInv(Next(w, e), p)
  {
    if Commits(w, e) || e.AddUser? {
      ChangeKeepsPool(w, e, p);
    } else if !e.Begin? && !e.Tick? {
      StepKeepsPool(w, e, p);
    }
  }

  lemma {:induction false} RunKeepsPool(w: World, run: seq<Event>, p: Roles, late: iset<Join>)
    requires Inv(w) && Possible(w, run) && PoolInv(w, p) && p != []
    requires SteadyRun(w, run, p, late) && PoolOnlyShrinks(w, run, p)
    ensures PoolInv(After(w, run), p)
    decreases run
  {
    if run != [] {
      EventKeepsInv(w, run[0]);
      EventKeepsPool(w, run[0], p);
      RunKeepsPool(Next(w, run[0]), run[1..], p, late);
    }
  }

  /** Where no account joins the pool, a removal past its lock scan holds every privileged row. */
  lemma PoolStaysHeld(db: Tables, clock: Time, run: seq<Event>, p: Roles, t: nat)
    requires Sound(db) && p != [] && Possible(AtRest(db, clock), run)
    requires SteadyRun(AtRest(db, clock), run, p, iset{}) && PoolOnlyShrinks(AtRest(db, clock), run, p)
    requires var w := After(AtRest(db, clock), run);
             t in w.txs && Removal(w.txs[t]) && PastSnapshot(w.txs[t].pc) && !w.txs[t].pc.Scan?
    ensures var w := After(AtRest(db, clock), run);
            forall id :: InPool(w.db.users, id, p) ==> id in w.txs[t].held
  {
    RunKeepsPool(AtRest(db, clock), run, p, iset{});
  }
}
