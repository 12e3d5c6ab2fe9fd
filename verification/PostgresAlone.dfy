/** What PostgreSQL transactions come to. In every run no statement fails, and a transaction that runs alone has a way
    to its end and ends by answering and leaving what the contract does. */
module PostgresAlone {
  import opened Basics
  import opened Accounts
  import opened Postgres
  import opened PostgresTokens
  import opened PostgresCommits
  import opened PostgresCover
  import opened PostgresAnswers
  import Sweep = PostgresSweep

  // No statement fails

  lemma StatementSucceeds(db: Tables, clock: Time, tx: Transaction)
    requires TxOk(db, clock, tx) && Ready(tx) && Issuing(tx) !! db.tokens.Keys
    ensures Ran(db, clock, tx).pc != Ended(Failed)
  {
  }

  /** In every run a transaction ends in a failure only when it is aborted. */
  lemma NoStatementFails(db: Tables, clock: Time, run: seq<Event>, t: nat)
    requires Sound(db) && Possible(AtRest(db, clock), run) && May(After(AtRest(db, clock), run), Do(t))
    ensures Next(After(AtRest(db, clock), run), Do(t)).txs[t].pc != Ended(Failed)
  {
    RunKeepsInv(AtRest(db, clock), run);
    var w := After(AtRest(db, clock), run);
    if !w.txs[t].pc.Commit? {
      StatementSucceeds(w.db, w.clock, w.txs[t]);
    }
  }

  // A transaction alone

  /** The one transaction of a run. */
  const SOLE: nat := 0

  /** An event of the one transaction, which no abort ends. */
  predicate Own(e: Event) {
    e == Do(SOLE) || (e.TakeUser? && e.tx == SOLE) || (e.TakeToken? && e.tx == SOLE)
  }

  predicate OwnRun(run: seq<Event>) {
    forall i :: 0 <= i < |run| ==> Own(run[i])
  }

  ghost function Contract(db: Tables, clock: Time, op: Op): Outcome {
    Atomic(AsDb(db), op, clock, GuardOf(op))
  }

  /** The transaction ended by answering and leaving what the contract does, a success being its commit. */
  ghost predicate EndsAs(w: World, contract: Outcome) {
    && SOLE in w.txs && AsDb(w.db) == contract.db
    && w.txs[SOLE].pc ==
       Ended(if Succeeds(contract.answer) || contract.answer.Counted? then Done else contract.answer)
  }

  /** What a guarded write knows between its statements when no row changes. */
  ghost predicate GuardKnows(users: map<Id, User>, tx: Transaction)
    requires tx.op.Guarded?
  {
    && (tx.pc.Missed? ==>
          tx.op.held.Some? && !(tx.who in users && users[tx.who].role == tx.op.held.value))
    && (tx.pc.Cover? ==> Covers(users, tx.who, tx.op.privileged))
    && (tx.pc.Recheck? ==> !SafeWithout(users, tx.who, tx.op.privileged))
    && (Removal(tx) && (tx.pc.Apply? || tx.pc.Clear? || tx.pc.Clearing? || tx.pc.Commit?) ==>
          SafeWithout(users, tx.who, tx.op.privileged))
  }

  /** What a transaction knows between its statements when no row changes. */
  ghost predicate Knows(db: Tables, tx: Transaction) {
    && (Redeems(tx.op) && tx.pc.Hold? ==> Enabled(db.users, tx.who))
    && (tx.op.Guarded? ==> GuardKnows(db.users, tx))
    && (tx.op.Sweep? ==> Sweep.SweepingAlone(db, tx.op.now, tx))
  }

  /** A world of the one transaction: it ended as the contract says, or no row changed yet. */
  ghost predicate Alone(db: Tables, clock: Time, op: Op, w: World) {
    && Inv(w) && w.clock == clock && w.txs.Keys == {SOLE} && w.txs[SOLE].op == op
    && if w.txs[SOLE].pc.Ended? then EndsAs(w, Contract(db, clock, op))
       else w.db == db && Knows(db, w.txs[SOLE])
  }

  lemma GuardLearns(db: Tables, clock: Time, tx: Transaction)
    requires tx.op.Guarded? && Ready(tx) && TxOk(db, clock, tx) && GuardKnows(db.users, tx)
    requires tx.pc.Privilege? || tx.pc.Cover?
    ensures GuardKnows(db.users, Ran(db, clock, tx))
  {
    if id :| id != tx.who && Covers(db.users, id, tx.op.privileged) {
      assert id in db.users && !db.users[id].disabled && db.users[id].role in tx.op.privileged;
    } else if id :|
        id in db.users && id != tx.who && !db.users[id].disabled && db.users[id].role in tx.op.privileged {
      assert Covers(db.users, id, tx.op.privileged);
    }
  }

  lemma GuardedLearns(db: Tables, clock: Time, tx: Transaction)
    requires tx.op.Guarded? && Ready(tx) && TxOk(db, clock, tx) && GuardKnows(db.users, tx)
    ensures Ran(db, clock, tx).op == tx.op && GuardKnows(db.users, Ran(db, clock, tx))
  {
    if tx.pc.Privilege? || tx.pc.Cover? {
      GuardLearns(db, clock, tx);
    }
  }

  lemma Learns(db: Tables, clock: Time, tx: Transaction)
    requires Sound(db) && Ready(tx) && TxOk(db, clock, tx) && Knows(db, tx) && (tx.pc.Scan? ==> tx.pc.rows == {})
    ensures Knows(db, Ran(db, clock, tx))
  {
    SameOp(db, clock, tx);
    if tx.op.Guarded? {
      GuardedLearns(db, clock, tx);
    } else if tx.op.Sweep? {
      Sweep.StatementAlone(db, clock, tx.op.now, tx);
    }
  }

  // Its refusals and its commit

  lemma RefusesAsContract(db: Tables, clock: Time, tx: Transaction)
    requires Sound(db) && TxOk(db, clock, tx) && Knows(db, tx) && "" !in GuardOf(tx.op) && Issuing(tx) !! db.tokens.Keys
    requires Ready(tx) && Ran(db, clock, tx).pc.Ended?
    ensures Contract(db, clock, tx.op) == Outcome(Ran(db, clock, tx).pc.answer, AsDb(db))
    ensures !Succeeds(Ran(db, clock, tx).pc.answer) && !Ran(db, clock, tx).pc.answer.Counted?
  {
    StatementSucceeds(db, clock, tx);
    RefusalIsTheContracts(db, clock, tx);
    NeverLate(db, clock, tx);
    RefusalIsNoSuccess(db, clock, tx);
  }

  lemma NeverLate(db: Tables, clock: Time, tx: Transaction)
    requires TxOk(db, clock, tx) && Knows(db, tx) && Refuses(db, clock, tx)
    ensures !LateAnswer(db, clock, tx)
  {
  }

  lemma RefusalIsNoSuccess(db: Tables, clock: Time, tx: Transaction)
    requires Ready(tx) && Ran(db, clock, tx).pc.Ended?
    ensures !Succeeds(Ran(db, clock, tx).pc.answer) && !Ran(db, clock, tx).pc.answer.Counted?
  {
  }

  lemma GuardedCommits(db: Tables, clock: Time, tx: Transaction)
    requires TxOk(db, clock, tx) && tx.pc.Commit? && tx.op.Guarded?
    requires "" !in tx.op.privileged && GuardKnows(db.users, tx)
    ensures Contract(db, clock, tx.op) == Outcome(Done, AsDb(Committed(db, tx)))
  {
    WriteIsAtomic(db, clock, tx);
    UncoversIff(db, tx.who, tx.op.privileged);
  }

  lemma CommitsAsContract(db: Tables, clock: Time, tx: Transaction)
    requires TxOk(db, clock, tx) && tx.pc.Commit? && Knows(db, tx) && "" !in GuardOf(tx.op)
    ensures Contract(db, clock, tx.op).db == AsDb(Committed(db, tx))
    ensures Succeeds(Contract(db, clock, tx.op).answer) || Contract(db, clock, tx.op).answer.Counted?
  {
    if Issues(tx.op) {
      IssueIsAtomic(db, clock, tx);
    } else if Redeems(tx.op) {
      RedeemIsAtomic(db, clock, tx);
    } else if tx.op.Guarded? {
      GuardedCommits(db, clock, tx);
    } else if tx.op.Disable? {
      WriteIsAtomic(db, clock, tx);
    } else {
      Sweep.CommitAlone(db, tx.op.now, tx);
    }
  }

  // Its events

  lemma CommitKeepsAlone(db: Tables, clock: Time, op: Op, w: World)
    requires Alone(db, clock, op, w) && "" !in GuardOf(op) && May(w, Do(SOLE)) && w.txs[SOLE].pc.Commit?
    ensures Alone(db, clock, op, Next(w, Do(SOLE)))
  {
    assert TxOk(w.db, w.clock, w.txs[SOLE]);
    CommitsAsContract(db, clock, w.txs[SOLE]);
    EventKeepsInv(w, Do(SOLE));
  }

  lemma StatementKeepsAlone(db: Tables, clock: Time, op: Op, w: World)
    requires Sound(db) && Alone(db, clock, op, w) && "" !in GuardOf(op)
    requires May(w, Do(SOLE)) && !w.txs[SOLE].pc.Commit?
    ensures Alone(db, clock, op, Next(w, Do(SOLE)))
  {
    var tx := w.txs[SOLE];
    assert TxOk(db, clock, tx);
    EventKeepsInv(w, Do(SOLE));
    SameOp(db, clock, tx);
    Learns(db, clock, tx);
    if Ran(db, clock, tx).pc.Ended? {
      RefusesAsContract(db, clock, tx);
    }
  }

  /** A row taken by a scan or a deletion, whatever the transaction. */
  lemma TakeKeepsKnowing(db: Tables, w: World, e: Event)
    requires w.db == db && May(w, e) && Own(e) && !e.Do? && Knows(db, w.txs[SOLE])
    ensures Next(w, e).db == db && Next(w, e).txs.Keys == w.txs.Keys && Next(w, e).clock == w.clock
    ensures Next(w, e).txs[SOLE].op == w.txs[SOLE].op && !Next(w, e).txs[SOLE].pc.Ended?
    ensures Knows(db, Next(w, e).txs[SOLE])
  {
    if w.txs[SOLE].op.Sweep? {
      if e.TakeUser? {
        Sweep.TookUserAlone(db, w.txs[SOLE].op.now, w.txs[SOLE], e.row);
      } else {
        Sweep.TookTokenAlone(db, w.txs[SOLE].op.now, w.txs[SOLE], e.hash);
      }
    }
  }

  lemma TakeKeepsAlone(db: Tables, clock: Time, op: Op, w: World, e: Event)
    requires Alone(db, clock, op, w) && May(w, e) && Own(e) && !e.Do?
    ensures Alone(db, clock, op, Next(w, e))
  {
    EventKeepsInv(w, e);
    TakeKeepsKnowing(db, w, e);
  }

  lemma OwnKeepsAlone(db: Tables, clock: Time, op: Op, w: World, e: Event)
    requires Sound(db) && Alone(db, clock, op, w) && "" !in GuardOf(op) && May(w, e) && Own(e)
    ensures Alone(db, clock, op, Next(w, e))
  {
    if !e.Do? {
      TakeKeepsAlone(db, clock, op, w, e);
    } else if w.txs[SOLE].pc.Commit? {
      CommitKeepsAlone(db, clock, op, w);
    } else {
      StatementKeepsAlone(db, clock, op, w);
    }
  }

  lemma {:induction false} RunKeepsAlone(db: Tables, clock: Time, op: Op, w: World, run: seq<Event>)
    requires Sound(db) && Alone(db, clock, op, w) && "" !in GuardOf(op) && Possible(w, run) && OwnRun(run)
    ensures Alone(db, clock, op, After(w, run))
    decreases run
  {
    if run != [] {
      OwnKeepsAlone(db, clock, op, w, run[0]);
      RunKeepsAlone(db, clock, op, Next(w, run[0]), run[1..]);
    }
  }

  lemma BeginsAlone(db: Tables, clock: Time, op: Op)
    requires Sound(db) && May(AtRest(db, clock), Begin(SOLE, op))
    ensures Alone(db, clock, op, Next(AtRest(db, clock), Begin(SOLE, op)))
  {
    EventKeepsInv(AtRest(db, clock), Begin(SOLE, op));
  }

  /** A transaction that ran alone to its end answered and left what the contract does, whatever the operation and
      whichever answer it is. */
  lemma AloneEndsAsContract(db: Tables, clock: Time, op: Op, run: seq<Event>)
    requires Sound(db) && "" !in GuardOf(op) && May(AtRest(db, clock), Begin(SOLE, op)) && OwnRun(run)
    requires var begun := Next(AtRest(db, clock), Begin(SOLE, op));
             Possible(begun, run) && SOLE in After(begun, run).txs && After(begun, run).txs[SOLE].pc.Ended?
    ensures EndsAs(After(Next(AtRest(db, clock), Begin(SOLE, op)), run), Contract(db, clock, op))
  {
    BeginsAlone(db, clock, op);
    RunKeepsAlone(db, clock, op, Next(AtRest(db, clock), Begin(SOLE, op)), run);
  }

  // Its way to the end

  function Rank(pc: Pc): nat {
    match pc
    case Start => 20
    case Hold => 19
    case Spend => 18
    case Check => 17
    case ScanStart(_) => 16
    case Scan(_) => 15
    case Privilege => 14
    case Cover => 13
    case Recheck => 12
    case Apply => 11
    case Missed => 10
    case Drop => 9
    case Count => 8
    case Clear => 7
    case Clearing(_) => 6
    case Insert => 5
    case Commit => 4
    case Ended(_) => 0
  }

  /** How many rows a scan or a deletion has left. */
  function Left(pc: Pc): nat {
    match pc
    case Scan(rows) => |rows|
    case Clearing(hashes) => |hashes|
    case _ => 0
  }

  lemma StatementDescends(db: Tables, clock: Time, tx: Transaction)
    requires TxOk(db, clock, tx) && Ready(tx) && (tx.pc.Scan? ==> tx.pc.rows == {})
    ensures Rank(Ran(db, clock, tx).pc) < Rank(tx.pc)
  {
  }

  /** Whether a record is closer to its end than another. */
  predicate Descends(before: Pc, after: Pc) {
    Rank(after) < Rank(before) || (Rank(after) == Rank(before) && Left(after) < Left(before))
  }

  lemma TakeDescends(w: World, e: Event)
    requires May(w, e) && Own(e) && !e.Do?
    ensures SOLE in Next(w, e).txs && Descends(w.txs[SOLE].pc, Next(w, e).txs[SOLE].pc)
  {
  }

  lemma DoDescends(w: World)
    requires May(w, Do(SOLE)) && TxOk(w.db, w.clock, w.txs[SOLE])
    ensures SOLE in Next(w, Do(SOLE)).txs && Descends(w.txs[SOLE].pc, Next(w, Do(SOLE)).txs[SOLE].pc)
  {
    if !w.txs[SOLE].pc.Commit? {
      StatementDescends(w.db, w.clock, w.txs[SOLE]);
    }
  }

  /** An event of the transaction that nothing holds back, no other transaction being open. */
  lemma FreeEvent(w: World) returns (e: Event)
    requires w.txs.Keys == {SOLE} && !w.txs[SOLE].pc.Ended?
    ensures May(w, e) && Own(e)
  {
    var pc := w.txs[SOLE].pc;
    if pc.Scan? && pc.rows != {} {
      var row :| row in pc.rows;
      e := TakeUser(SOLE, row);
    } else if pc.Clearing? && pc.hashes != {} {
      var hash :| hash in pc.hashes;
      e := TakeToken(SOLE, hash);
    } else {
      e := Do(SOLE);
    }
  }

  /** A world of the one transaction. */
  ghost predicate Going(w: World) {
    Inv(w) && w.txs.Keys == {SOLE}
  }

  /** The transaction's next event, which brings it closer to its end. */
  lemma NextEvent(w: World) returns (e: Event)
    requires Going(w) && !w.txs[SOLE].pc.Ended?
    ensures May(w, e) && Own(e) && Going(Next(w, e)) && Descends(w.txs[SOLE].pc, Next(w, e).txs[SOLE].pc)
  {
    e := FreeEvent(w);
    EventKeepsInv(w, e);
    assert TxOk(w.db, w.clock, w.txs[SOLE]);
    if e.Do? {
      DoDescends(w);
    } else {
      TakeDescends(w, e);
    }
  }

  lemma OneMore(w: World, e: Event, rest: seq<Event>)
    requires May(w, e) && Possible(Next(w, e), rest)
    ensures Possible(w, [e] + rest) && After(w, [e] + rest) == After(Next(w, e), rest)
    ensures Own(e) && OwnRun(rest) ==> OwnRun([e] + rest)
  {
    assert ([e] + rest)[1..] == rest;
  }

  /** Whether a run leads the transaction to its end. */
  ghost predicate LeadsToEnd(w: World, run: seq<Event>) {
    Possible(w, run) && OwnRun(run) && SOLE in After(w, run).txs && After(w, run).txs[SOLE].pc.Ended?
  }

  lemma OneMoreLeads(w: World, e: Event, rest: seq<Event>)
    requires May(w, e) && Own(e) && LeadsToEnd(Next(w, e), rest)
    ensures LeadsToEnd(w, [e] + rest)
  {
    OneMore(w, e, rest);
  }

  lemma EndedLeads(w: World)
    requires SOLE in w.txs && w.txs[SOLE].pc.Ended?
    ensures LeadsToEnd(w, [])
  {
  }

  lemma {:induction false} WayToEnd(w: World) returns (run: seq<Event>)
    requires Going(w)
    ensures LeadsToEnd(w, run)
    decreases Rank(w.txs[SOLE].pc), Left(w.txs[SOLE].pc)
  {
    if w.txs[SOLE].pc.Ended? {
      EndedLeads(w);
      run := [];
    } else {
      var e := NextEvent(w);
      var rest := WayToEnd(Next(w, e));
      OneMoreLeads(w, e, rest);
      run := [e] + rest;
    }
  }

  /** Every operation has a run alone to its end: it commits exactly what the contract does where that succeeds, a token
      issued under a hash not yet taken included, and is refused with the contract's answer where it does not. */
  lemma AloneEnds(db: Tables, clock: Time, op: Op) returns (run: seq<Event>)
    requires Sound(db) && "" !in GuardOf(op) && (Issues(op) ==> op.hash !in db.tokens)
    ensures Possible(AtRest(db, clock), run) && EndsAs(After(AtRest(db, clock), run), Contract(db, clock, op))
  {
    var begun := Next(AtRest(db, clock), Begin(SOLE, op));
    EventKeepsInv(AtRest(db, clock), Begin(SOLE, op));
    var rest := WayToEnd(begun);
    AloneEndsAsContract(db, clock, op, rest);
    OneMore(AtRest(db, clock), Begin(SOLE, op), rest);
    run := [Begin(SOLE, op)] + rest;
  }
}
