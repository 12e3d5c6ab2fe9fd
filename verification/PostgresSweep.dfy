/** What a token sweep does while others run: it spares every account it must, drops only accounts whose expired invite
    it read, and drops and deletes all that was stranded or expired throughout. While no other transaction commits, it
    drops and deletes exactly what the contract's sweep does. */
module PostgresSweep {
  import opened Basics
  import opened Accounts
  import opened Postgres
  import opened PostgresTokens
  import opened PostgresCommits

  /** The accounts an expired invite names. */
  function Lapsed(db: Tables, now: Time): set<Id> {
    set hash | hash in Expired(db.tokens, now) && db.tokens[hash].purpose == Invite :: db.tokens[hash].user
  }

  // What a sweep may drop

  /** An account the sweep must spare: confirmed, or holding an invite live at the sweep's time. */
  predicate Spared(db: Tables, id: Id, now: Time) {
    id in db.users && (db.users[id].confirmed || Standing(db.tokens, id, Invite, now) != {})
  }

  lemma SweepCommit(db: Tables, clock: Time, tx: Transaction)
    requires TxOk(db, clock, tx) && tx.pc.Commit? && tx.op.Sweep?
    ensures var after := Committed(db, tx);
            && (forall id :: Spared(db, id, tx.op.now) ==> id in after.users)
            && (forall id :: id in after.users ==> id in db.users && after.users[id] == db.users[id])
            && (forall hash :: hash in db.tokens && hash !in after.tokens ==>
                  db.tokens[hash].expiresAt <= tx.op.now || db.tokens[hash].user !in after.users)
            && db.users.Keys - after.users.Keys <= tx.held
  {
  }

  /** The accounts a sweep noted at its first statement and has not passed over since. */
  function Noted(tx: Transaction): set<Id> {
    match tx.pc
    case ScanStart(among) => among + tx.held
    case Scan(rows) => rows + tx.held
    case _ => tx.held
  }

  lemma NotesAtStart(db: Tables, clock: Time, tx: Transaction)
    requires TxOk(db, clock, tx) && tx.op.Sweep? && tx.pc.Start?
    ensures Noted(Ran(db, clock, tx)) <= Lapsed(db, tx.op.now) && !Ran(db, clock, tx).pc.Start?
  {
  }

  lemma NotesShrink(db: Tables, clock: Time, tx: Transaction)
    requires TxOk(db, clock, tx) && tx.op.Sweep? && Ready(tx) && !tx.pc.Start?
    requires tx.pc.Scan? ==> tx.pc.rows == {}
    ensures Noted(Ran(db, clock, tx)) <= Noted(tx) && !Ran(db, clock, tx).pc.Start?
  {
  }

  /** What a sweep past its first statement keeps from one record to the next. */
  ghost predicate NotesLess(before: Transaction, after: Transaction) {
    && after.op == before.op && !after.pc.Start? && Noted(after) <= Noted(before)
    && (before.pc.Ended? ==> after.pc.Ended?)
  }

  lemma OtherShrinksNotes(w: World, e: Event, t: nat)
    requires May(w, e) && t in w.txs && w.txs[t].op.Sweep? && !w.txs[t].pc.Start? && e != Do(t)
    ensures t in Next(w, e).txs && NotesLess(w.txs[t], Next(w, e).txs[t])
  {
  }

  lemma StatementShrinksNotes(w: World, t: nat)
    requires May(w, Do(t)) && TxOk(w.db, w.clock, w.txs[t]) && w.txs[t].op.Sweep? && !w.txs[t].pc.Start?
    ensures t in Next(w, Do(t)).txs && NotesLess(w.txs[t], Next(w, Do(t)).txs[t])
  {
    if !w.txs[t].pc.Commit? {
      SameOp(w.db, w.clock, w.txs[t]);
      NotesShrink(w.db, w.clock, w.txs[t]);
    }
  }

  lemma EventShrinksNotes(w: World, e: Event, t: nat)
    requires Inv(w) && May(w, e) && t in w.txs && w.txs[t].op.Sweep? && !w.txs[t].pc.Start?
    ensures t in Next(w, e).txs && NotesLess(w.txs[t], Next(w, e).txs[t])
  {
    if e == Do(t) {
      StatementShrinksNotes(w, t);
    } else {
      OtherShrinksNotes(w, e, t);
    }
  }

  lemma {:induction false} RunShrinksNotes(w: World, run: seq<Event>, t: nat)
    requires Inv(w) && Possible(w, run) && t in w.txs && w.txs[t].op.Sweep? && !w.txs[t].pc.Start?
    ensures var after := After(w, run);
            && t in after.txs && Noted(after.txs[t]) <= Noted(w.txs[t])
            && (w.txs[t].pc.Ended? ==> after.txs[t].pc.Ended?)
    decreases run
  {
    if run != [] {
      EventKeepsInv(w, run[0]);
      EventShrinksNotes(w, run[0], t);
      RunShrinksNotes(Next(w, run[0]), run[1..], t);
    }
  }

  /** Whether an event of a run is a sweep's first statement, and the tables it read hold an expired invite of each of
      these accounts. */
  ghost predicate ReadAtStart(w: World, run: seq<Event>, t: nat, now: Time, ids: set<Id>)
    requires Possible(w, run)
    decreases run
  {
    run != [] &&
    ((run[0] == Do(t) && w.txs[t].op == Sweep(now) && w.txs[t].pc.Start? && ids <= Lapsed(w.db, now)) ||
     ReadAtStart(Next(w, run[0]), run[1..], t, now, ids))
  }

  lemma {:induction false} OpStays(w: World, run: seq<Event>, t: nat)
    requires Possible(w, run) && t in w.txs
    ensures t in After(w, run).txs && After(w, run).txs[t].op == w.txs[t].op
    decreases run
  {
    if run != [] {
      if run[0] == Do(t) {
        SameOp(w.db, w.clock, w.txs[t]);
      }
      OpStays(Next(w, run[0]), run[1..], t);
    }
  }

  /** Whether a run that starts before a sweep's first statement leads to its commit, with these accounts noted. */
  ghost predicate CommitsNoting(w: World, run: seq<Event>, t: nat, now: Time, ids: set<Id>)
    requires Possible(w, run)
  {
    var after := After(w, run);
    t in after.txs && after.txs[t].op == Sweep(now) && after.txs[t].pc.Commit? && ids <= Noted(after.txs[t])
  }

  lemma FirstStatementNotes(w: World, run: seq<Event>, t: nat, now: Time, ids: set<Id>)
    requires Inv(w) && Possible(w, run) && run != [] && run[0] == Do(t) && w.txs[t].pc.Start?
    requires CommitsNoting(w, run, t, now, ids)
    ensures w.txs[t].op == Sweep(now) && ids <= Lapsed(w.db, now)
  {
    OpStays(w, run, t);
    EventKeepsInv(w, run[0]);
    NotesAtStart(w.db, w.clock, w.txs[t]);
    SameOp(w.db, w.clock, w.txs[t]);
    RunShrinksNotes(Next(w, run[0]), run[1..], t);
  }

  lemma AbortedNeverCommits(w: World, run: seq<Event>, t: nat, now: Time, ids: set<Id>)
    requires Inv(w) && Possible(w, run) && run != [] && run[0] == Abort(t)
    ensures !CommitsNoting(w, run, t, now, ids)
  {
    if CommitsNoting(w, run, t, now, ids) {
      OpStays(w, run, t);
      EventKeepsInv(w, run[0]);
      RunShrinksNotes(Next(w, run[0]), run[1..], t);
    }
  }

  lemma StillAtStart(w: World, e: Event, t: nat)
    requires May(w, e) && (t in w.txs ==> w.txs[t].pc.Start?) && e != Do(t) && e != Abort(t)
    requires e.Begin? && e.tx == t ==> e.op.Sweep?
    ensures t in Next(w, e).txs ==> Next(w, e).txs[t].pc.Start?
  {
  }

  /** A sweep about to commit read, at its first statement, an expired invite of each account it still notes. */
  lemma {:induction false} RunNotes(w: World, run: seq<Event>, t: nat, now: Time, ids: set<Id>)
    requires Inv(w) && Possible(w, run) && (t in w.txs ==> w.txs[t].pc.Start?)
    requires CommitsNoting(w, run, t, now, ids)
    ensures ReadAtStart(w, run, t, now, ids)
    decreases run
  {
    if run != [] {
      if run[0] == Do(t) {
        FirstStatementNotes(w, run, t, now, ids);
      } else if run[0] == Abort(t) {
        AbortedNeverCommits(w, run, t, now, ids);
      } else {
        EventKeepsInv(w, run[0]);
        if run[0].Begin? && run[0].tx == t {
          OpStays(Next(w, run[0]), run[1..], t);
        }
        StillAtStart(w, run[0], t);
        RunNotes(Next(w, run[0]), run[1..], t, now, ids);
      }
    }
  }

  /** A sweep drops no account that at its commit is confirmed or holds a live invite, and none whose expired invite it
      did not read at its start. It writes to no account, and deletes no token but the expired ones and those of the
      accounts it dropped. */
  lemma SweepSpares(db: Tables, clock: Time, run: seq<Event>, t: nat)
    requires Sound(db) && Possible(AtRest(db, clock), run)
    requires var w := After(AtRest(db, clock), run); May(w, Do(t)) && Commits(w, Do(t)) && w.txs[t].op.Sweep?
    ensures var w := After(AtRest(db, clock), run);
            var now := w.txs[t].op.now;
            var after := Next(w, Do(t)).db;
            && (forall id :: Spared(w.db, id, now) ==> id in after.users)
            && ReadAtStart(AtRest(db, clock), run, t, now, w.db.users.Keys - after.users.Keys)
            && (forall id :: id in after.users ==> id in w.db.users && after.users[id] == w.db.users[id])
            && (forall hash :: hash in w.db.tokens && hash !in after.tokens ==>
                  w.db.tokens[hash].expiresAt <= now || w.db.tokens[hash].user !in after.users)
  {
    RunKeepsInv(AtRest(db, clock), run);
    var w := After(AtRest(db, clock), run);
    SweepCommit(w.db, w.clock, w.txs[t]);
    RunNotes(AtRest(db, clock), run, t, w.txs[t].op.now, w.db.users.Keys - Committed(w.db, w.txs[t]).users.Keys);
  }

  // What a sweep must drop

  /** Whether an account is stranded in the tables of every world of a run. */
  ghost predicate StaysStranded(w: World, run: seq<Event>, now: Time, id: Id)
    requires Possible(w, run)
    decreases run
  {
    id in Stranded(AsDb(w.db), now) && (run != [] ==> StaysStranded(Next(w, run[0]), run[1..], now, id))
  }

  /** Where a sweep stands that is to drop an account. */
  predicate Dropping(tx: Transaction, now: Time, id: Id) {
    tx.op == Sweep(now) &&
    match tx.pc
    case Start => true
    case ScanStart(among) => id in among
    case Scan(rows) => id in rows || id in tx.held
    case Drop => id in tx.held
    case Clear => id in tx.dropped
    case Clearing(_) => id in tx.dropped
    case Commit => id in tx.dropped
    case Ended(_) => true
    case _ => false
  }

  lemma StatementDrops(db: Tables, clock: Time, tx: Transaction, now: Time, id: Id)
    requires Dropping(tx, now, id) && Ready(tx) && id in Stranded(AsDb(db), now) && (tx.pc.Scan? ==> tx.pc.rows == {})
    ensures Dropping(Ran(db, clock, tx), now, id)
  {
    var hash :| hash in Expired(db.tokens, now) && db.tokens[hash].purpose == Invite && db.tokens[hash].user == id;
    assert id in Lapsed(db, now);
  }

  lemma EventDrops(w: World, e: Event, t: nat, now: Time, id: Id)
    requires May(w, e) && t in w.txs && Dropping(w.txs[t], now, id) && id in Stranded(AsDb(w.db), now)
    ensures t in Next(w, e).txs && Dropping(Next(w, e).txs[t], now, id)
  {
    if e == Do(t) && !w.txs[t].pc.Commit? {
      StatementDrops(w.db, w.clock, w.txs[t], now, id);
    }
  }

  lemma {:induction false} RunDrops(w: World, run: seq<Event>, t: nat, now: Time, id: Id)
    requires Possible(w, run) && t in w.txs && Dropping(w.txs[t], now, id) && StaysStranded(w, run, now, id)
    ensures t in After(w, run).txs && Dropping(After(w, run).txs[t], now, id)
    decreases run
  {
    if run != [] {
      EventDrops(w, run[0], t, now, id);
      RunDrops(Next(w, run[0]), run[1..], t, now, id);
    }
  }

  /** Whether a token is stored in every world of a run. */
  ghost predicate StaysStored(w: World, run: seq<Event>, hash: Hash, token: Token)
    requires Possible(w, run)
    decreases run
  {
    hash in w.db.tokens && w.db.tokens[hash] == token &&
    (run != [] ==> StaysStored(Next(w, run[0]), run[1..], hash, token))
  }

  /** Where a sweep stands that is to delete a token, by itself or with its account. */
  predicate Deleting(tx: Transaction, now: Time, hash: Hash, token: Token) {
    tx.op == Sweep(now) && tx.inserted == map[] &&
    match tx.pc
    case Start => true
    case ScanStart(_) => true
    case Scan(_) => true
    case Drop => true
    case Clear => true
    case Clearing(hashes) => hash in hashes || hash in tx.deleted || token.user in tx.dropped
    case Commit => hash in tx.deleted || token.user in tx.dropped
    case Ended(_) => true
    case _ => false
  }

  lemma EventDeletes(w: World, e: Event, t: nat, now: Time, hash: Hash, token: Token)
    requires May(w, e) && t in w.txs && Deleting(w.txs[t], now, hash, token) && token.expiresAt <= now
    requires hash in w.db.tokens && w.db.tokens[hash] == token
    ensures t in Next(w, e).txs && Deleting(Next(w, e).txs[t], now, hash, token)
  {
  }

  lemma {:induction false} RunDeletes(w: World, run: seq<Event>, t: nat, now: Time, hash: Hash, token: Token)
    requires Possible(w, run) && t in w.txs && Deleting(w.txs[t], now, hash, token) && token.expiresAt <= now
    requires StaysStored(w, run, hash, token)
    ensures t in After(w, run).txs && Deleting(After(w, run).txs[t], now, hash, token)
    ensures hash in After(w, run).db.tokens && After(w, run).db.tokens[hash] == token
    decreases run
  {
    if run != [] {
      EventDeletes(w, run[0], t, now, hash, token);
      RunDeletes(Next(w, run[0]), run[1..], t, now, hash, token);
    }
  }

  /** Whatever commits while a sweep runs, it drops each account that was stranded from its begin to its commit. */
  lemma SweepDrops(w: World, t: nat, now: Time, run: seq<Event>, id: Id)
    requires May(w, Begin(t, Sweep(now)))
    requires var begun := Next(w, Begin(t, Sweep(now)));
             && Possible(begun, run) && StaysStranded(begun, run, now, id)
             && May(After(begun, run), Do(t)) && Commits(After(begun, run), Do(t))
    ensures id !in Next(After(Next(w, Begin(t, Sweep(now))), run), Do(t)).db.users
  {
    RunDrops(Next(w, Begin(t, Sweep(now))), run, t, now, id);
  }

  /** Whatever commits while a sweep runs, it deletes each expired token that was stored from its begin to its
      commit. */
  lemma SweepDeletes(w: World, t: nat, now: Time, run: seq<Event>, hash: Hash, token: Token)
    requires May(w, Begin(t, Sweep(now))) && token.expiresAt <= now
    requires var begun := Next(w, Begin(t, Sweep(now)));
             && Possible(begun, run) && StaysStored(begun, run, hash, token)
             && May(After(begun, run), Do(t)) && Commits(After(begun, run), Do(t))
    ensures hash !in Next(After(Next(w, Begin(t, Sweep(now))), run), Do(t)).db.tokens
  {
    RunDeletes(Next(w, Begin(t, Sweep(now))), run, t, now, hash, token);
  }

  // A sweep alone

  /** The accounts the sweep locks: unconfirmed, with an expired invite. */
  function Candidates(db: Tables, now: Time): set<Id> {
    set id | id in db.users && !db.users[id].confirmed && id in Lapsed(db, now)
  }

  /** The expired tokens the sweep deletes itself, those of dropped accounts going with them. */
  function Leaving(db: Tables, now: Time, dropped: set<Id>): set<Hash> {
    set hash | hash in Expired(db.tokens, now) && db.tokens[hash].user !in dropped
  }

  /** Where a sweep stands when nothing was committed since it began. */
  ghost predicate SweepingAlone(db: Tables, now: Time, tx: Transaction) {
    && tx.op == Sweep(now) && tx.updated == map[] && tx.inserted == map[]
    && (tx.pc.Start? || tx.pc.ScanStart? || tx.pc.Scan? || tx.pc.Drop? ==> tx.dropped == {})
    && (!tx.pc.Clearing? && !tx.pc.Commit? ==> tx.deleted == {})
    && match tx.pc
       case Start => tx.held == {}
       case ScanStart(among) => tx.held == {} && among == Lapsed(db, now)
       case Scan(rows) => rows + tx.held == Candidates(db, now)
       case Drop => tx.held == Candidates(db, now)
       case Clear => tx.dropped == Stranded(AsDb(db), now)
       case Clearing(hashes) =>
         tx.dropped == Stranded(AsDb(db), now) && hashes + tx.deleted == Leaving(db, now, tx.dropped)
       case Commit => tx.dropped == Stranded(AsDb(db), now) && tx.deleted == Leaving(db, now, tx.dropped)
       case Ended(_) => true
       case _ => false
  }

  /** The stranded accounts are the candidates with no live invite. */
  lemma StrandedCandidates(db: Tables, now: Time)
    ensures Stranded(AsDb(db), now) ==
            set id | id in Candidates(db, now) && Standing(db.tokens, id, Invite, now) == {}
  {
    forall id ensures id in Lapsed(db, now) <==>
                      exists hash :: hash in Expired(db.tokens, now) && db.tokens[hash].purpose == Invite &&
                        db.tokens[hash].user == id
    {
    }
  }

  lemma StatementAlone(db: Tables, clock: Time, now: Time, tx: Transaction)
    requires SweepingAlone(db, now, tx) && Ready(tx) && (tx.pc.Scan? ==> tx.pc.rows == {})
    ensures SweepingAlone(db, now, Ran(db, clock, tx))
  {
    StrandedCandidates(db, now);
    var ran := Ran(db, clock, tx);
    if tx.pc.Start? {
      assert ran.pc == if Lapsed(db, now) == {} then Clear else ScanStart(Lapsed(db, now));
      if Lapsed(db, now) == {} {
        assert Stranded(AsDb(db), now) == {};
      }
    } else if tx.pc.ScanStart? {
      assert ran.pc.rows == Candidates(db, now);
    } else if tx.pc.Scan? {
      assert tx.pc.rows + tx.held == tx.held == Candidates(db, now);
      if tx.held == {} {
        assert Stranded(AsDb(db), now) == {};
      }
    } else if tx.pc.Drop? {
      assert ran.dropped == Stranded(AsDb(db), now);
    } else if tx.pc.Clear? {
      assert ran.pc == Clearing(Leaving(db, now, tx.dropped));
    }
  }

  lemma TookUserAlone(db: Tables, now: Time, tx: Transaction, row: Id)
    requires SweepingAlone(db, now, tx) && tx.pc.Scan? && row in tx.pc.rows
    ensures SweepingAlone(db, now, TookUser(db, tx, row))
  {
    assert row in Candidates(db, now) && Scanned(db.users, tx.op, row);
    assert (tx.pc.rows - {row}) + (tx.held + {row}) == tx.pc.rows + tx.held;
  }

  lemma TookTokenAlone(db: Tables, now: Time, tx: Transaction, hash: Hash)
    requires SweepingAlone(db, now, tx) && tx.pc.Clearing? && hash in tx.pc.hashes
    ensures SweepingAlone(db, now, TookToken(db, tx, hash))
  {
    assert hash in Leaving(db, now, tx.dropped);
    assert (tx.pc.hashes - {hash}) + (tx.deleted + {hash}) == tx.pc.hashes + tx.deleted;
  }

  lemma CommitAlone(db: Tables, now: Time, tx: Transaction)
    requires SweepingAlone(db, now, tx) && tx.pc.Commit?
    ensures AsDb(Committed(db, tx)) == DeleteExpiredTokens(AsDb(db), now).db
  {
    var swept := DeleteExpiredTokens(AsDb(db), now).db;
    assert Committed(db, tx).users == swept.users;
    assert Committed(db, tx).tokens.Keys == swept.tokens.Keys;
    assert Committed(db, tx).tokens == swept.tokens;
  }

  /** Whether no event of a run commits a row. */
  predicate NothingCommitted(w: World, run: seq<Event>)
    requires Possible(w, run)
    decreases run
  {
    run != [] ==> !Commits(w, run[0]) && !run[0].AddUser? && NothingCommitted(Next(w, run[0]), run[1..])
  }

  lemma EventKeepsAlone(w: World, e: Event, t: nat, now: Time)
    requires t in w.txs && SweepingAlone(w.db, now, w.txs[t]) && May(w, e) && !Commits(w, e) && !e.AddUser?
    ensures Next(w, e).db == w.db && t in Next(w, e).txs && SweepingAlone(w.db, now, Next(w, e).txs[t])
  {
    if e.Do? && e.tx == t {
      StatementAlone(w.db, w.clock, now, w.txs[t]);
    } else if e.TakeUser? && e.tx == t {
      TookUserAlone(w.db, now, w.txs[t], e.row);
    } else if e.TakeToken? && e.tx == t {
      TookTokenAlone(w.db, now, w.txs[t], e.hash);
    }
  }

  lemma {:induction false} RunKeepsAlone(w: World, run: seq<Event>, t: nat, now: Time)
    requires t in w.txs && SweepingAlone(w.db, now, w.txs[t]) && Possible(w, run) && NothingCommitted(w, run)
    ensures var after := After(w, run);
            after.db == w.db && t in after.txs && SweepingAlone(w.db, now, after.txs[t])
    decreases run
  {
    if run != [] {
      EventKeepsAlone(w, run[0], t, now);
      RunKeepsAlone(Next(w, run[0]), run[1..], t, now);
    }
  }

  /** A sweep that commits with nothing else committed since it began lands whole as the contract's sweep. */
  lemma SweepAloneIsAtomic(w: World, t: nat, now: Time, run: seq<Event>)
    requires May(w, Begin(t, Sweep(now)))
    requires var begun := Next(w, Begin(t, Sweep(now)));
             Possible(begun, run) && NothingCommitted(begun, run) && May(After(begun, run), Do(t)) &&
               Commits(After(begun, run), Do(t))
    ensures AsDb(Next(After(Next(w, Begin(t, Sweep(now))), run), Do(t)).db) == DeleteExpiredTokens(AsDb(w.db), now).db
  {
    var begun := Next(w, Begin(t, Sweep(now)));
    RunKeepsAlone(begun, run, t, now);
    CommitAlone(w.db, now, After(begun, run).txs[t]);
  }
}
