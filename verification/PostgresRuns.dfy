/** Building concrete runs of the PostgreSQL store event by event, for the results that exhibit one. */
module PostgresRuns {
  import opened Basics
  import opened Accounts
  import opened Postgres
  import opened PostgresTokens
  import opened PostgresCover

  /** Where runs start, the privileged set of their guarded writes, and which late joins they may make. */
  datatype Story = Story(from: World, p: Roles, late: iset<Join>)

  /** An enabled account of a story. */
  function Someone(email: string, role: Role): User {
    User(email, "name", "", false, true, role)
  }

  /** Whether some run of a story ends in a world. */
  ghost predicate Reaches(s: Story, to: World) {
    exists run :: Possible(s.from, run) && SteadyRun(s.from, run, s.p, s.late) && After(s.from, run) == to
  }

  lemma {:induction false} AppendEvent(from: World, p: Roles, late: iset<Join>, run: seq<Event>, e: Event)
    requires Possible(from, run) && SteadyRun(from, run, p, late)
    requires May(After(from, run), e) && SteadyEvent(e, p) && LateOnly(After(from, run), e, p, late)
    ensures Possible(from, run + [e]) && SteadyRun(from, run + [e], p, late)
    ensures After(from, run + [e]) == Next(After(from, run), e)
    decreases run
  {
    if run == [] {
      assert run + [e] == [e];
      assert [e][1..] == [];
    } else {
      AppendEvent(Next(from, run[0]), p, late, run[1..], e);
      assert (run + [e])[0] == run[0] && (run + [e])[1..] == run[1..] + [e];
    }
  }

  lemma StartsAt(s: Story)
    ensures Reaches(s, s.from)
  {
    assert Possible(s.from, []) && SteadyRun(s.from, [], s.p, s.late) && After(s.from, []) == s.from;
  }

  /** One event further. */
  lemma Go(s: Story, w: World, e: Event) returns (to: World)
    requires Reaches(s, w) && May(w, e) && SteadyEvent(e, s.p) && LateOnly(w, e, s.p, s.late)
    ensures to == Next(w, e) && Reaches(s, to)
  {
    to := Next(w, e);
    var run :| Possible(s.from, run) && SteadyRun(s.from, run, s.p, s.late) && After(s.from, run) == w;
    AppendEvent(s.from, s.p, s.late, run, e);
  }

  /** One event further that commits nothing. */
  lemma Quietly(s: Story, w: World, e: Event) returns (to: World)
    requires Reaches(s, w) && May(w, e) && SteadyEvent(e, s.p) && !Commits(w, e) && !e.AddUser?
    ensures to == Next(w, e) && Reaches(s, to)
  {
    to := Go(s, w, e);
  }

  /** A statement that needs no locked row, its effect given. */
  lemma Statement(s: Story, w: World, t: nat, ran: Transaction) returns (to: World)
    requires Reaches(s, w) && May(w, Do(t)) && !w.txs[t].pc.Commit? && Ran(w.db, w.clock, w.txs[t]) == ran
    ensures Reaches(s, to) && to == w.(txs := w.txs[t := ran])
  {
    to := Quietly(s, w, Do(t));
  }

  /** A guarded write past its guard takes its account's row, which is free. */
  lemma Update(s: Story, w: World, t: nat, id: Id) returns (to: World)
    requires Reaches(s, w) && t in w.txs && id in w.db.users && UserFree(w, t, id)
    requires w.txs[t].op.Guarded? && w.txs[t].pc == Apply && w.txs[t].who == id && Matches(w.db.users, w.txs[t].op, id)
    ensures Reaches(s, to)
    ensures to == w.(txs := w.txs[t := w.txs[t].(
                       held := w.txs[t].held + {id}, updated := map[id := Changed(w.db.users[id], w.txs[t].op)],
                       pc := if Closes(w.txs[t].op) then Clear else Commit)])
  {
    assert LocksUser(w.db, w.txs[t]) == Some(id);
    to := Quietly(s, w, Do(t));
  }

  /** A transaction that wrote no token row commits its account. */
  lemma CommitAccount(s: Story, w: World, t: nat) returns (to: World)
    requires Reaches(s, w) && t in w.txs && w.txs[t].pc == Commit && w.db.tokens == map[]
    requires w.txs[t].dropped == {} && w.txs[t].deleted == {} && w.txs[t].inserted == map[]
    requires LateOnly(w, Do(t), s.p, s.late)
    ensures Reaches(s, to) && to.clock == w.clock
    ensures to.db == Tables(w.db.users + w.txs[t].updated, map[]) && to.txs == w.txs[t := Finish(w.txs[t], Done)]
  {
    to := Go(s, w, Do(t));
    assert to.db.tokens.Keys == {};
  }

  /** A guarded write's DELETE of token rows finds none. */
  lemma ClearNothing(s: Story, w: World, t: nat) returns (to: World)
    requires Reaches(s, w) && t in w.txs && w.txs[t].pc == Clear && w.db.tokens == map[] && !w.txs[t].op.Replace?
    ensures Reaches(s, to) && to.db == w.db && to.clock == w.clock && to.txs == w.txs[t := w.txs[t].(pc := Commit)]
  {
    to := Quietly(s, w, Do(t));
    assert to.txs[t].pc.hashes == {};
    to := Quietly(s, to, Do(t));
  }

  /** A guarded removal begins, and its scan finds the pool of that moment. */
  lemma BeginScan(s: Story, w: World, t: nat, op: Op, pool: set<Id>) returns (to: World)
    requires Reaches(s, w) && t !in w.txs && s.p != []
    requires op.Guarded? && op.held == None && op.privileged == s.p && Removes(op)
    requires forall id :: id in pool <==> InPool(w.db.users, id, s.p)
    ensures Reaches(s, to) && to.db == w.db && to.clock == w.clock
    ensures to.txs == w.txs[t := Opened(op).(pc := Scan(pool))]
  {
    to := Quietly(s, w, Begin(t, op));
    to := Quietly(s, to, Do(t));
    assert to.txs[t].pc.rows == pool;
  }

  lemma TakeRow(s: Story, w: World, t: nat, row: Id) returns (to: World)
    requires Reaches(s, w) && t in w.txs && w.txs[t].op.Guarded? && w.txs[t].op.privileged == s.p
    requires w.txs[t].pc.Scan? && row in w.txs[t].pc.rows && InPool(w.db.users, row, s.p) && UserFree(w, t, row)
    ensures Reaches(s, to) && to.db == w.db && to.clock == w.clock
    ensures to.txs == w.txs[t := w.txs[t].(pc := Scan(w.txs[t].pc.rows - {row}), held := w.txs[t].held + {row})]
  {
    to := Quietly(s, w, TakeUser(t, row));
  }

  /** Where a read of the guard leads: on while the account covers and another one does too, to the write where the
      account does not cover, to the refusal where no other one does. */
  predicate GuardLeads(w: World, t: nat, p: Roles, pc: Pc)
    requires t in w.txs
  {
    var tx := w.txs[t];
    || (tx.pc == Scan({}) && pc == Privilege)
    || (tx.pc == Privilege && pc == if Covers(w.db.users, tx.who, p) then Cover else Apply)
    || (tx.pc == Cover &&
        pc == if exists id :: id in w.db.users && id != tx.who && Covers(w.db.users, id, p) then Apply else Recheck)
  }

  lemma GuardReads(w: World, t: nat, p: Roles, pc: Pc)
    requires t in w.txs && w.txs[t].op.Guarded? && w.txs[t].op.privileged == p && GuardLeads(w, t, p, pc)
    ensures May(w, Do(t)) && Next(w, Do(t)) == w.(txs := w.txs[t := w.txs[t].(pc := pc)])
  {
  }

  lemma GuardRead(s: Story, w: World, t: nat, pc: Pc) returns (to: World)
    requires Reaches(s, w) && t in w.txs && w.txs[t].op.Guarded? && w.txs[t].op.privileged == s.p
    requires GuardLeads(w, t, s.p, pc)
    ensures Reaches(s, to) && to.db == w.db && to.clock == w.clock && to.txs == w.txs[t := w.txs[t].(pc := pc)]
  {
    GuardReads(w, t, s.p, pc);
    to := Quietly(s, w, Do(t));
  }

  /** A removal whose scan is done counts another account as its cover and goes on to its write. */
  lemma PassGuard(s: Story, w: World, t: nat, other: Id) returns (to: World)
    requires Reaches(s, w) && t in w.txs && w.txs[t].op.Guarded? && w.txs[t].op.privileged == s.p
    requires w.txs[t].pc == Scan({}) && w.txs[t].who != other && Covers(w.db.users, other, s.p)
    requires Covers(w.db.users, w.txs[t].who, s.p)
    ensures Reaches(s, to) && to.db == w.db && to.clock == w.clock && to.txs == w.txs[t := w.txs[t].(pc := Apply)]
  {
    to := GuardRead(s, w, t, Privilege);
    to := GuardRead(s, to, t, Cover);
    to := GuardRead(s, to, t, Apply);
  }

  /** A removal of an account that does not cover goes on to its write. */
  lemma SkipGuard(s: Story, w: World, t: nat) returns (to: World)
    requires Reaches(s, w) && t in w.txs && w.txs[t].op.Guarded? && w.txs[t].op.privileged == s.p
    requires w.txs[t].pc == Scan({}) && !Covers(w.db.users, w.txs[t].who, s.p)
    ensures Reaches(s, to) && to.db == w.db && to.clock == w.clock && to.txs == w.txs[t := w.txs[t].(pc := Apply)]
  {
    to := GuardRead(s, w, t, Privilege);
    to := GuardRead(s, to, t, Apply);
  }

  /** No removal aimed at an account is between its scan and its write. */
  ghost predicate Unaimed(w: World, id: Id) {
    forall t :: t in w.txs && Removal(w.txs[t]) && w.txs[t].op.id == id ==> StageOf(w.txs[t].pc) == None
  }

  /** Whether the one account that an event may bring into the pool is aimed at by no removal. */
  lemma JoinsFreely(w: World, e: Event, p: Roles, late: iset<Join>, id: Id)
    requires May(w, e) && Unaimed(w, id)
    requires forall other :: other != id && InPool(Next(w, e).db.users, other, p) ==> InPool(w.db.users, other, p)
    ensures LateOnly(w, e, p, late)
  {
  }

  lemma JoinsOnly(w: World, e: Event, p: Roles, late: iset<Join>, join: Join, t: nat)
    requires May(w, e) && join in late && join.op.Guarded? && join.op.id in Next(w, e).db.users
    requires join.way == WayIn(w, e, join.op.id)
    requires forall other ::
               other != join.op.id && InPool(Next(w, e).db.users, other, p) ==> InPool(w.db.users, other, p)
    requires t in w.txs && w.txs[t].op == join.op && StageOf(w.txs[t].pc) == Some(join.stage)
    requires forall u :: u in w.txs && u != t ==> StageOf(w.txs[u].pc) == None
    ensures LateOnly(w, e, p, late)
  {
  }

  /** A role write that gives a role of the pool. */
  function Promotion(id: Id, role: Role, p: Roles): Op {
    Guarded(id, None, ToRole(role), p)
  }

  /** The world before a promotion's commit. */
  function Promoting(w: World, t: nat, id: Id, role: Role, p: Roles): World
    requires id in w.db.users
  {
    w.(txs := w.txs[t := Opened(Promotion(id, role, p)).(
                    pc := Commit, held := {id}, updated := map[id := w.db.users[id].(role := role)])])
  }

  lemma PromotionCommits(w: World, t: nat, id: Id, role: Role, p: Roles)
    requires id in w.db.users
    ensures May(Promoting(w, t, id, role, p), Do(t))
    ensures Next(Promoting(w, t, id, role, p), Do(t)).db.users == w.db.users[id := w.db.users[id].(role := role)]
  {
  }

  lemma ReadyToPromote(s: Story, w: World, t: nat, id: Id, role: Role) returns (to: World)
    requires role in s.p && "" !in s.p && Reaches(s, w)
    requires t !in w.txs && id in w.db.users && UserFree(w, t, id)
    ensures Reaches(s, to) && to == Promoting(w, t, id, role, s.p)
  {
    var begun := Quietly(s, w, Begin(t, Promotion(id, role, s.p)));
    assert begun == w.(txs := w.txs[t := Opened(Promotion(id, role, s.p))]) by {
      assert begun.minted == w.minted;
    }
    to := Update(s, begun, t, id);
    var held: set<Id> := {id};
    assert {} + held == held;
    assert to.txs == Promoting(w, t, id, role, s.p).txs;
  }

  /** A promotion runs from its begin to its commit. */
  lemma Promote(s: Story, w: World, t: nat, id: Id, role: Role) returns (to: World)
    requires role in s.p && "" !in s.p && Reaches(s, w) && w.db.tokens == map[]
    requires t !in w.txs && id in w.db.users && UserFree(w, t, id)
    requires May(Promoting(w, t, id, role, s.p), Do(t)) ==>
               LateOnly(Promoting(w, t, id, role, s.p), Do(t), s.p, s.late)
    ensures Reaches(s, to) && to.clock == w.clock
    ensures to.db == Tables(w.db.users[id := w.db.users[id].(role := role)], map[])
    ensures to.txs == w.txs[t := Finish(Opened(Promotion(id, role, s.p)), Done)]
  {
    to := ReadyToPromote(s, w, t, id, role);
    to := CommitAccount(s, to, t);
  }

  /** A commit that brings no account into the pool. */
  lemma JoinsNone(w: World, e: Event, p: Roles, late: iset<Join>)
    requires May(w, e)
    requires forall id :: InPool(Next(w, e).db.users, id, p) ==> InPool(w.db.users, id, p)
    ensures LateOnly(w, e, p, late)
  {
  }

  /** A commit of one account's row that leaves it out of the pool, or in it, brings none in. */
  lemma CommitsInPlace(w: World, t: nat, id: Id, user: User, p: Roles, late: iset<Join>)
    requires t in w.txs && w.txs[t].pc == Commit && w.txs[t].updated == map[id := user] && w.txs[t].dropped == {}
    requires user.role in p ==> InPool(w.db.users, id, p)
    ensures May(w, Do(t)) && LateOnly(w, Do(t), p, late)
  {
    JoinsNone(w, Do(t), p, late);
  }

  /** A removal that wrote its account runs to its commit, no token being stored. */
  lemma FinishWritten(s: Story, w: World, t: nat, id: Id, user: User) returns (to: World)
    requires Reaches(s, w) && t in w.txs && w.db.tokens == map[] && id in w.db.users
    requires w.txs[t].op.Guarded? && w.txs[t].pc == (if Closes(w.txs[t].op) then Clear else Commit)
    requires w.txs[t].updated == map[id := user] && (user.role in s.p ==> InPool(w.db.users, id, s.p))
    requires w.txs[t].dropped == {} && w.txs[t].deleted == {} && w.txs[t].inserted == map[]
    ensures Reaches(s, to) && to.clock == w.clock
    ensures to.db == Tables(w.db.users[id := user], map[]) && to.txs == w.txs[t := Finish(w.txs[t], Done)]
  {
    to := w;
    if Closes(w.txs[t].op) {
      to := ClearNothing(s, w, t);
    }
    CommitsInPlace(to, t, id, user, s.p, s.late);
    to := CommitAccount(s, to, t);
  }

  /** A removal past its guard runs to its commit, no token being stored. */
  lemma FinishRemoval(s: Story, w: World, t: nat, id: Id) returns (to: World)
    requires Reaches(s, w) && t in w.txs && "" !in s.p && w.db.tokens == map[] && UserFree(w, t, id)
    requires Removal(w.txs[t]) && w.txs[t].op.privileged == s.p && Matches(w.db.users, w.txs[t].op, id)
    requires w.txs[t].pc == Apply && w.txs[t].who == id
    requires w.txs[t].dropped == {} && w.txs[t].deleted == {} && w.txs[t].inserted == map[]
    ensures Reaches(s, to) && to.clock == w.clock
    ensures to.db == Tables(w.db.users[id := Changed(w.db.users[id], w.txs[t].op)], map[])
    ensures to.txs == w.txs[t := Finish(w.txs[t], Done)]
  {
    to := Update(s, w, t, id);
    to := FinishWritten(s, to, t, id, Changed(w.db.users[id], w.txs[t].op));
    assert to.txs == w.txs[t := Finish(w.txs[t], Done)];
  }
}
