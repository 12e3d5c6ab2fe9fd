/** Each of the four late answers of a refused PostgreSQL transaction happens in some run, the first three even in one
    in which no account joins the privileged pool too late. */
module PostgresLateAnswers {
  import opened Basics
  import opened Accounts
  import opened Postgres
  import opened PostgresTokens
  import opened PostgresCover
  import opened PostgresRuns
  import opened PostgresAnswers
  import PostgresCommits

  function StoryFrom(db: Tables, p: Roles): Story {
    Story(AtRest(db, 0), p, iset{})
  }

  /** Whether a transaction is about to be refused in a world that some run of a story leads to. */
  ghost predicate RefusesIn(s: Story, w: World, t: nat) {
    Reaches(s, w) && May(w, Do(t)) && Refuses(w.db, w.clock, w.txs[t])
  }

  // A redemption whose account closed since

  const RESET: Hash := 5

  /** An account with no role and a live reset token. */
  function WithReset(): Tables {
    Tables(map[1 := Someone("a", "")], map[RESET := Token(1, Reset, 10)])
  }

  function Closing(p: Roles): Op {
    Guarded(1, None, ToDisabled(true), p)
  }

  function Redemption(): Op {
    ResetBy(RESET, 0, "new")
  }

  function Finding(): Transaction {
    Opened(Redemption()).(who := 1, pc := Hold)
  }

  /** The guarded disable of the account, with the account written. */
  function Disabling(p: Roles): Transaction {
    Opened(Closing(p)).(held := {1}, pc := Clear, updated := map[1 := Someone("a", "").(disabled := true)])
  }

  lemma DisableStatements(p: Roles)
    ensures Ran(WithReset(), 0, Disabling(p)) == Disabling(p).(pc := Clearing({RESET}))
    ensures TookToken(WithReset(), Disabling(p).(pc := Clearing({RESET})), RESET) ==
            Disabling(p).(pc := Clearing({}), deleted := {RESET})
    ensures Ran(WithReset(), 0, Disabling(p).(pc := Clearing({}), deleted := {RESET})) ==
            Disabling(p).(pc := Commit, deleted := {RESET})
  {
    var one: set<Hash> := {RESET};
    assert one - {RESET} == {} && {} + one == one;
    assert Ran(WithReset(), 0, Disabling(p)).pc.hashes == one;
  }

  /** The redemption finds the token. */
  lemma TokenFound(p: Roles) returns (w: World)
    requires p != [] && "" !in p
    ensures Reaches(StoryFrom(WithReset(), p), w) && w.db == WithReset() && w.clock == 0
    ensures w.txs == map[1 := Finding()]
  {
    var s := StoryFrom(WithReset(), p);
    StartsAt(s);
    w := Quietly(s, s.from, Begin(1, Redemption()));
    assert w.txs == map[1 := Opened(Redemption())];
    w := Statement(s, w, 1, Finding());
  }

  /** A guarded disable of its account scans no row and comes to its write. */
  lemma DisableJudged(p: Roles) returns (w: World)
    requires p != [] && "" !in p
    ensures Reaches(StoryFrom(WithReset(), p), w) && w.db == WithReset() && w.clock == 0
    ensures w.txs == map[1 := Finding(), 2 := Opened(Closing(p)).(pc := Apply)]
  {
    var s := StoryFrom(WithReset(), p);
    w := TokenFound(p);
    w := BeginScan(s, w, 2, Closing(p), {});
    w := SkipGuard(s, w, 2);
  }

  lemma DisableWrote(p: Roles) returns (w: World)
    requires p != [] && "" !in p
    ensures Reaches(StoryFrom(WithReset(), p), w) && w.db == WithReset() && w.clock == 0
    ensures w.txs == map[1 := Finding(), 2 := Disabling(p)]
  {
    var none: set<Id> := {};
    assert none + {1} == {1};
    w := DisableJudged(p);
    w := Update(StoryFrom(WithReset(), p), w, 2, 1);
  }

  /** The disable deletes the token. */
  lemma TokenDeleted(p: Roles) returns (w: World)
    requires p != [] && "" !in p
    ensures Reaches(StoryFrom(WithReset(), p), w) && w.db == WithReset() && w.clock == 0
    ensures w.txs == map[1 := Finding(), 2 := Disabling(p).(pc := Clearing({}), deleted := {RESET})]
  {
    var s := StoryFrom(WithReset(), p);
    DisableStatements(p);
    w := DisableWrote(p);
    w := Statement(s, w, 2, Disabling(p).(pc := Clearing({RESET})));
    w := Quietly(s, w, TakeToken(2, RESET));
  }

  lemma DisableEnds(p: Roles) returns (w: World)
    requires p != [] && "" !in p
    ensures Reaches(StoryFrom(WithReset(), p), w) && w.db == WithReset() && w.clock == 0
    ensures w.txs == map[1 := Finding(), 2 := Disabling(p).(pc := Commit, deleted := {RESET})]
  {
    DisableStatements(p);
    w := TokenDeleted(p);
    w := Statement(StoryFrom(WithReset(), p), w, 2, Disabling(p).(pc := Commit, deleted := {RESET}));
  }

  /** The disable commits. */
  lemma AccountClosed(p: Roles) returns (w: World)
    requires p != [] && "" !in p
    ensures Reaches(StoryFrom(WithReset(), p), w)
    ensures w.db == Tables(map[1 := Someone("a", "").(disabled := true)], map[])
    ensures 1 in w.txs && w.txs[1] == Finding()
  {
    var s := StoryFrom(WithReset(), p);
    w := DisableEnds(p);
    CommitsInPlace(w, 2, 1, Someone("a", "").(disabled := true), p, s.late);
    w := Go(s, w, Do(2));
    assert w.db.tokens.Keys == {};
    assert w.db.users == map[1 := Someone("a", "").(disabled := true)];
  }

  /** The redemption is then refused for its account where the contract misses the token. */
  lemma RedemptionOfClosed(p: Roles)
    requires p != [] && "" !in p
    ensures exists w :: RefusesIn(StoryFrom(WithReset(), p), w, 1) && ClosedSince(w.txs[1]) &&
                        Ran(w.db, w.clock, w.txs[1]).pc == Ended(UserNotFound) &&
                        ContractAnswers(w.db, w.clock, w.txs[1].op, TokenNotFound)
  {
    var w := AccountClosed(p);
    assert RefusesIn(StoryFrom(WithReset(), p), w, 1);
  }

  // A missed role that is held again

  /** A disabled account under a role outside the privileged set. */
  function WithHeld(held: Role): Tables {
    Tables(map[1 := Someone("a", held).(disabled := true)], map[])
  }

  function Enabling(held: Role, p: Roles): Op {
    Guarded(1, Some(held), ToDisabled(false), p)
  }

  function Rewriting(role: Role, p: Roles): Op {
    Guarded(1, None, ToRole(role), p)
  }

  /** A role write on an account outside the pool scans no row and comes to its write. */
  lemma RewriteJudged(s: Story, w: World, t: nat, role: Role) returns (to: World)
    requires s.p != [] && Reaches(s, w) && t !in w.txs && role !in s.p
    requires w.db.users.Keys == {1} && w.db.users[1].role !in s.p
    ensures Reaches(s, to) && to.db == w.db && to.clock == w.clock
    ensures to.txs == w.txs[t := Opened(Rewriting(role, s.p)).(pc := Apply)]
  {
    to := BeginScan(s, w, t, Rewriting(role, s.p), {});
    to := SkipGuard(s, to, t);
    assert to.txs == w.txs[t := Opened(Rewriting(role, s.p)).(pc := Apply)];
  }

  /** It runs to its commit. */
  lemma Rewrite(s: Story, w: World, t: nat, role: Role) returns (to: World)
    requires s.p != [] && "" !in s.p && Reaches(s, w) && t !in w.txs && w.db.tokens == map[] && role !in s.p
    requires w.db.users.Keys == {1} && w.db.users[1].role !in s.p && UserFree(w, t, 1)
    ensures Reaches(s, to) && to.clock == w.clock
    ensures to.db == Tables(w.db.users[1 := w.db.users[1].(role := role)], map[])
    ensures to.txs == w.txs[t := Finish(Opened(Rewriting(role, s.p)), Done)]
  {
    to := RewriteJudged(s, w, t, role);
    to := FinishRemoval(s, to, t, 1);
    assert to.txs == w.txs[t := Finish(Opened(Rewriting(role, s.p)), Done)];
  }

  /** The enable finds the role it was judged on. */
  lemma RoleFound(held: Role, p: Roles) returns (w: World)
    requires p != [] && held !in p && "" !in p
    ensures Reaches(StoryFrom(WithHeld(held), p), w) && w.db == WithHeld(held)
    ensures w.txs == map[1 := Opened(Enabling(held, p)).(pc := Apply)]
  {
    var s := StoryFrom(WithHeld(held), p);
    StartsAt(s);
    w := Quietly(s, s.from, Begin(1, Enabling(held, p)));
    assert w.txs == map[1 := Opened(Enabling(held, p))];
    w := Statement(s, w, 1, Opened(Enabling(held, p)).(pc := Apply));
  }

  /** The role moves. */
  lemma RoleMoves(held: Role, other: Role, p: Roles) returns (w: World)
    requires p != [] && held != other && held !in p && other !in p && "" !in p
    ensures Reaches(StoryFrom(WithHeld(held), p), w)
    ensures w.db == Tables(map[1 := Someone("a", other).(disabled := true)], map[])
    ensures w.txs.Keys == {1, 2} && w.txs[1] == Opened(Enabling(held, p)).(pc := Apply) && w.txs[2].held == {}
  {
    w := RoleFound(held, p);
    w := Rewrite(StoryFrom(WithHeld(held), p), w, 2, other);
  }

  /** The enable misses the role. */
  lemma RoleMissed(held: Role, other: Role, p: Roles) returns (w: World)
    requires p != [] && held != other && held !in p && other !in p && "" !in p
    ensures Reaches(StoryFrom(WithHeld(held), p), w)
    ensures w.db == Tables(map[1 := Someone("a", other).(disabled := true)], map[])
    ensures w.txs.Keys == {1, 2} && w.txs[1] == Opened(Enabling(held, p)).(pc := Missed) && w.txs[2].held == {}
  {
    w := RoleMoves(held, other, p);
    w := Statement(StoryFrom(WithHeld(held), p), w, 1, Opened(Enabling(held, p)).(pc := Missed));
  }

  /** The role comes back. */
  lemma RoleComesBack(held: Role, other: Role, p: Roles) returns (w: World)
    requires p != [] && held != other && held !in p && other !in p && "" !in p
    ensures Reaches(StoryFrom(WithHeld(held), p), w)
    ensures w.db == WithHeld(held) && 1 in w.txs && w.txs[1] == Opened(Enabling(held, p)).(pc := Missed)
  {
    w := RoleMissed(held, other, p);
    w := Rewrite(StoryFrom(WithHeld(held), p), w, 3, held);
  }

  /** The enable is then refused for a change of role, where the contract's lands. */
  lemma MissedRoleHeldAgain(held: Role, other: Role, p: Roles)
    requires p != [] && held != other && held !in p && other !in p && "" !in p
    ensures exists w :: RefusesIn(StoryFrom(WithHeld(held), p), w, 1) && HeldAgain(w.db, w.txs[1]) &&
                        Ran(w.db, w.clock, w.txs[1]).pc == Ended(RoleChanged) &&
                        Accounts.GuardedDisable(PostgresCommits.AsDb(w.db), 1, Some(held), false, p).answer == Done
  {
    var w := RoleComesBack(held, other, p);
    assert RefusesIn(StoryFrom(WithHeld(held), p), w, 1);
  }

  // A last privileged account that another one covers for since

  function WithChief(p: Roles): Tables
    requires p != []
  {
    Tables(map[1 := Someone("a", p[0]), 2 := Someone("b", "")], map[])
  }

  function Demotion(p: Roles): Op {
    Guarded(1, None, ToRole(""), p)
  }

  /** The demotion of the only administrator holds its row. */
  lemma ChiefHeld(p: Roles) returns (w: World)
    requires p != [] && "" !in p
    ensures Reaches(StoryFrom(WithChief(p), p), w) && w.db == WithChief(p)
    ensures w.txs == map[1 := Opened(Demotion(p)).(pc := Scan({}), held := {1})]
  {
    var s := StoryFrom(WithChief(p), p);
    var one: set<Id> := {1};
    assert one - {1} == {} && {} + one == one;
    StartsAt(s);
    w := BeginScan(s, s.from, 1, Demotion(p), one);
    w := TakeRow(s, w, 1, 1);
  }

  /** It reads that the administrator covers. */
  lemma ChiefCovers(p: Roles) returns (w: World)
    requires p != [] && "" !in p
    ensures Reaches(StoryFrom(WithChief(p), p), w) && w.db == WithChief(p)
    ensures w.txs == map[1 := Opened(Demotion(p)).(pc := Cover, held := {1})]
  {
    var s := StoryFrom(WithChief(p), p);
    w := ChiefHeld(p);
    assert Covers(w.db.users, 1, p);
    w := GuardRead(s, w, 1, Privilege);
    w := GuardRead(s, w, 1, Cover);
  }

  /** It finds no other cover. */
  lemma NoCoverFound(p: Roles) returns (w: World)
    requires p != [] && "" !in p
    ensures Reaches(StoryFrom(WithChief(p), p), w) && w.db == WithChief(p)
    ensures w.txs == map[1 := Opened(Demotion(p)).(pc := Recheck, held := {1})]
  {
    w := ChiefCovers(p);
    assert !Covers(w.db.users, 2, p);
    w := GuardRead(StoryFrom(WithChief(p), p), w, 1, Recheck);
  }

  lemma SecondJoinsFreely(w: World, p: Roles)
    requires p != [] && w.db == WithChief(p) && w.txs == map[1 := Opened(Demotion(p)).(pc := Recheck, held := {1})]
    ensures May(Promoting(w, 2, 2, p[0], p), Do(2)) && LateOnly(Promoting(w, 2, 2, p[0], p), Do(2), p, iset{})
  {
    PromotionCommits(w, 2, 2, p[0], p);
    JoinsFreely(Promoting(w, 2, 2, p[0], p), Do(2), p, iset{}, 2);
  }

  lemma SecondPromoted(p: Roles) returns (w: World)
    requires p != [] && "" !in p
    ensures Reaches(StoryFrom(WithChief(p), p), w)
    ensures w.db == Tables(map[1 := Someone("a", p[0]), 2 := Someone("b", p[0])], map[])
    ensures 1 in w.txs && w.txs[1] == Opened(Demotion(p)).(pc := Recheck, held := {1})
  {
    w := NoCoverFound(p);
    SecondJoinsFreely(w, p);
    w := Promote(StoryFrom(WithChief(p), p), w, 2, 2, p[0]);
  }

  /** Another account is promoted, and the demotion is refused as that of the last one where the contract's lands. */
  lemma RefusedThoughCovered(p: Roles)
    requires p != [] && "" !in p
    ensures exists w :: RefusesIn(StoryFrom(WithChief(p), p), w, 1) && CoveredSince(w.db, w.clock, w.txs[1]) &&
                        Accounts.GuardedRole(PostgresCommits.AsDb(w.db), 1, None, "", p).answer == Done
  {
    var w := SecondPromoted(p);
    assert Covers(w.db.users, 2, p);
    UncoversIff(w.db, 1, p);
    assert RefusesIn(StoryFrom(WithChief(p), p), w, 1);
  }

  // A last privileged account that covers nothing since

  ghost function Alone(p: Roles): Story {
    Story(AtRest(Tables(map[1 := Someone("a", "")], map[]), 0), p, iset join: Join | join.op.Guarded?)
  }

  /** A demotion judged its account no cover and is about to write, and a disable of it has scanned the empty pool. */
  lemma BothJudge(p: Roles) returns (w: World)
    requires p != [] && "" !in p
    ensures Reaches(Alone(p), w) && w.db == Alone(p).from.db
    ensures w.txs == map[1 := Opened(Closing(p)).(pc := Scan({})), 2 := Opened(Demotion(p)).(pc := Apply)]
  {
    StartsAt(Alone(p));
    w := BeginScan(Alone(p), Alone(p).from, 2, Demotion(p), {});
    w := SkipGuard(Alone(p), w, 2);
    assert w.txs == map[2 := Opened(Demotion(p)).(pc := Apply)];
    w := BeginScan(Alone(p), w, 1, Closing(p), {});
  }

  lemma AccountPromoted(p: Roles) returns (w: World)
    requires p != [] && "" !in p
    ensures Reaches(Alone(p), w) && w.db == Tables(map[1 := Someone("a", p[0])], map[])
    ensures w.txs.Keys == {1, 2, 3} && w.txs[1] == Opened(Closing(p)).(pc := Scan({}))
    ensures w.txs[2] == Opened(Demotion(p)).(pc := Apply) && w.txs[3].held == {}
  {
    w := BothJudge(p);
    w := Promote(Alone(p), w, 3, 1, p[0]);
  }

  /** The account is promoted, and the disable finds that it covers. */
  lemma CoverRead(p: Roles) returns (w: World)
    requires p != [] && "" !in p
    ensures Reaches(Alone(p), w) && w.db == Tables(map[1 := Someone("a", p[0])], map[])
    ensures w.txs.Keys == {1, 2, 3} && w.txs[1] == Opened(Closing(p)).(pc := Cover)
    ensures w.txs[2] == Opened(Demotion(p)).(pc := Apply) && w.txs[3].held == {}
  {
    w := AccountPromoted(p);
    assert Covers(w.db.users, 1, p);
    w := GuardRead(Alone(p), w, 1, Privilege);
    w := GuardRead(Alone(p), w, 1, Cover);
  }

  /** It finds no other cover. */
  lemma CoversAlone(p: Roles) returns (w: World)
    requires p != [] && "" !in p
    ensures Reaches(Alone(p), w) && w.db == Tables(map[1 := Someone("a", p[0])], map[])
    ensures w.txs.Keys == {1, 2, 3} && w.txs[1] == Opened(Closing(p)).(pc := Recheck)
    ensures w.txs[2] == Opened(Demotion(p)).(pc := Apply) && w.txs[3].held == {}
  {
    w := CoverRead(p);
    w := GuardRead(Alone(p), w, 1, Recheck);
  }

  lemma DemotedMeanwhile(p: Roles) returns (w: World)
    requires p != [] && "" !in p
    ensures Reaches(Alone(p), w) && w.db == Tables(map[1 := Someone("a", "")], map[])
    ensures 1 in w.txs && w.txs[1] == Opened(Closing(p)).(pc := Recheck)
  {
    w := CoversAlone(p);
    w := FinishRemoval(Alone(p), w, 2, 1);
  }

  /** The demotion writes, and the disable is refused as that of the last cover, where the contract's lands. */
  lemma RefusedThoughLapsed(p: Roles)
    requires p != [] && "" !in p
    ensures exists w :: RefusesIn(Alone(p), w, 1) && LapsedSince(w.db, w.clock, w.txs[1]) &&
                        !CoveredBeside(w.db.users, 1, p) &&
                        Accounts.GuardedDisable(PostgresCommits.AsDb(w.db), 1, None, true, p).answer == Done
  {
    var w := DemotedMeanwhile(p);
    UncoversIff(w.db, 1, p);
    assert RefusesIn(Alone(p), w, 1);
  }
}
