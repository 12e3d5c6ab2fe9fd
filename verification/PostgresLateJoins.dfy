/** The guard's limit, exactly. A late join is harmful where the removal aimed at the account was judged on no role or
    on a privileged one, which it found on a stored account. Each harmful late join alone, of whatever removal, at
    whatever moment between its scan and its write and by whatever way into the pool, gives a run that loses the last
    cover. With CoverStays, the late joins that runs may make are the others. */
module PostgresLateJoins {
  import opened Basics
  import opened Accounts
  import opened Postgres
  import opened PostgresTokens
  import opened PostgresCover
  import opened PostgresRuns

  /** The administrator who is demoted, and the account promoted beside, where x is the one that joins late. */
  function Chief(x: Id): Id { x + 1 }

  function Deputy(x: Id): Id { x + 2 }

  /** The three accounts by their roles, none for one that is not there yet. */
  function Cast(x: Id, chief: Role, deputy: Role, third: Option<Role>): map<Id, User> {
    var two := map[Chief(x) := Someone("a", chief), Deputy(x) := Someone("c", deputy)];
    if third.Some? then two[x := Someone("x", third.value)] else two
  }

  /** One account's role replaced, or the third account added. */
  lemma Replaced(x: Id, chief: Role, deputy: Role, third: Option<Role>, role: Role)
    ensures var users := Cast(x, chief, deputy, third);
            && Chief(x) in users && Deputy(x) in users
            && users[Chief(x) := users[Chief(x)].(role := role)] == Cast(x, role, deputy, third)
            && users[Deputy(x) := users[Deputy(x)].(role := role)] == Cast(x, chief, role, third)
            && (third.Some? ==> users[x := users[x].(role := role)] == Cast(x, chief, deputy, Some(role)))
            && (third.None? ==> users[x := Someone("x", role)] == Cast(x, chief, deputy, Some(role)))
  {
  }

  function Demotion(id: Id, p: Roles): Op {
    Guarded(id, None, ToRole(""), p)
  }

  function Closing(id: Id, p: Roles): Op {
    Guarded(id, None, ToDisabled(true), p)
  }

  /** A harmful late join under a privileged set. */
  predicate Given(p: Roles, join: Join) {
    p != [] && "" !in p && Harmful(p, join)
  }

  /** The role that x has before it joins: none at all, no privileged one, or by the time of the check the held one. */
  function AtFirst(join: Join): Option<Role>
    requires join.op.Guarded?
  {
    if join.way.ByCreation? then None else if join.op.held.Some? then join.op.held else Some("")
  }

  function Outside(join: Join): Option<Role> {
    if join.way.ByCreation? then None else Some("")
  }

  function StoryOf(p: Roles, join: Join): Story
    requires Given(p, join)
  {
    Story(AtRest(Tables(Cast(join.op.id, p[0], "", AtFirst(join)), map[]), 0), p, iset{join})
  }

  /** The removal of x stands at a statement and holds nothing, and every other transaction ended. */
  ghost predicate Alone(w: World, users: map<Id, User>, op: Op, pc: Pc, used: set<nat>) {
    && w.db == Tables(users, map[]) && w.txs.Keys <= used
    && 2 in w.txs && w.txs[2] == Opened(op).(pc := pc)
    && forall t :: t in w.txs && t != 2 ==> w.txs[t].held == {} && w.txs[t].pc.Ended?
  }

  // The removal begins

  lemma BeginsUnjudged(p: Roles, join: Join) returns (w: World)
    requires Given(p, join) && join.op.held == None
    ensures Reaches(StoryOf(p, join), w)
    ensures Alone(w, Cast(join.op.id, p[0], "", Outside(join)), join.op, ScanStart({}), {2})
  {
    var s := StoryOf(p, join);
    StartsAt(s);
    w := Quietly(s, s.from, Begin(2, join.op));
  }

  /** Judged on a role, the removal finds that role. */
  lemma BeginsJudged(p: Roles, join: Join) returns (w: World)
    requires Given(p, join) && join.op.held.Some?
    ensures Reaches(StoryOf(p, join), w)
    ensures Alone(w, Cast(join.op.id, p[0], "", join.op.held), join.op, ScanStart({}), {2})
  {
    var s := StoryOf(p, join);
    StartsAt(s);
    w := Quietly(s, s.from, Begin(2, join.op));
    assert w.txs == map[2 := Opened(join.op)];
    w := Statement(s, w, 2, Opened(join.op).(pc := ScanStart({})));
  }

  /** A demotion of x, judged on a privileged role, locks the pool. */
  lemma DemotionHolds(p: Roles, join: Join) returns (w: World)
    requires Given(p, join) && join.op.held.Some?
    ensures Reaches(StoryOf(p, join), w) && w.db == Tables(Cast(join.op.id, p[0], "", join.op.held), map[])
    ensures w.txs == map[2 := Opened(join.op).(pc := ScanStart({})),
                         7 := Opened(Demotion(join.op.id, p)).(pc := Scan({}), held := {Chief(join.op.id), join.op.id})]
  {
    var s, x := StoryOf(p, join), join.op.id;
    var both: set<Id> := {Chief(x), x};
    var one: set<Id> := {Chief(x)};
    assert both - {Chief(x)} - {x} == {} && {} + one == one && one + {x} == both;
    w := BeginsJudged(p, join);
    assert w.txs == map[2 := Opened(join.op).(pc := ScanStart({}))];
    w := BeginScan(s, w, 7, Demotion(x, p), both);
    w := TakeRow(s, w, 7, Chief(x));
    w := TakeRow(s, w, 7, x);
  }

  /** It counts the administrator as its cover. */
  lemma DemotionPasses(p: Roles, join: Join) returns (w: World)
    requires Given(p, join) && join.op.held.Some?
    ensures Reaches(StoryOf(p, join), w) && w.db == Tables(Cast(join.op.id, p[0], "", join.op.held), map[])
    ensures w.txs == map[2 := Opened(join.op).(pc := ScanStart({})),
                         7 := Opened(Demotion(join.op.id, p)).(pc := Apply, held := {Chief(join.op.id), join.op.id})]
  {
    w := DemotionHolds(p, join);
    assert Covers(w.db.users, join.op.id, p) && Covers(w.db.users, Chief(join.op.id), p);
    w := PassGuard(StoryOf(p, join), w, 7, Chief(join.op.id));
  }

  /** It commits, so x is out of the pool again. */
  lemma DemotedAfterCheck(p: Roles, join: Join) returns (w: World)
    requires Given(p, join) && join.op.held.Some?
    ensures Reaches(StoryOf(p, join), w)
    ensures Alone(w, Cast(join.op.id, p[0], "", Some("")), join.op, ScanStart({}), {2, 7})
  {
    w := DemotionPasses(p, join);
    Replaced(join.op.id, p[0], "", join.op.held, "");
    w := FinishRemoval(StoryOf(p, join), w, 7, join.op.id);
  }

  /** The removal of x is about to scan, with x outside the pool. */
  lemma Begins(p: Roles, join: Join) returns (w: World)
    requires Given(p, join)
    ensures Reaches(StoryOf(p, join), w)
    ensures Alone(w, Cast(join.op.id, p[0], "", Outside(join)), join.op, ScanStart({}), {2, 7})
  {
    if join.op.held.Some? {
      w := DemotedAfterCheck(p, join);
    } else {
      w := BeginsUnjudged(p, join);
    }
  }

  // Its scan goes stale

  /** The demotion of the administrator holds its row, and the removal of x scans after it and finds that row alone. */
  ghost predicate Waiting(w: World, p: Roles, join: Join, deputy: Role, used: set<nat>)
    requires Given(p, join)
  {
    && w.db == Tables(Cast(join.op.id, p[0], deputy, Outside(join)), map[]) && w.txs.Keys <= used
    && 2 in w.txs && w.txs[2] == Opened(join.op).(pc := Scan({Chief(join.op.id)}))
    && 6 in w.txs && w.txs[6] == Opened(Demotion(Chief(join.op.id), p)).(pc := Scan({}), held := {Chief(join.op.id)})
    && forall t :: t in w.txs && t != 2 && t != 6 ==> w.txs[t].held == {} && w.txs[t].pc.Ended?
  }

  lemma PoolIsChief(p: Roles, join: Join, db: Tables)
    requires Given(p, join) && db == Tables(Cast(join.op.id, p[0], "", Outside(join)), map[])
    ensures forall id :: id in {Chief(join.op.id)} <==> InPool(db.users, id, p)
    ensures Ran(db, 0, Opened(join.op).(pc := ScanStart({}))) == Opened(join.op).(pc := Scan({Chief(join.op.id)}))
  {
    var row: set<Id> := {Chief(join.op.id)};
    assert Ran(db, 0, Opened(join.op).(pc := ScanStart({}))).pc.rows == row;
  }

  lemma ChiefHeld(p: Roles, join: Join) returns (w: World)
    requires Given(p, join)
    ensures Reaches(StoryOf(p, join), w) && w.db == Tables(Cast(join.op.id, p[0], "", Outside(join)), map[])
    ensures w.txs.Keys <= {2, 6, 7} && 2 in w.txs && w.txs[2] == Opened(join.op).(pc := ScanStart({}))
    ensures 6 in w.txs &&
            w.txs[6] == Opened(Demotion(Chief(join.op.id), p)).(pc := Scan({}), held := {Chief(join.op.id)})
    ensures forall t :: t in w.txs && t != 2 && t != 6 ==> w.txs[t].held == {} && w.txs[t].pc.Ended?
  {
    var s, x := StoryOf(p, join), join.op.id;
    var row: set<Id> := {Chief(x)};
    assert row - {Chief(x)} == {} && {} + row == row;
    w := Begins(p, join);
    PoolIsChief(p, join, w.db);
    w := BeginScan(s, w, 6, Demotion(Chief(x), p), row);
    w := TakeRow(s, w, 6, Chief(x));
  }

  lemma SnapshotTaken(p: Roles, join: Join) returns (w: World)
    requires Given(p, join)
    ensures Reaches(StoryOf(p, join), w) && Waiting(w, p, join, "", {2, 6, 7})
  {
    w := ChiefHeld(p, join);
    PoolIsChief(p, join, w.db);
    w := Statement(StoryOf(p, join), w, 2, Opened(join.op).(pc := Scan({Chief(join.op.id)})));
  }

  lemma DeputyJoinsFreely(w: World, p: Roles, join: Join)
    requires Given(p, join) && Waiting(w, p, join, "", {2, 6, 7})
    ensures May(Promoting(w, 3, Deputy(join.op.id), p[0], p), Do(3))
    ensures LateOnly(Promoting(w, 3, Deputy(join.op.id), p[0], p), Do(3), p, iset{join})
  {
    var about := Promoting(w, 3, Deputy(join.op.id), p[0], p);
    PromotionCommits(w, 3, Deputy(join.op.id), p[0], p);
    JoinsFreely(about, Do(3), p, iset{join}, Deputy(join.op.id));
  }

  /** The deputy is promoted, which no removal is aimed at. */
  lemma DeputyPromoted(p: Roles, join: Join) returns (w: World)
    requires Given(p, join)
    ensures Reaches(StoryOf(p, join), w) && Waiting(w, p, join, p[0], {2, 3, 6, 7})
  {
    var x := join.op.id;
    w := SnapshotTaken(p, join);
    DeputyJoinsFreely(w, p, join);
    Replaced(x, p[0], "", Outside(join), p[0]);
    w := Promote(StoryOf(p, join), w, 3, Deputy(x), p[0]);
  }

  /** The demotion counts the deputy as its cover. */
  lemma DeputyCounted(p: Roles, join: Join) returns (w: World)
    requires Given(p, join)
    ensures Reaches(StoryOf(p, join), w) && w.db == Tables(Cast(join.op.id, p[0], p[0], Outside(join)), map[])
    ensures w.txs.Keys <= {2, 3, 6, 7} && 2 in w.txs && w.txs[2] == Opened(join.op).(pc := Scan({Chief(join.op.id)}))
    ensures 6 in w.txs &&
            w.txs[6] == Opened(Demotion(Chief(join.op.id), p)).(pc := Apply, held := {Chief(join.op.id)})
    ensures forall t :: t in w.txs && t != 2 && t != 6 ==> w.txs[t].held == {} && w.txs[t].pc.Ended?
  {
    w := DeputyPromoted(p, join);
    assert Covers(w.db.users, Deputy(join.op.id), p) && Covers(w.db.users, Chief(join.op.id), p);
    w := PassGuard(StoryOf(p, join), w, 6, Deputy(join.op.id));
  }

  /** The demotion commits. */
  lemma ChiefDemoted(p: Roles, join: Join) returns (w: World)
    requires Given(p, join)
    ensures Reaches(StoryOf(p, join), w)
    ensures Alone(w, Cast(join.op.id, "", p[0], Outside(join)), join.op, Scan({Chief(join.op.id)}), {2, 3, 6, 7})
  {
    w := DeputyCounted(p, join);
    Replaced(join.op.id, p[0], p[0], Outside(join), "");
    w := FinishRemoval(StoryOf(p, join), w, 6, Chief(join.op.id));
  }

  /** The removal of x gets the administrator's row, which is privileged no more, so it holds nothing. */
  lemma ScanGoesStale(p: Roles, join: Join) returns (w: World)
    requires Given(p, join)
    ensures Reaches(StoryOf(p, join), w)
    ensures Alone(w, Cast(join.op.id, "", p[0], Outside(join)), join.op, Scan({}), {2, 3, 6, 7})
  {
    var row: set<Id> := {Chief(join.op.id)};
    assert row - {Chief(join.op.id)} == {};
    w := ChiefDemoted(p, join);
    w := Quietly(StoryOf(p, join), w, TakeUser(2, Chief(join.op.id)));
  }

  // The late join

  /** Where a removal that holds nothing stands at a stage. */
  function PcAt(stage: Stage): Pc {
    match stage
    case Scanning => Scan({})
    case Judging => Privilege
    case Writing => Apply
  }

  /** The removal of x goes on to the stage of the late join, x being no cover yet. */
  lemma StageReached(p: Roles, join: Join) returns (w: World)
    requires Given(p, join)
    ensures Reaches(StoryOf(p, join), w)
    ensures Alone(w, Cast(join.op.id, "", p[0], Outside(join)), join.op, PcAt(join.stage), {2, 3, 6, 7})
  {
    var s := StoryOf(p, join);
    w := ScanGoesStale(p, join);
    assert !Covers(w.db.users, join.op.id, p);
    if join.stage == Judging {
      w := GuardRead(s, w, 2, Privilege);
    } else if join.stage == Writing {
      w := SkipGuard(s, w, 2);
    }
  }

  lemma CreatedLate(p: Roles, join: Join) returns (w: World)
    requires Given(p, join) && join.way.ByCreation?
    ensures Reaches(StoryOf(p, join), w)
    ensures Alone(w, Cast(join.op.id, "", p[0], Some(p[0])), join.op, PcAt(join.stage), {2, 3, 6, 7})
  {
    var s := StoryOf(p, join);
    w := StageReached(p, join);
    Replaced(join.op.id, "", p[0], None, p[0]);
    var e := AddUser(join.op.id, Someone("x", p[0]));
    JoinsOnly(w, e, p, s.late, join, 2);
    w := Go(s, w, e);
  }

  lemma JoinsAsGiven(w: World, p: Roles, join: Join)
    requires Given(p, join) && join.way.ByRole?
    requires Alone(w, Cast(join.op.id, "", p[0], Some("")), join.op, PcAt(join.stage), {2, 3, 6, 7})
    ensures May(Promoting(w, 4, join.op.id, join.way.role, p), Do(4))
    ensures LateOnly(Promoting(w, 4, join.op.id, join.way.role, p), Do(4), p, iset{join})
  {
    var about := Promoting(w, 4, join.op.id, join.way.role, p);
    PromotionCommits(w, 4, join.op.id, join.way.role, p);
    JoinsOnly(about, Do(4), p, iset{join}, join, 2);
  }

  lemma PromotedLate(p: Roles, join: Join) returns (w: World)
    requires Given(p, join) && join.way.ByRole?
    ensures Reaches(StoryOf(p, join), w)
    ensures Alone(w, Cast(join.op.id, "", p[0], Some(join.way.role)), join.op, PcAt(join.stage), {2, 3, 4, 6, 7})
  {
    w := StageReached(p, join);
    JoinsAsGiven(w, p, join);
    Replaced(join.op.id, "", p[0], Some(""), join.way.role);
    w := Promote(StoryOf(p, join), w, 4, join.op.id, join.way.role);
  }

  /** The role that the removal of x was judged on, or any privileged one. */
  function Aim(p: Roles, join: Join): Role
    requires Given(p, join)
  {
    if join.op.held.Some? then join.op.held.value else p[0]
  }

  lemma MovesInPool(w: World, p: Roles, join: Join, role: Role)
    requires Given(p, join) && role in p
    requires Alone(w, Cast(join.op.id, "", p[0], Some(role)), join.op, PcAt(join.stage), {2, 3, 4, 6, 7})
    ensures May(Promoting(w, 8, join.op.id, Aim(p, join), p), Do(8))
    ensures LateOnly(Promoting(w, 8, join.op.id, Aim(p, join), p), Do(8), p, iset{join})
  {
    var about := Promoting(w, 8, join.op.id, Aim(p, join), p);
    PromotionCommits(w, 8, join.op.id, Aim(p, join), p);
    CommitsInPlace(about, 8, join.op.id, w.db.users[join.op.id].(role := Aim(p, join)), p, iset{join});
  }

  /** The role under which x joins. */
  function Joining(p: Roles, join: Join): Role
    requires Given(p, join)
  {
    if join.way.ByRole? then join.way.role else p[0]
  }

  lemma JoinedLate(p: Roles, join: Join) returns (w: World)
    requires Given(p, join)
    ensures Reaches(StoryOf(p, join), w)
    ensures Alone(w, Cast(join.op.id, "", p[0], Some(Joining(p, join))), join.op, PcAt(join.stage), {2, 3, 4, 6, 7})
  {
    if join.way.ByRole? {
      w := PromotedLate(p, join);
    } else {
      w := CreatedLate(p, join);
    }
  }

  /** Within the pool x gets the role that the removal may write to, if it has not joined under it. */
  lemma LateJoinAimed(p: Roles, join: Join) returns (w: World)
    requires Given(p, join)
    ensures Reaches(StoryOf(p, join), w)
    ensures Alone(w, Cast(join.op.id, "", p[0], Some(Aim(p, join))), join.op, PcAt(join.stage), {2, 3, 4, 6, 7, 8})
  {
    w := JoinedLate(p, join);
    MovesInPool(w, p, join, Joining(p, join));
    Replaced(join.op.id, "", p[0], Some(Joining(p, join)), Aim(p, join));
    w := Promote(StoryOf(p, join), w, 8, join.op.id, Aim(p, join));
  }

  /** The removal of x counts the deputy as its cover, or read before that x covers nothing. */
  lemma LateJoinPasses(p: Roles, join: Join) returns (w: World)
    requires Given(p, join)
    ensures Reaches(StoryOf(p, join), w)
    ensures Alone(w, Cast(join.op.id, "", p[0], Some(Aim(p, join))), join.op, Apply, {2, 3, 4, 6, 7, 8})
  {
    var s := StoryOf(p, join);
    w := LateJoinAimed(p, join);
    assert Covers(w.db.users, join.op.id, p) && Covers(w.db.users, Deputy(join.op.id), p);
    if join.stage == Scanning {
      w := PassGuard(s, w, 2, Deputy(join.op.id));
    } else if join.stage == Judging {
      w := GuardRead(s, w, 2, Cover);
      w := GuardRead(s, w, 2, Apply);
    }
  }

  // The last two covers

  /** The removal of the deputy locks the pool of its moment, the deputy and x. */
  lemma PoolHeld(p: Roles, join: Join) returns (w: World)
    requires Given(p, join)
    ensures Reaches(StoryOf(p, join), w) && w.db == Tables(Cast(join.op.id, "", p[0], Some(Aim(p, join))), map[])
    ensures 2 in w.txs && w.txs[2] == Opened(join.op).(pc := Apply) && 5 in w.txs
    ensures w.txs[5] ==
            Opened(Closing(Deputy(join.op.id), p)).(pc := Scan({}), held := {Deputy(join.op.id), join.op.id})
    ensures forall t :: t in w.txs && t != 5 ==> w.txs[t].held == {}
  {
    var s, x := StoryOf(p, join), join.op.id;
    var one: set<Id> := {Deputy(x)};
    var both: set<Id> := {Deputy(x), x};
    assert both - {Deputy(x)} - {x} == {} && {} + one == one && one + {x} == both;
    w := LateJoinPasses(p, join);
    w := BeginScan(s, w, 5, Closing(Deputy(x), p), both);
    w := TakeRow(s, w, 5, Deputy(x));
    w := TakeRow(s, w, 5, x);
  }

  /** It counts x as its cover. */
  lemma LateJoinCounted(p: Roles, join: Join) returns (w: World)
    requires Given(p, join)
    ensures Reaches(StoryOf(p, join), w) && w.db == Tables(Cast(join.op.id, "", p[0], Some(Aim(p, join))), map[])
    ensures 2 in w.txs && w.txs[2] == Opened(join.op).(pc := Apply) && 5 in w.txs
    ensures w.txs[5] == Opened(Closing(Deputy(join.op.id), p)).(pc := Apply, held := {Deputy(join.op.id), join.op.id})
    ensures forall t :: t in w.txs && t != 5 ==> w.txs[t].held == {}
  {
    w := PoolHeld(p, join);
    assert Covers(w.db.users, join.op.id, p) && Covers(w.db.users, Deputy(join.op.id), p);
    w := PassGuard(StoryOf(p, join), w, 5, join.op.id);
  }

  /** The removal of the deputy commits, and x covers alone. */
  lemma DeputyClosed(p: Roles, join: Join) returns (w: World)
    requires Given(p, join)
    ensures Reaches(StoryOf(p, join), w) && w.db.tokens == map[]
    ensures 2 in w.txs && w.txs[2] == Opened(join.op).(pc := Apply)
    ensures forall id :: Covers(w.db.users, id, p) <==> id == join.op.id
    ensures join.op.id in w.db.users && w.db.users[join.op.id] == Someone("x", Aim(p, join))
    ensures forall t :: t in w.txs ==> w.txs[t].held == {}
  {
    w := LateJoinCounted(p, join);
    w := FinishRemoval(StoryOf(p, join), w, 5, Deputy(join.op.id));
  }

  /** The removal of x then writes on what it read before, and no account covers any more. */
  lemma CoverLost(p: Roles, join: Join) returns (w: World)
    requires Given(p, join)
    ensures Reaches(StoryOf(p, join), w) && !HasCover(w.db.users, p)
  {
    w := DeputyClosed(p, join);
    ghost var last := w.db.users;
    w := FinishRemoval(StoryOf(p, join), w, 2, join.op.id);
    forall id ensures !Covers(w.db.users, id, p) {
      assert Covers(last, id, p) <==> id == join.op.id;
    }
  }

  lemma LateJoinLosesCover(p: Roles, join: Join)
    requires Given(p, join)
    ensures var from := StoryOf(p, join).from;
            && HasCover(from.db.users, p) && Sound(from.db) && from == AtRest(from.db, 0)
            && exists run :: Possible(from, run) && SteadyRun(from, run, p, iset{join}) &&
                             !HasCover(After(from, run).db.users, p)
  {
    var s := StoryOf(p, join);
    assert Covers(s.from.db.users, Chief(join.op.id), p);
    var w := CoverLost(p, join);
    var run :| Possible(s.from, run) && SteadyRun(s.from, run, s.p, s.late) && After(s.from, run) == w;
  }

  lemma {:induction false} MoreLate(w: World, run: seq<Event>, p: Roles, few: iset<Join>, many: iset<Join>)
    requires Possible(w, run) && SteadyRun(w, run, p, few) && few <= many
    ensures SteadyRun(w, run, p, many)
    decreases run
  {
    if run != [] {
      MoreLate(Next(w, run[0]), run[1..], p, few, many);
    }
  }

  /** Whether the guard keeps the last cover in every run whose late joins are all among these. */
  ghost predicate KeepsCover(p: Roles, late: iset<Join>) {
    forall db, clock, run ::
      (Sound(db) && HasCover(db.users, p) && Possible(AtRest(db, clock), run) &&
       SteadyRun(AtRest(db, clock), run, p, late)) ==>
        HasCover(After(AtRest(db, clock), run).db.users, p)
  }

  /** The guard keeps the last cover in every run exactly when each late join that runs may make is harmless: of a
      removal judged on a role outside the privileged set, or none that can happen. */
  lemma GuardHoldsIffHarmless(p: Roles, late: iset<Join>)
    requires p != [] && "" !in p
    ensures KeepsCover(p, late) <==> late <= Harmless(p)
  {
    if join: Join :| join in late && Harmful(p, join) {
      LateJoinLosesCover(p, join);
      var from := StoryOf(p, join).from;
      var run :| Possible(from, run) && SteadyRun(from, run, p, iset{join}) && !HasCover(After(from, run).db.users, p);
      MoreLate(from, run, p, iset{join}, late);
      assert from == AtRest(from.db, 0);
    } else {
      assert late <= Harmless(p);
      forall db, clock, run |
        Sound(db) && HasCover(db.users, p) && Possible(AtRest(db, clock), run) &&
        SteadyRun(AtRest(db, clock), run, p, late)
        ensures HasCover(After(AtRest(db, clock), run).db.users, p)
      {
        MoreLate(AtRest(db, clock), run, p, late, Harmless(p));
        CoverStays(db, clock, run, p);
      }
    }
  }
}
