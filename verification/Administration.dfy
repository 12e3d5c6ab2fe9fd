/** Administration requests over the atomic store: each reads the role its target holds, decides by what the actor's
    role carries, and writes only while the target still holds that role. Requests interleave between those steps. */
module Administration {
  import opened Basics
  import opened Accounts
  import AccountLaws

  type Capability = string
  type RequestId = nat

  /** Which roles exist and what each carries. */
  type Table = map<Role, set<Capability>>

  datatype Refusal =
    | RoleInsufficient | UnknownRole | UserNotEditable | RoleNotGrantable | SelfDisable | SelfRole
    | Store(answer: Answer)

  datatype Action =
    | Create(id: Id, user: User)
    | SetRole(target: Id, role: Role)
    | SetDisabled(target: Id, disabled: bool)

  /** A request's step: its identity is known, it read the role its target holds, or it was answered. */
  datatype Pc = Identified | Judged(held: Option<Role>) | Refused(why: Refusal) | Landed

  datatype Request = Request(actor: Id, actorRole: Role, action: Action, pc: Pc)

  datatype World = World(
    db: Db, roles: Option<Table>, privileged: Roles, requests: map<RequestId, Request>)

  datatype Event =
    | Arrive(request: RequestId, actor: Id, action: Action)
    | Judge(request: RequestId)
    | Write(request: RequestId)

  // Decisions

  function Carries(table: Table, role: Role): set<Capability> {
    if role in table then table[role] else {}
  }

  predicate Outranks(table: Table, caller: Role, target: Role) {
    Carries(table, target) <= Carries(table, caller)
  }

  /** Whether the source declares the role, every role passing without a source. */
  predicate Declared(roles: Option<Table>, role: Role) {
    roles == None || (role != "" && role in roles.value)
  }

  predicate Editable(roles: Option<Table>, reader: Role, held: Role) {
    roles == None || !Declared(roles, held) || Outranks(roles.value, reader, held)
  }

  /** Why the actor may not write to an account holding a role, none when it may. */
  function HeldRefusal(roles: Option<Table>, actor: Role, held: Role, reenable: bool): Option<Refusal> {
    if !Editable(roles, actor, held) then Some(UserNotEditable)
    else if reenable && !Declared(roles, held) then Some(RoleNotGrantable)
    else None
  }

  /** Why the actor may not hand out a role, none when it may. */
  function HandoutRefusal(roles: Option<Table>, actor: Role, role: Role): Option<Refusal> {
    if roles == None then None
    else if !Declared(roles, role) then Some(UnknownRole)
    else if Outranks(roles.value, actor, role) then None
    else Some(RoleNotGrantable)
  }

  function RoleChangeRefusal(roles: Option<Table>, actor: Id, target: Id, role: Role): Option<Refusal> {
    if actor == target then Some(SelfRole)
    else if !Declared(roles, role) then Some(UnknownRole)
    else None
  }

  predicate Unprivileged(privileged: Roles, actor: Role) {
    privileged != [] && !Holds(privileged, actor)
  }

  // Steps

  function Refuse(request: Request, why: Refusal): Request {
    request.(pc := Refused(why))
  }

  function Answered(request: Request, answer: Answer): Request {
    if answer == Done then request.(pc := Landed) else Refuse(request, Store(answer))
  }

  function Target(action: Action): Id {
    match action
    case Create(id, _) => id
    case SetRole(target, _) => target
    case SetDisabled(target, _) => target
  }

  predicate Reenables(action: Action) {
    action.SetDisabled? && !action.disabled
  }

  /** refuseUnprivileged and then the read of the held role with what it refuses. */
  function Judging(w: World, request: Request): Request {
    if Unprivileged(w.privileged, request.actorRole) then Refuse(request, RoleInsufficient)
    else if request.action.Create? || w.roles == None then request.(pc := Judged(None))
    else if Target(request.action) !in w.db.users then Refuse(request, Store(UserNotFound))
    else
      var held := w.db.users[Target(request.action)].role;
      match HeldRefusal(w.roles, request.actorRole, held, Reenables(request.action))
      case Some(why) => Refuse(request, why)
      case None => request.(pc := Judged(Some(held)))
  }

  /** The decisions that need no read, and the write that lands only while the held role is still the judged one. */
  ghost function Writing(w: World, request: Request): (Request, Db)
    requires request.pc.Judged?
  {
    var held := request.pc.held;
    match request.action
    case Create(id, user) =>
      (match HandoutRefusal(w.roles, request.actorRole, user.role)
       case Some(why) => (Refuse(request, why), w.db)
       case None =>
         var outcome := CreateUser(w.db, id, user);
         (Answered(request, outcome.answer), outcome.db))
    case SetRole(target, role) =>
      (match HandoutRefusal(w.roles, request.actorRole, role)
       case Some(why) => (Refuse(request, why), w.db)
       case None =>
         match RoleChangeRefusal(w.roles, request.actor, target, role)
         case Some(why) => (Refuse(request, why), w.db)
         case None =>
           var outcome := GuardedRole(w.db, target, held, role, w.privileged);
           (Answered(request, outcome.answer), outcome.db))
    case SetDisabled(target, disabled) =>
      if disabled && request.actor == target then (Refuse(request, SelfDisable), w.db)
      else if !disabled && held.Some? && !Declared(w.roles, held.value) then (Refuse(request, RoleNotGrantable), w.db)
      else
        var outcome := GuardedDisable(w.db, target, held, disabled, w.privileged);
        (Answered(request, outcome.answer), outcome.db)
  }

  predicate May(w: World, e: Event) {
    match e
    case Arrive(r, actor, action) =>
      r !in w.requests && Enabled(w.db.users, actor) && (action.Create? ==> action.id !in w.db.users)
    case Judge(r) => r in w.requests && w.requests[r].pc == Identified
    case Write(r) =>
      r in w.requests && w.requests[r].pc.Judged? &&
      (w.requests[r].action.Create? ==> w.requests[r].action.id !in w.db.users)
  }

  ghost function Next(w: World, e: Event): World
    requires May(w, e)
  {
    match e
    case Arrive(r, actor, action) =>
      w.(requests := w.requests[r := Request(actor, w.db.users[actor].role, action, Identified)])
    case Judge(r) => w.(requests := w.requests[r := Judging(w, w.requests[r])])
    case Write(r) =>
      var (request, db) := Writing(w, w.requests[r]);
      w.(db := db, requests := w.requests[r := request])
  }

  ghost predicate Possible(w: World, run: seq<Event>)
    decreases run
  {
    run == [] || (May(w, run[0]) && Possible(Next(w, run[0]), run[1..]))
  }

  ghost function After(w: World, run: seq<Event>): World
    requires Possible(w, run)
    decreases run
  {
    if run == [] then w else After(Next(w, run[0]), run[1..])
  }

  // No capability appears

  /** A capability that some account of the store carries. */
  ghost predicate CarriedBySome(db: Db, table: Table, capability: Capability) {
    exists id :: id in db.users && capability in Carries(table, db.users[id].role)
  }

  /** Everything that accounts and in-flight actors carry, and that judged targets held, was carried at the start. */
  ghost predicate Contained(w: World, start: Db, table: Table) {
    && w.roles == Some(table)
    && (forall id, c :: id in w.db.users && c in Carries(table, w.db.users[id].role) ==> CarriedBySome(start, table, c))
    && (forall r, c :: r in w.requests && c in Carries(table, w.requests[r].actorRole) ==>
          CarriedBySome(start, table, c))
  }

  /** A request past its judgement was judged on the role it holds to. */
  ghost predicate JudgedFairly(w: World) {
    forall r :: r in w.requests && w.requests[r].pc.Judged? && !w.requests[r].action.Create? && w.roles.Some? ==>
      var request := w.requests[r];
      request.pc.held.Some? &&
      HeldRefusal(w.roles, request.actorRole, request.pc.held.value, Reenables(request.action)) == None
  }

  lemma WriteKeepsContained(w: World, r: RequestId, start: Db, table: Table)
    requires May(w, Write(r)) && Contained(w, start, table)
    ensures Contained(Next(w, Write(r)), start, table)
  {
    var request := w.requests[r];
    var next := Next(w, Write(r));
    forall id, c | id in next.db.users && c in Carries(table, next.db.users[id].role)
      ensures CarriedBySome(start, table, c)
    {
      if id in w.db.users && w.db.users[id].role == next.db.users[id].role {
        assert CarriedBySome(start, table, c);
      } else {
        assert c in Carries(table, request.actorRole);
      }
    }
  }

  lemma EventKeeps(w: World, e: Event, start: Db, table: Table)
    requires May(w, e) && Contained(w, start, table) && JudgedFairly(w)
    ensures Contained(Next(w, e), start, table) && JudgedFairly(Next(w, e))
  {
    match e
    case Write(r) => WriteKeepsContained(w, r, start, table);
    case _ =>
  }

  lemma {:induction false} RunKeeps(w: World, run: seq<Event>, start: Db, table: Table)
    requires Possible(w, run) && Contained(w, start, table) && JudgedFairly(w)
    ensures Contained(After(w, run), start, table) && JudgedFairly(After(w, run))
    decreases run
  {
    if run != [] {
      EventKeeps(w, run[0], start, table);
      RunKeeps(Next(w, run[0]), run[1..], start, table);
    }
  }

  /** Administration over a store, with no request under way. */
  function Quiet(db: Db, table: Table, privileged: Roles): World {
    World(db, Some(table), privileged, map[])
  }

  /** In every interleaving of requests, what an account or an in-flight actor carries some account carried at the
      start. */
  lemma NoCapabilityAppears(db: Db, table: Table, privileged: Roles, run: seq<Event>)
    requires Possible(Quiet(db, table, privileged), run)
    ensures var w := After(Quiet(db, table, privileged), run);
            && (forall id, c :: id in w.db.users && c in Carries(table, w.db.users[id].role) ==>
                  CarriedBySome(db, table, c))
            && (forall r, c :: r in w.requests && c in Carries(table, w.requests[r].actorRole) ==>
                  CarriedBySome(db, table, c))
  {
    RunKeeps(Quiet(db, table, privileged), run, db, table);
  }

  /** In every interleaving, a role or disabled write that lands hits another account, which at that moment holds the
      very role the actor was judged on: one no source declares, or one the actor's role outranks. */
  lemma LandsAsJudged(db: Db, table: Table, privileged: Roles, run: seq<Event>, r: RequestId)
    requires Possible(Quiet(db, table, privileged), run)
    requires May(After(Quiet(db, table, privileged), run), Write(r))
    requires Next(After(Quiet(db, table, privileged), run), Write(r)).requests[r].pc == Landed
    requires !After(Quiet(db, table, privileged), run).requests[r].action.Create?
    ensures var w := After(Quiet(db, table, privileged), run);
            var request := w.requests[r];
            var target := Target(request.action);
            && target in w.db.users && request.pc.held == Some(w.db.users[target].role)
            && (Declared(Some(table), w.db.users[target].role) ==>
                  Outranks(table, request.actorRole, w.db.users[target].role))
            && (request.action.SetRole? ==>
                  request.actor != target && Outranks(table, request.actorRole, request.action.role) &&
                  Declared(Some(table), request.action.role))
            && (request.action == SetDisabled(target, true) ==> request.actor != target)
            && (request.action == SetDisabled(target, false) ==> Declared(Some(table), w.db.users[target].role))
  {
    RunKeeps(Quiet(db, table, privileged), run, db, table);
  }

  // The last privileged account

  lemma EventKeepsCover(w: World, e: Event)
    requires May(w, e) && Covered(w.db.users, w.privileged)
    ensures Covered(Next(w, e).db.users, w.privileged) && Next(w, e).privileged == w.privileged
  {
    if e.Write? {
      var action := w.requests[e.request].action;
      var held := w.requests[e.request].pc.held;
      match action
      case Create(id, user) => AccountLaws.CallKeepsCover(w.db, AccountLaws.NewUser(id, user), w.privileged);
      case SetRole(target, role) => AccountLaws.RoleKeepsCover(w.db, target, held, role, w.privileged);
      case SetDisabled(target, disabled) => AccountLaws.DisableKeepsCover(w.db, target, held, disabled, w.privileged);
    }
  }

  /** No interleaving of requests takes the last enabled privileged account away, with a role source or without. */
  lemma {:induction false} RequestsKeepCover(w: World, run: seq<Event>)
    requires Possible(w, run) && Covered(w.db.users, w.privileged)
    ensures Covered(After(w, run).db.users, w.privileged)
    decreases run
  {
    if run != [] {
      EventKeepsCover(w, run[0]);
      RequestsKeepCover(Next(w, run[0]), run[1..]);
    }
  }

  // Who may act, and what lands

  /** Every request past its judgement, and every one that landed, is of an actor under a privileged role, where there
      are any. */
  ghost predicate ActorsPrivileged(w: World) {
    forall r :: r in w.requests && (w.requests[r].pc.Judged? || w.requests[r].pc.Landed?) ==>
      w.privileged == [] || (w.requests[r].actorRole != "" && w.requests[r].actorRole in w.privileged)
  }

  lemma EventKeepsActors(w: World, e: Event)
    requires May(w, e) && ActorsPrivileged(w)
    ensures ActorsPrivileged(Next(w, e)) && Next(w, e).privileged == w.privileged
  {
    match e
    case Write(r) =>
      assert Next(w, e).requests == w.requests[r := Next(w, e).requests[r]];
      assert Next(w, e).requests[r].actorRole == w.requests[r].actorRole;
    case _ =>
  }

  /** In every interleaving, with a role source or without, no request of an unprivileged actor is judged or lands. */
  lemma {:induction false} OnlyPrivilegedAct(w: World, run: seq<Event>)
    requires Possible(w, run) && ActorsPrivileged(w)
    ensures ActorsPrivileged(After(w, run)) && After(w, run).privileged == w.privileged
    decreases run
  {
    if run != [] {
      EventKeepsActors(w, run[0]);
      OnlyPrivilegedAct(Next(w, run[0]), run[1..]);
    }
  }

  /** An unprivileged actor's request is refused at its judgement, before its target is read, and changes no row. */
  lemma UnprivilegedIsRefused(w: World, r: RequestId)
    requires May(w, Judge(r)) && w.privileged != []
    requires w.requests[r].actorRole == "" || w.requests[r].actorRole !in w.privileged
    ensures Next(w, Judge(r)).requests[r].pc == Refused(RoleInsufficient) && Next(w, Judge(r)).db == w.db
  {
  }

  /** What an actor's role must carry to write to an account under a role, which no source declares or it outranks. */
  predicate MayEdit(roles: Option<Table>, actorRole: Role, held: Role) {
    roles == None || held == "" || held !in roles.value ||
    roles.value[held] <= (if actorRole in roles.value then roles.value[actorRole] else {})
  }

  /** What an actor's role must carry to hand out a role, which the source declares. */
  predicate MayHandOut(roles: Option<Table>, actorRole: Role, role: Role) {
    roles == None ||
    (role != "" && role in roles.value &&
     roles.value[role] <= (if actorRole in roles.value then roles.value[actorRole] else {}))
  }

  /** What a request must meet to land on a store that nothing else changes meanwhile. */
  ghost predicate Meets(db: Db, roles: Option<Table>, privileged: Roles, actor: Id, action: Action)
    requires actor in db.users
  {
    var actorRole := db.users[actor].role;
    && (privileged == [] || (actorRole != "" && actorRole in privileged))
    && match action
       case Create(_, user) =>
         && MayHandOut(roles, actorRole, user.role)
         && (forall other :: other in db.users ==> db.users[other].email != user.email)
       case SetRole(target, role) =>
         && target in db.users && target != actor
         && MayEdit(roles, actorRole, db.users[target].role) && MayHandOut(roles, actorRole, role)
         && (AccountLaws.Sole(db, target, privileged) ==> role != "" && role in privileged)
       case SetDisabled(target, disabled) =>
         && target in db.users && (disabled ==> target != actor)
         && MayEdit(roles, actorRole, db.users[target].role)
         && (!disabled && roles.Some? ==> db.users[target].role != "" && db.users[target].role in roles.value)
         && (AccountLaws.Sole(db, target, privileged) ==> !disabled)
  }

  /** A request on a store that nothing else changes meanwhile, from its arrival to its answer. */
  ghost function Handled(db: Db, roles: Option<Table>, privileged: Roles, actor: Id, action: Action): World
    requires Enabled(db.users, actor) && (action.Create? ==> action.id !in db.users)
  {
    var judged := Next(Next(World(db, roles, privileged, map[]), Arrive(0, actor, action)), Judge(0));
    if judged.requests[0].pc.Judged? then Next(judged, Write(0)) else judged
  }

  /** A request that nothing interleaves with lands exactly when it meets every condition, and a refused one changes no
      row. */
  lemma LandsIffMeets(db: Db, roles: Option<Table>, privileged: Roles, actor: Id, action: Action)
    requires Enabled(db.users, actor) && (action.Create? ==> action.id !in db.users)
    ensures var w := Handled(db, roles, privileged, actor, action);
            && (w.requests[0].pc == Landed <==> Meets(db, roles, privileged, actor, action))
            && (w.requests[0].pc != Landed ==> w.requests[0].pc.Refused? && w.db == db)
  {
    AccountLaws.SoleIff(db, Target(action), privileged);
  }

  /** What is left of a store by the one write asked for, and by what a disable revokes with it. */
  ghost predicate Whole(db: Db, after: Db, action: Action) {
    match action
    case Create(id, user) => after == db.(users := db.users[id := user])
    case SetRole(target, role) =>
      target in db.users && after == db.(users := db.users[target := db.users[target].(role := role)])
    case SetDisabled(target, disabled) =>
      && target in db.users && after.users == db.users[target := db.users[target].(disabled := disabled)]
      && (forall hash :: hash in after.sessions <==>
            hash in db.sessions && !(disabled && db.sessions[hash].user == target))
      && (forall hash :: hash in after.sessions ==> after.sessions[hash] == db.sessions[hash])
      && (forall hash :: hash in after.tokens <==> hash in db.tokens && !(disabled && db.tokens[hash].user == target))
      && (forall hash :: hash in after.tokens ==> after.tokens[hash] == db.tokens[hash])
  }

  lemma WrittenWhole(w: World, request: Request)
    requires request.pc.Judged? && Writing(w, request).0.pc == Landed
    ensures Whole(w.db, Writing(w, request).1, request.action)
  {
  }

  /** What landed is the one write asked for: every other account, session and token is as it was. */
  lemma LandsWhole(db: Db, roles: Option<Table>, privileged: Roles, actor: Id, action: Action)
    requires Enabled(db.users, actor) && (action.Create? ==> action.id !in db.users)
    requires Handled(db, roles, privileged, actor, action).requests[0].pc == Landed
    ensures Whole(db, Handled(db, roles, privileged, actor, action).db, action)
  {
    var arrived := Next(World(db, roles, privileged, map[]), Arrive(0, actor, action));
    var judged := Next(arrived, Judge(0));
    assert judged.db == db && judged.requests[0].action == action;
    WrittenWhole(judged, judged.requests[0]);
  }

  /** Whether the source does not declare a role. */
  predicate Undeclared(roles: Option<Table>, role: Role) {
    roles.Some? && (role == "" || role !in roles.value)
  }

  /** Each refusal of a request that nothing interleaves with has its reason, the first one that applies. */
  lemma RefusedFor(db: Db, roles: Option<Table>, privileged: Roles, actor: Id, action: Action)
    requires Enabled(db.users, actor) && (action.Create? ==> action.id !in db.users)
    requires privileged == [] || (db.users[actor].role != "" && db.users[actor].role in privileged)
    ensures var pc := Handled(db, roles, privileged, actor, action).requests[0].pc;
            var actorRole := db.users[actor].role;
            match action
            case Create(_, user) =>
              && (pc == Refused(UnknownRole) <==> Undeclared(roles, user.role))
              && (pc == Refused(RoleNotGrantable) <==>
                    !Undeclared(roles, user.role) && !MayHandOut(roles, actorRole, user.role))
            case SetRole(target, role) =>
              && (pc == Refused(Store(UserNotFound)) <==>
                    target !in db.users && (roles == None ==> actor != target))
              && (target in db.users ==>
                    && (pc == Refused(UserNotEditable) <==> !MayEdit(roles, actorRole, db.users[target].role))
                    && (pc == Refused(UnknownRole) <==>
                          MayEdit(roles, actorRole, db.users[target].role) && Undeclared(roles, role))
                    && (pc == Refused(RoleNotGrantable) <==>
                          MayEdit(roles, actorRole, db.users[target].role) && !Undeclared(roles, role) &&
                          !MayHandOut(roles, actorRole, role))
                    && (pc == Refused(SelfRole) <==>
                          actor == target && MayEdit(roles, actorRole, db.users[target].role) &&
                          MayHandOut(roles, actorRole, role)))
            case SetDisabled(target, disabled) =>
              && (pc == Refused(Store(UserNotFound)) <==> target !in db.users)
              && (target in db.users ==>
                    && (pc == Refused(UserNotEditable) <==> !MayEdit(roles, actorRole, db.users[target].role))
                    && (pc == Refused(RoleNotGrantable) <==>
                          MayEdit(roles, actorRole, db.users[target].role) && !disabled &&
                          Undeclared(roles, db.users[target].role))
                    && (pc == Refused(SelfDisable) <==>
                          disabled && actor == target && MayEdit(roles, actorRole, db.users[target].role)))
  {
    AccountLaws.SoleIff(db, Target(action), privileged);
  }
}
