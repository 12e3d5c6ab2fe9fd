/** Calls of CreateFirstAccount racing on one Setup, each with the right code, live and private, and valid details.
    CreateFirstUser takes the accounts' table lock, reads whether an account exists, inserts and commits. */
module FirstAccount {
  import opened Basics

  type CallId = nat

  datatype Answer = Created | SetupDone | CodeInvalid | NotReadCommitted

  /** A call's next step: refuseClosed, readCode, CreateFirstUser and finish, in the order they run. */
  datatype Pc =
    | LoadClosed
    | HasUsers
    | Lstat
    | OpenCode
    | CodeMissing
    | LockTable
    | SeesLatest
    | AnyAccount
    | Insert
    | Commit
    | Finish(answer: Answer)
    | RemoveLstat(answer: Answer)
    | RemoveOpen(answer: Answer)
    | Unlink(answer: Answer)
    | Ended(answer: Answer)

  /** `accounts` holds, for each stored account, the call that stored it. */
  datatype World = World(
    readCommitted: bool, closed: bool, code: bool, accounts: set<CallId>, tableLock: Option<CallId>,
    calls: map<CallId, Pc>)

  datatype Event = Begin(call: CallId) | Step(call: CallId)

  predicate May(w: World, e: Event) {
    match e
    case Begin(a) => a !in w.calls
    case Step(a) => a in w.calls && !w.calls[a].Ended? && (w.calls[a].LockTable? ==> w.tableLock == None)
  }

  /** Where a step leads a call. */
  function Then(w: World, pc: Pc): Pc {
    match pc
    case LoadClosed => if w.closed then Ended(SetupDone) else HasUsers
    case HasUsers => if w.accounts != {} then Finish(SetupDone) else Lstat
    case Lstat => if w.code then OpenCode else CodeMissing
    case OpenCode => if w.code then LockTable else CodeMissing
    case CodeMissing => Ended(if w.closed then SetupDone else CodeInvalid)
    case LockTable => SeesLatest
    case SeesLatest => if w.readCommitted then AnyAccount else Ended(NotReadCommitted)
    case AnyAccount => if w.accounts != {} then Ended(SetupDone) else Insert
    case Insert => Commit
    case Commit => Finish(Created)
    case Finish(answer) => RemoveLstat(answer)
    case RemoveLstat(answer) => if w.code then RemoveOpen(answer) else Ended(answer)
    case RemoveOpen(answer) => if w.code then Unlink(answer) else Ended(answer)
    case Unlink(answer) => Ended(answer)
    case Ended(answer) => Ended(answer)
  }

  predicate InTransaction(pc: Pc) {
    pc.SeesLatest? || pc.AnyAccount? || pc.Insert? || pc.Commit?
  }

  function Next(w: World, e: Event): World
    requires May(w, e)
  {
    match e
    case Begin(a) => w.(calls := w.calls[a := LoadClosed])
    case Step(a) =>
      var pc := w.calls[a];
      var next := Then(w, pc);
      w.(closed := w.closed || pc.Finish?,
         code := w.code && !pc.Unlink?,
         accounts := if pc.Commit? then w.accounts + {a} else w.accounts,
         tableLock := if pc.LockTable? then Some(a) else if InTransaction(pc) && !InTransaction(next) then None
                      else w.tableLock,
         calls := w.calls[a := next])
  }

  predicate Possible(w: World, run: seq<Event>)
    decreases run
  {
    run == [] || (May(w, run[0]) && Possible(Next(w, run[0]), run[1..]))
  }

  function After(w: World, run: seq<Event>): World
    requires Possible(w, run)
    decreases run
  {
    if run == [] then w else After(Next(w, run[0]), run[1..])
  }

  /** A Setup that waits for its first account, its code in the file and the store empty. */
  function Waiting(readCommitted: bool): World {
    World(readCommitted, false, true, {}, None, map[])
  }

  // What every run keeps

  predicate CallOk(w: World, a: CallId, pc: Pc) {
    && (a in w.accounts <==> pc in {Finish(Created), RemoveLstat(Created), RemoveOpen(Created), Unlink(Created),
                                    Ended(Created)})
    && (InTransaction(pc) <==> w.tableLock == Some(a))
    && match pc
       case CodeMissing => w.closed
       case AnyAccount => w.readCommitted
       case Insert => w.readCommitted && w.accounts == {}
       case Commit => w.readCommitted && w.accounts == {}
       case Finish(answer) => answer in {Created, SetupDone} && w.accounts != {}
       case RemoveLstat(answer) => answer in {Created, SetupDone} && w.closed
       case RemoveOpen(answer) => answer in {Created, SetupDone} && w.closed
       case Unlink(answer) => answer in {Created, SetupDone} && w.closed
       case Ended(answer) =>
         && (answer == Created ==> w.closed && !w.code)
         && (answer == SetupDone ==> w.accounts != {})
         && (answer == NotReadCommitted ==> !w.readCommitted)
         && answer != CodeInvalid
       case _ => true
  }

  ghost predicate Inv(w: World) {
    && (forall a :: a in w.calls ==> CallOk(w, a, w.calls[a]))
    && (w.tableLock.Some? ==> w.tableLock.value in w.calls)
    && w.accounts <= w.calls.Keys
    && (forall a, b :: a in w.accounts && b in w.accounts ==> a == b)
    && (w.closed ==> w.accounts != {})
    && (!w.code ==> w.closed)
  }

  /** A commit finds the store empty, so its account is the only one. */
  lemma CommitKeepsInv(w: World, a: CallId)
    requires Inv(w) && May(w, Step(a)) && w.calls[a].Commit?
    ensures Inv(Next(w, Step(a)))
  {
    assert CallOk(w, a, w.calls[a]);
    var next := Next(w, Step(a));
    forall b | b in next.calls && b != a ensures CallOk(next, b, next.calls[b]) {
      assert CallOk(w, b, w.calls[b]);
    }
  }

  lemma StepKeepsCall(w: World, a: CallId)
    requires Inv(w) && May(w, Step(a)) && !w.calls[a].Commit?
    ensures CallOk(Next(w, Step(a)), a, Then(w, w.calls[a]))
  {
    assert CallOk(w, a, w.calls[a]);
  }

  lemma StepKeepsOther(w: World, a: CallId, b: CallId)
    requires Inv(w) && May(w, Step(a)) && !w.calls[a].Commit? && b in w.calls && b != a
    ensures CallOk(Next(w, Step(a)), b, w.calls[b])
  {
    assert CallOk(w, a, w.calls[a]) && CallOk(w, b, w.calls[b]);
  }

  lemma StepKeepsInv(w: World, a: CallId)
    requires Inv(w) && May(w, Step(a)) && !w.calls[a].Commit?
    ensures Inv(Next(w, Step(a)))
  {
    var next := Next(w, Step(a));
    assert CallOk(w, a, w.calls[a]);
    assert next.accounts == w.accounts;
    StepKeepsCall(w, a);
    forall b | b in next.calls && b != a ensures CallOk(next, b, next.calls[b]) {
      StepKeepsOther(w, a, b);
    }
  }

  lemma {:induction false} RunKeepsInv(w: World, run: seq<Event>)
    requires Inv(w) && Possible(w, run)
    ensures Inv(After(w, run))
    ensures After(w, run).readCommitted == w.readCommitted
    decreases run
  {
    if run != [] {
      if run[0].Step? {
        if w.calls[run[0].call].Commit? {
          CommitKeepsInv(w, run[0].call);
        } else {
          StepKeepsInv(w, run[0].call);
        }
      }
      RunKeepsInv(Next(w, run[0]), run[1..]);
    }
  }

  function Creators(w: World): set<CallId> {
    set a | a in w.calls && w.calls[a] == Ended(Created)
  }

  /** At every moment of every run the store holds at most one account, and no call answers an invalid code. */
  lemma AtMostOneAccount(readCommitted: bool, run: seq<Event>)
    requires Possible(Waiting(readCommitted), run)
    ensures var w := After(Waiting(readCommitted), run);
            && |w.accounts| <= 1
            && (forall a :: a in w.calls ==> w.calls[a] != Ended(CodeInvalid))
  {
    RunKeepsInv(Waiting(readCommitted), run);
    var w := After(Waiting(readCommitted), run);
    if w.accounts != {} {
      var a :| a in w.accounts;
      assert w.accounts == {a};
    }
  }

  /** What is true of a race all of whose calls ended: exactly one created its account, every other one answered that
      setup is done, the store holds that one account, setup is closed and the code is gone. */
  ghost predicate Won(w: World) {
    && |Creators(w)| == 1 && w.accounts == Creators(w) && w.closed && !w.code
    && (forall a :: a in w.calls && a !in Creators(w) ==> w.calls[a] == Ended(SetupDone))
  }

  lemma EndedIsWon(w: World)
    requires Inv(w) && w.readCommitted && w.calls != map[] && forall a :: a in w.calls ==> w.calls[a].Ended?
    ensures Won(w)
  {
    var a :| a in w.calls;
    assert CallOk(w, a, w.calls[a]);
    assert w.accounts != {};
    var winner :| winner in w.accounts;
    assert CallOk(w, winner, w.calls[winner]);
    assert w.accounts == {winner};
    forall b | b in w.calls ensures b in Creators(w) <==> b == winner {
      assert CallOk(w, b, w.calls[b]);
    }
    assert Creators(w) == {winner};
  }

  /** Once every call of a race ended under READ COMMITTED, one of them won. */
  lemma OneCallWins(run: seq<Event>)
    requires Possible(Waiting(true), run)
    requires var w := After(Waiting(true), run); w.calls != map[] && forall a :: a in w.calls ==> w.calls[a].Ended?
    ensures Won(After(Waiting(true), run))
  {
    RunKeepsInv(Waiting(true), run);
    EndedIsWon(After(Waiting(true), run));
  }

  // Every race may end

  /** A bound on the steps a call still has before it. */
  function StepsLeft(pc: Pc): nat {
    match pc
    case LoadClosed => 13
    case HasUsers => 12
    case Lstat => 11
    case OpenCode => 10
    case CodeMissing => 1
    case LockTable => 9
    case SeesLatest => 8
    case AnyAccount => 7
    case Insert => 6
    case Commit => 5
    case Finish(_) => 4
    case RemoveLstat(_) => 3
    case RemoveOpen(_) => 2
    case Unlink(_) => 1
    case Ended(_) => 0
  }

  /** A call that the table lock does not hold back has a way to its end while the others stand still, and leaves no
      lock behind. */
  lemma {:induction false} CallMayEnd(w: World, a: CallId) returns (run: seq<Event>)
    requires Inv(w) && a in w.calls && (w.tableLock == None || InTransaction(w.calls[a]))
    ensures Possible(w, run)
    ensures var after := After(w, run);
            after.calls.Keys == w.calls.Keys && after.calls[a].Ended? && after.tableLock == None &&
            forall b :: b in w.calls && b != a ==> after.calls[b] == w.calls[b]
    decreases StepsLeft(w.calls[a])
  {
    assert CallOk(w, a, w.calls[a]);
    if w.calls[a].Ended? {
      run := [];
    } else {
      var next := Next(w, Step(a));
      RunKeepsInv(w, [Step(a)]);
      assert After(w, [Step(a)]) == next;
      assert CallOk(next, a, next.calls[a]);
      var rest := CallMayEnd(next, a);
      run := [Step(a)] + rest;
      assert run[1..] == rest;
    }
  }

  function Open(w: World): set<CallId> {
    set a | a in w.calls && !w.calls[a].Ended?
  }

  lemma OneMayEnd(w: World) returns (run: seq<Event>)
    requires Inv(w) && Open(w) != {}
    ensures Possible(w, run) && Inv(After(w, run)) && After(w, run).calls.Keys == w.calls.Keys
    ensures Open(After(w, run)) < Open(w)
  {
    var a;
    if w.tableLock.Some? {
      a := w.tableLock.value;
      assert CallOk(w, a, w.calls[a]);
    } else {
      a :| a in Open(w);
    }
    run := CallMayEnd(w, a);
    RunKeepsInv(w, run);
    assert a in Open(w) && a !in Open(After(w, run));
  }

  lemma {:induction false} AllMayEnd(w: World) returns (run: seq<Event>)
    requires Inv(w)
    ensures Possible(w, run) && After(w, run).calls.Keys == w.calls.Keys && Open(After(w, run)) == {}
    decreases Open(w)
  {
    if Open(w) == {} {
      run := [];
    } else {
      var first := OneMayEnd(w);
      var rest := AllMayEnd(After(w, first));
      RunThen(w, first, rest);
      run := first + rest;
    }
  }

  lemma {:induction false} RunThen(w: World, run: seq<Event>, more: seq<Event>)
    requires Possible(w, run) && Possible(After(w, run), more)
    ensures Possible(w, run + more) && After(w, run + more) == After(After(w, run), more)
    decreases run
  {
    if run == [] {
      assert run + more == more;
    } else {
      RunThen(Next(w, run[0]), run[1..], more);
      assert (run + more)[1..] == run[1..] + more;
    }
  }

  /** However far a race has got, it has a way to end, and then one of its calls won. */
  lemma EveryRaceMayEnd(run: seq<Event>) returns (more: seq<Event>)
    requires Possible(Waiting(true), run) && After(Waiting(true), run).calls != map[]
    ensures Possible(After(Waiting(true), run), more)
    ensures var w := After(After(Waiting(true), run), more);
            w.calls.Keys == After(Waiting(true), run).calls.Keys && Won(w)
  {
    var w := After(Waiting(true), run);
    RunKeepsInv(Waiting(true), run);
    more := AllMayEnd(w);
    RunKeepsInv(w, more);
    var after := After(w, more);
    var a :| a in w.calls;
    assert a in after.calls;
    forall b | b in after.calls ensures after.calls[b].Ended? {
      assert b !in Open(after);
    }
    EndedIsWon(after);
  }

  /** Under another isolation level no call stores an account: none may end up created. */
  lemma NoneWithoutReadCommitted(run: seq<Event>)
    requires Possible(Waiting(false), run)
    ensures After(Waiting(false), run).accounts == {}
  {
    NoAccountYet(Waiting(false), run);
  }

  lemma {:induction false} NoAccountYet(w: World, run: seq<Event>)
    requires !w.readCommitted && w.accounts == {} && Possible(w, run)
    requires forall a :: a in w.calls ==> !w.calls[a].AnyAccount? && !w.calls[a].Insert? && !w.calls[a].Commit?
    ensures After(w, run).accounts == {}
    decreases run
  {
    if run != [] {
      NoAccountYet(Next(w, run[0]), run[1..]);
    }
  }

  /** Setup once closed stays closed. */
  lemma {:induction false} ClosedForGood(w: World, run: seq<Event>)
    requires w.closed && Possible(w, run)
    ensures After(w, run).closed
    decreases run
  {
    if run != [] {
      ClosedForGood(Next(w, run[0]), run[1..]);
    }
  }

  lemma {:induction false} AccountsStay(w: World, run: seq<Event>)
    requires Possible(w, run)
    ensures w.accounts <= After(w, run).accounts
    decreases run
  {
    if run != [] {
      AccountsStay(Next(w, run[0]), run[1..]);
    }
  }

  /** Once setup closed, it stays closed with the one account it has through every further race, and every call that
      begins after ends by answering that setup is done. */
  lemma WonForGood(run: seq<Event>, more: seq<Event>, a: CallId)
    requires Possible(Waiting(true), run) && After(Waiting(true), run).closed
    requires Possible(After(Waiting(true), run), more)
    requires var after := After(After(Waiting(true), run), more);
             a in after.calls && after.calls[a].Ended? && a !in After(Waiting(true), run).calls
    ensures var won := After(Waiting(true), run);
            var after := After(won, more);
            after.closed && |won.accounts| == 1 && after.accounts == won.accounts && after.calls[a] == Ended(SetupDone)
  {
    var won := After(Waiting(true), run);
    RunKeepsInv(Waiting(true), run);
    RunKeepsInv(won, more);
    ClosedForGood(won, more);
    AccountsStay(won, more);
    var after := After(won, more);
    var winner :| winner in won.accounts;
    assert won.accounts == {winner} && after.accounts == {winner};
    assert CallOk(after, a, after.calls[a]);
  }

  // After a restart

  /** A Setup that starts over an account stored before, the code still in its file. */
  function Restarted(account: CallId): World {
    World(true, false, true, {account}, None, map[])
  }

  /** What a call may be at while the account was stored before it began. */
  predicate LateOk(w: World, pc: Pc) {
    || pc == LoadClosed || pc == HasUsers || pc == Finish(SetupDone)
    || (w.closed && pc in {RemoveLstat(SetupDone), RemoveOpen(SetupDone), Unlink(SetupDone)})
    || (w.closed && pc == Ended(SetupDone))
  }

  predicate LateInv(w: World, account: CallId) {
    && w.accounts == {account} && (!w.code ==> w.closed)
    && (forall a :: a in w.calls ==> LateOk(w, w.calls[a]))
    && ((exists a :: a in w.calls && w.calls[a].Ended?) ==> w.closed)
    && (w.closed && w.code ==> exists a :: a in w.calls && Removing(w.calls[a]))
  }

  /** Whether a call has yet to remove the code. */
  predicate Removing(pc: Pc) {
    pc.RemoveLstat? || pc.RemoveOpen? || pc.Unlink?
  }

  lemma {:induction false} LateRun(w: World, run: seq<Event>, account: CallId)
    requires LateInv(w, account) && Possible(w, run)
    ensures LateInv(After(w, run), account)
    decreases run
  {
    if run != [] {
      LateStep(w, run[0], account);
      LateRun(Next(w, run[0]), run[1..], account);
    }
  }

  lemma LateStep(w: World, e: Event, account: CallId)
    requires LateInv(w, account) && May(w, e)
    ensures LateInv(Next(w, e), account)
  {
    var next := Next(w, e);
    if e.Step? {
      assert LateOk(w, w.calls[e.call]);
    }
    if w.closed && w.code {
      var a :| a in w.calls && Removing(w.calls[a]);
      assert a in next.calls && (next.code ==> Removing(next.calls[a]));
    } else if next.closed && next.code {
      assert e.call in next.calls && Removing(next.calls[e.call]);
    }
  }

  /** A Setup that starts over a stored account stores no other: every call that ends answers that setup is done, and
      setup is closed by then; once all calls ended, the code is gone. */
  lemma RestartCloses(account: CallId, run: seq<Event>, a: CallId)
    requires Possible(Restarted(account), run)
    ensures var w := After(Restarted(account), run);
            && w.accounts == {account}
            && (a in w.calls && w.calls[a].Ended? ==> w.calls[a] == Ended(SetupDone) && w.closed)
            && (a in w.calls && (forall b :: b in w.calls ==> w.calls[b].Ended?) ==> !w.code)
  {
    LateRun(Restarted(account), run, account);
    var w := After(Restarted(account), run);
    if a in w.calls {
      assert LateOk(w, w.calls[a]);
    }
  }
}
