/** The lock discipline of renewals, in every run: one flock call and one open lock file for each Setup, no file closed
    before its flock call answered, and one renewal at a time between taking the flock and releasing it. */
module RenewalLocks {
  import opened Basics
  import opened Renewal

  /** A call is known to its Setup, and holds the mutex exactly when the Setup says so. */
  ghost predicate MutexOk(w: World) {
    && (forall a :: a in w.calls ==>
          && w.calls[a].setup in w.setups
          && (HoldsMutex(w.calls[a].pc) <==> w.setups[w.calls[a].setup].renewing == Some(a)))
    && (forall s :: s in w.setups && w.setups[s].renewing.Some? ==>
          var a := w.setups[s].renewing.value; a in w.calls && w.calls[a].setup == s)
  }

  /** The lock file a call waits on or holds is open, is its Setup's and is no other call's business. */
  ghost predicate CallLockOk(w: World, a: CallId)
    requires a in w.calls && w.calls[a].setup in w.setups
  {
    var call := w.calls[a];
    && (FdOf(call.pc).Some? || call.pc.OpenLock? ==> w.setups[call.setup].left == None)
    && (FdOf(call.pc).Some? ==>
          var fd := FdOf(call.pc).value;
          && fd in w.locks && w.locks[fd].setup == call.setup && !w.locks[fd].left && w.locks[fd].flock != Closed
          && (Locked(call.pc) ==> w.locks[fd].flock == Granted))
  }

  /** Each open lock file is the one left behind at its Setup, or the one the mutex holder works with. */
  ghost predicate LockOwned(w: World, fd: Fd)
    requires fd in w.locks && w.locks[fd].setup in w.setups
  {
    var setup := w.setups[w.locks[fd].setup];
    w.locks[fd].flock != Closed ==>
      if w.locks[fd].left then setup.left == Some(fd)
      else setup.renewing.Some? && setup.renewing.value in w.calls &&
           FdOf(w.calls[setup.renewing.value].pc) == Some(fd)
  }

  ghost predicate LockInv(w: World) {
    && MutexOk(w)
    && (forall a :: a in w.calls ==> CallLockOk(w, a))
    && (forall fd :: fd in w.locks ==> w.locks[fd].setup in w.setups && LockOwned(w, fd))
    && (forall s :: s in w.setups && w.setups[s].left.Some? ==>
          var fd := w.setups[s].left.value; fd in w.locks && w.locks[fd].setup == s && w.locks[fd].left)
    && (forall f, g :: f in w.locks && g in w.locks && w.locks[f].flock == Granted && w.locks[g].flock == Granted ==>
          f == g)
  }

  /** A call that keeps its lock file and its mutex may go anywhere. */
  lemma MoveKeepsLocks(w: World, a: CallId, call: Call, next: World)
    requires LockInv(w) && a in w.calls && call.setup == w.calls[a].setup
    requires next.setups == w.setups && next.locks == w.locks && next.calls == w.calls[a := call]
    requires HoldsMutex(call.pc) == HoldsMutex(w.calls[a].pc) && FdOf(call.pc) == FdOf(w.calls[a].pc)
    requires call.pc.OpenLock? ==> w.setups[call.setup].left == None
    requires Locked(call.pc) ==> Locked(w.calls[a].pc) || w.locks[FdOf(call.pc).value].flock == Granted
    ensures LockInv(next)
  {
    forall fd | fd in next.locks ensures LockOwned(next, fd) {
      assert LockOwned(w, fd);
    }
    forall b | b in next.calls ensures CallLockOk(next, b) {
      assert CallLockOk(w, b);
    }
  }

  lemma TakeMutexKeepsLocks(w: World, a: CallId)
    requires LockInv(w) && May(w, Step(a)) && w.calls[a].pc.TakeMutex?
    ensures LockInv(Next(w, Step(a)))
  {
    var next := Next(w, Step(a));
    forall fd | fd in next.locks ensures LockOwned(next, fd) {
      assert LockOwned(w, fd);
    }
    forall b | b in next.calls ensures CallLockOk(next, b) {
      assert CallLockOk(w, b);
    }
  }

  lemma WaitLeftKeepsLocks(w: World, a: CallId)
    requires LockInv(w) && May(w, Step(a)) && w.calls[a].pc.WaitLeft?
    ensures LockInv(Next(w, Step(a)))
  {
    var next := Next(w, Step(a));
    forall fd | fd in next.locks ensures LockOwned(next, fd) {
      assert LockOwned(w, fd);
    }
    forall b | b in next.calls ensures CallLockOk(next, b) {
      assert CallLockOk(w, b);
    }
  }

  lemma CloseKeepsOthers(w: World, a: CallId, b: CallId, fd: Fd, result: Outcome)
    requires LockInv(w) && a in w.calls && FdOf(w.calls[a].pc) == Some(fd) && fd in w.locks && b in w.calls && b != a
    ensures var next := WithCall(Shut(w, fd), a, w.calls[a].(pc := FreeMutex(result)));
            next.calls[b].setup in next.setups && CallLockOk(next, b)
  {
    assert CallLockOk(w, b);
    if FdOf(w.calls[b].pc) == Some(fd) {
      OnlyOwner(w, a, b, fd);
    }
  }

  lemma CloseKeepsMutex(w: World, a: CallId, fd: Fd, result: Outcome)
    requires LockInv(w) && a in w.calls && FdOf(w.calls[a].pc) == Some(fd) && fd in w.locks
    ensures MutexOk(WithCall(Shut(w, fd), a, w.calls[a].(pc := FreeMutex(result))))
  {
  }

  lemma CloseKeepsOwned(w: World, a: CallId, fd: Fd, result: Outcome, f: Fd)
    requires LockInv(w) && a in w.calls && FdOf(w.calls[a].pc) == Some(fd) && fd in w.locks && f in w.locks
    ensures var next := WithCall(Shut(w, fd), a, w.calls[a].(pc := FreeMutex(result)));
            next.locks[f].setup in next.setups && LockOwned(next, f)
  {
    assert LockOwned(w, f);
  }

  /** Closing its lock file, answered by then, takes a call to the release of its mutex. */
  lemma CloseKeepsLocks(w: World, a: CallId, fd: Fd, result: Outcome)
    requires LockInv(w) && a in w.calls && FdOf(w.calls[a].pc) == Some(fd) && fd in w.locks
    ensures LockInv(WithCall(Shut(w, fd), a, w.calls[a].(pc := FreeMutex(result))))
  {
    var next := WithCall(Shut(w, fd), a, w.calls[a].(pc := FreeMutex(result)));
    assert CallLockOk(w, a);
    CloseKeepsMutex(w, a, fd, result);
    forall f | f in next.locks ensures next.locks[f].setup in next.setups && LockOwned(next, f) {
      CloseKeepsOwned(w, a, fd, result, f);
    }
    forall b | b in next.calls && b != a ensures CallLockOk(next, b) {
      CloseKeepsOthers(w, a, b, fd, result);
    }
  }

  /** No two calls work with one lock file. */
  lemma OnlyOwner(w: World, a: CallId, b: CallId, fd: Fd)
    requires LockInv(w) && a in w.calls && b in w.calls
    requires FdOf(w.calls[a].pc) == Some(fd) && FdOf(w.calls[b].pc) == Some(fd)
    ensures a == b
  {
    assert CallLockOk(w, a) && CallLockOk(w, b);
  }

  lemma FreeMutexFrees(w: World, a: CallId)
    requires MutexOk(w) && May(w, Step(a)) && w.calls[a].pc.FreeMutex?
    ensures MutexOk(Next(w, Step(a)))
  {
  }

  lemma FreeMutexOwners(w: World, a: CallId, fd: Fd)
    requires LockInv(w) && May(w, Step(a)) && w.calls[a].pc.FreeMutex? && fd in w.locks
    ensures var next := Next(w, Step(a));
            next.locks == w.locks && next.locks[fd].setup in next.setups && LockOwned(next, fd)
  {
    assert LockOwned(w, fd) && CallLockOk(w, a);
  }

  lemma FreeMutexCalls(w: World, a: CallId, b: CallId)
    requires LockInv(w) && May(w, Step(a)) && w.calls[a].pc.FreeMutex? && b in Next(w, Step(a)).calls
    ensures Next(w, Step(a)).calls[b].setup in Next(w, Step(a)).setups && CallLockOk(Next(w, Step(a)), b)
  {
    assert CallLockOk(w, b);
  }

  lemma FreeMutexLeaves(w: World, a: CallId)
    requires May(w, Step(a)) && w.calls[a].pc.FreeMutex?
    ensures var next := Next(w, Step(a));
            && next.locks == w.locks && next.setups.Keys == w.setups.Keys
            && (forall s :: s in w.setups ==> next.setups[s].left == w.setups[s].left)
  {
  }

  lemma FreeMutexKeepsLocks(w: World, a: CallId)
    requires LockInv(w) && May(w, Step(a)) && w.calls[a].pc.FreeMutex?
    ensures LockInv(Next(w, Step(a)))
  {
    var next := Next(w, Step(a));
    FreeMutexFrees(w, a);
    FreeMutexLeaves(w, a);
    forall fd | fd in next.locks ensures next.locks[fd].setup in next.setups && LockOwned(next, fd) {
      FreeMutexOwners(w, a, fd);
    }
    forall b | b in next.calls ensures CallLockOk(next, b) {
      FreeMutexCalls(w, a, b);
    }
  }

  predicate FileStep(pc: Pc) {
    !pc.TakeMutex? && !pc.WaitLeft? && !pc.AwaitFlock? && !pc.Unlock? && !pc.FreeMutex?
  }

  lemma OnFileKeepsFd(w: World, call: Call)
    requires FileOk(w) && call.setup in w.setups && Locked(call.pc)
    ensures FdOf(OnFile(w, call).pc) == FdOf(call.pc) && Locked(OnFile(w, call).pc)
    ensures OnFile(w, call).setup == call.setup
  {
  }

  /** A step on the code file changes no lock and no mutex. */
  lemma FileStepMoves(w: World, a: CallId)
    requires May(w, Step(a)) && FileStep(w.calls[a].pc)
    ensures var next := Next(w, Step(a));
            && next.setups == w.setups && next.locks == w.locks && a in next.calls
            && next.calls == w.calls[a := next.calls[a]] && next.calls[a].setup == w.calls[a].setup
            && FdOf(next.calls[a].pc) == FdOf(w.calls[a].pc) && Locked(next.calls[a].pc) && Locked(w.calls[a].pc)
  {
    OnFileKeepsFd(w, w.calls[a]);
  }

  lemma StepKeepsLocks(w: World, a: CallId)
    requires LockInv(w) && May(w, Step(a))
    ensures LockInv(Next(w, Step(a)))
  {
    var call := w.calls[a];
    assert CallLockOk(w, a);
    if call.pc.TakeMutex? {
      TakeMutexKeepsLocks(w, a);
    } else if call.pc.WaitLeft? {
      WaitLeftKeepsLocks(w, a);
    } else if call.pc.AwaitFlock? {
      if w.locks[call.pc.fd].flock == Granted {
        MoveKeepsLocks(w, a, call.(pc := Look(call.pc.fd, Current)), Next(w, Step(a)));
      } else {
        CloseKeepsLocks(w, a, call.pc.fd, Refused);
      }
    } else if call.pc.Unlock? {
      CloseKeepsLocks(w, a, call.pc.fd, call.pc.result);
    } else if call.pc.FreeMutex? {
      FreeMutexKeepsLocks(w, a);
    } else {
      FileStepMoves(w, a);
      MoveKeepsLocks(w, a, Next(w, Step(a)).calls[a], Next(w, Step(a)));
    }
  }

  lemma LeaveFlockMutex(w: World, a: CallId)
    requires MutexOk(w) && May(w, GiveUp(a)) && w.calls[a].pc.AwaitFlock?
    ensures MutexOk(Next(w, GiveUp(a)))
  {
  }

  lemma LeaveFlockOthers(w: World, a: CallId, b: CallId)
    requires LockInv(w) && May(w, GiveUp(a)) && w.calls[a].pc.AwaitFlock? && b in w.calls && b != a
    ensures CallLockOk(Next(w, GiveUp(a)), b)
  {
    assert CallLockOk(w, a) && CallLockOk(w, b);
  }

  lemma LeaveFlockOwners(w: World, a: CallId, fd: Fd)
    requires LockInv(w) && May(w, GiveUp(a)) && w.calls[a].pc.AwaitFlock? && fd in w.locks
    ensures fd in Next(w, GiveUp(a)).locks && Next(w, GiveUp(a)).locks[fd].setup in Next(w, GiveUp(a)).setups
    ensures LockOwned(Next(w, GiveUp(a)), fd)
  {
    assert CallLockOk(w, a) && LockOwned(w, fd);
  }

  lemma LeaveFlockLeft(w: World, a: CallId, s: SetupId)
    requires LockInv(w) && May(w, GiveUp(a)) && w.calls[a].pc.AwaitFlock? && s in w.setups
    ensures var next := Next(w, GiveUp(a));
            s in next.setups &&
            (next.setups[s].left.Some? ==>
               var fd := next.setups[s].left.value;
               fd in next.locks && next.locks[fd].setup == s && next.locks[fd].left)
  {
    assert CallLockOk(w, a);
  }

  lemma LeaveFlockGrants(w: World, a: CallId, fd: Fd)
    requires May(w, GiveUp(a)) && w.calls[a].pc.AwaitFlock?
    ensures var next := Next(w, GiveUp(a));
            next.locks.Keys == w.locks.Keys && next.setups.Keys == w.setups.Keys &&
            (fd in w.locks ==> next.locks[fd].flock == w.locks[fd].flock)
  {
  }

  /** A wait that ends leaves its flock call behind for the next renewal of its Setup to await. */
  lemma LeaveFlockKeepsLocks(w: World, a: CallId)
    requires LockInv(w) && May(w, GiveUp(a)) && w.calls[a].pc.AwaitFlock?
    ensures LockInv(Next(w, GiveUp(a)))
  {
    var next := Next(w, GiveUp(a));
    LeaveFlockMutex(w, a);
    forall f | f in next.locks ensures next.locks[f].setup in next.setups && LockOwned(next, f) {
      LeaveFlockGrants(w, a, f);
      LeaveFlockOwners(w, a, f);
    }
    forall b | b in next.calls ensures CallLockOk(next, b) {
      if b != a {
        LeaveFlockOthers(w, a, b);
      }
    }
    forall s | s in next.setups && next.setups[s].left.Some?
      ensures var fd := next.setups[s].left.value; fd in next.locks && next.locks[fd].setup == s && next.locks[fd].left
    {
      LeaveFlockGrants(w, a, 0);
      LeaveFlockLeft(w, a, s);
    }
    forall f, g | f in next.locks && g in next.locks && next.locks[f].flock == Granted && next.locks[g].flock == Granted
      ensures f == g
    {
      LeaveFlockGrants(w, a, f);
      LeaveFlockGrants(w, a, g);
    }
  }

  lemma GiveUpKeepsLocks(w: World, a: CallId)
    requires LockInv(w) && May(w, GiveUp(a))
    ensures LockInv(Next(w, GiveUp(a)))
  {
    if w.calls[a].pc.AwaitFlock? {
      LeaveFlockKeepsLocks(w, a);
    } else {
      MoveKeepsLocks(w, a, Next(w, GiveUp(a)).calls[a], Next(w, GiveUp(a)));
    }
  }

  lemma OpenKeepsOwned(w: World, a: CallId, fd: Fd, f: Fd)
    requires LockInv(w) && May(w, OpenFd(a, fd)) && f in Next(w, OpenFd(a, fd)).locks
    ensures var next := Next(w, OpenFd(a, fd)); next.locks[f].setup in next.setups && LockOwned(next, f)
  {
    assert MutexOk(w) && CallLockOk(w, a);
    if f != fd {
      assert LockOwned(w, f);
    }
  }

  lemma OpenKeepsLocks(w: World, a: CallId, fd: Fd)
    requires LockInv(w) && May(w, OpenFd(a, fd))
    ensures LockInv(Next(w, OpenFd(a, fd)))
  {
    var next := Next(w, OpenFd(a, fd));
    forall f | f in next.locks ensures next.locks[f].setup in next.setups && LockOwned(next, f) {
      OpenKeepsOwned(w, a, fd, f);
    }
    forall b | b in next.calls ensures CallLockOk(next, b) {
      assert CallLockOk(w, b);
    }
  }

  lemma AnswerKeepsLocks(w: World, fd: Fd, granted: bool)
    requires LockInv(w) && May(w, Answer(fd, granted))
    ensures LockInv(Next(w, Answer(fd, granted)))
  {
    var next := Next(w, Answer(fd, granted));
    forall f | f in next.locks ensures next.locks[f].setup in next.setups && LockOwned(next, f) {
      assert LockOwned(w, f);
    }
    forall b | b in next.calls ensures CallLockOk(next, b) {
      assert CallLockOk(w, b);
    }
  }

  lemma CloseLeftKeepsLocks(w: World, fd: Fd)
    requires LockInv(w) && May(w, CloseLeft(fd))
    ensures LockInv(Next(w, CloseLeft(fd)))
  {
    var next := Next(w, CloseLeft(fd));
    forall f | f in next.locks ensures next.locks[f].setup in next.setups && LockOwned(next, f) {
      assert LockOwned(w, f);
    }
    forall b | b in next.calls ensures CallLockOk(next, b) {
      assert CallLockOk(w, b);
    }
  }

  lemma BeginKeepsLocks(w: World, a: CallId, s: SetupId)
    requires LockInv(w) && May(w, Begin(a, s))
    ensures LockInv(Next(w, Begin(a, s)))
  {
    var next := Next(w, Begin(a, s));
    forall fd | fd in next.locks ensures LockOwned(next, fd) {
      assert LockOwned(w, fd);
    }
    forall b | b in next.calls ensures CallLockOk(next, b) {
      if b != a {
        assert CallLockOk(w, b);
      }
    }
  }

  /** A write of a temporary file, an ended context and a lock file that does not open move their call alone. */
  lemma PlainEventKeepsLocks(w: World, e: Event)
    requires LockInv(w) && May(w, e) && (e.Write? || e.Cancel? || e.OpenFails?)
    ensures LockInv(Next(w, e))
  {
    MoveKeepsLocks(w, e.call, Next(w, e).calls[e.call], Next(w, e));
  }

  lemma TickKeepsLocks(w: World, now: Time)
    requires LockInv(w) && May(w, Tick(now))
    ensures LockInv(Next(w, Tick(now)))
  {
    var next := Next(w, Tick(now));
    forall fd | fd in next.locks ensures LockOwned(next, fd) {
      assert LockOwned(w, fd);
    }
    forall b | b in next.calls ensures CallLockOk(next, b) {
      assert CallLockOk(w, b);
    }
  }

  /** Every event keeps the lock discipline. */
  lemma EventKeepsLocks(w: World, e: Event)
    requires LockInv(w) && May(w, e)
    ensures LockInv(Next(w, e))
  {
    match e
    case Begin(a, s) => BeginKeepsLocks(w, a, s);
    case Step(a) => StepKeepsLocks(w, a);
    case GiveUp(a) => GiveUpKeepsLocks(w, a);
    case OpenFd(a, fd) => OpenKeepsLocks(w, a, fd);
    case Answer(fd, granted) => AnswerKeepsLocks(w, fd, granted);
    case CloseLeft(fd) => CloseLeftKeepsLocks(w, fd);
    case Tick(now) => TickKeepsLocks(w, now);
    case _ => PlainEventKeepsLocks(w, e);
  }

  lemma {:induction false} RunKeepsLocks(w: World, run: seq<Event>)
    requires LockInv(w) && Possible(w, run)
    ensures LockInv(After(w, run))
    decreases run
  {
    if run != [] {
      EventKeepsLocks(w, run[0]);
      RunKeepsLocks(Next(w, run[0]), run[1..]);
    }
  }

  /** Setups at rest: no renewal runs, nothing is left behind and no lock file is open. */
  predicate AtRest(w: World) {
    w.calls == map[] && w.locks == map[] && w.renames == 0 &&
    forall s :: s in w.setups ==> w.setups[s].renewing == None && w.setups[s].left == None
  }

  /** In every run no two renewals, of one Setup or of two, are past taking the flock at once. */
  lemma OneRenewalAtATime(w: World, run: seq<Event>, a: CallId, b: CallId)
    requires AtRest(w) && Possible(w, run)
    requires var after := After(w, run);
             a in after.calls && b in after.calls && Locked(after.calls[a].pc) && Locked(after.calls[b].pc)
    ensures a == b
  {
    RunKeepsLocks(w, run);
    var after := After(w, run);
    assert CallLockOk(after, a) && CallLockOk(after, b);
  }

  /** In every run a Setup has at most one open lock file, so at most one flock call outstanding. */
  lemma OneLockPerSetup(w: World, run: seq<Event>, f: Fd, g: Fd)
    requires AtRest(w) && Possible(w, run)
    requires var after := After(w, run);
             && f in after.locks && g in after.locks && after.locks[f].setup == after.locks[g].setup
             && after.locks[f].flock != Closed && after.locks[g].flock != Closed
    ensures f == g
  {
    RunKeepsLocks(w, run);
    var after := After(w, run);
    assert LockOwned(after, f) && LockOwned(after, g);
    assert forall a :: a in after.calls ==> CallLockOk(after, a);
  }

  lemma StepLeavesWaiting(w: World, a: CallId, fd: Fd)
    requires LockInv(w) && May(w, Step(a)) && fd in w.locks && w.locks[fd].flock == Waiting
    ensures fd in Next(w, Step(a)).locks && Next(w, Step(a)).locks[fd].flock == Waiting
  {
    if FileStep(w.calls[a].pc) {
      FileStepMoves(w, a);
    } else {
      assert CallLockOk(w, a);
    }
  }

  lemma OtherLeavesOpen(w: World, e: Event, fd: Fd)
    requires May(w, e) && !e.Step? && fd in w.locks && w.locks[fd].flock == Waiting
    ensures fd in Next(w, e).locks && Next(w, e).locks[fd].flock != Closed
  {
  }

  /** In every run an event closes a lock file only once its flock call answered. */
  lemma ClosedOnceAnswered(w: World, run: seq<Event>, e: Event, fd: Fd)
    requires AtRest(w) && Possible(w, run) && May(After(w, run), e)
    requires fd in After(w, run).locks && After(w, run).locks[fd].flock == Waiting
    ensures fd in Next(After(w, run), e).locks && Next(After(w, run), e).locks[fd].flock != Closed
  {
    RunKeepsLocks(w, run);
    if e.Step? {
      StepLeavesWaiting(After(w, run), e.call, fd);
    } else {
      OtherLeavesOpen(After(w, run), e, fd);
    }
  }

  lemma StepOnLeft(w: World, a: CallId, s: SetupId)
    requires LockInv(w) && May(w, Step(a)) && s in w.setups && s in Next(w, Step(a)).setups
    requires Next(w, Step(a)).setups[s].left != w.setups[s].left
    ensures w.setups[s].renewing == Some(a)
  {
    assert MutexOk(w);
    if FileStep(w.calls[a].pc) {
      FileStepMoves(w, a);
    }
  }

  lemma OtherOnLeft(w: World, e: Event, s: SetupId)
    requires LockInv(w) && May(w, e) && !e.Step? && s in w.setups && s in Next(w, e).setups
    requires Next(w, e).setups[s].left != w.setups[s].left
    ensures e.GiveUp? && w.setups[s].renewing == Some(e.call)
  {
    assert MutexOk(w);
  }

  /** In every run only the holder of a Setup's mutex changes what its renewals left behind. */
  lemma LeftUnderMutex(w: World, run: seq<Event>, e: Event, s: SetupId)
    requires AtRest(w) && Possible(w, run) && May(After(w, run), e)
    requires s in After(w, run).setups && s in Next(After(w, run), e).setups
    requires Next(After(w, run), e).setups[s].left != After(w, run).setups[s].left
    ensures (e.Step? || e.GiveUp?) && After(w, run).setups[s].renewing == Some(e.call)
  {
    RunKeepsLocks(w, run);
    if e.Step? {
      StepOnLeft(After(w, run), e.call, s);
    } else {
      OtherOnLeft(After(w, run), e, s);
    }
  }
}
