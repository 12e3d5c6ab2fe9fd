/** When renewals succeed: while no context ends and no lock file fails, no renewal is ever refused, and from every
    moment of every such run each renewal has a way to its end. */
module RenewalSuccess {
  import opened Basics
  import opened Renewal
  import opened RenewalLocks
  import opened RenewalCode
  import opened RenewalPeriods

  /** Events other than a context's end and a lock file that cannot be opened or locked. */
  predicate Smooth(e: Event) {
    !e.Cancel? && !e.OpenFails? && (e.Answer? ==> e.granted)
  }

  predicate SmoothRun(run: seq<Event>) {
    forall i :: 0 <= i < |run| ==> Smooth(run[i])
  }

  predicate Timeless(run: seq<Event>) {
    forall i :: 0 <= i < |run| ==> !run[i].Tick?
  }

  predicate Refusing(pc: Pc) {
    (pc.Unlock? || pc.FreeMutex? || pc.Ended?) && pc.result == Refused
  }

  /** No renewal was refused or cancelled, no flock call failed and none was left behind. */
  ghost predicate Unrefused(w: World) {
    && (forall a :: a in w.calls ==> !w.calls[a].done && !Refusing(w.calls[a].pc))
    && (forall fd :: fd in w.locks ==> w.locks[fd].flock != Failed && !w.locks[fd].left)
    && (forall s :: s in w.setups ==> w.setups[s].left == None)
  }

  /** The step that a renewal takes on the code file is no refusal, whatever it finds there. */
  ghost predicate Succeeding(w: World, a: CallId)
    requires May(w, Step(a))
  {
    FileStep(w.calls[a].pc) && !w.calls[a].pc.Rename? ==>
      && !Refusing(OnFile(w, w.calls[a]).pc) && !OnFile(w, w.calls[a]).done
      && Next(w, Step(a)).calls == w.calls[a := OnFile(w, w.calls[a])]
  }

  lemma SucceedsInOnePeriod(w: World, a: CallId, first: Info)
    requires LockInv(w) && CodeInv(w, first) && RenewedLive(w) && May(w, Step(a)) && Unrefused(w)
    ensures Succeeding(w, a)
  {
    if FileStep(w.calls[a].pc) && !w.calls[a].pc.Rename? {
      if w.renames == 0 {
        OnFileBefore(w, w.calls[a], first);
      } else {
        OnFileAfter(w, w.calls[a], first);
      }
    }
  }

  lemma SucceedsInEveryPeriod(w: World, a: CallId)
    requires PeriodInv(w) && May(w, Step(a)) && Unrefused(w)
    ensures Succeeding(w, a)
  {
    if FileStep(w.calls[a].pc) && !w.calls[a].pc.Rename? {
      FileStepGoes(w, a);
      OnFileOk(w, w.calls[a]);
    }
  }

  lemma FileStepUnrefused(w: World, a: CallId)
    requires Unrefused(w) && May(w, Step(a)) && FileStep(w.calls[a].pc) && Succeeding(w, a)
    ensures Unrefused(Next(w, Step(a)))
  {
    FileStepMoves(w, a);
  }

  lemma LockStepUnrefused(w: World, a: CallId)
    requires Unrefused(w) && May(w, Step(a)) && !FileStep(w.calls[a].pc)
    ensures Unrefused(Next(w, Step(a)))
  {
  }

  lemma OtherUnrefused(w: World, e: Event)
    requires Unrefused(w) && May(w, e) && !e.Step? && Smooth(e)
    ensures Unrefused(Next(w, e))
  {
  }

  lemma EventUnrefused(w: World, e: Event)
    requires Unrefused(w) && May(w, e) && Smooth(e) && (e.Step? ==> Succeeding(w, e.call))
    ensures Unrefused(Next(w, e))
  {
    if !e.Step? {
      OtherUnrefused(w, e);
    } else if FileStep(w.calls[e.call].pc) {
      FileStepUnrefused(w, e.call);
    } else {
      LockStepUnrefused(w, e.call);
    }
  }

  lemma {:induction false} OnePeriodUnrefused(w: World, run: seq<Event>, first: Info)
    requires LockInv(w) && CodeInv(w, first) && Unrefused(w)
    requires Possible(w, run) && StaysLive(w, run) && SmoothRun(run)
    ensures Unrefused(After(w, run))
    decreases run
  {
    if run != [] {
      if run[0].Step? {
        SucceedsInOnePeriod(w, run[0].call, first);
      }
      EventUnrefused(w, run[0]);
      EventKeepsLocks(w, run[0]);
      EventKeepsCode(w, run[0], first);
      OnePeriodUnrefused(Next(w, run[0]), run[1..], first);
    }
  }

  lemma {:induction false} EveryPeriodUnrefused(w: World, run: seq<Event>)
    requires LockInv(w) && PeriodInv(w) && Unrefused(w) && Possible(w, run) && SmoothRun(run)
    ensures LockInv(After(w, run)) && PeriodInv(After(w, run)) && Unrefused(After(w, run))
    decreases run
  {
    if run != [] {
      if run[0].Step? {
        SucceedsInEveryPeriod(w, run[0].call);
      }
      EventUnrefused(w, run[0]);
      EventKeepsLocks(w, run[0]);
      EventKeepsPeriods(w, run[0]);
      EveryPeriodUnrefused(Next(w, run[0]), run[1..]);
    }
  }

  /** From one stale code, while no context ends and no lock file fails, every renewal that ended answered the one code
      that the file holds, the renewals that lost the race included. */
  lemma EveryRenewalAnswers(w: World, run: seq<Event>, a: CallId)
    requires Untouched(w) && Possible(w, run) && StaysLive(w, run) && SmoothRun(run)
    requires a in After(w, run).calls && After(w, run).calls[a].pc.Ended?
    ensures var after := After(w, run);
            && after.path.Some? && after.path.value in after.inodes
            && after.calls[a].pc == Ended(Renewed(after.inodes[after.path.value].code))
  {
    OnePeriodUnrefused(w, run, InfoOf(w, w.path.value));
    OneRename(w, run);
  }

  /** However often the code expires, while no context ends and no lock file fails, no renewal that ended was
      refused. */
  lemma NoneRefused(w: World, run: seq<Event>, a: CallId)
    requires Dated(w) && Possible(w, run) && SmoothRun(run)
    requires a in After(w, run).calls && After(w, run).calls[a].pc.Ended?
    ensures After(w, run).calls[a].pc.result.Renewed?
  {
    EveryPeriodUnrefused(w, run);
  }

  // The way to an end

  function Unended(w: World): set<CallId> {
    set a | a in w.calls && !w.calls[a].pc.Ended?
  }

  /** How many steps a renewal may have left. */
  function Rank(pc: Pc): nat {
    match pc
    case TakeMutex => 17
    case WaitLeft => 16
    case OpenLock => 15
    case AwaitFlock(_) => 14
    case Look(_, why) => if why.Current? then 12 else 7
    case Open(_, why, _) => if why.Current? then 11 else 6
    case CreateTemp(_, _) => 10
    case LookAgain(_, _, _) => 9
    case Rename(_, _) => 8
    case Unlock(_, _) => 5
    case FreeMutex(_) => 4
    case _ => 0
  }

  /** The same, one less once the flock is granted. */
  function RankIn(w: World, a: CallId): nat
    requires a in w.calls
  {
    var pc := w.calls[a].pc;
    if pc.AwaitFlock? && pc.fd in w.locks && w.locks[pc.fd].flock == Granted then 13 else Rank(pc)
  }

  ghost predicate Ready(w: World) {
    LockInv(w) && PeriodInv(w) && Unrefused(w)
  }

  /** What a renewal's own step leaves of the others, and what it brings it closer to. */
  ghost predicate Closer(w: World, next: World, a: CallId) {
    && Ready(next) && a in w.calls && next.calls.Keys == w.calls.Keys && Rank(next.calls[a].pc) < Rank(w.calls[a].pc)
    && forall b :: b in w.calls && b != a ==> next.calls[b] == w.calls[b]
  }

  lemma FreshIno(inodes: map<Ino, Inode>) returns (ino: Ino)
    ensures ino !in inodes
  {
    ino := Above(inodes.Keys);
  }

  lemma {:induction false} Above(ids: set<nat>) returns (bound: nat)
    ensures forall id :: id in ids ==> id < bound
    decreases ids
  {
    bound := 0;
    if ids != {} {
      var one :| one in ids;
      var rest := Above(ids - {one});
      bound := if rest <= one then one + 1 else rest;
      forall id | id in ids ensures id < bound {
        assert id == one || id in ids - {one};
      }
    }
  }

  lemma FileRank(w: World, call: Call)
    requires FileOk(w) && w.path.Some? && CallOk(w, call, InfoOf(w, w.path.value))
    requires call.pc.Look? || call.pc.Open? || call.pc.LookAgain?
    ensures Rank(OnFile(w, call).pc) < Rank(call.pc)
  {
  }

  lemma FileStepCloser(w: World, a: CallId)
    requires Ready(w) && May(w, Step(a)) && Succeeding(w, a) && FileStep(w.calls[a].pc) && !w.calls[a].pc.Rename?
    ensures StepBrings(w, a)
  {
    assert CallOk(w, w.calls[a], InfoOf(w, w.path.value));
    FileRank(w, w.calls[a]);
  }

  lemma RenameCloser(w: World, a: CallId)
    requires May(w, Step(a)) && w.calls[a].pc.Rename?
    ensures StepBrings(w, a)
  {
  }

  lemma LockStepCloser(w: World, a: CallId)
    requires May(w, Step(a)) && !FileStep(w.calls[a].pc)
    ensures StepBrings(w, a)
  {
  }

  /** A step changes its own renewal alone and brings it closer to its end. */
  ghost predicate StepBrings(w: World, a: CallId)
    requires May(w, Step(a))
  {
    var next := Next(w, Step(a));
    && next.calls.Keys == w.calls.Keys && Rank(next.calls[a].pc) < Rank(w.calls[a].pc)
    && forall b :: b in w.calls && b != a ==> next.calls[b] == w.calls[b]
  }

  lemma StepCloser(w: World, a: CallId)
    requires Ready(w) && May(w, Step(a))
    ensures Closer(w, Next(w, Step(a)), a)
  {
    SucceedsInEveryPeriod(w, a);
    if w.calls[a].pc.Rename? {
      RenameCloser(w, a);
    } else if FileStep(w.calls[a].pc) {
      FileStepCloser(w, a);
    } else {
      LockStepCloser(w, a);
    }
    EventUnrefused(w, Step(a));
    EventKeepsLocks(w, Step(a));
    EventKeepsPeriods(w, Step(a));
  }

  lemma WriteReady(w: World, a: CallId, ino: Ino)
    requires Ready(w) && May(w, Write(a, ino, 0))
    ensures Ready(Next(w, Write(a, ino, 0)))
  {
    EventUnrefused(w, Write(a, ino, 0));
    EventKeepsLocks(w, Write(a, ino, 0));
    EventKeepsPeriods(w, Write(a, ino, 0));
  }

  lemma WriteCloser(w: World, a: CallId, ino: Ino)
    requires Ready(w) && a in w.calls && w.calls[a].pc.CreateTemp? && ino !in w.inodes
    ensures May(w, Write(a, ino, 0)) && Closer(w, Next(w, Write(a, ino, 0)), a)
  {
    assert CallOk(w, w.calls[a], InfoOf(w, w.path.value));
    WriteReady(w, a, ino);
  }

  lemma OpenReady(w: World, a: CallId, fd: Fd)
    requires Ready(w) && May(w, OpenFd(a, fd))
    ensures Ready(Next(w, OpenFd(a, fd)))
  {
    EventUnrefused(w, OpenFd(a, fd));
    EventKeepsLocks(w, OpenFd(a, fd));
    EventKeepsPeriods(w, OpenFd(a, fd));
  }

  lemma OpenCloser(w: World, a: CallId, fd: Fd)
    requires Ready(w) && a in w.calls && w.calls[a].pc.OpenLock? && fd !in w.locks
    ensures May(w, OpenFd(a, fd)) && Closer(w, Next(w, OpenFd(a, fd)), a)
  {
    assert CallOk(w, w.calls[a], InfoOf(w, w.path.value));
    OpenReady(w, a, fd);
  }

  /** A renewal whose mutex is free or its own, and whose flock call was answered, may take its next step. */
  lemma MayStep(w: World, a: CallId)
    requires Ready(w) && a in w.calls && !w.calls[a].pc.Ended? && !w.calls[a].pc.CreateTemp? && !w.calls[a].pc.OpenLock?
    requires w.calls[a].pc.TakeMutex? ==> w.setups[w.calls[a].setup].renewing == None
    requires w.calls[a].pc.AwaitFlock? ==>
               w.calls[a].pc.fd in w.locks && w.locks[w.calls[a].pc.fd].flock == Granted
    ensures May(w, Step(a))
  {
    assert CallLockOk(w, a) && CallOk(w, w.calls[a], InfoOf(w, w.path.value));
  }

  /** The event by which a renewal goes on, unless the mutex of its Setup or the flock is another's. */
  lemma OwnEvent(w: World, a: CallId) returns (e: Event)
    requires Ready(w) && a in w.calls && !w.calls[a].pc.Ended?
    requires w.calls[a].pc.TakeMutex? ==> w.setups[w.calls[a].setup].renewing == None
    requires w.calls[a].pc.AwaitFlock? ==>
               w.calls[a].pc.fd in w.locks && w.locks[w.calls[a].pc.fd].flock == Granted
    ensures May(w, e) && Smooth(e) && !e.Tick? && Closer(w, Next(w, e), a)
  {
    if w.calls[a].pc.CreateTemp? {
      var ino := FreshIno(w.inodes);
      e := Write(a, ino, 0);
      WriteCloser(w, a, ino);
    } else if w.calls[a].pc.OpenLock? {
      var fd := Above(w.locks.Keys);
      e := OpenFd(a, fd);
      OpenCloser(w, a, fd);
    } else {
      e := Step(a);
      MayStep(w, a);
      StepCloser(w, a);
    }
  }

  /** Which other renewal a renewal waits for: the mutex holder of its Setup, or the holder of the flock. */
  lemma WaitsFor(w: World, a: CallId) returns (b: CallId)
    requires Ready(w) && a in w.calls
    requires (w.calls[a].pc.TakeMutex? && w.setups[w.calls[a].setup].renewing.Some?) ||
             (w.calls[a].pc.AwaitFlock? && w.locks[w.calls[a].pc.fd].flock == Waiting &&
              exists fd :: fd in w.locks && w.locks[fd].flock == Granted)
    ensures b in w.calls && b != a && !w.calls[b].pc.Ended? && RankIn(w, b) < RankIn(w, a)
  {
    assert MutexOk(w) && CallLockOk(w, a);
    if w.calls[a].pc.TakeMutex? {
      b := w.setups[w.calls[a].setup].renewing.value;
    } else {
      var fd :| fd in w.locks && w.locks[fd].flock == Granted;
      assert LockOwned(w, fd);
      b := w.setups[w.locks[fd].setup].renewing.value;
      assert CallLockOk(w, b) && CallOk(w, w.calls[b], InfoOf(w, w.path.value));
    }
  }

  /** The kernel grants a flock that nobody holds. */
  lemma Grant(w: World, a: CallId) returns (e: Event)
    requires Ready(w) && a in w.calls && w.calls[a].pc.AwaitFlock?
    requires w.calls[a].pc.fd in w.locks && w.locks[w.calls[a].pc.fd].flock == Waiting
    requires forall fd :: fd in w.locks ==> w.locks[fd].flock != Granted
    ensures May(w, e) && Smooth(e) && !e.Tick? && Ready(Next(w, e)) && Next(w, e).calls == w.calls
    ensures w.calls[a].pc.fd in Next(w, e).locks && Next(w, e).locks[w.calls[a].pc.fd].flock == Granted
  {
    e := Answer(w.calls[a].pc.fd, true);
    EventUnrefused(w, e);
    EventKeepsLocks(w, e);
    EventKeepsPeriods(w, e);
  }

  /** Runs one after the other. */
  lemma {:induction false} RunThen(w: World, first: seq<Event>, second: seq<Event>)
    requires Possible(w, first) && Possible(After(w, first), second) && SmoothRun(first) && SmoothRun(second)
    ensures Possible(w, first + second) && SmoothRun(first + second)
    ensures After(w, first + second) == After(After(w, first), second)
    decreases first
  {
    if first == [] {
      assert first + second == second;
    } else {
      RunThen(Next(w, first[0]), first[1..], second);
      assert (first + second)[1..] == first[1..] + second;
    }
  }

  lemma OneEventRun(w: World, e: Event)
    requires May(w, e) && Smooth(e)
    ensures Possible(w, [e]) && SmoothRun([e]) && After(w, [e]) == Next(w, e)
  {
    OneMoreEvent(w, e, []);
    assert [e] + [] == [e];
  }

  /** What a run on leaves: nothing that ended is undone, no renewal is new, and no time passes. */
  ghost predicate GoesOn(w: World, run: seq<Event>) {
    && Possible(w, run) && SmoothRun(run) && Timeless(run) && Ready(After(w, run))
    && After(w, run).calls.Keys == w.calls.Keys && Unended(After(w, run)) <= Unended(w)
  }

  lemma GoesOnThen(w: World, first: seq<Event>, second: seq<Event>)
    requires GoesOn(w, first) && GoesOn(After(w, first), second)
    ensures GoesOn(w, first + second) && After(w, first + second) == After(After(w, first), second)
  {
    RunThen(w, first, second);
  }

  lemma CloserUnended(w: World, next: World, a: CallId)
    requires Closer(w, next, a) && !w.calls[a].pc.Ended?
    ensures next.calls.Keys == w.calls.Keys && Unended(next) <= Unended(w)
  {
  }

  lemma OwnGoesOn(w: World, e: Event, a: CallId)
    requires May(w, e) && Smooth(e) && !e.Tick? && Closer(w, Next(w, e), a) && !w.calls[a].pc.Ended?
    ensures GoesOn(w, [e]) && After(w, [e]) == Next(w, e)
  {
    CloserUnended(w, Next(w, e), a);
    OneEventRun(w, e);
  }

  lemma GrantGoesOn(w: World, a: CallId) returns (run: seq<Event>)
    requires Ready(w) && a in w.calls && w.calls[a].pc.AwaitFlock?
    requires w.calls[a].pc.fd in w.locks && w.locks[w.calls[a].pc.fd].flock == Waiting
    requires forall fd :: fd in w.locks ==> w.locks[fd].flock != Granted
    ensures GoesOn(w, run) && After(w, run).calls == w.calls
    ensures w.calls[a].pc.fd in After(w, run).locks && After(w, run).locks[w.calls[a].pc.fd].flock == Granted
  {
    var e := Grant(w, a);
    OneEventRun(w, e);
    run := [e];
  }

  /** Where a renewal that has yet to end waits, and for what. */
  predicate Blocked(w: World, a: CallId)
    requires a in w.calls && w.calls[a].setup in w.setups
  {
    || (w.calls[a].pc.TakeMutex? && w.setups[w.calls[a].setup].renewing.Some?)
    || (w.calls[a].pc.AwaitFlock? && w.calls[a].pc.fd in w.locks && w.locks[w.calls[a].pc.fd].flock == Waiting &&
        exists fd :: fd in w.locks && w.locks[fd].flock == Granted)
  }

  lemma RankInDrops(w: World, next: World, a: CallId)
    requires a in w.calls && a in next.calls && Rank(next.calls[a].pc) < Rank(w.calls[a].pc)
    requires w.calls[a].pc.AwaitFlock? ==>
               w.calls[a].pc.fd in w.locks && w.locks[w.calls[a].pc.fd].flock == Granted
    ensures RankIn(next, a) < RankIn(w, a)
  {
  }

  lemma OwnCloser(w: World, a: CallId) returns (e: Event)
    requires Ready(w) && a in w.calls && !w.calls[a].pc.Ended? && w.calls[a].setup in w.setups && !Blocked(w, a)
    requires w.calls[a].pc.AwaitFlock? ==>
               w.calls[a].pc.fd in w.locks && w.locks[w.calls[a].pc.fd].flock == Granted
    ensures May(w, e) && Smooth(e) && !e.Tick? && Closer(w, Next(w, e), a) && RankIn(Next(w, e), a) < RankIn(w, a)
  {
    e := OwnEvent(w, a);
    RankInDrops(w, Next(w, e), a);
  }

  lemma AwaitsAnswer(w: World, a: CallId)
    requires Ready(w) && a in w.calls && w.calls[a].pc.AwaitFlock?
    ensures w.calls[a].setup in w.setups && w.calls[a].pc.fd in w.locks
    ensures w.locks[w.calls[a].pc.fd].flock == Waiting || w.locks[w.calls[a].pc.fd].flock == Granted
  {
    assert CallLockOk(w, a);
  }

  /** A renewal that nothing blocks comes closer to its end, by the kernel's answer or by its own step. */
  lemma ComesCloser(w: World, a: CallId) returns (run: seq<Event>)
    requires Ready(w) && a in w.calls && !w.calls[a].pc.Ended? && w.calls[a].setup in w.setups && !Blocked(w, a)
    ensures GoesOn(w, run) && RankIn(After(w, run), a) < RankIn(w, a)
  {
    if w.calls[a].pc.AwaitFlock? {
      AwaitsAnswer(w, a);
    }
    if w.calls[a].pc.AwaitFlock? && w.locks[w.calls[a].pc.fd].flock == Waiting {
      run := GrantGoesOn(w, a);
    } else {
      var e := OwnCloser(w, a);
      OwnGoesOn(w, e, a);
      run := [e];
    }
  }

  lemma FewerUnended(w: World, run: seq<Event>, b: CallId)
    requires GoesOn(w, run) && b in Unended(w) && After(w, run).calls[b].pc.Ended?
    ensures |Unended(After(w, run))| < |Unended(w)|
  {
    SubsetSize(Unended(After(w, run)), Unended(w) - {b});
  }

  lemma NoMoreUnended(w: World, run: seq<Event>)
    requires GoesOn(w, run)
    ensures |Unended(After(w, run))| <= |Unended(w)|
  {
    SubsetSize(Unended(After(w, run)), Unended(w));
  }

  /** From every moment a renewal has a way to its end, through the ends of those it waits for. */
  lemma {:induction false} CallEnds(w: World, a: CallId) returns (run: seq<Event>)
    requires Ready(w) && a in w.calls
    ensures GoesOn(w, run) && After(w, run).calls[a].pc.Ended?
    decreases |Unended(w)|, RankIn(w, a)
  {
    assert w.calls[a].setup in w.setups;
    if w.calls[a].pc.Ended? {
      run := [];
    } else {
      var first: seq<Event>;
      if Blocked(w, a) {
        var b := WaitsFor(w, a);
        first := CallEnds(w, b);
        FewerUnended(w, first, b);
      } else {
        first := ComesCloser(w, a);
        NoMoreUnended(w, first);
      }
      var second := CallEnds(After(w, first), a);
      GoesOnThen(w, first, second);
      run := first + second;
    }
  }

  lemma OneEnds(w: World, a: CallId) returns (run: seq<Event>)
    requires Ready(w) && a in Unended(w)
    ensures GoesOn(w, run) && |Unended(After(w, run))| < |Unended(w)|
  {
    run := CallEnds(w, a);
    FewerUnended(w, run, a);
  }

  lemma {:induction false} AllEnd(w: World) returns (run: seq<Event>)
    requires Ready(w)
    ensures GoesOn(w, run) && Unended(After(w, run)) == {}
    decreases |Unended(w)|
  {
    if Unended(w) == {} {
      run := [];
    } else {
      var a :| a in Unended(w);
      var first := OneEnds(w, a);
      var second := AllEnd(After(w, first));
      GoesOnThen(w, first, second);
      run := first + second;
    }
  }

  /** However renewals have interleaved so far, no context having ended and no lock file failed, a run goes on from
      there in which all of them end, each by answering a code. */
  lemma EveryRenewalMayEnd(w: World, run: seq<Event>) returns (more: seq<Event>)
    requires Dated(w) && Possible(w, run) && SmoothRun(run)
    ensures Possible(After(w, run), more) && SmoothRun(more)
    ensures var after, end := After(w, run), After(After(w, run), more);
            && end.calls.Keys == after.calls.Keys
            && (forall a :: a in end.calls ==> end.calls[a].pc.Ended? && end.calls[a].pc.result.Renewed?)
  {
    EveryPeriodUnrefused(w, run);
    more := AllEnd(After(w, run));
    var end := After(After(w, run), more);
    forall a | a in end.calls ensures end.calls[a].pc.Ended? && end.calls[a].pc.result.Renewed? {
      assert a !in Unended(end);
    }
  }

  /** A renewal waits for a flock call left behind, on a lock file in a state. */
  predicate WaitsOn(w: World, a: CallId, fd: Fd, flock: Flock) {
    && Live(w, a) && FileOk(w) && w.calls[a].pc.WaitLeft? && w.setups[w.calls[a].setup].left == Some(fd)
    && fd in w.locks && w.locks[fd].left && w.locks[fd].flock == flock
  }

  /** A run moves a renewal past its wait, nothing left behind, and changes nothing else but that lock file. */
  predicate PassesWait(w: World, a: CallId, run: seq<Event>) {
    && Possible(w, run) && Live(w, a)
    && var next := After(w, run);
    && next.calls == w.calls[a := w.calls[a].(pc := OpenLock)]
    && next.setups == w.setups[w.calls[a].setup := w.setups[w.calls[a].setup].(left := None)]
    && next.path == w.path && next.inodes == w.inodes
  }

  lemma PassesAfter(w: World, a: CallId, e: Event, rest: seq<Event>)
    requires May(w, e) && PassesWait(Next(w, e), a, rest)
    requires Next(w, e) == w.(locks := Next(w, e).locks)
    ensures PassesWait(w, a, [e] + rest)
  {
    assert ([e] + rest)[1..] == rest;
  }

  lemma PassesNow(w: World, a: CallId)
    requires May(w, Step(a)) && w.calls[a].pc.WaitLeft?
    ensures PassesWait(w, a, [Step(a)])
  {
    assert [Step(a)][1..] == [];
    assert After(w, [Step(a)]) == Next(w, Step(a));
  }

  lemma PassesClosing(w: World, a: CallId, fd: Fd, flock: Flock)
    requires WaitsOn(w, a, fd, flock) && (flock == Granted || flock == Failed)
    ensures PassesWait(w, a, [CloseLeft(fd)] + [Step(a)])
  {
    PassesNow(Next(w, CloseLeft(fd)), a);
    PassesAfter(w, a, CloseLeft(fd), [Step(a)]);
  }

  lemma PassesAnswering(w: World, a: CallId, fd: Fd, granted: bool)
    requires WaitsOn(w, a, fd, Waiting)
    requires granted ==> forall other :: other in w.locks ==> w.locks[other].flock != Granted
    ensures PassesWait(w, a, [Answer(fd, granted)] + ([CloseLeft(fd)] + [Step(a)]))
  {
    PassesClosing(Next(w, Answer(fd, granted)), a, fd, if granted then Granted else Failed);
    PassesAfter(w, a, Answer(fd, granted), [CloseLeft(fd)] + [Step(a)]);
  }

  /** In every run, contexts that end and lock files that fail included, a renewal that waits for a flock call left
      behind has a way on whichever way the call is answered: its file closes, nothing is left behind, and no other
      renewal moved. */
  lemma LeftIsReleased(w: World, run: seq<Event>, a: CallId, granted: bool) returns (more: seq<Event>)
    requires Dated(w) && Possible(w, run) && a in After(w, run).calls && After(w, run).calls[a].pc.WaitLeft?
    requires granted ==> forall fd :: fd in After(w, run).locks ==> After(w, run).locks[fd].flock != Granted
    ensures PassesWait(After(w, run), a, more)
  {
    RunKeepsLocks(w, run);
    RunKeepsPeriods(w, run);
    var after := After(w, run);
    var left := after.setups[after.calls[a].setup].left;
    if left.Some? && after.locks[left.value].flock == Waiting {
      more := [Answer(left.value, granted)] + ([CloseLeft(left.value)] + [Step(a)]);
      PassesAnswering(after, a, left.value, granted);
    } else if left.Some? && after.locks[left.value].flock != Closed {
      more := [CloseLeft(left.value)] + [Step(a)];
      PassesClosing(after, a, left.value, after.locks[left.value].flock);
    } else {
      more := [Step(a)];
      PassesNow(after, a);
    }
  }

  // Two renewals of one stale code

  /** What was renamed into place, or is about to be, is dated now. */
  ghost predicate FreshNow(w: World) {
    && (w.renames > 0 ==> w.path.Some? && w.path.value in w.inodes && w.inodes[w.path.value].mtime == w.clock &&
                          !w.inodes[w.path.value].shared)
    && (forall a :: a in w.calls && (w.calls[a].pc.LookAgain? || w.calls[a].pc.Rename?) ==>
          w.calls[a].pc.temp in w.inodes && w.inodes[w.calls[a].pc.temp].mtime == w.clock &&
          !w.inodes[w.calls[a].pc.temp].shared)
  }

  lemma FreshIsLive(w: World)
    requires FreshNow(w) && PeriodInv(w)
    ensures RenewedLive(w)
  {
  }

  lemma RenameFreshNow(w: World, a: CallId)
    requires LockInv(w) && FreshNow(w) && May(w, Step(a)) && w.calls[a].pc.Rename?
    ensures FreshNow(Next(w, Step(a)))
  {
    forall b | b in w.calls && b != a ensures !Locked(w.calls[b].pc) {
      AloneAtRename(w, a, b);
    }
  }

  lemma FileStepFreshNow(w: World, a: CallId)
    requires Ready(w) && FreshNow(w) && May(w, Step(a)) && FileStep(w.calls[a].pc) && !w.calls[a].pc.Rename?
    ensures FreshNow(Next(w, Step(a)))
  {
    FileStepGoes(w, a);
    FileStepMoves(w, a);
    OnFileTemp(w, w.calls[a]);
    assert Next(w, Step(a)).renames == w.renames && Next(w, Step(a)).clock == w.clock;
  }

  lemma OnFileTemp(w: World, call: Call)
    requires FileOk(w) && call.setup in w.setups
    ensures OnFile(w, call).pc.LookAgain? || OnFile(w, call).pc.Rename? ==>
              (call.pc.LookAgain? || call.pc.Rename?) && OnFile(w, call).pc.temp == call.pc.temp
  {
  }

  lemma LockStepFreshNow(w: World, a: CallId)
    requires FreshNow(w) && May(w, Step(a)) && !FileStep(w.calls[a].pc)
    ensures FreshNow(Next(w, Step(a)))
  {
    LockStepMoves(w, a);
  }

  lemma OtherFreshNow(w: World, e: Event)
    requires PeriodInv(w) && FreshNow(w) && May(w, e) && !e.Step? && !e.Tick?
    ensures FreshNow(Next(w, e))
  {
  }

  lemma EventFreshNow(w: World, e: Event)
    requires Ready(w) && FreshNow(w) && May(w, e) && !e.Tick?
    ensures FreshNow(Next(w, e))
  {
    if !e.Step? {
      OtherFreshNow(w, e);
    } else if w.calls[e.call].pc.Rename? {
      RenameFreshNow(w, e.call);
    } else if FileStep(w.calls[e.call].pc) {
      FileStepFreshNow(w, e.call);
    } else {
      LockStepFreshNow(w, e.call);
    }
  }

  lemma EventReady(w: World, e: Event)
    requires Ready(w) && May(w, e) && Smooth(e)
    ensures Ready(Next(w, e))
  {
    if e.Step? {
      SucceedsInEveryPeriod(w, e.call);
    }
    EventUnrefused(w, e);
    EventKeepsLocks(w, e);
    EventKeepsPeriods(w, e);
  }

  lemma {:induction false} TimelessStaysLive(w: World, run: seq<Event>)
    requires Ready(w) && FreshNow(w) && Possible(w, run) && SmoothRun(run) && Timeless(run)
    ensures StaysLive(w, run)
    decreases run
  {
    FreshIsLive(w);
    if run != [] {
      EventReady(w, run[0]);
      EventFreshNow(w, run[0]);
      TimelessStaysLive(Next(w, run[0]), run[1..]);
    }
  }

  /** The file of a Setup's code lets others in, or is as old as the Setup's lifetime. */
  predicate Spent(w: World, s: SetupId) {
    s in w.setups && w.path.Some? && w.path.value in w.inodes &&
    (w.inodes[w.path.value].shared || w.clock >= w.inodes[w.path.value].mtime + w.setups[s].lifetime)
  }

  lemma BothBegin(w: World, a: CallId, b: CallId, s: SetupId, t: SetupId) returns (run: seq<Event>)
    requires Dated(w) && a != b && s in w.setups && t in w.setups
    requires Spent(w, s) && Spent(w, t)
    ensures Possible(w, run) && SmoothRun(run) && Timeless(run) && {a, b} <= After(w, run).calls.Keys
  {
    var begun := Next(w, Begin(a, s));
    OneMoreEvent(begun, Begin(b, t), []);
    OneMoreEvent(w, Begin(a, s), [Begin(b, t)] + []);
    run := [Begin(a, s)] + ([Begin(b, t)] + []);
  }

  lemma AllEndFrom(w: World, first: seq<Event>) returns (run: seq<Event>)
    requires Dated(w) && Possible(w, first) && SmoothRun(first) && Timeless(first)
    ensures Possible(w, run) && SmoothRun(run) && Timeless(run)
    ensures After(w, run).calls.Keys == After(w, first).calls.Keys && Unended(After(w, run)) == {}
  {
    EveryPeriodUnrefused(w, first);
    var more := AllEnd(After(w, first));
    RunThen(w, first, more);
    run := first + more;
  }

  /** Two renewals that find one stale code, of one Setup or of two, have a run in which both end by answering the one
      code that the file then holds. */
  lemma TwoRenewalsAgree(w: World, a: CallId, b: CallId, s: SetupId, t: SetupId) returns (run: seq<Event>)
    requires Dated(w) && a != b && s in w.setups && t in w.setups
    requires Spent(w, s) && Spent(w, t)
    ensures Possible(w, run) && a in After(w, run).calls && b in After(w, run).calls
    ensures var after := After(w, run);
            && after.renames == 1 && after.path.Some? && after.path.value in after.inodes
            && after.calls[a].pc == Ended(Renewed(after.inodes[after.path.value].code))
            && after.calls[b].pc == Ended(Renewed(after.inodes[after.path.value].code))
  {
    var begins := BothBegin(w, a, b, s, t);
    run := AllEndFrom(w, begins);
    TimelessStaysLive(w, run);
    assert a !in Unended(After(w, run)) && b !in Unended(After(w, run));
    EveryRenewalAnswers(w, run, a);
    EveryRenewalAnswers(w, run, b);
    OneRename(w, run);
  }
}
