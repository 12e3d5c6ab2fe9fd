/** Renewals over any number of stale periods: however often the code expires and however the calls interleave, no
    rename replaces a code that is live and private for the Setup that renames, and the code file is never missing. */
module RenewalPeriods {
  import opened Basics
  import opened Renewal
  import opened RenewalLocks
  import opened RenewalCode

  /** Setups at rest over a code file that is not dated in the future, every lifetime positive. */
  predicate Dated(w: World) {
    && Untouched(w) && w.inodes[w.path.value].mtime <= w.clock
    && forall s :: s in w.setups ==> w.setups[s].lifetime > 0
  }

  /** The file that the path holds is the one seen before, or a private one renamed into place since. */
  predicate Since(now: Info, seen: Info) {
    now == seen || (!now.shared && (now.mtime > seen.mtime || (now.mtime == seen.mtime && now.ino != seen.ino)))
  }

  /** A temporary file may replace what the path holds, which is stale. */
  predicate Replaces(w: World, s: SetupId, now: Info, temp: Ino)
    requires s in w.setups
  {
    && StaleFor(w, s, now) && temp in w.inodes && temp != now.ino && !w.inodes[temp].shared
    && now.mtime <= w.inodes[temp].mtime <= w.clock && (now.shared || now.mtime < w.inodes[temp].mtime)
  }

  /** Where a renewal may be while the path holds a file. */
  predicate StepOk(w: World, call: Call, now: Info)
    requires call.setup in w.setups
  {
    match call.pc
    case Look(_, why) => !why.Kept? && (why.Back? ==> !now.shared)
    case Open(_, why, seen) => !why.Kept? && seen == now && (why.Back? ==> !now.shared)
    case CreateTemp(_, current) => current.seen == now && StaleFor(w, call.setup, now)
    case LookAgain(_, current, temp) => current.seen == now && Replaces(w, call.setup, now, temp)
    case Rename(_, temp) => Replaces(w, call.setup, now, temp)
    case Place(_) => false
    case Link(_, _) => false
    case LookBack(_, _) => false
    case Unlink(_) => false
    case _ => true
  }

  predicate CallOk(w: World, call: Call, now: Info) {
    && call.setup in w.setups
    && Since(now, call.stale.seen) && (call.stale.seen == now ==> StaleFor(w, call.setup, now))
    && StepOk(w, call, now)
  }

  ghost predicate PeriodInv(w: World) {
    && w.path.Some? && w.path.value in w.inodes && w.inodes[w.path.value].mtime <= w.clock
    && (forall s :: s in w.setups ==> w.setups[s].lifetime > 0)
    && (forall a :: a in w.calls ==> CallOk(w, w.calls[a], InfoOf(w, w.path.value)))
  }

  /** What a renewal relies on stays while the path and the temporary files do, and the clock goes on. */
  predicate Goes(w: World, next: World) {
    && next.path == w.path && KeepsInodes(w, next) && w.clock <= next.clock
    && next.setups.Keys == w.setups.Keys
    && forall s :: s in w.setups ==> next.setups[s].lifetime == w.setups[s].lifetime
  }

  lemma CallGoes(w: World, next: World, call: Call)
    requires w.path.Some? && w.path.value in w.inodes && Goes(w, next)
    requires CallOk(w, call, InfoOf(w, w.path.value))
    ensures CallOk(next, call, InfoOf(next, next.path.value))
  {
  }

  lemma MoveKeepsPeriods(w: World, next: World, a: CallId, call: Call)
    requires PeriodInv(w) && Goes(w, next) && next.calls == w.calls[a := call]
    requires CallOk(next, call, InfoOf(next, next.path.value))
    ensures PeriodInv(next)
  {
    forall b | b in next.calls && b != a ensures CallOk(next, next.calls[b], InfoOf(next, next.path.value)) {
      CallGoes(w, next, w.calls[b]);
    }
  }

  /** A renewal's own step on the code file, but for the rename. */
  lemma OnFileOk(w: World, call: Call)
    requires FileOk(w) && w.path.Some? && call.setup in w.setups
    requires CallOk(w, call, InfoOf(w, w.path.value))
    ensures CallOk(w, OnFile(w, call), InfoOf(w, w.path.value))
    ensures call.pc.LookAgain? ==> OnFile(w, call).pc.Rename?
  {
  }

  lemma FileStepGoes(w: World, a: CallId)
    requires PeriodInv(w) && May(w, Step(a)) && FileStep(w.calls[a].pc) && !w.calls[a].pc.Rename?
    ensures var next := Next(w, Step(a)); Goes(w, next) && next.calls == w.calls[a := OnFile(w, w.calls[a])]
  {
    OnFileOk(w, w.calls[a]);
  }

  lemma FileStepKeepsPeriods(w: World, a: CallId)
    requires PeriodInv(w) && May(w, Step(a)) && FileStep(w.calls[a].pc) && !w.calls[a].pc.Rename?
    ensures PeriodInv(Next(w, Step(a)))
  {
    var next := Next(w, Step(a));
    FileStepGoes(w, a);
    OnFileOk(w, w.calls[a]);
    CallGoes(w, next, OnFile(w, w.calls[a]));
    MoveKeepsPeriods(w, next, a, OnFile(w, w.calls[a]));
  }

  lemma LockStepGoes(w: World, a: CallId)
    requires PeriodInv(w) && May(w, Step(a)) && !FileStep(w.calls[a].pc)
    ensures var next := Next(w, Step(a));
            && Goes(w, next) && a in next.calls && next.calls == w.calls[a := next.calls[a]]
            && CallOk(w, next.calls[a], InfoOf(w, w.path.value))
  {
    LockStepMoves(w, a);
    var next := Next(w, Step(a));
    assert StepOk(w, next.calls[a], InfoOf(w, w.path.value));
  }

  lemma LockStepKeepsPeriods(w: World, a: CallId)
    requires PeriodInv(w) && May(w, Step(a)) && !FileStep(w.calls[a].pc)
    ensures PeriodInv(Next(w, Step(a)))
  {
    var next := Next(w, Step(a));
    LockStepGoes(w, a);
    CallGoes(w, next, next.calls[a]);
    MoveKeepsPeriods(w, next, a, next.calls[a]);
  }

  // The rename

  lemma AloneAtRename(w: World, a: CallId, b: CallId)
    requires LockInv(w) && a in w.calls && b in w.calls && a != b && w.calls[a].pc.Rename?
    ensures !Locked(w.calls[b].pc)
  {
    assert CallLockOk(w, a) && CallLockOk(w, b);
    if Locked(w.calls[b].pc) {
      OnlyOwner(w, a, b, FdOf(w.calls[a].pc).value);
    }
  }

  /** The fresh file is newer than, or another than, every file seen before. */
  lemma RenamedSince(w: World, s: SetupId, now: Info, temp: Ino, seen: Info)
    requires s in w.setups && Replaces(w, s, now, temp) && Since(now, seen)
    ensures Since(InfoOf(w, temp), seen) && InfoOf(w, temp) != seen
  {
  }

  lemma RenameKeepsPeriods(w: World, a: CallId)
    requires LockInv(w) && PeriodInv(w) && May(w, Step(a)) && w.calls[a].pc.Rename?
    ensures PeriodInv(Next(w, Step(a)))
  {
    var next, temp := Next(w, Step(a)), w.calls[a].pc.temp;
    assert CallOk(w, w.calls[a], InfoOf(w, w.path.value));
    assert next.path == Some(temp) && InfoOf(next, temp) == InfoOf(w, temp);
    forall b | b in next.calls ensures CallOk(next, next.calls[b], InfoOf(next, temp)) {
      assert CallOk(w, w.calls[b], InfoOf(w, w.path.value));
      RenamedSince(w, w.calls[a].setup, InfoOf(w, w.path.value), temp, w.calls[b].stale.seen);
      if b != a {
        AloneAtRename(w, a, b);
        assert next.calls[b] == w.calls[b];
      }
    }
  }

  // Other events

  lemma BeginKeepsPeriods(w: World, a: CallId, s: SetupId)
    requires PeriodInv(w) && May(w, Begin(a, s))
    ensures PeriodInv(Next(w, Begin(a, s)))
  {
    var next := Next(w, Begin(a, s));
    MoveKeepsPeriods(w, next, a, next.calls[a]);
  }

  lemma WriteKeepsPeriods(w: World, a: CallId, ino: Ino, code: Code)
    requires PeriodInv(w) && May(w, Write(a, ino, code))
    ensures PeriodInv(Next(w, Write(a, ino, code)))
  {
    var next := Next(w, Write(a, ino, code));
    assert CallOk(w, w.calls[a], InfoOf(w, w.path.value));
    MoveKeepsPeriods(w, next, a, next.calls[a]);
  }

  lemma CallEventGoes(w: World, e: Event)
    requires PeriodInv(w) && May(w, e) && (e.Cancel? || e.GiveUp? || e.OpenFd? || e.OpenFails?)
    ensures var next := Next(w, e);
            && Goes(w, next) && e.call in next.calls && next.calls == w.calls[e.call := next.calls[e.call]]
            && CallOk(w, next.calls[e.call], InfoOf(w, w.path.value))
  {
    assert CallOk(w, w.calls[e.call], InfoOf(w, w.path.value));
  }

  lemma CallEventKeepsPeriods(w: World, e: Event)
    requires PeriodInv(w) && May(w, e) && (e.Cancel? || e.GiveUp? || e.OpenFd? || e.OpenFails?)
    ensures PeriodInv(Next(w, e))
  {
    var next := Next(w, e);
    CallEventGoes(w, e);
    CallGoes(w, next, next.calls[e.call]);
    MoveKeepsPeriods(w, next, e.call, next.calls[e.call]);
  }

  lemma LockEventKeepsPeriods(w: World, e: Event)
    requires PeriodInv(w) && May(w, e) && (e.Answer? || e.CloseLeft? || e.Tick?)
    ensures PeriodInv(Next(w, e))
  {
    var next := Next(w, e);
    forall b | b in next.calls ensures CallOk(next, next.calls[b], InfoOf(next, next.path.value)) {
      CallGoes(w, next, w.calls[b]);
    }
  }

  lemma EventKeepsPeriods(w: World, e: Event)
    requires LockInv(w) && PeriodInv(w) && May(w, e)
    ensures PeriodInv(Next(w, e))
  {
    match e
    case Begin(a, s) => BeginKeepsPeriods(w, a, s);
    case Step(a) =>
      if w.calls[a].pc.Rename? {
        RenameKeepsPeriods(w, a);
      } else if FileStep(w.calls[a].pc) {
        FileStepKeepsPeriods(w, a);
      } else {
        LockStepKeepsPeriods(w, a);
      }
    case Write(a, ino, code) => WriteKeepsPeriods(w, a, ino, code);
    case Answer(_, _) => LockEventKeepsPeriods(w, e);
    case CloseLeft(_) => LockEventKeepsPeriods(w, e);
    case Tick(_) => LockEventKeepsPeriods(w, e);
    case _ => CallEventKeepsPeriods(w, e);
  }

  lemma {:induction false} RunKeepsPeriods(w: World, run: seq<Event>)
    requires LockInv(w) && PeriodInv(w) && Possible(w, run)
    ensures PeriodInv(After(w, run))
    decreases run
  {
    if run != [] {
      EventKeepsLocks(w, run[0]);
      EventKeepsPeriods(w, run[0]);
      RunKeepsPeriods(Next(w, run[0]), run[1..]);
    }
  }

  /** In every run, whatever expires meanwhile, a rename replaces a code that is stale for the Setup that renames, by a
      private one no older, and the path is never without a code. */
  lemma OnlyStaleReplaced(w: World, run: seq<Event>, a: CallId)
    requires Dated(w) && Possible(w, run) && May(After(w, run), Step(a)) && After(w, run).calls[a].pc.Rename?
    ensures var after := After(w, run);
            var next := Next(after, Step(a));
            && after.path.Some? && after.path.value in after.inodes && next.path.Some? && next.path.value in next.inodes
            && after.calls[a].setup in after.setups
            && var (replaced, renamed) := (after.inodes[after.path.value], next.inodes[next.path.value]);
            && (replaced.shared || replaced.mtime + after.setups[after.calls[a].setup].lifetime <= after.clock)
            && !renamed.shared && replaced.mtime <= renamed.mtime && after.path.value !in next.inodes
  {
    RunKeepsPeriods(w, run);
    var after := After(w, run);
    assert CallOk(after, after.calls[a], InfoOf(after, after.path.value));
  }

  lemma OtherLeavesPath(w: World, e: Event)
    requires PeriodInv(w) && May(w, e) && !e.Step?
    ensures var next := Next(w, e);
            next.path == w.path && next.path.value in next.inodes &&
            next.inodes[next.path.value] == w.inodes[w.path.value]
  {
  }

  lemma StepLeavesLive(w: World, a: CallId)
    requires PeriodInv(w) && May(w, Step(a))
    requires forall s :: s in w.setups ==> !StaleFor(w, s, InfoOf(w, w.path.value))
    ensures var next := Next(w, Step(a));
            next.path == w.path && next.path.value in next.inodes &&
            next.inodes[next.path.value] == w.inodes[w.path.value]
  {
    assert CallOk(w, w.calls[a], InfoOf(w, w.path.value));
    if FileStep(w.calls[a].pc) {
      FileStepGoes(w, a);
    } else {
      LockStepGoes(w, a);
    }
  }

  /** In every run the path changes by renames alone, so a code that is live and private for every Setup stays. */
  lemma LiveCodeStays(w: World, run: seq<Event>, e: Event)
    requires Dated(w) && Possible(w, run) && May(After(w, run), e)
    requires var after := After(w, run);
             after.path.Some? && after.path.value in after.inodes &&
             forall s :: s in after.setups ==> !StaleFor(after, s, InfoOf(after, after.path.value))
    ensures var after := After(w, run);
            var next := Next(after, e);
            && next.path == after.path && next.path.value in next.inodes
            && next.inodes[next.path.value] == after.inodes[after.path.value]
  {
    RunKeepsLocks(w, run);
    RunKeepsPeriods(w, run);
    if e.Step? {
      StepLeavesLive(After(w, run), e.call);
    } else {
      OtherLeavesPath(After(w, run), e);
    }
  }

  /** Whether a renewal reads back what it put in place itself. */
  predicate ReadsBack(pc: Pc) {
    pc.Open? && pc.why.Back?
  }

  lemma JudgedHeld(w: World, call: Call, fd: Fd, code: Code)
    requires FileOk(w) && w.path.Some? && call.setup in w.setups && !call.pc.Unlock?
    requires CallOk(w, call, InfoOf(w, w.path.value)) && OnFile(w, call).pc == Unlock(fd, Renewed(code))
    ensures var held := w.inodes[w.path.value];
            && code == held.code && !held.shared
            && (!ReadsBack(call.pc) ==> w.clock < held.mtime + w.setups[call.setup].lifetime)
  {
  }

  /** In every run a renewal comes to answer a code only while the file holds it, private, and unless it put that file
      there itself, within the lifetime of its Setup. */
  lemma AnswersWhatIsHeld(w: World, run: seq<Event>, a: CallId, fd: Fd, code: Code)
    requires Dated(w) && Possible(w, run) && May(After(w, run), Step(a)) && !After(w, run).calls[a].pc.Unlock?
    requires a in Next(After(w, run), Step(a)).calls
    requires Next(After(w, run), Step(a)).calls[a].pc == Unlock(fd, Renewed(code))
    ensures var after := After(w, run);
            && after.path.Some? && after.path.value in after.inodes && after.calls[a].setup in after.setups
            && var held := after.inodes[after.path.value];
            && code == held.code && !held.shared
            && (!ReadsBack(after.calls[a].pc) ==>
                  after.clock < held.mtime + after.setups[after.calls[a].setup].lifetime)
  {
    RunKeepsLocks(w, run);
    RunKeepsPeriods(w, run);
    var after := After(w, run);
    assert CallOk(after, after.calls[a], InfoOf(after, after.path.value));
    if FileStep(after.calls[a].pc) && !after.calls[a].pc.Rename? {
      FileStepGoes(after, a);
      JudgedHeld(after, after.calls[a], fd, code);
    } else if !FileStep(after.calls[a].pc) {
      LockStepMoves(after, a);
    }
  }
}
