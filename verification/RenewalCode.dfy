/** What renewals do to the code file: from one stale code at most one rename lands, however the calls interleave, and
    every renewal that succeeds answers the one code the file then holds. */
module RenewalCode {
  import opened Basics
  import opened Renewal
  import opened RenewalLocks

  /** Setups at rest over a code file that holds one code. */
  predicate Untouched(w: World) {
    AtRest(w) && w.path.Some? && w.path.value in w.inodes
  }

  /** A code that a renewal put in place is live for every Setup. A renewal writes it private. */
  predicate RenewedLive(w: World) {
    w.renames > 0 && w.path.Some? && w.path.value in w.inodes ==>
      forall s :: s in w.setups ==> !StaleFor(w, s, InfoOf(w, w.path.value))
  }

  predicate StaysLive(w: World, run: seq<Event>)
    requires Possible(w, run)
    decreases run
  {
    RenewedLive(w) && (run != [] ==> StaysLive(Next(w, run[0]), run[1..]))
  }

  /** Where a renewal may be before the rename. Everyone still sees the first file. */
  predicate BeforeOk(w: World, first: Info, pc: Pc) {
    match pc
    case Look(_, why) => why == Current
    case Open(_, why, seen) => why == Current && seen == first
    case CreateTemp(_, current) => current.seen == first
    case LookAgain(_, current, temp) =>
      current.seen == first && temp in w.inodes && temp != first.ino && !w.inodes[temp].shared
    case Rename(_, temp) => temp in w.inodes && temp != first.ino && !w.inodes[temp].shared
    case Place(_) => false
    case Link(_, _) => false
    case LookBack(_, _) => false
    case Unlink(_) => false
    case Unlock(_, result) => result == Refused
    case FreeMutex(result) => result == Refused
    case Ended(result) => result == Refused
    case _ => true
  }

  /** Where a renewal may be after the rename. Everyone sees the fresh file, and who succeeds answers its code. */
  predicate AfterOk(now: Info, code: Code, pc: Pc) {
    match pc
    case Look(_, why) => !why.Kept?
    case Open(_, why, seen) => !why.Kept? && seen == now
    case CreateTemp(_, _) => false
    case LookAgain(_, _, _) => false
    case Rename(_, _) => false
    case Place(_) => false
    case Link(_, _) => false
    case LookBack(_, _) => false
    case Unlink(_) => false
    case Unlock(_, result) => result == Refused || result == Renewed(code)
    case FreeMutex(result) => result == Refused || result == Renewed(code)
    case Ended(result) => result == Refused || result == Renewed(code)
    case _ => true
  }

  ghost predicate CodeInv(w: World, first: Info) {
    && w.path.Some? && w.path.value in w.inodes
    && (forall a :: a in w.calls ==> w.calls[a].setup in w.setups && w.calls[a].stale.seen == first)
    && if w.renames == 0 then
         && InfoOf(w, w.path.value) == first
         && (forall a :: a in w.calls ==> BeforeOk(w, first, w.calls[a].pc))
       else
         && w.renames == 1 && w.path.value != first.ino
         && !w.inodes[w.path.value].shared
         && (forall a :: a in w.calls ==>
               AfterOk(InfoOf(w, w.path.value), w.inodes[w.path.value].code, w.calls[a].pc))
  }

  /** The rename itself: the renewal that holds the flock is alone with the file. */
  lemma RenameKeepsCode(w: World, a: CallId, first: Info)
    requires LockInv(w) && CodeInv(w, first) && May(w, Step(a)) && w.calls[a].pc.Rename?
    ensures CodeInv(Next(w, Step(a)), first)
  {
    assert CallLockOk(w, a);
    forall b | b in w.calls && b != a ensures !Locked(w.calls[b].pc) {
      assert CallLockOk(w, b);
      if Locked(w.calls[b].pc) {
        OnlyOwner(w, a, b, FdOf(w.calls[a].pc).value);
      }
    }
  }

  lemma OnFileBefore(w: World, call: Call, first: Info)
    requires FileOk(w) && w.path.Some? && InfoOf(w, w.path.value) == first && call.setup in w.setups
    requires call.stale.seen == first && BeforeOk(w, first, call.pc)
    ensures BeforeOk(w, first, OnFile(w, call).pc) && OnFile(w, call).stale == call.stale
    ensures call.pc.LookAgain? ==> OnFile(w, call).pc.Rename?
  {
  }

  lemma OnFileAfter(w: World, call: Call, first: Info)
    requires FileOk(w) && w.path.Some? && w.path.value != first.ino && call.setup in w.setups
    requires call.stale.seen == first && !w.inodes[w.path.value].shared
    requires !StaleFor(w, call.setup, InfoOf(w, w.path.value))
    requires AfterOk(InfoOf(w, w.path.value), w.inodes[w.path.value].code, call.pc)
    ensures AfterOk(InfoOf(w, w.path.value), w.inodes[w.path.value].code, OnFile(w, call).pc)
    ensures OnFile(w, call).stale == call.stale
  {
  }

  /** The inodes a world holds are there, unchanged, in the next one. */
  predicate KeepsInodes(w: World, next: World) {
    forall ino :: ino in w.inodes ==> ino in next.inodes && next.inodes[ino] == w.inodes[ino]
  }

  /** Where a renewal may be in a world. */
  predicate PcOk(w: World, first: Info, pc: Pc)
    requires w.path.Some? && w.path.value in w.inodes
  {
    if w.renames == 0 then BeforeOk(w, first, pc)
    else AfterOk(InfoOf(w, w.path.value), w.inodes[w.path.value].code, pc)
  }

  /** An event that leaves the code file alone and moves one renewal where it may be. */
  lemma MoveKeepsCode(w: World, next: World, a: CallId, call: Call, first: Info)
    requires CodeInv(w, first) && a in w.calls && next.calls == w.calls[a := call]
    requires next.path == w.path && next.renames == w.renames && KeepsInodes(w, next)
    requires next.setups.Keys == w.setups.Keys
    requires call.setup == w.calls[a].setup && call.stale == w.calls[a].stale
    requires PcOk(next, first, call.pc)
    ensures CodeInv(next, first)
  {
  }

  lemma FileStepKeepsCode(w: World, a: CallId, first: Info)
    requires LockInv(w) && CodeInv(w, first) && RenewedLive(w) && May(w, Step(a))
    requires FileStep(w.calls[a].pc) && !w.calls[a].pc.Rename?
    ensures CodeInv(Next(w, Step(a)), first)
  {
    var next := Next(w, Step(a));
    FileStepMoves(w, a);
    if w.renames == 0 {
      OnFileBefore(w, w.calls[a], first);
    } else {
      OnFileAfter(w, w.calls[a], first);
    }
    assert next.calls[a] == OnFile(w, w.calls[a]);
    MoveKeepsCode(w, next, a, next.calls[a], first);
  }

  /** Where a step on a lock leads a renewal. */
  predicate LockLeads(pc: Pc, next: Pc) {
    || next.WaitLeft? || next.OpenLock? || next == FreeMutex(Refused)
    || (next.Look? && next.why == Current)
    || (pc.Unlock? && next == FreeMutex(pc.result))
    || (pc.FreeMutex? && next == Pc.Ended(pc.result))
  }

  /** A step on a lock leaves the code file alone. */
  lemma LockStepMoves(w: World, a: CallId)
    requires May(w, Step(a)) && !FileStep(w.calls[a].pc)
    ensures var next := Next(w, Step(a));
            && next.path == w.path && next.renames == w.renames && next.inodes == w.inodes
            && next.setups.Keys == w.setups.Keys && a in next.calls && next.calls == w.calls[a := next.calls[a]]
            && next.calls[a].setup == w.calls[a].setup && next.calls[a].stale == w.calls[a].stale
            && LockLeads(w.calls[a].pc, next.calls[a].pc)
  {
  }

  lemma LockStepPc(w: World, first: Info, pc: Pc, next: Pc)
    requires w.path.Some? && w.path.value in w.inodes && PcOk(w, first, pc) && LockLeads(pc, next)
    ensures PcOk(w, first, next)
  {
  }

  lemma LockStepKeepsCode(w: World, a: CallId, first: Info)
    requires CodeInv(w, first) && May(w, Step(a)) && !FileStep(w.calls[a].pc)
    ensures CodeInv(Next(w, Step(a)), first)
  {
    var next := Next(w, Step(a));
    LockStepMoves(w, a);
    LockStepPc(w, first, w.calls[a].pc, next.calls[a].pc);
    MoveKeepsCode(w, next, a, next.calls[a], first);
  }

  lemma BeginKeepsCode(w: World, a: CallId, s: SetupId, first: Info)
    requires CodeInv(w, first) && RenewedLive(w) && May(w, Begin(a, s))
    ensures CodeInv(Next(w, Begin(a, s)), first)
  {
  }

  lemma WriteKeepsCode(w: World, a: CallId, ino: Ino, code: Code, first: Info)
    requires CodeInv(w, first) && May(w, Write(a, ino, code))
    ensures CodeInv(Next(w, Write(a, ino, code)), first)
  {
    var next := Next(w, Write(a, ino, code));
    assert w.renames == 0;
    MoveKeepsCode(w, next, a, next.calls[a], first);
  }

  lemma CallEventKeepsCode(w: World, e: Event, first: Info)
    requires CodeInv(w, first) && May(w, e) && (e.Cancel? || e.GiveUp? || e.OpenFd? || e.OpenFails?)
    ensures CodeInv(Next(w, e), first)
  {
    var next := Next(w, e);
    MoveKeepsCode(w, next, e.call, next.calls[e.call], first);
  }

  lemma LockEventKeepsCode(w: World, e: Event, first: Info)
    requires CodeInv(w, first) && May(w, e) && (e.Answer? || e.CloseLeft? || e.Tick?)
    ensures CodeInv(Next(w, e), first)
  {
    var next := Next(w, e);
    assert next.calls == w.calls && next.path == w.path && next.inodes == w.inodes && next.renames == w.renames;
    assert next.setups == w.setups;
  }

  /** Every event keeps the file and the renewals on it as they may be. */
  lemma EventKeepsCode(w: World, e: Event, first: Info)
    requires LockInv(w) && CodeInv(w, first) && RenewedLive(w) && May(w, e)
    ensures CodeInv(Next(w, e), first)
  {
    if e.Begin? {
      BeginKeepsCode(w, e.call, e.setup, first);
    } else if e.Step? {
      if w.calls[e.call].pc.Rename? {
        RenameKeepsCode(w, e.call, first);
      } else if FileStep(w.calls[e.call].pc) {
        FileStepKeepsCode(w, e.call, first);
      } else {
        LockStepKeepsCode(w, e.call, first);
      }
    } else if e.Write? {
      WriteKeepsCode(w, e.call, e.ino, e.code, first);
    } else if e.Answer? || e.CloseLeft? || e.Tick? {
      LockEventKeepsCode(w, e, first);
    } else {
      CallEventKeepsCode(w, e, first);
    }
  }

  lemma {:induction false} RunKeepsCode(w: World, run: seq<Event>, first: Info)
    requires LockInv(w) && CodeInv(w, first) && Possible(w, run) && StaysLive(w, run)
    ensures CodeInv(After(w, run), first)
    decreases run
  {
    if run != [] {
      EventKeepsLocks(w, run[0]);
      EventKeepsCode(w, run[0], first);
      RunKeepsCode(Next(w, run[0]), run[1..], first);
    }
  }

  /** From one stale code at most one rename lands, and every renewal that ended without an error answered the code that
      the file holds. */
  lemma OneRename(w: World, run: seq<Event>)
    requires Untouched(w) && Possible(w, run) && StaysLive(w, run)
    ensures var after := After(w, run);
            && after.renames <= 1
            && after.path.Some? && after.path.value in after.inodes
            && (forall a :: a in after.calls && after.calls[a].pc.Ended? && after.calls[a].pc.result.Renewed? ==>
                  after.renames == 1 && after.calls[a].pc.result.code == after.inodes[after.path.value].code)
            && (after.renames == 0 ==>
                  after.path == w.path && InfoOf(after, after.path.value) == InfoOf(w, w.path.value))
  {
    RunKeepsCode(w, run, InfoOf(w, w.path.value));
  }

  // A renewal undisturbed

  lemma OneMoreEvent(w: World, e: Event, run: seq<Event>)
    requires May(w, e) && Possible(Next(w, e), run)
    ensures Possible(w, [e] + run) && After(w, [e] + run) == After(Next(w, e), run)
  {
    assert ([e] + run)[1..] == run;
  }

  /** A renewal with its result releases the flock and the mutex and ends. */
  lemma UnlockEnds(w: World, a: CallId, fd: Fd, result: Outcome)
    requires Live(w, a) && FileOk(w) && w.calls[a].pc == Unlock(fd, result) && fd in w.locks
    ensures Possible(w, [Step(a)] + [Step(a)]) && a in After(w, [Step(a)] + [Step(a)]).calls
    ensures var after := After(w, [Step(a)] + [Step(a)]); after.calls[a].pc == Ended(result) && after.path == w.path
  {
    var free := Next(w, Step(a));
    OneMoreEvent(free, Step(a), []);
    OneMoreEvent(w, Step(a), [Step(a)]);
  }

  /** A renewal that holds the flock and is about to rename ends by answering the code it wrote. */
  lemma RenameEnds(w: World, a: CallId, fd: Fd, temp: Ino) returns (run: seq<Event>)
    requires Live(w, a) && FileOk(w) && w.calls[a].pc == Rename(fd, temp) && fd in w.locks
    requires temp in w.inodes && !w.inodes[temp].shared
    ensures Possible(w, run) && a in After(w, run).calls
    ensures After(w, run).calls[a].pc == Ended(Renewed(w.inodes[temp].code)) && After(w, run).path == Some(temp)
  {
    var step := Step(a);
    var back := Next(w, step);
    var open := Next(back, step);
    var unlock := Next(open, step);
    UnlockEnds(unlock, a, fd, Renewed(w.inodes[temp].code));
    var rest := [step] + [step];
    OneMoreEvent(open, step, rest);
    OneMoreEvent(back, step, [step] + rest);
    OneMoreEvent(w, step, [step] + ([step] + rest));
    run := [step] + ([step] + ([step] + rest));
  }

  /** A renewal that was granted the flock over the stale file renames the inode it writes into place. */
  lemma GrantedEnds(w: World, a: CallId, fd: Fd, ino: Ino, code: Code) returns (run: seq<Event>)
    requires Live(w, a) && FileOk(w) && w.path.Some? && w.calls[a].pc == Look(fd, Current) && fd in w.locks
    requires w.calls[a].stale.seen == InfoOf(w, w.path.value) && ino !in w.inodes
    ensures Possible(w, run) && a in After(w, run).calls
    ensures After(w, run).calls[a].pc == Ended(Renewed(code)) && After(w, run).path == Some(ino)
  {
    var step := Step(a);
    var open := Next(w, step);
    var create := Next(open, step);
    assert create.calls[a].pc.CreateTemp?;
    var again := Next(create, Write(a, ino, code));
    var rename := Next(again, step);
    assert rename.calls[a].pc == Rename(fd, ino);
    var rest := RenameEnds(rename, a, fd, ino);
    OneMoreEvent(again, step, rest);
    OneMoreEvent(create, Write(a, ino, code), [step] + rest);
    OneMoreEvent(open, step, [Write(a, ino, code)] + ([step] + rest));
    OneMoreEvent(w, step, [step] + ([Write(a, ino, code)] + ([step] + rest)));
    run := [step] + ([step] + ([Write(a, ino, code)] + ([step] + rest)));
  }

  /** A renewal of a stale code that nothing disturbs answers the fresh code it put in the file. */
  lemma RenewalEnds(w: World, a: CallId, s: SetupId, fd: Fd, ino: Ino, code: Code) returns (run: seq<Event>)
    requires Untouched(w) && s in w.setups && StaleFor(w, s, InfoOf(w, w.path.value)) && ino !in w.inodes
    ensures Possible(w, run) && a in After(w, run).calls
    ensures After(w, run).calls[a].pc == Ended(Renewed(code)) && After(w, run).path == Some(ino)
  {
    var step := Step(a);
    var begun := Next(w, Begin(a, s));
    var taken := Next(begun, step);
    var waited := Next(taken, step);
    var asked := Next(waited, OpenFd(a, fd));
    var answered := Next(asked, Answer(fd, true));
    var granted := Next(answered, step);
    assert granted.calls[a].pc == Look(fd, Current);
    var rest := GrantedEnds(granted, a, fd, ino, code);
    OneMoreEvent(answered, step, rest);
    var r1 := [step] + rest;
    OneMoreEvent(asked, Answer(fd, true), r1);
    var r2 := [Answer(fd, true)] + r1;
    OneMoreEvent(waited, OpenFd(a, fd), r2);
    var r3 := [OpenFd(a, fd)] + r2;
    OneMoreEvent(taken, step, r3);
    OneMoreEvent(begun, step, [step] + r3);
    OneMoreEvent(w, Begin(a, s), [step] + ([step] + r3));
    run := [Begin(a, s)] + ([step] + ([step] + r3));
  }
}
