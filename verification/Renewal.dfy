/** Renewals of a stale setup code: any number of calls over any number of Setups that share one code file and one lock
    file, in any interleaving of their steps. A Setup's renewals queue on its mutex, and the holder takes the lock
    file's flock. A wait for the flock may end with its context, leaving a flock call behind that a goroutine awaits. */
module Renewal {
  import opened Basics

  type Ino = nat
  type Code = nat
  type Time = int
  type SetupId = nat
  type CallId = nat
  type Fd = nat

  /** A regular file holding one setup code. `shared` says whether its mode lets the group or others in. */
  datatype Inode = Inode(code: Code, mtime: Time, shared: bool)

  /** What lstat answered. */
  datatype Info = Info(ino: Ino, mtime: Time, shared: bool)

  /** A code read from the code file. */
  datatype Held = Held(code: Code, seen: Info)

  datatype Outcome = Renewed(code: Code) | Refused

  /** Why readCode runs, which decides what follows it. */
  datatype Reading = Current | Kept | Back(ours: Option<Info>)

  /** The step a renewal takes next. Every step from Look on runs while it holds the flock of `fd`. */
  datatype Pc =
    | TakeMutex
    | WaitLeft
    | OpenLock
    | AwaitFlock(fd: Fd)
    | Look(fd: Fd, why: Reading)
    | Open(fd: Fd, why: Reading, seen: Info)
    | CreateTemp(fd: Fd, current: Held)
    | LookAgain(fd: Fd, current: Held, temp: Ino)
    | Rename(fd: Fd, temp: Ino)
    | Place(fd: Fd)
    | Link(fd: Fd, temp: Ino)
    | LookBack(fd: Fd, ours: Option<Info>)
    | Unlink(fd: Fd)
    | Unlock(fd: Fd, result: Outcome)
    | FreeMutex(result: Outcome)
    | Ended(result: Outcome)

  datatype Call = Call(setup: SetupId, stale: Held, done: bool, pc: Pc)

  /** The flock call on an open lock file: outstanding, granted, failed, or its file closed. */
  datatype Flock = Waiting | Granted | Failed | Closed

  /** An open lock file, `left` once closeAfterFlock awaits its flock call. */
  datatype Lock = Lock(setup: SetupId, flock: Flock, left: bool)

  /** What a Setup's renewals share: the mutex and the left flock call, none when nothing is left. */
  datatype Setup = Setup(lifetime: Time, renewing: Option<CallId>, left: Option<Fd>)

  datatype World = World(
    path: Option<Ino>, inodes: map<Ino, Inode>, clock: Time,
    setups: map<SetupId, Setup>, calls: map<CallId, Call>, locks: map<Fd, Lock>, renames: nat)

  datatype Event =
    | Begin(call: CallId, setup: SetupId)     // readCode found the file stale, so renewCode starts
    | Step(call: CallId)                      // a renewal's next step
    | Write(call: CallId, ino: Ino, code: Code)  // writeTemp, with the inode and the code it drew
    | Cancel(call: CallId)                    // the call's context ends
    | GiveUp(call: CallId)                    // a wait sees that its context ended
    | OpenFd(call: CallId, fd: Fd)            // the lock file opens and its flock call starts
    | OpenFails(call: CallId)                 // the lock file cannot be opened
    | Answer(fd: Fd, granted: bool)           // the kernel answers a flock call
    | CloseLeft(fd: Fd)                       // closeAfterFlock closes an answered file and then `left`
    | Tick(now: Time)

  // Reading

  /** Whether a code stopped working: others could read it, or its lifetime ran out. */
  predicate Stale(info: Info, clock: Time, lifetime: Time) {
    info.shared || clock >= info.mtime + lifetime
  }

  predicate StaleFor(w: World, s: SetupId, info: Info)
    requires s in w.setups
  {
    Stale(info, w.clock, w.setups[s].lifetime)
  }

  predicate SameFile(a: Info, b: Info) {
    a.ino == b.ino && a.mtime == b.mtime
  }

  function InfoOf(w: World, ino: Ino): Info
    requires ino in w.inodes
  {
    Info(ino, w.inodes[ino].mtime, w.inodes[ino].shared)
  }

  function PathInode(w: World): set<Ino> {
    if w.path.Some? then {w.path.value} else {}
  }

  predicate FileOk(w: World) {
    w.path.Some? ==> w.path.value in w.inodes
  }

  function Fail(call: Call, fd: Fd): Call {
    call.(pc := Unlock(fd, Refused))
  }

  /** A renewal's own step on the code file, the flock held. */
  function OnFile(w: World, call: Call): Call
    requires FileOk(w) && call.setup in w.setups
  {
    match call.pc
    case Look(fd, why) =>
      if w.path.Some? then call.(pc := Open(fd, why, InfoOf(w, w.path.value)))
      else if why.Current? then call.(pc := Place(fd))
      else if why.Back? then call.(pc := LookBack(fd, why.ours))
      else Fail(call, fd)
    case Open(fd, why, seen) =>
      if w.path == None then
        if why.Current? then call.(pc := Place(fd))
        else if why.Back? then call.(pc := LookBack(fd, why.ours))
        else Fail(call, fd)
      else if w.path.value != seen.ino then Fail(call, fd)
      else Judged(w, call, fd, why, Held(w.inodes[w.path.value].code, seen))
    case LookAgain(fd, current, temp) =>
      if w.path == None then call.(pc := Place(fd))
      else if SameFile(current.seen, InfoOf(w, w.path.value)) then call.(pc := Rename(fd, temp))
      else call.(pc := Look(fd, Kept))
    case LookBack(fd, ours) =>
      if w.path.Some? && ours.Some? && ours.value.ino == w.path.value then call.(pc := Unlink(fd)) else Fail(call, fd)
    case _ => call
  }

  /** What a renewal does with the code it read. */
  function Judged(w: World, call: Call, fd: Fd, why: Reading, held: Held): Call
    requires call.setup in w.setups
  {
    match why
    case Current =>
      if !SameFile(call.stale.seen, held.seen) &&
        !StaleFor(w, call.setup, held.seen) then call.(pc := Unlock(fd, Renewed(held.code)))
      else call.(pc := CreateTemp(fd, held))
    case Kept => call.(pc := Unlock(fd, if StaleFor(w, call.setup, held.seen) then Refused else Renewed(held.code)))
    case Back(_) => if held.seen.shared then call.(pc := Unlink(fd)) else call.(pc := Unlock(fd, Renewed(held.code)))
  }

  // Events

  predicate HoldsMutex(pc: Pc) {
    !pc.TakeMutex? && !pc.Ended?
  }

  /** The lock file a renewal opened and has not handed on. */
  function FdOf(pc: Pc): Option<Fd> {
    match pc
    case TakeMutex => None
    case WaitLeft => None
    case OpenLock => None
    case FreeMutex(_) => None
    case Ended(_) => None
    case AwaitFlock(fd) => Some(fd)
    case _ => Some(pc.fd)
  }

  /** Whether a renewal is between taking the flock and releasing it. */
  predicate Locked(pc: Pc) {
    FdOf(pc).Some? && !pc.AwaitFlock?
  }

  predicate Live(w: World, a: CallId) {
    a in w.calls && w.calls[a].setup in w.setups
  }

  predicate May(w: World, e: Event) {
    match e
    case Begin(a, s) =>
      && a !in w.calls && s in w.setups && FileOk(w) && w.path.Some?
      && StaleFor(w, s, InfoOf(w, w.path.value))
    case Step(a) =>
      Live(w, a) && FileOk(w) && StepReady(w, a)
    case Write(a, ino, _) =>
      Live(w, a) && (w.calls[a].pc.CreateTemp? || w.calls[a].pc.Place?) && ino !in w.inodes
    case Cancel(a) => Live(w, a)
    case GiveUp(a) =>
      Live(w, a) && w.calls[a].done &&
      (w.calls[a].pc.TakeMutex? || w.calls[a].pc.AwaitFlock? ||
       (w.calls[a].pc.WaitLeft? && w.setups[w.calls[a].setup].left.Some?))
    case OpenFd(a, fd) => Live(w, a) && w.calls[a].pc.OpenLock? && fd !in w.locks
    case OpenFails(a) => Live(w, a) && w.calls[a].pc.OpenLock?
    case Answer(fd, granted) =>
      && fd in w.locks && w.locks[fd].flock == Waiting
      && (granted ==> forall other :: other in w.locks ==> w.locks[other].flock != Granted)
    case CloseLeft(fd) => fd in w.locks && w.locks[fd].left &&
      (w.locks[fd].flock == Granted || w.locks[fd].flock == Failed)
    case Tick(now) => w.clock <= now
  }

  predicate StepReady(w: World, a: CallId)
    requires Live(w, a)
  {
    var call := w.calls[a];
    var setup := w.setups[call.setup];
    match call.pc
    case TakeMutex => setup.renewing == None
    case WaitLeft =>
      setup.left == None || (setup.left.value in w.locks && w.locks[setup.left.value].flock == Closed)
    case OpenLock => false
    case AwaitFlock(fd) => fd in w.locks && (w.locks[fd].flock == Granted || w.locks[fd].flock == Failed)
    case CreateTemp(_, _) => false
    case Place(_) => false
    case Rename(_, temp) => temp in w.inodes
    case Link(_, temp) => temp in w.inodes
    case Unlock(fd, _) => fd in w.locks
    case Ended(_) => false
    case _ => true
  }

  function WithCall(w: World, a: CallId, call: Call): World {
    w.(calls := w.calls[a := call])
  }

  function Shut(w: World, fd: Fd): World
    requires fd in w.locks
  {
    w.(locks := w.locks[fd := w.locks[fd].(flock := Closed)])
  }

  function WithSetup(w: World, s: SetupId, setup: Setup): World {
    w.(setups := w.setups[s := setup])
  }

  function Stepped(w: World, a: CallId): World
    requires Live(w, a) && FileOk(w) && StepReady(w, a)
  {
    var call := w.calls[a];
    var s := call.setup;
    match call.pc
    case TakeMutex => WithSetup(WithCall(w, a, call.(pc := WaitLeft)), s, w.setups[s].(renewing := Some(a)))
    case WaitLeft => WithSetup(WithCall(w, a, call.(pc := OpenLock)), s, w.setups[s].(left := None))
    case AwaitFlock(fd) =>
      if w.locks[fd].flock == Granted then WithCall(w, a, call.(pc := Look(fd, Current)))
      else WithCall(Shut(w, fd), a, call.(pc := FreeMutex(Refused)))
    case Rename(fd, temp) =>
      var ours := InfoOf(w, temp);
      WithCall(w, a, call.(pc := Look(fd, Back(Some(ours))))).(
      path := Some(temp), inodes := w.inodes - (PathInode(w) - {temp}), renames := w.renames + 1)
    case Link(fd, temp) =>
      if w.path == None then
        WithCall(w, a, call.(pc := Look(fd, Back(Some(InfoOf(w, temp)))))).(path := Some(temp))
      else
        WithCall(w, a, call.(pc := Look(fd, Back(None)))).(inodes := w.inodes - ({temp} - PathInode(w)))
    case LookAgain(_, _, temp) =>
      var next := OnFile(w, call);
      WithCall(if next.pc.Rename? then w else w.(inodes := w.inodes - ({temp} - PathInode(w))), a, next)
    case Unlink(fd) =>
      WithCall(w, a, Fail(call, fd)).(path := None, inodes := w.inodes - PathInode(w))
    case Unlock(fd, result) => WithCall(Shut(w, fd), a, call.(pc := FreeMutex(result)))
    case FreeMutex(result) =>
      WithSetup(WithCall(w, a, call.(pc := Ended(result))), s, w.setups[s].(renewing := None))
    case _ => WithCall(w, a, OnFile(w, call))
  }

  function Next(w: World, e: Event): World
    requires May(w, e)
  {
    match e
    case Begin(a, s) =>
      WithCall(w, a, Call(s, Held(w.inodes[w.path.value].code, InfoOf(w, w.path.value)), false, TakeMutex))
    case Step(a) => Stepped(w, a)
    case Write(a, ino, code) =>
      var call := w.calls[a];
      var written := w.(inodes := w.inodes[ino := Inode(code, w.clock, false)]);
      if call.pc.Place? then WithCall(written, a, call.(pc := Link(call.pc.fd, ino)))
      else WithCall(written, a, call.(pc := LookAgain(call.pc.fd, call.pc.current, ino)))
    case Cancel(a) => WithCall(w, a, w.calls[a].(done := true))
    case GiveUp(a) =>
      var call := w.calls[a];
      (match call.pc
       case AwaitFlock(fd) =>
         var orphaned := if fd in w.locks then w.(locks := w.locks[fd := w.locks[fd].(left := true)]) else w;
         WithSetup(WithCall(orphaned, a, call.(pc := FreeMutex(Refused))), call.setup,
                   w.setups[call.setup].(left := Some(fd)))
       case TakeMutex => WithCall(w, a, call.(pc := Ended(Refused)))
       case _ => WithCall(w, a, call.(pc := FreeMutex(Refused))))
    case OpenFd(a, fd) =>
      var call := w.calls[a];
      WithCall(w, a, call.(pc := AwaitFlock(fd))).(locks := w.locks[fd := Lock(call.setup, Waiting, false)])
    case Answer(fd, granted) =>
      w.(locks := w.locks[fd := w.locks[fd].(flock := if granted then Granted else Failed)])
    case OpenFails(a) => WithCall(w, a, w.calls[a].(pc := FreeMutex(Refused)))
    case CloseLeft(fd) => Shut(w, fd)
    case Tick(now) => w.(clock := now)
  }

  predicate Possible(w: World, run: seq<Event>)
    decreases run
  {
    run == [] || (May(w, run[0]) && Possible(Next(w, run[0]), run[1..]))
  }

  function After(w: World, run: seq<Event>): World
    requires Possible(w, run)
    decreases run
  {
    if run == [] then w else After(Next(w, run[0]), run[1..])
  }
}
