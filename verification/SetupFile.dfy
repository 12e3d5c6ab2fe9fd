/** One Setup at a time over its code file: Prepare, Check and CreateFirstAccount with every branch of reading,
    renewing, reading back and removing the code, and with file operations that may fail. */
module SetupFile {
  import opened Basics
  import opened SetupCode
  import Accounts
  import opened TestkitStore

  type Time = int

  /** What a path may hold: a regular file, or a directory, a link or a device, none of which the code reads. */
  datatype Node =
    | Regular(ino: nat, bytes: string, mtime: Time, shared: bool)
    | Irregular(ino: nat)

  /** A code as read, with when it expires, whether others could read it, and the file it came from. */
  datatype Held = Held(code: string, expiresAt: Time, burned: bool, ino: nat, mtime: Time)

  /** What reading or renewing answers. Unusable is ErrSetupCodeFile, Broken any other failure. */
  datatype Read = Got(held: Held) | NotExist | Unusable | Broken

  datatype Answer =
    | Ok | Open(expiresAt: Time) | Done | CodeInvalid | CodeExpired | Misconfigured | NoStore | DetailsRefused
    | StoreFailed | Refused(read: Read)

  /** A setup config. Without a source of roles or capabilities nothing is checked against it. */
  datatype Config = Config(
    lifetime: Time, role: string, known: Option<set<string>>, capabilities: Option<map<string, set<string>>>,
    manages: string)

  predicate ConfigOk(config: Config) {
    && config.lifetime >= 0 && config.role != ""
    && (config.known.Some? ==> config.role in config.known.value)
    && (config.capabilities.Some? && config.manages != "" ==>
          config.role in config.capabilities.value && config.manages in config.capabilities.value[config.role])
  }

  /** A config is refused for a negative lifetime, for no role or one no source declares, and for a role that does not
      carry the capability that manages the other accounts. */
  lemma RefusedConfigs(config: Config)
    ensures !ConfigOk(config) <==>
            || config.lifetime < 0 || config.role == ""
            || (config.known.Some? && config.role !in config.known.value)
            || (config.capabilities.Some? && config.manages != "" &&
                (config.role !in config.capabilities.value ||
                 config.manages !in config.capabilities.value[config.role]))
  {
  }

  /** The lifetime codes get, an hour when the config names none. */
  function LifetimeOf(config: Config): Time {
    if config.lifetime == 0 then 3600 else config.lifetime
  }

  /** What strings.TrimSpace trims, as far as the model needs it: line breaks, and no character of a code. */
  ghost predicate SpaceOk(space: char -> bool) {
    space('\n') && forall c :: InAlphabet(c) ==> !space(c)
  }

  /** A regular file that holds exactly one setup code. */
  predicate CodeFile(node: Node, space: char -> bool) {
    node.Regular? && |node.bytes| <= MAX_CODE_FILE_BYTES && IsCode(Trim(node.bytes, space))
  }

  function HeldIn(node: Node, space: char -> bool, lifetime: Time): Held
    requires node.Regular?
  {
    Held(Trim(node.bytes, space), node.mtime + lifetime, node.shared, node.ino, node.mtime)
  }

  /** A write keeps an object that is no code file as it is, and leaves behind only what was there, nothing, or a
      code. */
  predicate Kept(before: Option<Node>, after: Option<Node>, space: char -> bool) {
    && (before.Some? && !CodeFile(before.value, space) ==> after == before)
    && (after == before || after == None || CodeFile(after.value, space))
  }

  /** A chain of writes keeps what each of them keeps. */
  lemma {:induction false} KeptOverRun(files: seq<Option<Node>>, space: char -> bool)
    requires files != [] && forall i :: 0 <= i < |files| - 1 ==> Kept(files[i], files[i + 1], space)
    ensures Kept(files[0], files[|files| - 1], space)
  {
    if |files| > 1 {
      var rest := files[1..];
      forall i | 0 <= i < |rest| - 1 ensures Kept(rest[i], rest[i + 1], space) {
        assert Kept(files[i + 1], files[i + 2], space);
      }
      KeptOverRun(rest, space);
      assert Kept(files[0], files[1], space);
    }
  }

  /** A code written with its line break reads back as itself. */
  lemma WrittenReadsBack(code: string, space: char -> bool)
    requires IsCode(code) && SpaceOk(space)
    ensures Trim(code + "\n", space) == code
  {
    IsCodeIff(code);
    var text := code + "\n";
    assert text[0] == code[0] && !space(text[0]);
    assert TrimLeft(text, space) == text;
    assert text[..|text| - 1] == code;
    assert TrimRight(text, space) == TrimRight(code, space) == code;
  }

  /** One call of a run, or the clock moving. */
  datatype Step =
    | Prepares
    | Checks(input: string)
    | Creates(input: string, id: Accounts.Id, details: Option<Accounts.User>)
    | Ticks(now: Time)

  class Setup {
    const config: Config
    const upper: char -> char
    const space: char -> bool
    /** What rand.Text draws, one text for each call. */
    const draws: nat -> string
    /** Whether file operations and the store may fail. */
    const faulty: bool
    /** Whether a file created at mode 0600 stays private. */
    const keepsPrivate: bool

    var closed: bool
    var file: Option<Node>
    var clock: Time
    var drawn: nat

    constructor (config: Config, upper: char -> char, space: char -> bool, draws: nat -> string, faulty: bool,
                 keepsPrivate: bool, file: Option<Node>, clock: Time)
      ensures this.config == config && this.upper == upper && this.space == space && this.draws == draws
      ensures this.faulty == faulty && this.keepsPrivate == keepsPrivate
      ensures !closed && this.file == file && this.clock == clock
    {
      this.config, this.upper, this.space, this.draws := config, upper, space, draws;
      this.faulty, this.keepsPrivate := faulty, keepsPrivate;
      this.closed, this.file, this.clock, this.drawn := false, file, clock, 0;
    }

    ghost predicate Sound() {
      SpaceOk(space) && forall n :: IsCode(draws(n))
    }

    predicate Stale(held: Held)
      reads this`clock
    {
      held.burned || !(clock < held.expiresAt)
    }

    /** Private, and live under a config whose lifetime is positive. */
    predicate Usable(held: Held)
      reads this`clock
    {
      !held.burned && (LifetimeOf(config) > 0 ==> !Stale(held))
    }

    /** The code file holds a code that is private and live now. */
    predicate LiveCode()
      reads this`file, this`clock
    {
      file.Some? && CodeFile(file.value, space) && !Stale(HeldIn(file.value, space, LifetimeOf(config)))
    }

    /** A live code is a private regular file of at most 64 bytes that trims to one code, written less than the lifetime
        ago, which is an hour unless the config names one. */
    lemma LiveCodeIff()
      ensures LiveCode() <==>
              && file.Some? && file.value.Regular? && !file.value.shared && |file.value.bytes| <= 64
              && |Trim(file.value.bytes, space)| == 26
              && (forall i :: 0 <= i < 26 ==> InAlphabet(Trim(file.value.bytes, space)[i]))
              && clock - file.value.mtime < if config.lifetime == 0 then 3600 else config.lifetime
    {
      if file.Some? && file.value.Regular? {
        IsCodeIff(Trim(file.value.bytes, space));
      }
    }

    /** The code file holds this code. */
    predicate Holds(held: Held)
      reads this`file
    {
      file.Some? && CodeFile(file.value, space) && held == HeldIn(file.value, space, LifetimeOf(config))
    }

    /** The path is free, or holds a code. */
    predicate Ours(file: Option<Node>) {
      file.Some? ==> CodeFile(file.value, space)
    }

    /** Whether an operation that may fail does. */
    method Fails() returns (fails: bool)
      ensures fails ==> faulty
    {
      var chance: bool := *;
      fails := faulty && chance;
    }

    /** readCode and readSame. */
    method ReadCode() returns (read: Read)
      ensures read.Got? ==> Holds(read.held)
      ensures read.NotExist? ==> file == None
      ensures read.Broken? ==> faulty
      ensures read.Unusable? ==> faulty || (file.Some? && !CodeFile(file.value, space))
    {
      var lstatFails := Fails();
      if lstatFails {
        return Broken;
      }
      if file == None {
        return NotExist;
      }
      if !file.value.Regular? {
        return Unusable;
      }
      var openFails := Fails();
      if openFails {
        return Broken;
      }
      var statFails := Fails();
      if statFails || |file.value.bytes| > MAX_CODE_FILE_BYTES {
        return Unusable;
      }
      var readFails := Fails();
      if readFails {
        return Broken;
      }
      if !IsCode(Trim(file.value.bytes, space)) {
        return Unusable;
      }
      read := Got(HeldIn(file.value, space, LifetimeOf(config)));
    }

    /** writeTemp: a fresh code in a new file, none when it cannot be written. */
    method WriteTemp() returns (temp: Option<Node>)
      requires Sound()
      modifies this`drawn
      ensures temp == None ==> faulty
      ensures temp.Some? ==> CodeFile(temp.value, space) && temp.value.mtime == clock
      ensures temp.Some? && keepsPrivate ==> !temp.value.shared
      ensures temp.Some? && file.Some? ==> temp.value.ino != file.value.ino
    {
      var createFails := Fails();
      if createFails {
        return None;
      }
      var code := draws(drawn);
      drawn := drawn + 1;
      WrittenReadsBack(code, space);
      var leaks: bool := *;
      var ino := if file.Some? then file.value.ino + 1 else 0;
      temp := Some(Regular(ino, code + "\n", clock, !keepsPrivate && leaks));
    }

    method Unlink() returns (gone: bool)
      modifies this`file
      ensures gone ==> file == None
      ensures !gone ==> faulty && file == old(file)
    {
      var removeFails := Fails();
      if removeFails {
        return false;
      }
      file := None;
      gone := true;
    }

    /** readBack and failedReadBack, with the inode of the file this renewal wrote. */
    method ReadBack(ours: Option<nat>) returns (read: Read)
      requires ours.Some? && file.Some? && file.value.ino == ours.value ==> CodeFile(file.value, space)
      modifies this`file
      ensures Kept(old(file), file, space)
      ensures read.Got? ==> file == old(file) && Holds(read.held) && !read.held.burned
      ensures !faulty && old(file).Some? && CodeFile(old(file).value, space) && old(file).value.shared ==>
                read == Unusable && file == None
      ensures !faulty && old(file).Some? && CodeFile(old(file).value, space) && !old(file).value.shared ==> read.Got?
    {
      read := ReadCode();
      if !read.Got? {
        if read.Unusable? {
          return;
        }
        var lstatFails := Fails();
        if lstatFails || file == None || ours == None || file.value.ino != ours.value {
          return;
        }
        var gone := Unlink();
        return;
      }
      if read.held.burned {
        var gone := Unlink();
        return Unusable;
      }
    }

    /** placeCode: a fresh code linked into place unless something is there. */
    method PlaceCode() returns (read: Read)
      requires Sound()
      modifies this`file, this`drawn
      ensures Kept(old(file), file, space)
      ensures read.Got? ==> Holds(read.held) && !read.held.burned
      ensures read.Got? && old(file) == None ==> read.held.mtime == clock
      ensures !faulty && keepsPrivate && old(file) == None ==> read.Got?
    {
      var temp := WriteTemp();
      if temp == None {
        return Broken;
      }
      if file.Some? {
        read := ReadBack(None);
        return;
      }
      var linkFails := Fails();
      if linkFails {
        return Broken;
      }
      file := temp;
      read := ReadBack(Some(temp.value.ino));
    }

    /** keptCode: the live private code that took the stale one's place. */
    method KeptCode() returns (read: Read)
      ensures read.Got? ==> Holds(read.held) && !Stale(read.held)
      ensures !faulty ==> (read.Got? <==> LiveCode())
      ensures !faulty ==> (read == NotExist <==> file == None)
      ensures read == Broken ==> faulty
    {
      read := ReadCode();
      if read.Got? && Stale(read.held) {
        return Unusable;
      }
    }

    /** replaceCode: a fresh code renamed over the stale one while the code file still holds it. */
    method ReplaceCode(stale: Held) returns (read: Read)
      requires Sound()
      requires file.Some? && file.value.ino == stale.ino ==> CodeFile(file.value, space)
      modifies this`file, this`drawn
      ensures Kept(old(file), file, space)
      ensures read.Got? ==> Holds(read.held) && Usable(read.held)
      ensures !faulty && keepsPrivate && (old(Holds(stale)) || old(file) == None) ==>
                read.Got? && read.held.mtime == clock
      ensures !faulty && old(file).Some? && old(file).value.ino != stale.ino ==>
                file == old(file) && (read.Got? <==> LiveCode()) && read != NotExist && read != Broken
    {
      var temp := WriteTemp();
      if temp == None {
        return Broken;
      }
      var lstatFails := Fails();
      if lstatFails {
        return Broken;
      }
      if file == None {
        read := PlaceCode();
        return;
      }
      if !(file.value.ino == stale.ino && file.value.Regular? && file.value.mtime == stale.mtime) {
        read := KeptCode();
        return;
      }
      var renameFails := Fails();
      if renameFails {
        return Broken;
      }
      file := temp;
      read := ReadBack(Some(temp.value.ino));
    }

    /** renewCode and renewLocked, the mutex free and the lock file's wait failing at most. */
    method RenewCode(stale: Held) returns (read: Read)
      requires Sound()
      modifies this`file, this`drawn
      ensures Kept(old(file), file, space)
      ensures read.Got? ==> Holds(read.held) && Usable(read.held)
      ensures !faulty && !Ours(old(file)) ==> read == Unusable
      ensures !faulty && keepsPrivate && Ours(old(file)) ==> read.Got?
      ensures !faulty && keepsPrivate && old(Holds(stale)) ==> read.Got? && read.held.mtime == clock
    {
      var lockFails := Fails();
      if lockFails {
        return Broken;
      }
      read := ReadCode();
      if read.NotExist? {
        read := PlaceCode();
        return;
      }
      if !read.Got? {
        return;
      }
      var current := read.held;
      if !(stale.ino == current.ino && stale.mtime == current.mtime) && !Stale(current) {
        return;
      }
      read := ReplaceCode(current);
    }

    /** removeCode: a code goes, and anything else stays. */
    method RemoveCode()
      modifies this`file
      ensures Kept(old(file), file, space)
      ensures !faulty && Ours(old(file)) ==> file == None
    {
      var read := ReadCode();
      if !read.Got? {
        return;
      }
      var gone := Unlink();
    }

    /** finish: setup closes, and the code goes. */
    method Close()
      modifies this`closed, this`file
      ensures closed && Kept(old(file), file, space)
      ensures !faulty && Ours(old(file)) ==> file == None
    {
      closed := true;
      RemoveCode();
    }

    /** refuseClosed: Ok while this process and the store saw no account. */
    method RefuseClosed(store: Store?) returns (answer: Answer)
      modifies this`closed, this`file
      ensures answer in {Ok, Done, StoreFailed}
      ensures answer == Ok ==> !old(closed) && (store != null ==> store.Users == map[])
      ensures answer != Done ==> closed == old(closed) && file == old(file)
      ensures answer == Done ==> closed && (old(closed) || (store != null && store.Users != map[]))
      ensures answer == StoreFailed ==> faulty
      ensures old(closed) ==> answer == Done && file == old(file)
      ensures !faulty && answer == Done && !old(closed) && Ours(old(file)) ==> file == None
      ensures Kept(old(file), file, space)
    {
      if closed {
        return Done;
      }
      if store == null {
        return Ok;
      }
      var lookupFails := Fails();
      if lookupFails {
        return StoreFailed;
      }
      var held := store.HasUsers();
      if !held {
        return Ok;
      }
      Close();
      answer := Done;
    }

    /** ensureCode: the live private code, a fresh one where none is or a stale one was. */
    method EnsureCode() returns (read: Read)
      requires Sound()
      modifies this`file, this`drawn
      ensures Kept(old(file), file, space)
      ensures read.Got? ==> Holds(read.held) && Usable(read.held)
      ensures read.Got? && old(LiveCode()) ==> file == old(file)
      ensures !faulty && !Ours(old(file)) ==> read == Unusable
      ensures !faulty && keepsPrivate && Ours(old(file)) ==> read.Got?
    {
      read := ReadCode();
      if read.NotExist? {
        read := PlaceCode();
        return;
      }
      if !read.Got? {
        return;
      }
      if Stale(read.held) {
        read := RenewCode(read.held);
      }
    }

    /** Nothing fails, modes are kept, and neither this process nor the store saw an account. */
    predicate Calm(store: Store?)
      reads this, store
    {
      !faulty && keepsPrivate && !closed && (store != null ==> store.Users == map[])
    }

    /** An account was seen, by this process or in the store. */
    predicate Seen(store: Store?)
      reads this, store
    {
      closed || (store != null && store.Users != map[])
    }

    /** Prepare: with a usable config and no account, the live private code is kept or written. */
    method Prepare(store: Store?) returns (answer: Answer)
      requires Sound()
      modifies this
      ensures Kept(old(file), file, space) && (old(closed) ==> closed)
      ensures !ConfigOk(config) <==> answer == Misconfigured
      ensures !faulty && ConfigOk(config) && old(Seen(store)) ==>
                answer == Done && (!old(closed) && Ours(old(file)) ==> file == None)
      ensures ConfigOk(config) && old(Calm(store)) && !Ours(old(file)) ==> answer == Refused(Unusable)
      ensures answer.Open? ==> !closed && LiveCode() && answer.expiresAt == file.value.mtime + LifetimeOf(config)
      ensures answer.Open? && old(LiveCode()) ==> file == old(file)
      ensures answer == Done ==> closed
      ensures (!faulty && keepsPrivate && ConfigOk(config) && !old(closed) && Ours(old(file)) &&
               (store != null ==> store.Users == map[])) ==> answer.Open?
    {
      if !ConfigOk(config) {
        return Misconfigured;
      }
      answer := RefuseClosed(store);
      if answer != Ok {
        return;
      }
      var read := EnsureCode();
      if !read.Got? {
        return Refused(read);
      }
      answer := Open(read.held.expiresAt);
    }

    /** What makes a typed code open setup: no account seen, and a live private file holding the typed code. */
    predicate Opens(store: Store?, input: string)
      reads this, store
    {
      && !closed && (store != null ==> store.Users == map[])
      && LiveCode() && Trim(file.value.bytes, space) == Normalize(input, upper)
    }

    /** The code file holds a code, stale or not, that the typed text normalises to. */
    predicate Typed(input: string)
      reads this
    {
      file.Some? && CodeFile(file.value, space) && Trim(file.value.bytes, space) == Normalize(input, upper)
    }

    /** Check and judge. */
    method Check(store: Store?, input: string) returns (answer: Answer)
      requires Sound()
      modifies this
      ensures Kept(old(file), file, space) && (old(closed) ==> closed)
      ensures answer == Ok ==> old(Opens(store, input)) && file == old(file) && closed == old(closed)
      ensures !faulty && old(Opens(store, input)) ==> answer == Ok
      ensures old(Calm(store)) && old(file) == None ==> answer == CodeInvalid
      ensures old(Calm(store)) && !Ours(old(file)) ==> answer == Refused(Unusable)
      ensures old(Calm(store)) && old(file).Some? && Ours(old(file)) && !old(Typed(input)) ==> answer == CodeInvalid
      ensures old(Calm(store)) && old(Typed(input)) && !old(LiveCode()) ==> answer == CodeExpired
      ensures answer != NoStore && answer != Misconfigured && answer != DetailsRefused
      ensures !faulty && old(Seen(store)) ==> answer == Done && (!old(closed) && Ours(old(file)) ==> file == None)
      ensures answer == CodeExpired ==>
                old(file).Some? && CodeFile(old(file).value, space) && !old(LiveCode()) &&
                Trim(old(file).value.bytes, space) == Normalize(input, upper) && (LifetimeOf(config) > 0 ==> LiveCode())
      ensures answer == CodeInvalid && old(file).Some? && LifetimeOf(config) > 0 ==> LiveCode()
      ensures answer == CodeInvalid && old(file).Some? && old(LiveCode()) ==> file == old(file)
      ensures answer == Done <==> closed
      ensures answer != Done ==> closed == old(closed)
      ensures answer == StoreFailed ==> file == old(file)
      ensures old(closed) ==> answer == Done
    {
      answer := RefuseClosed(store);
      if answer != Ok {
        return;
      }
      var read := ReadCode();
      if read.NotExist? {
        return if closed then Done else CodeInvalid;
      }
      if !read.Got? {
        return Refused(read);
      }
      var matched := Normalize(input, upper) == read.held.code;
      var stale := Stale(read.held);
      if stale {
        var renewed := RenewCode(read.held);
        if !renewed.Got? {
          return Refused(renewed);
        }
      }
      answer := if !matched then CodeInvalid else if stale then CodeExpired else Ok;
    }

    /** CreateFirstAccount, `details` being the account NewUser made of what was typed, none when it refused. */
    method CreateFirstAccount(store: Store?, input: string, id: Accounts.Id, details: Option<Accounts.User>)
      returns (answer: Answer)
      requires Sound()
      modifies this, store
      ensures Kept(old(file), file, space) && (old(closed) ==> closed)
      ensures store == null <==> answer == NoStore
      ensures store != null && !ConfigOk(config) <==> answer == Misconfigured
      ensures store != null && ConfigOk(config) && old(Calm(store)) && old(file) == None ==> answer == CodeInvalid
      ensures store != null && ConfigOk(config) && old(Calm(store)) && !Ours(old(file)) ==>
                answer == Refused(Unusable)
      ensures store != null && ConfigOk(config) && old(Calm(store)) && old(file).Some? && Ours(old(file)) &&
              !old(Typed(input)) ==>
                answer == CodeInvalid
      ensures store != null && ConfigOk(config) && old(Calm(store)) && old(Typed(input)) && !old(LiveCode()) ==>
                answer == CodeExpired
      ensures store != null && ConfigOk(config) && old(Calm(store)) && old(Opens(store, input)) && details == None ==>
                answer == DetailsRefused
      ensures store != null && ConfigOk(config) && !faulty && old(Seen(store)) ==>
                answer == Done && (!old(closed) && Ours(old(file)) ==> file == None)
      ensures answer == Ok ==>
                && ConfigOk(config) && old(Opens(store, input)) && details.Some? && closed
                && store != null && store.Users == map[id := details.value.(role := config.role)]
      ensures store != null && answer != Ok ==> store.Users == old(store.Users)
      ensures !faulty && store != null && ConfigOk(config) && old(Opens(store, input)) && details.Some? ==>
                answer == Ok && file == None
      ensures answer != Ok && answer != Done ==> closed == old(closed)
      ensures answer == DetailsRefused || answer == StoreFailed ==> file == old(file)
    {
      if store == null {
        return NoStore;
      }
      if !ConfigOk(config) {
        return Misconfigured;
      }
      answer := Check(store, input);
      if answer != Ok {
        return;
      }
      if details == None {
        return DetailsRefused;
      }
      var createFails := Fails();
      if createFails {
        return StoreFailed;
      }
      var stored := store.CreateFirstUser(id, details.value.(role := config.role));
      if stored != Accounts.Done {
        return Done;
      }
      Close();
      answer := Ok;
    }

    /** Any run of calls, with the clock moving between them: an object that is no code file is at its path after it,
        the same object with the same content. */
    method Run(store: Store?, steps: seq<Step>)
      requires Sound()
      modifies this, store
      ensures Kept(old(file), file, space)
      ensures old(closed) ==> closed
    {
      ghost var files := [file];
      for i := 0 to |steps|
        invariant |files| == i + 1 && files[0] == old(file) && files[i] == file
        invariant forall j :: 0 <= j < i ==> Kept(files[j], files[j + 1], space)
        invariant old(closed) ==> closed
      {
        match steps[i] {
          case Prepares =>
            var answer := Prepare(store);
          case Checks(input) =>
            var answer := Check(store, input);
          case Creates(input, id, details) =>
            var answer := CreateFirstAccount(store, input, id, details);
          case Ticks(now) =>
            clock := now;
        }
        files := files + [file];
      }
      KeptOverRun(files, space);
    }
  }
}
