# Accounts, tokens, setup codes and small text algorithms of gouncer

A Dafny model of gouncer's account administration and the proofs of what it keeps. It covers:

- **The account store.** `Accounts` states the contract: each operation as one change from the rows it finds to the rows
  it leaves. Three stores answer by it. `TestkitStore` changes maps in place, with the loops of the original.
  `SqliteStore` runs the SQL statements of each method inside one write transaction. `Postgres` is a state machine of
  READ COMMITTED transactions: `Op` is a transaction, `Pc` the statement it runs next, `Ran` what the statement does on
  the rows committed at that moment, `Committed` what a commit writes, and `May` what the row locks hold back. Any number
  of transactions interleave statement by statement, and a statement that waited for a row judges its WHERE clause again
  on the row it then finds.
- **Laws of the contract.** `AccountLaws` and `RowLaws` (runs of atomic calls: the guard, sessions, and what each call
  writes to a row, told from what it answered) and `Administration` (requests that read a role, decide, and write only
  while the role is still held).
- **The one-time setup code.** `Renewal` is a state machine of renewals over any number of Setups that share one code file
  and one lock file: the file system as a map from inode to content, mode and modification time, the mutex of each Setup,
  the flock calls and the goroutine that awaits one left behind. `RenewalLocks`, `RenewalCode` and
  `RenewalPeriods` prove what its runs keep, `RenewalSuccess` that renewals succeed and may end.
  `SetupFile` is one Setup with every branch of reading, placing, renewing, reading back and removing, file operations
  failing at will. `FirstAccount` interleaves calls that create the first account.
- **Text.** `SetupCode` (codes and how they are typed), `Password` (rejection sampling), `Lowercase` (final sigma and the
  avatar colour) and `CleanName` (the streaming name cleaner).

A run is a sequence of events. `May` says whether an event can happen in a world, `Next` gives the world after it,
`Possible` and `After` do so for a whole run. "In every run" below means for all `Possible` runs of any length.

Where a transaction of the PostgreSQL store ends, two families of lemmas together give the refinement:
`CommitIsAtomic`, `GuardedCommitIsAtomic`, `SweepSpares`, `SweepDrops`, `SweepDeletes` and `SweepAloneIsAtomic` say what a
commit is in terms of the contract on the tables of that moment, and `RefusalsAreTheContracts` says that a refusal is the
contract's answer on the tables of that moment, with the exact exceptions. `OnlyCommitsChange` says nothing else changes a
row. `PostgresAlone` gives the other direction: no statement fails in any run, and every operation, run alone from tables
at rest, has a run to its end, which answers and leaves what the contract does.

Four results concern code that keeps less than its comments or its twin promise:

- The guard of the PostgreSQL store locks the rows its scan found. An account that joins the privileged pool after that,
  by a role write or as a new account, is outside the lock set. Such a join matters only late: while a removal aimed at
  that very account is between its scan and its write. It is harmless even then when the removal was judged on a role
  outside the privileged set, because its UPDATE misses the account that joined. `CoverStays` holds of every run whose late
  joins are harmless, with any other promotions and privileged new accounts. `GuardHoldsIffHarmless` says that every other
  late join does harm: whatever the removal, judged on no role or on a privileged one, whichever of its three stages, and
  whatever the way into the pool, allowing that one join alone gives a run that commits a state without any enabled
  privileged account (`LateJoinLosesCover`). Where a removal was judged on a privileged role, its account is demoted after
  the check and promoted back late. A late join by creation needs a removal judged on no role and aimed at an id that no
  account holds yet: a direct store call, or a request without a role source, that guesses the id of an account to come.
- The two atomic stores guard alike exactly when the privileged list does not hold the empty role (`GuardsAgreeIff`). The
  PostgreSQL guard is the SQL one, so the results that compare a guarded write with the contract are stated for privileged
  lists without the empty role.
- Four refusals of the PostgreSQL store speak of an earlier moment, and each happens in some run. A redemption whose
  account closed after its token was found answers "user not found" where the contract answers "token not found"
  (`RedemptionOfClosed`). A guarded write that missed the held role answers "role changed" even when the role is held again
  by the time it looks (`MissedRoleHeldAgain`). A removal that counted no cover is refused even when another account covers
  by now (`RefusedThoughCovered`), or, after a late join only, when its own account covers nothing any more
  (`RefusedThoughLapsed`, `LastPrivilegedRefusal`). Every other refusal is the contract's (`RefusalsAreTheContracts`).
- The final sigma of the code skips every case-ignorable character before it looks for a cased one. Final_Sigma of
  section 3.13 of the Unicode Standard also counts a cased character that is case-ignorable. The two agree on every text
  exactly when no character is both (`FinalAsStandardIff`). Unicode has such characters, U+02B0 and U+0345 among them, so
  a sigma at the end of a text right after one of them alone is final for the standard and not for the code
  (`ModifierBeforeSigma`).

## Model

| member | source | states |
|---|---|---|
| PostgresTokens.EventKeepsInv | authkit/postgres/invite.go:22-179 | Every statement, lock, commit and abort of every transaction keeps the invariant: transactions hold disjoint rows, a held account stays enabled, counted tokens stay counted, and each hash is spent once |
| PostgresTokens.RanOk | authkit/postgres/invite.go:134-179 | What a transaction relies on between statements still holds after its next statement, whatever rows that statement found committed |
| PostgresTokens.CommitUndisturbs | authkit/postgres/invite.go:219-243 | A commit changes no account another open transaction holds, gives none of them a new token, and leaves the tokens they delete alone |
| PostgresTokens.UndisturbedOk | authkit/postgres/invite.go:219-243 | What a transaction relies on survives any commit that leaves its held rows alone, and any later clock |
| PostgresTokens.DisabledHoldsNoToken | authkit/postgres/role.go:217-240 | In every interleaving no committed state has a token of a disabled account |
| PostgresTokens.RedeemedOnce | authkit/postgres/invite.go:134-179 | In every interleaving at most one redemption of a hash commits, and a redeemed hash is never stored again |
| PostgresCommits.CommitIsAtomic | authkit/postgres/invite.go:22-102 | In every interleaving each committed issue, replacement, redemption, disable or role write is the contract's step on the tables of that moment, and succeeds there. That commits happen is `PostgresAlone.AloneEnds` |
| PostgresAlone.NoStatementFails | authkit/postgres/invite.go:22-179 | In every interleaving no statement ends its transaction as failed: each answers what the store may answer, and only a rollback from outside fails |
| PostgresAlone.AloneEndsAsContract | authkit/postgres/invite.go:22-243 | Every operation run alone to its end from tables at rest answers what the contract answers and leaves what the contract leaves, refusals included, under a privileged list without the empty role |
| PostgresAlone.AloneEnds | authkit/postgres/role.go:98-243 | Every operation, an issue under a hash that is free, has such a run, which answers and leaves what the contract does |
| PostgresCommits.ResetLeavesNoResetToken | authkit/postgres/invite.go:82-102 | A reset commits only for a live token of an enabled account, and the committed state holds no reset token of that account |
| PostgresCommits.CapsHold | authkit/postgres/invite.go:22-60 | With a clock that never goes back, at every moment of every interleaving each account keeps within the cap of live tokens of each purpose |
| PostgresCommits.InvitesKeepCaps | authkit/invite.go:82-202 | Under the invite and reset flows an account never holds two live invites, nor more live resets than configured, a cap below one counting as one |
| PostgresCommits.CommitCapped | authkit/postgres/invite.go:22-60 | A transaction that counted under its lock commits within the cap, whatever committed since the count |
| PostgresSweep.SweepSpares | authkit/postgres/invite.go:106-130 | In every interleaving a sweep's commit drops no account then confirmed or holding an invite live at the sweep's time, and none whose expired invite it did not read at its first statement. It changes no other account, and deletes no token but expired ones and those of dropped accounts |
| PostgresSweep.SweepDrops | authkit/postgres/invite.go:202-215 | Whatever commits while a sweep runs, its commit drops each account that was stranded from its begin to its commit |
| PostgresSweep.SweepDeletes | authkit/postgres/invite.go:106-130 | Whatever commits while a sweep runs, its commit deletes each expired token that was stored from its begin to its commit |
| PostgresSweep.SweepAloneIsAtomic | authkit/postgres/invite.go:106-130 | A sweep that commits with nothing else committed since it began drops and deletes exactly what the contract's sweep does, other transactions being open meanwhile |
| PostgresCover.CoverStays | authkit/postgres/role.go:133-199 | In every interleaving of guarded writes, promotions, new accounts, enables and token operations, in which no account joins the privileged pool while a removal judged on no role or on a privileged one and aimed at it is between its scan and its write, an enabled privileged account remains |
| PostgresCover.RanGuardOk | authkit/postgres/role.go:174-214 | Past its scan's snapshot a watched removal reserves its own account while that is in the pool, counts cover only for an account it holds, and writes only where another account covers |
| PostgresCover.CommitCoverage | authkit/postgres/role.go:57-95 | Only a removal takes an account's cover away, and only its own account's, which it holds, and none that was judged on a role outside the privileged set |
| PostgresCover.BystanderInTurn | authkit/postgres/role.go:19-23 | Of two watched removals past their snapshots, both aimed into the pool, one has reserved the other's account, and no change that is not a late join undoes that |
| PostgresCover.CommitKeepsGuard | authkit/postgres/role.go:174-199 | Another transaction's commit that is no late join, a promotion included, leaves a removal the cover it counted |
| PostgresCover.GuardedCommitIsAtomic | authkit/postgres/role.go:133-199 | In every run whose late joins are harmless each guarded commit is one step of the guarded contract, the guard's verdict included |
| PostgresCover.PoolStaysHeld | authkit/postgres/role.go:19-23 | In every run in which no account joins the pool, a removal past its lock scan holds every privileged row |
| PostgresLateJoins.LateJoinLosesCover | authkit/postgres/role.go:19-95 | For every removal judged on no role or on a privileged one, each of its stages and each way into the pool, a run whose only late join is that one commits a state with no enabled privileged account |
| PostgresLateJoins.GuardHoldsIffHarmless | authkit/postgres/role.go:133-199 | The guard keeps the last cover in every run whose late joins are among a given set if and only if every join of that set is harmless |
| PostgresAnswers.RefusalsAreTheContracts | authkit/postgres/role.go:98-171 | In every run of every operation a transaction that a statement refused answers what the contract answers on the tables of that moment, if and only if its answer is not one of four that speak of an earlier moment. That no statement fails is `PostgresAlone.NoStatementFails` |
| PostgresAnswers.LastPrivilegedRefusal | authkit/postgres/role.go:163-199 | In every run in which no removal's account joins the pool late, an account refused as the last privileged one covers at that moment, and the contract refuses it too if and only if no other one covers by then |
| PostgresAnswers.RedeemRefusal | authkit/postgres/invite.go:134-179 | A refused redemption answers as the contract, save that an account closed after its token was found answers user not found where the contract answers token not found |
| PostgresAnswers.GuardedRefusal | authkit/postgres/role.go:98-171 | A refused guarded write answers as the contract if and only if it neither missed a role held again, nor was refused as the last cover though another account covers by now or its own covers nothing any more |
| PostgresLateAnswers.RedemptionOfClosed | authkit/postgres/invite.go:237-243 | Some run refuses a redemption for its closed account where the contract misses its token |
| PostgresLateAnswers.MissedRoleHeldAgain | authkit/postgres/role.go:98-107 | Some run refuses an enable for a changed role that the account holds again, where the contract enables it |
| PostgresLateAnswers.RefusedThoughCovered | authkit/postgres/role.go:163-171 | Some run refuses a demotion as that of the last privileged account though another one covers by then, where the contract demotes it |
| PostgresLateAnswers.RefusedThoughLapsed | authkit/postgres/role.go:163-171 | Some run refuses a disable as that of the last privileged account though its account covers nothing any more and no other does, where the contract disables it |
| RenewalLocks.EventKeepsLocks | authkit/setuplock_unix.go:31-81 | Every step, cancelled wait, answer and close keeps the lock discipline: who holds the mutex, who works with a lock file, and what was left behind |
| RenewalLocks.OneRenewalAtATime | authkit/setuplock_unix.go:31-55 | In every run no two renewals of any Setups are between taking the flock and releasing it |
| RenewalLocks.OneLockPerSetup | authkit/setuplock_unix.go:58-69 | In every run a Setup has at most one lock file open, so at most one flock call outstanding |
| RenewalLocks.ClosedOnceAnswered | authkit/setuplock_unix.go:72-81 | In every run no event closes a lock file whose flock call has not answered |
| RenewalLocks.LeftUnderMutex | authkit/setuplock_unix.go:58-69 | In every run only the holder of a Setup's renewal mutex changes what its renewals left behind |
| RenewalLocks.LeaveFlockKeepsLocks | authkit/setuplock_unix.go:31-55 | A wait that ends with its context hands its open lock file and flock call to the next renewal of its Setup |
| RenewalCode.OneRename | authkit/setupcode.go:70-138 | From one stale code, in every run at most one rename lands, and every renewal that ended without error answered the code the file holds. That those who lose the race end without error is `RenewalSuccess.EveryRenewalAnswers` |
| RenewalCode.EventKeepsCode | authkit/setupcode.go:99-203 | Before the rename everyone sees the first file and nobody has succeeded. After it everyone sees the fresh one and succeeds only with its code |
| RenewalCode.RenameKeepsCode | authkit/setupcode.go:118-138 | The rename happens while no other renewal is past its lock |
| RenewalCode.RenewalEnds | authkit/setupcode.go:70-138 | From every stale code a renewal that nothing disturbs has a run that ends by answering the fresh code it put in the file |
| RenewalPeriods.OnlyStaleReplaced | authkit/setupcode.go:70-138 | In every run over any number of stale periods, under positive lifetimes and no file dated in the future, a rename replaces only a code that others can read or whose lifetime ran out, by a private one no older, and the replaced file is gone |
| RenewalPeriods.LiveCodeStays | authkit/setupcode.go:99-143 | In every such run a code that is live and private for every Setup stays on the path, the same file, through every event |
| RenewalPeriods.AnswersWhatIsHeld | authkit/setupcode.go:99-203 | In every such run a renewal comes to answer a code only while the file holds it, private, and unless it put it there itself, within its Setup's lifetime |
| RenewalPeriods.RenamedSince | authkit/setupcode.go:141-143 | A fresh file is told apart by inode and time from every file seen before, reused inodes included |
| RenewalSuccess.EveryRenewalAnswers | authkit/setupcode.go:70-138 | From one stale code, in every run without an ended context or a failed lock file, every renewal that ended answered the code the path holds, losers of the race included |
| RenewalSuccess.NoneRefused | authkit/setupcode.go:70-138 | Over any number of stale periods, in every such run no renewal that ended was refused |
| RenewalSuccess.EveryRenewalMayEnd | authkit/setupcode.go:70-138 | However renewals interleaved so far, a run goes on from there in which all of them end, each answering a code |
| RenewalSuccess.TwoRenewalsAgree | authkit/setupcode.go:99-138 | Two renewals that find one file shared or expired, of one Setup or of two, have a run in which both answer the one code that one rename put there |
| RenewalSuccess.LeftIsReleased | authkit/setuplock_unix.go:58-81 | In every run, ended contexts and failed locks included, a renewal that waits for a flock call left behind gets past it once that call answers, whichever way |
| FirstAccount.AtMostOneAccount | authkit/postgres/setup.go:37-64 | At every moment of every race the store holds at most one account, and no call with the right code is told the code is invalid |
| FirstAccount.OneCallWins | authkit/setup.go:245-267 | Once every call of a race ended, exactly one created its account, every other one answered that setup is done, setup is closed and the code is gone |
| FirstAccount.EveryRaceMayEnd | authkit/setup.go:245-267 | However far a race has got, it has a way to end, and then one of its calls won |
| FirstAccount.WonForGood | authkit/setup.go:173-197 | Once setup closed, it stays closed with its one account through every further race, and every later call ends by answering that setup is done |
| FirstAccount.RestartCloses | authkit/setup.go:173-197 | A Setup that starts over an account stored before stores no other: every call answers that setup is done, setup is closed by then, and once all ended the code is gone |
| SetupFile.Setup.ReadCode | authkit/setupcode.go:159-203 | A code is answered only when the path is a regular file holding exactly that code, and each refusal names what is there |
| SetupFile.Setup.WriteTemp | authkit/setupcode.go:287-299 | The temporary file is a fresh inode holding one code, dated now, private where the file system keeps modes |
| SetupFile.Setup.ReadBack | authkit/setupcode.go:250-271 | Reading back answers only a private code of the path, and removes nothing but a code |
| SetupFile.Setup.PlaceCode | authkit/setupcode.go:241-284 | A first code is linked only where nothing is, and what is answered is the private code on the path |
| SetupFile.Setup.KeptCode | authkit/setupcode.go:146-156 | A code that took the stale one's place is answered only when live and private, and without faults if and only if it is |
| SetupFile.Setup.ReplaceCode | authkit/setupcode.go:118-138 | A rename replaces only the stale code itself. Without faults it answers a fresh private code, or the live one that took the stale one's place |
| SetupFile.Setup.RenewCode | authkit/setupcode.go:70-115 | A renewal that succeeds leaves a private live code on the path and answers it. Anything that is no code stays |
| SetupFile.Setup.RemoveCode | authkit/setupcode.go:302-319 | Removal takes a code away and nothing else |
| SetupFile.Setup.Close | authkit/setup.go:192-197 | Finishing closes setup for good and takes the code away, and nothing else |
| SetupFile.Setup.RefuseClosed | authkit/setup.go:173-189 | A call goes on only while this process and the store saw no account. Seeing one closes setup and takes the code away |
| SetupFile.Setup.EnsureCode | authkit/setupcode.go:45-57 | A live private code is kept as it is, a missing or stale one gives way to a fresh one, and anything else stays |
| SetupFile.Setup.Prepare | authkit/setup.go:121-170 | Setup opens only with a usable config, no account and a live private code on the path, and without faults it does. Which refusal is answered is stated for an unusable config, an account seen and an object that is no code file |
| SetupFile.Setup.Check | authkit/setup.go:208-242 | Without faults a typed code is accepted if and only if setup is not closed, no account is stored and the file is a private unexpired code equal to the normalised input. Each refusal is stated: the right code gone stale is expired, a wrong or missing one invalid, an object that is no code file unusable, a seen account setup done |
| SetupFile.Setup.CreateFirstAccount | authkit/setup.go:245-267 | The first account is stored, under the configured role, if and only if the code opens setup and the details hold. Every refusal leaves the store as it was, and which one is answered is stated as for `Check`, refused details included |
| SetupFile.Setup.Run | authkit/setup.go:121-267 | Over any run of Prepare, Check and CreateFirstAccount with the clock moving between them, faults included, an object that is no code file stays at its path, the same object with the same content |
| SetupFile.Setup.LiveCodeIff | authkit/setupcode.go:159-203 | A code is live if and only if its file is regular, private, small enough, trims to one code, and was written less than the lifetime ago |
| SetupFile.RefusedConfigs | authkit/setup.go:141-170 | A config is refused if and only if its lifetime is negative or its role is empty, undeclared or without the managing capability |
| SetupFile.WrittenReadsBack | authkit/setupcode.go:287-299 | A code written with its line break reads back as itself |
| SetupCode.IsCodeIff | authkit/setupcode.go:206-208 | A text is a code if and only if it has the length of one and every character is of the alphabet |
| SetupCode.AlphabetIs | authkit/setupcode.go:24 | The alphabet is that of base 32 |
| SetupCode.NormalizesIffTypes | authkit/setupcode.go:211-216 | A typed text normalises to a code if and only if it is the code's characters in order, each in a case that capitalises to it, with separators anywhere |
| SetupCode.TypedCodeNormalizes | authkit/setupcode.go:211-216 | Every code typed with separators inserted anywhere and letters in either case normalises back to that code |
| SetupCode.LeftOutIff | authkit/setupcode.go:211-216 | The characters that make no difference wherever they are typed are exactly the space, the tab, the carriage return, the line feed and the hyphen |
| TestkitStore.Store.constructor | authkit/testkit/store.go:51-57 | A new store holds nothing |
| TestkitStore.Store.CreateUser | authkit/testkit/store.go:73-86 | An email already stored refuses the account, and otherwise exactly that account is added |
| TestkitStore.Store.HasUsers | authkit/testkit/store.go:89-96 | True if and only if some account is stored |
| TestkitStore.Store.CreateFirstUser | authkit/testkit/store.go:99-110 | The account is stored if and only if the store held none |
| TestkitStore.Store.UserByEmail | authkit/testkit/store.go:113-125 | Finds a stored account with the email, or none holds it |
| TestkitStore.Store.DeleteExpiredSessions | authkit/testkit/store.go:200-208 | Keeps exactly the unexpired sessions and counts the others |
| TestkitStore.Store.SetUserDisabled | authkit/testkit/store.go:231-257 | Disabling ends every session and token of the account, enabling neither |
| TestkitStore.Store.RefuseUncovered | authkit/testkit/store.go:310-325 | Refuses if and only if the write takes cover away, the account covers and no other one does |
| TestkitStore.Store.SetRole | authkit/testkit/store.go:260-307 | Writes the role unless the account is missing, the held role moved or the guard refuses, in that order |
| TestkitStore.Store.DisableUnderCover | authkit/testkit/store.go:508-553 | Disables or enables unless the held role moved or the guard refuses, with what a disable revokes |
| TestkitStore.Store.GrantRoleToRoleless | authkit/testkit/store.go:328-343 | Exactly the accounts without a role get it, and their number is answered |
| TestkitStore.Store.CreateToken | authkit/testkit/store.go:347-367 | Issues a token to an enabled account with fewer live ones of the purpose than the cap |
| TestkitStore.Store.ReplaceToken | authkit/testkit/store.go:370-384 | The new token takes the place of every other of its account and purpose |
| TestkitStore.Store.ActivateByToken | authkit/testkit/store.go:390-417 | As the contract: spends a live invite once, confirming an enabled unconfirmed account under the given password. What that means is `RowLaws.ActivationLands` |
| TestkitStore.Store.ResetByToken | authkit/testkit/store.go:424-456 | As the contract: spends a live reset, stores the password, ends the account's sessions and removes its other reset tokens. What that means is `RowLaws.ResetLands` |
| TestkitStore.Store.HoldsLiveInvite | authkit/testkit/store.go:498-505 | True if and only if the account holds an unexpired invite |
| TestkitStore.Store.DropStranded | authkit/testkit/store.go:484-495 | Drops the account with its sessions and tokens if and only if it is unconfirmed without a live invite |
| TestkitStore.Store.DropExpired | authkit/testkit/store.go:459-481 | The first loop removes exactly the expired tokens, counts them and notes the accounts of the invites |
| TestkitStore.Store.DeleteExpiredTokens | authkit/testkit/store.go:459-481 | In whatever order the maps are walked, the sweep leaves what the contract says and counts the expired tokens |
| TestkitStore.DropOneMore | authkit/testkit/store.go:484-495 | Dropping accounts one by one is dropping them together, in any order |
| TestkitStore.StrandedDropped | authkit/testkit/store.go:459-495 | The accounts the loops drop are exactly the stranded ones judged on the rows before the sweep |
| SqliteStore.UserStore.constructor | authkit/sqlite/store.go:30-32 | A new store is consistent and holds nothing |
| SqliteStore.UserStore.CreateUser | authkit/sqlite/store.go:35-41 | As the contract, the unique email being the table's constraint |
| SqliteStore.UserStore.CreateFirstUser | authkit/sqlite/setup.go:23-34 | As the contract |
| SqliteStore.UserStore.CreateSession | authkit/sqlite/store.go:70-77 | As the contract, a session of no account or a taken hash failing without a change |
| SqliteStore.UserStore.UserBySession | authkit/sqlite/store.go:80-86 | As the contract |
| SqliteStore.UserStore.DeleteExpiredSessions | authkit/sqlite/store.go:135-141 | As the contract, the count included |
| SqliteStore.UserStore.Disable | authkit/sqlite/store.go:128-185 | As the contract of a disable or enable, the revocations included |
| SqliteStore.UserStore.RefuseUncovered | authkit/sqlite/role.go:133-156 | Refuses if and only if the SQL guard finds that the account covers and no other one does |
| SqliteStore.UserStore.SetRole | authkit/sqlite/role.go:19-123 | Check, guard and update in one transaction answer and write as the contract |
| SqliteStore.UserStore.DisableUnderCover | authkit/sqlite/role.go:25-156 | Check, guard, update and revocations in one transaction answer and write as the contract |
| SqliteStore.UserStore.GrantRoleToRoleless | authkit/sqlite/role.go:58-67 | As the contract, the count included |
| SqliteStore.UserStore.CreateToken | authkit/sqlite/invite.go:19-37 | As the contract, a taken hash failing without a change |
| SqliteStore.UserStore.ReplaceToken | authkit/sqlite/invite.go:40-54 | As the contract, the deletions rolled back when the insert fails |
| SqliteStore.UserStore.ActivateByToken | authkit/sqlite/invite.go:57-161 | As the contract, a spent token restored by the rollback when the account refuses |
| SqliteStore.UserStore.ResetByToken | authkit/sqlite/invite.go:70-161 | As the contract, the password stored, with the sessions and the other reset tokens |
| SqliteStore.UserStore.SweepStranded | authkit/sqlite/invite.go:164-177 | From the expired rows it drops exactly the contract's stranded accounts |
| SqliteStore.UserStore.DeleteExpiredTokens | authkit/sqlite/invite.go:93-117 | Accounts first and tokens after leave what the contract's sweep leaves, and the count is of all expired tokens |
| SqliteStore.StrandedFound | authkit/sqlite/invite.go:164-177 | The accounts the statements select are the contract's stranded ones |
| SqliteStore.SweptAlike | authkit/sqlite/invite.go:93-117 | Dropping accounts before the expired tokens leaves the same rows as dropping them after |
| SqliteStore.GuardsAgreeIff | authkit/sqlite/role.go:133-156 | The SQL guard and the in-memory guard agree on all rows if and only if the privileged list does not hold the empty role |
| AccountLaws.CoverStays | authkit/testkit/store.go:274-325 | Once an enabled privileged account exists, no run of calls that do not bypass the guard removes the last one |
| AccountLaws.KeepsCoverIff | authkit/testkit/store.go:459-553 | A call keeps the last privileged account wherever it runs if and only if it is neither the sweep nor the unguarded disable |
| AccountLaws.RoleKeepsCover | authkit/testkit/store.go:274-325 | A guarded role write leaves an enabled privileged account |
| AccountLaws.DisableKeepsCover | authkit/testkit/store.go:533-553 | A guarded disable leaves an enabled privileged account |
| AccountLaws.TokensStaySound | authkit/testkit/store.go:238-257 | No run of calls leaves a disabled or missing account with a token |
| AccountLaws.RevokedForGood | authkit/testkit/store.go:238-257 | The sessions a disable ended stay ended through every later run, enables included |
| AccountLaws.SessionLasts | authkit/testkit/store.go:160-186 | A session created for an enabled account answers that account, as it is by then, through every run none of whose calls ends it, at each moment if and only if it has not expired |
| AccountLaws.CallKeepsSessionIff | authkit/testkit/store.go:160-257 | A call ends a stored session of an enabled account if and only if it replaces, deletes or expires it, lands a disable of its account, resets by a live token of its account, or sweeps its account away |
| AccountLaws.DeletedForGood | authkit/testkit/store.go:189-197 | A deleted session is not found through every later run that creates none under its hash |
| RowLaws.ArrivesAsCreated | authkit/testkit/store.go:73-110 | An account is stored that was not if and only if a creation answered so, whole, under an email no other has, and nothing else changed |
| RowLaws.LeavesIffStranded | authkit/testkit/store.go:459-495 | An account leaves the store if and only if a sweep finds it unconfirmed, with an expired invite and without a live one |
| RowLaws.PasswordWritten | authkit/testkit/store.go:390-456 | A call changes a password if and only if it is a redemption that answered the account, and then to the password given |
| RowLaws.ConfirmedWritten | authkit/testkit/store.go:390-417 | An account is confirmed by the activation that answered it and by nothing else, and never unconfirmed |
| RowLaws.DisabledWritten | authkit/testkit/store.go:231-257 | An account is disabled or enabled by the call that answered so and by no other |
| RowLaws.RoleWritten | authkit/testkit/store.go:260-343 | A role changes by the role write that answered so, or by a grant to an account without one, and by nothing else |
| RowLaws.ResetLands | authkit/testkit/store.go:424-456 | A reset by a live token of an enabled account answers it, stores the password, ends its sessions, takes its reset tokens and leaves everything else. Any other reset names its reason and changes nothing |
| RowLaws.ActivationLands | authkit/testkit/store.go:390-417 | An activation by a live invite of an enabled unconfirmed account answers it, confirms it, stores the password, takes the invite and leaves everything else. Any other names its reason and changes nothing |
| RowLaws.RedeemedPasswordStays | authkit/testkit/store.go:390-456 | The password of a redemption stays through every later run that neither redeems another token of the account nor sweeps it away |
| RowLaws.ActivatedForGood | authkit/testkit/store.go:370-417 | Once activated an account stays stored and confirmed through every later run, no activation answers it again and no invite replaces another for it |
| RowLaws.ResetRevokesForGood | authkit/testkit/store.go:424-456 | The sessions a reset ended stay ended through every later run |
| RowLaws.DisabledIsNotFound | authkit/testkit/store.go:171-186 | From a disable on, until the account is enabled, no session of it is found, not even one created meanwhile, and no redemption answers it |
| RowLaws.CallKeepsTokenIff | authkit/testkit/store.go:347-481 | A call takes a standing token if and only if it issues another under its hash, replaces it, redeems it, disables its account, or sweeps it or its account away |
| RowLaws.IssuedRedeems | authkit/testkit/store.go:347-456 | An issued token stands through every run none of whose calls takes it, and redeems its account at each moment if and only if it has not expired and the redemption is of its purpose |
| RowLaws.IssueLands | authkit/testkit/store.go:347-367 | An issue is refused if and only if the account is missing or disabled, or already has as many live tokens of the purpose as the cap |
| RowLaws.ReplacementLands | authkit/testkit/store.go:370-384 | A replacement leaves exactly one token of its account and purpose and every other token as it was |
| RowLaws.SweepTakes | authkit/testkit/store.go:459-495 | A sweep takes exactly the expired tokens and what belongs to the accounts it drops, and counts the expired ones |
| RowLaws.ExpiryTakes | authkit/testkit/store.go:200-208 | An expiry takes exactly the expired sessions and counts them |
| RowLaws.GrantCounts | authkit/testkit/store.go:328-343 | A grant leaves no account without a role and counts the accounts it changed |
| RowLaws.RoleAnswers | authkit/testkit/store.go:260-325 | A guarded role write answers, in this order, for a missing account, a role no longer held and the sole privileged account, and a refused one changes nothing |
| RowLaws.DisableAnswers | authkit/testkit/store.go:508-553 | A guarded disable answers alike, and otherwise does what the unguarded one does |
| RowLaws.EmailsStayUnique | authkit/testkit/store.go:73-110 | No run of calls leaves two accounts under one email |
| Administration.NoCapabilityAppears | authkit/role.go:37-105 | In every interleaving of requests, whatever an account or an in-flight actor carries, some account carried at the start |
| Administration.LandsAsJudged | authkit/admin.go:173-219 | A role or disabled write that lands hits another account still holding the role it was judged on, one the actor's role outranks or no source declares. That its actor is privileged is `Administration.OnlyPrivilegedAct` |
| Administration.WriteKeepsContained | authkit/admin.go:144-208 | A write hands out only what the actor's role carries |
| Administration.RequestsKeepCover | authkit/admin.go:173-208 | No interleaving of requests takes the last enabled privileged account away |
| Administration.OnlyPrivilegedAct | authkit/admin.go:84-90 | In every interleaving, with a role source or without, no request of an actor under no privileged role is judged or lands |
| Administration.UnprivilegedIsRefused | authkit/admin.go:84-90 | An unprivileged actor's request is refused for its role before its target is read, and changes no row |
| Administration.LandsIffMeets | authkit/admin.go:144-300 | A request that nothing interleaves with lands if and only if its actor is privileged, may edit the target and hand out the role, does not hit itself, and leaves a covering account. A refused one changes no row |
| Administration.LandsWhole | authkit/admin.go:144-219 | What lands is the one write asked for, with what a disable revokes, and nothing else |
| Administration.RefusedFor | authkit/role.go:37-105 | Each refusal is answered if and only if its reason is the first that applies |
| Password.GeneratePassword | react-auth/src/wpds/password.ts:26-42 | Across all refills the answer is the characters of the first accepted bytes of the drawn stream, as many as asked for, and a length not allowed is refused |
| Password.AllowedLengthIff | react-auth/src/wpds/password.ts:17-19 | The lengths a password may have are exactly the whole numbers from 1 to 65536 |
| Password.Keep | react-auth/src/wpds/password.ts:26-42 | The filter keeps exactly the accepted bytes of one draw, in order |
| Password.Append | react-auth/src/wpds/password.ts:26-42 | The loop adds the characters of the bytes taken, in order |
| Password.CharactersAre | react-auth/src/wpds/password.ts:4 | The list holds exactly 72 characters, each at its place |
| Password.AllEquallyLikely | react-auth/src/wpds/password.ts:7-42 | Of the byte streams of any one length, as many make one password of the list's characters as make any other of the same length |
| Password.SpelledThreeToTheLength | react-auth/src/wpds/password.ts:4-42 | Every password of the list's characters is spelled by exactly 3 to the power of its length accepted byte strings |
| Password.RetargetMakes | react-auth/src/wpds/password.ts:26-42 | Moving the accepted bytes of a stream within their thirds turns one password into another, and back |
| Lowercase.CasedFirstBefore | avatar/lower.go:51-58 | True if and only if the nearest character before a place that is not case-ignorable is cased |
| Lowercase.CasedFirstFrom | avatar/lower.go:51-58 | True if and only if the nearest character from a place on that is not case-ignorable is cased |
| Lowercase.EndsWord | avatar/lower.go:46-48 | True if and only if the nearest such character before is cased and the nearest after is not |
| Lowercase.LowerAsJavaScript | avatar/lower.go:30-43 | The loop answers each character's lowercase in order, the dotted I as two, a sigma final by its nearest neighbours |
| Lowercase.OneMoreLowered | avatar/lower.go:30-43 | Each character adds its simple mapping, U+0130 the two characters U+0069 U+0307, and a final sigma U+03C2 |
| Lowercase.LongerByDots | avatar/lower.go:30-43 | A lowercased text is longer by one character for each U+0130 |
| Lowercase.LastIsFinal | avatar/lower.go:46-58 | At the end of a text a sigma is final if and only if a cased letter of its word comes before it |
| Lowercase.MidLettersAre | avatar/lower.go:12-15 | The marks that may stand inside a word are those of the Word_Break values MidLetter, MidNumLet and Single_Quote |
| Lowercase.SplitsAt | avatar/lower.go:30-61 | At a character neither cased nor case-ignorable, the lowercase of a text is that of its parts put together |
| Lowercase.SplitsIff | avatar/lower.go:30-61 | Lowercasing splits at a character in every text if and only if it is neither cased nor case-ignorable |
| Lowercase.LoweringSettles | avatar/lower.go:30-43 | Lowercasing twice is lowercasing once |
| Lowercase.FinalAsStandardIff | avatar/lower.go:46-61 | The code's final sigma is that of Final_Sigma on every text if and only if no character is both cased and case-ignorable |
| Lowercase.ModifierBeforeSigma | avatar/lower.go:51-61 | After U+02B0 or U+0345 alone, cased and case-ignorable both, a last sigma is final for the standard and lowercases as any other for the code |
| Lowercase.ColourIndex | avatar/initials.go:64-70 | The loop answers the base-31 polynomial of the lowercased name modulo 2^31 - 1 modulo the palette, no intermediate leaving the integers a float64 holds exactly |
| CleanName.CleanName | name.go:12-34 | The one pass answers the plain account: controls dropped, words between runs of the four spaces joined by one, ends trimmed, and nothing for invalid UTF-8 |
| CleanName.OneMoreWritten | name.go:18-32 | One more character adds nothing, itself, or a space and itself to what is written |
| CleanName.CleanedIsClean | name.go:12-39 | A cleaned name has no C0 control, no two spaces in a row and no trimmed space at an end |
| CleanName.CleanIffUnchanged | name.go:12-39 | The clean texts are exactly those cleaning leaves as they are, and cleaning twice is cleaning once |
| CleanName.BetweenWords | name.go:18-32 | Between two words exactly space, tab, line feed and carriage return leave one space, other characters below space nothing, and any other is kept |
| CleanName.AroundWord | name.go:33-39 | At either end of a word exactly the white space other than U+0085 is trimmed |

## Left out

- PostgreSQL sessions: the transactions carry no session rows. What a disable or reset does to sessions is proved of the
  two atomic stores.
- Cascading deletes of the PostgreSQL sweep: applied at its commit, without the token-row locks a cascade takes.
- The order in which a scan locks its rows: any order is allowed, ORDER BY mattering for deadlocks alone.
- Deadlock detection, lock fairness and waiting times of PostgreSQL. A transaction that a deadlock ends is an `Abort`.
  That a transaction comes to its end is stated of one that runs alone (`PostgresAlone.AloneEnds`).
- GrantRoleToRoleless and CreateFirstUser among the interleaved PostgreSQL transactions. The first
  account's race is modelled alone in `FirstAccount`.
- PostgresCover.CoverStays: covers guarded writes under one privileged set. The sweep and the unguarded disable ask no
  guard and are left out of its runs, as are runs with a harmful late join, for which `LateJoinLosesCover` gives the loss.
- PostgresSweep.SweepDrops: an account renewed or activated and stranded again while the sweep runs may be dropped or
  spared, as its statements find it.
- FirstAccount.AtMostOneAccount: covers calls with the right code. A wrong code is refused by `SetupFile.Setup.Check`.
- FirstAccount.NoneWithoutReadCommitted: the isolation level is a flag that the check reads. What an older snapshot would
  show without the check is not modelled.
- RenewalCode.OneRename: is about one stale period, the fresh code staying live and private during the run. What holds over
  many is in `RenewalPeriods`. No other writer of the file takes part in either.
- File faults in concurrent renewals, beyond a lock file that cannot be opened or locked: they are in `SetupFile`, for one
  Setup at a time.
- The gap between lstat and rename against writers that do not take the lock, and platforms without flock. The branches
  of `Renewal` that only such a writer leads to (a path found empty or changed under the lock, linking a first code,
  reading back another file) are there, but its runs do not reach them. `SetupFile` states what they do.
- RenewalSuccess.EveryRenewalMayEnd: says that renewals may end, not that a scheduler lets them. Runs in which a context
  ended or a lock file failed are covered by `LeftIsReleased` alone.
- SetupFile.Setup.Check: with a lifetime below zero, which a checked config refuses, a renewed code may be expired at once.
- Delivery of a code to OnCode, logging and the text of errors.
- Constant-time comparison of codes: equality of the texts.
- Fault injection and call counters of the testkit store, and its sorted listings.
- Creation times of accounts, and the paging and ordering of lists.
- Hashes as SHA-256 of a secret, argon2id, base64 and randomness: hashes are numbers, a fresh one being one never used.
- HTTP handlers, cookies, the cross-origin guard, rate limits, command lines, migrations and mail parsing.
- Roles and capabilities read from a source that fails or changes between two reads of one request.
- Sessions started for an account that is disabled meanwhile: they are stored, and `DisabledIsNotFound` says they are not
  found.
- Unicode tables: parameters, with the few facts a lemma needs stated as its precondition (`KnowsSigma`, `Settled`,
  a space being white space).
- Decoding of UTF-8: a name is its code points, or none when invalid.
- React screens, hooks and transports apart from the password generator. Its character list is written in four parts.
- The SVG text, first letter and Gravatar address of an avatar.
