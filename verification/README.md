# A model of the payment core

The system sells network access, VPS time and EV charging for Cashu ecash. This project models the parts of it that
hold money or shared state, and proves what every run of them keeps: the RADIUS payment pipeline with its session
files and ledger, the EV charger, the OCPI store with its files, the microVM daemon, the VPS order worker, the
WireGuard address allocator, and the codecs in front of them (Cashu tokens, split credentials, the signed RADIUS
Class attribute of section 5.25 of RFC 2865, NIP-44 version 2, base64 of sections 4 and 5 of RFC 4648).

`dafny verify dfyconfig.toml` checks everything.

## How to read it

| module | what it is |
|---|---|
| `AuthProtocol` | requests as steps (look up, remove, check, redeem, save, answer, record), interleaved with cleanup and time |
| `AuthConservation`, `AuthCleanup`, `AuthCleanupIff`, `AuthSequential`, `AuthOverlap`, `AuthProvenance` | theorems about every run of that protocol |
| `Sessions`, `Ledger`, `Lines` | session files, the JSON-lines ledger, line splitting |
| `Charger` | the charger object and every interleaving of its handlers and monitors |
| `ChargerPayments` | charger starts that pay through the protocol of `AuthProtocol`, both machines side by side |
| `OcpiStore`, `OcpiCrash`, `OcpiStoreObject` | record files and log, runs with crashes and restarts, the store as an object |
| `MicroVm`, `WgAllocator`, `Cycle` | VM lifecycle, client addresses, the wrap-around counter both use |
| `OrderWorker` | one order polled again and again by a worker that may die at any await |
| `CashuToken`, `Payment`, `RadiusClass`, `Nip44`, `Base64`, `Text` | the codecs |
| `Common` | options, 64-bit wrap-around, sums over finite sets |

Shared state is changed by methods of a class where the program does so (`SessionStore`, `Ledger`, `ChargerState`,
`Store`, `Daemon`, `Worker`, `WgManager`). Each such method is proved equal to a function on values, and the
statements over whole runs are proved of that function; in `Worker` a poll is proved to satisfy a step relation
instead, and `PollAll` runs any number of polls and proves the statements of the history they leave. Cryptography, JSON and CBOR appear as function parameters;
where a proof needs something of them (a digest length, a round trip) it is a stated hypothesis. What the outside
world answers (mint, provider, file system, clock) is part of the run, so a statement over all runs covers every answer.

## Where the code does less than it seems to promise

- Cleanup is invisible in delegated mode and whenever no two requests of one session overlap, but not in every local
  interleaving: a request that has read a long-expired record removes by path, and deletes the record another request
  has just paid for. Cleaning first avoids that, so the answers differ. `CleanupInvisibleIff` gives the exact
  condition, `RaceMakesCleanupVisible` the failing family and `RaceExists` a member of it.
- A client can pay while its session is active, and lose paid time, but only when its requests overlap
  (`PayingTwiceIsOverlap`, `PaidTimeIsKept`).
- A charger start that resumes a live session is granted the session's whole credit again, without a redemption
  (`ResumedStartPaysNothing`); granted credit is redeemed sats exactly when no start was a resume
  (`GrantedAgainstRedeemed`).
- Granted seconds and deadlines are exact up to 922,337,203,685,477,580 and 922,337,203 sat and wrap beyond that
  (`SecondsExactIff`, `DeadlineExactIff`); so does a report's total (`RevenueMatchesTrace`).
- One ledger line of a MiB or more makes every later report fail (`ReadBackIff`), and so does one line whose line feed
  was not written, once the next entry follows it (`ReadableAfterAppendIff`, `TornAppendFailsForGood`).
- An audit event appended to a log that ends in an unfinished line is lost together with that line, for good
  (`AppendReadBackIff`, `TornAppendLosesNext`); `LogThroughCrashes` says what is left after any run.
- A CDR written over another session's CDR file erases the evidence behind an earlier used prepay;
  `UsedPrepaysBackedIff` gives the exact condition, and `UsedPrepaysHaveCdrs` a rule that is enough.
- Every 249th VM gets guest CID 2, which vsock reserves for the host (`ReservedCidIff`).
- When a peer with octet 254 survives a reload, the next client is given .255 (`FirstAfterReloadIff`). A peer that
  outlives a whole turn of 253 allocations shares its address with a newer one (`AddressHeldIff`). An active client
  whose re-add is refused is listed without a tunnel (`StaysInStepIff`).
- The comments in `internal/radius/class.go` and `internal/auth/auth.go` place the Class attribute in section 5.5 of
  RFC 2865; it is section 5.25. A field comment speaks of the first 16 characters of the token hash; the code uses 32.

## Model

| member | source | states |
|---|---|---|
| AuthConservation.PaidAcceptsAreRedeemed | internal/auth/auth.go:291-332 | in every interleaving of local-mode requests, each newly paid accept has its own redemption with the same amount and mint, no proof pays for two, and nothing spent before the run pays for any |
| AuthConservation.Conservation | internal/auth/auth.go:291-332 | once nothing is in flight, redemptions are exactly the newly paid accepts, and the seconds they grant sum to ten times the sats redeemed while seconds fit 64 bits |
| AuthConservation.EffectPaired | internal/auth/auth.go:291-356 | no step redeems for a request that already redeemed, a redemption uses only unspent proofs, and a paid result exists only with its receipt |
| AuthConservation.RedeemDisjoint | internal/auth/auth.go:312-317 | a redemption of unspent proofs keeps all receipts pairwise disjoint and the mint's spent set equal to the initial one plus the receipts |
| AuthConservation.RunKeepsPayInv | internal/auth/auth.go:216-356 | the pairing of requests with receipts and the disjointness of receipts survive every run |
| AuthConservation.RunKeepsLedgerInv | cmd/tollgate-daemon/main.go:361-384 | along every run the ledger's credit, accept count and reject count are those of the recorded results |
| AuthConservation.RevenueMatchesTrace | internal/ledger/ledger.go:200-237 | when everything is recorded, the ledger file can be read exactly when all lines are under a MiB, and the report on it then has as total, in 64 bits, the redeemed sats plus the stored amount once more per resumed session, with matching counts and average; below 2^63 the total equals redeemed sats exactly when nothing was resumed |
| AuthCleanup.CleanupInvisible | internal/auth/auth.go:156-184 | inserted anywhere in a run, in either mode, cleanup changes no answer, redemption or ledger entry as long as no save falls between another request's lookup of an expired record and its removal |
| AuthCleanup.EffectsRelated | internal/auth/auth.go:234-254 | one step from a cleaned and an uncleaned directory gives the same redemption and ledger entry, and files that still differ only in removable ones |
| AuthCleanup.RaceMakesCleanupVisible | internal/auth/auth.go:252-252 | for every such race the reconnecting client is accepted if a cleanup came first and rejected if it did not |
| AuthCleanup.RaceExists | internal/auth/auth.go:252-252 | a concrete client, session and token that are in that race |
| AuthCleanup.PaymentSaves | internal/auth/auth.go:291-332 | from any state after its lookup, an undisturbed payer ends with exactly its own paid record on disk and disturbs no other request |
| AuthCleanupIff.DelegatedCleanupInvisible | internal/auth/auth.go:378-386 | in delegated mode cleanup is invisible in every interleaving, without any condition |
| AuthCleanupIff.SequentialCleanupInvisible | internal/auth/auth.go:156-184 | as long as no two requests of the same session overlap, whatever other sessions do, cleanup is invisible in either mode |
| AuthCleanupIff.CleanupInvisibleIff | internal/auth/auth.go:156-184 | with any overlapping local-mode requests to come, a cleanup now is invisible if and only if it deletes no readable record |
| AuthCleanupIff.NothingReadableGoes | internal/auth/auth.go:175-178 | deleting unreadable session files never changes an answer in any continuation |
| AuthSequential.StepsRefineProcessAuth | internal/auth/auth.go:216-424 | the interleavable steps of an undisturbed request reach, within five steps, the very files, redemption and result of the whole pipeline function, in both modes and for every answer of mint and server |
| AuthSequential.LocalAcceptIff | internal/auth/auth.go:216-356 | an undisturbed local request is accepted exactly when its MAC is well-formed and its session is live or it carries a token of an allowed mint, called unspent and redeemed: at most 4096 bytes, no secret twice, none spent |
| AuthSequential.DelegatedAcceptIff | internal/auth/auth.go:364-424 | an undisturbed delegated request is accepted exactly with a token and either a live session or an allotment of a second |
| AuthSequential.LocalReasons | internal/auth/auth.go:221-356 | each reason for a local rejection is given in its own case only |
| AuthSequential.DelegatedReasons | internal/auth/auth.go:364-400 | the same for delegated rejections |
| AuthSequential.RedeemableIff | internal/cashu/wallet.go:20-27 | a token is redeemable exactly up to 4096 bytes with pairwise different unspent secrets |
| AuthSequential.ResumeTimeout | internal/auth/auth.go:237-241 | a resume grants at least one second and ends less than one second after the record's deadline, not after it at all if a second was left |
| AuthSequential.ResumeWithinPaidTime | internal/auth/auth.go:229-254 | in every interleaving a resume writes no file and redeems nothing, and its grant ends less than one second after the deadline originally paid for, up to 922,337,203 sat |
| AuthSequential.NoPaymentWhileActive | internal/auth/auth.go:234-254 | while requests of one session do not overlap, no token is redeemed as long as that session is active |
| AuthSequential.PaidTimeIsKept | internal/auth/auth.go:234-254 | while requests of one session do not overlap, a live session record stays exactly as it is until its deadline, through every other request, cleanup and failed payment |
| AuthOverlap.PayingTwiceIsOverlap | internal/auth/auth.go:234-332 | in any local interleaving, a token redeemed while the payer's session is active was overtaken: another request of the same session saved its record after this one had looked |
| AuthOverlap.AlwaysExplained | internal/auth/auth.go:234-332 | in every run, a request past its lookup found no live session when it looked, and one at its path now comes from another request's save since |
| AuthProvenance.EveryGrantIsEarned | internal/auth/auth.go:291-424 | over every run from an empty directory, in either mode: each readable session record was earned by an earlier step of a request of its own path, starts at the clock of that step and describes that request's own token (redeemed in local mode, allotted seconds in delegated mode); so does each new grant answered |
| AuthProvenance.ResumesCountFromPayment | internal/auth/auth.go:234-254 | in every local interleaving a resume goes back to a redemption by the same client, answers that token's amount, mint and class, and grants to within a second what is left of ten seconds a sat counted from the clock at that redemption |
| AuthProvenance.ResumesAnswerEarned | internal/auth/auth.go:229-386 | the same in either mode, counted from the record that was earned |
| AuthProvenance.EntriesRecordAnswers | cmd/tollgate-daemon/main.go:361-384 | every ledger entry of every run was written by a step that recorded its request's answer: the second it was given, the client, and the answer's own figures, or zeros and blanks for a rejection |
| AuthProvenance.EarningStep | internal/auth/auth.go:313-332 | the one step that leads to a save redeems the token of the request's own fields, or has the server's allotment, and answers what it saves |
| AuthSequential.RunKeepsPaidFiles | internal/auth/auth.go:318-325 | in every run each stored record's duration is what its positive amount buys |
| Sessions.SessionStore.constructor | internal/auth/auth.go:103-106 | a store opens its directory with whatever session files are there |
| Sessions.SessionStore.Lookup | internal/auth/auth.go:116-129 | finds a record exactly when the session's file exists and parses |
| Sessions.SessionStore.Save | internal/auth/auth.go:136-145 | replaces the one file of that session, leaves a remnant or nothing when the write fails, and touches no other file |
| Sessions.SessionStore.Remove | internal/auth/auth.go:147-152 | deletes the file at the session's path, whatever record is there |
| Sessions.SessionStore.Cleanup | internal/auth/auth.go:156-184 | leaves exactly the files that are neither unreadable nor an hour past their deadline; nothing it deletes could be resumed then or later |
| Sessions.SecondsExactIff | internal/auth/auth.go:318-318 | the granted seconds are ten per sat exactly up to 922,337,203,685,477,580 sat |
| Sessions.SecondsWrapsNegative | internal/auth/auth.go:318-318 | the next amount is granted negative time |
| Sessions.DeadlineExactIff | internal/auth/auth.go:131-134 | the deadline is the paid time after the start exactly up to 922,337,203 sat |
| Sessions.ActiveIff | internal/auth/auth.go:131-134 | a paid session is active exactly for ten seconds a sat from its start, up to 922,337,203 sat |
| Sessions.CleanedIs | internal/auth/auth.go:165-183 | cleanup deletes exactly the .json files that are unreadable or 3600 seconds past their paid time |
| Sessions.PathIs | internal/auth/auth.go:108-114 | a MAC's file is named by its hexadecimal digits, whatever case and separators, so two clients share a file exactly when their digits agree; any other id by sixteen characters of its hash |
| Sessions.BareIs | internal/radiusauth/payment.go:51-59 | lower-casing and dropping colons and then hyphens is dropping both in one pass |
| Ledger.ReadAppended | internal/ledger/ledger.go:43-70 | an append to a complete file keeps it complete and adds exactly that entry to what is read, or makes the read fail when its line is a MiB or more |
| Ledger.ReadBackIff | internal/ledger/ledger.go:88-115 | everything appended is read back in order if and only if every line is shorter than a MiB |
| Ledger.ReadableAfterAppendIff | internal/ledger/ledger.go:60-68 | after an append to any file, the ledger can be read if and only if its finished lines could, the unfinished rest was blank and the line fits; the entry is then the last one read |
| Ledger.TornAppendFailsForGood | internal/ledger/ledger.go:60-68 | once an entry follows an unfinished line, every later read fails, whatever else is appended |
| Ledger.FailureStays | internal/ledger/ledger.go:88-115 | once a line fails the scanner, no later line can repair the read |
| Ledger.Ledger.AppendEntry | internal/ledger/ledger.go:43-70 | the file grows by the rendered entry and a line break and by nothing else |
| Ledger.Ledger.ReadAll | internal/ledger/ledger.go:88-115 | the scanner loop returns the entries of all parsable non-empty lines in order, or the failure of an over-long line |
| Ledger.Ledger.RevenueSummary | internal/ledger/ledger.go:200-237 | an unreadable ledger is an error; otherwise the report counts exactly the operator's entries in the closed period, each once, with a wrapping total and its average per accept |
| Ledger.Summarise | internal/ledger/ledger.go:206-234 | the loop that does the counting, and the average after it |
| Ledger.ReportSnoc | internal/ledger/ledger.go:221-229 | an accept adds its credit, in 64 bits, and one session, a reject one session and no credit, any other event nothing |
| Ledger.PickExactly | internal/ledger/ledger.go:212-219 | the report sees exactly the operator's entries of the closed period, each as often as it was recorded |
| Ledger.PeriodsAddUp | internal/ledger/ledger.go:212-230 | reports of adjacent periods add up to that of the whole |
| Ledger.CarriageReturnIgnored | internal/ledger/ledger.go:97-108 | a carriage return before the line feed is not part of the line |
| Lines.SplitIs | internal/ocpi/store_persist.go:155-155 | the pieces of a text hold no line feed and, joined by line feeds, give it back |
| Charger.EveryStartFinishesOnce | internal/ocpi/charger.go:92-260 | in every interleaving from a fresh boot: STARTING exactly while one handler decides, CHARGING exactly while a session is set, committed starts are the CDRs written plus the one charging, in order, each finished once |
| Charger.RunKeepsInv | internal/ocpi/charger.go:92-316 | the state machine's invariant survives every run of starts, stops and ticks |
| Charger.ChargingIsMonitored | internal/ocpi/charger.go:170-176 | from a fresh boot a charging charger always has the monitor of its own start, running or about to run |
| Charger.AutomaticStopsAreFair | internal/ocpi/charger.go:297-316 | with positive prices and the charging session's own monitor ticking at most d apart, every automatic stop of a run delivers at least the paid energy, at most power times d more than that and strictly less when credit was paid, and reports no credit left |
| Charger.AutomaticStopFair | internal/ocpi/charger.go:200-212 | the same for a single stop, with the clock read again between the decision and the settlement |
| Charger.EveryStopSettles | internal/ocpi/charger.go:200-260 | every stop of every run, manual or automatic: energy is 7.4 kW times the time since the start was prepared, used is that at the unit's own price, used and remaining add up to the prepared credit or nothing remains, and the record carries the same figures and times |
| Charger.CreditLastsToMaxKwh | internal/ocpi/pricing.go:12-24 | the credit is used up exactly when the energy reaches the advertised maximum |
| Charger.ChargerState.constructor | internal/ocpi/charger.go:46-51 | a fresh charger is available, without a session and without records |
| Charger.ChargerState.Claim | internal/ocpi/charger.go:92-99 | succeeds exactly when the charger is available and then only marks it as starting |
| Charger.ChargerState.Release | internal/ocpi/charger.go:124-131 | a refused start makes the charger available again |
| Charger.ChargerState.Commit | internal/ocpi/charger.go:170-174 | an accepted start sets state and session together |
| Charger.ChargerState.FinishCharging | internal/ocpi/charger.go:200-260 | when a session is charging, settles it by that arithmetic and writes one CDR with the same figures; otherwise changes nothing and reports zeros |
| Charger.ChargerState.MonitorTick | internal/ocpi/charger.go:297-316 | the monitor ends exactly when nothing charges or the credit is gone, and in the latter case the session is settled by that tick |
| ChargerPayments.GrantedAgainstRedeemed | internal/ocpi/charger.go:92-176 | over every interleaving of starts, stops, ticks, other clients and cleanups: credit granted to committed starts is the sats redeemed for them plus the whole credit of each resumed start once more, so the two agree exactly when no committed start was a resume; the charging session draws on exactly that credit, and no proof pays for two starts |
| ChargerPayments.ResumedStartPaysNothing | internal/ocpi/charger.go:102-109 | with a live session at its path a start commits without a redemption and is granted the session's whole amount |
| ChargerPayments.RunKeepsInv | internal/ocpi/charger.go:92-176 | every start asks in a request of its own and is granted exactly the credit answered, along every joint run |
| OcpiStore.SanitizeFileName | internal/ocpi/store_persist.go:221-234 | keeps each letter, digit, hyphen, underscore and dot where it is and writes an underscore for each other character |
| OcpiStore.CollidesIff | internal/ocpi/store_persist.go:221-234 | two ids get one file name exactly when they differ only where both have a replaced character or an underscore |
| OcpiStore.NamesApart | internal/ocpi/store_persist.go:206-216 | a temporary file is never taken for a record file, whatever the ids |
| OcpiStore.PersistAgrees | internal/ocpi/store_persist.go:38-85 | storing in memory, writing a temporary file and renaming it keeps memory and directory in agreement, also when ids collide |
| OcpiStore.LoadedFrom | internal/ocpi/store_persist.go:100-144 | a load finds a record exactly when the file of its name holds it |
| OcpiStore.LoadedAny | internal/ocpi/store_persist.go:100-144 | from any directory a load takes exactly the parsable .json files with an id, the last one listed winning |
| OcpiStore.ReloadAgrees | internal/ocpi/store_persist.go:100-144 | what a load rebuilds agrees with the directory again |
| OcpiStore.ReloadIff | internal/ocpi/store_persist.go:100-144 | a load rebuilds exactly the memory if and only if its ids are non-empty and no two of them collide |
| OcpiStore.LogViewAppend | internal/ocpi/store.go:173-181 | prepending and capping at a hundred in memory is appending on disk and viewing the last hundred newest first |
| OcpiStore.LogViewIs | internal/ocpi/store_persist.go:165-172 | the view has the last hundred events, the last one first |
| OcpiStore.TrimIs | internal/ocpi/store_persist.go:156-159 | trimming takes the blanks off both ends of a line and nothing else |
| OcpiStore.AppendReadBack | internal/ocpi/store_persist.go:148-173 | an append to a complete log adds exactly that event to what a load reads |
| OcpiStore.AppendReadBackIff | internal/ocpi/store_persist.go:63-85 | for every log file, an append adds exactly its event to what a load reads if and only if the file ends in a finished line, blanks aside |
| OcpiStore.TornAppendLosesNext | internal/ocpi/store_persist.go:63-85 | an event appended after an unfinished line is gone together with that line, however many events follow |
| OcpiStore.FedFile | internal/ocpi/store_persist.go:63-85 | an append cut at any character leaves the finished lines alone and an unfinished line that reads as its event only when nothing but the line feed is missing |
| OcpiStore.OpKeepsDirs | internal/ocpi/store.go:116-181 | every store operation keeps tokens and CDRs in agreement with their directories, and only an audit append touches the log file |
| OcpiStore.OpKeepsLog | internal/ocpi/store.go:116-181 | every store operation keeps the memory log equal to the view of the disk log |
| OcpiCrash.CrashWholeValues | internal/ocpi/store_persist.go:206-216 | whatever step a crash interrupts, every record file holds its whole old value, or is the very file being replaced and holds the whole new one, and none disappears |
| OcpiCrash.ReloadRebuildsIff | internal/ocpi/store_persist.go:100-173 | after any run of operations, crashes and restarts, a reload rebuilds exactly the tokens (and the CDRs) in memory if and only if their ids are non-empty and no two differ only in replaced characters and underscores |
| OcpiCrash.PlainIdsRebuilt | internal/ocpi/store_persist.go:100-173 | after any run with crashes, ids that are non-empty and made of kept characters are always rebuilt exactly |
| OcpiCrash.LogSurvivesRestarts | internal/ocpi/store_persist.go:148-173 | over any crash-free run with restarts the disk log holds every event ever appended in order, and memory and the next reload hold the reverse of the last hundred |
| OcpiCrash.LogThroughCrashes | internal/ocpi/store_persist.go:148-173 | over any run with crashes at any step and appends cut at any character, the disk log and the next reload hold exactly the completed appends, except each one made on top of an unfinished line, which goes together with that line |
| OcpiCrash.UsedPrepaysBackedIff | internal/ocpi/store.go:158-167 | over any run with crashes and restarts, every used prepay has its CDR at every moment if and only if each operation, when it starts, spares a CDR of every used prepay and writes none as used without one |
| OcpiCrash.OpKeepsUsedIff | internal/ocpi/store.go:116-167 | the same for one completed operation on any memory and disk |
| OcpiCrash.CrashesBackedIff | internal/ocpi/store.go:158-167 | the same for one operation interrupted at any step |
| OcpiCrash.EvidenceSafeMeans | internal/ocpi/store.go:158-167 | storing a CDR with an id is safe exactly when every used prepay of another session has a CDR in another file; any other operation exactly when it writes no used prepay without a CDR |
| OcpiCrash.UsedPrepaysHaveCdrs | internal/ocpi/store.go:158-167 | when prepays are issued unused, CDR ids are non-empty and a CDR file is only replaced by a CDR of the same session, every used prepay has its CDR on disk at every moment of every run, inside operations too |
| OcpiCrash.ReusedCdrIdLosesEvidence | internal/ocpi/store.go:158-167 | writing a CDR over the only one of another session always breaks that |
| OcpiStoreObject.LoadRecords | internal/ocpi/store_persist.go:100-144 | the load loop keeps every parsable record file with an id under that id, later listing entries winning |
| OcpiStoreObject.LoadAuthz | internal/ocpi/store_persist.go:148-173 | the two loops yield the newest hundred events, newest first |
| OcpiStoreObject.LoadEvents | internal/ocpi/store_persist.go:149-164 | blank and unparsable lines are skipped and the others kept in file order |
| OcpiStoreObject.Store.constructor | internal/ocpi/store_persist.go:87-98 | opening a data directory leaves the disk alone and fills memory from it |
| OcpiStoreObject.Store.PutPrepayRecord | internal/ocpi/store.go:116-121 | the record is in memory under its id and, with an id, in its file; nothing else changes |
| OcpiStoreObject.Store.MarkPrepayAuthorized | internal/ocpi/store.go:137-145 | a known token gets the time, in memory and in its file; other records stay, and an unknown token changes nothing |
| OcpiStoreObject.Store.PutCdrRecord | internal/ocpi/store.go:158-167 | the CDR is in memory and in its file, the session's prepay is used in both, other records stay; the CDR is written first |
| OcpiStoreObject.Store.AppendAuthzEvent | internal/ocpi/store.go:173-181 | the event heads the log in memory, at most a hundred stay, and its line ends the file |
| MicroVm.TapsAreExactlyOwned | cmd/tollgate-fcd/vm.go:14-175 | in every race of creation, exit, timer, reaper, delete and shutdown, live devices are exactly those of the VMs in the map, one each, and each device is deleted once per addition with no delete that misses |
| MicroVm.RunCounters | cmd/tollgate-fcd/vm.go:177-197 | over any run the address and CID counters have moved once per creation that reached them, failed ones included |
| MicroVm.VmAddresses | cmd/tollgate-fcd/vm.go:182-189 | every VM address is one of .2 to .251, and two creations fewer than 250 apart get different ones |
| MicroVm.ReservedCidIff | cmd/tollgate-fcd/vm.go:191-197 | a creation gets guest CID 2 exactly when its number since boot is a multiple of 249 |
| MicroVm.SweptIffExpired | cmd/tollgate-fcd/vm.go:131-152 | counted from the creation in any run: a sweep that visits a VM removes it exactly when its ttl is positive and that many seconds have passed |
| MicroVm.VmStays | cmd/tollgate-fcd/vm.go:96-96 | a VM in the map that was not created anew has been there unchanged |
| MicroVm.Daemon.CreateVm | cmd/tollgate-fcd/vm.go:14-129 | succeeds exactly when every call does; then the VM is in the map with its device, address, CID and expiry, and otherwise map and devices are as before |
| MicroVm.Daemon.SetupTapDevice | cmd/tollgate-fcd/nat.go:35-48 | creates the device or, when bringing it up or attaching it to the bridge fails, deletes it again |
| MicroVm.Daemon.CleanupTap | cmd/tollgate-fcd/nat.go:50-52 | deletes the device, and the trace shows whether there was one |
| MicroVm.Daemon.OnExit | cmd/tollgate-fcd/vm.go:98-108 | takes that VM and its device away if it is still in the map, and nothing else |
| MicroVm.Daemon.DestroyVm | cmd/tollgate-fcd/vm.go:154-175 | takes that VM and its device away and reports whether it was there |
| MicroVm.Daemon.ReapExpired | cmd/tollgate-fcd/vm.go:131-152 | removes exactly the VMs with a positive ttl that are past their expiry, in whatever order the map is walked, and leaves the others as they were |
| OrderWorker.OrdersOnlyAdvance | web/worker.ts:332-514 | over any history whose steps are legal polls, status never moves back except to error, ready and error are final, provisioning or later has a service id that never changes, all submissions carry the same key and arguments, and none follows once provisioning began |
| OrderWorker.Worker.PollAll | web/worker.ts:332-514 | any number of polls with any answers, the worker dying at any await, leaves such a history, whose undisturbed polls made their progress; so the order only ever advances, and any three favourable polls in a row finish it |
| OrderWorker.ThreeGoodPolls | web/worker.ts:332-514 | whatever crashes came before, three undisturbed polls with the invoice paid and the provider answering make an order ready unless it has failed |
| OrderWorker.KeysTellOrdersApart | web/worker.ts:350-358 | over any two poll histories, submissions have the same key exactly when they are for the same order, and ask for the same product exactly when the tiers agree |
| OrderWorker.Worker.HandleStatus | web/worker.ts:332-514 | every poll is a legal step of that history, and one whose writes succeed achieves what each phase promises for each answer |
| OrderWorker.Worker.PollAwaiting | web/worker.ts:344-381 | submits exactly when the balance rose, after the order was saved as ordering |
| OrderWorker.Worker.PollOrdering | web/worker.ts:384-413 | submits again only without a service id, and always with the same arguments |
| OrderWorker.Worker.PollProvisioning | web/worker.ts:416-461 | moves on exactly when the VM is ready, fails when it failed, waits otherwise |
| OrderWorker.Worker.PollConfiguring | web/worker.ts:464-481 | becomes ready whether or not the key could be installed |
| OrderWorker.Worker.PollReady | web/worker.ts:484-489 | stays ready and never throws |
| OrderWorker.Worker.FetchCredentials | web/worker.ts:208-228 | looks only without a password, with a service and not within ten seconds of the last time; takes over an answered password and user, and stores what it has |
| OrderWorker.Worker.SubmitOrder | web/worker.ts:350-363 | one submission with the order's own key and host name and its tier's package; replied exactly when a service was named |
| OrderWorker.Worker.SaveOrder | web/worker.ts:194-200 | the stored order is the whole new one, or the whole old one when the worker died before the write |
| WgAllocator.FreshAllocations | cmd/tollgate-daemon/wg.go:86-93 | from a fresh manager every octet is in 2..254, any 253 allocations in a row are distinct, and the 254th repeats the first |
| WgAllocator.ReloadAllocations | cmd/tollgate-daemon/wg.go:54-93 | after a reload with highest surviving octet h, the next 254 - h allocations are usable, differ from each other and from every survivor |
| WgAllocator.FirstAfterReloadIff | cmd/tollgate-daemon/wg.go:54-73 | the first allocation after a reload is the highest surviving octet plus one, usable exactly when that is below 255 |
| WgAllocator.AllocationAt | cmd/tollgate-daemon/wg.go:86-133 | adds consume the counter one by one, failed ones included, and removing or expiring peers never moves it |
| WgAllocator.AddressHeldIff | cmd/tollgate-daemon/wg.go:86-121 | the next add hands out an address a live peer holds exactly when that peer was added a multiple of 253 allocations ago, or was there before the run and holds the octet the counter has come to |
| WgAllocator.NoClashWithinTurn | cmd/tollgate-daemon/wg.go:86-121 | from a fresh manager no address is given out twice while no peer outlives 252 further allocations |
| WgAllocator.StaysInStepIff | cmd/tollgate-daemon/wg.go:95-155 | an operation keeps listed peers and the interface's peers the same exactly when every removal it needed worked and no add was refused after the active peer had been taken off |
| WgAllocator.AlwaysInStepIff | cmd/tollgate-daemon/wg.go:95-155 | the same over whole runs, state by state |
| WgAllocator.TrackIsRun | cmd/tollgate-daemon/wg.go:86-155 | numbering the allocations leaves the manager's run as it is, and the numbers count its allocations |
| WgAllocator.OctetRoundTrip | cmd/tollgate-daemon/wg.go:75-79 | parsing a generated address gives its octet back |
| WgAllocator.LastOctetIs | cmd/tollgate-daemon/wg.go:75-79 | of any address, the number after the subnet counts up to the first character that is no digit, and other addresses count zero |
| WgAllocator.SavedOctets | cmd/tollgate-daemon/wg.go:95-121 | the address stored for a new peer reads back as the octet that was assigned |
| WgAllocator.WgManager.constructor | cmd/tollgate-daemon/wg.go:44-52 | a new manager starts at octet 2, or where its state file leaves off, and leaves the interface as it is |
| WgAllocator.WgManager.LoadState | cmd/tollgate-daemon/wg.go:54-73 | keeps exactly the unexpired peers and continues after the highest octet among them |
| WgAllocator.WgManager.AssignIP | cmd/tollgate-daemon/wg.go:86-93 | hands out the counter's address and moves it, wrapping after 254 |
| WgAllocator.WgManager.AddPeer | cmd/tollgate-daemon/wg.go:95-121 | takes a still active peer of that key off the interface, then stores and saves the new one, with its address and its expiry, when the interface accepts it; a refusal costs the octet, and the old peer its place on the interface while the map still lists it |
| WgAllocator.WgManager.RemovePeer | cmd/tollgate-daemon/wg.go:123-133 | forgets that peer only, whether or not the interface lets it go, and saves |
| WgAllocator.WgManager.Cleanup | cmd/tollgate-daemon/wg.go:135-155 | forgets exactly the expired peers, takes off the interface those it will let go, and saves |
| CashuToken.B64urlRoundTrip | internal/cashu/token.go:84-94 | the decoder inverts base64url with and without padding, for every byte string |
| CashuToken.StandardAlphabetToo | internal/cashu/token.go:84-94 | text in the standard alphabet decodes as well |
| CashuToken.GatherV3 | internal/cashu/token.go:160-178 | the loop yields the in-order flattening of all proofs, their 64-bit sum and the set of non-empty mints |
| CashuToken.DecodeV3 | internal/cashu/token.go:149-201 | fails with zero value, no mint, several mints exactly in those cases, and otherwise returns the proofs, their sum and the one mint |
| CashuToken.GatherV4 | internal/cashu/token.go:122-134 | the loop yields all proofs in order, each under its own keyset's id in hex, and their 64-bit sum |
| CashuToken.DecodeV4 | internal/cashu/token.go:107-147 | fails for an empty mint or zero value exactly in those cases, and otherwise returns the proofs and their sum |
| CashuToken.DecodeToken | internal/cashu/token.go:98-105 | accepts a token exactly when it has a known prefix, its parts decode, it names one mint and it has a value; its amount is the sum of its proofs, which are the in-order flattening |
| CashuToken.FlattenConcat3 | internal/cashu/token.go:164-178 | flattening a version 3 token keeps entries and proofs in order and loses and repeats none |
| CashuToken.FlattenConcat4 | internal/cashu/token.go:124-134 | the same for version 4 |
| CashuToken.EntryProofIs | internal/cashu/token.go:127-132 | each version 4 proof keeps amount and secret and spells keyset id and signature in lower-case hexadecimal |
| CashuToken.AggregateStates | internal/cashu/mint.go:76-104 | unspent only when every proof is reported unspent, spent as soon as one is, and no answer at all when the count or any word is wrong, wherever it stands |
| Base64.RoundTrip | internal/cashu/token.go:84-94 | decoding inverts encoding in both alphabets, padded or not |
| Base64.AlphabetIs | internal/cashu/token.go:84-94 | the two alphabets are those of RFC 4648, tables 1 and 2 |
| Base64.QuadBits | internal/cashu/token.go:84-94 | four characters carry the 24 bits of three bytes, highest first |
| Base64.EncodeLength | internal/radius/class.go:46-60 | the exact length of an encoding |
| Base64.PaddedFromRaw | internal/cashu/token.go:84-94 | padding is what brings the unpadded text to a multiple of four, and no text is one character over |
| Payment.ExtractedCashuIsValid | internal/radiusauth/payment.go:144-185 | every Cashu value ever extracted is a valid token |
| Payment.ExtractedFromSource | internal/radiusauth/payment.go:144-185 | the credential is the text of the very fields its source names, and of the kind claimed |
| Payment.NothingFoundIff | internal/radiusauth/payment.go:144-185 | nothing is found exactly when no field holds a credential and no pair of fields makes one |
| Payment.UsernameFirst | internal/radiusauth/payment.go:146-157 | a username token always pays, and an LNURLw code is taken exactly when none comes first |
| Payment.PasswordTokenIff | internal/radiusauth/payment.go:176-181 | a whole token in the password is taken exactly when nothing goes before it |
| Payment.CleartextTokenIff | internal/radiusauth/payment.go:182-184 | the same for the third field |
| Payment.CleartextSplit | internal/radiusauth/payment.go:167-173 | a token split into the third field and the username is extracted again under the exact condition |
| Payment.SplitPairIs | internal/radiusauth/payment.go:158-166 | a pair is a valid 200-byte start and a base64url tail without a prefix of its own, up to 8192 bytes together |
| Payment.ValidTokenIs | internal/radiusauth/payment.go:71-85 | what a valid token is, by length, prefix and code points |
| Payment.SplitRoundTrip | internal/radiusauth/payment.go:144-185 | a token of 201 to 8192 bytes split at byte 200 is extracted again if and only if its tail is base64url without a credential prefix and the third field is no LNURLw code |
| Payment.JoinedTokenValid | internal/radiusauth/payment.go:71-85 | a valid head with a base64url tail is a valid token |
| Payment.ValidTokenSanitized | internal/radiusauth/payment.go:122-127 | a valid token passes sanitising exactly when it is not too long |
| Payment.CashuIsNotLnurlw | internal/radiusauth/payment.go:63-95 | no token is taken for an LNURLw code |
| RadiusClass.SignVerifyRoundTrip | internal/radius/class.go:86-134 | what was signed is at most 253 bytes and verifies to the same class |
| RadiusClass.TamperedSignatureRefused | internal/radius/class.go:107-134 | any other text in the place of the signature is refused, also one with separators in it |
| RadiusClass.VerifiesIff | internal/radius/class.go:107-134 | verification accepts a class exactly from tg1: and its base64url, a dot, and sixteen hexadecimal digits of the MAC over all before the dot |
| RadiusClass.OtherKeyIff | internal/radius/class.go:107-134 | what was signed under one key verifies under another exactly when the MACs agree in their first eight bytes |
| RadiusClass.MarshalText | internal/radius/class.go:46-60 | what is signed is one JSON object with the five fields in order, where no escaping is needed |
| RadiusClass.SeparatorFound | internal/radius/class.go:107-118 | the backwards scan finds the separator where signing put it |
| RadiusClass.SignsIffShort | internal/radius/class.go:86-103 | signing succeeds exactly up to 174 bytes of JSON and otherwise says too long |
| RadiusClass.SignsIffOperatorFits | internal/radius/class.go:46-60 | with the field sizes in use, signing succeeds exactly for operator ids of at most 44 bytes |
| RadiusClass.VerifyClass | internal/radius/class.go:107-134 | the loop and comparison agree with the specification on every string, malformed ones included |
| Nip44.EncryptDecryptRoundTrip | scripts/contextvm/nip44_gw.py:117-150 | encryption accepts exactly 1 to 65535 bytes, and decryption undoes it for every 32-byte nonce |
| Nip44.DecryptIff | scripts/contextvm/nip44_gw.py:135-150 | a payload decrypts to a text exactly when it decodes to version 2, a MAC over nonce and ciphertext under the derived key, and a padding that holds that text |
| Nip44.TamperedRefused | scripts/contextvm/nip44_gw.py:135-148 | another version and another MAC are refused, each with its own error |
| Nip44.EncryptIsGenuine | scripts/contextvm/nip44_gw.py:124-132 | what encryption sends is such a payload, with the nonce that was given |
| Nip44.MessageKeysAre | scripts/contextvm/nip44_gw.py:117-119 | the three keys are the first 76 bytes of three chained HMACs, 32 and 12 and 32 |
| Nip44.PadRoundTrip | scripts/contextvm/nip44_gw.py:88-103 | padding has the announced length and unpadding undoes it |
| Nip44.PadLayout | scripts/contextvm/nip44_gw.py:88-95 | length in two bytes, high byte first, then the text, then zeros |
| Nip44.PaddedLenIs | scripts/contextvm/nip44_gw.py:80-85 | 32 up to 32 bytes, beyond that whole chunks of an eighth of the enclosing power of two, at least 32 |
| Nip44.PaddedLenBounds | scripts/contextvm/nip44_gw.py:80-85 | the padded length covers the text, is a multiple of 32 and exceeds it by less than 32 or less than a quarter |
| Nip44.PaddedLenMonotone | scripts/contextvm/nip44_gw.py:80-85 | longer texts never get shorter paddings |
| Nip44.PaddedLenFixed | scripts/contextvm/nip44_gw.py:80-85 | a padded length is its own padded length |
| Nip44.HkdfExpand | scripts/contextvm/nip44_gw.py:50-57 | the loop yields the expansion of section 2.3 of RFC 5869, of exactly the asked length, and fails exactly beyond 255 blocks |
| Nip44.HkdfBlockAt | scripts/contextvm/nip44_gw.py:50-57 | every block of the expansion is the HMAC of the block before it, the info and its number |
| Nip44.Chacha20Twice | scripts/contextvm/nip44_gw.py:68-75 | applying the cipher twice gives the data back |
| Nip44.XorByteTwice | scripts/contextvm/nip44_gw.py:68-75 | so does exclusive-or on a byte, computed bit by bit |
| Nip44.XorBitsAt | scripts/contextvm/nip44_gw.py:68-75 | the cipher's combination is exclusive or, bit by bit |
| Nip44.PayloadHidesLength | scripts/contextvm/nip44_gw.py:124-132 | the payload's size depends on the text only through its padded length |

## Left out

- SHA-256, HMAC, the ChaCha20 keystream, AES-GCM, JSON and CBOR are function parameters; hypotheses name their digest length, keystream length or round trip where needed. Collision resistance and forgery are not modelled.
- AuthCleanup.CleanupInvisible: race freedom is sufficient, not necessary, for a single given run; the exact condition is stated for all continuations together, in CleanupInvisibleIff.
- AuthCleanupIff.CleanupInvisibleIff: the visible direction supposes that the client of a long-expired record can reconnect bare and can pay with an unspent token.
- AuthSequential.ResumeWithinPaidTime: the code reads the clock twice per resume (once for the check, once for the remainder) and saturates at 292 years; the model reads it once per step and does not saturate.
- AuthConservation.Conservation: the mint is a set of spent secrets with an atomic redeem; a redeem that succeeds at the mint but is reported as failed is outside the run.
- Charger.AutomaticStopsAreFair: float64 is modelled by exact reals, in Ledger.Summarise too; a zero price, where the code's maximum is infinite, is excluded.
- Charger: a CHARGING state loaded from disk has no monitor; runs start from a fresh boot. The fields Since and AllotmentSec, which no decision reads, are omitted.
- OcpiCrash.ReloadRebuildsIff: file writes succeed or the process crashes; a write error that is only logged is not a run. Records are values, so a caller changing a record through its pointer is not captured.
- OcpiCrash.LogSurvivesRestarts: crash-free runs only, which is when memory and disk log agree; LogThroughCrashes covers the disk log in all runs.
- OcpiCrash.LogThroughCrashes: supposes of JSON that a truncated object, or an object after other text on the same line, never parses as an event.
- Ledger.ReadableAfterAppendIff: supposes of JSON that an object parses after blanks and after nothing else.
- ChargerPayments.GrantedAgainstRedeemed: the charger's clock and the pipeline's run independently; CDR contents other than energy and cost of use are not modelled.
- MicroVm.TapsAreExactlyOwned: the system refuses duplicate device names and deleting a device succeeds; VM directories, process signals and sockets are omitted.
- OrderWorker.OrdersOnlyAdvance: polls of one order do not overlap and KV reads see the last write; expiry of the stored order and encryption of its password field (beyond a failed decryption) are omitted.
- Nip44.EncryptDecryptRoundTrip: texts are UTF-8 byte strings; Python's leniency in base64 decoding of foreign payloads and its UTF-8 decoding are omitted.
- WgAllocator.WgManager.LoadState: a state file is absent or a map of peers; a JSON null is not modelled. The remote-server branch, which moves the counter outside the lock, is not part of this model.
- The rate limiter, verify-only redemption, ledger queries other than RevenueSummary, operator registry, CSMS transactions: each is one short function without state shared with the rest.
- HTTP, SSH, WebSocket, vsock, RADIUS and Nostr transport, the dashboards, terminal games, deployment scripts and log texts.
