# Verified model of the ceremony layer, off-site backups, billing and asset totals

This project models, in Dafny 4.11, the parts of the platform where a mistake loses a key, a
backup or money, and proves what each promises over every input, every run or every
interleaving. `dafny verify dfyconfig.toml` checks all of it.

**Threshold keys** (`services/mpc-party`). `PartyState.dfy` is one party process as a state
machine: key generation, refresh, sealing, restore, forgetting, retirement, signing and crashes,
each event one lock-protected step of the code, so that a sequence of events is an interleaving.
`PartyInvariant.dfy` and `PartyTheorems.dfy` prove what every reachable state keeps, for one
party and across parties, `PartySteps.dfy` exactly when each operation succeeds, `PartyRuns.dfy` what
holds over whole runs of a refresh, a restore and a failing key generation, `PartyRetirement.dfy`
exactly when a retired key comes back, `PartyDeals.dfy` exactly when the loaded share is the sealed
one, and `PartyExamples.dfy` has the runs in which a
promise fails. `Committee.dfy` is the identity scheme of the refresh epochs, `SigningCommittee.dfy`
says exactly when a signing committee is accepted, and `PartyManager.dfy` is the same operations as
a class with in-place maps, each method proved against its steps of the state machine. `Relay.dfy`
has the relay's loops and `RelayProtocol.dfy` every run of the N-party relay; `ReshareRouting.dfy` is
the routing of refresh messages between the two local roles. `ShareFiles.dfy` is the share store on
disk.

**Off-site backups** (`services/backup`). `OffsiteFormat.dfy` is the byte format, its reader and
an ideal AEAD with a log of everything sealed; `OffsiteStore.dfy` the writer and reader as loops
over streams; `OffsiteBackup.dfy` the copy and the fetch with their receipts.

**Billing** (`services/billing`). `BillingCalendar.dfy` is Go's calendar arithmetic,
`BillingSweep.dfy` one subscription under overlapping, dying billing runs, `BillingTheorems.dfy`
what such runs keep, `BillingOverlap.dfy` what overlapping runs break and exactly when,
`BillingService.dfy` the run itself over stored rows, and `Collection.dfy`
the collection pass against a payment processor.

**Asset totals** (`services/compliance`). `Decimals.dfy` is the exact decimal printer and parser
and `AssetReporting.dfy` the daily aggregation.

## What turned out false, and exactly when it holds

- A refresh of a key that has been refreshed already cannot run. Line 176 of
  `services/mpc-party/tss_resharing.go` looks this party up by its bare number, which is an
  identity of the first epoch only (`PartyTheorems.RefreshRunsOnlyOnce`). Nothing but the failed
  refresh's own status changes, and no key ever gets past the epoch after its key generation.
- A restore compares only the number of parties with the sealed context. With as many parties,
  this one among them, it always goes through; the identities are the share's if and only if the
  parties are the key's (`PartyTheorems.RestoreChecksOnlyTheCount`). A key of parties 1 and 2
  restores among parties 1 and 3 (`PartyExamples.RestoresAmongOthers`).
- A restore checks that the key is not loaded, and later registers it without checking again.
  Two restores can both pass the check; if a refresh comes between their registrations, the second
  puts the first epoch back in memory while the next one is sealed
  (`PartyExamples.RestoreCanRollBack`, for every key). Over every run a loaded key's epoch never
  falls if and only if no restore registers a key that is loaded at a later epoch
  (`PartyRuns.RollsBackExactly`).
- `services/mpc-party/tss_party.go` drops a retired key from memory so that it cannot go on signing.
  What is under way at the retirement goes on, and for every key each of these brings it back: a
  refresh seals it (`PartyExamples.RetiredKeyCanComeBack`), its key generation seals it
  (`PartyExamples.RunningKeygenOutlivesRetirement`), a restore loads it
  (`PartyExamples.RestoreOutlivesRetirement`). A retired key is sealed again by some later run if and
  only if its key generation was running, a restore had loaded it at its first epoch, or a refresh of
  it was registered at the first epoch, driven or accepted (`PartyRetirement.SealedAgainExactly`). It
  is loaded again if and only if one of these was under way or a restore had loaded it at all
  (`PartyRetirement.LoadedAgainExactly`).
- A key generation whose seal was written but reported as failed marks whatever is under its id as
  failed, also a key restored meanwhile from that seal (`PartyExamples.LateFailureMarksARestoredKey`,
  for every key). Over every run a completed key stays completed while it is loaded if and only if no
  such failure meets it (`PartyRuns.StaysCompletedExactly`).
- Two refreshes of one key at once can leave the share of one in memory and the share of the other
  sealed (`PartyExamples.RefreshesCanCross`, from every state with the key at its first epoch). Over
  runs that do not unload, remove, re-register or fail the key, the two are the same share if and only
  if the refresh that sealed last is the one that installed last (`PartyDeals.LoadedIsSealedExactly`).
- A refresh message reaches all its destinations if and only if it is flagged for both committees or
  for the one they are all of; a destination of the other committee is passed over without an error
  (`ReshareRouting.AllReachedExactly`).
  So is a destination of a key generation or signing message that is no member
  (`Relays.NothingSkippedExactly`).
- `services/billing/schedule.go` says a billing run may run concurrently with itself. However
  runs overlap, no instant is in two invoices (`BillingTheorems.NeverBilledTwice`). But they can
  move a subscription past a period that has no invoice (`BillingOverlap.OverlappingRunsCanSkip`).
  None is ever skipped if and only if each run, before it moves the period on, finds an invoice for
  the period it read (`BillingOverlap.NothingSkippedExactly`).
- Overlapping runs can also invoice a period at its first instant, because the run works out its
  invoice for the period it finds and not the one it read. What is signed afterwards in that period
  is never charged for (`BillingOverlap.OverlappingRunsCanInvoiceEarly`, for every subscription). An
  invoice charges for all the work of its period, over every continuation, if and only if the
  period had ended when it was worked out (`BillingOverlap.ExactForGoodExactly`).
- Neither happens as long as each run still finds the period it read when it works out its invoice
  (`BillingTheorems.SteadyRunsSkipNothing`, `BillingTheorems.EverythingIsBilled`), which runs that
  do not overlap always do (`BillingTheorems.SerialRunsAreCanonical`).
- The same file says a monthly plan is billed on the same date each month. The next date is the
  same day if and only if the next month has that day (`BillingCalendar.SameDayNextMonthExactly`);
  31 January becomes 3 March (`BillingCalendar.EndOfJanuaryRunsOver`). It is the same day in every
  month to come if and only if it is at most the 28th (`BillingCalendar.BillingDayStaysExactly`), and
  for a yearly plan the same date if and only if that is not a 29 February
  (`BillingCalendar.BillingDateStaysExactly`).
- A customer can be charged twice for an invoice: a lagging search with a changed card or an expired
  key allows it, and so does a payment that settles late (`Collections.ChangedCardCanPayTwice`,
  `ExpiredKeyCanPayTwice`, `LateSettlementCanPayTwice`). Whatever becomes of its request, an attempt
  leaves at most one payment per invoice if and only if it can make no new one or the invoice has
  none yet (`Collections.SecondPaymentExactly`), where payments that are still open count too if
  they may settle later (`Collections.LateSettlementExactly`). Over whole runs that is exactly the
  condition on every attempt and settlement (`Collections.NeverPaidTwiceExactly`,
  `Collections.OnceForGoodExactly`).
- A running total is read back exactly at other decimals if and only if it has no more digits
  after its point than those (`Decimals.ReadExactly`): one and a half, with one more added at no
  decimals, becomes sixteen (`Decimals.FinerTotalIsMisread`). Over a day's transfers, at whatever
  decimals, a total is exact after each of them if and only if each finds a total with no more digits
  after its point than it has decimals (`AssetReporting.ExactThroughoutExactly`).

## Assumptions

- Party ids are in 1..999,999, ceremony ids are not reused, and a refresh or a restore is given
  the party ids of the key generation, unless a member says otherwise.
- The AEAD is ideal (the interface of RFC 5116): it opens exactly what was sealed. Nonce prefixes
  and nonces, drawn at random, do not repeat (section 8 of NIST SP 800-38D asks for that). The
  digest of a backup file is collision-free where a member says so.
- tss-lib is any party that emits messages and at some point a result. A share is a value that
  carries the identities it was dealt to and the refresh that dealt it; no step of the model reads them.
- A key generation that derives an address derives one that is not empty.
- Public keys are written in hexadecimal, so ignoring letter case is a matter of A to Z.
- Registering a refresh and checking that it is new are one step.
- A subscription's plan does not change, and its two first instants are read from one clock tick.
- When an invoice is worked out, the work of its period that is older than that moment is on
  record with its final status. Later work is recorded whatever has been invoiced.

## Model

| member | source | states |
|---|---|---|
| `Committees.KeyNamesNodeAndEpoch` | services/mpc-party/tss_resharing.go:653-690 | an identity key names one node and one epoch, and equals a bare party number at epoch 0 only |
| `Committees.NumbersToldApartExactly` | services/mpc-party/tss_resharing.go:641-690 | a party number can be told from the epoch at every epoch if and only if it is in 1..999,999 |
| `Committees.IncreasingUnique` | services/mpc-party/tss_resharing.go:658-669 | a sorted list of identities is determined by its members, so map order cannot matter |
| `Committees.CommitteePartyIDs` | services/mpc-party/tss_resharing.go:658-669 | going round a map in any order and sorting gives the one sorted list of the members' identities |
| `Committees.FindByKey` | services/mpc-party/tss_resharing.go:673-680 | the look-up finds the identity's position if and only if it is a member |
| `Committees.FindByNode` | services/mpc-party/tss_resharing.go:694-701 | the look-up finds a position of the node, and finds none only if no member is that node's |
| `Committees.MembersAreKeys` | services/mpc-party/tss_resharing.go:641-690 | a committee's identities are exactly its parties' keys at its epoch |
| `Committees.LookupsAgree` | services/mpc-party/tss_resharing.go:673-701 | by key and by node find the same member at every epoch; by bare number agrees with them at epoch 0 only |
| `Committees.EpochsAreDisjoint` | services/mpc-party/tss_resharing.go:641-655 | committees of different epochs share no identity |
| `Committees.CommitteeSize` | services/mpc-party/tss_party.go:132-138 | a committee has as many identities as it has parties |
| `SigningCommittees.SelectedIsCommittee` | services/mpc-party/tss_signing.go:132-146 | selecting wanted parties out of a key's committee gives those parties' committee at the same epoch |
| `SigningCommittees.SigningAcceptedExactly` | services/mpc-party/tss_signing.go:75-154 | signing is accepted if and only if the key is completed with its share, the length suits the curve and the list is threshold+1 distinct parties of the key with this one; the session then has that share, epoch, committee and own index |
| `SigningCommittees.SameCommitteeEverywhere` | services/mpc-party/tss_signing.go:112-154 | parties given the same members at the same epoch, in any order, derive one committee, and their indices differ just when they do |
| `SigningCommittees.MajoritiesMeet` | services/mpc-party/tss_party.go:190-192 | two committees of threshold+1 under the majority rule share a party |
| `SigningCommittees.MajorityRuleExactly` | services/mpc-party/tss_party.go:190-192 | the threshold passes the rule if and only if any two signing committees of the parties have one in common |
| `PartyInvariants.StepKeeps` | services/mpc-party/tss_resharing.go:420-524 | every event of a party keeps the invariant that ties shares, identities, epochs, records and sessions together |
| `PartySteps.KeygenCompletesExactly` | services/mpc-party/tss_party.go:434-486 | a running key generation is completed, with its share, key and address and a flag saying whether it was sealed, if and only if they can be derived and sealing is not reported to have failed; otherwise it has failed |
| `PartySteps.KeygenSealsExactly` | services/mpc-party/tss_party.go:459-467 | afterwards its share is in the store, with threshold, parties, curve, epoch, public key and address, if and only if a store was written to |
| `PartySteps.RefreshStartsExactly` | services/mpc-party/tss_resharing.go:101-161 | a new refresh is registered if and only if the key is completed with its share and this party is among the peers; it is of the committees of the key's epoch and the next |
| `PartySteps.RefreshDrivenExactly` | services/mpc-party/tss_resharing.go:163-259 | it is driven if and only if this party's bare number is in the old committee, its key in the new one, and the share is of the same curve |
| `PartySteps.RefreshAcceptedExactly` | services/mpc-party/tss_resharing.go:420-442 | in every reachable state a result is accepted if and only if it is of the public key the key generation made, whatever its default address |
| `PartySteps.EqualFoldExactly` | services/mpc-party/tss_resharing.go:762-766 | two public keys are taken for the same if and only if they differ at most in the case of letters |
| `PartySteps.RestoredExactly` | services/mpc-party/tss_resharing.go:725-791 | any record is restored if and only if it has a context, the endpoints are as many as its parties with this one, and the share is of the public key the context names or, where it names none, has the address it names |
| `PartySteps.LoadedIsNotRestored` | services/mpc-party/tss_resharing.go:718-723 | a restore of a key that is loaded changes nothing |
| `PartyTheorems.SessionsAreCoherent` | services/mpc-party/tss_signing.go:87-154 | in every reachable state a session's identities are of the share's own committee and epoch, its share is of the key the key generation made, and it is at its own identity |
| `PartyTheorems.LoadedKeysAreCoherent` | services/mpc-party/tss_resharing.go:494-506 | in every reachable state a completed key's share, identities, epoch, threshold, parties and public key belong together |
| `PartyTheorems.RefreshRunsOnlyOnce` | services/mpc-party/tss_resharing.go:163-182 | a registered refresh is driven if and only if the key was at its first epoch; otherwise only its own status changes |
| `PartyTheorems.EpochsStayBelowTwo` | services/mpc-party/tss_resharing.go:176-181 | no key, loaded or sealed, is ever past epoch 1 |
| `PartyTheorems.KeysMoveOnlyByRefresh` | services/mpc-party/tss_resharing.go:487-510 | every step leaves a loaded key as it is, is the last step of a refresh of it, to the epoch after that of the share the refresh started from, registers what a restore had loaded, or marks it failed; each time it is the same public key, address, threshold, curve and parties, with the share and identities of its epoch, and it stays completed if and only if the step is not a key generation's failure that meets it |
| `PartyTheorems.KeysNeverChange` | services/mpc-party/tss_resharing.go:430-447 | over any run the public key and the address a key generation made stay the key's |
| `PartyTheorems.KeygenSealRestores` | services/mpc-party/tss_party.go:434-479 | restoring what a key generation sealed, at any endpoints of the same parties, gives the ceremony that was completed |
| `PartyTheorems.RefreshSealRestores` | services/mpc-party/tss_resharing.go:470-506 | in every reachable state, restoring what a refresh seals gives the key as the refresh leaves it in memory, address included |
| `PartyTheorems.CrashedKeysAreRestorable` | services/mpc-party/tss_resharing.go:717-800 | after losing the process in any reachable state every sealed key restores, with the share, epoch, identities, threshold and curve of the last seal written and the public key and address its key generation made |
| `PartyTheorems.RestoreChecksOnlyTheCount` | services/mpc-party/tss_resharing.go:734-791 | a restore with as many parties goes through, and rebuilds the share's identities if and only if they are the key's parties |
| `PartyTheorems.AcceptedCommitteesMeet` | services/mpc-party/tss_signing.go:112-149 | any two committees ever accepted for a key, at any two parties and times, share a party |
| `PartyRuns.RunProgress` | services/mpc-party/tss_resharing.go:412-524 | over any run a refresh keeps the key, epochs, share and address it started with and only moves forward; one that failed or was installed never changes again |
| `PartyRuns.RefreshOverARun` | services/mpc-party/tss_resharing.go:101-161 | from its start through any run, other refreshes of the key included, each step of a refresh leaves every loaded and sealed key alone, or seals or installs a share of the same public key at the epoch after the one the key was at when it started; once failed or installed its steps do nothing |
| `PartyRuns.FallsExactly` | services/mpc-party/tss_resharing.go:793-795 | a step lowers the epoch of a key that stays loaded if and only if it is a restore registering a key that is loaded at a later epoch |
| `PartyRuns.RollsBackExactly` | services/mpc-party/tss_resharing.go:717-800 | over every run a loaded key's epoch never falls if and only if no restore does that |
| `PartyRuns.BreaksExactly` | services/mpc-party/tss_party.go:419-432 | a step takes a completed key out of that status if and only if it is the failure of its key generation's sealing |
| `PartyRuns.StaysCompletedExactly` | services/mpc-party/tss_party.go:459-470 | over every run a completed key stays completed while it is loaded if and only if no such failure meets it |
| `PartyRetirement.SealedAgainExactly` | services/mpc-party/tss_handlers.go:485-514 | a retired key is sealed again by some later run if and only if its key generation was running, a restore had loaded it at its first epoch, or a refresh of it was registered at the first epoch, driven or accepted |
| `PartyRetirement.LoadedAgainExactly` | services/mpc-party/tss_party.go:595-610 | a retired key is loaded and completed again by some later run if and only if its key generation was running, a restore had loaded it at any epoch, or such a refresh was under way |
| `PartyDeals.LoadedIsSealedExactly` | services/mpc-party/tss_resharing.go:449-506 | with any number of refreshes of a key under way, while it is not unloaded, removed, re-registered or failed, the loaded share is the sealed one if and only if the refresh that last sealed is the one that last installed |
| `PartyExamples.RestoreCanRollBack` | services/mpc-party/tss_resharing.go:718-723 | for every key there is a run in which two restores and a refresh leave it at its first epoch in memory and at the next one where it is sealed |
| `PartyExamples.RetiredKeyCanComeBack` | services/mpc-party/tss_handlers.go:498-499 | for every key there is a run in which it is retired during a refresh and sealed again afterwards, in a record that restores it |
| `PartyExamples.RunningKeygenOutlivesRetirement` | services/mpc-party/tss_handlers.go:498-499 | for every key: retired while its key generation runs, and no refresh at all, it is sealed by that key generation |
| `PartyExamples.RestoreOutlivesRetirement` | services/mpc-party/tss_resharing.go:793-795 | for every key: retired while a restore of it is under way, it is loaded and completed once the restore registers it |
| `PartyExamples.LateFailureMarksARestoredKey` | services/mpc-party/tss_party.go:419-432 | for every key there is a run in which it is sealed, forgotten, restored and completed, and the late failure of its key generation marks it failed |
| `PartyExamples.RefreshesCanCross` | services/mpc-party/tss_resharing.go:449-506 | from every reachable state with a key loaded at its first epoch, two refreshes of it can end with the share of one loaded and the share of the other sealed |
| `PartyExamples.RestoresAmongOthers` | services/mpc-party/tss_resharing.go:734-791 | a key of parties 1 and 2 restores among parties 1 and 3, with identities that are not its share's |
| `PartyManagers.SortPartyIDs` | services/mpc-party/tss_signing.go:146 | sorting reorders the given objects by key and writes index i into the i-th |
| `PartyManagers.SelectCommittee` | services/mpc-party/tss_signing.go:128-146 | the committee consists of new objects in the selected order, numbered from 0, and no existing identity object is changed |
| `PartyManagers.Wanted` | services/mpc-party/tss_signing.go:116-126 | the set built from the list is its elements, and the flag says whether this party is one |
| `PartyManagers.TSSPartyManager.StartKeygen` | services/mpc-party/tss_party.go:178-231 | registers the ceremony if and only if this party is a peer and, of two parties or more, threshold+1 is more than half |
| `PartyManagers.TSSPartyManager.FailCeremony` | services/mpc-party/tss_party.go:419-432 | marks whatever ceremony the map has under the id failed and changes nothing else |
| `PartyManagers.TSSPartyManager.SealCeremony` | services/mpc-party/tss_party.go:434-470 | seals the share, or settles on failure when the public key cannot be derived or sealing fails, with or without a record written |
| `PartyManagers.TSSPartyManager.CompleteCeremony` | services/mpc-party/tss_party.go:434-486 | seals, then installs share, public key and address; any failure fails the ceremony instead, also one reported after the record was written |
| `PartyManagers.TSSPartyManager.StartResharing` | services/mpc-party/tss_resharing.go:101-161 | registers a refresh of a completed key at the next epoch, or changes nothing |
| `PartyManagers.TSSPartyManager.RunResharing` | services/mpc-party/tss_resharing.go:163-259 | drives the refresh, or fails it when an identity of its own cannot be found or the curve differs |
| `PartyManagers.TSSPartyManager.CompleteResharing` | services/mpc-party/tss_resharing.go:420-510 | a share of another public key fails the refresh; one of the same key is sealed and installed with the new identities and epoch |
| `PartyManagers.TSSPartyManager.RestoreCeremony` | services/mpc-party/tss_resharing.go:717-800 | loads a sealed key that is not held, or changes nothing, on each check the code makes |
| `PartyManagers.TSSPartyManager.Rebuild` | services/mpc-party/tss_resharing.go:725-791 | rebuilds the ceremony a record holds, with the public keys compared whatever their letter case, or refuses |
| `PartyManagers.TSSPartyManager.Forget` | services/mpc-party/tss_party.go:598-610 | drops the ceremony and says whether it was held |
| `PartyManagers.TSSPartyManager.StartSigning` | services/mpc-party/tss_signing.go:75-170 | selecting from the key's identity objects, registers exactly the session the specification accepts, or changes nothing; the identity objects are as they were |
| `Relays.ResolvedNames` | services/mpc-party/tss_party.go:383-391 | the targets of a direct message are the members whose identities it is to, once each if its destinations are distinct |
| `Relays.NothingSkippedExactly` | services/mpc-party/tss_party.go:383-391 | no destination is passed over if and only if all are members |
| `Relays.ResolvedInOrder` | services/mpc-party/tss_party.go:383-391 | the members a message is to are targets in the order it names them |
| `Relays.RoutesReachExactly` | services/mpc-party/tss_party.go:375-391 | any target list, in any map order, names exactly the parties a message is for |
| `Relays.PeerIndexByKey` | services/mpc-party/tss_party.go:407-417 | maps each party of the group, and no other, to its identity at the group's epoch |
| `Relays.RelayTSSMessage` | services/mpc-party/tss_party.go:375-403 | posts to all targets in order, or to those before the first that cannot be reached; succeeds if and only if everyone the message is for can be, and has then posted to all peers but itself, or to exactly the peers whose identities it is to |
| `Relays.PostTSSEnvelope` | services/mpc-party/tss_handlers.go:53-79 | succeeds if and only if the last answer is 200, after only 503s, gives up on a 503 only past the deadline, and makes at most 1441 attempts |
| `Relays.RelayPending` | services/mpc-party/tss_flush.go:22-33 | relays the whole queue in order, or up to and including the first message that fails |
| `RelayProtocol.ApplyKeeps` | services/mpc-party/tss_party.go:290-349 | every event of any party keeps the relay invariant: what each driver knows is exactly what has been taken in |
| `RelayProtocol.NotReadyIsRetried` | services/mpc-party/tss_handlers.go:53-79 | a receiver that has not published takes nothing in, and the message is offered again unless the connection is lost or the sender gives up |
| `RelayProtocol.PostedExactly` | services/mpc-party/tss_party.go:393-402 | a published receiver takes the message in if and only if the request arrives and is not refused, and the sender goes on if and only if it is told so |
| `RelayProtocol.CompletedMeansDelivered` | services/mpc-party/tss_flush.go:22-33 | in every reachable state a completed driver has had every message emitted before its result taken in exactly once by each party it was for, and by no one else |
| `RelayProtocol.NeverTwice` | services/mpc-party/tss_party.go:393-402 | in every reachable state, failed drivers included, no one has taken a message in twice or one not for them |
| `RelayProtocol.NothingBeforeStart` | services/mpc-party/tss_party.go:290-307 | whenever a message is taken in, the receiver had been started and published, and the sender's driver was relaying |
| `RelayProtocol.ResultLeadsToCompletion` | services/mpc-party/tss_signing.go:236-279 | with all parties published, a driver with its result can always reach completion by its own steps, however much is queued |
| `RelayProtocol.ResultCanOvertakeAMessage` | services/mpc-party/tss_flush.go:7-21 | for every message there is a run in which the result is ready while the message is still queued |
| `ReshareRouting.RelayReshareMessage` | services/mpc-party/tss_resharing.go:328-410 | sends the deliveries the flags and epochs call for, up to the first destination with an error, and reports that error; succeeds if and only if there is a destination and none has an error |
| `ReshareRouting.AgreesExactly` | services/mpc-party/tss_resharing.go:386-408 | a message goes to a member if and only if it is flagged for both committees, or for the old or the new one and the member is of that one |
| `ReshareRouting.ReachesOneExactly` | services/mpc-party/tss_resharing.go:386-408 | so a message to one member reaches it, in the role that holds the identity, or nobody |
| `ReshareRouting.MemberErrorExactly` | services/mpc-party/tss_resharing.go:355-408 | a member makes the relay fail if and only if the message is for it and it is on another node that cannot be posted to |
| `ReshareRouting.UnrecognisedExactly` | services/mpc-party/tss_resharing.go:389-395 | an identity is reported as unrecognised if and only if its key is not positive, whatever the flags |
| `ReshareRouting.ReachesTheAddressees` | services/mpc-party/tss_resharing.go:386-408 | each delivery reaches the local role holding the identity addressed; those left out are exactly those of a committee the message is not flagged for |
| `ReshareRouting.AllReachedExactly` | services/mpc-party/tss_resharing.go:386-408 | every destination gets the message once, in its own role and in order, if and only if the message is flagged for both committees or for the one all its destinations are of |
| `ReshareRouting.HandledAsAddressed` | services/mpc-party/tss_resharing.go:528-577 | at the receiver a delivery's bytes are fed to the identity addressed as from the identity that sent them, or answered not ready if nothing is published |
| `ReshareRouting.HandledExactly` | services/mpc-party/tss_resharing.go:528-577 | any envelope is answered not ready if and only if nothing is published, refused if and only if its sender is none of the key's parties, and otherwise fed to the role it names as from the role it names |
| `ReshareRouting.FedOnlyOnceStarted` | services/mpc-party/tss_resharing.go:261-282 | over any start-up, a message is fed only once both local parties have been started |
| `ReshareRouting.SelfDeliveryIsNeverNotReady` | services/mpc-party/tss_resharing.go:364-375 | a message to the node itself, however late it is handed over, is fed and never answered not ready |
| `ShareFiles.AadInjective` | services/mpc-party/file_seal.go:101-103 | no two party and ceremony pairs have the same associated data |
| `ShareFiles.PathInjective` | services/mpc-party/file_seal.go:92-99 | no two pairs have the same file |
| `ShareFiles.StaysInItsFolderExactly` | services/mpc-party/file_seal.go:92-99 | a ceremony id is accepted if and only if it is a name and its file is a plain name right in its party's folder |
| `ShareFiles.LoadsOnlyVersionOne` | services/mpc-party/file_seal.go:184-204 | nothing loads for an id that is no name, or from a file of another version |
| `ShareFiles.TempIsNoShare` | services/mpc-party/file_seal.go:156-165 | no temporary file is at the path of a share |
| `ShareFiles.LoadsOnlyItsOwn` | services/mpc-party/file_seal.go:184-228 | whatever files there are and wherever they lie, what loads for a pair was sealed for that pair |
| `ShareFiles.MovedFileDoesNotLoad` | services/mpc-party/file_seal.go:184-228 | another pair's file put in place does not load |
| `ShareFiles.ShareStore.Load` | services/mpc-party/file_seal.go:184-228 | returns what the store holds for the pair |
| `ShareFiles.ShareStore.Replace` | services/mpc-party/file_seal.go:156-181 | puts the whole file in place or, stopped at any step, leaves what was there |
| `ShareFiles.ShareStore.Seal` | services/mpc-party/file_seal.go:113-182 | when it succeeds the pair loads the new value; stopped anywhere it loads the old one; every other pair loads what it did |
| `ShareFiles.ShareStore.Retire` | services/mpc-party/file_seal.go:233-251 | once it succeeds the file is gone; stopped anywhere the zeros written so far are over its beginning, and the pair loads nothing, or the old share if nothing was overwritten; every other pair loads what it did |
| `OffsiteFormat.BE32Inverse` | services/backup/offsite.go:237-278 | reading a length and writing it again gives the same four bytes |
| `OffsiteFormat.HighestByteFirst` | services/backup/offsite.go:110-124 | lengths and counters are written with the highest byte first |
| `OffsiteFormat.NonceInjective` | services/backup/offsite.go:110-115 | a nonce determines its prefix and counter |
| `OffsiteFormat.ChunksOfFile` | services/backup/offsite.go:162-199 | the chunks of any file, the empty one and exact multiples included, join to the file and fit the chunk size |
| `OffsiteFormat.SealNext` | services/backup/offsite.go:171-190 | sealing the next chunk of a run keeps the history exact and overwrites nothing sealed |
| `OffsiteFormat.DecryptsExactlyCompleteRuns` | services/backup/offsite.go:237-278 | the reader yields a file if and only if the stream is the complete output of one earlier run on that file |
| `OffsiteFormat.OneStreamPerHeader` | services/backup/offsite.go:237-278 | of all streams with one header at most one is accepted, so no truncation, extension, reordering or mixture is |
| `OffsiteFormat.TruncationIsReported` | services/backup/offsite.go:237-278 | a complete output cut short anywhere is reported as truncated, or as having no header if the cut is in the first 16 bytes |
| `OffsiteFormat.ExtensionIsReported` | services/backup/offsite.go:237-278 | one with anything after it is reported as having data after the last chunk |
| `OffsiteFormat.StreamLayout` | services/backup/offsite.go:162-199 | an object is the magic, the prefix, and 20 bytes for each chunk beside the file's own |
| `OffsiteFormat.NoncesNeverRepeat` | services/backup/offsite.go:162-199 | nothing is ever sealed twice under one nonce, within a run or across runs |
| `OffsiteFormat.ChunkCount` | services/backup/offsite.go:162-199 | how many chunks a file of a given length has |
| `OffsiteStores.ChunkNonce` | services/backup/offsite.go:110-115 | the twelve bytes written are the prefix and the counter, highest byte first |
| `OffsiteStores.ChunkAad` | services/backup/offsite.go:117-124 | the five bytes written are the counter, highest byte first, and 1 for the last chunk or 0 |
| `OffsiteStores.ReadChunks` | services/backup/offsite.go:237-278 | the reading loop ends on every stream and gives what the format's definition does, errors included |
| `OffsiteStores.OffsiteStore.Encrypt` | services/backup/offsite.go:162-199 | succeeds if and only if there are at most 2^32 chunks and no operation fails, writing the complete output; otherwise it has written a prefix; the history records exactly what was sealed |
| `OffsiteStores.OffsiteStore.Decrypt` | services/backup/offsite.go:237-278 | succeeds if and only if the stream is the complete output of an earlier run, and then yields its file |
| `OffsiteStores.OffsiteStore.Put` | services/backup/offsite.go:127-150 | succeeds if and only if the store takes the upload, the file fits the counter and no operation fails; the object is then the file's encryption and the receipt its digest and size; on failure the object is as it was, or is what the upload left behind, which is fetched as the file or not at all; no other object changes and the history gains this one run |
| `OffsiteStores.OffsiteStore.PrefixFetches` | services/backup/offsite.go:237-278 | any beginning of a file's encryption, however far that run got, is read as the file or not at all |
| `OffsiteStores.OffsiteStore.Get` | services/backup/offsite.go:205-235 | yields the file exactly when the object exists, is accepted and has the wanted checksum |
| `OffsiteStores.OffsiteStore.HoldsFetched` | services/backup/offsite.go:205-235 | an object that holds a file is fetched as that file, with no checksum or its own |
| `OffsiteBackup.BackupManager.CopyOffsite` | services/backup/backup_manager.go:193-222 | succeeds if and only if all four uploads go through, the last one of the record of the three; the files are then fetched again as they were, with or without checksums from the caller; and if this backup had no checksum record before, a fetch that succeeds yields those files whatever the bucket is made to hold |
| `OffsiteBackup.BackupManager.PutChecksums` | services/backup/offsite_checksums.go:48-67 | succeeds if and only if the upload goes through, and stores the record beside the files and leaves the files; a first record of a backup is then its only one |
| `OffsiteBackup.BackupManager.GetChecksums` | services/backup/offsite_checksums.go:72-99 | yields a record exactly when one decrypts, is for this backup and covers every file |
| `OffsiteBackup.BackupManager.FetchOffsite` | services/backup/backup_manager.go:228-265 | yields exactly the files that pass their checks, and nothing when any is missing, altered or cannot be checked; either way every file on disk is as it was or has passed its check, and those yielded are in place |
| `OffsiteBackup.FetchExactly` | services/backup/backup_manager.go:228-265 | a fetch yields three files if and only if each is fetched with the caller's checksum where there is one and with the stored one where not, a record being needed just for those |
| `OffsiteBackup.CallersChecksumWins` | services/backup/backup_manager.go:234-254 | whatever is stored, a file the caller gave a checksum for is yielded only with that checksum |
| `OffsiteBackup.StoredCovers` | services/backup/offsite_checksums.go:72-99 | a stored record that is used is for this backup and has a checksum for each of the three files |
| `OffsiteBackup.CopyFetches` | services/backup/backup_manager.go:228-265 | files and receipts in place are fetched as the same three files |
| `OffsiteBackup.OnlyRecordStays` | services/backup/offsite_checksums.go:48-67 | encrypting anything that is no record of the backup leaves its record the only one |
| `OffsiteBackup.FetchYieldsOnlyTheBackup` | services/backup/backup_manager.go:228-265 | whatever objects are in the bucket, a fetch that succeeds yields the backup its record is of |
| `OffsiteBackup.FetchYieldsWhatTheCallerNamed` | services/backup/backup_manager.go:228-265 | with three checksums from the caller a fetch that succeeds yields the files with those checksums, whatever is stored |
| `BillingCalendar.DateOf` | services/billing/schedule.go:115-120 | counting off years and months gives the date of a day number |
| `BillingCalendar.YearStartIs` | services/billing/schedule.go:115-120 | the day number of a year's start counts every fourth year, less every hundredth, plus every four hundredth as leap |
| `BillingCalendar.FourCenturies` | services/billing/schedule.go:115-120 | 400 years have 146,097 days |
| `BillingCalendar.MonthLengths` | services/billing/schedule.go:115-120 | each month has its days, and leap years are as in the Gregorian calendar |
| `BillingCalendar.InstantsInOrder` | services/billing/schedule.go:60-69 | instants are in one strict order, by day and then by time |
| `BillingCalendar.PeriodEnd` | services/billing/schedule.go:115-120 | computes the next period end |
| `BillingCalendar.MonthlyLength` | services/billing/schedule.go:106-120 | a monthly period is as long as the month it starts in, whatever the day |
| `BillingCalendar.YearlyLength` | services/billing/schedule.go:115-120 | a yearly period has 366 days exactly when it contains a 29 February |
| `BillingCalendar.PeriodsAdvance` | services/billing/schedule.go:115-120 | a period always ends after it starts |
| `BillingCalendar.SameDayNextMonthExactly` | services/billing/schedule.go:106-120 | the next date is the same day if and only if the next month has it; otherwise it runs over by the days missing |
| `BillingCalendar.EndOfJanuaryRunsOver` | services/billing/schedule.go:106-120 | in an ordinary year a monthly period from 31 January ends on 3 March |
| `BillingCalendar.SameDateNextYearExactly` | services/billing/schedule.go:115-120 | the next yearly date is the same date if and only if it is not a 29 February, which becomes 1 March |
| `BillingCalendar.BillingDayStays` | services/billing/schedule.go:106-120 | a billing day up to the 28th is the same in every later month |
| `BillingCalendar.BillingDayStaysExactly` | services/billing/schedule.go:106-120 | a monthly billing day is the same in every month to come if and only if it is at most the 28th |
| `BillingCalendar.BillingDateStaysExactly` | services/billing/schedule.go:115-120 | a yearly billing date is the same in every year to come if and only if it is not a 29 February |
| `BillingSweep.CountUsageIs` | services/billing/usage.go:54-85 | the usage of a period is how many signatures, and how many keys, that count were created from its start up to but not including its end |
| `BillingSweep.CountWork` | services/billing/usage.go:54-85 | the loop over the work gives those two numbers |
| `BillingSweep.OverageIs` | services/billing/usage.go:210-236 | nothing is charged within the allowance or without a rate, and each further unit costs the rate |
| `BillingSweep.ChargeIs` | services/billing/usage.go:204-247 | an invoice is the price and the units beyond each allowance at that kind's own rate |
| `BillingSweep.InvoiceLineItems` | services/billing/usage.go:204-238 | the base price, then a line for each kind that is over its own limit and has a rate, of the usage minus that limit at that rate; the lines add up to the charge |
| `BillingSweep.TotalOf` | services/billing/usage.go:241-247 | the sum of the lines |
| `BillingSweep.PeriodsDisjoint` | services/billing/schedule.go:172-180 | no two periods of a subscription share an instant |
| `BillingSweep.PeriodsFollowTheCycle` | services/billing/schedule.go:172-180 | a subscription's first period is a month, and each later one follows at once and is one cycle of its plan long |
| `BillingTheorems.NeverBilledTwice` | services/billing/usage.go:143-195 | however runs overlap and die, no instant is in two invoices and none charges for work that was not done; one worked out after its period ended charges for exactly that period's work |
| `BillingTheorems.SteadyRunsSkipNothing` | services/billing/schedule.go:122-138 | if each run finds the period it read when it works out its invoice, the periods are one gapless chain, each one moved past is invoiced, and only periods that are over are |
| `BillingTheorems.EverythingIsBilled` | services/billing/usage.go:54-85 | the usage on the invoices adds up to all the work between the first period's start and the current one's |
| `BillingTheorems.BilledExactlyOnce` | services/billing/usage.go:160-195 | each piece of work in that span is in the period of exactly one invoice |
| `BillingTheorems.SerialRunsAreCanonical` | services/billing/schedule.go:140-201 | runs that do not overlap leave exactly one invoice for each period moved past and at most one for the current one |
| `BillingTheorems.EveryShapeIsReached` | services/billing/schedule.go:172-186 | every such state, for every number of periods, comes about |
| `BillingOverlap.NothingSkippedExactly` | services/billing/schedule.go:173-180 | over every run of overlapping, dying billing runs, every period moved past is invoiced at every point if and only if each run that moves the period on finds an invoice for the period it read |
| `BillingOverlap.SteadyIsGuarded` | services/billing/schedule.go:173-180 | runs that find the period they read when they work out their invoice meet that condition |
| `BillingOverlap.OverlappingRunsCanSkip` | services/billing/schedule.go:122-138 | for every new subscription there are overlapping runs after which a period moved past has no invoice |
| `BillingOverlap.ExactForGoodExactly` | services/billing/usage.go:143-195 | the invoice a run works out charges for all the work of its period over every continuation if and only if the period had ended by then |
| `BillingOverlap.InvoicesStay` | services/billing/usage.go:143-195 | a stored invoice is the one for its period for good |
| `BillingOverlap.OverlappingRunsCanInvoiceEarly` | services/billing/usage.go:143-195 | for every new subscription two overlapping runs lead to an empty invoice of the second period, and a signature made in that period is not charged for, whatever happens later |
| `BillingServices.BillingService.SubscriptionsDueForBilling` | services/billing/schedule.go:60-86 | lists exactly the active subscriptions whose period has ended, once each, longest ended first |
| `BillingServices.BillingService.GenerateInvoice` | services/billing/usage.go:143-195 | returns the stored period's invoice, raising it only if there is none, and changes nothing else |
| `BillingServices.BillingService.RunBilling` | services/billing/schedule.go:140-201 | each due subscription has one turn in order, whatever happens to the others, and the report lists the billed and the failed |
| `BillingServices.AfterAllIs` | services/billing/schedule.go:153-196 | after a run each subscription that had a turn is as its own turn leaves it, and the others are as they were |
| `BillingServices.TurnIs` | services/billing/schedule.go:153-186 | a turn raises the invoice of the stored period if there is none, over that period's work, keeps the invoices there were, and moves on by one cycle only if nothing failed |
| `BillingServices.ReportsEach` | services/billing/schedule.go:153-196 | the report has each subscription that had a turn once: as failed if and only if something went wrong, and otherwise as billed with its period and the amount of that period's invoice |
| `BillingServices.LinesInOrder` | services/billing/schedule.go:153-196 | the lines are in the order of the turns |
| `BillingServices.FailuresInOrder` | services/billing/schedule.go:153-196 | so are the failures |
| `BillingServices.TurnIsSerial` | services/billing/schedule.go:153-196 | a turn, complete or cut short, is a non-overlapping sequence of the events the billing theorems are about |
| `Collections.PaidOnlyIfCollected` | services/billing/usage.go:351-373 | over any attempts, lag, expiry and late settlement, an invoice is marked paid only if a succeeded payment for it exists |
| `Collections.MarkedExactly` | services/billing/collect.go:284-316 | an unpaid invoice is paid after an attempt if and only if marking works and the search found its payment or the request is answered with a succeeded one, now or the first time the key was used; no other invoice changes |
| `Collections.KeysRemember` | services/billing/stripe.go:413-422 | a key's first request fixes its answer, a decline included, and every later one gets that and makes nothing |
| `Collections.SecondPaymentExactly` | services/billing/stripe.go:379-423 | an attempt leaves at most one payment per invoice, whatever becomes of its request, if and only if the invoice is paid, free, found paid, without a card or already requested under this key, or has no success |
| `Collections.SettlementExactly` | services/billing/collect.go:284-316 | a settlement leaves at most one payment per invoice if and only if no other payment of the invoice came before it |
| `Collections.NeverPaidTwiceExactly` | services/billing/stripe.go:379-423 | over any attempts, settlements and expiries there is at most one payment per invoice at every point, whatever becomes of each request, if and only if every attempt and settlement meets those conditions |
| `Collections.SettlingExactly` | services/billing/collect.go:284-316 | however payments settle there is at most one success per invoice if and only if there is at most one payment per invoice, open ones included |
| `Collections.LateSettlementExactly` | services/billing/collect.go:284-316 | with payments settling at any time, an attempt leaves at most one payment per invoice for good if and only if it can make no new one or the invoice has none, open or succeeded |
| `Collections.OnceForGoodExactly` | services/billing/collect.go:215-321 | the same over any sequence of attempts and expiries |
| `Collections.FullSearchNeverPaysTwice` | services/billing/stripe.go:395-402 | if the search shows every success and no payment settles after another of its invoice, there is at most one succeeded payment per invoice, whatever cards and keys |
| `Collections.OnePaymentPerCard` | services/billing/stripe.go:413-422 | while keys live there is at most one payment per invoice and card, however far the search lags |
| `Collections.ChangedCardCanPayTwice` | services/billing/stripe.go:318-327 | a lagging search and a changed card lead to two payments |
| `Collections.ExpiredKeyCanPayTwice` | services/billing/stripe.go:413-422 | a lagging search and an expired key lead to two payments |
| `Collections.LateSettlementCanPayTwice` | services/billing/collect.go:284-316 | a payment left open that settles after another card was charged leads to two payments, with a full search and live keys |
| `Collections.PaymentCollector.Request` | services/billing/stripe.go:413-422 | a request makes one payment, or none if it is declined or never arrives; under a key used before it makes none and gets the first answer again |
| `Collections.PaymentCollector.Charge` | services/billing/stripe.go:379-423 | one attempt does to the processor what the specification says, and nothing when the search errs |
| `Collections.PaymentCollector.CollectOne` | services/billing/collect.go:251-316 | an attempt marks its invoice paid exactly when it has a succeeded payment and marking works; no other invoice changes |
| `Collections.PaymentCollector.CollectItem` | services/billing/collect.go:235-316 | an invoice is skipped if and only if there is no customer, no processor, or neither a payment found nor a card; collected if and only if the attempt is answered with a payment; it is reported as unmarked if and only if that payment succeeded and marking failed |
| `Collections.RepliesStayOk` | services/billing/stripe.go:413-422 | over any run every stored answer is of a payment of its own invoice |
| `Collections.PaymentCollector.CollectPayments` | services/billing/collect.go:215-321 | the pass is its attempts in order; each listed invoice is in one list, skipped, collected or failed, by exactly those conditions in the state its turn finds; a collected one has a payment of its own, and only collected ones change |
| `Decimals.DigitsWrite` | services/compliance/asset_reporting.go:298-302 | the digits of a number are read as that number |
| `Decimals.ParseFormat` | services/compliance/asset_reporting.go:271-324 | for every integer and every number of decimals, reading back the formatted amount gives the amount |
| `Decimals.ReadExactly` | services/compliance/asset_reporting.go:271-294 | a total is read at other decimals as the same quantity if and only if it has no more digits after its point than those |
| `Decimals.FormatUnits` | services/compliance/asset_reporting.go:298-324 | the padding and trimming loops give the specified string for every amount |
| `Decimals.StripDecimalPoint` | services/compliance/asset_reporting.go:282-294 | takes the first point out and fills up with zeros |
| `Decimals.AddDecimal` | services/compliance/asset_reporting.go:271-280 | reads the total, counting an unreadable one as nothing, and writes the sum |
| `Decimals.AddedIs` | services/compliance/asset_reporting.go:271-280 | adding to a written total is adding the amounts |
| `Decimals.AddedExactly` | services/compliance/asset_reporting.go:271-280 | at other decimals the total added to is the same quantity if and only if it has no more digits after its point |
| `Decimals.AddsExactly` | services/compliance/asset_reporting.go:271-280 | read at any number of decimals that suits both, a total added to is the one before plus the amount if and only if the one before has no more digits after its point than the amount has decimals |
| `Decimals.FinerTotalIsMisread` | services/compliance/asset_reporting.go:271-294 | a total of 1.5 with 1 added at no decimals is reported as 16 |
| `AssetReporting.CurrencyIs` | services/compliance/asset_reporting.go:176-226 | a currency is listed if and only if something moved in it, with exactly those transactions in order |
| `AssetReporting.UnvaluedIs` | services/compliance/asset_reporting.go:198-220 | an asset is named as unvalued if and only if a transfer of it could not be valued |
| `AssetReporting.ListedByPegExactly` | services/compliance/asset_reporting.go:191-226 | a currency is listed if and only if a known transfer is of the native coin, priced, with that currency the dollar, or of a token pegged to it |
| `AssetReporting.UnvaluedByPegExactly` | services/compliance/asset_reporting.go:198-220 | an asset is named as unvalued if and only if a known transfer of it is of the native coin without a price or of a token without a peg |
| `AssetReporting.UndecodedExactly` | services/compliance/asset_reporting.go:191-196 | a transaction is listed as undecoded if and only if its amount or its asset is unknown |
| `AssetReporting.ListedInOrder` | services/compliance/asset_reporting.go:191-226 | transactions are listed in the order they come in |
| `AssetReporting.LessIs` | services/compliance/asset_reporting.go:234-241 | names are compared by the first place they differ, a proper beginning coming first |
| `AssetReporting.TotalIsExact` | services/compliance/asset_reporting.go:191-226 | with consistent decimals each asset's total is the exact sum of its amounts, and assets that did not move have none |
| `AssetReporting.ExactThroughoutExactly` | services/compliance/asset_reporting.go:191-226 | at mixed decimals, an asset's total is the quantity moved after each transfer if and only if each transfer finds a total with no more digits after its point than it has decimals |
| `AssetReporting.TotalInAnyOrder` | services/compliance/asset_reporting.go:191-226 | the totals do not depend on the order of the transfers |
| `AssetReporting.ListedOnce` | services/compliance/asset_reporting.go:191-226 | every transfer is listed exactly once at its own place and nowhere else |
| `AssetReporting.SortNames` | services/compliance/asset_reporting.go:234-241 | whatever order the map gives, the names come out sorted and without repeats |
| `AssetReporting.Book` | services/compliance/asset_reporting.go:191-226 | the loop over the transfers gives the specified books |
| `AssetReporting.AggregateByCurrency` | services/compliance/asset_reporting.go:168-244 | the undecoded list and its count, one line per currency in order with its transactions, and the unvalued names in order, each exactly |

## Left out

- tss-lib's protocols, curves, Paillier parameters and address derivation are foreign cryptography.
- HTTP, mTLS, certificates, Vault, S3, Postgres and JSON are stores, channels and codecs here.
- Wall-clock times of retries beyond the six-minute deadline; a timeout is a step that may happen.
- Encoding a finished signature (`completeSigning`) and status queries only copy fields.
- int64 overflow of epoch times one million: epochs never get past one.
- Overwriting an existing ceremony by reusing its id.
- Restore-side write errors and the cleaning of object paths in the off-site store.
- Sealed records without a context, from before contexts were stored: a restore refuses them.
- Channel capacity: the out channel never refuses a message here.
- Cancelling a subscription, changing its plan and operator-requested invoices in mid-period.
- Currencies, due dates and payment terms of invoices; charges recorded for audit.
- Float totals, thresholds and narratives of the compliance report; negative decimal counts, on which the formatter panics.
- Policy, sanctions, incident, monitoring, disaster-recovery and signer services.
- ShareFiles.ShareStore.Seal: the sealing key file's checks and the JSON of the payload are not modelled.
- Collections.PaymentCollector.CollectPayments: the limit and order of the unpaid list are the caller's.
- AssetReporting.AggregateByCurrency: float totals and thresholds are not part of a line.
