# Identity verification: a verified model

This project models the parts of the identity-verification (KYC) packages where behaviour spans several
steps, several calls or several callers, and proves what those parts promise.

**The session write path** (`SessionTypes`, `SessionPick`, `WritePath`, `AuditTrail`, `MemoryStore`,
`ServiceSpec`, `VerificationService`, `ServiceCalls`, `ServiceRuns`, `ServiceDriver`, `Redelivery`). A
verification session is a row; every change of its status goes through one transaction: an optional
conditional binding to a provider applicant, a conditional status write whose guard is the terminal rule,
and an audit row. The host's effect is called after the commit. The in-memory store and the service are
classes that update their tables and their list of effect calls in place, with snapshot and rollback, and
with a throw possible at every store call, provider call and effect. Each method is proved to do what a
function of the old state says, the theorems about runs are lemmas on those functions: any calls, in any
order, with any provider answers and any throws; and `ServiceDriver` carries them back to the object.

**The same path on Postgres** (`KnexStore`, `KnexProofs`, `KnexRefusals`, `KnexRouting`, `KnexAlone`). A
step system: any number of calls, interleaved statement by statement over committed tables and per-row
locks; a webhook's routing queries run before its transaction and outside it. Every interleaving is proved
to leave the rows, the bindings, the results and the sequence of status changes of a serial run of the same
calls in commit order on the in-memory store, with one exact exception (below).

**The rate limiter** (`RateLimiter`, `RateProofs`, `RateOrder`). An insertion-ordered map of fixed windows,
swept by deletion during iteration at a cap, against a limiter that never sweeps and against one client's
own sequence of requests. The source's cap is 10000; every property holds for any cap of at least 1.

**The client run protocol** (`Machine`, `HookSpec`, `VerificationHook`, `HookProofs`, `HookApplicant`,
`HookLaws`, `HookInjection`, `HookTimers`, `HookCancel`, `NativeSource`, `NativeEndings`, `SessionToken`).
The reducer and planner, the refs of the headless hook of both clients (a flag tells the web hook from the
React Native one), token refresh by sequence number, the native SDK launch, and the session-token provider.
Every piece of code between two awaits is one step; between steps any promise may settle, any timer fire,
any event arrive, and the component may unmount.

**The Sumsub status table** (`SumsubStatus`) and **JSON inlined in scripts** (`ScriptJson`,
`ScriptJsonProofs`), the latter against a parser of RFC 8259 texts (escapes as in its section 7) over UTF-16
code units.

`Wrappers` and `Sequences` hold `Option`, `Result` and the last element of a sequence.

## Assumptions

- `newId` returns an id that no stored session has; under Postgres, also none that a call in flight names.
- Where a lemma asks for it, an event's applicant id is not empty, its level name is not the empty string,
  and the backend's session ids are not empty (the code takes the empty string for an absent value).
- The rate limiter's clock never goes back, and its limits are integers; where a bound is stated, at least 1.
- Postgres runs at READ COMMITTED: a conditional `UPDATE` that waited for a row lock checks its condition on
  the row as then committed, and a lock is held until commit or rollback.
- JavaScript runs each piece of code between two awaits to completion.

## Where the code and its documentation differ

- `rejected_unbound` reads the row without a lock (knex/store.ts:166), so under Postgres the previous status
  it reports and audits may be out of date when it commits. It is the only thing in which an interleaving can
  differ from the serial run; `KnexRefusals.RefusalIsCurrentExactly` and `KnexRefusals.LogIsSerialExactly` say
  exactly when it does, and `KnexRefusals.StaleRunExists` that it can.
- An immediate redelivery of a webhook is not always without effect (`Redelivery.RedeliveryExactly` says when
  it is; `Redelivery.RedeliveryFinishesAnotherSession` is the family in which it finishes a second session, and
  `Redelivery.RedeliveryIsNotIdempotent` a run that reaches it).
- Token refresh identifies a session by its id, or without one by its url (useTokenRefresh.ts:43 of React Native).
  Two sessions one of which has no id are then taken for one if the id of the other is its url
  (`HookInjection.IdAsUrlIsInjected`); otherwise no token goes to another session
  (`HookInjection.InjectionsKeepTheirSession`).
- An event with an empty applicant id is written to an unbound session without binding it
  (`Redelivery.WebhookWritesBoundSession`, `Redelivery.EmptyApplicantWritesUnbound`). Both providers of the
  repository drop such events before the service sees them (providers/sumsub/provider.ts:240 and
  providers/mock/provider.ts:188), so it takes a provider of the host's own.
- A read whose repair was written, but whose effect failed and could not be audited, shows the row as it was
  (`ServiceCalls.ReadIsCurrent`, `ServiceCalls.OldRowIsShown`).
- The sweep's comment (server.ts:85-88) says the oldest entries are the ones closest to expiring. A key asked for
  again after it expired keeps its old place, so for every cap of three or more there is a run that shows
  otherwise (`RateOrder.SweepMayDropTheLatest`, `RateOrder.SweepOrderExactly`). Which maps are swept as the comment
  says is exact (`RateOrder.SweepDropsTheSoonestExactly`), and every run without such a revival is
  (`RateOrder.SweepsDropTheSoonest`).
- The hooks' comment (useIdentityVerification.ts:102-103 of React Native) says a cancel, a new run and an
  unmount retire a delayed `onComplete`. They retire the one the ref holds; a second approval that arrives
  while the first one's timeout is pending overwrites the ref. The promise is kept by exactly the runs in which
  none does (`HookTimers.NoLateCompletionExactly`); `HookTimers.LateCompletionRun` is one that breaks it.
- `reset()` promises that the next call starts a new session (sessionToken.ts:33). It does exactly when no start
  is in flight, nor settled and still to be forgotten (`SessionToken.ResetExactly`); and until then the session
  stays forgotten exactly when no start that was in flight resolves (`SessionToken.ResetLasts`).

## Model

| member | source | states |
|---|---|---|
| `SessionPick.NewestFirstSorts` | packages/kyc-node/src/store.ts:75-77 | The sort keeps exactly the records given, duplicates included, newest first. |
| `SessionPick.FindNewestFirst` | packages/kyc-node/src/store.ts:75-84 | Sorting and taking the first match finds what one scan for the newest match finds, the earliest-inserted one on equal times. |
| `SessionPick.NewestMeaning` | packages/kyc-node/src/store.ts:227-246 | That scan finds nothing exactly when no record matches, and otherwise a match no other match is newer than. |
| `SessionPick.PickMeaning` | packages/kyc-node/src/store.ts:71-85 | The pick is nothing exactly for no records, else a newest record of the class that decides: those on the event's level if there are any, else those in progress, else all. |
| `SessionPick.PickInWords` | packages/kyc-node/src/store.ts:65-85 | The same in the rows' own words, approved and finally rejected sessions being the finished ones; an empty level is no level. |
| `SessionPick.PickIgnoresRowOrderExactly` | packages/kyc-node/src/knex/store.ts:84-94 | The pick is the same for every order of the rows exactly when no two records tie for the newest of the deciding class; ties elsewhere are harmless. |
| `SessionPick.PickIgnoresRowOrder` | packages/kyc-node/src/store.ts:65-69 | In particular, with distinct creation times both stores decide alike. |
| `SessionPick.TiedRecordCanBePicked` | packages/kyc-node/src/store.ts:75-84 | Every record that ties for the newest of the deciding class is the pick of some order of the rows. |
| `SessionPick.FoundInWords` | packages/kyc-node/src/store.ts:217-225 | What the applicant lookup finds, in the rows' own words. |
| `WritePath.OutcomeExactly` | packages/kyc-node/src/sessions.ts:294-312 | For every row and call, exactly which of the four outcomes a write has and the row it leaves: an approved or finally rejected session refuses, a declined one may be resubmitted, and an empty applicant id asks for no binding. |
| `WritePath.WriteRowKeepsBinding` | packages/kyc-node/src/store.ts:248-284 | No write changes a binding once made, one refused for another applicant changes nothing, only one that updates changes the status, and nothing else of the row changes. |
| `WritePath.WriteAudits` | packages/kyc-node/src/sessions.ts:314-336 | A committed write logs one row for a change, one with its reason for a refused binding or a webhook refused by a terminal status, and none exactly for a repeated status or a refused write of the service's own. |
| `AuditTrail.WriteKeepsConsistent` | packages/kyc-node/src/sessions.ts:288-337 | Any transaction, with a throw at any store call, keeps the log well formed and the rows what the log rebuilds. |
| `AuditTrail.LogChains` | packages/kyc-node/src/sessions.ts:314-322 | In a well-formed log a session's changes start at initial, each starts where the one before ended, and the last ends where replay does; there is one created row. |
| `AuditTrail.TerminalIsLast` | packages/kyc-node/src/types.ts:35-36 | In a well-formed log a terminal status can only be a session's last change. |
| `MemoryStore.SessionStore.CreateSession` | packages/kyc-node/src/store.ts:189-205 | The store itself makes the row, initial and created now, and puts it under its id; an id new to the map goes last in its order, the log is untouched, and a throw changes nothing. |
| `MemoryStore.SessionStore.UpdateSessionStatus` | packages/kyc-node/src/store.ts:248-271 | The conditional status write on the stored row: result and new table are those of the row function; a missing row is an error and changes nothing. |
| `MemoryStore.SessionStore.BindApplicantId` | packages/kyc-node/src/store.ts:273-284 | The conditional binding: only an unbound row or one of the same applicant changes, and the row comes back either way. |
| `MemoryStore.SessionStore.AppendAuditEntry` | packages/kyc-node/src/store.ts:286-288 | The log grows by the entry and nothing else changes; a throw changes nothing. |
| `MemoryStore.SessionStore.Restore` | packages/kyc-node/src/store.ts:182-186 | A rollback makes both tables what the snapshot held. |
| `MemoryStore.SessionStore.GetSessionByProviderApplicantId` | packages/kyc-node/src/store.ts:217-225 | None exactly when no row of any provider is bound to the applicant, else a newest such row on the level, else in progress, else of all. |
| `MemoryStore.SessionStore.GetLatestUnboundSessionForUser` | packages/kyc-node/src/store.ts:227-237 | None exactly when the user has no unbound row with the provider, else a newest one. |
| `MemoryStore.SessionStore.GetLatestSessionForUser` | packages/kyc-node/src/store.ts:239-246 | None exactly when the user has no row with the provider, else a newest one. |
| `VerificationService.Service.WriteSteps` | packages/kyc-node/src/sessions.ts:294-337 | The transaction's body: its result always, and its tables when it succeeds, are those of the write on values. |
| `VerificationService.Service.WriteStatus` | packages/kyc-node/src/sessions.ts:288-337 | With snapshot and rollback the transaction is all or nothing: a failure leaves both tables as they were. |
| `VerificationService.Service.RunEffects` | packages/kyc-node/src/sessions.ts:245-278 | The host is called for an update only; a throwing effect adds its audit row. |
| `VerificationService.Service.ApplyStatusTransition` | packages/kyc-node/src/sessions.ts:280-285 | Write, then effects: result, tables and effect calls are the specification's. |
| `VerificationService.Service.Reconcile` | packages/kyc-node/src/sessions.ts:346-384 | The repair of a session in progress against the provider, with every failure swallowed, is the specification's. |
| `VerificationService.Service.Start` | packages/kyc-node/src/sessions.ts:387-453 | Persist, mint, bind, with each failure path, a coded provider error passed on and an uncoded one replaced, is the specification's. |
| `VerificationService.Service.Refresh` | packages/kyc-node/src/sessions.ts:455-492 | The token refresh, with each refusal and the provider's error passed on or replaced, is the specification's. |
| `VerificationService.Service.Status` | packages/kyc-node/src/sessions.ts:494-498 | The owner's reconciled read is the specification's. |
| `VerificationService.Service.LatestForUser` | packages/kyc-node/src/sessions.ts:500-508 | The newest session of the user, reconciled on request, is the specification's. |
| `VerificationService.Service.HandleWebhookEvent` | packages/kyc-node/src/sessions.ts:510-597 | Routing with the reassigned session, then the write: result, tables and effect calls are the specification's. |
| `ServiceCalls.StartLeavesItsSession` | packages/kyc-node/src/sessions.ts:387-453 | For every failure path, exactly what start returns and leaves: nothing without a user or when it could not persist; else the caller's new initial session, bound to the minted applicant if any, its created row, a creation_failed row with the provider's code when that failed, and all other sessions untouched. |
| `ServiceCalls.RefreshExactly` | packages/kyc-node/src/sessions.ts:455-492 | A token is handed out exactly for the caller's own session in progress, each refusal has its own error, no row changes and exactly a success is logged. |
| `ServiceCalls.ReadIsCurrent` | packages/kyc-node/src/sessions.ts:339-384 | A reconciling read returns the stored row, exactly unless a repair was written whose effect failed and could not be audited. |
| `ServiceCalls.OldRowIsShown` | packages/kyc-node/src/sessions.ts:366-384 | With effects, a run reaches a status call that shows its owner a row that is not the stored one. |
| `ServiceCalls.StatusRepairsExactly` | packages/kyc-node/src/sessions.ts:346-384 | When nothing throws: a bound session takes the status the provider gives for its applicant, an unbound one the status and applicant it gives for its user; that row is stored and shown, a change is logged and told to the host as the service's own, and in every other case nothing is written. |
| `ServiceCalls.StatusAnswersItsOwner` | packages/kyc-node/src/sessions.ts:208-223 | Status succeeds exactly for the owner of a stored session, never fails because its repair did, and a refusal has its error and changes nothing. |
| `ServiceCalls.LatestIsNewest` | packages/kyc-node/src/sessions.ts:500-508 | The latest session is none exactly when the user has none with the provider, else a newest one. |
| `ServiceCalls.LatestRepairsExactly` | packages/kyc-node/src/sessions.ts:500-508 | On request that newest session is repaired, stored and returned as status would; without a user or a session nothing happens. |
| `ServiceCalls.WebhookWritesExactly` | packages/kyc-node/src/sessions.ts:510-597 | An event on the session it is routed to, when nothing throws: its change is logged and told to the host as a webhook's with the event's labels, its refusal by a finished session is logged as a rejected webhook, a repeated status leaves no trace, and the outcome says which; without a status or a session nothing changes. |
| `ServiceRuns.StepKeepsGood` | packages/kyc-node/src/sessions.ts:386-597 | Every call, with every provider answer and throw, keeps log and rows consistent, effects equal to the logged changes, bindings, terminal statuses and both histories. |
| `ServiceRuns.LogRebuildsSessions` | packages/kyc-node/src/sessions.ts:287-337 | After any run replaying the log gives every stored status; each session has exactly one created row, and its changes chain from initial to its status with a terminal one only last. |
| `ServiceRuns.EffectsAreTheCommittedChanges` | packages/kyc-node/src/sessions.ts:245-285 | After any run the effect calls are, in order, exactly the committed changes, with the same session, previous status, status, source and labels. |
| `ServiceRuns.ThrowingEffectOnlyAddsARow` | packages/kyc-node/src/sessions.ts:262-277 | A throwing effect changes no session and no call; the log gains exactly one effect_failed row, or none when that append throws. |
| `ServiceRuns.RunKeepsWhatItHad` | packages/kyc-node/src/sessions.ts:386-597 | From any point of any run on, rows stay, bindings and terminal statuses do not change, and log and effect calls only grow. |
| `ServiceDriver.Perform` | packages/kyc-node/src/sessions.ts:386-597 | Any call on the service object is its step of the runs. |
| `ServiceDriver.RunService` | packages/kyc-node/src/sessions.ts:386-597 | Any calls in any order on a new service object: its store's log rebuilds and chains every session, and its effect calls are exactly the logged changes. |
| `Redelivery.LookupMeaning` | packages/kyc-node/src/store.ts:217-225 | The applicant lookup on the stored rows: none exactly when no row is bound to the applicant, else the newest on the level, else the newest in progress, else the newest. |
| `Redelivery.RouteMeaning` | packages/kyc-node/src/sessions.ts:539-558 | Routing names a stored session: one bound to the applicant by the lookup, or the user's newest unbound one, which is to be bound. |
| `Redelivery.UnboundMeaning` | packages/kyc-node/src/store.ts:227-237 | On the stored rows, the unbound lookup finds none exactly when the user has none with the provider, else a newest one. |
| `Redelivery.RouteExactly` | packages/kyc-node/src/sessions.ts:544-563 | Exactly when an event opens a further session and exactly when no session is found (a level, if named, not empty). |
| `Redelivery.AfterDelivery` | packages/kyc-node/src/sessions.ts:566-594 | After a handled event only the routed row differs, and it is bound to the event's applicant with the event's status or a terminal one. |
| `Redelivery.WebhookWritesBoundSession` | packages/kyc-node/src/sessions.ts:566-578 | A status a webhook writes lands on a session bound to the event's applicant, exactly unless the session had to be bound and the event's applicant id is empty. |
| `Redelivery.EmptyApplicantWritesUnbound` | packages/kyc-node/src/sessions.ts:549-578 | Under every configuration a run reaches an event with an empty applicant id that is written to a session left unbound. |
| `Redelivery.RedeliveryOnLevel` | packages/kyc-node/src/sessions.ts:533-578 | When the first delivery's session is on the event's level, the redelivery goes to the same session and changes no row, binding or effect; the log gains at most a webhook_rejected row. |
| `Redelivery.RedeliveryOfOnlySession` | packages/kyc-node/src/sessions.ts:533-578 | The same for an event without a level whose session is then the applicant's only one. |
| `Redelivery.RedeliveryExactly` | packages/kyc-node/src/sessions.ts:533-578 | Exactly when an immediate redelivery changes no row: the applicant stands on the event's level, or the event opens no further session and the applicant's newest session in progress, if any, already has the status. |
| `Redelivery.RedeliveryFinishesAnotherSession` | packages/kyc-node/src/sessions.ts:539-542 | An event without a level that finishes one of an applicant's two sessions in progress changes another one when redelivered. |
| `Redelivery.RedeliveryIsNotIdempotent` | packages/kyc-node/src/sessions.ts:539-558 | Under every configuration a run reaches such a redelivery: two starts of one applicant and one event. |
| `KnexProofs.NextKeeps` | packages/kyc-node/src/knex/store.ts:121-167 | Every statement of every call keeps the invariant: consistent tables, what each call knows at each statement, and the committed tables those of the serial run. |
| `KnexProofs.CommitIsSerial` | packages/kyc-node/src/knex/store.ts:52-53 | A commit does to the tables what the one-at-a-time call does, and the call's result is that call's. |
| `KnexProofs.InterleavingIsSerial` | packages/kyc-node/src/knex/store.ts:121-167 | Any interleaving leaves the rows, and the sequence of changes with labels and sources, of its calls run one at a time in commit order on the in-memory store; the logs differ at most in the previous status of a refused binding. |
| `KnexProofs.ResultsAreSerial` | packages/kyc-node/src/sessions.ts:288-337 | Each committed call returns what the serial run returns for it: outcome and binding always, previous status and row unless it was refused for another applicant. |
| `KnexProofs.InterleavingChains` | packages/kyc-node/src/knex/store.ts:121-152 | In every interleaving each session's committed changes chain from initial to the stored status, a terminal one at most once and last, with one created row. |
| `KnexProofs.WebhookLandsOnItsApplicant` | packages/kyc-node/src/sessions.ts:539-578 | Though routed outside the transaction, a status a webhook writes lands on a session bound, at that commit, to the event's own applicant. |
| `KnexRouting.RoutedByApplicant` | packages/kyc-node/src/sessions.ts:539-558 | In every run the applicant query sends an event on to its user's unbound sessions if the applicant has none there and the event names a user, else to a call on the session the lookup rule decides among the committed rows; it is dropped exactly if nothing was found. |
| `KnexRouting.RoutedByUser` | packages/kyc-node/src/knex/store.ts:96-107 | In every run the second query sends it to a call that binds the user's newest unbound committed session, if there is one, else to the session found first; it is dropped exactly if both found nothing. |
| `KnexRouting.RouteIsSerial` | packages/kyc-node/src/sessions.ts:539-563 | When nothing commits between the two queries and no sessions tie, the event goes where the in-memory service would send it. |
| `KnexRouting.WebhookCommitsItsEvent` | packages/kyc-node/src/sessions.ts:566-578 | In every run a webhook commits its own event's status, as a webhook, with its labels and for its applicant, and the log has at that commit the one row its outcome asks for, refusals with their reason. |
| `KnexProofs.BindingsAreForever` | packages/kyc-node/src/knex/store.ts:154-167 | From any point of any interleaving on, no row goes, no binding changes and no terminal status is left. |
| `KnexProofs.LockHolderCanRun` | packages/kyc-node/src/knex/store.ts:125-130 | No deadlock: in every run whoever holds a row's lock is a running call whose next statement is not blocked. |
| `KnexAlone.CallAloneIsSerial` | packages/kyc-node/src/knex/store.ts:121-171 | A call on a free row that nobody disturbs, run statement by statement, commits exactly the tables and returns exactly the result of the same call on the in-memory store, whether it binds, is refused, changes the status or not. |
| `KnexRefusals.RefusalIsCurrentExactly` | packages/kyc-node/src/knex/store.ts:166 | In every run a refused call returns exactly the serial call's result, previous status and row included, if and only if the session's status at its commit is still the one at its unlocked read; so whenever no change of the session commits in between. |
| `KnexRefusals.LogIsSerialExactly` | packages/kyc-node/src/knex/store.ts:154-171 | In every run the committed log is row for row the log of the serial run if and only if no refusal is out of date. |
| `KnexRefusals.RefusalCanBeStale` | packages/kyc-node/src/knex/store.ts:166 | From every reachable world with a session in progress that belongs to another applicant and is not locked, a run goes on to a refusal that reports an outdated status. |
| `KnexRefusals.StaleRunExists` | packages/kyc-node/src/knex/store.ts:154-167 | Such a run exists from the empty store. |
| `RateLimiter.WindowMap.Put` | packages/kyc-service/src/server.ts:138 | A known key keeps its position with its new window, a new one goes to the end. |
| `RateLimiter.DropExpired` | packages/kyc-service/src/server.ts:94-98 | Deleting during iteration leaves exactly the live entries, in insertion order. |
| `RateLimiter.SweepWindows` | packages/kyc-service/src/server.ts:89-105 | The sweep leaves the live entries in order when they are fewer than max, else the last max - 1 of them. |
| `RateLimiter.Limiter.Limit` | packages/kyc-service/src/server.ts:125-154 | One call: none on a path without a limit or with limit 0; else decision and map are those of sweep at the cap, then count. |
| `RateLimiter.CreateRateLimiter` | packages/kyc-service/src/server.ts:78-123 | The server's limiter starts with no windows and has room for 10000. |
| `RateProofs.CountMeaning` | packages/kyc-service/src/server.ts:136-153 | What a request does to its client's window and what it is told: a first window of a minute, or one more request, allowed exactly within the limit, with what is left of the limit and, in whole seconds rounded up, of the window. |
| `RateProofs.RouteLimits` | packages/kyc-service/src/server.ts:61-74 | Exactly which paths are limited, each by its own limit unless that is 0, under a key of its route and client. |
| `RateProofs.RequestIsHeldToItsLimit` | packages/kyc-service/src/server.ts:125-153 | A request is told its own path's limit, and allowed exactly while its client's window on that path has not passed it. |
| `RateProofs.GetSet` | packages/kyc-service/src/server.ts:136-138 | Setting a key changes the window of that key alone, and the map grows exactly for a new key. |
| `RateProofs.LiveMeaning` | packages/kyc-service/src/server.ts:94-98 | The live entries are exactly the entries whose reset lies ahead. |
| `RateProofs.SweptMeaning` | packages/kyc-service/src/server.ts:89-105 | A sweep leaves fewer than max windows, none of them changed; with fewer than max live ones, a key has its window exactly when it was live. |
| `RateProofs.KeysAreApart` | packages/kyc-service/src/server.ts:131 | Two clients, or one client on two routes, never share a window. |
| `RateProofs.MapStaysWithinCap` | packages/kyc-service/src/server.ts:133-138 | In every run the map has one entry a key and never exceeds the cap. |
| `RateOrder.SweepDropsTheSoonestExactly` | packages/kyc-service/src/server.ts:85-105 | A flooded sweep drops no window that outlives one it keeps, exactly when the live entries before its cut expire no later than those behind it. |
| `RateOrder.SweepsDropTheSoonest` | packages/kyc-service/src/server.ts:137-138 | In every run in which no request gives its own expired window a new minute in its old place, the map stays in expiry order and every sweep drops the windows closest to expiring. |
| `RateOrder.SweepOrderExactly` | packages/kyc-service/src/server.ts:85-88 | The comment holds in every run of a limiter exactly when it has room for no more than two windows. |
| `RateOrder.SweepMayDropTheLatest` | packages/kyc-service/src/server.ts:137-138 | For every cap of three or more, a run whose next sweep drops a window with a minute to go and keeps one with a millisecond. |
| `RateProofs.SweepingIsInvisible` | packages/kyc-service/src/server.ts:89-155 | While every sweep finds fewer live windows than the cap, the whole sequence of decisions is that of a limiter that never sweeps. |
| `RateProofs.SweepingIsInvisibleExactly` | packages/kyc-service/src/server.ts:89-155 | With no limit of 0, the whole sequence of decisions is that of a limiter that never sweeps exactly when each client's live window is still in the map at each of its own requests. |
| `RateProofs.KeyStandsAlone` | packages/kyc-service/src/server.ts:125-154 | A client gets the decisions of a window of its own, whatever others do, exactly when its live window is still in the map at each of its own requests. |
| `RateProofs.NeverEvictedStays` | packages/kyc-service/src/server.ts:99-104 | It is for a client whose live window is never evicted. |
| `RateProofs.SlidingWindowBound` | packages/kyc-service/src/server.ts:125-154 | For such a client any half-open interval of one window length contains at most twice the limit of allowed calls, less one. |
| `RateProofs.SlidingWindowBoundIsReached` | packages/kyc-service/src/server.ts:125-154 | For every limit and every cap of at least two a run reaches that bound. |
| `RateProofs.WithinOneWindow` | packages/kyc-service/src/server.ts:146-153 | For such a client the k-th call of one window is allowed exactly when k is at most the limit, with the rest of the limit remaining. |
| `RateProofs.EvictionGrantsEverything` | packages/kyc-service/src/server.ts:99-104 | The condition is needed: as many clients as there are windows, taking turns in one instant, are allowed every call, whatever the limit and however many. |
| `RateProofs.CrowdsTakeTurns` | packages/kyc-service/src/server.ts:99-104 | Such runs exist for every cap and length. |
| `Machine.ReduceKeepsCoherent` | packages/kyc-core/src/verification/machine.ts:111-169 | No action breaks the states' promises (error with its error, success with an approval, denial with its reason, loading and verifying without an old result, idle the start); a cleared session is followed by a new run. |
| `HookLaws.ReportsExactly` | packages/kyc-core/src/verification/machine.ts:175-190 | On a mounted hook an applicant is kept with the session, a submission or a pending status is shown as a review and told to the host, any other status is told only, and nothing else changes. |
| `HookLaws.CompletionExactly` | packages/kyc-core/src/verification/machine.ts:191-204 | A completed flow is shown as a success or a review, with the applicant of the event, else of the session; an approval is told by a new timeout, anything else at once. |
| `HookLaws.EndingsExactly` | packages/kyc-react/src/useIdentityVerification.ts:218-240 | A cancel starts over, an expired session fails and is kept, an error fails and takes the session away, each told to the host; a browser's refused permission is a screen of its own. |
| `HookLaws.BeginningsExactly` | packages/kyc-react-native/src/useIdentityVerification.ts:275-367 | Start, retry and restart do nothing while a run is pending; else they retire the timeout held, show a loading flow without an old result, and one run is pending, on each client for what it asks first. |
| `HookLaws.PermissionExactly` | packages/kyc-react-native/src/useIdentityVerification.ts:281-292 | The permission check: refused, the flow shows why; thrown, it fails; granted, the run asks for the network. |
| `HookLaws.OnlineExactly` | packages/kyc-react-native/src/useIdentityVerification.ts:294-302 | The network check: down, the flow shows it; thrown, it fails; up, the run asks the source. |
| `HookLaws.StartExactly` | packages/kyc-react-native/src/useIdentityVerification.ts:304-329 | The source: its session is shown and, if it can be, launched; its failure is told with its code, or as unknown. |
| `HookLaws.LaunchExactly` | packages/kyc-react-native/src/useIdentityVerification.ts:215-270 | The launch: nothing more once the flow is settled; else its result completes the flow as an event would, and its rejection fails it. |
| `HookLaws.CancelExactly` | packages/kyc-react-native/src/useIdentityVerification.ts:369-373 | A cancel retires the timeout held, starts over and tells the host. |
| `HookLaws.UnmountExactly` | packages/kyc-react-native/src/useIdentityVerification.ts:111-117 | An unmount retires the timeout held, and is remembered. |
| `HookLaws.OfflineExactly` | packages/kyc-react/src/useIdentityVerification.ts:127-140 | Losing the connection parks a web flow that is on screen, and changes nothing else. |
| `HookLaws.TimerExactly` | packages/kyc-react-native/src/useIdentityVerification.ts:159-164 | A timeout that fires while mounted completes the flow with its own result, and clears the ref. |
| `HookLaws.UnmountedExactly` | packages/kyc-react-native/src/useIdentityVerification.ts:188-192 | Unmounted, a settlement ends its run and nothing more, an event is ignored, and a timeout goes without a word. |
| `VerificationHook.IdentityVerification.HandleEvent` | packages/kyc-react-native/src/useIdentityVerification.ts:188-202 | The event handler updates refs, timers and host calls as its step; nothing once unmounted. |
| `VerificationHook.IdentityVerification.RunEffect` | packages/kyc-react-native/src/useIdentityVerification.ts:145-186 | Each effect: a host call, a timeout that overwrites the ref, or a refresh. |
| `VerificationHook.IdentityVerification.Start` | packages/kyc-react-native/src/useIdentityVerification.ts:344-350 | A start while a run is pending does nothing; else it begins one. |
| `VerificationHook.IdentityVerification.Retry` | packages/kyc-react-native/src/useIdentityVerification.ts:352-358 | So does a retry. |
| `VerificationHook.IdentityVerification.Restart` | packages/kyc-react-native/src/useIdentityVerification.ts:360-367 | A restart while a run is pending does nothing; else it takes the session away and begins one. |
| `VerificationHook.IdentityVerification.Begin` | packages/kyc-react-native/src/useIdentityVerification.ts:275-282 | A run up to its first await, on both clients, is its step. |
| `VerificationHook.IdentityVerification.PermissionSettled` | packages/kyc-react-native/src/useIdentityVerification.ts:282-292 | The permission check's settlement, with its throw, is its step. |
| `VerificationHook.IdentityVerification.OnlineSettled` | packages/kyc-react-native/src/useIdentityVerification.ts:294-302 | The connectivity check's settlement is its step. |
| `VerificationHook.IdentityVerification.StartSettled` | packages/kyc-react-native/src/useIdentityVerification.ts:304-329 | The source's start settling, with its failure, is its step. |
| `VerificationHook.IdentityVerification.LaunchSettled` | packages/kyc-react-native/src/useIdentityVerification.ts:215-270 | A launch settling is advisory once the flow is settled; else it completes or fails the flow. |
| `VerificationHook.IdentityVerification.TimerFired` | packages/kyc-react-native/src/useIdentityVerification.ts:159-164 | The timeout completes the flow only while mounted, and clears the ref. |
| `VerificationHook.IdentityVerification.Refresh` | packages/kyc-react/src/useTokenRefresh.ts:81-95 | A dispatch takes the next number and the session then running, or fails the flow; the web client also needs an origin. |
| `VerificationHook.IdentityVerification.RefreshSettled` | packages/kyc-react-native/src/useTokenRefresh.ts:83-109 | A settlement injects only while mounted, newest, and for the identity then running; a failure counts only for the newest. |
| `VerificationHook.IdentityVerification.Cancel` | packages/kyc-react-native/src/useIdentityVerification.ts:369-373 | A cancel clears the ref's timeout, resets the state and tells the host. |
| `VerificationHook.IdentityVerification.WentOffline` | packages/kyc-react/src/useIdentityVerification.ts:127-140 | Losing the connection parks a web flow on screen, and only that. |
| `VerificationHook.IdentityVerification.Unmount` | packages/kyc-react-native/src/useIdentityVerification.ts:111-117 | Unmounting clears the ref's timeout. |
| `VerificationHook.IdentityVerification.Perform` | packages/kyc-react-native/src/useIdentityVerification.ts:188-373 | Any step taken on the object is its step of the runs and keeps their invariant. |
| `VerificationHook.RunHook` | packages/kyc-react-native/src/useIdentityVerification.ts:111-373 | Any steps in any order on a new hook object: at most one start in flight, states the screens can show, injections of ever later dispatches for the identity then running, and silence once unmounted. |
| `HookProofs.AtMostOneStart` | packages/kyc-react-native/src/useIdentityVerification.ts:275-367 | In every run at most one source.start() is in flight, and only while runningRef is up. |
| `HookProofs.StatesAreCoherent` | packages/kyc-core/src/verification/machine.ts:111-227 | In every run of either hook the state keeps the promises above. |
| `HookProofs.InjectionsAdvance` | packages/kyc-react-native/src/useTokenRefresh.ts:70-97 | In every run injected tokens answer strictly later and later dispatches, each for the identity of the session then running. |
| `HookInjection.TokenExactly` | packages/kyc-react-native/src/useTokenRefresh.ts:82-97 | A token that arrives is injected if and only if it answers the newest dispatch, the hook is mounted, a page is attached, and the session running has the id it was asked for, or without ids the url; and nothing else happens. |
| `HookInjection.RefusedTokenExactly` | packages/kyc-react-native/src/useTokenRefresh.ts:98-109 | A refresh that fails ends the flow, which keeps its session, if and only if it is the newest and the hook is mounted. |
| `HookInjection.DispatchExactly` | packages/kyc-react/src/useTokenRefresh.ts:81-95 | An expired token dispatches one refresh, of the session then running under the next number, if the source can refresh it - on the web only with an origin; else the flow fails and keeps its session. |
| `HookInjection.InjectionsMatchSessions` | packages/kyc-react/src/useTokenRefresh.ts:54-110 | In every run each injected token goes to the session it was asked for. |
| `HookInjection.InjectionsKeepTheirSession` | packages/kyc-react/src/useTokenRefresh.ts:54-110 | Over a source that uses no id as the url of a session without one, in every run the two have the very same id, or none and the very same url. |
| `HookInjection.RestartedInjectionExactly` | packages/kyc-react/src/useTokenRefresh.ts:49-110 | In the run that restarts with another session while a refresh is in flight, its token is injected exactly if both are one session: with ids of their own, never. |
| `HookInjection.IdAsUrlIsInjected` | packages/kyc-react/src/useTokenRefresh.ts:54-55 | In that run a session without an id whose url is the id of the one before gets its token. |
| `HookProofs.OnlyTheNewestInjects` | packages/kyc-react/src/useTokenRefresh.ts:81-110 | In every run a step that injects, injects one token of the newest dispatch, while mounted, into the session then running. |
| `HookApplicant.ApplicantNeverBlocksInjection` | packages/kyc-core/src/verification/machine.ts:140-146 | Wherever in a run the applicant id becomes known, the injected tokens are those of the run without it: the same tokens of the same dispatches, in the same order, for the same sessions. |
| `HookProofs.SilentAfterUnmount` | packages/kyc-react-native/src/useIdentityVerification.ts:111-202 | Once unmounted, whatever settles, fires or arrives, the host hears nothing more, save onCancel for its own cancel. |
| `HookTimers.DelaysExactly` | packages/kyc-react-native/src/useIdentityVerification.ts:151-166 | Exactly which steps delay a completion: an approval that reaches a mounted hook as an event, or as what an awaited launch settles with while the flow is open. |
| `HookTimers.RetiredExactlyWhenTracked` | packages/kyc-react-native/src/useIdentityVerification.ts:104-109 | One new run, cancel or unmount leaves no timeout pending exactly when the ref held the only one. |
| `HookTimers.NoLateCompletionExactly` | packages/kyc-react-native/src/useIdentityVerification.ts:102-117 | For every run: at each of its points a new run, a cancel and an unmount leave no completion to fire late, if and only if no approval arrives in it while a completion is pending. |
| `HookTimers.OverlappingCompletionSurvivesCancel` | packages/kyc-react-native/src/useIdentityVerification.ts:157-164 | In any run an approval while a timeout is pending orphans it: a cancel does not retire it, and it completes over the cancelled flow. |
| `HookTimers.LateCompletionRun` | packages/kyc-react-native/src/useIdentityVerification.ts:157-164 | Such a run from a new hook: two approvals, a cancel, and the host hears onCancel, then onComplete. |
| `HookCancel.CancelLastsExactly` | packages/kyc-react-native/src/useIdentityVerification.ts:275-342 | In every run, until the host acts again, a cancelled flow stays idle exactly when nothing that was pending at the cancel brings it back: a refused or failed permission check, a network down or failing, any answer of the source, or a failure of the newest token refresh. |
| `HookCancel.SettledCancelLasts` | packages/kyc-react-native/src/useIdentityVerification.ts:369-373 | With no run pending and no refresh in flight a cancelled flow stays idle. |
| `HookCancel.CancelledFlowComesBack` | packages/kyc-react/src/useIdentityVerification.ts:332-350 | A web run in which it does come back: a start, a cancel, and then the source answers. |
| `NativeSource.MapMobileResult` | packages/kyc-core/src/providers/sumsub/mapping.ts:140-154 | The SDK's result becomes a complete or an error event, complete only for a success. |
| `NativeEndings.MobileStatusesExactly` | packages/kyc-core/src/providers/sumsub/mapping.ts:103-122 | The seven status names that carry a meaning and what it is; every other name carries none. |
| `NativeEndings.StatusIsTold` | packages/kyc-react-native/src/providers/sumsub/source.ts:132-137 | A status reported while the SDK is on screen is told to the host, a pending one shown as a review, and a name without a meaning is not. |
| `NativeSource.SumsubNativeSource.Handle` | packages/kyc-react-native/src/providers/sumsub/source.ts:131-151 | One SDK event, or another step of the hook in between, taken as the specification says. |
| `NativeSource.SumsubNativeSource.Launch` | packages/kyc-react-native/src/providers/sumsub/source.ts:103-195 | The launch, happening by happening: hook and settlement are those of the specification, and launching is what it was. |
| `NativeSource.SumsubNativeSource.Finish` | packages/kyc-react-native/src/providers/sumsub/source.ts:158-191 | The end of a launch: one last event and the settlement that goes with it. |
| `NativeSource.SumsubNativeSource.RunLaunch` | packages/kyc-react-native/src/useIdentityVerification.ts:215-270 | A launch run to its end brings exactly one more ending, and leaves neither the source nor the hook busy. |
| `NativeSource.DeliveryEndsNothing` | packages/kyc-react-native/src/providers/sumsub/source.ts:131-151 | Nothing that happens while the SDK is on screen ends the flow: no SDK event, and no step of the hook in between, timers of an earlier flow included. |
| `NativeSource.LaunchEndsExactlyOnce` | packages/kyc-react-native/src/providers/sumsub/source.ts:103-195 | For every list of SDK events, with any steps of the hook in between that are not the host's own cancel, unmount or event, and every end of the SDK, a throw, a refusal and a missing token included, the host gets exactly one ending - onComplete now or on one timer, onCancel, or onError - and the run is over. |
| `NativeEndings.LaunchEndsAsTheSdkSays` | packages/kyc-react-native/src/providers/sumsub/source.ts:158-195 | Which ending it is, for every list of happenings: a successful Ready, Initial or Incomplete is a cancel; Approved a success, told by one new timeout; Pending, TemporarilyDeclined and FinallyRejected a review of that status, told at once; everything else an error with its code; and a result is about the applicant the SDK last named, else the session's. |
| `NativeEndings.RefusedLaunchFails` | packages/kyc-react-native/src/providers/sumsub/source.ts:107-127 | A launch that cannot start, because another one is on screen or there is no token, is an error with its code. |
| `NativeSource.EveryLaunchEndsOnce` | packages/kyc-react-native/src/useIdentityVerification.ts:304-329 | So in every run of the hook over a native source, from a start that succeeds while mounted to the settled launch. |
| `NativeSource.TimerKeepsEndings` | packages/kyc-react-native/src/useIdentityVerification.ts:159-164 | A timer that fires while mounted turns its pending ending into that one onComplete. |
| `SessionToken.SessionTokenProvider.GetAccessToken` | packages/kyc-core/src/verification/sessionToken.ts:43-60 | A call refreshes the stored session, else is handed the promise the provider refers to, else makes a start; the invariant of the runs is kept. |
| `SessionToken.SessionTokenProvider.StartSettled` | packages/kyc-core/src/verification/sessionToken.ts:45-50 | Any start in flight may settle, referred to or not: a success stores its session, a rejection nothing. |
| `SessionToken.SessionTokenProvider.Forget` | packages/kyc-core/src/verification/sessionToken.ts:51-53 | The finally of a settled start clears the ref, whatever it holds, and keeps the session. |
| `SessionToken.SessionTokenProvider.CallerEnded` | packages/kyc-core/src/verification/sessionToken.ts:45-55 | A caller ends with what its start settled with, once the finally has run. |
| `SessionToken.SessionTokenProvider.ResetSession` | packages/kyc-core/src/verification/sessionToken.ts:64-66 | A reset forgets the session and leaves a start in flight alone. |
| `SessionToken.OneStartInFlight` | packages/kyc-core/src/verification/sessionToken.ts:43-56 | In every interleaving of calls, settlements, forgettings and resets at most one start is in flight, and the provider refers to it. |
| `SessionToken.RunProvider` | packages/kyc-core/src/verification/sessionToken.ts:37-68 | So in every run of the provider object. |
| `SessionToken.SharersGetTheirStart` | packages/kyc-core/src/verification/sessionToken.ts:43-56 | Every caller that shares a start, however many do, ends with exactly what that start settles with: its token or its rejection; none ends before, and each ends after the finally. |
| `SessionToken.LaterCallsRefresh` | packages/kyc-core/src/verification/sessionToken.ts:26-31 | Without a reset at most one start ever succeeds, and from then on every call refreshes that start's session and makes no other. |
| `SessionToken.EmptyIdIsNoSession` | packages/kyc-core/src/verification/sessionToken.ts:59-60 | A session whose id is empty is not refreshed: the next call shares or makes a start. |
| `SessionToken.ResetExactly` | packages/kyc-core/src/verification/sessionToken.ts:33-34 | In every run the call after a reset makes a new start exactly when no start is in flight, nor settled and still to be forgotten; else it is handed the old start. |
| `SessionToken.ResetMayShare` | packages/kyc-core/src/verification/sessionToken.ts:43-66 | The shortest run in which it is: a call, a reset, and the next call shares the start of the first. |
| `SessionToken.ResetLasts` | packages/kyc-core/src/verification/sessionToken.ts:45-50 | Until the next call a reset session stays forgotten exactly when no start that was in flight at the reset resolves. |
| `SumsubStatus.KeyDeterminesParts` | packages/kyc-node/src/providers/sumsub/page.ts:45-50 | A key of parts without the separator is the key of no other parts, whatever strings they are. |
| `SumsubStatus.ReviewMeans` | packages/kyc-core/src/providers/sumsub/mapping.ts:41-64 | Exactly when a review is approved, finally rejected, declined, pending, incomplete or initial, in the payload's words. |
| `SumsubStatus.BuildSumsubStatusTable` | packages/kyc-node/src/providers/sumsub/page.ts:56-75 | The three loops fill exactly the documented combinations, each with the mapping's value. |
| `SumsubStatus.InTable` | packages/kyc-node/src/providers/sumsub/page.ts:56-75 | A key of any strings is in the table exactly when its parts are documented ones. |
| `SumsubStatus.LookupIsMapping` | packages/kyc-node/src/providers/sumsub/page.ts:84-98 | For all strings, unknown ones and ones with the separator included, the lookup gives what the mapping gives. |
| `SumsubStatus.PageIsMapping` | packages/kyc-node/src/providers/sumsub/page.ts:118-127 | So does the script the page runs, which passes over empty values as well as absent ones. |
| `ScriptJsonProofs.ThreePassesAreOne` | packages/kyc-node/src/html.ts:30-34 | The three replacements, one after the other, are one pass that escapes each of the three units once. |
| `ScriptJsonProofs.EscapedTextIsSafe` | packages/kyc-core/src/verification/bridge.ts:159-163 | Whatever text it is given, the post-pass leaves no `<`, no U+2028 and no U+2029. |
| `ScriptJsonProofs.PostPrint` | packages/kyc-node/src/html.ts:30-34 | Escaping a printed value afterwards is printing it with those units escaped in its strings. |
| `ScriptJsonProofs.ValueParses` | packages/kyc-node/src/html.ts:30-34 | A printed value, escaped or not, followed by anything that delimits it, parses to that value and that text. |
| `ScriptJsonProofs.StringifyParses` | packages/kyc-node/src/html.ts:30-31 | Parsing what `JSON.stringify` prints gives back the value. |
| `ScriptJsonProofs.InlinedJsonParsesBack` | packages/kyc-node/src/html.ts:25-34 | Parsing what is inlined gives back the value, for every JSON value, and the inlined text is safe. |
| `ScriptJsonProofs.InjectedTokenParsesBack` | packages/kyc-core/src/verification/bridge.ts:165-176 | The injected call's argument parses to exactly the token and ends where the call closes, for every token, and the whole script is safe. |

## Left out

- The HTTP, Express, Fetch and GraphQL adapters, CORS, security headers, the hosted page's HTML and `hostedPage`: plumbing around the service.
- Provider calls, signatures, tokens, tracing and logging: the provider's answers and failures are arguments of each call.
- Input validation, the environment, the boot guard, the registry, error copy, `withRetry` and origin matching: they check or look up single values, and nothing the write path or the runs promise depends on them. A failure's user-facing text is not modelled, its code and raw message are.
- Audit ids, timestamps and `updatedAt`, locale and platform: nothing modelled reads them. `createdAt` is kept as the ordering key. The log is in commit order, which under Postgres need not be the order of its timestamps.
- The in-memory store under concurrent transactions: its rollback restores a snapshot over what others wrote, so it is proved sequentially only; concurrency is proved for Postgres.
- Host effects in the interleaved runs: they run after the commit and touch no session, and are proved for sequential runs. Effects that call back into the service are not modelled.
- Postgres itself: index and foreign-key locks, which only make calls wait longer, failures to commit, and other isolation levels.
- React: rendering, strict-mode remounting, and a source or options that change between renders. Host callbacks that throw are not modelled; the hooks swallow what `onError` throws.
- The web hook's `isOnline` flag and its online listener, and `interpret`: translating raw page messages into events.
- The rate limiter's HTTP headers, limits that are not integers, and clocks that go back.
- JSON values without a text (undefined, functions, `toJSON`), the number grammar (a number is an opaque token of number characters), and merging of duplicate member names: an object is the list of its members.
- NativeSource.MapMobileStatus: a status named like a property every JavaScript object inherits ("toString", say) is taken for an unknown one. Upper-casing outside ASCII is left out too.
- NativeSource.LaunchEndsExactlyOnce: speaks of launches during which the host neither cancels, unmounts nor feeds the hook an event of its own; what then happens is in the runs of HookProofs.
- The session-token provider's `start` throwing before it returns a promise: nothing is stored then, and the caller gets the error.
- Redelivery.RedeliveryExactly: leaves out an event that names the empty string as its level, and a second delivery whose store throws.
