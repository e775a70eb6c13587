# AgentGate, verified

A Dafny model of AgentGate's authorization and approval flow, and proofs about it.

AgentGate decides every MCP request an agent makes. `Server.Check` resolves who is calling,
evaluates Cedar policies and record ownership, writes an audit row and parks destructive calls.
Any number of humans then race to click Approve or Deny. The click that wins the guarded UPDATE
reads the row back, reloads the policy file, re-checks the call, sends it to the backend, stores
the result and writes a second audit row. Between any two of these operations anything else may
happen: other clicks, other checks, edits of the policy file, grants and revokes, and the steps of
the backend's handlers. Each database write may also fail before it takes effect, or take effect and
report an error.

## How it is organised

- `Protocol` is the flow as a machine over its atomic steps: one session per running call, one event
  per step, any number of sessions. `Invariant` and `Preservation` hold the invariant and its proof:
  a step acts on at most one transaction, which no other session claims.
- `Guarantees`, `Conclusions`, `Endings`, `Provenance`, `Destruction`, `Ownership`, `Freshness`, `Voiding` and
  `Accounts` hold over every run, faults included. `Endings` is about the words the database keeps of an approval;
  `Provenance` traces rows and requests back to the check requests and clicks that arrived. `FaultFree` holds what needs fault-free runs, and termination, which does not.
  `Stranding` says exactly which decided rows can be left behind under faults.
- `Walks` and `Scenarios` build complete runs from the initial world in which something the
  documentation rules out does happen.
- `Store`, `Audit`, `Engine`, `Relations`, `ToyServer` are the objects the code updates in place.
  `Deployment` couples them to a protocol world and the trace that led there (`Traces`); each of its methods is
  one atomic operation, adds one event to the trace, and states what it did. `Executor` and `Authz` are
  Approve, Deny and Check written statement by statement over those operations; since they only ever
  add to the trace, every theorem about runs is a theorem about them.
- `Policy`, `Cedar` and `PolicyProperties` are the decision and its laws, `Identity` and `Base64Url`
  the claims search and the token decoder, `Json` and `Wrappers` the shared data types.

`Deployment.Interfere` marks a point where others may run. Its body is empty; its contract lets the
trace grow by any events other than steps of the caller's session, and callers rely on the contract alone.

## Where the code and its documentation differ

The model follows the code.

- The README (59-61, 91-93) says a permission revoked while a call is parked voids its approval.
  `Reload` reads the file outside the lock and swaps inside it, so a slower Reload can put an older
  text back. While the file denies the call, the approval is void if and only if no Reload in flight
  holds a text that still permits it (`VoidedIff`); `GoneTextIsUsed` is a run in which the call goes out
  although the file has denied it at every instant since the click. The re-check's policy is sure to
  have been read after the click if and only if no older Reload is in flight (`FreshIffNoOlderReload`).
  Ownership is different: an edge that is gone from the click on does void the approval, in every run
  (`RevocationRespected`).
- TESTING_GUIDE.md (218-221) takes differing versions on the park row and the void row as proof that the
  re-check ran against the newer policy. The version is read later, under a separate lock: it is the
  deciding one if and only if no swap came between (`StampIsDecidingIff`, for Check rows and executor
  rows). `LateStamp` is a run with differing versions whose re-check ran against the old policy.
- migrations/001_audit_log.sql (10-12) says the approval flow references the attempt's transaction id. Parked
  rows do; the executor's own audit rows draw fresh ids (`OneFilingPerTransaction`).
- TESTING_GUIDE.md (136-137) reads the executor's rows by their method. Check logs the method of any message it lets
  through as the client sent it, so the method alone does not tell who wrote a row; method and decision together
  do (`MethodAndDecisionTell`).
- agentgate/internal/audit/audit.go (53-55) says nothing acted on is missing from the log. A Check has its row if and
  only if its own audit write took effect (`EntryIffWritten`), and a failed write does not stop an allow:
  `MessageUnaudited` and `ForwardedUnaudited` are runs that act without a row. It does stop a park
  (`ParkedIsLinked`). How many rows are missing, and through which failures, is counted exactly
  (`ConservationWithFaults`).
- agentgate/internal/relations/relations.go (126) says List returns every owner edge. A receive error ends the list
  without being reported; it is complete if and only if the stream was not cut short (`Client.List`).
- The schema comment (migrations/002_pending_approvals.sql:18) ends every decided row in a result. After a fault
  between the click and SetResult nothing retries; a decided row can still get a result if and only if a
  running session holds it (`StrandedIffAbandoned`, with runs that abandon a row).
- The comment on SetResult (agentgate/internal/approval/store.go:96-97) names `executed` and `failed` as the terminal
  states; Deny stores a result with `denied`.
- toy-server/main.go (20, 53-64) shares a map without a lock: two approved calls can both be told that they
  deleted one record, if and only if both handlers found it before either deleted it
  (`DeletedAgainIff`, `DeletesTwice`).

Three things the code does not give, each with what holds instead:

- that `failed` means the tool was not reached, or that it was: `FailedThoughExecuted` and `FailedUnsent` are runs that
  end in the same row, failed with a failed call, one with the record deleted and one whose call never left. The
  backend can have taken the call if and only if a request went out (`FailedRowReached`), which the send step
  decides (`ReachedIffSent`). A stored refusal or failed connection shows that none did, a stored tool error
  that one did;
- that ownership still holds when the tool runs: `DeletesUnowned` is a run in which it does not. It holds if
  and only if no revocation between the check and the deletion was left unrepaired (`DeletedWhileOwnedIff`);
- that an audit row is stamped with the deciding version (`StampIsDecidingIff`, `LateStamp`, above).

## Model

| member | source | states |
|---|---|---|
| `Guarantees.AtMostOneInvocation` | agentgate/internal/approval/executor.go:37-76 | over every interleaving and every failure, at most one tool request is ever sent for a transaction; it carries the parked tool and arguments, and was sent after a human approved |
| `Guarantees.DeniedIsNeverInvoked` | agentgate/internal/approval/executor.go:79-94 | once a Deny has won, no continuation sends a request for the transaction, and none was sent before |
| `Destruction.EndToEndDestruction` | toy-server/main.go:53-64 | a seeded record is gone if and only if an approved transaction naming that record destroyed it, with park < click < ownership check < send < lookup < deletion and, ownership checks on, the parked user owning the record at the check; a record still there is unchanged |
| `Destruction.ErasureIsApproved` | agentgate/internal/approval/executor.go:50-66 | any request that deleted a record satisfies that whole chain |
| `Destruction.DistinctTransactions` | toy-server/main.go:53-64 | no transaction destroys two records, so missing records map to distinct approved transactions |
| `Ownership.DestructionIsOnRecord` | agentgate/internal/authz/server.go:93-116 | every destroyed record is on record: exactly one audit row has the id of the transaction that destroyed it, an earlier needs_approval for that user and that record |
| `Ownership.DeletedWhileOwnedIff` | agentgate/internal/approval/executor.go:58-66 | a record deleted for an approved transaction is the parked user's at the deletion if and only if no revocation between the ownership check and the deletion was left unrepaired by a grant before the deletion; without ownership checks, if moreover it was owned at that instant or written since |
| `Scenarios.DeletesUnowned` | agentgate/internal/relations/relations.go:74-76 | a complete run in which the edge is revoked after the re-check and the call deletes the record all the same |
| `Ownership.EdgeHistory` | agentgate/internal/relations/relations.go:94-118 | over every run and between any two instants: an edge is there later if and only if it was not withdrawn in between and was there before or has been written |
| `Ownership.GraphIsHistory` | agentgate/internal/relations/relations.go:94-118 | after any run the graph holds exactly the edges whose last operation, before or during the run, was a grant |
| `Destruction.DeletionsOverlap` | toy-server/main.go:58-61 | when two requests both deleted a record, each had found it before the other deleted it |
| `Destruction.DeletedAgainIff` | toy-server/main.go:20-24 | the handlers share an unguarded map: once a request has deleted a record, another request deletes it too, in some continuation, if and only if its handler had found the record before that deletion |
| `Scenarios.DeletesTwice` | toy-server/main.go:53-64 | a complete run in which two approved transactions delete one record, are both told so, and both end as executed |
| `Guarantees.CompleteMediation` | agentgate/internal/authz/server.go:86-134 | whatever the policies, Check never answers allow to a tools/call whose tool is named delete_, transfer_, drop_ or remove_ something, and every request for such a tool belongs to its own row, won by an approve (approved, executed or failed), holding that same call |
| `Guarantees.ResultIsFinal` | agentgate/internal/approval/store.go:98-103 | although SetResult has no guard, a row that has a result never changes again in any run |
| `Guarantees.FirstClickWins` | TESTING_GUIDE.md:171-179 | who decided, when, which way, and the captured call never change after the first winning click |
| `Guarantees.RowLifecycle` | migrations/002_pending_approvals.sql:18-24 | each step of each session moves a row only pending to approved or denied, and approved to executed or failed (or stores a denied row's result); new rows start pending without result |
| `Guarantees.ExecutedIsTrue` | agentgate/internal/approval/executor.go:66-75 | a row in state executed has a result, and the backend did answer its own request with that very result (the converse needs the answer to arrive in time, see Scenarios.FailedThoughExecuted) |
| `Guarantees.RevocationRespected` | agentgate/internal/approval/executor.go:50-63 | if the owner edge was absent at every instant since the winning click, no request was sent; the row is failed with one of the two refusals as its result, or still approved without result; the only executor row is a deny; and no session stands between re-check and answer |
| `Guarantees.RevokedIsNotExecuting` | agentgate/internal/approval/executor.go:58-66 | the session part of the same claim: a session whose user lost the edge never reaches the tool call |
| `Guarantees.RecheckExact` | agentgate/internal/approval/executor.go:58-63 | the re-check lets the call through if and only if the snapshot policy permits it and, with ownership checks on, the graph answered and the user owns the record at that step; it is never plain allow; otherwise the session closes with state failed |
| `Guarantees.RecheckStable` | agentgate/internal/approval/store.go:39-58 | parking and reloading a call (which drops Subject) loses nothing: with the same policies in any order and the edge present, the re-check passes |
| `Guarantees.ParkedIsLinked` | agentgate/internal/authz/server.go:93-116 | every parked row has exactly one audit row with its id, written earlier, decided needs_approval, for the same agent, user, roles, tool and arguments |
| `Guarantees.OneFilingPerTransaction` | agentgate/internal/approval/executor.go:103-117 | a transaction gets at most one executor audit row, which repeats its captured call column by column, only after a click won, under an id that is not the parked one; and then no session works on it any more |
| `Guarantees.InstalledPair` | agentgate/internal/policy/engine.go:75-98 | at every instant the installed policies and the version come from one text, which the file held when it was read; the version is the first 12 digits of the hash of that text |
| `Guarantees.AuditExplains` | agentgate/internal/authz/server.go:43-60 | for a Check row: arrival < policies taken < graph asked < version read < row written, and the decision is what those policies and the graph at that recorded instant, answering or not as recorded, decide for the logged call; no other row for the same Check |
| `Guarantees.FilingExplains` | agentgate/internal/approval/executor.go:54-75 | for an executor row, likewise from the winning click on: a deny is what the re-check decided, or the reload had failed; an execution, failed or not, was decided needs_approval; an executed row has its one request, with the filed call, answered with success; a human denial was not judged |
| `Guarantees.MethodAndDecisionTell` | agentgate/internal/approval/executor.go:103-114 | from the method and the decision column alone: a row is the executor's if and only if its method is one of the four approval/... names and its decision is not allow |
| `Guarantees.FiledUnderItsName` | agentgate/internal/approval/executor.go:66-73 | among rows not decided allow, each of the four approval/... methods is that of exactly one ruling of the executor |
| `Guarantees.ExecutedEntryIsTrue` | agentgate/internal/approval/executor.go:71-75 | a row with method approval/executed_after_approval that is not an allow is never false, even when the result could not be stored: it is the executor's, the transaction's only request carried the filed call and the backend answered it with success |
| `Guarantees.StampIsDecidingIff` | agentgate/internal/policy/engine.go:94-98 | for both kinds of row: the stamped version is the first 12 digits of the hash of a text installed at or after the deciding one, and that installation is the deciding one if and only if no swap fell between taking the policies and reading the version |
| `Scenarios.LateStamp` | TESTING_GUIDE.md:218-221 | a complete run whose void row carries the new version while its re-check ran with the very policies that had parked the call |
| `Guarantees.OthersRun` | agentgate/internal/approval/store.go:84-103 | while one session stands still, whatever the others do leaves its position and all about the transaction it works on unchanged |
| `Guarantees.RunExtends` | agentgate/internal/approval/executor.go:37-117 | over any run the invariant holds and history only grows: installations, log, past, requests, and rows along the lifecycle |
| `Conclusions.ConcludedForever` | agentgate/internal/approval/executor.go:37-101 | once a transaction is decided and no session works on it, no run changes its row, sends a request for it or writes an audit row about it |
| `Conclusions.RevokedIsNeverInvoked` | agentgate/internal/approval/executor.go:50-63 | if the edge was absent from the winning click to the end of the session, the tool is never called for the transaction in any continuation, even after the edge is granted back, and a stored result is a refusal with state failed |
| `Conclusions.RefusedIsNeverInvoked` | agentgate/internal/approval/executor.go:97-117 | a row with method approval/deny or approval/denied_by_human that is not an allow proves that the tool was not and will not be called for its transaction |
| `Conclusions.RefusedRowIsNeverInvoked` | agentgate/internal/approval/executor.go:97-101 | so does a stored refusal, whether or not the audit row was written |
| `Conclusions.FailedRowReached` | agentgate/internal/approval/executor.go:66-70 | for a failed row, the backend has taken its call or can still take it if and only if a request went out; this is so only if the stored result is a failed call or a tool error, and always if it is a tool error |
| `Conclusions.ReachedIffSent` | agentgate/internal/approval/executor.go:139-144 | a call about to go out reaches the backend in some continuation if and only if its own send was not refused |
| `Conclusions.FailedRowSent` | agentgate/internal/approval/executor.go:126-149 | a request for a failed row was sent only if the stored result is a failed call or a tool error, and a stored tool error is the answer to one that was sent |
| `Conclusions.ToolErrorChangedNothing` | agentgate/internal/approval/executor.go:146-148 | a stored tool error is the backend's own answer: the handler ran to its end without finding anything to delete, in every continuation |
| `Endings.HeardIsStored` | agentgate/internal/approval/executor.go:139-150 | what a session that waits for the backend is about to store is decided by what it hears: a success gives executed with that text, a tool error gives failed with "tool returned error", and an unregistered tool or no answer gives failed with "call tool" |
| `Endings.EndingIsNamed` | agentgate/internal/approval/executor.go:66-101 | over every run, an executor row and the parked row it is about agree, if a result could be stored: executed_after_approval goes with executed and the backend's answer, execute_failed with failed and one of the three texts of a failed call, deny with failed and one of the two refusals, denied_by_human with denied and "denied by" the decider; and conversely |
| `Conclusions.SendingOverForever` | agentgate/internal/approval/executor.go:64-76 | once no session has a send of the transaction ahead and none was made, none is made in any run |
| `Scenarios.FailedThoughExecuted` | agentgate/internal/approval/executor.go:139-144 | a complete run in which a row ends as failed with a failed call, and its call deleted the record all the same |
| `Scenarios.FailedUnsent` | agentgate/internal/approval/executor.go:139-144 | a complete run that ends in the same kind of row, failed with a failed call, whose call never left and never can |
| `Scenarios.SecondDeletionFails` | agentgate/internal/approval/executor.go:145-148 | a complete run in which two approved transactions delete one record one after the other: the second row ends as failed with "tool returned error" |
| `Provenance.CheckRowIsTheCall` | agentgate/internal/authz/server.go:43-60 | over every run, the audit row of a Check holds agent, user and roles of the identity that arrived and method, tool and arguments of its call, whatever the verdict, and its decision is what was answered, but for a call that could not be parked; an unidentified caller has none |
| `Provenance.ParkedIsTheCall` | agentgate/internal/authz/server.go:102-109 | over every run, a parked row holds the fields of a tools/call that an identified caller sent, for a tool with one of the four prefixes |
| `Provenance.RequestsWereAsked` | agentgate/internal/authz/server.go:86-109 | over every run, every request to the backend has the tool and arguments of a tools/call that an identified caller sent; one for a tool with one of the four prefixes was approved by a click on its transaction |
| `Provenance.DeciderClicked` | agentgate/internal/approval/store.go:84-94 | over every run, whoever a row names as its decider clicked on that transaction, in the direction in which it was decided |
| `Provenance.LoggedAsAsked` | agentgate/internal/authz/server.go:43-60 | the same for a running Check and its own row, between any two points of a run |
| `Provenance.UnidentifiedIsUnlogged` | agentgate/internal/authz/server.go:69-77 | a caller who cannot be identified never gets an audit row |
| `Conclusions.RefusingIsSilent` | agentgate/internal/approval/executor.go:97-101 | a session about to record a refusal has sent no request for its transaction |
| `Invariant.InitialInv` | agentgate/internal/policy/engine.go:66-73 | the invariant holds after a successful start |
| `Preservation.NextInv` | agentgate/internal/approval/executor.go:37-150 | every step of every session, faulty or not, every edit, graph write and delivery keeps the invariant |
| `Preservation.NextRows` | agentgate/internal/approval/store.go:84-103 | a step changes only the row of the one transaction it acts on, along one lifecycle edge |
| `Preservation.ClaimsAreExclusive` | agentgate/internal/approval/store.go:84-94 | no step acts on a transaction another session has won or is parking: the guarded UPDATE is the only synchronisation needed |
| `Preservation.NextUndisturbed` | agentgate/internal/approval/store.go:84-103 | a step leaves every other transaction's row, requests and executor rows exactly as they were |
| `Preservation.JudgeSound` | agentgate/internal/policy/engine.go:153-176 | Decide never allows a destructive tool and never parks a call without a usable record id when ownership is checked |
| `Preservation.RejudgePasses` | agentgate/internal/approval/executor.go:58-63 | a parked call that is not denied again was owned when the graph answered, and is judged needs_approval |
| `Preservation.ReachableInv` | agentgate/internal/approval/executor.go:37-150 | every reachable world satisfies the invariant |
| `Freshness.RecheckPolicyAge` | agentgate/internal/policy/engine.go:77-91 | the re-check's policy is one the file held, at an instant no earlier than the read of the oldest Reload in flight when this session read the file; with none older, after the approving click |
| `Freshness.FreshIffNoOlderReload` | agentgate/internal/approval/executor.go:51-58 | every continuation re-checks with a policy read at or after the click if and only if no Reload that read the file before the click is still in flight |
| `Freshness.OlderReloadWins` | agentgate/internal/policy/engine.go:77-91 | constructs the run in which an older Reload swaps last and the re-check takes its text |
| `Freshness.StaleRecheck` | agentgate/internal/policy/engine.go:77-91 | from any such state a run exists that re-checks with a policy read before the click |
| `Freshness.StaysFreshRun` | agentgate/internal/policy/engine.go:77-91 | without an older Reload, no run makes the session re-check with a policy read before its click |
| `Voiding.VoidedIff` | agentgate/internal/approval/executor.go:51-63 | an approval about to reload a readable file that denies its call: as long as the file goes on denying it, the call is kept from the backend in every continuation if and only if no Reload in flight holds a text that still permits it |
| `Voiding.PolicyRevocationRespected` | agentgate/internal/approval/executor.go:51-63 | with no such text in flight and the file denying the call, no request is sent, the only result stored is a refusal with state failed, and once the session has ended this holds for good |
| `Voiding.DeniedSinceClickIsVoided` | README.md:91-93 | if every text the file has held from the winning click on denies the call and no older Reload was in flight at the read, the approval is void |
| `Voiding.StaleTextIsOlder` | agentgate/internal/policy/engine.go:77-91 | every text in flight that permits a call denied since the click was itself read before the click |
| `Voiding.StaleTextIsUsed` | agentgate/internal/policy/engine.go:77-91 | with such a text in flight, a run sends the call although the file never changes |
| `Scenarios.GoneTextIsUsed` | TESTING_GUIDE.md:190-221 | for any first policies that permit a call and any edit that denies it, a complete run in which the file denies the call at every instant from the click on and the request goes out |
| `Accounts.EntryIffWritten` | agentgate/internal/authz/server.go:43-60 | over every run, a Check has its audit row if and only if its own audit write took effect, whatever it answered |
| `Accounts.ConservationWithFaults` | agentgate/internal/audit/audit.go:53-72 | over every run, once all calls have returned: rows in the log plus rows missing equal one per identified Check plus one per decided transaction, where a row is missing for each refused audit write, each winning click whose win was not reported and each won row that could not be read back; the log is complete if and only if none of these happened |
| `Accounts.RunBalanced` | agentgate/internal/approval/executor.go:37-117 | the same balance at every point of every run, with the rows running sessions are still to write |
| `Scenarios.MessageUnaudited` | agentgate/internal/authz/server.go:79-84 | from every world, a protocol message that is answered allow and never gets an audit row |
| `Scenarios.ForwardedUnaudited` | agentgate/internal/authz/server.go:40-42 | a permitted tools/call that reaches the backend and never gets an audit row |
| `FaultFree.AuditConservation` | agentgate/internal/audit/audit.go:53-72 | in fault-free runs, once all calls have returned: one audit row per identified Check plus one per decided transaction, and every identified Check has its row |
| `FaultFree.NothingStranded` | agentgate/internal/approval/executor.go:37-101 | in fault-free runs, once all calls have returned: no decided row is left approved or without result, and each has exactly one executor row, which agrees with its state |
| `FaultFree.MeasureDecreases` | agentgate/internal/approval/executor.go:37-94 | each step of a running call and of a backend handler, failing or not, lowers a measure over all sessions and requests |
| `FaultFree.CallsTerminate` | agentgate/internal/approval/executor.go:37-94 | running calls and handlers take at most that many steps in all |
| `FaultFree.NeverStuck` | agentgate/internal/approval/executor.go:37-94 | a call that has not returned can always take its next step, or its handler can |
| `FaultFree.CanFinish` | agentgate/internal/approval/executor.go:37-101 | from every world that satisfies the invariant, even after faults, fault-free steps lead to one where all calls have returned |
| `FaultFree.PendingIsWinnable` | agentgate/internal/approval/store.go:61-94 | a row is pending if and only if some later click can still win it |
| `Stranding.StrandedIffAbandoned` | agentgate/internal/approval/executor.go:42-76 | under faults, a decided row without a result can still get one if and only if a running session holds it; otherwise no run ever changes it |
| `Stranding.AbandonedForever` | agentgate/internal/approval/executor.go:42-49 | a decided row that no session holds stays as it is in every run |
| `Stranding.HolderFinishes` | agentgate/internal/approval/executor.go:42-76 | a session that holds a decided row can always go on to store its result |
| `Stranding.LostClickAbandons` | agentgate/internal/approval/executor.go:38-41 | from any world with a pending row: a click whose success is reported as an error abandons the row as approved or denied |
| `Stranding.FailedFetchAbandons` | agentgate/internal/approval/executor.go:45-48 | so does a won click whose row cannot be read back |
| `Stranding.RefusedResultAbandons` | agentgate/internal/approval/executor.go:87-90 | so does a won denial whose result cannot be stored |
| `Stranding.RestartAbandons` | TESTING_GUIDE.md:223-225 | a restart of the service abandons every decided row that has no result yet, in every continuation |
| `Stranding.RestartInv` | agentgate/cmd/agentgate/main.go:30-58 | the invariant survives a restart |
| `Deployment.Deployment.constructor` | agentgate/cmd/agentgate/main.go:30-58 | the service starts in an initial world, with every object in the state that world describes |
| `Deployment.Deployment.Arrive` | agentgate/internal/authz/server.go:62-67 | an arriving check request is one event, and gets a session of its own |
| `Deployment.Deployment.ClickArrives` | agentgate/internal/approval/executor.go:35-37 | so does a click on Approve or Deny |
| `Traces.WonForGood` | agentgate/internal/approval/store.go:84-94 | the winner of a click stays the winner in every run |
| `Deployment.Deployment.Click` | agentgate/internal/approval/store.go:84-94 | the guarded UPDATE is one step of the session; a reported win means the row was pending, and the rows after it are the decided ones, or unchanged after an error |
| `Deployment.Deployment.Fetch` | agentgate/internal/approval/store.go:53-58 | reading the row back is one step, changes no row, and yields the row as stored |
| `Deployment.Deployment.ReadFile` | agentgate/internal/policy/engine.go:77-85 | the read half of Reload is one step: the text is the file's and parses; on failure nothing is installed and the session is refusing |
| `Deployment.Deployment.Swap` | agentgate/internal/policy/engine.go:86-91 | the locked swap is one step after which the engine has exactly the text read and its policies |
| `Deployment.Deployment.Snapshot` | agentgate/internal/policy/engine.go:107-110 | Decide's locked read is one step and takes the latest installation |
| `Deployment.Deployment.Recheck` | agentgate/internal/policy/engine.go:112-177 | the evaluation is one step; its decision is that of the policies taken and the graph at this instant, and it fixes whether the session refuses or calls |
| `Deployment.Deployment.Connect` | agentgate/internal/approval/executor.go:123-137 | opening the client and the session is one step of its own; on an error nothing is sent and the session closes with a failed connection |
| `Deployment.Deployment.Send` | agentgate/internal/approval/executor.go:139-144 | sending is one step that adds exactly this call's request, or none and then closes with a failed call |
| `Deployment.Deployment.Await` | agentgate/internal/approval/executor.go:138-150 | the answer heard decides the result: a success is returned with its text, a tool error as "tool returned error", and an unregistered tool or no answer as "call tool", which says nothing about delivery |
| `Deployment.Deployment.SetResult` | agentgate/internal/approval/store.go:98-103 | the unguarded UPDATE is one step after which the row holds state and result, or nothing changed |
| `Deployment.Deployment.ReadVersion` | agentgate/internal/policy/engine.go:94-98 | the version stamp is that of the current installation, read in a step of its own |
| `Deployment.Deployment.File` | agentgate/internal/approval/executor.go:103-117 | the executor's audit write is one step that appends exactly this row, column by column and under the name of its ruling, or none, sends nothing and ends the session |
| `Deployment.Deployment.Draw` | migrations/001_audit_log.sql:13 | the drawn transaction id is on no earlier row |
| `Deployment.Deployment.Admit` | agentgate/internal/authz/server.go:65-88 | an unidentified caller is refused, protocol messages skip the decision, a tools/call takes the policy set installed now |
| `Deployment.Deployment.Evaluate` | agentgate/internal/policy/engine.go:112-177 | the decision is that of the policies taken and the graph at this instant, in one step |
| `Deployment.Deployment.Record` | agentgate/internal/authz/server.go:43-60 | the audit write is one step that appends exactly the row with the caller's and the call's columns and this verdict, or none; only a reported write yields an id to park with |
| `Deployment.Deployment.Park` | agentgate/internal/approval/store.go:39-50 | the INSERT is one step; when it reports success the id was new and the pending row holds the captured call |
| `Deployment.Deployment.Forward` | agentgate/internal/authz/server.go:137-149 | the gateway sends exactly the call that was allowed, or nothing |
| `Deployment.Deployment.GrantOwner` | agentgate/internal/relations/relations.go:94-97 | a grant is one event of the protocol, or has no effect |
| `Deployment.Deployment.RevokeOwner` | agentgate/internal/relations/relations.go:99-102 | a revocation is one event of the protocol, or has no effect |
| `Deployment.Deployment.EditFile` | agentgate/internal/policy/engine.go:75-81 | an edit of the policy file is one event of the protocol |
| `Deployment.Deployment.Handle` | toy-server/main.go:54-60 | a handler up to its answer or its deletion is one event of the protocol |
| `Deployment.Deployment.Erase` | toy-server/main.go:61-63 | a handler's deletion and answer is one event of the protocol |
| `Traces.OthersTraced` | agentgate/internal/approval/store.go:84-103 | what a session may rely on across interference by all others |
| `Executor.Executor.Approve` | agentgate/internal/approval/executor.go:37-76 | with arbitrary interference between any two operations, the call adds a run of the protocol that finishes its session, and its answer is honest: already decided only if the row was not pending; otherwise this clicker won for good and the call was voided without any request sent, failed, or executed with the backend's answer, with that state and result stored unless storing failed; after an error, a click that did take effect will never lead to a call |
| `Executor.Executor.ExecuteApproved` | agentgate/internal/approval/executor.go:44-75 | the part after a won click ends the session and answers truthfully; when the row cannot be read back nothing was and nothing will be sent |
| `Executor.Executor.Reload` | agentgate/internal/policy/engine.go:77-91 | the two halves of Reload with interference between them; a failure leaves the session refusing |
| `Executor.Executor.ExecuteIfStillAllowed` | agentgate/internal/approval/executor.go:58-75 | the reply is voided if the judgment of the re-check is deny, and an execution if it is needs_approval; the judgment names the policies and the graph instant it came from |
| `Executor.Executor.ReloadAndExecute` | agentgate/internal/approval/executor.go:54-75 | a failed reload gives the voided reply and stores "policy reload failed"; otherwise the reply is voided exactly if the recorded judgment of the re-check is deny, and "re-check denied" is stored, unless storing failed |
| `Executor.Executor.Finish` | agentgate/internal/approval/executor.go:66-75 | the row holds this state and result and the only executor row is this ruling with this judgment, unless the write failed; a refusal leaves no request behind |
| `Executor.Executor.Execute` | agentgate/internal/approval/executor.go:66-75 | executed with the backend's answer stored and filed, or failed with the error's text stored and filed, unless the write failed |
| `Executor.Executor.CallTool` | agentgate/internal/approval/executor.go:122-150 | what was heard decides the result: a success is returned with its text, a tool error as "tool returned error", and otherwise the text says that the call was never sent ("mcp initialize") or may or may not have been ("call tool") |
| `Executor.Executor.Wait` | agentgate/internal/approval/store.go:84-103 | interference leaves a won transaction's row as it is, and what is unsent or unfiled stays so |
| `Executor.Executor.Refuse` | agentgate/internal/approval/executor.go:97-101 | failed with this refusal stored and a deny filed, unless the write failed, and no request for the transaction exists |
| `Executor.Executor.AuditRow` | agentgate/internal/approval/executor.go:103-117 | the version read and the audit write, with interference between them, leave the row of the transaction alone and file exactly this ruling, under its own approval/... method and with the columns of the captured call |
| `Executor.Executor.Deny` | agentgate/internal/approval/executor.go:79-94 | denied is answered only if this click won, the row is denied by this clicker for good and no request exists; after an error, a click that did take effect will never lead to a call |
| `Executor.Executor.CloseDenied` | agentgate/internal/approval/executor.go:87-92 | the session finishes with the denial stored unless the write failed or the row could not be read back |
| `Authz.Server.Check` | agentgate/internal/authz/server.go:62-135 | with arbitrary interference, including between the INSERT and the answer, the call adds a run of the protocol that ends with the answer given; unidentified callers are refused, a tools/call for a tool with one of the four prefixes is never allowed, a pending answer names a row that holds the fields of exactly this call, and the audit row, if there is one, holds this caller, this call and the answer |
| `Authz.Server.Record` | agentgate/internal/authz/server.go:43-60 | version read and audit write as two steps; the row, if there is one, holds this caller, this call and this verdict, and a returned id is its id |
| `Authz.Server.Resolve` | agentgate/internal/authz/server.go:79-134 | the part for an identified caller: decision, audit row and answer |
| `Authz.Server.Verdict` | agentgate/internal/authz/server.go:79-88 | only a tools/call is decided; any other method is let through without a judgment |
| `Authz.Server.Respond` | agentgate/internal/authz/server.go:95-134 | allow is answered exactly for the verdict allow; a pending answer only for needs_approval, under the audited id, with the call parked |
| `Authz.Server.ParkCall` | agentgate/internal/authz/server.go:102-127 | a call that could not be audited or parked is refused; a parked one keeps its captured call whatever happens before the answer |
| `Authz.AnswerFacts` | agentgate/internal/authz/server.go:79-134 | what may be forwarded is not destructive, and what waits for approval is |
| `Store.Table.Park` | agentgate/internal/approval/store.go:39-50 | inserts a pending row with these fields and nothing decided under a new id, whenever its transaction began, and refuses the empty id and a used one |
| `Store.Table.Get` | agentgate/internal/approval/store.go:53-58 | returns the row as stored, or nothing |
| `Store.Table.ListPending` | agentgate/internal/approval/store.go:61-79 | returns exactly the pending rows, each once, in the order of created_at whatever the order of insertion |
| `Store.WaitingIsWinnable` | agentgate/internal/approval/store.go:61-79 | the query's answer holds exactly the winnable rows, without repetition and in the order of created_at |
| `Store.Table.Decide` | agentgate/internal/approval/store.go:84-94 | changes only state, decider and instant, and only of a pending row, and reports exactly whether it did |
| `Store.Table.SetResult` | agentgate/internal/approval/store.go:98-103 | overwrites state and result, whatever the state is, and nothing else |
| `Audit.Log.Record` | agentgate/internal/audit/audit.go:56-72 | appends one row and returns its id, or returns no id although the row may be there |
| `Engine.IsDestructive` | agentgate/internal/policy/engine.go:56-64 | true exactly for names that start with delete_, transfer_, drop_ or remove_ |
| `Policy.FourPrefixes` | agentgate/internal/policy/engine.go:54-64 | the classification every decision goes through is by these four prefixes |
| `Engine.Engine.Start` | agentgate/internal/policy/engine.go:66-73 | there is an engine if and only if the file can be read and parsed, with its policies and the first 12 digits of its hash |
| `Engine.Engine.Reload` | agentgate/internal/policy/engine.go:77-91 | installs the policies and the first 12 digits of the hash of the text read, and on any failure changes neither |
| `Engine.Engine.Install` | agentgate/internal/policy/engine.go:86-90 | the policies installed are those of the text the first 12 digits of whose hash are installed |
| `Engine.Engine.Evaluate` | agentgate/internal/policy/engine.go:112-177 | the loops and branches compute the decision function |
| `Engine.Engine.Decide` | agentgate/internal/policy/engine.go:107-177 | exactly when each answer is given, by the installed policies, the four prefixes, the string under id in the arguments and what the graph answered |
| `PolicyProperties.ShippedTable` | agentgate/internal/policy/engine.go:100-106 | the documented table for the shipped policies and the four prefixes, for every role list, tool name, arguments and graph |
| `PolicyProperties.ShippedCedar` | policies/agentgate.cedar:15-28 | Cedar permits exactly admins, and readers on tools with none of the four prefixes |
| `PolicyProperties.MayCallIff` | agentgate/internal/policy/engine.go:112-147 | for every policy set of the fragment, a call is permitted if and only if some permit and no forbid applies to it: user by name or role, action call_tool, tool by name, and risk "destructive" for the four prefixes and "read" otherwise |
| `PolicyProperties.SatisfiedIffApplies` | agentgate/internal/policy/engine.go:120-140 | the entity graph Decide builds makes a policy satisfied exactly when it applies so |
| `PolicyProperties.OwnershipOnlyNarrows` | agentgate/internal/policy/engine_test.go:77-97 | for every policy set, ownership checks only turn destructive answers into deny, exactly when ownership is not shown |
| `PolicyProperties.DecisionDependsOnly` | agentgate/internal/policy/engine.go:107-177 | only user, set of roles, tool, id argument, policies and graph matter |
| `PolicyProperties.OrderIsIrrelevant` | policies/agentgate.cedar:15-28 | reordering or repeating policies changes no decision |
| `PolicyProperties.AddedPolicy` | agentgate/internal/policy/engine.go:142-177 | adding a forbid can only move a decision to deny, adding a permit only off deny |
| `PolicyProperties.ParkedIsNeverAllowed` | agentgate/internal/policy/engine.go:153-176 | no edit of policies, roles, user, arguments or graph turns a parked tool's decision into allow |
| `PolicyProperties.MoreRolesNeverLose` | policies/agentgate.cedar:15-31 | without forbids, a superset of roles keeps every permission and the same decision |
| `PolicyProperties.AuthorizedByMembers` | agentgate/internal/policy/engine.go:142-147 | Cedar's answer depends on which policies are present, not on their positions |
| `Identity.FindClaimsMap` | agentgate/internal/identity/identity.go:67-86 | for every tree and every map order: nothing is found exactly when no map reachable through maps has sub or on_behalf_of; otherwise the map found has it and no map above it on its path does |
| `Identity.NestedIsFound` | agentgate/internal/identity/identity.go:67-86 | a claim set with sub or on_behalf_of is there to be found at any depth |
| `Identity.ClaimsFromMetadata` | agentgate/internal/identity/identity.go:57-65 | the same over all filter metadata |
| `Identity.BearerRoundTrip` | agentgate/internal/identity/identity.go:88-105 | a token built from any payload between dot-free segments decodes to that payload, with "Bearer " before it or without |
| `Identity.PayloadRefused` | agentgate/internal/identity/identity.go:90-99 | a token is refused exactly when it does not have two dots or its middle segment does not decode |
| `Identity.FromClaims` | agentgate/internal/identity/identity.go:107-130 | claim by claim: agent from azp, subject from sub, user from a non-empty on_behalf_of or else preferred_username, roles in order from a flat list, even an empty one, or else from realm_access.roles; anything but a string reads as empty |
| `Identity.NamesOne` | agentgate/internal/identity/identity.go:107-130 | the claims determine the identity |
| `Identity.FromCheckRequest` | agentgate/internal/identity/identity.go:38-51 | a qualifying map in the metadata wins, the bearer token is the fallback, and with neither nobody is resolved; the identity is that of the claims found, claim by claim |
| `Base64Url.DecodeInvertsEncode` | agentgate/internal/identity/identity.go:96 | decoding inverts encoding for every byte string (section 5 of RFC 4648) |
| `Base64Url.DecodeFails` | agentgate/internal/identity/identity.go:96-99 | decoding fails exactly on a foreign character or a lone last digit |
| `Base64Url.Alphabet` | agentgate/internal/identity/identity.go:96 | the digits are the URL-safe alphabet of section 5 of RFC 4648, in its order |
| `Base64Url.GroupValue` | agentgate/internal/identity/identity.go:96 | three bytes and their four digits are one 24-bit number (section 4 of RFC 4648) |
| `Base64Url.TailValue` | agentgate/internal/identity/identity.go:96 | a last group of one or two bytes is such a number with zeros below |
| `Base64Url.BreaksAreSkipped` | agentgate/internal/identity/identity.go:96 | a line break anywhere in a text changes nothing |
| `Base64Url.EncodeInvertsDecode` | agentgate/internal/identity/identity.go:96 | a decodable text is the canonical one exactly when it has no line breaks and no stray bits |
| `Base64Url.UnpackPack` | agentgate/internal/identity/identity.go:96 | the sextet form of the round trip |
| `Base64Url.PackUnpack` | agentgate/internal/identity/identity.go:96 | the sextet form of canonicity |
| `Relations.GraphRefinesHistory` | agentgate/internal/relations/relations.go:94-118 | after any sequence of grants and revokes the graph holds exactly the edges whose last operation was a grant |
| `Relations.Client.Grant` | agentgate/internal/relations/relations.go:94-97 | adds one edge to graph and history, or neither, and is idempotent |
| `Relations.Client.Revoke` | agentgate/internal/relations/relations.go:99-102 | removes one edge and records it, or does neither |
| `Relations.Client.CheckOwner` | agentgate/internal/relations/relations.go:74-92 | answers membership at this instant, or gives no answer |
| `Relations.Client.List` | agentgate/internal/relations/relations.go:126-152 | lists only edges last granted, each once, and all of them if and only if the stream was not cut short |
| `ToyServer.Server.ReadRecord` | toy-server/main.go:36-47 | succeeds exactly for a record that is there, with its text, and changes nothing |
| `ToyServer.Server.DeleteRecord` | toy-server/main.go:53-64 | with other handlers running between lookup and deletion: success is answered exactly when the record was there at the lookup, with the text "record <id> deleted", the record is gone at the end, and no record is changed or added |
| `ToyServer.Server.Handle` | toy-server/main.go:36-60 | the dispatch by tool name, up to a deletion: exactly which of the two tools finds its record, fails, or is unknown |

## Left out

- HTTP handlers, the HTML pages, the dashboard and Slack: sources of Approve, Deny, Grant and Revoke events with arbitrary ids and names.
- gRPC, Postgres, SpiceDB, MCP and Keycloak internals: each call is one atomic step that is done, done but reported as an error, or refused.
- The network between executor and backend: a request is delivered at most once, possibly after the sender gave up; MCP retries are not modelled, and opening the client and its MCP session is one step.
- The memory model of the backend's unguarded map: a lookup and a deletion are each one step; that the Go runtime may stop a program that reads and writes a map at once is not modelled.
- SHA-256: an uninterpreted function to 64 hexadecimal characters; that different texts have different hashes is not assumed.
- gen_random_uuid: drawn ids are fresh.
- Full Cedar and full JSON: only the policy fragment the shipped file uses, over the one-level entity graph Decide builds, and an abstract JSON tree; the text encodings are taken as faithful round trips.
- mcpreq.Parse and the formatting of deny bodies: the model starts from a parsed call and ends with an abstract answer.
- Reason and error texts: reduced to constants, one for each prefix that says where a call failed (no client and no MCP session share one); the result of an executed call is the backend's text rather than its JSON encoding.
- Reload's read and parse are one step: the parse looks only at the text read.
- created_at and wall-clock time: in the protocol, instants are step numbers and a row is created at its INSERT; the table itself takes any created_at.
- An identity without roles: if the driver writes an absent list as NULL, the NOT NULL column makes its audit insert fail; in such a run that write counts as refused.
- Ghost and provenance fields: which session wrote an audit row, how its decision came about and when its version was read are the model's bookkeeping and not stored by the database.
- Restarts: not an event of runs. `Stranding.Restarted` is what one leaves behind; what rests on the invariant alone holds after it, and the theorems over runs from the initial world do not span it.
- Startup retries, seeding, environment variables, logging, the client programs, AuditLog.Recent, Log.Pool and Identity.HasRole.
