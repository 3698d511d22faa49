# Cross-domain execution in Valence Protocol, modelled and proved in Dafny

A program on Valence runs through two CosmWasm contracts. The **authorization contract** on the main
domain decides who may call what, gives every call an execution id, counts the calls in process per
label, and takes one token for a call of a limited label. A **processor** on each domain queues the
message batches, dispatches them tick by tick, retries what fails, waits for libraries that confirm by
callback, and reports one result per id. Between domains both directions use a Polytone (IBC) bridge:
messages and results travel in packets that may fail or time out, and may be sent again.

The project models both contracts, the bridge and the tokens as one system, and proves what every run
of that system keeps. Next to it stand three smaller parts: the checks on authorizations and messages
(with the JSON pointers of RFC 6901), the creation of the bridge proxies, and the update plan of the
program manager.

`dafny verify dfyconfig.toml` checks the whole project.

## How it is built

| files | contents |
|---|---|
| `Types` | clocks, messages, subroutines, batches, results |
| `QueueMap` | the queue of the processor: a class over a map and two indexes, proved to be a sequence |
| `JsonPointer`, `JsonLookup`, `Validation` | restriction look-up and what it finds, well-formed authorizations, matching messages |
| `ProcessorModel`, `ProcessorTrace` | the processor as step functions; what a trace of outside events means, read without the processor |
| `ProcessorInvariant`, `ProcessorSteps`, `ProcessorEffects` | its invariant, one execution id at a time, and that every call keeps it |
| `ProcessorOutcomes`, `ProcessorExamples`, `ProcessorWaiting` | what results tell, retry budgets, runs that break promises, bounded waiting |
| `ProcessorExact` | the processor against a reference that only knows the events of a batch; where orders put batches |
| `ProcessorContract` | the processor as a class; every handler is proved against its step function, and `Execute` says when a call keeps the invariant |
| `AuthorizationModel`, `AuthorizationInvariant`, `AuthorizationContract` | the same for the authorization contract |
| `AuthorizationExact` | which requests it accepts, and what exactly they do |
| `Protocol` | the whole system: a run is a list of steps |
| `ProtocolTokens`, `ProtocolInvariant`, `ProtocolSteps`, `ProtocolCalls`, `ProtocolPackets`, `ProtocolTable` | its invariant, and that every run keeps it (`RunKeeps`) |
| `ProtocolLifeCycle`, `ProtocolPlaces`, `ProtocolTheorems`, `ProtocolEscrow`, `ProtocolLimits`, `ProtocolTicks` | the theorems about all runs |
| `ProtocolProcessors`, `ProtocolWaiting`, `ProtocolExpiry` | a run as one processor sees it: waiting in its queues, expiry |
| `ProtocolSending`, `ProtocolServing`, `ProtocolSettling`, `ProtocolAccounts` | what exactly the steps of a run do: which calls get through, what ticks and callbacks make of a batch, how calls end, the tokens of every user |
| `ProtocolProgress` | which executions can still be ended |
| `ProcessorAlone`, `ProtocolOpening`, `ProtocolExamples` | runs that exist for every subroutine that can be called: refunds after progress, lost results, calls over the cap |
| `ProxyCreation`, `ProgramUpdate` | bridge proxies; update plans |

A step function maps a store to the store it leaves and the messages it sends, or to an error; a
transaction with an error changes nothing. The classes write their fields where the source writes its
storage. When a handler of a class fails, its contract promises only the error, since the chain
discards the writes.

`RunFrom` folds the steps of a run; `Reachable` worlds are those some run leads to, and the theorems
about runs are stated for all of them. What the outside decides is part of a step: the block (height
and time are arbitrary and need not grow), what a dispatched message does, how a packet ends. What
happened to a batch is recorded in a history variable that no contract reads: the batch as delivered,
the events (a dispatch and its outcome, a library callback), and the results reported.

Rules of the system that the theorems rest on:

- A tick, the submessage it dispatches and the reply to it are one step. A failed submessage leaves
  nothing behind. Executed messages do not call the processor again.
- Every packet has exactly one outcome: applied and acknowledged, or not applied and answered by an
  error, a fatal error or a timeout. The branch for fatal errors relies on this, because it does not
  look at the state of the record.
- A library calls back in a later step, and only while its batch is in neither queue. A dispatch that
  fails leaves its pending callback behind while the batch is queued again, and the code accepts a
  callback then. `CallbackKeepsIff` shows that the rule is exact, and `StaleCallback` is a run without
  it: Success is reported while a copy stays in the queue, every tick that takes the copy fails, and
  evicting it reports `RemovedByOwner` for the same id. So `OneResult` and `TickFailsIff` are what fails
  without the rule.
- Fewer than 2^64 ids are allocated. `FreshIff` shows what happens at the end.
- Messages come from who may send them; the owner's messages without a batch (evict, pause, resume)
  reach a processor at any time.
- Other 64-bit counters are unbounded; the source panics on overflow.

Where the code and its documentation disagree, or the code does something unexpected, the model follows
the code:

- `docs/src/authorizations_processors/processor.md` promises `PartiallyExecuted` whenever some functions
  succeeded before one failed for good. The code reports `Rejected` when the function that failed has
  no retry logic (`DocumentedIff`, `RejectedAfterProgress`). Before the call: the promise is kept by all
  calls of a subroutine exactly when no function after the first can be dispatched without retry logic
  (`AlwaysDocumentedIff`).
- The same page promises retries for each function on its own. The count of the copy in the id map is
  not reset between functions, so retries of an earlier function are taken from a later one
  (`BudgetExact`, `FullBudgetIff`). Before the call: a function never loses more dispatches than the
  largest number of retries of an earlier one, so it gets all of them if no earlier function is retried
  (`BudgetAtLeast`, `GivenUpAtLeast`). `BudgetCutShort` is a run that loses that many, for any two numbers
  of retries.
- A comment says that evicting a position that does not exist does nothing. The queue refuses the
  position, so the message fails.
- A comment at contracts/authorization/src/authorization.rs:488-489 promises that the token of a call is
  burned if the call executes, also partially, and goes back if it does not. Four inputs break it. Two
  give the token back after progress: a batch whose lifetime ends after some functions
  (`RefundAfterExpiry`), and a function without retry logic that fails after others succeeded
  (`RefundAfterRejection`). Two do not give it back although nothing was executed: the owner removes the
  batch, and the token is burned (`BurntUnexecuted`); or the packet to another domain fails, the call ends
  in `UnexpectedError`, and the token stays with the contract for ever (`KeptUnexecuted`,
  `UnexpectedErrorKeepsToken`). `SettledAsPromisedIff` says exactly when the promise is kept, by the
  result, for every call that has ended. The owner can always remove a batch, so before the call a caller
  can only rely on one half: a token that goes back means that nothing was executed, exactly when the
  subroutine cannot stop halfway (`RefundsAreEarnedIff`; `MayStopHalfway` is several functions, and a
  lifetime or a function after the first that can be dispatched without retry logic).
- A result whose packet fails for another reason than a timeout can never be sent again: its execution
  stays in process for ever, counted against its label and with its token locked (`ErrorDooms`,
  `DoomedForever`; `LostResult` is such a run). Every other execution in process can still be ended
  (`CanEndIff`).
- The cap on concurrent executions is not checked for calls the owner inserts or when it is lowered
  (`InsertedOverCap`, `LoweredUnderRunning`); otherwise it holds (`CapHolds`).
- When an update modifies a label, the contract keeps the cap and the priority if they are not given, but the
  saved configuration drops them (program-manager/src/program_update.rs:228-241). So the two agree afterwards
  exactly when each is given or was the default (`SavedModifyIff`, `SavedCapIsLost`).
- The update plan sends a bare ownership action (program-manager/src/program_update.rs:93-104), while the
  messages of the authorization contract take one only in the variant that the ownership macro adds
  (packages/authorization-utils/src/msg.rs:157). That a plan gets past this instruction is an assumption
  of the model.

## Model

| member | source | states |
|---|---|---|
| `QueueMaps.QueueMap.PushBack` | packages/processor-utils/src/queue.rs:36-43 | the contents, as a sequence, get the value at the end |
| `QueueMaps.QueueMap.PopFront` | packages/processor-utils/src/queue.rs:45-59 | returns and removes the first value, or nothing when the queue is empty |
| `QueueMaps.QueueMap.InsertAt` | packages/processor-utils/src/queue.rs:61-88 | the value ends up at the position, everything after it one further; a position beyond the end is refused and changes nothing |
| `QueueMaps.QueueMap.RemoveAt` | packages/processor-utils/src/queue.rs:90-128 | exactly that position is removed and returned, although a stale entry stays behind the end of the window |
| `JsonPointer.LookupIff` | contracts/authorization/src/authorization.rs:414-441 | evaluating the joined pointer (sections 3 and 4 of RFC 6901) is walking the JSON key by key, for every JSON value, if and only if the key list is non-empty and no key needs escaping |
| `JsonPointer.LookupIs` | contracts/authorization/src/authorization.rs:414-441 | for every key list, the look-up walks the JSON along the pieces of the keys: cut at slashes and unescaped |
| `JsonPointer.ReadAsWritten` | contracts/authorization/src/authorization.rs:414-414 | these pieces are the keys themselves if and only if there is a key and none needs escaping |
| `JsonPointer.NoKeys` | contracts/authorization/src/authorization.rs:414-414 | without any key the look-up asks for the member named by the empty string instead of the whole value |
| `JsonLookup.ElementIs` | contracts/authorization/src/authorization.rs:411-414 | in an array a key finds the element whose position it is in decimal, without leading zeros, and nothing if there is no such element |
| `JsonLookup.ElementAt` | contracts/authorization/src/authorization.rs:411-414 | so every element is found under its number |
| `JsonLookup.MemberIs` | contracts/authorization/src/authorization.rs:414-414 | in an object a key finds the member of that name or nothing; in any other value nothing is found |
| `JsonLookup.GoesOn` | contracts/authorization/src/authorization.rs:414-414 | a longer pointer goes on from what its first key finds, for all keys, however they are written (sections 3 and 4 of RFC 6901) |
| `JsonLookup.ReadBack` | contracts/authorization/src/authorization.rs:414-414 | every key is read back from its escaped form, and from itself if it needs no escape |
| `JsonLookup.RestrictionGoesOn` | contracts/authorization/src/authorization.rs:414-441 | the pointer of a restriction with plain keys looks up the first key and goes on with the rest |
| `Validation.ValidateIff` | contracts/authorization/src/authorization.rs:65-259 | an authorization is accepted if and only if it is well formed (non-empty functions on one registered domain, matching message types, legal restrictions, not permissionless with high priority) and its encoder libraries exist |
| `Validation.ValidateMessagesIff` | contracts/authorization/src/authorization.rs:293-448 | for a well-formed authorization, messages are accepted if and only if there is one per function and each has the declared type and name and meets every restriction, whatever keys the restrictions have |
| `Validation.NeverGetHere` | contracts/authorization/src/authorization.rs:442-463 | the two branches marked as unreachable are unreachable for every stored authorization |
| `Validation.ExecutableIff` | contracts/authorization/src/authorization.rs:374-389 | a call of a well-formed authorization is let through if and only if the authorization is in force, the caller may call (anybody, a token holder, or one token paid) and every message matches |
| `AuthorizationExact.SendIff` | contracts/authorization/src/contract.rs:788-823 | from a store in order, a call is accepted if and only if its label is stored, in force and has fewer executions in process than its cap, the caller may call it, and there is one matching message per function |
| `AuthorizationExact.SendDoes` | contracts/authorization/src/contract.rs:824-901 | it is recorded for its sender under the next id, and the stored subroutine leaves with its priority and deadline for its domain |
| `AuthorizationExact.InsertIff` | contracts/authorization/src/contract.rs:647-749 | an insert by the owner is accepted if and only if its label is stored and there is one matching message per function |
| `AuthorizationExact.InsertDoes` | contracts/authorization/src/contract.rs:647-749 | it is recorded for the owner and leaves with the position and priority asked for |
| `AuthorizationExact.ProofIff` | contracts/authorization/src/contract.rs:934-1044 | a verified proof is executed if and only if its label is enabled, it is of the registry of the label and for this contract, the caller may call, its domain runs CosmWasm, and its block is newer where the label looks at it |
| `AuthorizationExact.ProofDoes` | contracts/authorization/src/contract.rs:1030-1104 | its block is remembered; a batch is recorded for the sender and leaves under a new id, any other message leaves as it is |
| `AuthorizationExact.CreateIff` | contracts/authorization/src/contract.rs:281-353 | a creation is accepted if and only if all labels are new and pairwise different, well formed, and their libraries exist; it adds exactly these |
| `AuthorizationExact.CreateZkIff` | contracts/authorization/src/contract.rs:355-435 | ZK labels are created if and only if they are new, pairwise different and not empty; they are stored as given and enabled |
| `AuthorizationExact.CreatedAs` | packages/authorization-utils/src/authorization.rs:46-67 | a created label is enabled, has a cap of one and medium priority unless given, and everything else as given |
| `AuthorizationExact.CreatedInForceIff` | packages/authorization-utils/src/authorization.rs:46-67 | when a label with a start and a lifespan can be called, in blocks and nanoseconds |
| `AuthorizationExact.ModifyIff` | contracts/authorization/src/contract.rs:437-471 | a modification of a stored label with known libraries is accepted unless a permissionless label would get high priority |
| `AuthorizationExact.ModifyDoes` | contracts/authorization/src/contract.rs:437-471 | it changes the fields given and nothing else |
| `AuthorizationExact.SwitchDoes` | contracts/authorization/src/contract.rs:493-547 | switching is refused exactly for unknown labels, and switches that label only |
| `AuthorizationInvariant.LateIff` | contracts/authorization/src/contract.rs:829-833 | a batch is late exactly when more than the lifetime of its subroutine has passed since it was sent, and never when the deadline overflows 64 bits |
| `ProcessorInvariant.EnqueueKeeps` | contracts/processor/src/contract.rs:190-231 | a new batch never fails to be enqueued and keeps the invariant: queued once, with its own priority, or reported as expired |
| `ProcessorInvariant.InsertKeeps` | contracts/processor/src/contract.rs:270-313 | the same for a batch inserted at any valid position |
| `ProcessorSteps.EvictKeeps` | contracts/processor/src/contract.rs:233-266 | evicting any batch leaves nothing of it but its result |
| `ProcessorSteps.TickKeeps` | contracts/processor/src/contract.rs:315-439 | every tick, whatever its submessage does, keeps the invariant: order of confirmations, cooldowns, dispatch limits, exact result |
| `ProcessorSteps.CallbackKeepsIff` | contracts/processor/src/contract.rs:513-569 | an accepted library callback keeps the invariant if and only if the batch is in neither queue |
| `ProcessorSteps.ServeKeepsIff` | contracts/processor/src/contract.rs:95-167 | from a store in order, any call keeps the invariant if and only if it fails, or is not a batch under a known id and not a library callback for a queued batch |
| `ProcessorSteps.TickRevertsIff` | contracts/processor/src/contract.rs:315-439 | a tick fails if and only if the processor is paused, both queues are empty, or the message due cannot be built; the load in the reply never fails |
| `ProcessorEffects.TickSummary` | contracts/processor/src/callback.rs:23-73 | a tick gives at most one batch its result, reports exactly that one, and changes no other batch's result |
| `ProcessorExact.TickIs` | contracts/processor/src/contract.rs:315-439 | for every outcome of the submessage, a tick that succeeds makes of the histories exactly what a reference does that knows only the events: late batches are reported as expired, batches in their cooldown stay, otherwise one event is added, successful exactly when the submessage ended well (and, for an atomic batch, all its messages can be built), and the result that the events call for is reported |
| `ProcessorExact.CallbackIs` | contracts/processor/src/contract.rs:513-569 | while a batch is in neither queue, a callback is accepted if and only if the batch waits for this sender, and adds exactly that event, with the result the events then call for |
| `ProcessorExact.OrderIs` | contracts/processor/src/contract.rs:190-313 | an enqueued batch comes to the end of the queue of its priority and an inserted one exactly to its position, all others keep their order; a late one is reported at once; only a position beyond the end fails |
| `ProcessorExact.EvictIs` | contracts/processor/src/contract.rs:233-266 | an eviction takes exactly the batch at its position, all others keep their order, and fails exactly if there is none |
| `ProcessorExact.CooldownIff` | contracts/processor/src/queue.rs:20-38 | a cooldown is over when its interval in blocks or seconds has passed |
| `ProcessorTrace.CountersAgree` | contracts/processor/src/queue.rs:20-38 | the two retry counters are equal during a run of failures: what was carried over plus the failures |
| `ProcessorOutcomes.AtomicOnce` | contracts/processor/src/contract.rs:748-774 | an atomic batch took effect once if it ended in Success, and never otherwise |
| `ProcessorOutcomes.BudgetExact` | contracts/processor/src/callback.rs:151-187 | a function given up after m retries was dispatched exactly as often as the carried-over count left: max(1, m + 1 - carried) |
| `ProcessorOutcomes.FullBudgetIff` | contracts/processor/src/callback.rs:102-106 | it got all m + 1 dispatches if and only if nothing was carried over or m is 0 |
| `ProcessorOutcomes.BudgetAtLeast` | contracts/processor/src/callback.rs:151-187 | if no earlier function is retried without limit, a function given up got at least m + 1 dispatches minus the most retries of an earlier function, and all m + 1 if no earlier function has any |
| `ProcessorOutcomes.FirstFunctionFull` | contracts/processor/src/callback.rs:141-187 | atomic batches and first functions always get all their dispatches |
| `ProcessorOutcomes.AtomicFull` | contracts/processor/src/callback.rs:141-187 | an atomic batch with m retries is given up after exactly m + 1 dispatches, one without retry logic after the first, and one with unlimited retries never |
| `ProcessorOutcomes.DispatchesBounded` | contracts/processor/src/callback.rs:141-187 | if every function has limited retries, the dispatches of a batch never exceed one bound for the whole batch: one per function plus its retries |
| `ProcessorExamples.RejectedAfterProgress` | contracts/processor/src/callback.rs:188-201 | a run that ends in Rejected although a function was confirmed |
| `ProcessorExamples.BudgetCutShort` | contracts/processor/src/callback.rs:102-106 | for all k and m, a run in which the first function uses its k retries and the second, with m, gets only the least number of dispatches |
| `ProcessorExamples.StaleCallback` | contracts/processor/src/contract.rs:513-569 | a run in which a callback for a queued batch is accepted: Success is reported, every later tick fails, and an eviction reports a second result |
| `ProcessorWaiting.QueueStep` | contracts/processor/src/contract.rs:323-372 | whatever a call does, a queue loses at most its first batch, and only to a tick; everything new comes behind |
| `ProcessorWaiting.TakenInTurn` | contracts/processor/src/contract.rs:323-372 | without insert and evict on its queue, a batch at position k is the one taken after the first k |
| `ProcessorWaiting.HighTakenInTurn` | contracts/processor/src/contract.rs:323-330 | a high batch at position k is taken by the successful tick number k + 1 |
| `ProcessorContracts.Processor.constructor` | contracts/processor/src/contract.rs:45-92 | the store starts empty, waiting for the proxy on an external domain |
| `ProcessorContracts.Processor.PutBackIntoQueue` | contracts/processor/src/queue.rs:20-38 | one more retry counted, cooldown from now, queued at the back and saved in the map |
| `ProcessorContracts.Processor.CreateCallbackMessage` | contracts/processor/src/callback.rs:23-73 | the result is sent, and kept as pending on an external domain |
| `ProcessorContracts.Processor.HandleSuccessfulNonAtomic` | contracts/processor/src/callback.rs:75-109 | does what the step function for a confirmed function says |
| `ProcessorContracts.Processor.HandleUnsuccessful` | contracts/processor/src/callback.rs:130-204 | does what the step function for a failed function says: give up or put back |
| `ProcessorContracts.Processor.EnqueueMessages` | contracts/processor/src/contract.rs:190-231 | refines the enqueue step |
| `ProcessorContracts.Processor.InsertMessages` | contracts/processor/src/contract.rs:270-313 | refines the insert step, including the refused position |
| `ProcessorContracts.Processor.EvictMessages` | contracts/processor/src/contract.rs:233-266 | refines the evict step, including the refused position |
| `ProcessorContracts.Processor.ProcessTick` | contracts/processor/src/contract.rs:315-331 | whatever the submessage does, the reply to it completes the tick step |
| `ProcessorContracts.Processor.ProcessBatch` | contracts/processor/src/contract.rs:332-439 | the same from the batch taken: expired, cooling down, atomic, or one function |
| `ProcessorContracts.Processor.HandleReply` | contracts/processor/src/contract.rs:708-780 | refines the reply step |
| `ProcessorContracts.Processor.TickTransaction` | contracts/processor/src/contract.rs:315-439 | tick, submessage and reply together are the tick step of the model |
| `ProcessorContracts.Processor.ProcessCallback` | contracts/processor/src/contract.rs:513-569 | refines the library callback step, with its three errors |
| `ProcessorContracts.Processor.RetrySending` | contracts/processor/src/contract.rs:441-467 | sends the kept result again only after a timeout |
| `ProcessorContracts.Processor.ResultCallback` | contracts/processor/src/contract.rs:629-680 | drops the kept result when it was applied, else notes timeout or error |
| `ProcessorContracts.Processor.ProxyCallback` | contracts/processor/src/contract.rs:681-702 | refines the step for the outcome of the create-proxy packet |
| `ProcessorContracts.Processor.RetryProxy` | contracts/processor/src/contract.rs:469-511 | refines the step that asks for the proxy again |
| `ProcessorContracts.Processor.Execute` | contracts/processor/src/contract.rs:95-167 | every entry point together refines the step function, and a call that succeeds keeps the invariant of the store if and only if it is welcome |
| `AuthorizationContracts.Contract.ExecuteSend` | contracts/authorization/src/contract.rs:788-901 | refines the send step with all its refusals |
| `AuthorizationContracts.Contract.ExecuteInsert` | contracts/authorization/src/contract.rs:647-749 | refines the insert step |
| `AuthorizationContracts.Contract.ExecuteProof` | contracts/authorization/src/contract.rs:934-1104 | refines what happens once a proof is accepted |
| `AuthorizationContracts.Contract.ExecuteRetry` | contracts/authorization/src/contract.rs:1106-1197 | refines the retry step: send again, give the token back, or nothing |
| `AuthorizationContracts.Contract.ProcessProcessorCallback` | contracts/authorization/src/contract.rs:1258-1326 | refines the result step: close the record, count down, burn or refund |
| `AuthorizationContracts.Contract.ProcessPolytoneCallback` | contracts/authorization/src/contract.rs:1350-1468 | refines the step for the outcome of a packet |
| `AuthorizationContracts.Contract.IssueTokens` | contracts/authorization/src/contract.rs:305-343 | the token messages of a label: create it, then one mint per address |
| `AuthorizationContracts.Contract.Create` | contracts/authorization/src/contract.rs:281-353 | the loop over new authorizations refines the fold of the model, stopping at the first error |
| `AuthorizationContracts.Contract.CreateZk` | contracts/authorization/src/contract.rs:355-435 | the same for ZK authorizations |
| `AuthorizationContracts.Contract.Modify` | contracts/authorization/src/contract.rs:437-471 | refines the modify step: validated again before it is saved |
| `AuthorizationContracts.Contract.Switch` | contracts/authorization/src/contract.rs:493-547 | enables or disables the entry in whichever table has the label |
| `AuthorizationContracts.Contract.Grant` | contracts/authorization/src/contract.rs:549-587 | one mint per entry, refused for a missing or permissionless label |
| `AuthorizationContracts.Contract.AddExternalDomain` | contracts/authorization/src/domain.rs:18-33 | a domain is saved unless its name is taken |
| `AuthorizationContracts.Contract.ProcessProxyCallback` | contracts/authorization/src/contract.rs:1469-1522 | refines the step for the outcome of a create-proxy packet |
| `AuthorizationContracts.Contract.RetryProxy` | contracts/authorization/src/contract.rs:1199-1256 | refines the step that asks for a proxy again |
| `AuthorizationContracts.Contract.Execute` | contracts/authorization/src/contract.rs:95-200 | every entry point together refines the step function, and a request that succeeds keeps the invariant of the store (exact counts, well-formed table, used ids) if and only if the id counter does not wrap and a result or fatal error is for an id in process |
| `AuthorizationInvariant.StartKeeps` | contracts/authorization/src/contract.rs:810-823 | opening a record keeps table, ids, records and counts in order, under an id that was unused |
| `AuthorizationInvariant.CloseKeeps` | contracts/authorization/src/contract.rs:1274-1292 | closing a record in process keeps them, and its count was not zero |
| `AuthorizationInvariant.StartKeepsIff` | contracts/authorization/src/contract.rs:1761-1812 | opening a record keeps the invariant if and only if the id counter does not wrap |
| `AuthorizationInvariant.CloseKeepsIff` | contracts/authorization/src/contract.rs:1274-1292 | recording a result keeps it if and only if the id is in process and gets a result that its call can have; the handler has no such guard |
| `AuthorizationInvariant.BridgeKeepsIff` | contracts/authorization/src/contract.rs:1375-1468 | the outcome of a packet keeps it if and only if it is not a fatal error for an id that is closed |
| `AuthorizationInvariant.AnswerKeepsIff` | contracts/authorization/src/contract.rs:95-200 | the same for every request that the contract accepts |
| `AuthorizationInvariant.CreateKeeps` | contracts/authorization/src/contract.rs:288-347 | after any creation every stored authorization is well formed and the two tables share no label |
| `AuthorizationInvariant.ModifyKeeps` | contracts/authorization/src/contract.rs:466-468 | the same after any modification |
| `ProtocolTokens.SettleKeeps` | contracts/authorization/src/contract.rs:1296-1320 | a burn or refund is always covered by the contract's tokens, and the accounts balance after it |
| `ProtocolSteps.AtProcessorKeeps` | contracts/processor/src/contract.rs:95-167 | anything a processor does on its own keeps the invariant of the whole system |
| `ProtocolCalls.SendKeeps` | contracts/authorization/src/contract.rs:788-901 | every call of a user, accepted or refused, keeps the invariant of the whole system |
| `ProtocolCalls.InsertKeeps` | contracts/authorization/src/contract.rs:647-749 | every insert by the owner keeps it |
| `ProtocolCalls.ProveKeeps` | contracts/authorization/src/contract.rs:1047-1083 | every accepted proof keeps it, whether it carries a batch or an order |
| `ProtocolPackets.RetryKeeps` | contracts/authorization/src/contract.rs:1106-1197 | every retry keeps it: the batch leaves again under the same id, or the token goes back |
| `ProtocolPackets.DeliverOutKeeps` | contracts/authorization/src/domain.rs:54-85 | every outcome of a packet to a processor keeps it, whether it is applied or not |
| `ProtocolPackets.AckOutKeeps` | contracts/authorization/src/contract.rs:1375-1468 | telling the authorization contract how a packet ended keeps it; an applied packet changes nothing |
| `ProtocolPackets.DeliverInKeeps` | contracts/authorization/src/contract.rs:1258-1326 | every outcome of a packet with a result keeps it; a result that arrives is recorded |
| `ProtocolPackets.AckInKeeps` | contracts/processor/src/contract.rs:629-680 | telling the processor how its result ended keeps it |
| `ProtocolTable.AdministerKeeps` | contracts/authorization/src/contract.rs:237-587 | every change of the tables, tokens and domains keeps it |
| `ProtocolTable.RunKeeps` | contracts/authorization/src/contract.rs:95-200 | the invariant of the whole system holds after every run |
| `ProtocolPlaces.OnePlace` | contracts/authorization/src/contract.rs:1106-1468 | in every run an id is in process if and only if it is somewhere (packet, failed packet, queue, library, kept result), and it is never in two places |
| `ProtocolTheorems.AtomicEndToEnd` | contracts/authorization/src/contract.rs:1296-1320 | an atomic call, also of a ZK label, takes effect at most once and only on its own domain; success is recorded only if it did, its token goes back only if it did not, and is burned only if it did or the owner removed it |
| `ProtocolTheorems.ProgressReports` | contracts/processor/src/callback.rs:75-187 | for every non-atomic batch, also of a ZK label, Success, PartiallyExecuted(n) and Expired(n) in a record mean that exactly the first functions were confirmed, once each and in order; if every function after the first has retry logic, Rejected means that none was |
| `ProtocolTheorems.DocumentedIff` | contracts/processor/src/callback.rs:156-195 | in every run, the documented choice between Rejected and PartiallyExecuted is made if and only if the function that failed is the first or has retry logic |
| `ProtocolTheorems.StoredCall` | contracts/authorization/src/contract.rs:829-833 | a call of a stored authorization runs as the subroutine stored, with one message per function |
| `ProtocolTheorems.RefundAfterProgressIff` | contracts/authorization/src/contract.rs:1296-1320 | in every run a token goes back after n > 0 confirmed functions if and only if the call paid and expired, or was rejected at a function without retry logic |
| `ProtocolTheorems.SettledAsPromisedIff` | contracts/authorization/src/authorization.rs:488-489 | a paid call that has ended is burned after progress and refunded without it, as promised, if and only if it did not expire or get rejected after progress, and before any was not removed by the owner and did not fail unexpectedly |
| `ProtocolTheorems.RefundMeansNothingDone` | contracts/authorization/src/authorization.rs:488-489 | a refunded call executed nothing, unless its subroutine may stop halfway: several functions, the first with an address, and a lifetime or a later function that can be dispatched without retry logic |
| `ProtocolTheorems.DocumentedWhenRetried` | contracts/processor/src/callback.rs:156-195 | the documented choice is made whenever no function after the first can be dispatched without retry logic |
| `ProtocolExamples.RefundAfterExpiry` | contracts/authorization/src/contract.rs:1309-1315 | for every subroutine that can be called, with several functions and a lifetime, on any domain, a run that ends in Expired(1) with the token back |
| `ProtocolExamples.RefundAfterRejection` | contracts/authorization/src/contract.rs:1309-1315 | for every function i without retry logic that can be dispatched, a run that ends in Rejected after i confirmed functions with the token back |
| `ProtocolExamples.RefundsAreEarnedIff` | contracts/authorization/src/authorization.rs:488-489 | for every subroutine that can be called, all runs refund only calls that executed nothing if and only if the subroutine cannot stop halfway |
| `ProtocolExamples.RoutineIff` | contracts/authorization/src/authorization.rs:488-489 | an instance: two functions on any domain, exactly when there is no lifetime and the second has retry logic |
| `ProtocolExamples.AlwaysDocumentedIff` | contracts/processor/src/callback.rs:156-195 | for every subroutine that can be called, all its calls are given up with the documented result if and only if no function after the first can be dispatched without retry logic |
| `ProtocolExamples.BurntUnexecuted` | contracts/authorization/src/contract.rs:1302-1308 | for every subroutine that can be called, a run in which the owner removes the batch unexecuted and the token is burned |
| `ProtocolExamples.KeptUnexecuted` | contracts/authorization/src/contract.rs:1439-1459 | for every one on another domain, a run that ends in UnexpectedError with nothing executed and the token neither burned nor back |
| `ProtocolExamples.LostResult` | contracts/processor/src/contract.rs:629-680 | for every one on another domain and every failure but a timeout, a run in which the result is lost and the execution doomed |
| `ProtocolExamples.InsertedOverCap` | contracts/authorization/src/contract.rs:647-749 | a run in which an insert by the owner exceeds the cap |
| `ProtocolExamples.LoweredUnderRunning` | contracts/authorization/src/contract.rs:437-471 | a run in which the cap is lowered below the number of running executions |
| `ProtocolTheorems.OneResult` | contracts/processor/src/callback.rs:23-73 | a processor reports an id at most once, and whatever is kept, travels or is recorded is that result |
| `ProtocolTheorems.ResendsTheSame` | contracts/processor/src/contract.rs:441-467 | a result sent again is the one reported |
| `ProtocolTheorems.LifeCycle` | contracts/authorization/src/contract.rs:1375-1419 | in one step a record goes only from in process to closed, or from a retriable timeout back if its time to live is not over and to the final timeout if it is; its call never changes |
| `ProtocolTheorems.RecordsLast` | contracts/authorization/src/contract.rs:1274-1278 | over any continuation of a run a record keeps its call, and a terminal result is never replaced, although the handler has no guard |
| `ProtocolTheorems.RetryIsPossible` | contracts/authorization/src/contract.rs:1106-1133 | a retriable timeout has a time to live, a user and a stored authorization, so a retry is refused at most because of the cap |
| `ProtocolTheorems.IdsAreFresh` | contracts/authorization/src/contract.rs:1761-1765 | records exist for exactly the ids handed out |
| `ProtocolTheorems.FreshIff` | contracts/authorization/src/contract.rs:1763-1763 | the next id is unused if and only if the counter does not wrap |
| `ProtocolTheorems.PacketsAreFaithful` | contracts/authorization/src/contract.rs:1859-1892 | a packet carries the messages and subroutine of its record under the id of its record, also for ZK messages |
| `ProtocolTheorems.BatchesAreFaithful` | contracts/processor/src/contract.rs:217-228 | a batch at a processor is the one of its record, at the domain of its record |
| `ProtocolTheorems.NoReplay` | contracts/authorization/src/contract.rs:1030-1044 | once a proof for a block was executed under a label that validates blocks, no proof for that or an earlier block of the registry is executed under such a label, in any continuation of the run |
| `ProtocolTheorems.RetriesAreBounded` | contracts/processor/src/contract.rs:365-372 | no function is dispatched more than m + 1 times or before its cooldown is over, and the dispatches of a batch are bounded |
| `ProtocolTheorems.GivenUpExactly` | contracts/processor/src/callback.rs:151-187 | the retry budget, in every run |
| `ProtocolTheorems.GivenUpAtLeast` | contracts/processor/src/callback.rs:151-187 | the bound that can be checked before the call, in every run |
| `ProtocolTheorems.StoredAuthorizations` | contracts/authorization/src/domain.rs:35-52 | stored authorizations are well formed and in one table only, so their domain is always found |
| `ProtocolTheorems.TokensAreConserved` | contracts/authorization/src/authorization.rs:490-499 | minted is held plus burned, and the contract holds one token per open paid call next to those given to it for nothing |
| `ProtocolTheorems.SettledOnce` | contracts/authorization/src/contract.rs:1296-1320 | a paid call is burned or refunded exactly once, when it ends with a result other than UnexpectedError or a retriable timeout, and never otherwise |
| `ProtocolTheorems.UnexpectedErrorKeepsToken` | contracts/authorization/src/contract.rs:1439-1459 | the token of a call that failed unexpectedly is never settled, whatever follows |
| `ProtocolTheorems.CountsAreExact` | contracts/authorization/src/contract.rs:1281-1292 | the count of a label is the number of its records in process |
| `ProtocolTheorems.NothingIsRefused` | contracts/authorization/src/contract.rs:1281-1320 | no result and no bridge callback is ever refused: no count is zero and no token missing |
| `ProtocolSending.CallsGetThrough` | contracts/authorization/src/contract.rs:788-901 | in every run a call gets through if and only if the sender has what is attached, the label is in force, below its cap and may be called by the sender, the messages match and the domain has a processor; then the call is recorded, what is attached goes to the contract, and the batch is at the end of its queue or in a packet |
| `ProtocolSending.InsertsGetThrough` | contracts/authorization/src/contract.rs:647-749 | the same for inserts by the owner, at exactly their position and without tokens |
| `ProtocolSending.ProofsFit` | contracts/authorization/src/contract.rs:1002-1044 | a proof that is executed is of the registry of its label |
| `ProtocolSending.PacketsArrive` | contracts/authorization/src/domain.rs:54-85 | in every run a packet that arrives queues its batch at its position, or reports it as expired if it is late, or is answered by an error if there is no such position |
| `ProtocolSending.OffStaysOff` | contracts/authorization/src/contract.rs:493-519 | in every continuation a label that is switched off accepts no call before it is switched on |
| `ProtocolServing.TickTurns` | contracts/processor/src/contract.rs:315-439 | in every run a tick does to the batch in front what the reference does; a result ends the call at once on the main domain and leaves in a packet otherwise, and nothing else changes |
| `ProtocolServing.CallbackTurns` | contracts/processor/src/contract.rs:513-569 | the same for library callbacks, and which are accepted |
| `ProtocolServing.EvictionTurns` | contracts/processor/src/contract.rs:233-266 | the same for evictions |
| `ProtocolServing.TracesAreLogs` | contracts/processor/src/contract.rs:708-780 | in every run each step adds to the trace of a batch exactly the event that it is for the batch, so the trace is a log of what happened |
| `ProtocolServing.EffectsAreReal` | contracts/processor/src/contract.rs:748-774 | a batch counts as applied once more exactly when the submessage of its turn ends well, and never when it fails |
| `ProtocolServing.InsertedIsNext` | contracts/processor/src/contract.rs:270-330 | what is inserted at position 0 of the high queue is what the next successful tick takes, unless something else is inserted or evicted there before |
| `ProtocolServing.PausesHold` | contracts/processor/src/contract.rs:169-188 | in every run a processor is paused exactly from a pause to the next resume, and does not tick meanwhile |
| `ProtocolSettling.ResultEnds` | contracts/authorization/src/contract.rs:1258-1326 | in every run a result that arrives is recorded as it was sent, at that time, and the token is burned, given back to the caller, or was not paid |
| `ProtocolSettling.AnswerEnds` | contracts/authorization/src/contract.rs:1375-1468 | the answer to a packet changes nothing if it was applied; a timeout ends the call, retriably exactly before its time to live is over, and any other error ends it as unexpected, each with its settlement |
| `ProtocolSettling.RetryDoes` | contracts/authorization/src/contract.rs:1106-1197 | in every run a retry in time and below the cap puts the call back in process and sends its batch again under the same id; at the cap it changes nothing; too late it ends a paid call and gives the token back |
| `ProtocolAccounts.AccountsAreKept` | contracts/authorization/src/contract.rs:1296-1320 | in every run, what a user has left of a limited label and what the calls of that user have used up always add up to the same, except for grants, transfers and proofs that pay for no record |
| `ProtocolAccounts.AccountsLast` | contracts/authorization/src/contract.rs:1296-1320 | the same over whole parts of a run: nobody pays for others, and what comes back comes back to the caller |
| `ProtocolAccounts.NewLabelsAreShared` | contracts/authorization/src/contract.rs:305-343 | a new label gives every address the sum of its limits, or one token per mention without limits |
| `ProtocolAccounts.GrantsAreAdded` | contracts/authorization/src/contract.rs:549-587 | a grant adds exactly the amounts granted, and only of that label |
| `ProtocolAccounts.TransfersMove` | contracts/authorization/src/authorization.rs:480-499 | tokens are transferable between users: a transfer gets through if and only if the sender has them, and moves exactly those |
| `ProtocolProcessors.StepServes` | contracts/processor/src/contract.rs:95-167 | in one step of the system each processor serves exactly the call that the step makes on it, if both succeed; the call is welcome, and a batch that reaches it is the one of a record in process |
| `ProtocolWaiting.WaitsInTurn` | contracts/processor/src/contract.rs:323-372 | in every run, if no step inserts into its queue or evicts from it, a batch at position k moves up by one for every step that takes from the queue and is taken by the one after the first k |
| `ProtocolWaiting.HighWaitsInTurn` | contracts/processor/src/contract.rs:323-330 | in every such run a high batch at position k is taken by the successful tick number k + 1 of its processor |
| `ProtocolExpiry.ExpiredIsLate` | contracts/processor/src/contract.rs:332-363 | in every run a batch is reported as Expired only when it is late; for a stored authorization that is when more than its lifetime has passed since the call was last sent |
| `ProtocolProgress.ErrorDooms` | contracts/processor/src/contract.rs:629-680 | any failure of the packet with a result but a timeout, also a fatal error, dooms the execution |
| `ProtocolProgress.DoomedForever` | contracts/processor/src/contract.rs:441-467 | in every continuation a doomed execution stays in process and counted, and its token is neither burned nor sent back |
| `ProtocolProgress.CanEndIff` | contracts/processor/src/contract.rs:441-467 | an execution in process can be ended, by some continuation at any given block, if and only if it is not doomed |
| `ProtocolEscrow.EscrowIsExact` | contracts/authorization/src/contract.rs:1380-1410 | unless somebody gives it tokens for nothing, the contract holds exactly one per call that is in process, timed out retriably, or failed unexpectedly |
| `ProtocolLimits.CapHolds` | contracts/authorization/src/contract.rs:810-823 | without owner inserts and without lowering the cap, no more executions of a label run than the cap says, in every run |
| `ProtocolTicks.Structure` | contracts/processor/src/contract.rs:390-428 | every unfinished batch is in the queue of its own priority or parked, with its map entry, and an index only if non-atomic and in range |
| `ProtocolTicks.TickFailsIff` | contracts/processor/src/contract.rs:708-715 | with a call of a stored authorization in front, or a ZK batch with one dispatchable message per function, a tick fails if and only if the processor is paused or the function due has no address |
| `ProxyCreation.OneProxyPacket` | contracts/processor/src/contract.rs:469-511 | in every run of a processor its proxy is pending exactly while one create-proxy packet awaits its outcome |
| `ProxyCreation.OneProxyPacketEach` | contracts/authorization/src/contract.rs:1199-1256 | the same for every domain of the authorization contract |
| `ProxyCreation.ProxyIsKnown` | contracts/processor/src/contract.rs:681-702 | in every run a processor knows of its proxy exactly what the last answer said: timed out, failed fatally, or created (also after any other error), and asks again only after a timeout |
| `ProxyCreation.ProxiesAreKnown` | contracts/authorization/src/contract.rs:1469-1522 | the same for every domain of the authorization contract |
| `ProxyCreation.PausedIff` | contracts/processor/src/contract.rs:169-188 | a processor is paused exactly from a pause to the next resume, and every tick fails meanwhile |
| `ProgramUpdates.Update` | program-manager/src/program_update.rs:109-285 | the loops make the plan of the specification, or stop with its first error |
| `ProgramUpdates.AddLibrary` | program-manager/src/program_update.rs:109-191 | the part for one library |
| `ProgramUpdates.PlansAreOk` | program-manager/src/program_update.rs:296-316 | the labels created first are pairwise distinct and new, and every later instruction names a label that exists by then |
| `ProgramUpdates.PlansAreComplete` | program-manager/src/program_update.rs:109-285 | after the creation come the change of owner, one insert per library and one instruction per change, all in order, and every authorization asked for is created |
| `ProgramUpdates.PlansIff` | program-manager/src/program_update.rs:109-316 | there is a plan if and only if every library is known and has its label or an address, and the changes can be made one after the other on the labels there are by then |
| `ProgramUpdates.PlansCreateForLibraries` | program-manager/src/program_update.rs:122-157 | before what was asked for, a plan creates authorizations for its libraries only: for the new owner alone, with high priority, on the domain and address of the library; afterwards every library has its label |
| `ProgramUpdates.LibraryUpdatesFit` | program-manager/src/program_update.rs:131-149 | such an authorization can be stored if and only if the domain is registered and runs CosmWasm, and takes exactly one message whose only member is update_config |
| `ProgramUpdates.AmendedIs` | program-manager/src/program_update.rs:228-241 | the saved configuration takes a modification over in the first entry of its label and no other |
| `ProgramUpdates.SavedModifyIff` | program-manager/src/program_update.rs:228-241 | a saved entry that agreed with the contract agrees after a modification if and only if the cap and the priority are given or were the defaults |
| `ProgramUpdates.SavedCapIsLost` | program-manager/src/program_update.rs:228-241 | a cap of three is still three in the contract and one in the saved configuration after a modification that gives neither cap nor priority |
| `ProgramUpdates.PlansAreExecutable` | program-manager/src/program_update.rs:269-285 | executed by a contract with the labels of the old configuration, no plan fails because of a missing or duplicate label, and a plan that does not fail leaves the labels of the new configuration |

## Left out

- The Hyperlane and EVM path, the encoder broker and the lite processor: calls to EVM domains are refused by the modelled system, since their callback moves no tokens.
- Verification of ZK proofs, the verification router, its routes, and changing the settings of a ZK authorization; only the state changes after an accepted proof are modelled.
- Ownership, sub-owners and sender checks other than that of a library callback.
- Queries, pagination and event attributes.
- JSON, protobuf and bech32 encoding; JSON values, raw bytes and addresses are given, token factory and bank messages are mint, burn and send steps on an abstract bank.
- The address check in a tick is a missing address; resolving library ids to addresses is not part of this model.
- Overflow panics of queue indexes, retry counts, counts of running executions and times.
- Adding several domains in one message is one step per domain.
- The program manager beyond update plans: initialisation, migration, bridges, connectors, reading and writing the registry.
- The program registry and account contracts.
- ProgramUpdates.PlansAreExecutable: claims nothing about refusals for other reasons than labels, and needs that no new label is a ZK label, which the manager does not know about.
- ProtocolTheorems.TokensAreConserved: tokens given to the contract for nothing are counted apart; EscrowIsExact states the plain equality for runs without them.
- ProcessorContracts.Processor.Execute: does not model the check that orders come from the authorization contract, and the internal entry for atomic batches is part of a tick.
- AuthorizationContracts.Contract.ProcessProcessorCallback: does not model the check that the caller is the processor of the record's domain.
- AuthorizationContracts.Contract.ProcessPolytoneCallback: does not model the checks that the caller is the bridge and that the contract itself started the packet.
- AuthorizationContracts.Contract.Execute: does not model the ownership and sender checks of the entry points.
