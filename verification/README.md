# Laya decision canisters: a verified model

This project models the behaviour that the repository is for and proves what its design promises. It has four parts.

**The transfer protocol.** The executor canister turns model decisions into ledger payments. `Workflow.dfy` gives every entry
point of `ExecutorState` as a function on values, with the errors in the order of the source; `Executor.dfy` is the mutable
state object whose methods are proved against those functions. `WorkflowInvariant.dfy` holds a strengthening of the runtime
check `check_invariants`, which is not inductive as written (`WorkflowSteps.CheckIsNotInductive` gives a state that it accepts
and a step that breaks it); `WorkflowSteps.dfy` shows that every entry point keeps the strengthening. `Ledger.dfy` models the
mock ledger with deduplication, faults and lost replies. `Protocol.dfy` puts the executor, the messages in flight and any number
of ledgers together as one state machine: endpoints are split at each await, a call reported as unknown may still be executed
later, replies may be lost, lookups race with callbacks, and an upgrade may come between any two steps. Clocks, callers, engine
answers and delivery order are chosen by an adversary. `ProtocolSafety.dfy` finds and keeps the invariant;
`ProtocolTheorems.dfy` states the results over all behaviours: exactly-once payment, final answers, conserved budgets, and no dispatch
without full and current evidence. `Rules.dfy` says what it means that an answer passes a rule. `ProtocolHistory.dfy` follows plans,
grants and requests along a behaviour: every payment respects its grant, and closed requests stay unpaid. `ProtocolControls.dfy`
says what revocation, revision, cancellation, pausing and upgrades stop, `ProtocolProgress.dfy` that reconciliation and retry
resolve what is in doubt, and `Reachability.dfy` that whatever is allowed and affordable can be paid.

**Digests, schemas and distributions.** `Canonical.dfy` and `Types.dfy` show that the length-framed, domain-separated preimages
are uniquely decodable. A digest is its preimage, a digest supplied from outside is 32 raw bytes, and the 32 bytes of a digest
inside another preimage are one cell; so the results say exactly what the source adds to its hash function. `Schema.dfy` covers
the schema compiler and renderer, `Math.dfy` largest-remainder apportionment in exact reals with least-squares optimality, and
`PlanBatches.dfy` the dynamic program that groups phases, with its optimality.

**Integer kernels.** `Int8.dfy`, `Matmul.dfy` and `FusedLinear.dfy` take the int8 kernels from padded, tiled, unrolled SIMD form
down to the plain triple loop, with every 32-bit addition written as it wraps and shown not to. Floating point stays abstract
there: an output cell is an arbitrary function of the exact dot and the scales. `Epilogue.dfy` does the same for the Q31
epilogue with 64-bit words, `Int8Quant.dfy` for row quantization in exact reals, `Scales.dfy` for
the binary32 scales it writes under any rounding, `Statistics.dfy` for the norm statistics.

**Resumable inference.** `Inference.dfy` takes a model as a list of phases that are arbitrary functions and may fail, with hidden
values as raw 32-bit patterns. `TokenJob.dfy` is the in-memory job, `Continuation.dfy` and `Quantized.dfy` the two continuation
formats, `Transport.dfy` the compressed envelope in Rust and in Python over any lossless codec, `Queries.dfy` the query
endpoints, `QueryCalls.dfy` the calls of a client and what a canister answers, `QuerySession.dfy` the Python client against an
adversarial network, `QueryCompletion.dfy` why its sessions complete over a dependable one, and `Markers.dfy` the marker-only
last layer.
Direct, stepped, batched, replayed, client-held, compressed, retried and halved runs all give the direct answer.

Conventions. Machine integers are unbounded integers with the range or the wrap-around written out. Loops of the source are
methods with invariants, proved against a function whose meaning is then proved in lemmas. `Wrappers.dfy` holds Option and
Result, `Numbers.dfy` the integer ranges, `Arithmetic.dfy` small shared functions, `Floats.dfy` the value of a binary32 bit
pattern, `Bytes.dfy` little-endian words, `Grid.dfy` flat row-major arrays, `Rounding.dfy`
half-away-from-zero rounding.

## Model

| member | source | states |
|---|---|---|
| `ProtocolTheorems.AtMostOncePerOperation` | crates/ic-laya-core/src/workflow.rs:265-332 | In every state of every behaviour of executor, network and ledgers (lost messages, lost replies, late delivery, retries, reconciliation, upgrades anywhere) at most one block on any ledger pays for an operation |
| `ProtocolTheorems.SucceededIsCommitted` | crates/ic-laya-core/src/workflow.rs:283-309 | In every behaviour `Succeeded(i)` means that the frozen payload is block i of its ledger, and no other block holds it |
| `ProtocolTheorems.FailedNeverPays` | crates/ic-laya-core/src/workflow.rs:293-309 | Once a request has failed definitively, its frozen payload is on no ledger at any later point of the behaviour, and the status never changes: a reservation is released only when payment can never happen |
| `ProtocolTheorems.SucceededForever` | crates/ic-laya-core/src/workflow.rs:293-309 | A success and its block number never change at any later point |
| `ProtocolTheorems.BudgetsHold` | crates/ic-laya-core/src/workflow.rs:61-78 | In every behaviour the charges committed on a ledger under a grant stay within its total cap and within the cap of every time window |
| `ProtocolTheorems.ChargedOnOneLedger` | crates/ic-laya-core/src/workflow.rs:55-60 | Every block the executor ever causes lies on the ledger of the grant it is charged to, so the budget bound covers all ledgers |
| `ProtocolTheorems.ChecksNeverFire` | crates/ic-laya-core/src/workflow.rs:333-349 | In every behaviour `check_invariants` passes, settling an open request succeeds, and every nonce below the next one has its request on record |
| `ProtocolTheorems.DispatchedOnFullEvidence` | crates/ic-laya-core/src/workflow.rs:224-264 | In every behaviour a request that is ready, submitted or settled holds one receipt per plan signal, in slot order, bound to its own id, slot and snapshot, over the evidence the snapshot commits to, each answer meeting its rule as a condition on its masses (the yes-mass, the strictly leading option, the sum of the tail) |
| `ProtocolTheorems.DispatchIsCurrent` | crates/ic-laya-core/src/workflow.rs:251-264 | When `authorize` grants a dispatch, every receipt judged the evidence the operation holds at that moment |
| `ProtocolTheorems.AtMostTwoSendsPerSlot` | crates/ic-laya-core/src/workflow.rs:187-206 | In every behaviour the question of one evaluation slot goes to the engine at most twice |
| `ProtocolHistory.PaymentsRespectGrants` | crates/ic-laya-core/src/workflow.rs:55-60 | In every behaviour each block the executor causes pays what its operation proposes to a recipient of its grant, within the amount and fee limits, from the grant subaccount, for a request of the delegate; and when its payload was dispatched the grant was neither revoked nor expired, the executor not paused and in mock mode |
| `ProtocolHistory.FrozenByDispatch` | crates/ic-laya-core/src/workflow.rs:265-282 | Every payload on record was frozen by exactly such a dispatch of an earlier step, under the grant and the revisions of that moment |
| `ProtocolHistory.KeptAlong` | crates/ic-laya-core/src/workflow.rs:136-152 | Along every behaviour plans never change, operations keep what they pay, grants keep their terms, revocations and revisions only go forward, and requests keep their origin, payload and receipts |
| `ProtocolHistory.PlansFit` | crates/ic-laya-core/src/workflow.rs:125-129 | In every behaviour each installed plan asks every signal a rule of its own kind |
| `ProtocolHistory.OnlyMockSends` | crates/ic-laya-core/src/workflow.rs:269-272 | In every behaviour nothing is sent to a ledger in shadow, report-only or live mode, or while paused, whatever is asked |
| `ProtocolHistory.SubmittedOnce` | crates/ic-laya-core/src/workflow.rs:162-164 | However much happens in between, an accepted submission sent again is answered with the same identifier, and its nonce with another operation or grant is a conflict; neither changes anything |
| `ProtocolHistory.ClosedNeverPays` | crates/ic-laya-core/src/workflow.rs:187-207 | In every behaviour a request that is cancelled, stale, reported or left for review stays so, and no block is ever committed in its name |
| `ProtocolControls.OutdatedNeverPays` | crates/ic-laya-core/src/workflow.rs:179-186 | A request with no payload yet whose grant was revoked, or whose grant or operation has a later revision, is never paid at any later point |
| `ProtocolControls.RevokedPaysNothingNew` | crates/ic-laya-core/src/workflow.rs:152 | After the owner revokes a grant, every block charged to it at any later point was dispatched before the revocation |
| `ProtocolControls.RevisedNeverPays` | crates/ic-laya-core/src/workflow.rs:136-142 | After the owner gives an available operation new evidence, no request made over the old evidence and not dispatched by then is ever paid |
| `ProtocolControls.CancelledNeverPays` | crates/ic-laya-core/src/workflow.rs:319-323 | The caller or the owner can cancel any request with no payload yet, and from then on it is closed and never paid |
| `ProtocolControls.PausedSendsNothing` | crates/ic-laya-core/src/workflow.rs:326-332 | From a pause or an upgrade until the owner lifts it, whatever else happens, nothing is sent to a ledger |
| `ProtocolControls.UpgradeLeavesNothingWaiting` | crates/ic-laya-core/src/workflow.rs:326-332 | After an upgrade in any behaviour every question in progress is left for review and every submitted payment is in doubt with its payload and reservation intact; nothing else changes |
| `ProtocolControls.OwnerSwitches` | crates/ic-laya-core/src/workflow.rs:123-124 | The owner lifts a pause and chooses any mode but the live one, and neither touches anything else |
| `ProtocolControls.PaidInTime` | crates/ic-laya-core/src/workflow.rs:169-171 | In every behaviour whatever is paid was dispatched less than five minutes after its submission |
| `ProtocolControls.AlwaysBounded` | crates/ic-laya-core/src/workflow.rs:125-174 | In every behaviour no registry outgrows its limit: plans, operations, grants, requests, callers, ledgers and windows of a grant |
| `ProtocolControls.AnsweredOnce` | crates/ic-laya-core/src/workflow.rs:225-228 | A receipt once taken stays on record; at any later point the same answer to its question is confirmed and a different one is a conflict, and neither changes anything |
| `ProtocolControls.LostQuestion` | crates/ic-laya-core/src/workflow.rs:187-207 | A question whose call failed once is asked again word for word; one that failed twice leaves the request for review |
| `ProtocolProgress.ReconcileResolves` | canisters/executor/src/lib.rs:101-114 | In every state of every behaviour, when the frozen payload of an open request is block n of its registered ledger, asking, answering and returning one lookup ends in `Succeeded(n)` with the charge moved from reserved to spent |
| `ProtocolProgress.RetryResolves` | crates/ic-laya-core/src/workflow.rs:311-318 | The same by the retry: sent, executed and answered as a duplicate of block n, it ends in `Succeeded(n)` with the charge moved from reserved to spent |
| `ProtocolProgress.RetrySentExactly` | crates/ic-laya-core/src/workflow.rs:311-318 | When a retry is sent: exactly for its caller or the owner, in mock mode, on a current request in doubt after one attempt and within the deduplication window; and what it sends is the frozen payload as second attempt |
| `Rules.RuleMeans` | crates/ic-laya-core/src/workflow.rs:213-222 | On a rule of its own kind an answer passes exactly when it decodes to masses that meet the rule: at least the minimum and no tie, the named option strictly leading with at least the minimum, or a tail of at most the maximum |
| `Rules.ValueMeans` | crates/ic-laya-core/src/math.rs:66-75 | The encoder writes exactly the value with the masses, the names, the option of the first largest mass, and the expected level and nearest mean of the bins |
| `Rules.DiagnoseMeans` | crates/ic-laya-core/src/math.rs:18-21 | The diagnostics are the largest mass, its lead over the largest other, and whether that lead is nothing |
| `Reachability.AllowedCanBePaid` | crates/ic-laya-core/src/workflow.rs:159-309 | From a new system, for every plan, operation and grant the executor registers and any evidence that passes the rules of all signals, if the budgets and the balance have room there is a behaviour in which the request succeeds as block 0 |
| `Reachability.PaymentExists` | crates/ic-laya-core/src/workflow.rs:293-309 | One such configuration is given in full, so behaviours that end in a payment exist |
| `ProtocolSafety.NextKeeps` | canisters/executor/src/lib.rs:56-114 | One step of any kind keeps the system invariant that ties requests, messages in flight, replies, lookups and ledger blocks together |
| `ProtocolSafety.InitialOk` | crates/ic-laya-core/src/workflow.rs:121 | A new executor among ledgers it has never used satisfies the system invariant |
| `ProtocolSafety.AlwaysOk` | canisters/executor/src/lib.rs:56-114 | The system invariant holds in every state of every behaviour |
| `ProtocolSafety.AnyEvents` | canisters/executor/src/lib.rs:56-114 | Behaviours are unrestricted: from any initial system any sequence of events happens in some behaviour |
| `ProtocolSafety.FinishLedgerEffect` | crates/ic-laya-core/src/workflow.rs:293-309 | On an invariant state each ledger answer to a known command has exactly one of four effects on the request it names: none, doubt, payment, release |
| `ProtocolSafety.ReleaseFirst` | crates/ic-laya-core/src/workflow.rs:302-309 | A release can only follow a first attempt that was never in doubt: no other call of that request exists |
| `MockLedger.CommittedOnce` | canisters/mock-ledger/src/lib.rs:39-52 | On a ledger that files its blocks no payload of one caller is committed twice |
| `MockLedger.ApplyKeeps` | canisters/mock-ledger/src/lib.rs:39-52 | One commit attempt keeps the ledger consistent (records, balances, conservation) and adds at most the block asked for |
| `MockLedger.TransferKeeps` | canisters/mock-ledger/src/lib.rs:34-65 | One transfer call keeps the ledger consistent, only ever extends the chain, and extends it by the decoded payload for that caller |
| `MockLedger.RecordedIffBlock` | canisters/mock-ledger/src/lib.rs:39-51 | A payload is on record for a caller exactly when it is on the chain for that caller, and the record gives its block number |
| `MockLedger.ReplyMeans` | canisters/mock-ledger/src/lib.rs:39-65 | What each reply says about the chain afterwards: landed or duplicate, the block is there; refused, it is not; silent, it is there |
| `MockLedger.CommitsExactly` | canisters/mock-ledger/src/lib.rs:39-65 | When a payload is committed: exactly when it is not on the chain yet, no refusing fault is set, the fee is right, it was made within the window or at most a second ahead, there is room, and the caller can still afford it |
| `MockLedger.FindMeans` | canisters/mock-ledger/src/lib.rs:27-30 | A lookup that finds something finds that very payload and its block number; one that finds nothing means it is not on the chain |
| `MockLedger.FaultKeeps` | canisters/mock-ledger/src/lib.rs:23 | Injecting a fault keeps the ledger consistent |
| `MockLedger.Canister.Icrc1Transfer` | canisters/mock-ledger/src/lib.rs:34-65 | The endpoint updates fault-dependent state in place exactly as the transfer function says, keeps consistency, and returns its reply |
| `MockLedger.Canister.Mutate` | canisters/mock-ledger/src/lib.rs:39-52 | The `mutate` closure: duplicate, refusal or commit, in the order of the source |
| `MockLedger.Canister.LookUp` | canisters/mock-ledger/src/lib.rs:27-30 | The lookup endpoint answers from the records without changing them |
| `MockLedger.Canister.ChangeFault` | canisters/mock-ledger/src/lib.rs:23 | Only the owner changes the fault, and nothing else changes |
| `Icrc.FrozenDigestInjective` | crates/ic-laya-core/src/workflow.rs:88-90 | Equal frozen digests come from equal payloads |
| `Icrc.WireRoundTrip` | crates/canister-common/src/lib.rs:39-49 | Both canisters see the same frozen payload: its wire form is read back as itself, or refused with the error of its own validation |
| `Icrc.WireReadsSelf` | crates/canister-common/src/lib.rs:45-49 | What another ledger reads from the same wire form differs at most in naming itself as the ledger |
| `Decimal.ReadShow` | canisters/executor/src/lib.rs:81-82 | The decimal text of a block number is read back as that number |
| `Decimal.ShowInjective` | canisters/executor/src/lib.rs:81-82 | Distinct block numbers have distinct decimal texts |
| `WorkflowInvariant.CheckPasses` | crates/ic-laya-core/src/workflow.rs:333-349 | Every state satisfying the strengthened invariant passes the runtime check |
| `WorkflowSteps.CheckIsNotInductive` | crates/ic-laya-core/src/workflow.rs:333-349 | `check_invariants` alone is not inductive: it accepts a concrete state and rejects the one that a refused transfer leads to |
| `WorkflowInvariant.NonceConsumedUnreachable` | crates/ic-laya-core/src/workflow.rs:159-174 | Accepted nonces are exactly those with a request on record, so `NonceConsumed` is never returned on an invariant state |
| `WorkflowInvariant.SettleSucceeds` | crates/ic-laya-core/src/workflow.rs:71-78 | Settling an open request of an invariant state never fails: the `Storage` and `Budget` exits are unreachable |
| `WorkflowInvariant.CommitsToOne` | crates/ic-laya-core/src/workflow.rs:154-158 | A snapshot commits to one evidence text only |
| `WorkflowSteps.SubmitKeeps` | crates/ic-laya-core/src/workflow.rs:159-174 | Submission keeps the strengthened invariant |
| `WorkflowSteps.BeginEvaluationKeeps` | crates/ic-laya-core/src/workflow.rs:187-201 | Beginning an evaluation keeps the strengthened invariant |
| `WorkflowSteps.BeginEvaluationFails` | crates/ic-laya-core/src/workflow.rs:187-201 | On an invariant state the slot check and both retry limits are unreachable: the only failure left for a current, owned request is a question already in flight |
| `WorkflowSteps.EngineTransportFailedKeeps` | crates/ic-laya-core/src/workflow.rs:202-207 | A lost engine call keeps the strengthened invariant |
| `WorkflowSteps.FinishEvaluationKeeps` | crates/ic-laya-core/src/workflow.rs:224-250 | Any engine answer, genuine or not, keeps the strengthened invariant |
| `WorkflowSteps.PrepareDispatchKeeps` | crates/ic-laya-core/src/workflow.rs:265-282 | Dispatch keeps the strengthened invariant: the reservation, the frozen payload and the held operation appear together |
| `WorkflowSteps.SettleRecordKeeps` | crates/ic-laya-core/src/workflow.rs:283-292 | Settling moves exactly the charge from reserved to spent, or back, in the total and in its window, and keeps the strengthened invariant |
| `WorkflowSteps.FinishLedgerKeeps` | crates/ic-laya-core/src/workflow.rs:293-309 | A ledger outcome keeps the strengthened invariant, provided a refusal is believed only for a first attempt never in doubt |
| `WorkflowSteps.RetryUnknownKeeps` | crates/ic-laya-core/src/workflow.rs:311-318 | The one bounded retry keeps the strengthened invariant |
| `WorkflowSteps.CancelKeeps` | crates/ic-laya-core/src/workflow.rs:319-323 | Cancellation keeps the strengthened invariant |
| `WorkflowSteps.RecoverKeeps` | crates/ic-laya-core/src/workflow.rs:326-332 | Upgrade recovery keeps the strengthened invariant |
| `WorkflowSteps.InstallPlanKeeps` | crates/ic-laya-core/src/workflow.rs:125-129 | Installing a plan keeps the strengthened invariant |
| `WorkflowSteps.InstallOperationKeeps` | crates/ic-laya-core/src/workflow.rs:130-135 | Installing an operation keeps the strengthened invariant |
| `WorkflowSteps.ReviseOperationKeeps` | crates/ic-laya-core/src/workflow.rs:136-142 | Revising the evidence of an available operation keeps the strengthened invariant |
| `WorkflowSteps.InstallGrantKeeps` | crates/ic-laya-core/src/workflow.rs:143-151 | Installing a grant keeps the strengthened invariant: its books start empty |
| `WorkflowSteps.RevokeKeeps` | crates/ic-laya-core/src/workflow.rs:152 | Revoking a grant keeps the strengthened invariant and its books |
| `Workflow.RequestIdInjective` | crates/ic-laya-core/src/workflow.rs:153 | Distinct (instance, caller, nonce) triples name distinct requests, hence distinct memos |
| `Workflow.SnapshotInjective` | crates/ic-laya-core/src/workflow.rs:154-158 | A snapshot commits to everything it hashes, including the uncounted list of signals |
| `Workflow.SlotIdInjective` | crates/ic-laya-core/src/workflow.rs:187-201 | Distinct (request, slot, snapshot) triples name distinct evaluations |
| `Executor.ExecutorState.Submit` | crates/ic-laya-core/src/workflow.rs:159-174 | The method on the mutable state object leaves exactly the state and result of its specification function (the nonce discipline, the admission checks and the new record) and keeps the strengthened invariant |
| `Executor.ExecutorState.BeginEvaluation` | crates/ic-laya-core/src/workflow.rs:187-201 | The method on the mutable state object leaves exactly the state and result of its specification function (a stale request is closed, a lost question is sent again once, otherwise the next slot is asked) and keeps the strengthened invariant |
| `Executor.ExecutorState.EngineTransportFailed` | crates/ic-laya-core/src/workflow.rs:202-207 | The method on the mutable state object leaves exactly the state and result of its specification function (the question is marked as no longer in flight) and keeps the strengthened invariant |
| `Executor.ExecutorState.FinishEvaluation` | crates/ic-laya-core/src/workflow.rs:224-250 | The method on the mutable state object leaves exactly the state and result of its specification function (a receipt is filed, rejected, or ends the request) and keeps the strengthened invariant |
| `Executor.ExecutorState.Authorize` | crates/ic-laya-core/src/workflow.rs:251-264 | The method on the mutable state object leaves exactly the state and result of its specification function (the slot-by-slot recheck, without changing anything) and keeps the strengthened invariant |
| `Executor.ExecutorState.PrepareDispatch` | crates/ic-laya-core/src/workflow.rs:265-282 | The method on the mutable state object leaves exactly the state and result of its specification function (report-only, budget refusal, or reservation with frozen payload) and keeps the strengthened invariant |
| `Executor.ExecutorState.SettleRecord` | crates/ic-laya-core/src/workflow.rs:283-292 | The method on the mutable state object leaves exactly the state and result of its specification function (the charge is booked and the operation released or consumed) and keeps the strengthened invariant |
| `Executor.ExecutorState.FinishLedger` | crates/ic-laya-core/src/workflow.rs:293-309 | The method on the mutable state object leaves exactly the state and result of its specification function (the four effects of an outcome) and keeps the strengthened invariant |
| `Executor.ExecutorState.RetryUnknown` | crates/ic-laya-core/src/workflow.rs:311-318 | The method on the mutable state object leaves exactly the state and result of its specification function (one more attempt of the same payload) and keeps the strengthened invariant |
| `Executor.ExecutorState.Cancel` | crates/ic-laya-core/src/workflow.rs:319-323 | The method on the mutable state object leaves exactly the state and result of its specification function (only before anything was frozen) and keeps the strengthened invariant |
| `Executor.ExecutorState.RecoverAfterUpgrade` | crates/ic-laya-core/src/workflow.rs:326-332 | The method on the mutable state object leaves exactly the state and result of its specification function (one pass over all records, then paused) and keeps the strengthened invariant |
| `Executor.ExecutorState.ReviseOperation` | crates/ic-laya-core/src/workflow.rs:136-142 | The method on the mutable state object leaves exactly the state and result of its specification function (new evidence under a new revision) and keeps the strengthened invariant |
| `Executor.ExecutorState.Revoke` | crates/ic-laya-core/src/workflow.rs:152 | The method on the mutable state object leaves exactly the state and result of its specification function (revocation under a new revision) and keeps the strengthened invariant |
| `Executor.ExecutorState.InstallPlan` | crates/ic-laya-core/src/workflow.rs:125-129 | The method on the mutable state object leaves exactly the state and result of its specification function (a validated plan, idempotently) and keeps the strengthened invariant |
| `Executor.ExecutorState.InstallOperation` | crates/ic-laya-core/src/workflow.rs:130-135 | The method on the mutable state object leaves exactly the state and result of its specification function (a new available operation) and keeps the strengthened invariant |
| `Executor.ExecutorState.InstallGrant` | crates/ic-laya-core/src/workflow.rs:143-151 | The method on the mutable state object leaves exactly the state and result of its specification function (a grant with empty books) and keeps the strengthened invariant |
| `Executor.ExecutorState.SetMode` | crates/ic-laya-core/src/workflow.rs:123 | The method on the mutable state object leaves exactly the state and result of its specification function (never the live mode) and keeps the strengthened invariant |
| `Executor.ExecutorState.SetPaused` | crates/ic-laya-core/src/workflow.rs:124 | The method on the mutable state object leaves exactly the state and result of its specification function (the pause flag) and keeps the strengthened invariant |
| `Executor.ExecutorState.RegisterMockLedger` | canisters/executor/src/lib.rs:46 | The registration on the mutable state object leaves exactly the state and result of its specification function (at most eight ledgers, idempotently) and keeps the strengthened invariant |
| `Executor.ExecutorState.SumWindow` | crates/ic-laya-core/src/workflow.rs:337-340 | Past the checked sum over the whole grant, the unchecked sum over one window is exact: it cannot leave `u128`, so it never traps |
| `Executor.ExecutorState.CheckInvariants` | crates/ic-laya-core/src/workflow.rs:333-349 | The loops over records and grants decide exactly the runtime check, which an invariant state passes |
| `Canonical.EncodeInjective` | crates/ic-laya-core/src/types.rs:44-53 | Two field lists of the same kinds have equal preimages only when equal |
| `Canonical.ItemPrefix` | crates/ic-laya-core/src/types.rs:48-51 | A length-framed field can be read off the front of a preimage in one way only |
| `Canonical.DomainsSeparate` | crates/ic-laya-core/src/types.rs:47 | Digests of different domains never collide, whatever their fields |
| `Canonical.SealInjective` | crates/ic-laya-core/src/types.rs:44-53 | Within one digest family equal digests mean equal field lists of the same kinds |
| `Canonical.Builder.Put` | crates/ic-laya-core/src/types.rs:48-51 | The builder appends exactly one framed field |
| `Types.SchemaDigestInjective` | crates/ic-laya-core/src/types.rs:71-79 | Equal schema digests mean equal schema and tokenizer, the option list included |
| `Types.RequestDigestInjective` | crates/ic-laya-core/src/types.rs:118-126 | Equal request digests mean equal requests, with or without calibration and binding |
| `Types.ProposalDigestInjective` | crates/ic-laya-core/src/types.rs:164-169 | Equal proposal digests mean equal proposals |
| `Types.DigestSchema` | crates/ic-laya-core/src/types.rs:72-78 | The builder loop over the options computes the schema digest |
| `SchemaCompiler.Compile` | crates/ic-laya-core/src/schema.rs:24-48 | The pushing loop computes the compiled schema of the specification, with the same errors |
| `SchemaCompiler.CompileLayout` | crates/ic-laya-core/src/schema.rs:24-48 | The exact shape of every compiled prefix and where its markers point |
| `SchemaCompiler.CompileExact` | crates/ic-laya-core/src/schema.rs:24-48 | When a schema compiles: exactly when it is well formed and unreserved, question and options have tokens without control tokens, options at most 48, and all of it fits the prefix limit |
| `SchemaCompiler.CompiledRenders` | crates/ic-laya-core/src/schema.rs:50-74 | A compiled schema renders exactly the nonempty, unreserved states with tokens of their own that fit behind it within the token limit |
| `SchemaCompiler.CompiledIsValid` | crates/ic-laya-core/src/schema.rs:50-62 | Whatever `compile` accepts passes `validate_compiled` |
| `SchemaCompiler.CheckCompiled` | crates/ic-laya-core/src/schema.rs:50-62 | The marker loop with its running previous marker decides the quantified condition, with the same errors |
| `SchemaCompiler.RenderAccepted` | crates/ic-laya-core/src/schema.rs:64-74 | A rendered input fits 128 tokens, has masks exactly at its strictly increasing markers, and is accepted by the model when mask and vocabulary match |
| `SchemaCompiler.MarkersExhaust` | crates/ic-laya-core/src/schema.rs:55-60 | Increasing marked positions are all the masks when there are as many of them as masks |
| `SchemaCompiler.RenderReadBack` | crates/ic-laya-core/src/schema.rs:64-74 | Equal rendered sequences come from equal instruction, option and state tokens |
| `SchemaCompiler.RenderedInputDecides` | crates/ic-laya-core/src/schema.rs:24-74 | Two rendered requests with equal token input, from any two schemas, ask the same question of the same state |
| `Math.Apportion` | crates/ic-laya-core/src/math.rs:40-54 | In exact reals it fails exactly outside the guard; otherwise the masses sum to 1,000,000, each is the floor or one more, a larger probability never gets less, and the squared error is least among all integer vectors of that sum |
| `Math.LeftoverBound` | crates/ic-laya-core/src/math.rs:44-49 | Past the guard the floors leave between zero and n units to hand out |
| `Math.BalancedIsOptimal` | crates/ic-laya-core/src/math.rs:50-52 | A balanced rounding has the least squared error among all integer vectors of its sum |
| `Math.ValidateValueExact` | crates/ic-laya-core/src/math.rs:66-80 | Validation accepts exactly the values the encoder writes, and recovers the distribution |
| `Math.ComputeArgMax` | crates/ic-laya-core/src/math.rs:14-17 | The loop returns the first index of the largest mass |
| `Math.DiagnoseIsSortedPair` | crates/ic-laya-core/src/math.rs:18-21 | The diagnostics are the first two entries of any descending arrangement of the masses |
| `PlanBatches.Plan` | tools/explore_query_conditions.py:16-40 | The backward table returns a partition of all phases within budget and width that is lexicographically least in (intermediate bytes, batch count) among all of them, and fails exactly when there is none |
| `PlanBatches.FailsOnlyOnOversizedPhase` | tools/explore_query_conditions.py:38-39 | For nonnegative costs and a positive width there is no partition exactly when one phase alone exceeds the budget |
| `PlanBatches.OversizedPhaseMayFit` | tools/explore_query_conditions.py:29-31 | With a negative cost an oversized phase can still be part of a feasible plan |
| `PlanBatches.NonNegativeBatch` | tools/explore_query_conditions.py:28-31 | With nonnegative costs the running check of a batch is the check of its total |
| `Int8.DotBound` | crates/laya-candle/src/int8.rs:145-149 | Sums of up to 16384 products of signed bytes stay within 2^28 |
| `Int8.LanesExact` | crates/laya-candle/src/int8.rs:477-559 | No wrapping addition of the SIMD accumulators ever wraps: lanes stay within 2^26 and together hold the plain sum of the chunks read |
| `Int8.LaneSumExact` | crates/laya-candle/src/int8.rs:560-563 | Adding the four lanes does not wrap either and gives the plain sum |
| `Int8.DotTilePlain` | crates/laya-candle/src/int8.rs:453-464 | Every cell of the tile is the dot of its two rows over the integers |
| `Int8.DotTileSimd` | crates/laya-candle/src/int8.rs:468-581 | Chunk pairs, the odd chunk, the lane sums and the tail give the same tile as the plain loop |
| `Matmul.Matmul` | crates/laya-candle/src/int8.rs:327-374 | Tiled, padded or not, in either build: every cell is the plain scaled dot, nothing of the padding remains, and there are exactly as many stores as cells |
| `Matmul.WriteTile` | crates/laya-candle/src/int8.rs:375-396 | The column dispatch fills all columns of its rows and touches no other row |
| `Matmul.StoreTile` | crates/laya-candle/src/int8.rs:398-411 | A tile of sums is stored scaled in its own cells and nowhere else |
| `Matmul.IntegerDots` | crates/laya-candle/src/int8.rs:301-314 | Many dots of one vector, tiled over the outputs, are the plain dots |
| `Grid.CellsDetermine` | crates/laya-candle/src/int8.rs:345-373 | Two outputs of one shape that agree cell by cell are equal, so both builds return the same matrix |
| `FusedLinear.ForwardQ8Grouped` | crates/laya-candle/src/int8.rs:26-69 | Shapes are checked as in the source; every row and group of the result is the quantized plain row, and failure is exactly a row that cannot be quantized |
| `FusedLinear.Q8Tile` | crates/laya-candle/src/int8.rs:71-130 | One block of dots per group, then its rows quantized into their places, leaving finished rows alone |
| `Int8Quant.RowPlain` | crates/laya-candle/src/int8_quant.rs:2-18 | A row is rejected exactly when some entry is not finite, and then nothing is written; otherwise scale and codes are those of the specification |
| `Int8Quant.RowSimd` | crates/laya-candle/src/int8_quant.rs:21-83 | The four-lane build returns the same scale and codes as the scalar one |
| `Int8Quant.ClampIdle` | crates/laya-candle/src/int8_quant.rs:14-16 | The clamp to 127 never changes a code |
| `Int8Quant.ErrorBound` | crates/laya-candle/src/int8_quant.rs:8-17 | The reconstruction of an entry is within half a scale of it |
| `Int8Quant.Idempotent` | crates/laya-candle/src/int8_quant.rs:8-17 | Quantizing a reconstruction gives the same codes and the same reconstruction |
| `Int8Quant.CodesAgree` | crates/laya-candle/src/int8_quant.rs:56-71 | Truncate, compare with a half, add one, restore the sign: the same code as rounding half away from zero |
| `Epilogue.LimitIsTight` | crates/laya-candle/src/epilogue.rs:7-10 | All admitted sums, multipliers and biases fit an i64, rounding half included, exactly up to 2^28 above the limit of the source |
| `Epilogue.NoOverflow` | crates/laya-candle/src/epilogue.rs:87-145 | Within that limit neither product, sum nor rounding half wraps |
| `Epilogue.ShiftedRounds` | crates/laya-candle/src/epilogue.rs:147-152 | The shift is rounding half away from zero of n / 2^31 clipped to 127, and the flag tells exactly whether it was clipped |
| `Epilogue.CellsExact` | crates/laya-candle/src/epilogue.rs:167-241 | The scalar cell and the SIMD lane, narrowing included, both give the exact answer |
| `Epilogue.IntegerRowPlain` | crates/laya-candle/src/epilogue.rs:167-177 | A row of exact answers, the number of clipped cells, and nothing written outside it |
| `Epilogue.IntegerRowSimd` | crates/laya-candle/src/epilogue.rs:180-241 | The same row and count, four cells at a time |
| `Epilogue.Prepare` | crates/laya-candle/src/epilogue.rs:126-146 | Accepts exactly the inputs whose every column stays below one for every token and whose fixed bias is inside the limit |
| `Epilogue.FixedInteger` | crates/laya-candle/src/epilogue.rs:153-166 | The whole table holds the exact rounding of every cell, in either build |
| `Epilogue.TableAccurate` | crates/laya-candle/src/epilogue.rs:116-119 | Unclipped bytes of the table are within 0.626 of the real quotient of the cell, clipped ones have a quotient beyond 127.37 of the same sign |
| `Statistics.StatisticsSimd` | crates/laya-candle/src/q8_ops.rs:171-213 | The lane form returns the exact sum and sum of squares |
| `Statistics.StatisticsPlain` | crates/laya-candle/src/q8_ops.rs:39-48 | The fold returns the exact sum and sum of squares |
| `Statistics.SumLanesExact` | crates/laya-candle/src/q8_ops.rs:210-211 | Sum lanes stay within 2^19 and square lanes within 2^26, so no i32 addition wraps |
| `Statistics.CauchySchwarz` | crates/laya-candle/src/quantized.rs:111-113 | n times the sum of squares is at least the square of the sum, for every row |
| `Statistics.VarianceNonNegative` | crates/laya-candle/src/quantized.rs:112-113 | In exact arithmetic the guard that keeps the variance nonnegative never acts |
| `Inference.LayaModel.ForwardTensor` | crates/laya-candle/src/lib.rs:278-289 | The direct computation, layer list by layer list, is the phase-by-phase one |
| `Inference.LayaModel.InferDirect` | crates/laya-candle/src/lib.rs:350-358 | Direct inference is the specification `Infer` on the phases of the model, errors included |
| `Inference.LayaModel.PhasesArePipeline` | crates/laya-candle/src/lib.rs:246-289 | The phases of `step_inference` together are embedding, every encoder layer once and in order, the final norm, every decision layer once and in order with the last on the markers only, and the scorer |
| `Inference.StepReaches` | crates/laya-candle/src/lib.rs:251-277 | A step from a true session gives a true session one phase further, logits exactly after the last phase and then the direct ones |
| `Inference.StepsReach` | crates/laya-candle/src/lib.rs:251-277 | The same for any number of steps |
| `Inference.StepsSucceed` | crates/laya-candle/src/lib.rs:251-277 | Where the direct computation succeeds, so does every stretch of it |
| `Inference.RunSteps` | canisters/decision-engine/src/lib.rs:262-264 | The batch loop is the iterated step |
| `TokenJobs.TokenJob.Advance` | canisters/decision-engine/src/lib.rs:254-271 | The method on the mutable job has exactly the state and result of its specification; a failing batch commits nothing |
| `TokenJobs.AdvanceKeeps` | canisters/decision-engine/src/lib.rs:254-271 | Every call keeps the job true, a failing one changes nothing, a successful one reports exactly the phases asked for |
| `TokenJobs.RetryReplays` | canisters/decision-engine/src/lib.rs:257 | An exact retry of a successful call returns the identical report and leaves the job alone |
| `TokenJobs.FreshIsNotReplay` | canisters/decision-engine/src/lib.rs:257-258 | A request for the current step is never taken for a replay |
| `TokenJobs.StaleIsRefused` | canisters/decision-engine/src/lib.rs:257-259 | A request for another step that is not the last one is refused |
| `TokenJobs.FreshSucceeds` | canisters/decision-engine/src/lib.rs:259-270 | Where the direct computation succeeds, a well-formed request for the current step succeeds |
| `TokenJobs.ForeignIsRefused` | crates/laya-candle/src/lib.rs:251-253 | A job begun under one model is never advanced by another: the job stays as it is, and only an exact retry is answered |
| `TokenJobs.StartedRunsFinish` | canisters/decision-engine/src/lib.rs:278-350 | Whatever job was there before, finished or not: where direct inference succeeds, a plain start or a batch start under a new request id, followed by calls for the current step that cover the phases left, ends in the direct logits |
| `TokenJobs.OneStarts` | canisters/decision-engine/src/lib.rs:278-296 | A plain start with a loaded model and a computable input takes the slot whatever is in it, and leaves its job with no phase done |
| `TokenJobs.BatchStarts` | canisters/decision-engine/src/lib.rs:299-325 | A batch start under a new request id succeeds after exactly the phases asked for, capped by the total |
| `TokenJobs.CostsAddUp` | canisters/decision-engine/src/lib.rs:265-275 | After any events the reported instruction total of a job is the saturating sum of what its start and its working calls cost; replays, refusals and questions add nothing |
| `TokenJobs.AnyCallsGiveTheDirectAnswer` | canisters/decision-engine/src/lib.rs:166-348 | For every sequence of starts, steps, batches, status questions and changes of model, with the loaded model free to differ at every call: the job holds the computation of its input under its own model stopped after exactly its completed phases, every report is about that job and true of it, any logits ever returned are those of direct inference, and a failing call changes nothing |
| `TokenJobs.Inferences.StartTokenInference` | canisters/decision-engine/src/lib.rs:278-296 | A plain start replaces the slot by a fresh job with no phase done, or changes nothing when the model is cold or refuses the input |
| `TokenJobs.Inferences.StartTokenInferenceBatch` | canisters/decision-engine/src/lib.rs:299-325 | Starting a batch job replaces the slot only on success, and replays or rejects a repeated request id; a cold model is reported before the replay is looked up |
| `TokenJobs.Inferences.AdvanceTokenJob` | canisters/decision-engine/src/lib.rs:339-348 | A step or batch call reaches the current job as specified, or reports that there is no job, or no model |
| `TokenJobs.Inferences.TokenInferenceStatus` | canisters/decision-engine/src/lib.rs:351-357 | The status is the last report, or that of a job with no phase done |
| `TokenJobs.StartIsIdempotent` | canisters/decision-engine/src/lib.rs:248-253 | After a batch start and any steps, questions and loads of models, the same start returns the same report and changes nothing; the same id with another input, width or model conflicts |
| `Continuation.ImportExport` | crates/laya-candle/src/continuation.rs:28-136 | Importing an exported session gives it back bit for bit, at every phase including the switch to marker rows |
| `Continuation.ExportImport` | crates/laya-candle/src/continuation.rs:71-136 | Whatever is imported is exported to the very same bytes |
| `Continuation.ExportExact` | crates/laya-candle/src/continuation.rs:28-69 | Export succeeds exactly on sessions of this model at an open phase with the right shape and finite values; the size limit never refuses one |
| `Continuation.ExportInference` | crates/laya-candle/src/continuation.rs:28-69 | The writing loops produce the specified bytes, with the same errors |
| `Continuation.ImportInference` | crates/laya-candle/src/continuation.rs:71-136 | The reading loops accept and decode as specified, with the same errors in the same order |
| `Quantized.ImportExportQuantized` | crates/laya-candle/src/quantized.rs:382-485 | An exported int8 session is read back exactly if its scales are within (0, MAX/128], and is refused otherwise |
| `Quantized.ScaleOkMeans` | crates/laya-candle/src/quantized.rs:463-469 | The test on the bit pattern of a scale is the test of the source: finite, positive, at most an 128th of the largest float |
| `Quantized.RoundTripIffModerate` | crates/laya-candle/src/quantized.rs:382-485 | With scales as the row quantizer writes them, under any monotone rounding that is exact on floats, an exported session is read back if and only if no row has an entry above 127 x MAX/128; otherwise import answers `Numeric` |
| `Quantized.LargestEntryIsRefused` | crates/laya-candle/src/quantized.rs:382-416 | A row holding the largest float gets a scale above MAX/128, which every export writes and every import refuses |
| `Scales.RoundedScale` | crates/laya-candle/src/int8_quant.rs:8-13 | Every scale written for a peak that is a float is a finite float of at least `f32::MIN_POSITIVE`, and is at most MAX/128 exactly if the peak is at most 127 x MAX/128: there is no float in between |
| `Scales.RoundedOnce` | crates/laya-candle/src/int8_quant.rs:8-13 | Rounding the quotient and then taking the larger of two floats, as the source does, gives the pattern of the rounded exact scale |
| `Scales.ScaleBound` | crates/laya-candle/src/int8_quant.rs:8-13 | In exact reals the scale of a row is at most c, for c of at least 1, exactly if its peak is at most 127 c |
| `Scales.DownRounds` | crates/laya-candle/src/int8_quant.rs:12 | Rounding towards zero is one rounding with the two assumed properties, so the results on written scales are not vacuous |
| `Quantized.ExportImportQuantized` | crates/laya-candle/src/quantized.rs:427-485 | Whatever is imported is exported to the very same bytes |
| `Quantized.WriteQuantized` | crates/laya-candle/src/quantized.rs:382-416 | The int8 writing loops produce the specified bytes, with the same errors |
| `Quantized.ReadQuantized` | crates/laya-candle/src/quantized.rs:427-485 | The int8 reading loops accept and decode as specified, with the same errors in the same order |
| `Queries.ContinueInference` | canisters/decision-engine/src/lib.rs:494-507 | The loop that returns as soon as logits appear is the specified query |
| `Queries.BeginBatch` | canisters/decision-engine/src/lib.rs:590-611 | The first query of a batch is the specified one |
| `Queries.ContinueTrue` | canisters/decision-engine/src/lib.rs:494-507 | From any true continuation and width: exactly the phases asked for, ending in the direct logits |
| `Queries.GroupedDirect` | canisters/decision-engine/src/lib.rs:485-507 | However phases are grouped into queries, a sequence of queries that ends in logits ends in the direct ones, for both engines |
| `Queries.GroupedCompletes` | canisters/decision-engine/src/lib.rs:494-507 | For either engine, from any point: if direct inference succeeds and every intermediate value can travel, every grouping that covers the phases left finishes with the direct logits |
| `Queries.WholeRunCompletes` | canisters/decision-engine/src/lib.rs:486-507 | For either engine a whole run from the first query, in any grouping that covers all phases, finishes with the direct logits under the same two conditions |
| `Queries.F32Travels` | crates/laya-candle/src/continuation.rs:28-136 | For the F32 engine an intermediate value can travel exactly if it is finite and of the shape of its phase |
| `Queries.Q8Travels` | crates/laya-candle/src/quantized.rs:382-485 | For the int8 engine an intermediate value can travel exactly if it is of the shape of its phase and its scales are in range |
| `Queries.ContinueSucceeds` | canisters/decision-engine/src/lib.rs:494-507 | For the F32 engine a query succeeds exactly when its phases do and the value handed on is finite and of the right shape |
| `Queries.F32Sound` | crates/laya-candle/src/continuation.rs:28-136 | The F32 format reads its own exports as the same session |
| `Queries.Q8Sound` | crates/laya-candle/src/quantized.rs:382-485 | The int8 format reads its own exports as the same session or refuses them |
| `Queries.PackedSame` | canisters/decision-engine/src/lib.rs:613-630 | The compressed endpoints report the same progress, with a wire that unpacks to the same state |
| `Queries.ExportPacks` | canisters/decision-engine/src/query_transport.rs:47-71 | Every exported F32 state can be packed |
| `Queries.QuantizedExportPacks` | canisters/decision-engine/src/query_transport.rs:47-71 | Every exported int8 state can be packed |
| `Transport.PlanesInvert` | canisters/decision-engine/src/query_transport.rs:30-45 | Byte-plane shuffle and unshuffle are mutual inverses for every length |
| `Transport.ShuffleBytes` | canisters/decision-engine/src/query_transport.rs:30-45 | The nested loops compute the shuffle in both directions, or refuse a malformed state |
| `Transport.PackIsShorter` | canisters/decision-engine/src/query_transport.rs:47-68 | A state travels compressed exactly when that is shorter, and its wire is the shorter of the two |
| `Transport.UnpackPack` | canisters/decision-engine/src/query_transport.rs:47-101 | Whatever is packed is unpacked bit for bit, compressed or not, and the wire is never longer than the state |
| `Transport.NotEnvelope` | canisters/decision-engine/src/query_transport.rs:60-63 | An uncompressed state is never mistaken for an envelope |
| `Transport.PackBytes` | canisters/decision-engine/src/query_transport.rs:47-71 | The buffer-building pack is the specified one |
| `Transport.UnpackState` | tools/query_transport.py:60-92 | The Python unpacking accepts what the canister accepts, with the same result |
| `Transport.Restore` | tools/query_transport.py:87-91 | The four slice assignments rebuild the interleaved bytes |
| `Transport.InspectState` | tools/query_transport.py:11-57 | Chunk by chunk, it accepts exactly the wires that unpack to a state with a good header, and returns that header and length |
| `Transport.ReadStream` | tools/query_transport.py:26-43 | The chunk loop ends, never asks for an unlimited chunk, and accepts exactly a complete stream of the declared length |
| `QueryCalls.AutoWidth` | tools/query_transport.py:95-117 | Every automatic width is at least 1 and at most the cap, 16 and the phases left, and at least the width of its token count as far as cap and phases left allow |
| `QueryCalls.ServeTrue` | canisters/decision-engine/src/lib.rs:485-658 | Every answer of the canister to a request about an input is true of that input, compressed or not, batched or not |
| `QueryCompletion.Answers` | canisters/decision-engine/src/lib.rs:485-658 | Whatever call comes next in a session on course, the canister answers it, and the client reads the answer as exactly the session after the phases asked for, or the direct logits |
| `QueryCompletion.Heard` | tools/client_held_query.py:148-241 | Over a dependable transport the answer to such a call passes every check of the client and leaves the session on course |
| `QueryCompletion.F32Speaks` | crates/laya-candle/src/continuation.rs:28-69 | Every exported F32 state carries the header the client looks for: format, versions, model and phase |
| `QueryCompletion.Q8Speaks` | crates/laya-candle/src/quantized.rs:382-425 | Every exported int8 state carries the header the client looks for: format, versions, model and phase |
| `QueryCompletion.F32Smooth` | canisters/decision-engine/src/lib.rs:485-507 | A new F32 session has all it needs to complete when direct inference succeeds with one logit per marker, every hidden value is finite and of the shape of its phase, and the transport is dependable |
| `QueryCompletion.Q8Smooth` | canisters/decision-engine/src/lib.rs:541-559 | A new int8 session has all it needs to complete under the same conditions with row scales in range |
| `QueryClient.QuerySession.Call` | tools/client_held_query.py:171-195 | The retry loop ends; it repeats one request, changing only its width, which is halved once per instruction-limit rejection and never otherwise; at most `retries` transport failures are absorbed, and over the whole log of a session at most four calls are ever stopped by the instruction limit at a width above 1; on a transport with no more transient failures in a row than that, only a refusal leaves it without an answer |
| `QueryClient.QuerySession.Advance` | tools/client_held_query.py:148-241 | State changes only after a checked reply; progress strictly grows, in automatic mode by at least the pace; against a faithful canister what is held stays true of the input; over a dependable transport to a canister that can complete it succeeds |
| `QueryClient.QuerySession.Finish` | tools/client_held_query.py:243-245 | Over a transport that passes on what the canister answers, with at most `retries` transient failures between two answers, a session whose direct inference succeeds and whose values can travel completes with the direct logits. Against any transport it ends within (advances x (retries + 1)) + 4 calls, automatic sessions need no more advances than 32 phases at their pace, and against a faithful canister a completed session returns the direct logits |
| `QueryClient.Open` | tools/client_held_query.py:127-146 | A session is refused exactly when its width is outside 1 to 16 |
| `Markers.MarkerRows` | crates/laya-candle/src/lib.rs:163-186 | Wherever the full decision layer succeeds, the marker-only layer gives its marker rows, pre-norm and post-norm |
| `Markers.AttentionSelect` | crates/laya-candle/src/lib.rs:105-132 | Attention for marker queries over all keys and values is the marker rows of full attention |
| `Markers.F32MarkerRows` | crates/laya-candle/src/lib.rs:103-132 | The F32 engine, with scores, mask, softmax and weighted sums as arbitrary operators |
| `Markers.Q8MarkerRows` | crates/laya-candle/src/quantized.rs:129-300 | The int8 engine, with exact integer dots scored with the scale of the query and of the key, and per-token and per-head quantization |

## Left out

- SHA-256 is not modelled: a computed digest is its preimage, so collisions of the hash function itself are outside every statement.
- Candid encoding, stable memory, snapshots, the HTTP and CLI layers, and reply parsing by regular expression are not modelled; persisting before an await is taken as step atomicity.
- The `pre_upgrade` guard of the executor is not modelled: an upgrade may happen at any moment, which allows more behaviours than the source.
- Registered ledgers are mock ledgers: the handshake that establishes this is a premise of the `RegisterLedger` step, not a step of its own.
- Texts inside `NeedsReview` and `Invalid` are kept only as far as a branch or a comparison depends on them.
- A memo that is not 32 bytes long is known by its length only, since the ledger refuses it for that reason.
- Whitespace in the blank-text check of `validate_schema` is ASCII whitespace; other Unicode whitespace is not modelled.
- `check_invariants` visits maps in key order and returns at the first failure; the model keeps only whether it passes.
- Instruction counters, clocks and elapsed times are arbitrary numbers, given to each step from outside.
- Math.Apportion: is about exact reals, so the rounding of `f64` sums, products and differences is not covered; `from_logits` is left out because of `exp`.
- Int8Quant.ErrorBound: is about exact reals; the rounding of the `f32` quotients behind the codes is not covered, only that of the scale itself (`Scales.dfy`). The same holds for `Int8Quant.Idempotent` and `Statistics.VarianceNonNegative`.
- Epilogue.Prepare: is about exact reals, so finiteness checks of `f32` intermediate results have no counterpart; byte decoding of the benchmark input is left out.
- Epilogue.TableAccurate: allows a whole unit of error in the multiplier, because the saturating conversion of an exact real can lose that much; an `f32` below 2^31 cannot.
- The SIMD stores of scaled sums are lanewise the same expression as the scalar ones and are modelled as such.
- Tensor operations, layer arithmetic, softmax, erf and rotary tables are arbitrary functions, so nothing is said about numerical accuracy or model quality.
- Markers.MarkerRows: says nothing when the full layer fails; the marker-only layer may then still succeed, since it computes fewer rows.
- QueryClient.QuerySession.Advance: classifies an exception by two flags, instruction limit and transient, in place of its message text; time between retries and the bookkeeping of calls are left out.
- Owner checks of the decision engine are not modelled, and its queries are those of a loaded model; the cold model is modelled for the in-memory job. A loaded model is taken to be determined by its bundle digest.
- The phases of the int8 engine are one arbitrary function of the phase number, while those of the F32 engine are spelled out branch by branch; its marker-only layer is spelled out in `Markers.dfy`.
- The endpoint `infer_tokens_query` is direct inference; its length limit and model binding only add refusals, which the adversarial network already contains.
- The zlib codec is any pair of functions with a lossless round trip; the chunked decoder of the Python client is any decoder that makes progress and ends where the stream ends.
- `engine.rs` (evaluation cache and quota), `pack.rs`, `storage.rs`, chunked upload and warm-up are left out: the engine is any source of receipts, and these parts would only add easy members.
- The profiled and floating-point benchmark variants, the measuring tools and the fixture scripts are left out.
