# A verified model of the payments platform's core

The platform takes payment instructions from merchants, sends them to payment gateways, keeps a double-entry ledger,
tells the rest of the world through an outbox, and lets merchants version their configuration. This project models the
parts of it whose correctness spans several functions or a whole run, and proves what they promise. It is written in
Dafny 4.11; `dafny verify dfyconfig.toml` checks all of it.

## How the model is organised

Code that changes things step by step is modelled as classes and methods with loops (`Orchestrator`, `Consumer`,
`OutboxRelay`, `UlidGenerator`, `ConfigService`, `LedgerPosting`, `LedgerReport`, `ContextLoaderService`,
`TfAlignTool`, `Allocation`). Each method is proved equal to a specification function, and the theorems are about
those functions, over every input and every run.

| file | what it holds |
|---|---|
| `Common.dfy` | the optional value and the lexicographic order that several components share |
| `Int64.dfy`, `MoneyArithmetic.dfy`, `MoneyText.dfy` | 64-bit money: checked arithmetic, text round trip |
| `Allocation.dfy`, `AllocationSums.dfy` | proportional allocation, and when its parts sum to the amount |
| `PaymentAggregate.dfy` | the payment, its attempts and refunds, and what each transition refuses |
| `DispatchSpec.dfy`, `FollowUpSpec.dfy`, `Orchestrator.dfy` | authorization with failover, capture, void and refund, against an arbitrary environment |
| `DispatchTheorems.dfy`, `ChargeTheorems.dfy` | single charge: every run, and exactly which environments break it |
| `ProtocolTheorems.dfy`, `StoreTheorems.dfy`, `MoneySafety.dfy` | write-ahead calls, no charge unknown to the store, permits and slots, money bounds, over every run and crash |
| `SettlementTheorems.dfy` | what an authorization's answer leaves in the store, for every answer |
| `Lifecycle.dfy` | the state machine, and that what is stored stays in its order |
| `ResponseRules.dfy`, `FollowUpTheorems.dfy` | which gateway answers are believed, and when a capture or void is booked |
| `RefundTheorems.dfy` | what the answer to a refund leaves in the store |
| `ApiError.dfy`, `Consumer.dfy` | the error chain and the idempotent event consumer |
| `OutboxRelay.dfy` | the outbox table and its sharded relay |
| `Ledger.dfy`, `LedgerReport.dfy` | the balance gate, posting, reconciliation |
| `ConfigHistory.dfy`, `ConfigDiff.dfy` | configuration versions and the patch between two of them |
| `ContextLoader.dfy`, `ContextRace.dfy` | the fail-static merchant snapshot, and its race with suspensions |
| `Ulid.dfy`, `UlidGenerator.dfy` | identifiers: encoding, parsing, timestamps, the monotonic generator |
| `TfAlign.dfy`, `TfAlignment.dfy` | the Terraform formatter |

The environment is arbitrary throughout: gateway answers, store failures, clocks, entropy, handlers, breaker and
bulkhead decisions are parameters, and the theorems quantify over them. Integers are mathematical; where the code
relies on 64-bit wrap-around it is written out with `Int64.Wrap`. A transaction is atomic: when it returns an error it
changed nothing. Interleavings happen between transactions. A crash loses memory and any number of the last logged
events, and is one of the steps of `ProtocolTheorems.History`.

## Where the code does not keep a promise

The model follows the code. Each of these has a lemma that shows the failure, and, where the promise can be kept at
all, a lemma that says exactly when it is.

- One instruction, one charge (`orchestrator.go:73-120`). Dispatch goes on to the next gateway after any error of
  settling. If the answer was pending or awaits the payer and settling it fails, the payer can be charged twice:
  `PendingAndUnsaved` is such a run. It also goes on after a timeout error that comes with a response, which it takes
  for a proof that the gateway did not act (`orchestrator.go:252-268`), while a follow-up parks it: `TimedOutWithResponse`.
  `SingleChargeIff` shows that these are the only ways, and `SecondChargeIff` says for which plans, settings and answers
  of the environment they happen.
- A capture or void is booked only if the gateway says so (`orchestrator.go:583-673`). The status of a validated
  response is not looked at, and the validator lets FAILED through: `FailedVoidIsBooked`. `VoidPromiseIff` and
  `CapturePromiseIff` list the answers that are booked against the gateway's word, and no others.
- An authorization can be captured in part (`docs/spec/02-functional-requirements.md:950`). A capture must echo the
  whole amount of the payment, and one of another amount is parked as unknown: `PartialCaptureIsParked`.
- A payer asked to act is sent on (`orchestrator.go:364-390`). The redirect is not passed to the validator, which
  therefore refuses the answer: `AuthorizationReadIff`. The same lemma shows that a decline whose reason has no class is
  parked as unknown, where the rule's own text calls for a hard decline.
- Checked multiplication (`money.go:219-243`). `Mul` and `MulBasisPoints` are wrong on named boundary families:
  `MulExactIff`, `MulBasisPointsIff`.
- The parts of an allocation sum exactly to the amount (`money.go:291-349`). Overflowing products do no harm, except on
  one family of arguments, on which 2^63 units are left over and none is handed out: `OverflowLosesAll`,
  `AllocateKeepsPromiseIff`. If the ratio total itself overflows, the sum holds modulo 2^64 only: `OverflowingTotal`,
  `AllocateConserves`.
- Text round trip (`money.go:366-498`). It fails for MinInt64 unless the currency has two minor digits: `RoundTripIff`.
- Identifiers increase within a process (`ids.go:132-199`). After the entropy overflows, the next identifier of the
  same millisecond goes back: `OverflowThenBack`; the exact condition is `IdsIncreaseIff`.
- Events of one aggregate are published in write order (`cmd/outbox-relay/main.go:49-57`). A row with a later delivery
  time is overtaken: `OutboxTheorems.OrderKeptIff`. And the loop does not go straight on after a full page when the
  batch size exceeds 1000, the most a claim returns: `FullPageContinuesIff`.
- An overflowing ledger sum is reported as an imbalance (`transaction.go:235-237`). It is skipped instead, and an
  unbalanced group can pass, and a balanced one be refused: `OverflowPassesTheGate`, `OverflowRefusesBalanced`;
  `GateIsRightIff` says when the gate is right.
- The version of a draft is ignored (`config/service.go:230-232`). The first publication takes its number from it; a
  draft numbered -1 or MaxInt64 breaks the history: `NegativeDraftDefeatsTheCheck`, `CommitKeepsGoodIff`.
- Past the staleness cliff merchants are served from a snapshot with a policy (`context_loader.go:47-58`). The last
  snapshot taken may hold none: `LastGoodMayLackPolicy`; `PolicyKeptIff` says in which runs that does not happen.
- A suspension is not survived by the snapshot (`context_loader.go:263-266`). A load stores what it read before the
  suspension if that falls between its two steps: `SuspensionLost`, `SuspensionHoldsIff`.

## Model

| member | source | states |
|---|---|---|
| `MoneyArithmetic.Add` | pkg/money/money.go:194-204 | addition fails exactly on a currency mismatch or when the true sum leaves int64, and is exact otherwise |
| `MoneyArithmetic.Sub` | pkg/money/money.go:207-216 | subtraction fails exactly on a currency mismatch or when the true difference leaves int64, and is exact otherwise |
| `MoneyArithmetic.MulGuard` | pkg/money/money.go:219-224 | when the overflow guard of Mul lets a pair through |
| `MoneyArithmetic.MulExactIff` | pkg/money/money.go:219-224 | Mul succeeds exactly on products that fit, and exactly, on every pair but two boundary families |
| `MoneyArithmetic.MulExactOnSuccess` | pkg/money/money.go:219-224 | a success is exact unless the true product is 2^63 |
| `MoneyArithmetic.RoundedQuotientUnique` | pkg/money/money.go:226-243 | rounding half away from zero determines one quotient |
| `MoneyArithmetic.MulBasisPointsRounds` | pkg/money/money.go:231-243 | a product that fits is divided by 10000 and rounded half away from zero |
| `MoneyArithmetic.MulBasisPointsDetects` | pkg/money/money.go:231-243 | a product that does not fit is refused, except for the pair (-1, MinInt64) |
| `MoneyArithmetic.MulBasisPointsIff` | pkg/money/money.go:231-243 | basis-point multiplication is right on every pair of int64 but that one |
| `MoneyArithmetic.Sum` | pkg/money/money.go:510-520 | summing succeeds exactly when currencies agree and every running total fits, and gives the true total |
| `Allocation.Allocate` | pkg/money/money.go:297-349 | the two-array loop computes the specified allocation or the specified error |
| `Allocation.Split` | pkg/money/money.go:353-362 | splitting is allocating by equal ratios |
| `Allocation.PickBest` | pkg/money/money.go:333-345 | the inner scan finds the position the next unit goes to |
| `Allocation.HandOut` | pkg/money/money.go:323-349 | the leftover is handed out one unit a round |
| `Allocation.AllocateProportional` | pkg/money/money.go:297-349 | with products and ratio total in range, parts sum to the amount, each is its share cut toward zero or one unit further, and the units go to the largest remainders, ties to the lowest index |
| `Allocation.PartWithinOneUnit` | pkg/money/money.go:289-296 | each part is less than one unit from its exact share and a zero ratio gets nothing |
| `Allocation.ProportionalUnique` | pkg/money/money.go:289-296 | those properties determine the allocation |
| `Allocation.AllocateNegated` | pkg/money/money.go:297-349 | allocating the negated amount negates every part |
| `Allocation.SplitClosedForm` | pkg/money/money.go:353-362 | the first abs(m) mod n parts get one unit more, away from zero, for every amount |
| `AllocationSums.AllocateSumsIff` | pkg/money/money.go:291-349 | whatever the products overflow to, the parts sum exactly to the amount unless the leftover reads MinInt64, provided the ratio total fits |
| `AllocationSums.AllocateKeepsPromiseIff` | pkg/money/money.go:291-349 | the same in terms of the arguments: the sum fails exactly if every ratio is even and scales the distance of the amount from the far end of int64 to an int64 the ratio total divides |
| `AllocationSums.OverflowingTotal` | pkg/money/money.go:302-308 | parts that sum to 2^63 for MinInt64, with an overflowing ratio total |
| `Allocation.AllocateConserves` | pkg/money/money.go:297-349 | whatever overflows, the ratio total included, parts sum to the amount modulo 2^64 exactly unless the leftover is MinInt64 |
| `Allocation.OverflowLosesAll` | pkg/money/money.go:297-349 | an overflowing allocation that loses the whole amount |
| `MoneyText.Render` | pkg/money/money.go:366-386 | String as the loop computes it |
| `MoneyText.ParseMinorUnits` | pkg/money/money.go:459-498 | ParseMinorUnits as the loops compute it |
| `MoneyText.GuardExact` | pkg/money/money.go:489-491 | for non-negative parts the overflow guard refuses exactly the values that do not fit |
| `MoneyText.AmountReadsBack` | pkg/money/money.go:366-498 | every amount above MinInt64 reads back from its text, whatever the exponent |
| `MoneyText.RoundTripIff` | pkg/money/money.go:366-498 | for every supported currency, scanning the rendered money gives it back exactly when the amount is above MinInt64 or the currency has two minor digits |
| `MoneyText.DecimalReads` | pkg/money/money.go:454-498 | a signed decimal of any digits is read as what it is worth, missing fraction digits taken for zeros and a missing whole part for zero; it is refused with more fraction digits than the currency has, or if a part or the value does not fit |
| `MoneyText.WholeReads` | pkg/money/money.go:454-498 | so is one without a point |
| `Orchestrator.NextGateway` | internal/domain/routing/plan.go:262-275 | the first gateway of the plan not tried yet |
| `DispatchTheorems.NextIsFirst` | internal/domain/routing/plan.go:262-275 | the gateway chosen is the first of the plan that is not excluded, and none is chosen exactly if all are excluded |
| `Orchestrator.Orchestrator.Dispatch` | internal/application/payment/orchestrator.go:73-120 | the failover loop and its answer, as a function of the store and the environment |
| `Orchestrator.Orchestrator.AttemptOnce` | internal/application/payment/orchestrator.go:132-222 | one attempt: breaker, bulkhead, record, commit, call, settle |
| `Orchestrator.Orchestrator.Settle` | internal/application/payment/orchestrator.go:243-439 | what each kind of answer does to the payment, the attempt, the breaker and the loop |
| `Orchestrator.Orchestrator.FollowUp` | internal/application/payment/orchestrator.go:583-673 | capture and void on the gateway that holds the authorization |
| `Orchestrator.Orchestrator.RefundExisting` | internal/application/payment/orchestrator.go:507-579 | a refund is recorded and committed, then sent, then advanced |
| `DispatchTheorems.DispatchCalls` | internal/application/payment/orchestrator.go:73-120 | in every run the gateways called are distinct, at most MaxAttempts, at most one without failover, and every call but the last ended in a way that may continue |
| `DispatchTheorems.SingleChargeIff` | internal/application/payment/orchestrator.go:243-439 | no call that may have charged the payer is followed by another, exactly unless the run went on after a parked payment that failed to settle, or after a timeout that came with a response |
| `DispatchTheorems.SingleChargeWhenSettled` | internal/application/payment/orchestrator.go:243-439 | when every settle returns no error, or failover is off, every call but the last ended in a transport failure or a soft decline, and at most one may have charged exactly if none of those failures was a timeout with a response |
| `ChargeTheorems.SecondChargeIff` | internal/application/payment/orchestrator.go:73-120 | over whole runs, in terms of the plan, the settings and the environment's answers: a gateway is called after one that may have charged exactly if failover is on and, within the budget and the plan, some iteration leaves a charge open and a later one calls |
| `ChargeTheorems.TimedOutWithResponse` | internal/application/payment/orchestrator.go:252-268 | a run that may charge twice although everything is saved: two gateways whose calls time out with a response |
| `ChargeTheorems.PendingAndUnsaved` | internal/application/payment/orchestrator.go:100-118 | a run that may charge twice: two gateways answering pending, and a store that cannot commit |
| `ChargeTheorems.AttemptTracks` | internal/application/payment/orchestrator.go:132-439 | for every set of answers, whether a further attempt can follow this one and in which state of the payment |
| `DispatchTheorems.UnknownMovesNothing` | internal/application/payment/orchestrator.go:243-330 | the five unknown exits are exactly the answers read as unknown, none moves the payment, and none lets a further attempt start |
| `DispatchTheorems.DispatchAnswers` | internal/application/payment/orchestrator.go:73-120 | Dispatch answers with the stored payment or with an error, never both and never neither |
| `DispatchTheorems.DispatchErrsIff` | internal/application/payment/orchestrator.go:73-120 | a run no attempt ended is answered with an error exactly if the final read fails or finds the payment not in flight after an attempt, which without failover must have reported an error |
| `SettlementTheorems.AttemptStores` | internal/application/payment/orchestrator.go:132-439 | for every answer, error and failure: the stored state, authorized and captured amounts, and the outcome, reason and retry advice of the new attempt, from the fields of the answer and the payment before it |
| `SettlementTheorems.OutcomeIff` | internal/application/payment/orchestrator.go:243-439 | for each of the six outcomes of the attempt, exactly the answers after which it is stored |
| `SettlementTheorems.MoneyMovesIff` | internal/application/payment/orchestrator.go:321-363 | captured grows exactly on a committed, valid CAPTURED answer the aggregate takes, by the amount reported; AUTHORIZED sets the authorized amount and captures nothing; refunds are never touched |
| `SettlementTheorems.AttemptTellsIff` | internal/application/payment/orchestrator.go:132-439 | an attempt ends the loop exactly if its answer was taken, stored and read back and no other gateway is to be tried, lets it go on exactly if one is, and reports an error otherwise |
| `ProtocolTheorems.NoUnrecordedCall` | internal/application/payment/orchestrator.go:154-190 | over every sequence of operations and crashes, each gateway call is preceded by a committed row of its own, no row is sent twice, and none is a row the payment came with |
| `StoreTheorems.NoUnknownCharge` | internal/application/payment/orchestrator.go:61-69 | over every sequence of operations and crashes, every call the gateways have seen has its row in the store at the end, and it is a row the payment did not come with |
| `ProtocolTheorems.DispatchKeeps` | internal/application/payment/orchestrator.go:154-190 | an authorization run keeps write-ahead and once-only sending |
| `ProtocolTheorems.FollowUpKeeps` | internal/application/payment/orchestrator.go:606-626 | so does a capture or a void |
| `ProtocolTheorems.RefundKeeps` | internal/application/payment/orchestrator.go:516-537 | so does a refund |
| `ProtocolTheorems.AttemptTally` | internal/application/payment/orchestrator.go:132-222 | a granted permit is recorded once, a slot taken is released once, the outcome counts exactly when the gateway was called and did not decline, and counts as healthy exactly on a valid answer of the other kinds |
| `ProtocolTheorems.FollowUpTally` | internal/application/payment/orchestrator.go:583-673 | the same for capture and void, where every call counts, as healthy exactly if its answer is believed |
| `ProtocolTheorems.DispatchBalanced` | internal/application/payment/deps.go:57-70 | a whole run leaves no permit unrecorded and no slot held |
| `ResponseRules.AuthorizationReadIff` | internal/application/payment/validator.go:350-445 | with the platform's validator and in every state of the payment, exactly which answers to an authorization are read as authorized, captured, pending, declined or unknown; a request for the payer's action never is followed |
| `FollowUpTheorems.VoidBookedIff` | internal/application/payment/orchestrator.go:583-673 | a void is booked exactly if the payment is authorized and uncaptured, the call goes out, the answer is error-free and valid, and the commit succeeds |
| `FollowUpTheorems.CaptureBookedIff` | internal/application/payment/orchestrator.go:583-673 | a capture likewise, if the aggregate takes the reported amount, by which the captured total then grows |
| `FollowUpTheorems.VoidPromiseIff` | internal/validation/rules/l6response/rules.go:158-378 | with the platform's validator, a void is booked against the gateway's word exactly on FAILED and on three success statuses with a reference and a matching echo; one the gateway confirms is booked exactly with reference and echo |
| `FollowUpTheorems.CapturePromiseIff` | internal/validation/rules/l6response/rules.go:158-378 | the same for a capture, per status and state; one the gateway confirms is booked exactly if it echoes the whole amount within the authorized one |
| `FollowUpTheorems.PartialCaptureIsParked` | internal/validation/rules/l6response/rules.go:206-251 | a capture confirmed for another amount than the payment's is never booked: its outcome is unknown |
| `FollowUpTheorems.FailedVoidIsBooked` | internal/validation/rules/l6response/subject.go:185-195 | a void answered FAILED on an authorized payment passes the validator and is stored as VOIDED |
| `FollowUpTheorems.FollowUpAttempt` | internal/application/payment/orchestrator.go:583-673 | a capture or void that goes out leaves one attempt more, on the gateway of an attempt that succeeded, with the outcome the answer calls for |
| `FollowUpTheorems.FollowUpRepliesIff` | internal/application/payment/orchestrator.go:583-673 | the caller of a capture or void gets the stored payment exactly if the call goes out, the aggregate books a believed answer, and the result is stored and read back |
| `FollowUpTheorems.FollowUpCallsHolder` | internal/application/payment/orchestrator.go:583-673 | every gateway call of a capture or void goes to the gateway of an attempt that succeeded |
| `FollowUpTheorems.RefundCallsHolder` | internal/application/payment/orchestrator.go:507-579 | so does every call of a refund |
| `RefundTheorems.RefundStores` | internal/application/payment/orchestrator.go:507-579 | for every answer, error and failure: the payment stored after a refund, from the fields of the answer and the payment before it |
| `RefundTheorems.RefundBookedIff` | internal/application/payment/orchestrator.go:537-579 | the new refund is stored as SUCCEEDED, SUBMITTED, FAILED or PENDING each exactly on its answers; refunded total and state move exactly with a success |
| `RefundTheorems.RefundRepliesIff` | internal/application/payment/orchestrator.go:507-579 | the caller of a refund gets the stored payment exactly if the refund is recorded, sent, confirmed where the gateway says it was paid, stored and read back |
| `RefundTheorems.RefundTakenIff` | internal/domain/payment/payment.go:583-630 | with books in order, a refund is taken exactly if it fits what is captured and neither refunded nor held for another refund |
| `RefundTheorems.PaidRefundSucceeds` | internal/domain/payment/payment.go:639-668 | a gateway's word that such a refund was paid is never refused |
| `Lifecycle.LeadsToIff` | internal/domain/payment/state.go:93-156 | a payment can get from one state to another, by any number of permitted transitions, exactly if both are the same, both are of the payer at work or of money taken, or the second is of a later stage, which nothing is once money was taken and CANCELED is not once a gateway accepted |
| `Lifecycle.TerminalIff` | internal/domain/payment/state.go:85-166 | the states declared terminal are exactly those that cannot be left, and none can be reached once money was taken |
| `Lifecycle.StatesStayInOrder` | internal/domain/payment/state.go:89-156 | over every sequence of operations and crashes, each state saved can be reached from all those saved before it |
| `MoneySafety.AlwaysSolvent` | internal/domain/payment/payment.go:422-668 | over every sequence of operations and crashes, whatever amounts gateways report, captured never exceeds authorized, and refunded with pending refunds never exceeds captured |
| `MoneySafety.AddRefundSolvent` | internal/domain/payment/payment.go:583-630 | a refund is accepted only within what is captured and not yet committed to other refunds |
| `MoneySafety.MarkCapturedSolvent` | internal/domain/payment/payment.go:460-512 | a capture stays within the authorized amount |
| `ApiError.RewrapPreserves` | pkg/apierror/apierror.go:234-258 | any number of re-wraps as INTERNAL_ERROR keeps code, category and retry bit, for every error |
| `Consumer.IdempotentHandler.Receive` | internal/events/consumer.go:248-256 | an undecodable message is refused once and changes nothing; any other is handled |
| `Consumer.IdempotentHandler.HandleEnvelope` | internal/events/consumer.go:259-295 | one delivery records exactly one outcome and leaves the specified database |
| `Consumer.IdempotentHandler.ResolveInvariantConflict` | internal/events/consumer.go:299-350 | a refused invariant is resolved by the end-state check, in transactions of its own |
| `ConsumerTheorems.HandleRuns` | internal/events/consumer.go:259-350 | handling a delivery does to the database what its transactions and those of others in between do, in their order |
| `ConsumerTheorems.AlwaysEffectivelyOnce` | internal/events/consumer.go:248-350 | over every sequence of received messages, duplicates, faults and groups, with other consumers' transactions between and inside the calls, each effect is applied at most once per group and event, has its dedup row, and the store is the replay of the applied effects |
| `ConsumerTheorems.RedeliveryChangesNothing` | internal/events/consumer.go:248-350 | once the row is there, receiving the message again anywhere later in any run, with any faults, leaves what other consumers did meanwhile, and nothing else |
| `ConsumerTheorems.HandleIsAtomic` | internal/events/consumer.go:259-350 | nil means the dedup row is present; an error, a duplicate or an already applied effect leaves only what others did meanwhile |
| `ConsumerTheorems.RoutingAgrees` | internal/events/consumer.go:241-397 | nil acks, and otherwise the error is classified and its retry bit agrees with the recorded outcome |
| `ConsumerTheorems.CleanDeliveryLands` | internal/events/consumer.go:259-295 | a delivery without faults whose handler accepts is applied once and stays marked for ever |
| `ConsumerTheorems.CleanOutcomeIff` | internal/events/consumer.go:259-295 | a delivery is recorded as processed or as a duplicate exactly then, and otherwise its transaction ends with an error |
| `ConsumerTheorems.ErrorOutcomeIff` | internal/events/consumer.go:276-397 | with an error, for each of the other four outcomes exactly when it is recorded, over category, code and retry bit of the first platform error, the checker's answer and the faults |
| `ConsumerTheorems.ErrorAnswerIs` | internal/events/consumer.go:276-397 | the error or acknowledgement given in each of these cases; an acknowledged delivery has its row |
| `OutboxTheorems.ClaimableIs` | internal/infrastructure/postgres/outbox.go:144-185 | a claim sees exactly the unpublished, due rows of its shard, in outbox order |
| `OutboxTheorems.ShardOfKey` | internal/infrastructure/postgres/outbox.go:302-331 | in a fleet of a legal size every key belongs to exactly one shard, in any other to none |
| `OutboxTheorems.ReplicasHoldApart` | internal/infrastructure/postgres/outbox.go:302-331 | over every interleaving two replicas never hold the same row, nor two rows of one key |
| `OutboxTheorems.RelayIsSafe` | cmd/outbox-relay/relay.go:127-161 | over every interleaving of commits, claims, partial publishes, failed marks and crashes, every marked row and every row sent is on the broker and nothing uncommitted is; if delivery times follow write order, no message overtakes an earlier one of its aggregate |
| `OutboxTheorems.OrderKeptIff` | cmd/outbox-relay/main.go:49-57 | write order per aggregate is kept in every run exactly when delivery times follow write order |
| `OutboxTheorems.LaterDueIsOvertaken` | internal/infrastructure/postgres/outbox.go:165-180 | a run in which a later row overtakes an earlier one that is due after it |
| `OutboxTheorems.CleanDrainIs` | cmd/outbox-relay/relay.go:127-161 | a drain without failure publishes its page in order and marks exactly that page |
| `OutboxTheorems.DrainsTakePages` | cmd/outbox-relay/relay.go:107-161 | k successful drains publish exactly the first k pages of the backlog, in order |
| `OutboxTheorems.BacklogClearedIff` | cmd/outbox-relay/relay.go:107-161 | k successful drains clear a backlog of n rows exactly when k pages hold n rows |
| `OutboxTheorems.FullPageContinuesIff` | cmd/outbox-relay/relay.go:104-124 | a full page is followed at once exactly when the batch size is at most 1000 |
| `OutboxRelay.Relay.DrainOnce` | cmd/outbox-relay/relay.go:127-161 | one pass takes exactly the steps its failures allow and returns the length of the page it settled, or 0 |
| `Ulid.PackUnpack` | pkg/ids/ids.go:214-245 | five bytes come back from their eight symbols |
| `Ulid.BytesSymbols` | pkg/ids/ids.go:214-245 | every 26 symbols with a first of at most three bits encode some sixteen bytes |
| `Ulid.SymbolsKeepOrder` | pkg/ids/ids.go:214-245 | comparing symbols is comparing bytes |
| `Ulid.AlphabetAscends` | pkg/ids/ids.go:80-100 | the alphabet is ascending and the decode table reads it back |
| `Ulid.IdsCompareAsNumbers` | pkg/ids/ids.go:333-335 | identifiers of one prefix compare as their 128-bit numbers and never collide |
| `Ulid.Parse` | pkg/ids/ids.go:248-271 | Parse with its four refusals, as the loop computes it |
| `Ulid.ParseAcceptsIff` | pkg/ids/ids.go:248-271 | Parse accepts exactly the spellings of a registered prefix and sixteen bytes |
| `Ulid.EmittedIsAccepted` | pkg/ids/ids.go:248-271 | Parse accepts every identifier that is emitted |
| `Ulid.TimeOf` | pkg/ids/ids.go:305-319 | TimeOf as the loop computes it |
| `Ulid.TimeOfSpelled` | pkg/ids/ids.go:301-319 | TimeOf returns the 48-bit number of the first six bytes, however the identifier is spelled |
| `UlidGenerator.IncrementInPlace` | pkg/ids/ids.go:190-199 | the in-place loop is the big-endian increment |
| `UlidGenerator.IncrementAddsOne` | pkg/ids/ids.go:190-199 | the increment adds one, or reports that every byte was 255 |
| `UlidGenerator.EmittedReadsBack` | pkg/ids/ids.go:154-187 | an emitted identifier parses and its time is the low 48 bits of the clock |
| `UlidGenerator.Generator.NewAt` | pkg/ids/ids.go:154-187 | a call advances the generator as specified and emits its identifier; an unregistered prefix panics and changes nothing |
| `UlidGenerator.IdsIncreaseIff` | pkg/ids/ids.go:132-187 | the identifiers of any run, at any clocks, strictly increase exactly when every call in the last millisecond has entropy or a next stamp left, and every other call brings a greater stamp, or the same 48 bits and greater entropy |
| `UlidGenerator.ForwardWithinRange` | pkg/ids/ids.go:132-187 | for clocks below 2^48 ms that is: no clock falls behind the last stamp and no stamp leaves its 48 bits |
| `UlidGenerator.IncreasingPairwise` | pkg/ids/ids.go:132-187 | then any two identifiers of the run are ordered as they were emitted |
| `UlidGenerator.SteadyClockKeepsUp` | pkg/ids/ids.go:132-187 | a clock below 2^48 ms that never goes back and an entropy that never overflows suffice |
| `UlidGenerator.OverflowThenBack` | pkg/ids/ids.go:163-173 | a run with a steady clock whose identifiers go back |
| `LedgerBalance.Imbalances` | internal/domain/ledger/transaction.go:225-263 | the per-currency sums and the currencies reported |
| `LedgerBalance.Balance` | internal/domain/ledger/transaction.go:279-300 | the gate: empty, single, imbalanced or balanced |
| `LedgerBalance.KeptAndDropped` | internal/domain/ledger/transaction.go:234-246 | the sum kept and the additions skipped make the true total, and none is skipped exactly when it fits |
| `LedgerBalance.GateIsExact` | internal/domain/ledger/transaction.go:265-300 | while totals fit, the gate passes exactly the groups of two or more entries that balance in every currency |
| `LedgerBalance.GateIsRightIff` | internal/domain/ledger/transaction.go:225-300 | overflow or not, the gate is right about a group of two or more exactly if the sums it kept and the additions it skipped agree, or the sums differ and the skipped ones do not make up for it |
| `LedgerBalance.OverflowRefusesBalanced` | internal/domain/ledger/transaction.go:225-263 | a balanced group that is refused |
| `LedgerBalance.AcceptedBalancesIff` | internal/domain/ledger/transaction.go:265-300 | a group let through balances exactly when the skipped additions agree |
| `LedgerBalance.OverflowPassesTheGate` | internal/domain/ledger/transaction.go:225-263 | an unbalanced group that passes |
| `LedgerPosting.Service.Post` | internal/application/ledger/service.go:79-119 | posting inside a transaction: claim, build, gate, append |
| `LedgerPosting.Service.Apply` | internal/application/ledger/service.go:225-229 | an Apply that fails leaves neither claim nor entries; a replay succeeds and leaves everything alone |
| `LedgerPosting.AppliedInFull` | internal/application/ledger/service.go:79-119 | a call that is no replay and succeeds appends every transaction built, nil ones aside, each once, in order and nothing else, and claims its reference |
| `LedgerPosting.FreshCallSucceedsIff` | internal/application/ledger/service.go:79-119 | a call that is no replay succeeds exactly if it has a reference, nothing fails around it, and every group built passes the gate |
| `LedgerPosting.LedgerIsDeduplicated` | internal/application/ledger/service.go:79-119 | over every run of calls the ledger is what was there plus the movements of calls with distinct, newly claimed references, all through the gate |
| `LedgerPosting.ReplaysChangeNothing` | internal/application/ledger/service.go:79-119 | dropping the calls whose reference is claimed already leaves the same ledger |
| `LedgerPosting.WithoutLogRepeatsPost` | internal/application/ledger/service.go:87-99 | without a posting log every call that succeeds posts, repeat or not |
| `LedgerReport.Reconcile` | internal/application/ledger/service.go:297-370 | the report is the one the listed entries determine, or the refusal |
| `LedgerReport.ListedCount` | internal/application/ledger/service.go:315-325 | an entry of the merchant in the currency counts as often as its payment is listed, and no other entry counts |
| `LedgerReport.ReportTiesOut` | internal/application/ledger/service.go:290-370 | every report holds the true sums, and debit-normal balances minus credit-normal balances is the residual |
| `LedgerReport.CleanBooksTieOut` | internal/application/ledger/service.go:297-370 | over balanced single-merchant, single-payment groups debits equal credits, whatever payments are listed |
| `LedgerReport.CleanBooksReportNoResidual` | internal/application/ledger/service.go:287-370 | so a report over such books has no residual |
| `LedgerTheorems.PostedBooksReconcile` | internal/application/ledger/service.go:225-370 | after any run of Apply calls over well-built groups, every report has a residual of zero |
| `ConfigService.Store.GetActive` | internal/application/apptest/apptest.go:735-745 | the last active version |
| `ConfigService.Store.AppendVersion` | internal/application/apptest/apptest.go:767-787 | the expected-version check, superseding and appending |
| `ConfigService.Store.Submit` | internal/application/config/service.go:261-407 | Publish and Rollback leave the history the request determines, or leave it alone |
| `ConfigHistory.PublishStores` | internal/application/config/service.go:310-345 | a publication that commits appends exactly the content submitted as the one active version |
| `ConfigHistory.CommitsIff` | internal/application/config/service.go:261-407 | over a good history a request commits exactly if nothing fails, the active version is read, the ETag is that of the last version and a rollback names an earlier one; over none, exactly a publication |
| `ConfigHistory.HistoryStaysGood` | internal/application/config/service.go:261-407 | over every run versions strictly increase, content is only appended, and exactly the highest version is active |
| `ConfigHistory.CommitKeepsGoodIff` | internal/application/config/service.go:312-345 | a commit keeps that exactly when the first draft is numbered from 0 to below MaxInt64 and no version is built on MaxInt64 |
| `ConfigHistory.CommitsOnPresentedVersion` | internal/application/config/service.go:567-587 | over existing history a request commits only on top of the version whose ETag it presents, even when the active read fails |
| `ConfigHistory.StaleEditorIsRefused` | internal/application/config/service.go:567-587 | an editor who presents the ETag of an earlier version is refused |
| `ConfigHistory.ETagInjective` | internal/domain/config/config.go:332-335 | an ETag names one version |
| `ConfigHistory.RollbackRestores` | internal/domain/config/config.go:279-308 | a rollback appends the content of the earlier version it names |
| `ConfigHistory.NegativeDraftDefeatsTheCheck` | internal/application/config/service.go:300-345 | two versions numbered 0 after a draft numbered -1 and a failed read |
| `ConfigTree.FlattenIsFind` | internal/application/config/service.go:503-564 | flattening is path lookup, for every path, when keys hold no slash |
| `ConfigTree.FlattenEqualIff` | internal/application/config/service.go:503-564 | such trees flatten alike exactly when they agree up to nulls and empty objects |
| `ConfigTree.SlashInKeyCollides` | internal/application/config/service.go:540-564 | two trees that differ and flatten alike because of a slash in a key |
| `ConfigDiff.Diff` | internal/application/config/service.go:465-501 | the patch is the operations the sorted keys of both documents call for |
| `ConfigDiff.PatchCompletes` | internal/application/config/service.go:465-501 | applying the patch to the first document gives the second, and no operation lacks its target |
| `ConfigDiff.PatchIsMinimal` | internal/application/config/service.go:465-501 | one operation for each changed path and no other, in strictly ascending order, and none exactly when nothing changed |
| `ConfigDiff.EmptyPatchIff` | internal/application/config/service.go:465-564 | the patch is empty exactly when the documents agree up to nulls and empty objects |
| `ContextLoaderService.ContextLoader.Load` | internal/application/payment/context_loader.go:111-150 | a load answers and updates the two maps as specified |
| `ContextLoaderService.ContextLoader.Invalidate` | internal/application/payment/context_loader.go:266-271 | an invalidation forgets the merchant and nothing else |
| `ContextLoader.LoadAnswersHistory` | internal/application/payment/context_loader.go:111-159 | after any run a load answers what the history of loads and invalidations calls for |
| `ContextLoader.PastTheCliff` | internal/application/payment/context_loader.go:125-141 | past the cliff a load without a memo succeeds exactly when a load within tolerance succeeded since the last invalidation, and returns the latest such snapshot, only aged |
| `ContextLoader.SameWithinRequest` | internal/application/payment/context_loader.go:90-111 | within one request all successful loads of a merchant return one snapshot, whatever happens meanwhile |
| `ContextLoader.SuspensionSurvivesOutage` | internal/application/payment/context_loader.go:261-271 | with loads as single steps, an invalidated merchant is refused past the cliff to every request that had not loaded it |
| `ContextRace.SuspensionHoldsIff` | internal/application/payment/context_loader.go:142-148 | with loads as a read and a later store, over every run: no merchant can be served from a snapshot read before its last suspension exactly if no load stores one that was |
| `ContextRace.UninterruptedLoadsHold` | internal/application/payment/context_loader.go:142-148 | it holds when every load stores at once what it reads |
| `ContextRace.SuspensionLost` | internal/application/payment/context_loader.go:142-148 | a merchant suspended between the two steps of a load is back after the second |
| `ContextLoader.PolicyServedIff` | internal/application/payment/context_loader.go:125-150 | past the cliff a merchant is served without a policy exactly if the latest load to assemble it since its last invalidation found none, and with one exactly if that load found one |
| `ContextLoader.PolicyKeptIff` | internal/application/payment/context_loader.go:47-58 | over a whole run, no load past the cliff is served without a policy exactly if each such latest load had one |
| `ContextLoader.LastGoodMayLackPolicy` | internal/application/payment/context_loader.go:205-218 | a run in which a snapshot without a policy is served past the cliff |
| `TfAlignSyntax.ParsesIff` | terraform/scripts/tfalign.py:31 | the attribute pattern matches exactly the lines of that shape and takes them apart in one way |
| `TfAlignSyntax.HeredocTagIff` | terraform/scripts/tfalign.py:32 | the heredoc pattern finds a tag exactly in the values that end in an opening, and finds the tag of that opening |
| `TfAlignSyntax.BracketDelta` | terraform/scripts/tfalign.py:35-66 | the index-driven scan computes the depth that a lexer of code, strings, escapes and comments defines |
| `TfAlignSyntax.DepthCounts` | terraform/scripts/tfalign.py:35-42 | the depth of a value is the opening less the closing brackets outside strings and comments, open strings and escapes included |
| `TfAlignSyntax.EveryValueIsSpelled` | terraform/scripts/tfalign.py:43-66 | and every value is made of such texts, strings and comments |
| `TfAlignTool.AlignText` | terraform/scripts/tfalign.py:69-111 | the pass with its run and its flushes computes the specified text |
| `TfAlignment.AlignIsIdempotent` | terraform/scripts/tfalign.py:69-111 | formatting a formatted text changes nothing, for every text |
| `TfAlignment.CheckPassesIff` | terraform/scripts/tfalign.py:114-139 | a text is left alone, which is what --check decides, exactly if each of its lines is as the formatter would write it, and what --write leaves always is |
| `TfAlignment.AlignPreserves` | terraform/scripts/tfalign.py:11-17 | the line count stays, other lines and heredoc bodies stay, attribute lines keep indent, name and value |
| `TfAlignment.RunIsAligned` | terraform/scripts/tfalign.py:75-81 | every "=" of a run stands in one column, after the longest name of the run |
| `TfAlignment.SplitJoin` | terraform/scripts/tfalign.py:70-111 | splitting what was joined on newlines gives the lines back |

## Left out

- Merchant onboarding, merchant lifecycle, routing-plan computation, risk evaluation and the validation levels before a gateway call: guards that delegate to other components.
- Of the rules on gateway responses: webhook signatures, settlement and dispute records, warnings, and rules staged as not enforced. The validator's verdict is arbitrary in all theorems but those that name `Judged` or `Accepts`.
- Gateway adapters, HTTP and event transport, Postgres, Redis and Kafka code, telemetry, health probes: represented only by what they may answer; a transaction is assumed atomic, and a commit that reports an error is assumed not to have happened.
- The publisher of the relay: the broker is assumed to accept a prefix of a batch in order, a claim to return rows in outbox order, rows to become visible in outbox order, and one replica to serve a shard.
- The relay's timer and shutdown: only the decision to go on at once is modelled.
- The Postgres repository of configurations: versions are those of one merchant in one environment, as the in-memory repository keeps them. The Postgres one supersedes the active version of the same environment only (`config_repo.go:198-202`) and reads the active version whatever its environment (`config_repo.go:43-58`), so that after a publication in a second environment two versions are active.
- SuspensionSurvivesOutage: takes a load as one step; what holds when it is two is SuspensionHoldsIff.
- Disputes, settlement, expiry and cancellation of payments: transitions outside the four operations on a gateway.
- JSON encoding and envelope validation: a message either decodes to a delivery or does not; the catalogue of error codes is reduced to the codes the consumer reads.
- The builders of ledger groups: build is an arbitrary map from an effect to groups; the report's list of accounts is a map here, not a sorted list.
- Upper-casing of currency codes beyond ASCII, and what ParseMinorUnits makes of strings that are not a sign, digits and a point.
- Bit operations of encode are written as division and remainder by powers of two.
- Two components in one process touching the same object in memory: the classes here own their state.
- AllocateProportional: states exact proportionality for products and totals within int64 only; what remains beyond is AllocateKeepsPromiseIff and AllocateConserves.
- GateIsExact: states exactness while totals fit int64; what remains beyond is GateIsRightIff.
- FlattenIsFind: needs keys without slashes, as the code escapes none; SlashInKeyCollides shows why.
