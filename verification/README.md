# Synxed settlement: a verified model

This project models the Synxed settlement system in Dafny and proves what its
parts promise one another. Run `dafny verify dfyconfig.toml` to check it.

Three layers, and the theorems that join them:

1. **The on-chain program** (`Split`, `Codec`, `Program`, `Processor`). `Program`
   gives every instruction as a function on accounts; `Processor` runs the same
   instructions in place and is proved to have those outcomes. `Accounting`,
   `Runs` and `Funding` prove what holds of one instruction, of every run mixed
   with arbitrary outside changes, and when a settlement goes through.
2. **The evidence pipeline** (`Text`, `Evidence`, `EvidenceLaws`, `Cluster`,
   `Search`, `SearchLaws`, `Pools`). How a transaction executes and lands, what an
   honest node says of it, how the creating transaction is found, and how it is
   compared with a request. The pipeline accepts exactly what the program did.
3. **The studio worker** (`Tables`, `Store`, `Books`, `Network`, `Protocol`,
   `ProtocolSteps`, `Deciding`, `Worker`, `Examples`). The store and the worker are classes that
   change their tables in place, over a network that lags, forgets, refuses and
   fails. `Protocol.Sound` is the invariant every write, send and moment of time
   keeps; `Worker.SettlementWorker.Promises` is what follows from it.

## How to read it

- Every write to the store and every call to a node may throw, or be the last
  thing the process does. A method then ends there with `Threw` or `Crashed`, and
  its contract still holds; `Worker.Serve` goes on with the next command, so a
  crash between any two effects and a restart are covered.
- The cluster's whole history and each node's behaviour at each call are inputs
  (`Networks.Nature`). What is proved holds for all of them.
- Contracts that speak of `Healthy` say what the worker decides when, whatever befell
  before, nothing fails from now on: they rule out a worker that is safe because it does
  nothing. Time passes between polls and between commands, also without faults.
- A network keeps on record, for the contracts alone, what was sent and how, what each
  provider told, and when each wait ended. So a contract can say that the second provider
  itself was heard, that bytes went out again, or that a look followed each wait.
- `Examples` is a small concrete world in which these contracts apply, with the inputs on
  which the code falls short.

## Assumptions

- Address derivation is any function of the seeds. Nothing is assumed injective;
  a theorem that needs it says "or this step exhibits a collision".
- Outside the program, anyone may change anything except that accounts the program
  owns keep owner and data and are not debited, derived addresses are not signed
  for, and an account assigned to the program from outside arrives zeroed.
- What is confirmed is irrevocable. A signature lands at most once, at a height no
  greater than the transaction's last valid one.
- Nodes do not lie about what landed: a history lists landed transactions and an
  answer about one is what it did. They may lag, with a view that never goes back,
  withhold, cut histories short, and report a status as unknown.
- A failed simulation means the node did not pass the transaction on.
- One worker works on one database. A store write happens whole or not at all.
- The ledger's entry id, a hash, is represented by the text it hashes. Signed bytes
  are represented by the transaction they encode.
- Transaction signatures contain no NUL character.

## What the proofs brought out

- The last share exceeds its exact part by less than one unit per other share, which
  for a single share reads "by nothing", not "by less than zero" (`SplitIsFair`).
- A settlement with a payout above 2^53-1 is carried out by the program and refused by
  the ledger as a transfer mismatch, so the worker may record its own settlement as an
  incident. `OwnSettlementJudged` gives the exact condition on the request,
  `OwnSettlementNoIncident` says nothing else makes one, and `TooLargeToState` is an input.
- The ledger merges the labels "synxed" and "platform". Paid to one beneficiary, the
  second line has the first one's entry id and is ignored on insert
  (`TwoNamesForThePlatform`); NUL characters can do the same (`NulShiftsTheBoundary`).
  `BalancedIff` is the exact condition for the books to balance.
- A blank beneficiary id leaves a settlement that agrees with its request unresolved on
  every look: the rows cannot be labelled (`IdsOnlyLabel`; `BlankIdStaysUnresolved` is
  an input).
- A successful transaction that merely names the event, its own settlement having failed
  unnoticed, keeps the creating transaction from being found; it never takes its place
  (`FoundUnlessDecoy`, `FoundIsCreator`; `DecoyHidesSettlement` is an input).

## Model

| member | source | states |
|---|---|---|
| Splits.SplitShares | programs/synxed-settlement/src/split.rs:45-79 | The program's splitter, written into its output array with saturating, narrowing and checked machine arithmetic, computes exactly the unbounded split, refuses in the same order, and leaves the array alone when it refuses. |
| Splits.PartFits | programs/synxed-settlement/src/split.rs:72-74 | A share of a u64 amount never saturates the 128-bit product, and its quotient survives the cast to u64. |
| Splits.PartialSumFits | programs/synxed-settlement/src/split.rs:64-75 | The shares handed out so far never saturate and never exceed the amount, so the final checked subtraction always succeeds. |
| Splits.SplitIsFair | programs/synxed-settlement/src/split.rs:40-79 | Every accepted split sums to the amount; all shares but the last are exact floors; with more than one share the last exceeds its exact part by less than one unit per other share, and a single share is exact. |
| Splits.AssertBpsShares | sdk/typescript/src/split.ts:31-49 | The client's share check accepts and refuses, error by error, what the split of one unit would. |
| Splits.SplitAmountAtomicShares | sdk/typescript/src/split.ts:63-90 | The client's splitter over unbounded amounts computes the same function as the program's, refusals included. |
| Codec.Pack | programs/synxed-settlement/src/instruction.rs:73-123 | Packing produces the wire form, byte by byte, with the share count truncated to one byte. |
| Codec.ReadBps | programs/synxed-settlement/src/instruction.rs:208-219 | Reads the little-endian shares of a settlement. |
| Codec.UnpackPacked | programs/synxed-settlement/src/instruction.rs:73-192 | For every instruction and every list length, unpacking what was packed gives it back exactly when the list has one to eight shares, and is refused otherwise, also where the count byte wrapped. |
| Codec.PackedUnpack | programs/synxed-settlement/src/instruction.rs:126-219 | Every accepted byte string is the packed form of what it decodes to: the encoding is one to one. |
| Codec.EncodeSettleNData | sdk/typescript/src/instruction.ts:193-208 | The client's encoder fills its byte array with exactly the bytes the program packs, and refuses seeds, amounts and shares in that order. |
| Codec.EncodeSettleTokenNData | sdk/typescript/src/instruction.ts:210-235 | The same for token settlements, with the decimals check last. |
| Codec.SetLittleEndian | sdk/typescript/src/instruction.ts:199-206 | Writing an integer through a view changes those bytes and no others. |
| Codec.EncodedIsAccepted | sdk/typescript/src/instruction.ts:193-235 | Whatever the client encodes, the program unpacks to what was asked and accepts as a split. |
| Codec.DecodersAgree | sdk/typescript/src/ledger.ts:1222-1296 | The client decodes a settlement exactly when the program unpacks one of that kind, to the same fields. |
| Processor.WriteNamespace | programs/synxed-settlement/src/state.rs:50-66 | A namespace's buffer of the right size ends up holding exactly its layout; any other is refused and untouched. |
| Processor.WriteRecord | programs/synxed-settlement/src/processor.rs:331-335 | A record's buffer ends up holding discriminator, event and little-endian amount. |
| Processor.Bank.Transfer | programs/synxed-settlement/src/processor.rs:394-407 | A transfer of zero invokes nothing; any other moves lamports as the system program does. |
| Processor.Bank.CreateProgramAccount | programs/synxed-settlement/src/processor.rs:340-392 | Checks in order, tops up the missing rent only, allocates and assigns; the new state and the invoked instructions are those of the specification. |
| Processor.Bank.CreateNamespace | programs/synxed-settlement/src/processor.rs:76-108 | Opens a namespace in place as specified, every refusal included. |
| Processor.Bank.Authorize | programs/synxed-settlement/src/processor.rs:140-156 | Succeeds exactly when the signer is the namespace's current authority; each failure has its own error. |
| Processor.Bank.SetNamespaceAuthority | programs/synxed-settlement/src/processor.rs:115-136 | Rotates the authority bytes in place, as specified. |
| Processor.Bank.CreateRecord | programs/synxed-settlement/src/processor.rs:309-336 | Creates and writes a record, as specified. |
| Processor.Bank.PayRecipients | programs/synxed-settlement/src/processor.rs:204-206 | The payment loop has the outcome of paying in order, and stops where the first payment fails. |
| Processor.Bank.Settle | programs/synxed-settlement/src/processor.rs:163-208 | A native settlement step by step is the specified one: checks, record, then payments. |
| Processor.Bank.CheckRecipients | programs/synxed-settlement/src/processor.rs:261-269 | The recipient loop refuses the first offending token account with its error. |
| Processor.Bank.CheckTokenAccounts | programs/synxed-settlement/src/processor.rs:238-269 | All checks on a token settlement's accounts, in order. |
| Processor.Bank.PayTokens | programs/synxed-settlement/src/processor.rs:280-304 | The token payment loop, skipping zero payouts. |
| Processor.Bank.SettleToken | programs/synxed-settlement/src/processor.rs:216-306 | A token settlement step by step is the specified one; that one goes through exactly when `Funding.TokenSettlementGoesThrough` says. |
| Processor.Bank.ProcessInstruction | programs/synxed-settlement/src/processor.rs:21-71 | Dispatch, split and handler give the specified outcome, and a failing instruction leaves accounts and log as they were. |
| Accounting.PaidEffect | programs/synxed-settlement/src/processor.rs:204-206 | Paying a list, under any aliasing, credits every key its own payouts, debits the payer the sum, and changes nothing else. |
| Accounting.SettlementEffect | programs/synxed-settlement/src/processor.rs:163-208 | A native settlement changes every key by exactly its payouts, less amount and rent shortfall for the payer, plus the shortfall for the record, even when the payer is paid or recipients repeat; the record was an empty system account. |
| Accounting.TokenSettlementEffect | programs/synxed-settlement/src/processor.rs:216-306 | A token settlement debits the source by exactly the amount and credits each recipient its payouts; lamports move only for the record's rent. |
| Accounting.ProcessConserves | programs/synxed-settlement/src/processor.rs:21-71 | No instruction creates or destroys a lamport, or a unit of any mint. |
| Funding.PrefundingNeverBlocks | programs/synxed-settlement/src/processor.rs:340-392 | In every reachable state a derived address not yet owned can be created if and only if the payer can make up the missing rent, whatever lamports strangers sent there, and it costs exactly that. |
| Funding.SettlementGoesThrough | programs/synxed-settlement/src/processor.rs:163-208 | A well-made settlement by a payer holding the amount and the missing rent goes through; only well-made ones do; and unless the payer is among the recipients, no less money suffices. |
| Funding.TokenSettlementGoesThrough | programs/synxed-settlement/src/processor.rs:216-306 | Position by position in the account list: a token settlement goes through if and only if the authority signed and is the namespace's current one, the record stands at its derived address and is not there yet, the initialised mint with these decimals, the system program and the token program stand where the client puts them, the source is an unfrozen holding of the mint, held by the payer, with at least the amount, every recipient is a holding of the mint other than source and record and unfrozen if it is paid anything, and the payer can make up the missing rent. |
| Funding.NamespaceGoesThrough | programs/synxed-settlement/src/processor.rs:76-108 | Opening a namespace goes through if and only if payer and creator signed, the authority is not the system program, the address is the derived one and not yet a namespace, and the payer can make up the missing rent. |
| Funding.RotationGoesThrough | programs/synxed-settlement/src/processor.rs:115-136 | A rotation goes through if and only if the namespace is one and writable, its current authority and the new one both signed, and the new one is the account listed and not the system program; the namespace then has the new authority. |
| Runs.NamespaceCreation | programs/synxed-settlement/src/processor.rs:76-108 | Opening a namespace creates one account, at the address of its signed creator and id, which reads as that creator, that id and the authority asked for. |
| Runs.RotationStep | programs/synxed-settlement/src/processor.rs:115-136 | A rotation is signed by the old and the new authority and touches only the authority bytes of one namespace. |
| Runs.SettlementStep | programs/synxed-settlement/src/processor.rs:163-336 | A settlement, in lamports or tokens, is signed by the namespace's authority and creates exactly the record of that event. |
| Runs.InvariantOfEveryRun | programs/synxed-settlement/src/processor.rs:340-392 | Over every sequence of instructions and outside changes from deployment on: each owned account is a namespace or record at the address its own contents derive, or an inert zeroed account off every derived address. |
| Runs.NothingIsUndone | programs/synxed-settlement/src/processor.rs:357-361 | Between any two moments of a run records never change or disappear, namespaces keep creator, id and bump, and no owned account is debited. |
| Runs.SettledAtMostOnce | programs/synxed-settlement/src/processor.rs:357-361 | Each event of a namespace is settled at most once in a run, lamports and tokens together. |
| Runs.SeedsAreDistinct | programs/synxed-settlement/src/state.rs:26-47 | The seed strings of records and namespaces never coincide, and each determines its parts. |
| Runs.RecordNeedsAuthority | programs/synxed-settlement/src/processor.rs:140-156 | A step that brings a record into being settles that event in that namespace under its current authority's signature, or exhibits a hash collision. |
| Runs.RecordReadsBack | sdk/typescript/src/client.ts:417-443 | A record as the program writes it reads, as the client reads it, as a record of that event for that amount. |
| Runs.RecordProvenance | programs/synxed-settlement/src/processor.rs:163-336 | Every record of every run goes back to such a settlement. |
| Runs.RotationNeedsBoth | programs/synxed-settlement/src/processor.rs:110-136 | A namespace's data changes only in a rotation that both the old and the new authority signed, and it stays a usable namespace. |
| Text.DecimalInjective | sdk/typescript/src/ledger.ts:1477-1479 | Different amounts have different decimal texts. |
| Text.Base58Injective | sdk/typescript/src/ledger.ts:322-336 | Different keys have different texts. |
| Text.KeyOfBase58 | sdk/typescript/src/client.ts:830-839 | Reading a key's text gives the key back. |
| Text.JoinInjective | sdk/typescript/src/ledger.ts:885-895 | What stands before the first NUL, and after it, is determined by the whole text. |
| Text.TransferKeyInjective | sdk/typescript/src/ledger.ts:1477-1479 | A transfer's key determines source, destination and amount. |
| Text.SortedEqualIffPermutation | sdk/typescript/src/ledger.ts:1495-1501 | Sorted copies of two lists of texts are equal exactly when the lists are permutations of each other. |
| Evidence.TrimExactly | sdk/typescript/src/split.ts:143-146 | Trimming takes the blanks off both ends and nothing else. |
| Evidence.CheckLabels | sdk/typescript/src/split.ts:143-157 | The loop over the labels, remembering those seen, accepts exactly the lists whose trimmed labels are named and all different. |
| Evidence.FoundExactly | sdk/typescript/src/ledger.ts:903-955 | What is found is exactly the program's lone settlement: all of the program's top-level instructions are raw, and there is no other but at most one, which opens the settlement's own namespace; whenever there is such a settlement it is found. |
| Evidence.ProgramRecipient | sdk/typescript/src/instruction.ts:434-453 | Names an offending recipient exactly when one is the record or the namespace. |
| Evidence.KeysOf | sdk/typescript/src/client.ts:830-839 | Parsed recipients are keys that read as the texts given. |
| EvidenceLaws.GroupOf | sdk/typescript/src/ledger.ts:344-352 | The inner instructions looked up are those of the settlement's own position. |
| EvidenceLaws.TransfersRead | sdk/typescript/src/ledger.ts:1354-1381 | The transfers read are the program's, all of them in order, if each fits a JSON integer, and an error otherwise. |
| EvidenceLaws.SettlementKeys | sdk/typescript/src/ledger.ts:436-453 | What is observed of any settlement the program carries out, its rent transfer excepted, is key for key what its split expects. |
| EvidenceLaws.ObservedCall | sdk/typescript/src/ledger.ts:302-385 | An observation reports the fields of a settlement call that really is in the transaction. |
| EvidenceLaws.AcceptedAgrees | sdk/typescript/src/ledger.ts:388-433 | An accepted observation agrees with the request on namespace, event, amount, shares, recipients and memo. |
| EvidenceLaws.MemoMatchesExactly | sdk/typescript/src/ledger.ts:1322-1352 | A memo matches if and only if it says every field the client would write for the request. |
| EvidenceLaws.ReconciledExactly | sdk/typescript/src/ledger.ts:388-463 | For a request that could have been built, an observation is accepted if and only if it accords with the request in every field, in its memo and in its transfers as a permutation, and no beneficiary id is blank; every refusal is then one of the codes that count as a mismatch. |
| EvidenceLaws.AcceptedMeansPaid | sdk/typescript/src/ledger.ts:302-453 | Soundness: if honest evidence of a landed transaction is accepted, that transaction created the event's record and paid exactly the split of the scaled amount to exactly the request's recipients, its memo names the event, and the payer and authority booked are the ones its settlement lists. |
| EvidenceLaws.BuiltUnpacks | sdk/typescript/src/client.ts:555-631 | What the client builds unpacks to the settlement asked for, listing the right accounts with the right privileges. |
| EvidenceLaws.BuildsExactly | sdk/typescript/src/client.ts:555-631 | A settlement is built if and only if the asset is the native one, the request and its scaled amount are acceptable, every recipient is a key, and none is the namespace or the event's record. |
| EvidenceLaws.BuiltIsFound | sdk/typescript/src/ledger.ts:903-955 | The lone settlement of a built transaction and its memo are found. |
| EvidenceLaws.OwnSettlementJudged | sdk/typescript/src/ledger.ts:302-453 | Completeness, exactly: a built settlement that landed is accepted if and only if every payout of the scaled amount's split, and the rent its record lacked, is at most 2^53-1; otherwise it is refused as a transfer mismatch. |
| EvidenceLaws.BuiltFits | sdk/typescript/src/ledger.ts:1373-1380 | The transfers a built settlement makes all fit JSON integers exactly when its payouts and its record's missing rent do: known before anything is sent. |
| EvidenceLaws.RequestDecidesFit | sdk/typescript/src/ledger.ts:1373-1380 | Where a whole record's rent fits, the request and the scale alone decide. |
| EvidenceLaws.FlowsCompared | sdk/typescript/src/ledger.ts:436-453 | The sorted-key comparison accepts exactly when expected and observed transfers are permutations of each other, duplicates counted. |
| EvidenceLaws.TransfersDecide | sdk/typescript/src/ledger.ts:436-453 | An observation accepted pays a permutation of what is due, and one refused for its transfers does not. |
| Cluster.LandingKeepsInv | tests/studio-backend.test.ts:109-164 | A transaction landing once and in time keeps every fact about the program's accounts and everything landed before. |
| Cluster.StepIsLater | tests/studio-backend.test.ts:41-48 | Every step of the cluster leads to a later state: nothing landed is forgotten, nothing owned is undone. |
| Cluster.RecordHasCreator | programs/synxed-settlement/src/processor.rs:357-391 | Every record that exists was created by a transaction that landed. |
| Cluster.CreatedOnce | programs/synxed-settlement/src/processor.rs:357-361 | At most one landed transaction of any history creates a given record. |
| Cluster.TopLevelCreates | sdk/typescript/src/ledger.ts:984-995 | A successful transaction that settles an event at top level created its record. |
| Search.FetchFinalized | sdk/typescript/src/ledger.ts:1065-1107 | Whatever order, holes or refusals the batch comes with, everything returned is the transaction its signature names; and an endpoint that answers each signature alone yields them all. |
| Search.ReadBatch | sdk/typescript/src/ledger.ts:1131-1151 | The matches of a batch are those of its signatures fetched alone, or the history is reported unresolved. |
| Search.ReadPage | sdk/typescript/src/ledger.ts:1123-1151 | A page read in batches gives every candidate of its successful entries and no other, or is unresolved. |
| Search.FindCreatingTransaction | sdk/typescript/src/ledger.ts:1109-1174 | The paged search terminates; an answer is the one candidate of the whole history, all of it read and shorter than the cap; and from a reliable endpoint that answer comes whenever there is one. |
| SearchLaws.CreatorShowsIt | sdk/typescript/src/ledger.ts:1179-1193 | Short of a hash collision inside it, a transaction that created the record shows a settlement of the event, at top level or in what it invoked. |
| SearchLaws.FoundIsCreator | sdk/typescript/src/ledger.ts:1015-1026 | With a complete history the one candidate is the creating transaction, and it is marked top-level exactly when it settled there: a decoy never takes its place. |
| SearchLaws.FoundUnlessDecoy | sdk/typescript/src/ledger.ts:1001-1013 | A complete history below the cap yields the creating transaction if and only if no other successful entry names the event. |
| SearchLaws.TopLevelFoundCreates | sdk/typescript/src/ledger.ts:984-995 | However incomplete the history, a candidate found at top level is the creating transaction. |
| Pools.TotalShares | sdk/typescript/src/ledger.ts:846-862 | The checking loop totals the shares exactly when they are named, positive and different. |
| Pools.EntriesDiffer | sdk/typescript/src/ledger.ts:885-895 | Under one signature and role, different beneficiaries have different entry ids whatever characters they hold. |
| Pools.AllocatePoolPayout | sdk/typescript/src/ledger.ts:835-883 | Entries if and only if the payout is pooled and the shares are acceptable and come to exactly what it paid; one entry per share, no two with one id, together the pool's payout. |
| Stores.Store.Enqueue | examples/studio-backend/src/store.ts:207-232 | Adds a new event as pending; the same event again changes nothing, and another request under its id is refused. |
| Stores.Store.EventsWithStatus | examples/studio-backend/src/store.ts:241-248 | The events of a status in the order they were added, up to the limit. |
| Stores.ListedOnce | examples/studio-backend/src/store.ts:241-248 | No event is listed twice. |
| Stores.ListedAll | examples/studio-backend/src/store.ts:241-248 | Every event of the status is listed. |
| Stores.ListedInOrder | examples/studio-backend/src/store.ts:241-248 | The listing keeps the order the events were added in. |
| Stores.Store.Attempts | examples/studio-backend/src/store.ts:258-263 | An event's attempts, first to last. |
| Stores.Store.BeginAttempt | examples/studio-backend/src/store.ts:270-290 | Only for a pending event: the next attempt prepared and the event in flight, together or not at all. |
| Stores.Store.RecordSigned | examples/studio-backend/src/store.ts:293-306 | Signature, bytes and last height are written to a prepared attempt only. |
| Stores.Store.SetAttemptStatus | examples/studio-backend/src/store.ts:308-317 | Changes one attempt's status and nothing else. |
| Stores.Store.SetEventStatus | examples/studio-backend/src/store.ts:319-328 | Changes one event's status and nothing else. |
| Stores.Store.RecordPaid | examples/studio-backend/src/store.ts:335-369 | The loops of conditional inserts write the settlement, its rows, the landed attempt and the paid event in one transaction, as specified. |
| Stores.Store.Balances | examples/studio-backend/src/store.ts:388-400 | One balance per beneficiary, each the sum of its entries, together the sum of all entries. |
| Tables.ReplayChangesNothing | examples/studio-backend/src/store.ts:329-369 | Recording the same payment twice is recording it once, whatever the tables held. |
| Books.EntriesWritten | examples/studio-backend/src/store.ts:345-357 | Writing a payment's entries adds its direct lines but for those that repeat an earlier role and beneficiary. |
| Books.ReconciledIsBooking | sdk/typescript/src/ledger.ts:464-521 | The rows the reconciler derives follow from its record, hold at most one pooled line, and add up to the scaled amount; which line is whose is `Books.ReconciledTellsPayouts`. |
| Books.ReconciledTellsPayouts | sdk/typescript/src/ledger.ts:464-475 | Who gets which amount: one line per share in order, with that share's recipient and basis points, the canonical role, the amount the split gives that very share, and no beneficiary for the pool, else the id named for the label, else the wallet. |
| Books.EntriesTellLines | sdk/typescript/src/ledger.ts:495-521 | The entries are the direct lines in order, each with its line's role, beneficiary, wallet and amount, and no others. |
| Books.PaymentKeepsBooks | examples/studio-backend/src/store.ts:335-369 | Recording a payment for an event and signature not yet recorded keeps the books and its settlement row. |
| Books.BalancedIff | examples/studio-backend/src/store.ts:335-400 | Conservation, exactly: balances and pools together never exceed what was settled on chain, and equal it if and only if no settlement has a nonzero payout repeating an earlier one's role and beneficiary. |
| Books.BalanceIsOwed | examples/studio-backend/src/store.ts:335-400 | Beneficiary by beneficiary: nobody's balance exceeds what the settlements owe them, and it is exactly that if no payment repeats a role and beneficiary. |
| Books.DistinctLabelsKeepAll | sdk/typescript/src/ledger.ts:464-521 | Labels without NUL, and not both "synxed" and "platform", never repeat. |
| Books.TwoNamesForThePlatform | sdk/typescript/src/ledger.ts:1473-1475 | A concrete split between "synxed" and "platform" of one wallet, whose second payout gets no row. |
| Books.NulShiftsTheBoundary | sdk/typescript/src/ledger.ts:885-895 | A concrete label and beneficiary id with a NUL that read like another pair, and lose a row. |
| Protocol.CannotLandLater | examples/studio-backend/src/worker.ts:452-460 | A transaction that cannot land at one moment lands at no later one. |
| Protocol.NoRecordMeansDead | examples/studio-backend/src/worker.ts:301-360 | Why the record is read last: a transaction that could not land at one moment, and whose record is still missing at a later one, never did and never will succeed. |
| Protocol.SoundLater | examples/studio-backend/src/worker.ts:1-5 | The whole invariant survives anything the cluster does meanwhile. |
| Protocol.PendingIsSafe | examples/studio-backend/src/store.ts:12-21 | While an event is pending, nothing ever sent for it can still land or has landed successfully. |
| Protocol.PaidOnce | examples/studio-backend/src/worker.ts:383-440 | End to end: a paid event has exactly one settlement row; exactly one landed transaction ever created the event's record in that namespace, and it paid every recipient exactly the split of the stored amount times a stored scale. The row books each share's amount to that share's recipient, and for every wallet the lines booked add up to what the settlement sent it. |
| Protocol.OwnSettlementContradicts | examples/studio-backend/src/worker.ts:30-40 | A built settlement that landed contradicts its own request if and only if one of its payouts, or the rent its record lacked, exceeds 2^53-1. |
| Protocol.OwnSettlementNoIncident | examples/studio-backend/src/worker.ts:423-436 | In every state the worker reaches: if an event is an incident and a stored attempt's transaction landed and went through, that settlement moved an amount above 2^53-1; otherwise the worker's own settlement is never an incident. |
| ProtocolSteps.BeginKeeps | examples/studio-backend/src/store.ts:265-290 | Beginning an attempt keeps the numbering 1 to n, the cap, and one open attempt per event. |
| ProtocolSteps.SignKeeps | examples/studio-backend/src/store.ts:292-306 | Signature and bytes are stored before anything is sent. |
| ProtocolSteps.SendKeeps | examples/studio-backend/src/worker.ts:245-251 | Only what a signed row holds is sent, so everything ever sent is on record. |
| ProtocolSteps.CloseKeeps | examples/studio-backend/src/worker.ts:345-351 | An attempt may be closed once its transaction was never sent or is dead. |
| ProtocolSteps.StatusKeeps | examples/studio-backend/src/store.ts:12-21 | An event may turn pending only with every attempt closed, and an incident only on evidence contradicting everything stored. |
| ProtocolSteps.NotYetSettled | examples/studio-backend/src/store.ts:342-347 | The conditional insert never drops a payment: no earlier row has its event, nor the signature of a transaction that names it. |
| ProtocolSteps.PayKeeps | examples/studio-backend/src/worker.ts:396-421 | Recording a proven payment keeps the whole invariant, and the settlement row is written. |
| Deciding.RowsDoNotDependOnAttempt | examples/studio-backend/src/worker.ts:396-421 | Evidence agrees with at most one namespace and scale per request, and the rows are the same whichever stored attempt matched. |
| Deciding.DistinctRequests | examples/studio-backend/src/worker.ts:559-572 | Every stored request once, none invented, none lost. |
| Deciding.RowsAreDead | examples/studio-backend/src/worker.ts:312-351 | Signed attempts that could not land before a record was found missing are dead ever after. |
| Deciding.SettledRecordReads | sdk/typescript/src/client.ts:417-443 | The record of a settlement that landed at top level reads as settled, then and ever after. |
| Deciding.RecordReadsTruly | sdk/typescript/src/client.ts:417-448 | On any lawful chain a record reads as missing if and only if there is none, whatever lamports strangers sent to its address; when there is one it reads as settled, short of a hash collision. |
| Deciding.AcceptedIsProven | examples/studio-backend/src/worker.ts:396-419 | Accepted honest evidence makes a booking, proven by the transaction it names. |
| Deciding.TruthTold | sdk/typescript/src/ledger.ts:302-453 | Every full and honest answer about a landed transaction leads to the same judgement of a request, whichever node gave it, with whatever slot, time and cosigners. |
| Deciding.IdsOnlyLabel | examples/studio-backend/src/worker.ts:412-418 | Beneficiary ids only label rows: with them the judgement agrees exactly when it agreed without, and none of them is blank. |
| Deciding.OwnAgreesWith | examples/studio-backend/src/worker.ts:396-400 | One's own settlement, its transfers within what a JSON integer can state, agrees with the request it was built from. |
| Deciding.ContradictedInTruth | examples/studio-backend/src/worker.ts:30-40 | A transaction contradicts a request on some honest answer exactly when it does on every full one: what makes an incident is no matter of the node asked. |
| Deciding.TalliedDecides | examples/studio-backend/src/worker.ts:396-440 | The first agreeing request and whether all mismatch decide as the creating transaction does of everything stored: paid, incident or neither. |
| Deciding.SameRequests | examples/studio-backend/src/worker.ts:345-351 | Closing attempts changes nothing about what the event is to be compared with. |
| Deciding.MayLandIsCanLand | examples/studio-backend/src/worker.ts:464-498 | The attempts the worker waits for and sends again are exactly the signed ones whose transaction can still land. |
| Deciding.PendingIsReached | examples/studio-backend/src/worker.ts:116-142 | An event pending before a round is untouched by the resolving, and is settled in the round unless the limit is reached first. |
| Networks.Network.Send | examples/studio-backend/src/worker.ts:247-253 | Whatever is sent is on the list of what was sent; a failed simulation happens only with a preflight and means nothing was passed on; after anything else the transaction may have been. |
| Networks.Network.GetSignatureStatus | examples/studio-backend/src/worker.ts:474-492 | A node may know nothing; a confirmed or finalized status tells how the transaction landed. |
| Networks.Network.GetTransaction | sdk/typescript/src/ledger.ts:256-273 | A finalized transaction is withheld or told as it landed, and only that provider's view moves on; every telling is on record with the provider that made it. |
| Networks.ForthcomingIsLawful | tests/studio-backend.test.ts:41-48 | Worlds as assumed exist for every history of the cluster: nodes that withhold nothing can tell it truthfully, without fault and with complete record histories. |
| Examples.SmallIsLawful | tests/studio-backend.test.ts:109-164 | A concrete such world: a namespace is opened and a settlement built by the client lands in it, later beside another transaction that names the event. |
| Examples.OpenHere | tests/studio-backend.test.ts:109-164 | A worker whose store and nodes never fail exists in it, so what is said of faultless operation is said of something. |
| Worker.SettlementWorker.CheckAttempt | examples/studio-backend/src/worker.ts:464-498 | One attempt: never signed or finally landed with an error is closed; otherwise, unless it may still land, its transaction is known unable to land on the chain as seen. Without faults the answer and the closing are exactly determined, and an attempt that may land has its stored bytes sent again during the call, without a preflight. |
| Worker.SettlementWorker.MayStillLand | examples/studio-backend/src/worker.ts:461-499 | A false answer means no signed attempt can land on the chain as seen. Without faults the answer is true exactly when some signed attempt has neither landed nor passed its last height, exactly the failed attempts are closed, and every attempt that may land has been sent again unchanged. |
| Worker.SettlementWorker.NothingLanded | examples/studio-backend/src/worker.ts:343-357 | With no record, every signed attempt is expired and no other touched, and the event is tried again, or left to a person at the cap; nothing else in the tables changes. |
| Worker.SettlementWorker.NoRecord | examples/studio-backend/src/worker.ts:325-342 | A record is missing only if the primary, at least as late as before, reads it as missing, and the second provider, if any, does too at the moment it has seen itself; it is there only if the primary reads it so. |
| Worker.SettlementWorker.Search | sdk/typescript/src/ledger.ts:1015-1026 | A top-level answer is the creating transaction; one that can be traced is found, and marked top-level exactly when it settled there. |
| Worker.SettlementWorker.Reconcile | examples/studio-backend/src/worker.ts:501-527 | Agreement and mismatch rest on honest evidence of the signature, which the provider asked told during the call; everything else is neither. Without faults the answer is the truth of the landed transaction, from either provider. |
| Worker.SettlementWorker.JudgeAll | examples/studio-backend/src/worker.ts:396-400 | The first request that agrees, and whether all mismatch, over every stored request, each on what the provider asked told during the call; without faults this tallies the truth. |
| Worker.SettlementWorker.Compare | examples/studio-backend/src/worker.ts:396-440 | Paid, incident or unresolved by the evidence, a payment or an incident resting on what each configured provider told during the call of the very transaction that created the record; the tables then hold just that. Without faults paid if the creating transaction agrees with any stored request (and no beneficiary id is blank), an incident if it mismatches all, unresolved otherwise. |
| Worker.SettlementWorker.Accuse | examples/studio-backend/src/worker.ts:423-436 | An incident is recorded only when every stored request mismatches and the second provider, if any, itself told during the call of a transaction that mismatches each of them: blank, missing or thrown answers leave the event unresolved. Without faults it is recorded whenever everything mismatches. |
| Worker.SettlementWorker.ConfirmAndPay | examples/studio-backend/src/worker.ts:401-422 | A request is paid only if the second provider, if any, itself told of a transaction that agrees with it; the rows written are those the primary's own answer yields, the landed attempt the last with that signature. Without faults it is, unless a beneficiary id is blank. |
| Worker.SettlementWorker.ResolveRecord | examples/studio-backend/src/worker.ts:383-440 | The creating transaction is found and decides, on what each provider told of it; without faults a traceable one decides exactly, and one that settled through another program is left unresolved. |
| Worker.SettlementWorker.Resolve | examples/studio-backend/src/worker.ts:301-360 | Whatever fails on the way, the invariant holds, the report is what the tables say, and no other row changes but by a payment; another try rests on a record that every configured provider reads as missing, a payment or an incident on what every configured provider told. Without faults the chain decides: attempts elsewhere go to a person, one still to land is waited for and has been sent again, no record means another try up to the cap, an unreadable one decides nothing, and a record is judged by the transaction that created it. |
| Worker.SettlementWorker.Recheck | examples/studio-backend/src/worker.ts:367-379 | A paid event is left alone; any other, whatever its status, comes without faults to what the chain decides. |
| Worker.SettlementWorker.AwaitOutcome | examples/studio-backend/src/worker.ts:443-452 | Resolves until the outcome is known or the polls run out, looking once at first and once after each wait it made. Without faults it looked again exactly while an attempt could land, and the outcome is what the chain decided at the last look; it is still waiting only if every poll was waited for, and then every attempt that may land has been sent again. |
| Worker.SettlementWorker.WaitingEnds | examples/studio-backend/src/worker.ts:443-452 | Progress: once every attempt has landed or is past its last height, the next look is the last, and the record decides. |
| Worker.SettlementWorker.Attempt | examples/studio-backend/src/worker.ts:218-251 | Prepare, sign, store, send, in that order; a request that cannot be built or signed goes to a person; without faults the attempt stored is the one sent, and the report is what waiting for it comes to, look by look. |
| Worker.SettlementWorker.AfterRefusal | examples/studio-backend/src/worker.ts:252-289 | A refused attempt is closed, and the record decides: the event is tried again only if every configured provider reads its record as missing, and looked into only if the primary reads it as there; without faults exactly so, and left unresolved if it cannot be read. |
| Worker.SettlementWorker.Settle | examples/studio-backend/src/worker.ts:203-295 | At most one attempt for a pending event under the cap, followed to an outcome; nothing else changes, and no attempt's bytes are rewritten; if none was begun the tables are as before. A network failure never makes it throw. A refusal means nothing was passed on and every configured provider reads the record as missing. Without faults an event at the cap, or one that cannot be built or signed, goes to a person, and one that can is sent and then waited for: the report is what the chain decided at the last look of the tables with that attempt signed. |
| Worker.SettlementWorker.Contain | examples/studio-backend/src/worker.ts:149-173 | After a throw nothing stored changes, and the stored decision is what is reported. |
| Worker.SettlementWorker.ResolveAll | examples/studio-backend/src/worker.ts:127-133 | Every event in flight gets a report, which is the status it then has, and a throw does not stop the rest; no other event is touched and no ledger row lost. Without faults each is what the chain decides of that event, whatever came before it in the round. |
| Worker.SettlementWorker.SettleAll | examples/studio-backend/src/worker.ts:134-140 | The first pending events up to the limit, in the listed order and no others, each get a report, which is the status it then has, and a throw does not stop the rest. Without faults each below the cap that can be built and signed is sent, stays on record and is waited for as long as the polls allow; at the cap, or if it cannot be signed, it goes to a person. |
| Worker.SettlementWorker.Run | examples/studio-backend/src/worker.ts:116-142 | A round resolves everything in flight, then settles and reports on exactly the first events, up to the limit, of what is pending once the resolving is over, and touches nothing else; whatever was pending before is among them unless the limit is reached first. However it ends, events neither in flight nor pending are untouched and no ledger row is lost. Without faults it goes through, the resolving is by the chain as it was, and every event that was pending before and is reported on, below the cap and able to be built and signed, has been sent. |
| Worker.SettlementWorker.Promises | examples/studio-backend/src/worker.ts:1-5 | Of every event, whenever anyone looks: the cap and the numbering; pending means nothing sent is alive; paid means exactly one settlement, as stored; an incident means the transaction that created the record mismatches everything the event was to be settled as, and is none of the worker's own attempts unless its amounts exceed 2^53-1; and the books balance if and only if nothing repeats, nobody is credited more than they were paid, and if nothing repeats everybody exactly that. |
| Examples.Outcome | examples/studio-backend/src/worker.ts:301-440 | In the small world the worker waits until its settlement lands; then it is paid if the evidence can state the amount and no beneficiary id is blank, unresolved if one is, and an incident if the amount is too large. |
| Examples.TooLargeToState | examples/studio-backend/src/worker.ts:423-436 | The input on which the worker takes its own settlement for an incident: one share of 2^53 lamports. |
| Examples.BlankIdStaysUnresolved | examples/studio-backend/src/worker.ts:412-418 | The input on which an agreeing settlement stays unresolved: a beneficiary id of one blank. |
| Examples.DecoyHidesSettlement | sdk/typescript/src/ledger.ts:1001-1013 | The input on which the search fails: once another program has invoked the same settlement and ignored its failure, the creating transaction is found no more, though it was before. |
| Worker.Serve | examples/studio-backend/src/worker.ts:116-142 | Any commands in any order, each going through, throwing or dying half way and followed by the next, keep the invariant. Each makes of the tables what it should: an event added once, a round as `Run` says, a look at one event; no event is lost or asked to pay anything else, nothing is there that was not asked for, what was paid stays untouched, and with a steady store everything asked for is there. |
| Worker.Open | examples/studio-backend/src/store.ts:187-192 | A worker over empty tables satisfies the invariant. |

## Left out

- Two accounts' data buffers are copied out and written back around each in-place write (`Borrow`, `Release` in `Processor`): aliasing of one buffer by two listed accounts is not modelled; the program never borrows two.
- Splits.AssertBpsShares: shares are integers, so the refusal of fractional shares (`BPS_INTEGER`) does not arise.
- Codec.EncodeSettleTokenNData: decimals are integers, so only their range is checked.
- Runs.RecordNeedsAuthority: stated short of a hash collision in that very step, because the derivation is any function.
- SearchLaws.CreatorShowsIt: stated short of a hash collision among the transaction's own calls.
- Books.ReconciledIsBooking: assumes the signature has no NUL character, which base58 texts never have.
- Search.FindCreatingTransaction: the history is as of the first page; entries that arrive during the search stand before those already read. A cap that is not an integer is not modelled.
- Worker.SettlementWorker.JudgeAll: stored requests are compared one after another, where the source starts them together.
- Worker.SettlementWorker.Reconcile: the polling for finality is one call; a timeout is an answer withheld. The genesis-hash check of the cluster is one of the ways a call may throw.
- Worker.SettlementWorker.AwaitOutcome: the deadline is a number of polls. Without faults the calls of one look happen at one moment; time passes between looks.
- Stores.Store.EventsWithStatus: events are ordered as they were added, not by timestamp.
- Stores.Store.Enqueue: beneficiaries are compared as maps, not as JSON texts, so the order of their keys does not matter here.
- Stores.Store.Balances: the final sort by locale is left out.
- Notes, timestamps, log lines and the hook before sending: they decide nothing.
- Worker dry run, command line, configuration and event preparation: no protocol state.
- The reconciler, client builder and history search for token settlements, for settlements by plain transfers, for retired instructions and for legacy memos: the token path is modelled on chain and in the codecs only.
- Opening a namespace in the settlement's own transaction: `FindSettlement` allows for it, the client builder modelled does not do it.
- Delegates and multisignature owners of token accounts, and the overflow of a mint's supply: the token program is modelled by its balance effect for the holder.
- Rent rules for recipients, fees, compute limits and transaction size: the runtime's, not decided by this code.
- Names inherited from object prototypes as beneficiary labels: maps hold only their own keys.
- The three-way split and its roles: the N-way split at length three.
- The two small encoders of namespace instructions, and reading a namespace account in the client: single expressions.
