# Rollup operator core: transfer state transitions and the packer

This project models, in Dafny, the operator-side core of a rollup node:

- the **transfer state-transition engine** (`ts/client/stateTransitions.ts`):
  the sender and receiver checks, the copy-and-update of one account, the
  ledger steps that read an account from the storage engine, check it, update
  it and write it back, and the batch loop `processTransferCommit`, which
  applies a list of transfers in order with a checkpoint before each one,
  commits the ones that succeed, reverts the ones that throw, and finally
  credits the sum of the accepted fees to the fee receiver;
- one cycle of the **packer service** (`ts/client/services/packer.ts`,
  `onRun`) and how it moves the operator's sync point `{batchID, blockNumber}`.

Layout:

- `accounts.dfy` (module `Accounts`): account states, transfers, the four
  error kinds (`ZeroAmount`, `InsufficientFund`, `WrongTokenID`, `NotFound`),
  `Outcome`/`Result` in place of thrown exceptions, the ledger as
  `map<int, Account>`, and `Total`, the sum of all balances.
- `storage_engine.dfy` (module `StorageEngine`): the storage engine as a class
  holding the current ledger and a stack of snapshots. `GetCheckpoint`
  pushes a snapshot and returns its position, `Commit` drops the latest
  snapshot, `Revert(c)` restores snapshot `c`. `Get` of a missing account
  fails with `NotFound`.
- `state_transitions.dfy` (module `StateTransitions`): the checks and updates
  as functions; every ledger step both as a function on ledger values
  (`SenderStep`, `ReceiverStep`, `TransferStep`, the loop `Run`, the whole
  call `TransferCommit`) and as a method over the storage engine
  (`ProcessSender`, `ProcessReceiver`, `ProcessTransfer`,
  `ProcessTransferCommit`). Each method's contract says that it returns the
  matching function's outcome and, on success, leaves the engine in exactly
  the ledger that function computes. On failure the engine keeps the old
  ledger, with one exception: when `ProcessTransfer`'s sender side passed and
  its receiver side failed, the engine holds the sender step's ledger (the
  debit already written) until the caller reverts it. `ProcessTransferCommit` keeps the source's `for` loop with
  checkpoint, commit and revert, and its loop invariant ties it to `Run`.
- `transition_properties.dfy` (module `TransitionProperties`): lemmas about
  those functions.
- `packer.dfy` (module `PackerService`): the classes `SyncedPoint` and
  `Packer`, the method `Packer.OnRun`, its value-level counterpart `Step`,
  and lemmas about sequences of cycles.

Amounts, fees, balances, nonces and token IDs are natural numbers. Account
indices are integers. Whether the transfer pool is empty, and how
`packAndSubmit` followed by `wait(1)` turns out (`Failed` or
`Confirmed(blockNumber)`), are parameters of `OnRun`.

Two consequences of the code show up in the proofs:

- The fee credit at the end of `processTransferCommit` cannot fail once the
  fee receiver's account was found at the start, given that the sum of an
  empty fee list is 0 (see "Left out"). No step changes an
  account's token ID or removes an account; `TransferCommit`'s contract
  states that the call succeeds exactly when the fee receiver exists. The
  error path is still modelled as the source writes it.
- The transfer's own `nonce` is never compared with the sender's nonce, and
  the model adds no such check.

## Model

| member | source | states |
|---|---|---|
| `StateTransitions.ValidateSender` | ts/client/stateTransitions.ts:20-36 | `ZeroAmount` exactly when the amount is zero, whatever the balance or token; `InsufficientFund` exactly when the amount is non-zero and the balance is below amount + fee; `WrongTokenID` only when the balance suffices and the token differs; passes exactly when all three checks hold |
| `StateTransitions.ValidateReceiver` | ts/client/stateTransitions.ts:38-43 | passes exactly when the token matches, and otherwise fails only with `WrongTokenID` (the amount is never checked) |
| `StateTransitions.ApplySender` | ts/client/stateTransitions.ts:8-13 | the copy's balance plus the decrement is the old balance, the nonce goes up by one, public key and token are kept |
| `StateTransitions.ApplyReceiver` | ts/client/stateTransitions.ts:14-18 | the copy's balance goes up by the increment; nonce, public key and token are kept |
| `StateTransitions.SenderStep` | ts/client/stateTransitions.ts:45-57 | succeeds exactly when the sender exists and passes `ValidateSender`; otherwise fails with `NotFound` or the check's error; on success only the sender's entry changes: debited amount + fee (so it stays non-negative), nonce + 1 |
| `StateTransitions.ReceiverStep` | ts/client/stateTransitions.ts:59-69 | succeeds exactly when the receiver exists with the batch token; otherwise `NotFound` or `WrongTokenID`; on success only the receiver's entry changes: credited the increment, nonce kept |
| `StateTransitions.TransferStep` | ts/client/stateTransitions.ts:71-89 | succeeds exactly when both accounts exist, the sender passes its check and the receiver holds the batch token; on success no account appears or disappears, tokens and keys are kept, nonces do not go down |
| `StateTransitions.Run` | ts/client/stateTransitions.ts:97-108 | the loop never adds or removes accounts, never changes a token or key, never lowers a nonce, and accepts at most as many transfers as it is given |
| `StateTransitions.TransferCommit` | ts/client/stateTransitions.ts:91-112 | the batch call succeeds exactly when the fee receiver exists; a missing fee receiver fails with `NotFound` and leaves the ledger untouched |
| `StateTransitions.ProcessSender` | ts/client/stateTransitions.ts:45-57 | the engine method returns `SenderStep`'s outcome, writes its ledger on success and writes nothing on failure; checkpoints untouched |
| `StateTransitions.ProcessReceiver` | ts/client/stateTransitions.ts:59-69 | the engine method returns `ReceiverStep`'s outcome, writes its ledger on success and writes nothing on failure |
| `StateTransitions.ProcessTransfer` | ts/client/stateTransitions.ts:71-89 | returns `TransferStep`'s outcome and on success leaves its ledger; when the sender side passed and the receiver side failed, the sender's write stays in the engine until reverted |
| `StateTransitions.ProcessTransferCommit` | ts/client/stateTransitions.ts:91-112 | the loop with checkpoint, commit and revert returns what `TransferCommit` returns and leaves the ledger it computes, with the checkpoint stack as it found it |
| `StorageEngine.StateStorageEngine.Get` | ts/client/stateTransitions.ts:52 | a read succeeds exactly when the account exists and then yields its state; otherwise `NotFound` |
| `StorageEngine.StateStorageEngine.Update` | ts/client/stateTransitions.ts:56 | a write replaces one entry and leaves every other one as it was |
| `StorageEngine.StateStorageEngine.GetCheckpoint` | ts/client/stateTransitions.ts:99 | pushes a snapshot of the current ledger and returns its position |
| `StorageEngine.StateStorageEngine.Commit` | ts/client/stateTransitions.ts:102 | drops the latest snapshot and keeps the ledger |
| `StorageEngine.StateStorageEngine.Revert` | ts/client/stateTransitions.ts:106 | restores the ledger to the snapshot and drops it and every later one |
| `TransitionProperties.SenderStepTotal` | ts/client/stateTransitions.ts:52-56 | a successful sender step takes exactly amount + fee out of the sum of all balances |
| `TransitionProperties.ReceiverStepTotal` | ts/client/stateTransitions.ts:65-68 | a successful receiver step adds exactly the increment to the sum of all balances |
| `TransitionProperties.TransferStepTotal` | ts/client/stateTransitions.ts:76-88 | an accepted transfer lowers the sum of all balances by its fee alone, also when sender and receiver are one account |
| `TransitionProperties.TransferStepEffect` | ts/client/stateTransitions.ts:76-88 | between two distinct accounts: sender debited amount + fee with nonce + 1, receiver credited amount with nonce kept, every other account untouched |
| `TransitionProperties.TransferStepSelf` | ts/client/stateTransitions.ts:76-88 | a transfer from an account to itself: the credit re-reads the debited state, so the one account ends with its balance lowered by the fee alone and its nonce + 1, and nothing else changes |
| `TransitionProperties.TransferStepError` | ts/client/stateTransitions.ts:71-89 | a rejected transfer reports the first failing check in the order: sender missing, sender check, receiver missing, receiver token |
| `TransitionProperties.RunConcat` | ts/client/stateTransitions.ts:97-108 | running `a + b` is running `a` and then `b` from the ledger `a` left: the transfers accepted in `a` stay accepted whatever follows, followed by those accepted from `b` |
| `TransitionProperties.RunUntouched` | ts/client/stateTransitions.ts:97-108 | an account that no transfer of the batch names as sender or receiver ends the loop with exactly the state it started with |
| `TransitionProperties.RejectionRepeats` | ts/client/stateTransitions.ts:98-107 | a transfer rejected against a ledger is rejected again when offered twice in a row, and the ledger is as before |
| `TransitionProperties.RunTotal` | ts/client/stateTransitions.ts:97-108 | after the loop, the sum of all balances is lower by exactly the fees of the accepted transfers |
| `TransitionProperties.RunAcceptedInOrder` | ts/client/stateTransitions.ts:97-108 | the accepted list is the input's transfers at strictly increasing positions, in their original order; position i is among them exactly when its transfer succeeds against the ledger left by the transfers before it |
| `TransitionProperties.CommitFeeCredit` | ts/client/stateTransitions.ts:91-112 | for a fee receiver that no transfer of the batch names, the batch succeeds and the fee receiver ends with its starting state plus exactly the fees of the accepted transfers (nonce, token and key as before) |
| `TransitionProperties.CommitTotal` | ts/client/stateTransitions.ts:91-112 | a successful batch leaves the sum of all balances as it was |
| `TransitionProperties.CommitEvolves` | ts/client/stateTransitions.ts:91-112 | a successful batch keeps every account, its token and key, and lowers no nonce |
| `TransitionProperties.SingleTransferExamples` | ts/client/stateTransitions.ts:45-89 | balance 100, amount 50, fee 5: sender left with 45 and nonce + 1, receiver gains 50; balance 10: `InsufficientFund` |
| `TransitionProperties.BatchExample` | ts/client/stateTransitions.ts:91-112 | three transfers with fees 1, 2, 3, the second from an account with another token: the first and third are accepted and the fee receiver gets 4 |
| `PackerService.Step` | ts/client/services/packer.ts:29-42 | the sync point advances exactly when the pool is non-empty and the submission is confirmed; then the batch ID goes up by one and the block number becomes the receipt's; otherwise nothing changes |
| `PackerService.Packer.OnRun` | ts/client/services/packer.ts:29-42 | an empty pool means a sleep and no packing; a confirmed submission increments `batchID` and sets `blockNumber` in the shared sync point; a failure is absorbed and the sync point is unchanged |
| `PackerService.ReplayCounts` | ts/client/services/packer.ts:37 | over any sequence of cycles the batch ID grows by exactly the number of confirmed submissions, and without one the sync point is unchanged |
| `PackerService.BlockNumberNotMonotone` | ts/client/services/packer.ts:38 | a confirmation in an earlier block than the recorded one is taken as is: the block number can go down |
| `PackerService.ConfirmedExample` | ts/client/services/packer.ts:35-38 | sync point {5, 900} and a confirmation at block 1000 give {6, 1000} |

## Left out

- StateTransitions.ApplySender: requires that the decrement does not exceed the balance. Its only caller validates first; with natural-number balances the unchecked subtraction cannot be stated otherwise.
- The internals of the storage engine, the transfer pool and the packing command are not part of this model. They are modelled only through the contracts above: the engine as a map plus snapshots, the pool as an emptiness flag, the packing command as a `Submission` outcome. What the packing command does with the accepted transfers (signature aggregation, building the submission) is not modelled.
- `async`/`await` is modelled as sequential calls. `sleep(10000)` on an empty pool is a no-op step reported as `Slept`.
- Logging (`console.log`, `this.log`) and the text of the error messages carry no behaviour and are left out.
- The conversions between BigNumber and JavaScript numbers (`BigNumber.from`, `toNumber`) are left out; all arithmetic is on unbounded integers.
- The loop of the service base class that calls `onRun` repeatedly is not part of this model; `Replay` stands for any sequence of cycles.
- ts/factory.ts (synthetic users, groups and transfers for tests, BLS signing) and ts/hubble.ts (contract wiring, genesis loading, JSON-RPC provider, public-key registration) are I/O and foreign calls and are not modelled.
- The sum of the accepted fees comes from a `sum` helper in ts/utils, which is not part of this model. `SumFees` takes the sum of an empty list to be 0, so a batch with no accepted transfer credits 0 and succeeds. If that helper failed on an empty list, such a batch would fail instead, and the fee credit could then fail even with the fee receiver present.
- Rejecting the same transfer again with the same error against an unchanged ledger holds because every step is a function of its inputs; `RejectionRepeats` states it for the batch loop.
