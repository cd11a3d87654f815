# A verified model of the ICRC-2 ⇄ EVM bridge

The bridge locks ICRC-2 tokens in the account of a minter canister and issues wrapped ERC-20 tokens for them on
an EVM chain. The minter runs each operation as a chain of asynchronous tasks. It signs 269-byte mint orders, which
anyone may submit to the `BFTBridge` contract, and it collects the contract's events. This project models that
protocol as one transition system and proves what holds after every run: exact conservation of tokens, at most one
mint per operation, and where every signed order comes from. Around it are the parts it relies on: the
operation store, paginated log collection, the collection lock, the order layout, the wrapped tokens and the bridge
contract, the fee contract, the ring buffer, UTF-8 truncation, and from the rune bridge the deposit aggregation and
the derivation paths.

`dafny verify dfyconfig.toml` checks everything.

## How it is organised

| file | contents |
|---|---|
| Words, Sums, Events | big-endian words; sums over maps; the contract's event log |
| MintOrder | the packed layout of a mint order |
| WrappedToken, BftBridge, BftBridgeContract | the contracts: functions on states with their invariants, and objects proved to compute them |
| OperationStore | the operation store, against a plain history of operations |
| Icrc2, Operation, Protocol | ledger calls with one retry, operation states, and the steps of the whole bridge |
| Backing, Solvency, Provenance, Tracing, Completion | the theorems over every run of the bridge |
| Progress, Journeys | how operations get on, and runs in which a deposit, a withdrawal and a refund come to their end |
| Recollection, OwnDeposits | two concrete runs in which backing fails |
| LogCollection, CollectLogsLock | collecting events |
| FeeCharge, RingBuffer, StringUtils | the remaining contract code |
| RuneDeposit, RuneRequest, DerivationPath | from the rune bridge |

Code that updates state in place is a class or a method with loops. Each is proved against a function on values,
and the theorems are about those functions. A `None` result stands for a revert or an error return.

In `Protocol`, a task that awaits is cut into steps at its awaits, so any other step may come in between. A step that
is not enabled is skipped, so a run is any sequence of actions whatever. `history`, `minted`, `sent`, `surplus`
and `unbacked` record what happened and influence nothing. `surplus` is what came to the minter outside a deposit,
also by a payout to its own account. `unbacked` counts claims nobody gave anything up for: a burn event collected
again (the window of blocks to collect can move back, src/icrc2-minter/src/tasks.rs:734-776), a deposit out of the
minter's own main account, and burns of tokens the bridge did not deploy, which all claim token id zero.

## What the proofs found

- A token is backed in a reachable state exactly if its burns collected a second time, its deposits out of the minter's
  own main account, and for token id zero the burns of tokens the bridge did not deploy, are together no more than what
  came to the minter outside deposits (`BackedExactly`). So all tokens are backed if every event is collected once, no
  collected notification asks for a deposit out of the main account, and only deployed tokens are burnt.
- All three causes occur, each in a concrete run. `TokenIsNotBacked`: a deposit, a mint, a burn and a burn event
  collected twice. `OwnDepositIsNotBacked`: after a user's deposit, a notification that names the minter itself as
  sender, with the default subaccount, and the zero address as recipient. The spending account is derived from the
  recipient (src/minter-contract-utils/src/evm_link.rs:111-115), so it is then the main account, which needs no
  approval to spend for itself; the tokens return to where they were, a ledger fee is lost, and the minter signs an
  order for the amount. The contract accepts no order for the zero address, so that order is never minted
  (`ZeroRecipientIsNeverMinted`) and the loss is the fee. `ZeroTokenIsNotBacked`: a burn of a token the bridge did not deploy.
- An operation whose signed order names no fee payer never leaves that status, in any run: every refund stays at
  `RefundMintOrderSigned`, and such a deposit stays at `MintOrderSigned` even after its order was minted, because a
  mint event completes only operations whose order the canister sent. `RefundMintOrderSent` and `RefundMinted` are
  unreachable.
- A mint event completes the oldest retained operation of its recipient with its nonce, if that is a sent deposit in
  the same token; the amount is not compared. This is the operation whose order was minted exactly if that one is the
  oldest (`MarkedExactly`), which holds as long as no two operations of one wallet share a nonce, and so for the first
  2^32 - 1 operations. Otherwise an older deposit is completed by a younger one's mint (`OlderIsCompleted`).
- With a log size of zero, an operation created complete leaves a dangling id in the address index, and only then
  (`CreateKeepsExactly`, and `ListedButLost` for a case).
- `truncateUTF8` drops a complete multi-byte character that ends exactly with the 32nd byte, and only then
  (`KeepsAllThatFits`, and `LosesFittingCharacter` for a case).
- The comment above `mint` in src/icrc2-minter/src/tokens/icrc2.rs:23-32 speaks of an approval and of twice the fee.
  The code makes one transfer and one fee, and the model follows the code.

## Assumptions

- A ledger call that returns an error had no effect, and one that reports success made the transfer. The token is the
  user's choice, so this is said of honest ledgers only; each token's books are kept apart.
- A ledger lets an account spend for itself without approval, as ICRC-2 says; the minter approves nobody.
- The canister does not trap between a ledger's reply and the status update that follows it.
- Only orders the minter signed carry a signature that recovers to the minter's address.
- A newly deployed contract gets an address not seen before. The bridge never calls itself.
- The scheduler runs at most one task of an operation at a time.
- `Id256` and `Principal` conversions are mutually inverse, so both are modelled by one type.
- 128-bit additions wrap around, as in a release build. Iteration over a hash map has any order.
- Memory after a string is zero.

## Model

| member | source | states |
|---|---|---|
| `Backing.Conservation` | src/icrc2-minter/src/tasks.rs:208-732 | in every reachable state and for every token, custody plus unbacked claims equals the surplus plus wrapped supply, deposits and refunds on their way, and burns not paid out or not yet collected; so backing fails exactly when unbacked claims exceed the surplus |
| `Solvency.BackedExactly` | src/icrc2-minter/src/tasks.rs:147-293 | over every run, any token is backed if and only if its burns collected again, its deposits out of the minter's main account with their fees, and for token id zero the burns of tokens the bridge did not deploy, do not exceed what came to the minter outside deposits |
| `Solvency.BackedInEveryState` | src/icrc2-minter/src/tasks.rs:208-401 | if no event is collected twice and no collected notification names the minter's own main account and the zero address, custody covers supply and all outstanding obligations in every reachable state, for every token of nonzero id, and for token id zero too if only deployed tokens are burnt |
| `Solvency.RecollectionBreaksBacking` | src/icrc2-minter/src/tasks.rs:734-776 | collecting a burn event again keeps a token backed exactly if custody exceeds the liabilities by at least that amount |
| `Solvency.ZeroTokenIsNotBacked` | solidity/src/BftBridge.sol:191-214 | a concrete run in which burning a token the bridge did not deploy leaves token id zero unbacked |
| `Recollection.TokenIsNotBacked` | src/icrc2-minter/src/tasks.rs:147-206 | a concrete run of a deposit, its mint, a burn and a second collection of the burn event: the token is backed before that collection and not after it |
| `Solvency.CollectingAgainUnbacks` | src/icrc2-minter/src/tasks.rs:403-453 | after any run that gives the minter nothing in the token, collecting a burn event again leaves it unbacked |
| `Solvency.OwnDepositUnbacks` | src/icrc2-minter/src/tasks.rs:227-251 | after any run that gives the minter nothing in the token, a deposit out of its main account costs custody the fee and leaves the token unbacked |
| `Solvency.OwnRequestIs` | src/minter-contract-utils/src/evm_link.rs:111-115 | a request takes from the main account exactly if it names the minter as sender and the default subaccount, and that account spends for itself exactly for the zero address |
| `OwnDeposits.OwnDepositIsNotBacked` | src/icrc2-minter/src/tasks.rs:208-293 | a concrete run of a user's deposit of 10 and an own-account deposit of 5, with each event collected once: 9 in custody, and more claimed |
| `Completion.ZeroRecipientIsNeverMinted` | solidity/src/BftBridge.sol:239-240 | over every run, no order for the zero address is ever minted |
| `Protocol.SubmitsBytes` | solidity/src/BftBridge.sol:133-138 | submitting a signed order is the contract's mint of its packed bytes |
| `Backing.NextKeeps` | src/icrc2-minter/src/tasks.rs:90-117 | every step of every task, contract call and collected event keeps the contract invariants, the fit of status, task and order, and conservation for all tokens |
| `Backing.PrepareSignKeeps` | src/icrc2-minter/src/tasks.rs:347-401 | replacing a paid-in deposit or a scheduled refund by its signed order keeps the books balanced |
| `Progress.OrderIsSigned` | src/icrc2-minter/src/tasks.rs:295-401 | from a taken deposit or a due refund, the minter signs an order that carries the data field by field, and hands it on for sending exactly if it names a fee payer |
| `Progress.PaidOrderIsSent` | src/icrc2-minter/src/tasks.rs:526-617 | a signed deposit with a fee payer is sent, as exactly the order that was signed |
| `Progress.DepositIsTaken` | src/icrc2-minter/src/tasks.rs:208-293 | if the ledger takes the tokens, in the first round or the second, custody grows by the amount and the operation owes an order for the request's own data |
| `Progress.LedgerRefuses` | src/icrc2-minter/src/tasks.rs:243-251 | if it does not, the deposit waits for another try and nothing else changes |
| `Progress.DepositIsSent` | src/icrc2-minter/src/tasks.rs:208-617 | from the scheduled request to the sent order, all steps together |
| `Progress.DepositCompletes` | src/icrc2-minter/src/tasks.rs:208-617 | a deposit with a fee payer ends as minted, with the amount credited to the wallet, if the ledger gives the tokens and the contract knows the token and has room |
| `Journeys.DepositArrives` | src/icrc2-minter/src/tasks.rs:455-519 | a concrete run from the empty bridge to a minted deposit of 10 |
| `Backing.PayLedgerKeeps` | src/icrc2-minter/src/tasks.rs:624-690 | a payout of a burn, with retry, keeps the books whichever way the ledger answers |
| `Progress.PayoutFails` | src/icrc2-minter/src/tasks.rs:680-690 | a failed payout is tried again exactly after the five errors listed, and leads to a refund after any other |
| `Progress.WithdrawalWaits` | src/icrc2-minter/src/tasks.rs:680-689 | after an error that may pass, the withdrawal is exactly as it was |
| `Progress.PayingSucceeds` | src/icrc2-minter/src/tasks.rs:660-679 | a payout that succeeds takes the burnt amount, and the receiver gets it less the fee of the round that paid |
| `Progress.WithdrawalIsPaid` | src/icrc2-minter/src/tasks.rs:660-679 | a paid withdrawal is complete, with the receiver and what he got |
| `Progress.WithdrawalIsRefunded` | src/icrc2-minter/src/tasks.rs:690-728 | a payout that fails for good schedules a refund of the burnt amount and token to the burner, with no fee payer and no approval |
| `Progress.RefundIsSigned` | src/icrc2-minter/src/tasks.rs:295-401 | and then an order for exactly that is signed |
| `Progress.FailedStartsOver` | src/icrc2-minter/src/tasks.rs:785-800 | a task whose await fails without effect starts over at its own beginning |
| `Journeys.WithdrawalArrives` | src/icrc2-minter/src/tasks.rs:624-690 | a concrete run in which a burn of 10 is paid out as 9 and a fee |
| `Journeys.RefundIsOffered` | src/icrc2-minter/src/tasks.rs:690-728 | a concrete run in which a refused payout ends with a refund order for the burner |
| `Backing.AcceptedOrder` | solidity/src/BftBridge.sol:133-180 | an order the contract accepts is minted for the first time, in the wrapped token of the very token it was signed for, and logs one mint event for its amount |
| `Provenance.MintedAtMostOnce` | solidity/src/BftBridge.sol:163 | over every run the order of each operation is accepted exactly once if it ever is, and never twice |
| `Provenance.MarkedIsMinted` | src/icrc2-minter/src/tasks.rs:455-524 | if no other operation of the event's recipient has its nonce, the operation a mint event completes is the one whose order was minted, with the same amount and token |
| `Provenance.FewAreUnique` | src/minter-contract-utils/src/operation_store.rs:34-47 | among the first 2^32 - 1 operations no two share a nonce |
| `Completion.FoundIsOldest` | src/icrc2-minter/src/tasks.rs:462-476 | the operation found for a wallet and a nonce is the oldest retained one |
| `Completion.MarkedExactly` | src/icrc2-minter/src/tasks.rs:455-524 | a mint event completes the operation whose order was minted if and only if that is the oldest retained operation of its wallet with its nonce |
| `Completion.OlderIsCompleted` | src/icrc2-minter/src/tasks.rs:478-519 | an older sent deposit in the same token with the same nonce is completed by a younger one's mint event, with the younger one's amount |
| `Provenance.LaterStatesAdvance` | src/icrc2-minter/src/operation.rs:65-129 | between any two states of any run from the start, each operation is unchanged or further on its own path, with kind, wallet and token kept, and unchanged once complete; the store stands for that history throughout |
| `Provenance.EveryRunAdvances` | src/icrc2-minter/src/tasks.rs:276-387 | over every run each operation climbs its path, keeps its kind, wallet and token, never leaves completion, keeps its amount up to the payout fee (for a completed mint: if no two operations of a wallet share a nonce), and every signed order is for its operation's wallet |
| `Tracing.EveryRunTraced` | src/icrc2-minter/src/tasks.rs:403-453 | every run keeps each operation's data and order traceable to a logged event |
| `Tracing.EveryOrderIsTraced` | src/icrc2-minter/src/tasks.rs:295-346 | in every reachable state each signed order is the order for a logged notification or the refund of a logged burn, with its operation's nonce |
| `Tracing.OrderMatchesEvent` | src/icrc2-minter/src/tasks.rs:335-360 | field by field, each signed order grants what one logged notification asks for, or gives one logged burn back to its burner with no fee payer and no approval |
| `Tracing.SignedOrderIsOffered` | src/icrc2-minter/src/operation.rs:37-62 | in every reachable state the order fetched for an operation is the one signed for it, offered exactly while it is signed, incomplete and for the token asked |
| `Tracing.ApprovalsAreOwned` | src/icrc2-minter/src/tasks.rs:437-445 | an order carries an approval only if the recipient's own wallet asked for exactly that approval in a logged notification with the same amount and token |
| `Tracing.OnlyPaidOrdersAreSent` | src/icrc2-minter/src/tasks.rs:389-396 | every order the canister is sending or has sent is the deposit order it signed and names a fee payer, so no operation is ever in a sent or minted refund state |
| `Completion.UnpaidStaysSigned` | src/icrc2-minter/src/tasks.rs:478-519 | over every run, an operation whose signed order names no fee payer keeps exactly that status, even if its order is minted |
| `Completion.RefundsAreUnpaid` | src/icrc2-minter/src/tasks.rs:698-709 | a signed refund is always of that kind |
| `Completion.CompletedIsMinted` | src/icrc2-minter/src/tasks.rs:455-524 | over every run, if no two operations of one wallet share a nonce, a completed deposit's own order was minted, for the token and amount its status reports |
| `Tracing.RefundPaysBurntToken` | src/icrc2-minter/src/tasks.rs:695-725 | an accepted refund pays the burner the burnt amount, in the very token burnt if and only if the bridge deployed that token |
| `Icrc2.MintDebitsExactly` | src/icrc2-minter/src/tokens/icrc2.rs:34-82 | across the bad-fee retry a successful payout is one transfer that takes exactly the burnt amount, and the receiver misses only the ledger's fee; to the main account itself it costs only the fee; a failed one takes nothing |
| `Icrc2.BurnCreditsExactly` | src/icrc2-minter/src/tokens/icrc2.rs:84-126 | across the retry a successful deposit is one transfer that adds exactly its amount to custody, or, out of the main account, adds nothing and costs the ledger's fee; a failed one changes nothing |
| `Icrc2.MintPaysExactly` | src/icrc2-minter/src/tokens/icrc2.rs:34-82 | a payout succeeds if and only if the first round pays it, or its fee is refused, refreshed, and the second round pays it; the receiver misses the fee of that round |
| `Icrc2.MintFailsWith` | src/icrc2-minter/src/tokens/icrc2.rs:42-82 | why a payout fails: the amount does not cover the fee, the ledger's own error, or missing funds |
| `Icrc2.BurnTakesExactly` | src/icrc2-minter/src/tokens/icrc2.rs:84-126 | a deposit succeeds if and only if the amount is not zero and the first round takes it, or a refused fee is refreshed and the second does |
| `BftBridges.EveryRunKeeps` | solidity/src/BftBridge.sol:15-269 | after any run of contract calls: registries inverse, tokens listed once, supply equals the balances and minted minus burnt events, each sender and nonce minted once, and no mint pays a wrapped token for another base |
| `BftBridges.PairSafety` | solidity/src/BftBridge.sol:145-155 | a valid order pays the wrapped token registered for its source token, else the token it names, and never a wrapped token of nonzero base id for a different base id |
| `BftBridges.MintEffect` | solidity/src/BftBridge.sol:133-180 | an accepted order uses up its unused nonce, credits its recipient by its amount in its target token, sets exactly the allowance it asks for (on the wrapped side), changes no other token, balance or allowance, and is logged |
| `BftBridges.MintAcceptedExactly` | solidity/src/BftBridge.sol:133-180 | a mint goes through if and only if the contract is not paused, the signer is the minter, and recipient, amount, chain, nonce, pair, target, fee and supply are as they must be |
| `BftBridges.BurnAcceptedExactly` | solidity/src/BftBridge.sol:191-214 | a burn goes through if and only if the contract is not paused, the amount and the token are real, the counter is not exhausted, and the sender has the tokens and allowed the bridge to take them |
| `BftBridges.DeployExactly` | solidity/src/abstract/TokenManager.sol:45-60 | a token is deployed if and only if this is the wrapped side and the base token has none; it is registered both ways, starts empty, and changes nothing else |
| `BftBridges.UserCallExactly` | solidity/src/WrappedToken.sol:25-57 | a user's call to a wrapped token changes that token alone |
| `BftBridges.BurnEffect` | solidity/src/BftBridge.sol:191-214 | a burn destroys exactly the sender's amount and lowers his allowance by it, changes no other token or balance, counts up the operation number, and is logged with the base token of the burnt one |
| `BftBridges.ListedPairs` | solidity/src/abstract/TokenManager.sol:91-100 | the token list and the two registries tell the same pairs |
| `BftBridges.PayloadsAreOrders` | solidity/src/BftBridge.sol:222-249 | of payloads valid on one chain, equal decoded orders mean equal bytes, and the reverse |
| `BftBridgeContracts.BftBridge.DeployErc20` | solidity/src/abstract/TokenManager.sol:45-60 | the object's deployment is the one on states: both registries and the list extended, or nothing changed; the object stays in a state of a run of contract calls |
| `BftBridgeContracts.BftBridge.ListTokenPairs` | solidity/src/abstract/TokenManager.sol:91-100 | the filled arrays are exactly the registered pairs |
| `BftBridgeContracts.BftBridge.Mint` | solidity/src/BftBridge.sol:133-181 | the object's mint is the one on states, over all its token objects; a refused one changes nothing; the object stays in a state of a run of contract calls |
| `BftBridgeContracts.BftBridge.ValidateOrder` | solidity/src/BftBridge.sol:239-255 | accepts exactly the orders valid in the current state |
| `BftBridgeContracts.BftBridge.Burn` | solidity/src/BftBridge.sol:191-214 | the object's burn is the one on states, returns the operation number it logs, and appends the block number to the caller's list alone; a refused one changes nothing |
| `BftBridgeContracts.BftBridge.GetDepositBlocks` | solidity/src/BftBridge.sol:184-186 | the block numbers of the caller's last 255 burns, or of all, oldest first |
| `BftBridgeContracts.BftBridge.ValidIsInvariant` | solidity/src/BftBridge.sol:15-269 | a valid object has all the invariants of runs of contract calls |
| `MintOrders.DecodeEncode` | solidity/src/BftBridge.sol:222-237 | decoding a packed order gives back every field |
| `MintOrders.Layout` | solidity/src/BftBridge.sol:224-237 | every field stands at the offset the contract reads it from, most significant byte first |
| `MintOrders.EncodeDecode` | solidity/test/contract_tests/BftBridge.t.sol:344-361 | packing what was decoded from any 269 bytes gives back those bytes |
| `WrappedTokens.OwnerTransferMints` | solidity/src/WrappedToken.sol:25-36 | the owner's transfer creates exactly the value, all for the receiver, and supply stays the sum of balances |
| `WrappedTokens.OwnerPullBurns` | solidity/src/WrappedToken.sol:50-57 | the owner pulling tokens to itself destroys exactly the amount, all the sender's, and lowers the sender's allowance by it |
| `WrappedTokens.OwnerCallsExactly` | solidity/src/WrappedToken.sol:25-57 | when the owner's two special calls go through: exactly if addresses are real, the supply fits, or the sender has and allowed the tokens |
| `WrappedTokens.TransferMoves` | solidity/src/WrappedToken.sol:25-36 | a user's transfer goes through exactly if both addresses are real and he has the tokens; it moves them from him to the receiver and changes nothing else |
| `WrappedTokens.TransferFromMoves` | solidity/src/WrappedToken.sol:50-57 | a transfer on behalf of another goes through exactly if the sender has the tokens and allowed it; it moves them to the receiver, lowers that allowance, and changes nothing else |
| `WrappedTokens.ApprovalSets` | solidity/src/WrappedToken.sol:39-47 | an approval sets exactly one allowance; the owner's counts for any wallet, a stranger's for none |
| `WrappedTokens.OthersKeepSupply` | solidity/src/WrappedToken.sol:25-57 | no call by anyone else changes the supply or unbalances it |
| `WrappedTokens.WrappedToken.CallTransfer` | solidity/src/WrappedToken.sol:25-36 | the object's transfer moves a user's tokens to the receiver, or creates them if the owner calls; a refused one changes nothing |
| `WrappedTokens.WrappedToken.CallTransferFrom` | solidity/src/WrappedToken.sol:50-57 | the object's transfer on behalf of another moves the sender's tokens to the receiver, or destroys them if the owner pulls to itself; a refused one changes nothing |
| `WrappedTokens.WrappedToken.CallApproveByOwner` | solidity/src/WrappedToken.sol:39-47 | only the owner sets another wallet's allowance; a refusal or a revert changes nothing |
| `OperationStores.NonceCollision` | src/minter-contract-utils/src/operation_store.rs:34-47 | two operations share a nonce exactly if their ids are a multiple of 2^32 - 1 apart |
| `OperationStores.NonceCounts` | src/minter-contract-utils/src/operation_store.rs:45-47 | nonces start at zero and count up with the ids until they start over |
| `OperationStores.EveryRunRepresents` | src/minter-contract-utils/src/operation_store.rs:171-272 | after any creations and updates: the log holds exactly the `max` largest completed ids, no incomplete operation is lost, the maps are disjoint, and the index lists each address's retained operations in order, nothing else |
| `OperationStores.CreateKeepsExactly` | src/minter-contract-utils/src/operation_store.rs:171-194 | a creation keeps that correspondence if and only if the log has room for one operation or the new one is incomplete |
| `OperationStores.ListedButLost` | src/minter-contract-utils/src/operation_store.rs:180-191 | with a log size of zero the first operation, created complete, is listed for its address and found nowhere |
| `OperationStores.UpdateKeeps` | src/minter-contract-utils/src/operation_store.rs:222-272 | an update, with its possible eviction even of the updated operation itself, is the update of the history |
| `OperationStores.GetForAddressIsFilter` | src/minter-contract-utils/src/operation_store.rs:209-218 | retrieval by address is the filter of the whole history by address, in creation order, with latest payloads |
| `OperationStores.IncompleteIsFound` | src/minter-contract-utils/src/operation_store.rs:197-207 | an incomplete operation is always found, with its latest payload |
| `OperationStores.TopIsUnique` | src/minter-contract-utils/src/operation_store.rs:252-272 | there is only one set of `max` largest ids, so the log's contents are determined |
| `OperationStores.MinterOperationStore.Create` | src/minter-contract-utils/src/operation_store.rs:171-194 | the object's creation is the one on states, numbers operations by the history, and keeps the correspondence exactly if there is room |
| `OperationStores.MinterOperationStore.SetPayload` | src/minter-contract-utils/src/operation_store.rs:222-235 | the object's update amends the history; a completed or unknown operation stays |
| `OperationStores.MinterOperationStore.EvictOldest` | src/minter-contract-utils/src/operation_store.rs:252-272 | removes the oldest logged operation from log and index, with no empty list left |
| `OperationStores.MinterOperationStore.GetOperation` | src/minter-contract-utils/src/operation_store.rs:197-207 | an incomplete operation is always found, and what is found is the latest payload |
| `OperationStores.MinterOperationStore.OperationsOf` | src/minter-contract-utils/src/operation_store.rs:209-218 | all retained operations of the address, in creation order, with latest payloads |
| `LogCollection.CollectLogs` | src/minter-contract-utils/src/bft_bridge_api.rs:250-297 | walks over the whole range in at most nine requests per block, each as large as the page allows, which starts at 128, halves on failure, is reset by an answer and stays at zero after a skip; if requests fail exactly on unreadable blocks, returns the concatenation of the logs of every readable block |
| `LogCollection.WalkCollects` | src/minter-contract-utils/src/bft_bridge_api.rs:264-280 | whatever fails, the result is the logs of every block not skipped, in order, each once |
| `LogCollection.SkippedFailedAlone` | src/minter-contract-utils/src/bft_bridge_api.rs:281-292 | a block is skipped only after a request for that block alone failed |
| `LogCollection.WalkRefinesNaive` | src/minter-contract-utils/src/bft_bridge_api.rs:264-294 | at any point of such a collection the logs so far are those of all readable blocks passed |
| `CollectLogsLocks.EveryRunExclusive` | src/icrc2-minter/src/tasks.rs:53-77 | in any interleaving of taking, dropping and crashing, undropped holders are more than 60 seconds apart and the cell holds the newest |
| `CollectLogsLocks.LateDropIsHarmless` | src/icrc2-minter/src/tasks.rs:66-77 | a drop frees the lock exactly if no newer holder exists |
| `CollectLogsLocks.FreeExactlyWithoutLease` | src/icrc2-minter/src/tasks.rs:54-64 | the lock can be taken exactly when no undropped holder is within its lease |
| `CollectLogsLocks.OneLeaseAtATime` | src/icrc2-minter/src/tasks.rs:53-77 | two holders within their lease are the same holder |
| `CollectLogsLocks.CollectLogsLock.Take` | src/icrc2-minter/src/tasks.rs:54-64 | hands out the current time exactly if the lock is free, else changes nothing |
| `CollectLogsLocks.CollectLogsLock.Drop` | src/icrc2-minter/src/tasks.rs:66-77 | clears the cell exactly if what it holds is not newer than the dropped lock |
| `FeeCharges.EveryRunSolvent` | solidity/src/FeeCharge.sol:30-82 | after any run the native balance is exactly the users' deposits plus the value attached to withdrawals |
| `FeeCharges.DepositCredits` | solidity/src/FeeCharge.sol:30-42 | a deposit is refused exactly on overflow, credits its sender alone, and approves exactly the ids it names |
| `FeeCharges.DebitLeavesFunds` | solidity/src/FeeCharge.sol:45-54 | at the point of the transfer out, the contract holds exactly the debited amount beyond what it owes |
| `FeeCharges.WithdrawKeepsSolvent` | solidity/src/FeeCharge.sol:45-54 | a withdrawal is refused only for amount, balance or the receiver, never for lack of funds, and debits nobody else |
| `FeeCharges.ChargeKeepsSolvent` | solidity/src/FeeCharge.sol:73-82 | a charge is refused only for the stated reasons, never for lack of funds, and debits only the payer |
| `FeeCharges.ApprovedExactly` | solidity/src/FeeCharge.sol:30-71 | over every run an id stands approved if and only if a deposit that went through approved it and no later call revoked it |
| `FeeCharges.EveryChargeIsApproved` | solidity/src/FeeCharge.sol:73-82 | every charge that goes through was approved by its payer and not revoked since |
| `FeeCharges.FeeCharge.NativeTokenDeposit` | solidity/src/FeeCharge.sol:30-42 | the object credits the user and approves all given ids, or changes nothing, and stays solvent |
| `FeeCharges.FeeCharge.NativeTokenWithdraw` | solidity/src/FeeCharge.sol:45-54 | the object's withdrawal succeeds exactly for the reasons above and stays solvent |
| `FeeCharges.FeeCharge.RemoveApprovedSenderIds` | solidity/src/FeeCharge.sol:65-70 | exactly the given ids of the caller are revoked |
| `FeeCharges.FeeCharge.ChargeFee` | solidity/src/FeeCharge.sol:73-82 | the object's charge succeeds exactly for the reasons above and stays solvent |
| `RingBuffers.PushKeeps` | solidity/src/libraries/RingBuffer.sol:13-25 | a push over the wrapping indices keeps the slots equal to the most recent 255 values |
| `RingBuffers.RingBufferUint32.Push` | solidity/src/libraries/RingBuffer.sol:13-25 | appends to everything ever pushed |
| `RingBuffers.RingBufferUint32.Size` | solidity/src/libraries/RingBuffer.sol:28-34 | the number of values kept, at most 255 |
| `RingBuffers.RingBufferUint32.GetAll` | solidity/src/libraries/RingBuffer.sol:37-48 | exactly the last 255 pushed values, or all, in order |
| `StringUtils.TruncationIsClean` | solidity/src/libraries/StringUtils.sol:7-39 | for every valid UTF-8 string the kept prefix ends on a character boundary and is valid; all of a string under 32 bytes, 28 to 32 bytes of others |
| `StringUtils.KeepsAllThatFits` | solidity/src/libraries/StringUtils.sol:10-33 | the longest prefix of whole characters that fits is kept, unless and only unless a multi-byte character ends exactly at byte 32 |
| `StringUtils.LosesFittingCharacter` | solidity/src/libraries/StringUtils.sol:10-33 | a valid string of 32 bytes that ends in a two-byte character loses it |
| `StringUtils.TruncateUtf8` | solidity/src/libraries/StringUtils.sol:7-39 | the result is the kept prefix filled up with zeros, and the backward scan ends |
| `StringUtils.ClearWordFrom` | solidity/src/libraries/StringUtils.sol:24-26 | zeroes the first word from an index on, and nothing else |
| `RuneRequests.PrepareMintOrders` | src/rune-bridge/src/core/deposit.rs:331-488 | orders are prepared if and only if there are UTXOs, confirmed, indexed, with runes, as requested, named, not taken, and all signatures succeed; they are then one per rune, and with totals below 2^128 and at most 2^32 nonces taken meanwhile each for its exact sum with a nonce of its own; otherwise the new status tells whether to wait, for what, or to give up after the time limit |
| `RuneDeposits.GetMintAmounts` | src/rune-bridge/src/core/deposit.rs:828-866 | succeeds, and fails with each of its errors, exactly under the stated condition on the UTXOs' runes, the request and the two tables; the amounts are the totals per rune |
| `RuneDeposits.ExactBelowOverflow` | src/rune-bridge/src/core/deposit.rs:836-844 | an aggregated amount is the exact sum if and only if the sum is below 2^128 |
| `RuneDeposits.LookUp` | src/rune-bridge/src/core/deposit.rs:613-670 | one entry per rune with its info, found exactly if one of the two tables has all runes, and the known table is replaced only when it lacks one |
| `RuneDeposits.CreateMintOrders` | src/rune-bridge/src/core/deposit.rs:720-739 | one order per entry, with the nonces taken in turn although other requests take some in between |
| `RuneDeposits.DepositConserves` | src/rune-bridge/src/core/deposit.rs:720-866 | aggregation, lookup and order creation together order exactly what the UTXOs hold |
| `RuneDeposits.UnusedHoldNothing` | src/rune-bridge/src/core/deposit.rs:836-840 | a UTXO left unused holds no rune |
| `RuneRequests.ExecuteStep` | src/rune-bridge/src/core/deposit.rs:270-329 | goes on exactly if orders were prepared, and stores the new status only in an incomplete request |
| `RuneRequests.SendOrders` | src/rune-bridge/src/core/deposit.rs:284-315 | each unsent order that goes out is marked sent, with rune and amount kept, and a change is reported exactly if there is one |
| `RuneRequests.ProcessDepositRequest` | src/rune-bridge/src/core/deposit.rs:190-211 | at most two steps per call, whatever happens to the request meanwhile; undisturbed, it prepares and sends |
| `RuneRequests.ProcessUndisturbed` | src/rune-bridge/src/core/deposit.rs:190-443 | a request nothing else touches ends with stored orders if and only if they can be prepared: for exactly the runes its UTXOs hold, each once with its own nonce, and sent exactly where sending succeeds; otherwise with the status that tells what was missing |
| `RuneRequests.SendingConserves` | src/rune-bridge/src/core/deposit.rs:284-315 | sending changes neither what the orders are for nor their nonces |
| `DerivationPaths.GetDerivationPathIc` | src/rune-bridge/src/key.rs:153-165 | the parts are the prefixed address in threes, each after a zero byte |
| `DerivationPaths.ToBip32` | src/rune-bridge/src/key.rs:171-180 | converts exactly the paths whose parts are four bytes and below 2^31 |
| `DerivationPaths.GetDerivationPath` | src/rune-bridge/src/key.rs:167-169 | never panics: every address has seven normal child numbers, which convert back to its IC path |
| `DerivationPaths.PathIsFaithful` | src/rune-bridge/src/key.rs:167-187 | every address gives seven normal indices, and converting to BIP-32 form and back is the identity |
| `DerivationPaths.PathDeterminesAddress` | src/rune-bridge/src/key.rs:153-165 | two addresses have the same BIP-32 path if and only if they are the same |

## Left out

- BftBridgeContracts.BftBridge.DeployErc20: does not model the name and symbol of the new token, nor the event that announces it, which no other part of the bridge reads.
- BftBridgeContracts.BftBridge.Mint: does not model the token's name, symbol and decimals, which `setMetaData` overwrites; whether charging the fee payer succeeds is a parameter, and the fee contract is proved by itself.
- BftBridgeContracts.BftBridge.Burn: takes the token's metadata as a parameter, since tokens do not store it here.
- RuneRequests.PrepareMintOrders: whether all UTXOs have enough confirmations, and whether the request's time is out, are parameters; block heights and timestamps in the stored statuses are not modelled.
- Tokens the bridge did not deploy: whether calls into them succeed is a parameter, and what they do to themselves is not modelled.
- Ether sent to the fee contract by force, which would only add to its balance.
- Reentrancy into the fee contract: the fixed gas of `transfer` rules it out.
- Signatures, hashes, upgrades and pausing rights: the recovered signer and the pause flag are parameters.
- The task scheduler, stable memory and JSON-RPC: the stores are maps, tasks may fail, be tried again or be dropped at any time.
- Overflow of 64-bit block numbers, operation ids and timestamps.
- Decoding failures of ids and principals in event data. A notification whose data does not decode makes no task; its type is not looked at, here as in the code.
- UTF-8 validity of the 16-byte symbol, which is a plain cut of the truncated name word.
- The chain id a minter uses for an order is any chain id; an order for another chain is signed and never accepted.
- Completion of multi-rune deposits (`complete_mint_request`): partial completion writes the old payload back.
- Rune UTXO reuse across requests and rune withdrawals.
- The ERC-20 to ERC-20 minter and the BTC bridge, whose intended properties repeat those proved here.
- Configuration, logging, access lists, whitelists and metrics: only easy members.
