# DLC stack: contracts, attestations and their stores

This project models the parts of the DLC.Link stack that decide who owns what: the manager that takes a
discreet log contract from offer to settlement in two wallets, the storage behind it, the attestors whose
signatures settle contracts, and four small stateful services. `dafny verify dfyconfig.toml` checks it all.

- `Base`, `Contracts`: shared datatypes and the contract records, their ids and the lifecycle.
- `Hex`, `ContractCodec`, `Rows`, `ContractStore`, `StorageProvider`: contracts as rows of a table with a unique
  index, written through remote calls that may fail, and proved to be a map from id to contract.
- `Closable`, `Lifecycle`, `Handlers`, `CheckLocality`, `Manager`, `WasmWallet`: the manager. `Lifecycle` gives each step as a
  function of what the library, the chain, the oracles, the clock and the store answer; the class in `Manager` takes
  those steps in place.
- `NodeRuns`, `TwoParty`, `Periodic`, `Settlement`: theorems over all runs of one manager, over all runs of two managers
  that share only messages, about one pass of the periodic check, and about what the protocol achieves: when five
  messages fund a contract and when passes close or refund it. `Replays` and `Reacceptance` exhibit
  runs that spend a funding output twice and that leave a funded contract unsigned.
- `Digits`, `Payout`, `Attestor`: from a chain outcome through signed binary digits to a payout.
- `NonceList`, `WebSocket`, `ChainCache`, `StacksNonce`: the storage API's nonces, the reconnecting provider, the
  output cache, and the Stacks nonce counter.

## What the theorems rest on

Each message handler and each check of one contract is one atomic step. Calls into the DLC library, the chain, the
oracles, the clock and the network are parameters (`Lifecycle.Dlc`, `Lifecycle.Env`), and any of them may fail at any
step. `Dlc.Sound` lists what is assumed of the library: its steps keep the contract they are given, and the
contract id is computed from the offer's id and the funding transaction. Contract ids of different offers differ
(`NodeRuns.IdsUnclaimed`); accepting, or answering an accept, again may compute the same id again. A Sign message that
verifies was produced by the other party (`TwoParty.Authentic`); Offer and Accept messages may be forged. Chain lookups
that answer are truthful and the chain only grows (`NodeRuns.ChainAgrees`). Stronger regimes (offers received once,
temporary rows removed) are named where a theorem needs them, in `NodeRuns.Regime`. During a pass of the periodic check
every check of a contract has its own world (`Lifecycle.PassWorld`). That both parties compute the same unused contract
id is assumed only for `Settlement.NegotiationFundsIff` (`Settlement.IdsAgree`).

## Where a plausible claim is false

- An offer received again after it was accepted is live twice (`NodeRuns.ReofferLivesTwice`,
  `NodeRuns.OfferLiveTwiceIff`).
- If the removal of the temporary row fails, which the source ignores, a repeated Accept message sets the contract back
  to Signed, and its funding output can be spent twice although every record is written
  (`Replays.RepeatedAcceptSpendsTwice`, `Replays.TwoSpendsHappen`). A settled contract stays settled exactly when no
  Offered record of its offer is left to compute its id again (`NodeRuns.SettledStaysIff`, `NodeRuns.AnswerOverwritesIff`);
  with offers received once and temporary rows removed there is none (`NodeRuns.OrderlyNeverSetsBack`).
- An accept that recomputes a taken contract id overwrites that contract (`NodeRuns.AcceptOverwritesIff`). The wallet's
  key is fixed, so accepting the same offer once more after countersigning can compute the same id: then, without any
  failing call, the wallet has broadcast the funding transaction and holds the contract as Accepted only
  (`Reacceptance.ReacceptanceUnsigns`, `Reacceptance.FundedButUnsigned`). A signed contract survives an answered acceptance
  exactly when its id is not computed again (`TwoParty.AcceptKeepsSignedIff`); with offers received once and temporary
  rows removed it never is (`TwoParty.OrderlyNeverUnsigns`).
- If the store write after a broadcast fails, the funding output can be spent twice (`NodeRuns.SpendRecordedIff`,
  `NodeRuns.UnrecordedSpendIsRepeated`).
- A pass of the periodic check that advances a contract without an event id stops with an error and leaves work
  (`Periodic.PassOkIff`, `Periodic.NamelessContractLeavesWork`).
- A failed update can lose an offer, and can remove the target row if both ids are the same
  (`StorageProvider.FailedUpdateLosesOfferIff`, `StorageProvider.FailedUpdateKeepsTargetIff`).
- Zero at width zero is formatted with one digit, so the digit count and the complete signing both have that exception
  (`Digits.FormattedLengthIff`, `Digits.FormattedFitsIff`); an outcome too large for the digits is signed shifted right
  (`Attestor.SignedDigitsRead`).
- The Stacks nonce repeats while it and the chain's nonce are zero (`StacksNonce.RepeatsIff`).
- Hex decoding is not injective (`Hex.PlusSignDecodes`, `Hex.EncodeDecodeIff`).

## Model

| member | source | states |
|---|---|---|
| TwoParty.FundedOnlyWhenBothSigned | dlc-link-manager/src/lib.rs:374-445 | in every run of two managers, with messages lost, repeated, reordered or forged and any call failing: unless the contract is accepted away once signed, its broadcast funding transaction means both parties hold it in Signed or later, and is the one on the broadcaster's record |
| TwoParty.OrderlyFundedOnlyWhenBothSigned | dlc-link-manager/src/lib.rs:374-445 | so it is, without that proviso, in every run with offers received once and temporary rows removed |
| TwoParty.SameFunding | dlc-link-manager/src/lib.rs:438-442 | when both libraries compute ids alike and both records come from the same offer, the counterparty's record names the same funding transaction |
| TwoParty.OrderlyNeverUnsigns | clients/src/async_storage_provider.rs:147-152 | in such orderly runs each party holds one record per offer and accepts no signed contract away |
| Reacceptance.ReacceptanceUnsigns | wasm-wallet/src/lib.rs:294-323 | for every library and offer that allow it: accepting an offer again after countersigning leaves the funded contract Accepted, though every call gets through |
| Reacceptance.FundedButUnsigned | dlc-link-manager/src/lib.rs:333-337 | such libraries and such a run exist |
| TwoParty.RunsAreConsistent | dlc-link-manager/src/lib.rs:353-445 | the invariant behind it, contract by contract: a party holds a contract it sent a Sign message for, and a funding broadcast is backed by both stores and is the transaction its contract id is computed from |
| TwoParty.AcceptKeepsSignedIff | dlc-link-manager/src/lib.rs:333-337 | an acceptance that is answered keeps a signed contract exactly when it does not compute its id |
| TwoParty.OneRecordKeepsSigned | clients/src/async_storage_provider.rs:147-152 | while each offer has one record no acceptance computes the id of a signed contract |
| TwoParty.RepliesAreStored | dlc-link-manager/src/lib.rs:408-412 | a Sign message leaves only after the Signed record is stored |
| TwoParty.FundingRecorded | dlc-link-manager/src/lib.rs:438-444 | the funding transaction is broadcast only for a verified Sign message and after storing Signed |
| TwoParty.LaterKept | dlc-link-manager/src/lib.rs:196-213 | no step of a manager, a repeated Accept message included, takes a contract back from Signed or later or changes its offer, except accepting it away |
| NodeRuns.ContractsFollowLifecycle | dlc-link-manager/src/lib.rs:311-479 | in every run with fresh ids and temporary rows removed, each offer's record moves only along lifecycle edges with its terms kept, and at most one record exists per offer; writes may fail |
| NodeRuns.TerminalForever | dlc-link-manager/src/lib.rs:344-351 | in such runs Closed, Refunded, Rejected, FailedAccept and FailedSign records are the same at every later point |
| NodeRuns.FundingSpentAtMostOnce | dlc-link-manager/src/lib.rs:623-659 | in every run, contract by contract: if it is never set back and the write that records its spend gets through, at most one closing or refund transaction is broadcast for it; any other call may fail |
| NodeRuns.OrderlySpentAtMostOnce | dlc-link-manager/src/lib.rs:623-659 | so it is in every run with offers received once and temporary rows removed |
| NodeRuns.SettledStaysIff | dlc-link-manager/src/lib.rs:374-410 | a settled contract stays settled, whatever fails, exactly when the event does not recompute its id from a leftover Offered record |
| NodeRuns.OrderlyNeverSetsBack | clients/src/async_storage_provider.rs:147-152 | with offers received once and temporary rows removed no contract is ever set back |
| NodeRuns.RefundsAwaitLockTime | dlc-link-manager/src/lib.rs:806-818 | in every run no refund is broadcast before its lock time |
| Replays.RepeatedAcceptSpendsTwice | clients/src/async_storage_provider.rs:149-152 | for every library and contract: one lost removal of a temporary row and one repeated Accept make a closing transaction and the refund go out, though every record is written |
| Replays.TwoSpendsHappen | dlc-link-manager/src/lib.rs:374-413 | such a library, contract and run exist |
| NodeRuns.StepSends | dlc-link-manager/src/lib.rs:726-840 | a step broadcasts at most one transaction; a spend only for a Confirmed contract and only while the chain does not have it, a funding transaction only for a verified Accepted contract |
| NodeRuns.SpendRecordedIff | dlc-link-manager/src/lib.rs:640-645 | a contract whose spend was just broadcast is on record as settled exactly when the write got through |
| NodeRuns.UnrecordedSpendIsRepeated | dlc-link-manager/src/lib.rs:741-754 | if it did not, and the attestations are no longer served when the lock time has come, the refund follows the closing transaction |
| NodeRuns.StatesHaveDepth | dlc-link-manager/src/lib.rs:481-495 | in every run over a growing chain, whatever store calls fail and ids collide, Confirmed, PreClosed, Closed and Refunded contracts have a funding transaction six deep, Closed ones a closing transaction six deep, PreClosed ones a closing transaction broadcast or seen |
| NodeRuns.CheckReason | dlc-link-manager/src/lib.rs:691-775 | what the chain must have answered for a check to write Confirmed, PreClosed or Closed |
| NodeRuns.StepShape | dlc-link-manager/src/lib.rs:196-479 | every step leaves the store alone, opens one offer under an unused id, or moves one record along an edge keeping its terms |
| NodeRuns.CheckShape | dlc-link-manager/src/lib.rs:481-775 | the same for a check, which touches only the record checked |
| NodeRuns.ContractRowsMove | dlc-link-manager/src/lib.rs:335-337 | a record that has its contract id is never removed, keeps its offer, and stays or moves along an edge unless a leftover Offered record of its offer is accepted or answered again |
| NodeRuns.OfferLiveTwiceIff | dlc-link-manager/src/lib.rs:363-369 | an accepted offer message keeps one record per offer exactly when no record came from that offer |
| NodeRuns.ReofferLivesTwice | dlc-link-manager/src/lib.rs:353-372 | receiving an offer, accepting it and receiving it again leaves it live under both ids |
| NodeRuns.AnswerOverwritesIff | dlc-link-manager/src/lib.rs:374-410 | answering an accept keeps all contracts exactly when the id it computes is not taken by a contract that has moved on |
| NodeRuns.AcceptOverwritesIff | dlc-link-manager/src/lib.rs:333-337 | accepting keeps all contracts exactly when the computed id is not taken by a different contract |
| Periodic.SecondPassIsStill | dlc-link-manager/src/lib.rs:344-351 | with the world frozen, contract by contract, after a pass that ends well a second pass whose listings answer changes no record and returns the empty list |
| Periodic.PassEffect | dlc-link-manager/src/lib.rs:344-351 | a pass that ends well moves each record as its three loops would alone, each check in its own world, and lists each contract once per advance; at most twice if the contract's world stands still |
| Periodic.EntriesNameEvents | dlc-link-manager/src/lib.rs:497-524 | every entry that a pass lists names a stored contract, with the event id of the first announcement of the first info of its offer |
| Periodic.PassSettles | dlc-link-manager/src/lib.rs:661-724 | after one pass over a frozen world every contract stands still; none advances three times |
| Periodic.PassOkIff | dlc-link-manager/src/lib.rs:497-559 | a pass ends well exactly when the listings answer and every advancing contract has an event id |
| Periodic.NamelessContractLeavesWork | dlc-link-manager/src/lib.rs:503-512 | a contract without an event id is advanced, ends the loop with an error, and leaves work for the next pass |
| Periodic.AdvancedIff | dlc-link-manager/src/lib.rs:500-515 | a check reports an advance exactly when it changed the record other than to Refunded |
| Periodic.TailHeld | dlc-link-manager/src/lib.rs:497-521 | the contracts a loop has not visited yet are as they were listed at its start |
| Periodic.StageEffect | dlc-link-manager/src/lib.rs:497-524 | a loop checks exactly the listed contracts and lists each advance once |
| Periodic.StageOkIff | dlc-link-manager/src/lib.rs:661-689 | a loop fails exactly when it advances a contract without an event id |
| Periodic.PassContinuesRun | dlc-link-manager/src/lib.rs:344-351 | a pass after any run, whether it ends well or not and with the chain growing between its checks, is a continuation of that run, so depths hold and spends stay single through it |
| Periodic.PassIsChecks | dlc-link-manager/src/lib.rs:497-559 | a pass does what its checks do one by one |
| Settlement.NegotiationFundsIff | dlc-link-manager/src/lib.rs:217-445 | when every call gets through, five messages fund the contract exactly when the libraries accept each other's messages: both stores then hold it as Signed under the contract id only, and the funding transaction was broadcast once; otherwise nothing is broadcast, and a rejected message leaves a failed record |
| Settlement.ClosesInTwoPasses | dlc-link-manager/src/lib.rs:344-351 | a signed contract with deep funding and served attestations gets its closing transaction broadcast once by one pass, and is Closed by a second pass that finds it six deep, with its ids, counterparty and profit, and exactly the answers that the oracles gave, whatever else is stored |
| Settlement.RefundsInOnePass | dlc-link-manager/src/lib.rs:806-840 | without enough attestations, a pass after the lock time broadcasts the refund once and stores Refunded |
| Settlement.PassBroadcasts | dlc-link-manager/src/lib.rs:344-351 | a pass that ends well broadcasts for each contract what its own check would alone, whatever else is stored |
| Settlement.CheckSendsAlone | dlc-link-manager/src/lib.rs:481-840 | a check broadcasts at most one transaction, only for a confirmed contract, and the same whatever else is stored |
| Settlement.ClosedByPass | dlc-link-manager/src/lib.rs:726-775 | a pass stores Closed if the second or third loop finds the closing transaction six deep and PreClosed otherwise; the stored attestations are, in announcement order, the answers of the oracles that answered for the first info for which enough did |
| Settlement.AttestsUnique | dlc-link-manager/src/lib.rs:632-639 | there is only one such list |
| Settlement.CetIsSigned | dlc-link-manager/src/lib.rs:623-635 | the closing transaction is signed for that info, with its adaptor info and exactly those answers |
| Settlement.NotClosableIff | dlc-link-manager/src/lib.rs:561-621 | nothing is closable exactly without oracles or when for no paired info enough of them answer |
| Settlement.ClosingRecordedIff | dlc-link-manager/src/lib.rs:623-659 | a pass records a confirmed contract as closing or closed exactly when the attestations lead to a transaction of known depth, which is on chain or can be broadcast, and the write gets through |
| Settlement.RefundedIff | dlc-link-manager/src/lib.rs:806-840 | a pass records a confirmed contract as Refunded exactly when nothing is closable, the lock time has come, the refund is on chain already or can be signed and broadcast, and the write gets through |
| Settlement.ChannelContractsWait | dlc-link-manager/src/lib.rs:526-532 | confirmed contracts from a channel are passed over |
| CheckLocality.CheckLocal | dlc-link-manager/src/lib.rs:481-840 | a check depends on and changes only its own record, whatever else is stored or was broadcast |
| Manager.Manager.OnDlcMessage | dlc-link-manager/src/lib.rs:196-213 | dispatches to the handler of the message; only an Accept is answered with a Sign message |
| Manager.Manager.SendOffer | dlc-link-manager/src/lib.rs:217-309 | takes the offering step: needs oracles, stores the offer, then answers |
| Manager.Manager.OnOfferMessage | dlc-link-manager/src/lib.rs:353-372 | takes the step of receiving an offer, refusing ids already stored |
| Manager.Manager.AcceptContractOffer | dlc-link-manager/src/lib.rs:312-340 | takes the accepting step on an Offered record, answering only once Accepted is stored |
| Manager.Manager.OnAcceptMessage | dlc-link-manager/src/lib.rs:374-413 | takes the signing step, or stores FailedAccept |
| Manager.Manager.OnSignMessage | dlc-link-manager/src/lib.rs:415-445 | takes the countersigning step, or stores FailedSign; stores before it broadcasts |
| Manager.Manager.CheckSignedContract | dlc-link-manager/src/lib.rs:481-495 | takes the check of a signed contract |
| Manager.Manager.CheckConfirmedContract | dlc-link-manager/src/lib.rs:623-659 | takes the check of a confirmed contract: closing if closable, else refund |
| Manager.Manager.CloseContract | dlc-link-manager/src/lib.rs:726-775 | broadcasts the closing transaction unless on chain, and gives the record to store |
| Manager.Manager.CheckRefund | dlc-link-manager/src/lib.rs:806-840 | refunds once the lock time has come, broadcasting unless on chain |
| Manager.Manager.CheckPreClosedContract | dlc-link-manager/src/lib.rs:691-724 | takes the check of a pre-closed contract |
| Manager.Manager.CheckContracts | dlc-link-manager/src/lib.rs:497-524 | one loop over a listing fixed at its start, with its list of advances or its early error |
| Manager.Manager.PeriodicCheck | dlc-link-manager/src/lib.rs:344-351 | the three loops in order, each listing what the ones before left |
| WasmWallet.JsDlcInterface.AcceptOffer | wasm-wallet/src/lib.rs:294-323 | receives and accepts an offer; a failure of either part is reported |
| WasmWallet.JsDlcInterface.CountersignAndBroadcast | wasm-wallet/src/lib.rs:325-366 | answers exactly when the Sign message was handled and the listing answered, with the id of the funding transaction just broadcast, the contract then being Signed |
| WasmWallet.JsDlcInterface.RejectOffer | wasm-wallet/src/lib.rs:368-398 | stores Rejected for an Offered record and otherwise changes nothing |
| Handlers.OfferAnswered | dlc-link-manager/src/lib.rs:217-309 | an offer is answered exactly when there are oracles, it could be built and it was stored under an unused id; a failure changes nothing |
| Handlers.OfferTakenIn | dlc-link-manager/src/lib.rs:353-372 | an offer message succeeds exactly when it is valid, its id is unused and it was stored; a failure changes nothing |
| Handlers.AcceptanceAnswered | dlc-link-manager/src/lib.rs:312-340 | an acceptance succeeds exactly when an Offered record was turned into a stored Accepted one; the answer is for the offer's counterparty |
| Handlers.AcceptAnswered | dlc-link-manager/src/lib.rs:374-413 | an accept message from anyone but the counterparty of an Offered record changes nothing; one that the library refuses is recorded with its reason; an answer means that Signed is stored |
| Handlers.SignHandled | dlc-link-manager/src/lib.rs:415-445 | the same for a sign message, which succeeds exactly when the funding transaction was broadcast as well |
| Handlers.RejectionRecorded | wasm-wallet/src/lib.rs:368-398 | a rejection succeeds exactly when the Offered record, if there is one, was overwritten as Rejected |
| Closable.FirstClosableExact | dlc-link-manager/src/lib.rs:575-621 | the result is the first info that reaches its threshold with the adaptor info of its index, and none exactly when no paired info does |
| Closable.ChosenIsFound | dlc-link-manager/src/lib.rs:575-617 | said without the search: the first info for which enough oracles answer is found, with the adaptor info of its index and exactly their answers in order |
| Closable.QualifiesIff | dlc-link-manager/src/lib.rs:584-614 | an info qualifies exactly when at least as many announcements as its threshold are answered |
| Closable.AnswersExact | dlc-link-manager/src/lib.rs:585-612 | the answers are exactly the successful ones, with strictly increasing announcement indices |
| Closable.StaysClosable | dlc-link-manager/src/lib.rs:584-617 | more oracles answering never makes a closable contract unclosable |
| Closable.CollectAnswers | dlc-link-manager/src/lib.rs:585-612 | the loop that asks the oracles keeps exactly those answers |
| Closable.GetClosableContractInfo | dlc-link-manager/src/lib.rs:561-621 | the early-return search finds that first info; without oracles it fails |
| StorageProvider.Provider.UpdateContract | clients/src/async_storage_provider.rs:147-198 | delete, update, then create act on the stored map as one update whose fate depends on which calls get through; other keys' rows are kept |
| StorageProvider.UpdateEffect | clients/src/async_storage_provider.rs:147-198 | whatever fails: on success the new id holds the contract, the temporary row is untouched or gone, every other row is untouched; when no call fails it succeeds exactly for a moving or existing record and leaves no temporary row |
| StorageProvider.FailedUpdateKeepsTargetIff | clients/src/async_storage_provider.rs:149-178 | a failed update leaves the target row as it was, except when it is the temporary row and its removal got through |
| StorageProvider.FailedUpdateLosesOfferIff | clients/src/async_storage_provider.rs:149-178 | a failed update loses the offer exactly when the removal got through and the create did not |
| StorageProvider.Provider.CreateContract | clients/src/async_storage_provider.rs:116-130 | stores an offer under an unused id, else fails without effect |
| StorageProvider.Provider.DeleteContract | clients/src/async_storage_provider.rs:132-145 | removes one contract; a missing row is an error |
| StorageProvider.Provider.PutContract | clients/src/lib.rs:460-500 | an update that finds no row is an error |
| StorageProvider.Provider.PostContract | clients/src/lib.rs:359-388 | a create over an existing row is an error |
| StorageProvider.Provider.GetContract | clients/src/async_storage_provider.rs:67-88 | decodes the one row of the id, or none |
| StorageProvider.Provider.GetContractsByState | clients/src/async_storage_provider.rs:38-63 | lists exactly the stored contracts in that state, without repetition, in the order that filtering all of them gives |
| StorageProvider.Provider.GetUnwrapped | clients/src/async_storage_provider.rs:200-209 | unwrapping a state's contracts drops none |
| StorageProvider.Provider.GetContractOffers | clients/src/async_storage_provider.rs:200-209 | exactly the stored offers, each once |
| StorageProvider.Provider.GetSignedContracts | clients/src/async_storage_provider.rs:211-220 | exactly the stored signed contracts, each once |
| StorageProvider.Provider.GetConfirmedContracts | clients/src/async_storage_provider.rs:222-231 | exactly the stored confirmed contracts, each once |
| StorageProvider.Provider.GetPreClosedContracts | clients/src/async_storage_provider.rs:233-244 | exactly the stored pre-closed contracts, each once |
| StorageProvider.StateColumnIsIndex | storage/common/src/lib.rs:19-37 | querying by the state column gives what decoding all rows and filtering would give |
| StorageProvider.RepresentsIsFaithful | clients/src/async_storage_provider.rs:119-124 | in every valid store each row's state and uuid are those of its decoded content |
| StorageProvider.QueryListsState | storage/common/src/lib.rs:28-33 | a state query decodes to exactly the stored contracts of that state, without repetition |
| Contracts.StateStringInjective | clients/src/utils.rs:133-147 | two contracts have the same state string exactly when they are the same variant |
| Rows.Table.Get | storage/common/src/lib.rs:19-37 | returns the rows that match every given filter |
| Rows.Table.Create | storage/common/src/lib.rs:39-54 | appends a row unless the unique index holds its key and uuid |
| Rows.Table.Delete | storage/common/src/lib.rs:56-70 | removes the row of key and uuid and counts it |
| Rows.Table.Update | storage/common/src/lib.rs:83-97 | changes the row of key and uuid in place and counts it |
| Rows.KeepOne | storage/common/migrations/20221221121300_create_contract_table/up.sql:7 | asking by key and uuid gives at most the one row of the unique index |
| Rows.WithoutEffect | storage/common/src/lib.rs:62-67 | a delete affects exactly the row of key and uuid |
| Rows.ChangedEffect | storage/common/src/lib.rs:89-96 | an update affects exactly the row of key and uuid |
| ContractCodec.DeserializeSerialize | clients/src/utils.rs:75-131 | reading back a written contract gives the same variant and payload |
| ContractCodec.SerializeInjective | clients/src/utils.rs:75-91 | distinct contracts have distinct stored forms |
| ContractCodec.PrefixDecides | clients/src/utils.rs:93-99 | what decodes carries its variant's prefix; an empty buffer or unknown prefix is an error |
| ContractCodec.SerializeContract | clients/src/utils.rs:75-91 | the buffer filled with prefix and payload reads back as the contract |
| Hex.GetContractIdString | clients/src/utils.rs:149-156 | the loop writes the id so that decoding what follows "0x" gives the id back |
| Hex.IdStringInjective | clients/src/utils.rs:149-156 | distinct ids have distinct strings |
| Hex.DecodeEncode | attestor-client/src/lib.rs:203-212 | decoding undoes lower-case encoding for every byte string |
| Hex.EncodeDecodeIff | attestor-client/src/lib.rs:203-212 | encoding undoes decoding exactly on even-length lower-case digit strings |
| Hex.DecodesAsNormal | attestor-client/src/lib.rs:203-212 | what decodes is exactly the even-length strings of digits of either case, with a sign allowed for a leading zero of a pair, and it decodes as its lower-case form does; the two errors tell odd length from bad digits |
| Hex.PlusSignDecodes | attestor-client/src/lib.rs:207-210 | two strings that decode to the same byte |
| Attestor.RunsStaySound | attestor/src/lib.rs:94-262 | in every run of creations and attestations, stored events have matching secret and announced nonces, and any attestation signs the digits of the stored outcome with the nonces of their positions |
| Attestor.SignsAllDigitsIff | attestor/src/lib.rs:467-488 | all digits are signed exactly when the outcome is below two to the number of digits |
| Attestor.SignedDigitsRead | attestor/src/lib.rs:215-226 | the signed digits read as the outcome exactly when it fits, and as the outcome shifted right otherwise |
| Attestor.AttestedValuePaysOut | attestor/observer/src/services/attestor.service.ts:85-93 | an outcome attested after any run and read back from its digits pays what the curve gives for the rounded chain value |
| Attestor.AttestorService.CreateEvent | attestor/src/lib.rs:94-148 | stores a fresh event under its uuid, over an old one if there is one, or fails without effect; what the event is made of is StoredIsMade and NewNoncesDifferIff |
| Attestor.AttestorService.Attest | attestor/src/lib.rs:150-262 | stores the attested event; answers Ok even if that write failed |
| Attestor.NewEventIsSound | attestor/src/lib.rs:401-465 | a new event has as many secret nonces as digits, each matching its announced nonce |
| Attestor.NewNoncesDifferIff | attestor/src/lib.rs:401-422 | its announced nonces are pairwise different exactly when its draws are |
| Attestor.NoncesNeverRepeat | attestor/src/lib.rs:401-422 | in every run whose draws are all different, no nonce is announced for two digits of an event or in two stored events |
| Attestor.StoredIsMade | attestor/src/lib.rs:94-262 | in every run a stored event has the maturity, chain and draws of the last creation of it that got through, and the outcome last attested since |
| Attestor.StorageApiConn.Insert | attestor/src/oracle/handler.rs:44-92 | the upsert is a map update when both calls get through, and nothing otherwise; other keys' rows are kept |
| Attestor.StorageApiConn.Get | attestor/src/oracle/handler.rs:94-117 | returns the stored event of the id, or none |
| Attestor.StorageApiConn.GetAll | attestor/src/oracle/handler.rs:119-141 | returns exactly the stored events, each once |
| Digits.FormattedReadsBack | attestor/src/lib.rs:215-219 | the digits read back in base two are the outcome |
| Digits.FormattedLengthIff | attestor/src/lib.rs:215-219 | there are as many digits as the larger of width and bit length, except for zero at width zero |
| Digits.FormattedFitsIff | attestor/src/lib.rs:474-482 | the digits fit the width exactly when the outcome is below two to the width and the width is not zero |
| Payout.ChainValuePaysOut | wallet/src/utils.rs:65-97 | for collaterals whose sum fits 64 bits, composed with rounding, the payout is monotone in the chain value, between nothing and the total, nothing at zero, and everything from the full-payout value on |
| Payout.TenThousandPaysAll | attestor/observer/src/chains/ethereum/contracts/dlc-manager-v1.ts:60-61 | with 100 outcomes and a shift of two, 10000 pays the total |
| Payout.CurveIff | wallet/src/utils.rs:65-101 | the two pieces exist exactly when full payout lies strictly inside the outcomes, and then join without gap; their full payout is the total collateral exactly when that fits 64 bits, and the wrapped sum otherwise |
| Payout.PayoutMonotone | wallet/src/utils.rs:65-97 | the interpolated payout never decreases and never exceeds the total |
| Payout.PayoutInterpolates | wallet/src/utils.rs:65-97 | up to full payout the payout is the integer nearest to the straight line from nothing at 0 to the total, beyond it the total |
| Payout.OutcomeIsNearest | attestor/observer/src/services/attestor.service.ts:85-93 | the outcome is the integer nearest to the chain value shifted by its decimal places, halves upwards |
| Payout.RoundDivUnique | attestor/observer/src/services/attestor.service.ts:88 | the rounded quotient is the only integer within half a unit, halves upwards |
| Payout.MaxValueFitsDigits | wallet/src/utils.rs:99-101 | the last outcome is the largest number that 14 digits express |
| NonceList.NoncesAreOneUse | storage/api/src/main.rs:157-168 | in every serial run, accepted requests plus listed copies of a nonce never exceed its issues, and the list stays within 100 |
| NonceList.FreshNonceStays | storage/api/src/main.rs:42-50 | an unused nonce is still listed while fewer than 100 are issued after it |
| NonceList.UnusedNonceStays | storage/api/src/main.rs:44-48 | the same from any position in the list |
| NonceList.AcceptedIff | storage/api/src/verify_sigs.rs:130-218 | a request is accepted exactly when it carries a listed nonce signed in its query or repeated in its signed body |
| NonceList.DecisionsExact | storage/api/src/verify_sigs.rs:86-210 | exactly when a request is passed unchecked, aborted, or forbidden |
| NonceList.ContainsIff | storage/api/src/verify_sigs.rs:131-151 | a path contains a part exactly when the part occurs in it |
| NonceList.ReplayRefused | storage/api/src/main.rs:157-168 | a decided request takes exactly the copies of its nonce off the list, so presenting it again is refused unless it was issued again in between |
| NonceList.NonceServer.Handle | storage/api/src/verify_sigs.rs:86-221 | decides on a snapshot, then consumes the nonce, then serves the route |
| NonceList.NonceServer.RequestNonce | storage/api/src/main.rs:42-50 | trims the oldest nonces to make room and appends the new one |
| WebSocket.SubscriptionsConserved | attestor/observer/src/chains/ethereum/utilities/websocket-provider.ts:32-82 | over every sequence of reconnections, openings and registrations the subscriptions carried and held are exactly those registered |
| WebSocket.RequestsConserved | attestor/observer/src/chains/ethereum/utilities/websocket-provider.ts:33-36 | every unanswered request with a distinct id is carried or held, in one of the two |
| WebSocket.OpenHandsEverythingOver | attestor/observer/src/chains/ethereum/utilities/websocket-provider.ts:52-62 | after an opening nothing is left to carry and the connection holds everything |
| WebSocket.ReusedIdLosesIff | attestor/observer/src/chains/ethereum/utilities/websocket-provider.ts:35 | after any run, a request sent on a new connection survives its loss beside all pending ones exactly when its id is not pending |
| WebSocket.ReusedIdOnOpening | attestor/observer/src/chains/ethereum/utilities/websocket-provider.ts:58-62 | when that connection opens instead, the older request replaces it |
| WebSocket.EarlierStayFirst | attestor/observer/src/chains/ethereum/utilities/websocket-provider.ts:32-56 | a reconnection carries older subscriptions before newer ones, and an opening appends the carried ones, last first, to those already held |
| WebSocket.WebSocketProvider.Create | attestor/observer/src/chains/ethereum/utilities/websocket-provider.ts:32-38 | carries over what the lost connection held and starts an empty one |
| WebSocket.WebSocketProvider.HandOverEvents | attestor/observer/src/chains/ethereum/utilities/websocket-provider.ts:52-56 | the pop loop moves the carried subscriptions, last first |
| WebSocket.WebSocketProvider.HandOverRequests | attestor/observer/src/chains/ethereum/utilities/websocket-provider.ts:58-62 | the loop moves each carried request and sends it again once |
| WebSocket.WebSocketProvider.OnOpen | attestor/observer/src/chains/ethereum/utilities/websocket-provider.ts:42-63 | the open handler does both and resends every carried request |
| ChainCache.RefreshListsOutputs | esplora-async-blockchain-provider-js-wallet/src/lib.rs:148-266 | after a successful refresh the cache lists exactly the parseable outputs in order, and each one's transaction is found as fetched |
| ChainCache.ParsedExact | esplora-async-blockchain-provider-js-wallet/src/lib.rs:186-225 | each fetched output whose id parses is listed unchanged after those fetched before it, and nothing else is |
| ChainCache.SumAdds | esplora-async-blockchain-provider-js-wallet/src/lib.rs:281-283 | the sum is additive and the sum of one output is its value |
| ChainCache.EarlierOutputsStayFound | esplora-async-blockchain-provider-js-wallet/src/lib.rs:243-264 | the transactions of outputs of an earlier successful refresh are found after any later refreshes |
| ChainCache.AddTxsEffect | esplora-async-blockchain-provider-js-wallet/src/lib.rs:244-264 | filling the map never removes an entry, and is complete exactly when every transaction can be fetched |
| ChainCache.RefreshSucceedsIff | esplora-async-blockchain-provider-js-wallet/src/lib.rs:148-266 | a refresh succeeds exactly when every request is answered; a failed one keeps the old listing or has the new one, and loses no transaction |
| ChainCache.ChainCacheData.RefreshChainData | esplora-async-blockchain-provider-js-wallet/src/lib.rs:148-266 | the refresh with its early failures, in place |
| ChainCache.ChainCacheData.GetBalance | esplora-async-blockchain-provider-js-wallet/src/lib.rs:281-283 | the sum of the listed values; after a successful refresh that of the parseable outputs fetched |
| ChainCache.FoundWasFetched | esplora-async-blockchain-provider-js-wallet/src/lib.rs:243-264 | what is in the map was fetched by one of the refreshes |
| ChainCache.ChainCacheData.GetTransaction | esplora-async-blockchain-provider-js-wallet/src/lib.rs:343-361 | succeeds for every output of every successful refresh so far, and what it returns some refresh fetched under that id |
| StacksNonce.NoncesIncrease | wallet/wallet-blockchain-interface/src/services/stacks-nonce.service.ts:11-21 | in every interleaving of calls, from the first nonzero nonce on results strictly increase, and none is below the chain nonce its call read |
| StacksNonce.NoncesAreLeast | wallet/wallet-blockchain-interface/src/services/stacks-nonce.service.ts:13-20 | in every interleaving each call gets the least nonce that is not below the chain's and above the last nonzero one, so none is skipped |
| StacksNonce.RepeatsIff | wallet/wallet-blockchain-interface/src/services/stacks-nonce.service.ts:13-20 | a result repeats exactly while both nonces are zero |
| StacksNonce.StacksNonceService.Finish | wallet/wallet-blockchain-interface/src/services/stacks-nonce.service.ts:13-20 | the uninterrupted part of a call takes and stores the next nonce |

## Left out

- Overlapping runs of the periodic check: two of them could write back a stale state; steps are atomic here.
- TwoParty.FundedOnlyWhenBothSigned: is not stated for a contract that is accepted away once signed, because it is false
  there (`Reacceptance.FundedButUnsigned`).
- HTTP, JSON, Base64, SQL connections, logging, metrics and configuration: plumbing; contents are stored as bytes.
- Cryptography, transaction building and the payload codecs: parameters with stated assumptions; the attestor's
  signatures are symbolic.
- Manager.Manager.SendOffer: validating the input, looking up oracle keys, fetching announcements and building the offer are
  one parameter, the offer or the error they end with.
- StorageProvider.Provider.GetContractsByState: rows are listed in table order; a database may choose another order, and the
  manager's listing is in no particular order.
- ContractCodec.SerializeContract: serialising a payload into memory is taken not to fail.
- Payout.CurveIff: the sum of the collaterals wraps as in a release build; a debug build stops instead.
- Payout.ChainValuePaysOut: payouts are exact before they are rounded; floating-point error of the curve evaluation and of the
  quotient is not modelled.
- Hex.EncodeDecodeIff: strings are ASCII; slicing inside a longer character is not modelled.
- NonceList.NonceServer.Handle: requests are served one after the other; overlapping requests share a snapshot and are not
  covered. Every request that does not crash is passed to its route, a forbidden one included, whose status alone is
  overwritten; of the routes only the one that issues nonces is modelled.
- Attestor.RunsStaySound: an event may be attested again with another outcome and the same nonces, as the source allows.
- WebSocket.RequestsConserved: closing with code 1000 and the ping timers only decide whether a reconnection follows; the event
  here is the reconnection itself.
- ChainCache.ChainCacheData.GetBalance: the 64-bit overflow of the sum is not modelled.
- Deleting all contracts or events of a key, deleting single events, and the router's notifications after a pass.
