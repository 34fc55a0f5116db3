# Fungible tokens with accounts on a UTXO ledger — verified model

This project models the CorDapp's own logic for accounts and a fungible
token: the `Token` state and its fungibility rule, the observer that files
every committed token into the token-selection pool, and the three
initiating flows, `CreateAccount`, `IssueTokenFlow` and `RedeemTokenFlow`.
Each flow's `call()` is a chain of lookups and policy checks that may throw,
followed by the assembly of one transaction (inputs, outputs, command, time
window, signatories) and of the sessions to its counterparties. The
transaction and the sessions then go to the platform's `finalize`.

What the platform does is not modelled. Its services are parameters of the
model:

- the vault query `ACCOUNT_INFO_QUERY`, a function from identifier text to
  the accounts found (`Accounts.AccountQuery`);
- member lookup, by ledger key and by X.500 name, plus the node's own
  `MemberInfo` (`Platform.MemberLookup`);
- the notary list;
- token selection's `tryClaim` (`RedeemTokenFlow.TryClaim`);
- the digest service (`Platform.DigestService`);
- the clock (`now`);
- the fresh UUID;
- `finalize` (`Ledger.Finalizer`), which either returns or throws with a
  message that may be null.

Modules, one per source concern:

- `Outcomes`: how `call()` ends, either `Returned(text)` or `Thrown(error)`, and the
  `Result` type the pipelines use with `:-`.
- `Collections`: Kotlin's `first()`, `single()`, `singleOrNull()`, `distinct()` and
  `sumOf`, with the exceptions they raise.
- `Strings`: the template pieces of the messages.
- `Platform`, `Accounts`: platform values and the `AccountInfo` record.
- `Tokens`: `Token.kt`.
- `TokenObserver`: `TokenObserver.kt`.
- `TokenSelection`: claim criteria and claimed tokens, as the redeem flow uses them.
- `Ledger`: the built transaction, and how finalize's outcome becomes the returned text.
- `RedeemTokenFlow`, `IssueTokenFlow`, `CreateAccount`: the flows.
- `TokenLifecycle`: properties that span two flows.

Each flow module has the same parts:

- `Resolve`: the lookups and checks, in source order.
- `Assemble`: the builder chain and the sessions.
- `Plan`: `call()` up to `finalize`.
- `Call`: an imperative method that follows `call()` step by step. It
  returns early on each failed check and appends to a local `sessions` list.
  It is proved to end exactly as `Ledger.Finish(Plan(..), finalize)`, and to
  hand `finalize` exactly `Plan`'s transaction.

## Model

| member | source | states |
|---|---|---|
| `Collections.First` | workflows/src/main/kotlin/com/r3/token/fungible/workflows/RedeemTokenFlow.kt:61 | `first()` gives the head, and raises NoSuchElementException on an empty list |
| `Collections.Single` | workflows/src/main/kotlin/com/r3/token/fungible/workflows/RedeemTokenFlow.kt:59 | `single()` succeeds iff the list has exactly one element; empty raises NoSuchElementException, longer raises IllegalArgumentException |
| `Collections.SingleOrNull` | workflows/src/main/kotlin/com/r3/token/fungible/workflows/RedeemTokenFlow.kt:66 | `singleOrNull()` is non-null iff the list has exactly one element, and is then that element |
| `Collections.Distinct` | workflows/src/main/kotlin/com/r3/token/fungible/workflows/RedeemTokenFlow.kt:112 | `distinct()` has no duplicates and has the same elements as its input |
| `Collections.DistinctKeepsFirstOccurrenceOrder` | workflows/src/main/kotlin/com/r3/token/fungible/workflows/RedeemTokenFlow.kt:112 | `distinct()` lists the elements in the order of their first occurrence in the input; with `Distinct`'s contract this fixes the result completely |
| `Collections.DistinctOfDistinct` | workflows/src/main/kotlin/com/r3/token/fungible/workflows/RedeemTokenFlow.kt:112 | `distinct()` leaves a duplicate-free list unchanged |
| `Collections.DistinctPair` | workflows/src/main/kotlin/com/r3/token/fungible/workflows/RedeemTokenFlow.kt:112 | `listOf(a, b).distinct()` is `[a]` when the keys are equal and `[a, b]` otherwise |
| `Collections.SumOfConcat` | workflows/src/main/kotlin/com/r3/token/fungible/workflows/RedeemTokenFlow.kt:94 | `sumOf` over a concatenation is the sum of the two sums |
| `Collections.SumOfPermutation` | workflows/src/main/kotlin/com/r3/token/fungible/workflows/RedeemTokenFlow.kt:94 | `sumOf` does not depend on the order of the amounts |
| `Strings.NatText` | workflows/src/main/kotlin/com/r3/token/fungible/workflows/RedeemTokenFlow.kt:126 | a whole number is written as a non-empty string of decimal digits that denotes exactly that number, with no leading zero ("0" for zero) |
| `Strings.AmountText` | workflows/src/main/kotlin/com/r3/token/fungible/workflows/RedeemTokenFlow.kt:126 | an amount is written as the decimal digits of its magnitude, without leading zeros ("0" for zero), after a minus sign exactly when it is negative |
| `Strings.NullableText` | workflows/src/main/kotlin/com/r3/accounts/workflows/CreateAccount.kt:97 | a null string in a template reads "null", and any other string reads as itself |
| `Outcomes.OrThrow` | workflows/src/main/kotlin/com/r3/token/fungible/workflows/RedeemTokenFlow.kt:66-68 | `?: throw CordaRuntimeException(msg)` continues iff the value is non-null, and otherwise throws with that message |
| `Tokens.ConstructedToken` | contracts/src/main/kotlin/com/r3/token/fungible/states/Token.kt:14-36 | a token's quantity is its amount, `getParticipants` is the constructor's list, and `issuerHash`/`ownerHash` are the two accounts' hashes |
| `Tokens.FungibleIffSameGroup` | contracts/src/main/kotlin/com/r3/token/fungible/states/Token.kt:49-51 | two tokens are fungible iff they have the same symbol and issuer hash |
| `Tokens.NotFungibleWithOtherStates` | contracts/src/main/kotlin/com/r3/token/fungible/states/Token.kt:50 | a token is never fungible with a fungible state that is not a Token |
| `Tokens.FungibleIsEquivalence` | contracts/src/main/kotlin/com/r3/token/fungible/states/Token.kt:49-51 | among tokens, fungibility is reflexive, symmetric and transitive |
| `Tokens.FungibleIgnoresOtherFields` | contracts/src/main/kotlin/com/r3/token/fungible/states/Token.kt:49-51 | changing amount, tag, owner, participants or non-hash account fields on either side leaves fungibility unchanged |
| `TokenObserver.OnCommitFields` | contracts/src/main/kotlin/com/r3/token/fungible/states/TokenObserver.kt:11-17 | the pool key is (Token's class name, issuer hash, symbol), the amount is the token's, and the filter is (tag, owner hash) |
| `TokenObserver.SamePoolIffFungible` | contracts/src/main/kotlin/com/r3/token/fungible/states/TokenObserver.kt:13 | two tokens get the same pool key iff they are fungible, in both directions |
| `TokenObserver.OnCommitIndependence` | contracts/src/main/kotlin/com/r3/token/fungible/states/TokenObserver.kt:11-17 | onCommit ignores the digest service, the participants, and every account field except the hashes |
| `Ledger.FlowFailedText` | workflows/src/main/kotlin/com/r3/token/fungible/workflows/RedeemTokenFlow.kt:127-129 | every failure message is "Flow failed, message: " followed by the exception's message, or by "null" when it has none |
| `Ledger.FinishNeverThrows` | workflows/src/main/kotlin/com/r3/token/fungible/workflows/RedeemTokenFlow.kt:123-129 | once a transaction is built, call() returns rather than throws: the success text when finalize succeeded, otherwise the failure text with the exception's message |
| `Ledger.FinishReportsOutcome` | workflows/src/main/kotlin/com/r3/token/fungible/workflows/RedeemTokenFlow.kt:123-129 | when the success text is never a failure text (the `TokenLifecycle.*MessagesDistinct` lemmas prove this for all three flows), call() returns the success text iff finalize succeeded |
| `Ledger.StoppedIgnoresFinalize` | workflows/src/main/kotlin/com/r3/token/fungible/workflows/RedeemTokenFlow.kt:66-92 | a flow that stopped before building a transaction ends the same whatever finalize would do |
| `RedeemTokenFlow.Call` | workflows/src/main/kotlin/com/r3/token/fungible/workflows/RedeemTokenFlow.kt:54-130 | the step-by-step call() ends exactly as `Finish(Plan(..))`, and hands finalize exactly the planned transaction and sessions, or nothing when it stops early |
| `RedeemTokenFlow.ResolveSucceedsIff` | workflows/src/main/kotlin/com/r3/token/fungible/workflows/RedeemTokenFlow.kt:59-79 | the checks pass iff: there is one notary; the node has a key; each account query finds exactly one account with exactly one participant; the issuer key has a host; the owner key is hosted on this node. Each resolved value is the looked-up one |
| `RedeemTokenFlow.ResolveFailures` | workflows/src/main/kotlin/com/r3/token/fungible/workflows/RedeemTokenFlow.kt:66-79 | a missing issuer account, missing issuer host, missing owner account, missing owner host, or owner hosted elsewhere each throws its own CordaRuntimeException message |
| `RedeemTokenFlow.FailsBeforeClaim` | workflows/src/main/kotlin/com/r3/token/fungible/workflows/RedeemTokenFlow.kt:77-92 | when a check fails, call() throws and builds nothing, whatever token selection would return |
| `RedeemTokenFlow.ClaimDecides` | workflows/src/main/kotlin/com/r3/token/fungible/workflows/RedeemTokenFlow.kt:91-92 | a failed claim returns the JSON string "Insufficient Token Amount" and builds nothing; a successful claim always builds the transaction from the claimed tokens |
| `RedeemTokenFlow.CriteriaSelectOwnersTokens` | workflows/src/main/kotlin/com/r3/token/fungible/workflows/RedeemTokenFlow.kt:84-90 | the claim criteria select an observed token iff it has the requested symbol, the issuer's hash, the owner's hash and the resolved notary; the claim's target is the requested amount |
| `RedeemTokenFlow.InputsAreClaimedRefs` | workflows/src/main/kotlin/com/r3/token/fungible/workflows/RedeemTokenFlow.kt:93-121 | the inputs are exactly the claimed state refs, in order; the command is Redeem; the window closes a day after now |
| `RedeemTokenFlow.ChangeOutput` | workflows/src/main/kotlin/com/r3/token/fungible/workflows/RedeemTokenFlow.kt:96-104 | there is one output iff claimed sum minus amount is positive. It is a token of that change with the request's symbol, the issuer and owner accounts, the owner's identifier as tag and participants [myKey]. Otherwise there are no outputs |
| `RedeemTokenFlow.Conservation` | workflows/src/main/kotlin/com/r3/token/fungible/workflows/RedeemTokenFlow.kt:94-104 | when the claim covers the amount, claimed sum = redeemed amount + sum of the output amounts |
| `RedeemTokenFlow.ChangeIgnoresClaimOrder` | workflows/src/main/kotlin/com/r3/token/fungible/workflows/RedeemTokenFlow.kt:94-96 | claims holding the same amounts in any order give the same outputs |
| `RedeemTokenFlow.Signatories` | workflows/src/main/kotlin/com/r3/token/fungible/workflows/RedeemTokenFlow.kt:112 | the signatories are the node's key and the issuer's key, nothing else, without duplicates, node key first; there is one signatory iff the two keys coincide |
| `RedeemTokenFlow.SessionToIssuerHost` | workflows/src/main/kotlin/com/r3/token/fungible/workflows/RedeemTokenFlow.kt:106-110 | a session to the issuer's host is opened iff that host is not this node |
| `RedeemTokenFlow.ChangeStaysInPool` | workflows/src/main/kotlin/com/r3/token/fungible/workflows/RedeemTokenFlow.kt:84-104 | the change token is selected by the same claim criteria and is fungible with every token they select |
| `IssueTokenFlow.Call` | workflows/src/main/kotlin/com/r3/token/fungible/workflows/IssueTokenFlow.kt:50-113 | the step-by-step call() ends exactly as `Finish(Plan(..))`, and hands finalize exactly the planned transaction and sessions, or nothing when it stops early |
| `IssueTokenFlow.ResolveSucceedsIff` | workflows/src/main/kotlin/com/r3/token/fungible/workflows/IssueTokenFlow.kt:58-81 | the checks pass iff: there is one notary; the node has a key; the issuer query finds one single-participant account hosted on this node; the owner query finds one single-participant account whose key has a host |
| `IssueTokenFlow.ResolveFailures` | workflows/src/main/kotlin/com/r3/token/fungible/workflows/IssueTokenFlow.kt:67-81 | each failed issuer lookup throws its own message; an issuer hosted elsewhere throws; an owner query that is empty or ambiguous raises `single()`'s exception; a missing owner host throws its message |
| `IssueTokenFlow.IssuerPolicyBeforeOwner` | workflows/src/main/kotlin/com/r3/token/fungible/workflows/IssueTokenFlow.kt:72-79 | with the issuer hosted elsewhere, call() throws the same exception whatever the owner query returns |
| `IssueTokenFlow.IssuedTransaction` | workflows/src/main/kotlin/com/r3/token/fungible/workflows/IssueTokenFlow.kt:83-98 | no inputs and exactly one output. The output has the requested amount and symbol, the issuer and owner accounts, the owner's identifier as tag and participants [myKey]. The command is Issue, the signatories are [myKey], and the window closes a day after now |
| `IssueTokenFlow.IssuedAmount` | workflows/src/main/kotlin/com/r3/token/fungible/workflows/IssueTokenFlow.kt:83-94 | the outputs of an Issue transaction sum to exactly the requested amount |
| `IssueTokenFlow.SessionToOwnerHost` | workflows/src/main/kotlin/com/r3/token/fungible/workflows/IssueTokenFlow.kt:100-104 | a session to the owner's host is opened iff that host is not this node; otherwise there are none |
| `CreateAccount.Call` | workflows/src/main/kotlin/com/r3/accounts/workflows/CreateAccount.kt:55-101 | the step-by-step call() ends exactly as `Finish(Plan(..))`, and hands finalize exactly the planned transaction and sessions, or nothing when it stops early |
| `CreateAccount.NewAccountFields` | workflows/src/main/kotlin/com/r3/accounts/workflows/CreateAccount.kt:67-76 | the new account's identifier is the UUID and its hash is the SHA-256 digest of the UUID's text. Its metadata is the request's, unchanged, and its only participant is myKey |
| `CreateAccount.HashDependsOnlyOnUuid` | workflows/src/main/kotlin/com/r3/accounts/workflows/CreateAccount.kt:67-69 | the account hash is determined by the UUID alone |
| `CreateAccount.PlanSucceedsIff` | workflows/src/main/kotlin/com/r3/accounts/workflows/CreateAccount.kt:63-92 | finalize is reached iff there is one notary, the node has a key, and the share party, when one is named, is found. The transaction then has no inputs, the new account as its only output, command Create and signatories [myKey] |
| `CreateAccount.ShareSessionsCases` | workflows/src/main/kotlin/com/r3/accounts/workflows/CreateAccount.kt:86-92 | no share party gives no sessions; a found one gives exactly its session; an unknown one throws before finalize |
| `CreateAccount.SuccessTextCarriesIdAndMetadata` | workflows/src/main/kotlin/com/r3/accounts/workflows/CreateAccount.kt:97 | the success message carries the UUID text and then the metadata, or "null" when there is none |
| `TokenLifecycle.IssuedTokenIsClaimable` | workflows/src/main/kotlin/com/r3/token/fungible/workflows/IssueTokenFlow.kt:83-90 | an issued token is selected by the claim criteria of a redeem with the same symbol, accounts and notary |
| `TokenLifecycle.IssueThenRedeemPart` | workflows/src/main/kotlin/com/r3/token/fungible/workflows/RedeemTokenFlow.kt:84-104 | redeeming part of an issued token consumes exactly that token. It yields one change token of the difference, fungible with the issued token and owned by the same account |
| `TokenLifecycle.RedeemMessagesDistinct` | workflows/src/main/kotlin/com/r3/token/fungible/workflows/RedeemTokenFlow.kt:92-129 | the redeem success, insufficient-amount and failure messages are pairwise different |
| `TokenLifecycle.IssueMessagesDistinct` | workflows/src/main/kotlin/com/r3/token/fungible/workflows/IssueTokenFlow.kt:106-112 | the issue success message differs from every failure message |
| `TokenLifecycle.CreateMessagesDistinct` | workflows/src/main/kotlin/com/r3/accounts/workflows/CreateAccount.kt:94-100 | the account-creation success message differs from every failure message |

## Left out

- Token selection (`tryClaim`): which records are claimed, their exclusive reservation against concurrent claims, and their release. These are platform code and are a parameter here. The redeem flow is modelled for every claim the platform could return.
- Finalisation (`finalize` / `receiveFinality`): signing, collecting signatures, notarisation and distribution to counterparties. These are platform code and are a parameter. Only its outcome is modelled: success, or an exception with a possibly null message.
- The responder flows of all three protocols: they only call `receiveFinality` with an empty check and log.
- `GetTokenBalanceFlow`: its balance is the platform's `queryBalance`, and its own summation is commented out.
- `TokenQueryFactory`, `AccountInfoQueryFactory`, `TokenJsonFactory`, `AccountInfoJsonFactory`: they register query and JSON text with platform services. The account query is modelled only as a function from identifier to results.
- `AccountInfoContract` has an empty `verify`. `TokenContract` is not part of this model. Contract verification is therefore not modelled.
- Request deserialisation (`getRequestBodyAs`): requests are given as datatypes. Malformed JSON is not modelled.
- BigDecimal: amounts are whole integers. Scale, fractional amounts and BigDecimal's own `toString` are not modelled. `AmountText` writes an integer in decimal digits.
- `Strings.AmountText`: renders only whole amounts, because BigDecimal's scale is not modelled.
- Transaction signing by `toSignedTransaction`, transaction ids, and any exception the builder itself may raise.
- `Instant.now()` passed as `setCreatedTimestampLimit` to the account queries. Only the time window's instant is modelled: the parameter `now`, plus one day.
- `MemberX500Name.parse`: a malformed share-party name is treated as an unknown member. Both throw, but the source raises the parser's exception in that case, not the flow's message.
- Kotlin's exception messages for `first()`/`single()`: only the exception class is modelled.
- The tag-regex filter of claim criteria: the flows never set it.
- `TokenObserver.getStateType`, `Token.toString`, and logging.
- Random UUID generation and the SHA-256 function itself: the UUID is a parameter, and the digest is an uninterpreted function.

## Notes on the code

- On a failed claim the redeem flow returns the JSON encoding of "Insufficient Token Amount", quotes included.
- The flows check neither conservation nor a non-empty signatory list. `RedeemTokenFlow.Conservation` and `RedeemTokenFlow.Signatories` prove that the assembly guarantees both, conservation when the claim covers the amount.
- Neither flow checks that the requested amount is positive. For a negative redeem amount the change exceeds the claimed sum.
- In a redeem, only the owner's host must be this node. The signatories are this node's first ledger key and the issuer's key, not the owner account's key.
- "Hosted on this node" means the looked-up `MemberInfo` equals this node's own `MemberInfo` as a whole value, context included (`Platform.MemberInfo`). A lookup that returns this node's name and keys under a different context counts as another host.
