/** What a flow hands to `utxoLedgerService.finalize`, and how the outcome of
    finalisation becomes the string call() returns. The transaction is the
    content the builder chain accumulates; signing, notarisation and
    distribution are the platform's and are a parameter here. */
module Ledger {
  import opened Outcomes
  import opened Platform
  import opened Accounts
  import opened Tokens
  import Strings

  datatype Command =
    | TokenIssue     // TokenContract.Issue
    | TokenRedeem    // TokenContract.Redeem
    | AccountCreate  // AccountInfoCommands.Create

  datatype OutputState = TokenState(token: Token) | AccountState(account: AccountInfo)

  /** The transaction as the builder chain leaves it: notary, input refs,
      output states, commands, the end of the time window, signatories. */
  datatype UtxoTransaction = UtxoTransaction(
    notary: MemberName,
    inputs: seq<StateRef>,
    outputs: seq<OutputState>,
    commands: seq<Command>,
    timeWindowUntil: Instant,
    signatories: seq<PublicKey>)

  /** The amounts of the Token outputs of a transaction, in order. */
  function TokenAmounts(outputs: seq<OutputState>): seq<int> {
    if |outputs| == 0 then []
    else (if outputs[0].TokenState? then [outputs[0].token.amount] else []) + TokenAmounts(outputs[1..])
  }

  /** A finalize call: the transaction, the sessions to its counterparties,
      and the message call() returns when finalisation succeeds. */
  datatype Submission = Submission(
    transaction: UtxoTransaction,
    sessions: seq<FlowSession>,
    successText: string)

  /** What `finalize` did: it returned, or it threw an exception whose
      message may be null. */
  datatype FinalizeResult = Finalized | FinalizeFailed(message: Option<string>)

  /** The platform's finalisation, as seen by the initiator. */
  type Finalizer = (UtxoTransaction, seq<FlowSession>) -> FinalizeResult

  const FlowFailedPrefix: string := "Flow failed, message: "

  function FlowFailedText(message: Option<string>): (t: string)
    ensures |t| >= |FlowFailedPrefix| && t[..|FlowFailedPrefix|] == FlowFailedPrefix
    ensures t[|FlowFailedPrefix|..] == Strings.NullableText(message)
  {
    FlowFailedPrefix + Strings.NullableText(message)
  }

  /** The end of call() once the flow has got as far as finalize: every
      exception finalize throws is caught and returned as a message. */
  function Finish(p: Result<Submission>, finalize: Finalizer): Exit {
    match p
    case Stop(exit) => exit
    case Ok(s) =>
      match finalize(s.transaction, s.sessions)
      case Finalized => Returned(s.successText)
      case FinalizeFailed(m) => Returned(FlowFailedText(m))
  }

  /** Once a transaction has been built, call() throws nothing: it returns
      the success message when finalize succeeded, and otherwise the failure
      message carrying the exception's message. */
  lemma FinishNeverThrows(s: Submission, finalize: Finalizer)
    ensures Finish(Ok(s), finalize).Returned?
    ensures finalize(s.transaction, s.sessions).Finalized? ==> Finish(Ok(s), finalize).text == s.successText
    ensures finalize(s.transaction, s.sessions).FinalizeFailed? ==>
      Finish(Ok(s), finalize).text == FlowFailedText(finalize(s.transaction, s.sessions).message)
  {
  }

  /** When the success message is not a failure message (as
      `TokenLifecycle`'s `*MessagesDistinct` lemmas show for all three flows),
      the returned text tells whether finalize succeeded. */
  lemma FinishReportsOutcome(s: Submission, finalize: Finalizer)
    requires forall m :: s.successText != FlowFailedText(m)
    ensures Finish(Ok(s), finalize) == Returned(s.successText) <==>
      finalize(s.transaction, s.sessions).Finalized?
  {
    if finalize(s.transaction, s.sessions).FinalizeFailed? {
      assert s.successText != FlowFailedText(finalize(s.transaction, s.sessions).message);
    }
  }

  /** A flow that stopped before building a transaction never reaches
      finalize: its outcome does not depend on it. */
  lemma StoppedIgnoresFinalize(e: Exit, f1: Finalizer, f2: Finalizer)
    ensures Finish(Stop(e), f1) == Finish(Stop(e), f2) == e
  {
  }
}
