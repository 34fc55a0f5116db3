/** RedeemTokenFlow.call(): resolve the issuer and owner accounts and their
    hosts, insist that the owner is hosted here, claim tokens of the owner
    in the issuer's pool for the symbol, and build a Redeem transaction that
    consumes the claimed tokens and gives the owner back any change. */
module RedeemTokenFlow {
  import opened Outcomes
  import opened Platform
  import opened Accounts
  import opened Tokens
  import opened TokenObserver
  import opened TokenSelection
  import opened Ledger
  import opened Collections
  import opened Strings

  datatype RedeemTokenRequest = RedeemTokenRequest(
    issuerId: string,
    ownerId: string,
    symbol: string,
    amount: int)

  /** `tokenSelection.tryClaim(deduplicationId, criteria)` */
  type TryClaim = (string, TokenClaimCriteria) -> Option<TokenClaim>

  const ClaimId: string := "redeem"

  const IssuerNotFound: string := "Issuer Account not found."
  const IssuerHostNotFound: string := "Issuer Host not found."
  const OwnerNotFound: string := "Owner Account not found."
  const OwnerHostNotFound: string := "Owner Host not found."
  const OwnerNotHosted: string := "Owner Account should be hosted on initiator node."

  /** `jsonMarshallingService.format("Insufficient Token Amount")`: the
      message as a JSON string literal, quotes included. */
  const InsufficientText: string := "\"Insufficient Token Amount\""

  /** What the lookups and checks of call() resolve before the claim. */
  datatype Resolved = Resolved(
    notary: NotaryInfo,
    myKey: PublicKey,
    issuer: AccountInfo,
    issuerKey: PublicKey,
    issuerHost: MemberInfo,
    owner: AccountInfo,
    ownerKey: PublicKey,
    ownerHost: MemberInfo)

  /** The lookups and the hosting check, in the order call() makes them. */
  function Resolve(request: RedeemTokenRequest, notaries: seq<NotaryInfo>, members: MemberLookup,
                   accounts: AccountQuery): Result<Resolved>
  {
    var notary :- Single(notaries);
    var myKey :- First(members.myInfo.ledgerKeys);
    var issuer :- OrThrow(SingleOrNull(accounts(request.issuerId)), IssuerNotFound);
    var issuerKey :- Single(issuer.participants);
    var issuerHost :- OrThrow(members.byKey(issuerKey), IssuerHostNotFound);
    var owner :- OrThrow(SingleOrNull(accounts(request.ownerId)), OwnerNotFound);
    var ownerKey :- Single(owner.participants);
    var ownerHost :- OrThrow(members.byKey(ownerKey), OwnerHostNotFound);
    if ownerHost != members.myInfo then Stop(Thrown(CordaRuntimeException(OwnerNotHosted)))
    else Ok(Resolved(notary, myKey, issuer, issuerKey, issuerHost, owner, ownerKey, ownerHost))
  }

  /** The claim criteria: the Token pool of the issuer's hash and the symbol,
      at the notary, for the requested amount, filtered to the owner's hash. */
  function Criteria(request: RedeemTokenRequest, r: Resolved): TokenClaimCriteria {
    TokenClaimCriteria(TokenType, r.issuer.accountHash, r.notary.name, request.symbol, request.amount,
                       Some(r.owner.accountHash))
  }

  function ClaimedSum(claimed: seq<ClaimedToken>): int {
    SumOf(Amounts(claimed))
  }

  /** The change token, present only when the claimed tokens exceed the
      requested amount. */
  function ChangeToken(request: RedeemTokenRequest, r: Resolved, claimed: seq<ClaimedToken>): Option<Token> {
    var change := ClaimedSum(claimed) - request.amount;
    if change > 0 then Some(Token(request.symbol, change, r.owner.identifier.text, r.issuer, r.owner, [r.myKey]))
    else None
  }

  /** The sessions call() opens: one to the issuer's host unless that is
      this node. */
  function Sessions(r: Resolved, myInfo: MemberInfo): seq<FlowSession> {
    if r.issuerHost != myInfo then [FlowSession(r.issuerHost.name)] else []
  }

  function SuccessText(request: RedeemTokenRequest): string {
    "Successfully Redeemed " + AmountText(request.amount) + request.symbol
  }

  /** The builder chain and the sessions, once the claim has succeeded. */
  function Assemble(request: RedeemTokenRequest, r: Resolved, myInfo: MemberInfo, claimed: seq<ClaimedToken>,
                    now: Instant): Submission
  {
    var change := ChangeToken(request, r, claimed);
    var tx := UtxoTransaction(
      r.notary.name,
      StateRefs(claimed),
      if change.Some? then [TokenState(change.value)] else [],
      [TokenRedeem],
      now + OneDay,
      Distinct([r.myKey, r.issuerKey]));
    Submission(tx, Sessions(r, myInfo), SuccessText(request))
  }

  /** call() up to finalize: the transaction it would finalize, or how it
      ended before that. */
  function Plan(request: RedeemTokenRequest, notaries: seq<NotaryInfo>, members: MemberLookup,
                accounts: AccountQuery, tryClaim: TryClaim, now: Instant): Result<Submission>
  {
    var r :- Resolve(request, notaries, members, accounts);
    match tryClaim(ClaimId, Criteria(request, r))
    case None => Stop(Returned(InsufficientText))
    case Some(claim) => Ok(Assemble(request, r, members.myInfo, claim.claimedTokens, now))
  }

  /** call(), step by step. `submitted` is what was handed to finalize, if
      call() got that far. */
  method Call(request: RedeemTokenRequest, notaries: seq<NotaryInfo>, members: MemberLookup,
              accounts: AccountQuery, tryClaim: TryClaim, now: Instant, finalize: Finalizer)
    returns (exit: Exit, submitted: Option<Submission>)
    ensures var p := Plan(request, notaries, members, accounts, tryClaim, now);
      && exit == Finish(p, finalize)
      && submitted == (if p.Ok? then Some(p.value) else None)
  {
    submitted := None;

    var notaryInfo := Single(notaries);
    if notaryInfo.Stop? { return notaryInfo.exit, None; }
    var myKey := First(members.myInfo.ledgerKeys);
    if myKey.Stop? { return myKey.exit, None; }

    var issuerAccountInfo := OrThrow(SingleOrNull(accounts(request.issuerId)), IssuerNotFound);
    if issuerAccountInfo.Stop? { return issuerAccountInfo.exit, None; }
    var issuerKey := Single(issuerAccountInfo.value.participants);
    if issuerKey.Stop? { return issuerKey.exit, None; }
    var issuerHost := OrThrow(members.byKey(issuerKey.value), IssuerHostNotFound);
    if issuerHost.Stop? { return issuerHost.exit, None; }

    var ownerAccountInfo := OrThrow(SingleOrNull(accounts(request.ownerId)), OwnerNotFound);
    if ownerAccountInfo.Stop? { return ownerAccountInfo.exit, None; }
    var ownerKey := Single(ownerAccountInfo.value.participants);
    if ownerKey.Stop? { return ownerKey.exit, None; }
    var ownerHost := OrThrow(members.byKey(ownerKey.value), OwnerHostNotFound);
    if ownerHost.Stop? { return ownerHost.exit, None; }

    if ownerHost.value != members.myInfo {
      return Thrown(CordaRuntimeException(OwnerNotHosted)), None;
    }

    var issuer, owner := issuerAccountInfo.value, ownerAccountInfo.value;
    var criteria := TokenClaimCriteria(TokenType, issuer.accountHash, notaryInfo.value.name, request.symbol,
                                       request.amount, Some(owner.accountHash));
    var claim := tryClaim(ClaimId, criteria);
    if claim.None? {
      return Returned(InsufficientText), None;
    }
    var spentTokenRefs := StateRefs(claim.value.claimedTokens);
    var spentTokenAmount := SumOf(Amounts(claim.value.claimedTokens));

    var changeAmount := spentTokenAmount - request.amount;
    var outputs: seq<OutputState> := [];
    if changeAmount > 0 {
      var changeToken := Token(request.symbol, changeAmount, owner.identifier.text, issuer, owner, [myKey.value]);
      outputs := [TokenState(changeToken)];
    }

    var sessions: seq<FlowSession> := [];
    if issuerHost.value != members.myInfo {
      sessions := sessions + [FlowSession(issuerHost.value.name)];
    }

    var requiredKeys := Distinct([myKey.value, issuerKey.value]);
    var transaction := UtxoTransaction(notaryInfo.value.name, spentTokenRefs, outputs, [TokenRedeem],
                                       now + OneDay, requiredKeys);

    var successText := "Successfully Redeemed " + AmountText(request.amount) + request.symbol;
    submitted := Some(Submission(transaction, sessions, successText));
    ghost var r := Resolved(notaryInfo.value, myKey.value, issuer, issuerKey.value, issuerHost.value,
                            owner, ownerKey.value, ownerHost.value);
    assert Resolve(request, notaries, members, accounts) == Ok(r);
    assert criteria == Criteria(request, r);
    assert successText == SuccessText(request);
    assert sessions == Sessions(r, members.myInfo);
    assert spentTokenAmount == ClaimedSum(claim.value.claimedTokens);
    assert outputs == (var change := ChangeToken(request, r, claim.value.claimedTokens);
                       if change.Some? then [TokenState(change.value)] else []);
    assert submitted.value == Assemble(request, r, members.myInfo, claim.value.claimedTokens, now);
    match finalize(transaction, sessions)
    case Finalized => exit := Returned(successText);
    case FinalizeFailed(message) => exit := Returned(FlowFailedText(message));
  }

  // ---- The lookups and the hosting policy ----

  /** The checks before the claim pass exactly when there is one notary, this
      node has a ledger key, each account query finds exactly one account with
      exactly one participant, the issuer's key has a host, and the owner's
      key is hosted on this very node. */
  lemma ResolveSucceedsIff(request: RedeemTokenRequest, notaries: seq<NotaryInfo>, members: MemberLookup,
                           accounts: AccountQuery)
    ensures Resolve(request, notaries, members, accounts).Ok? <==>
      && |notaries| == 1
      && |members.myInfo.ledgerKeys| > 0
      && |accounts(request.issuerId)| == 1
      && |accounts(request.issuerId)[0].participants| == 1
      && members.byKey(accounts(request.issuerId)[0].participants[0]).Some?
      && |accounts(request.ownerId)| == 1
      && |accounts(request.ownerId)[0].participants| == 1
      && members.byKey(accounts(request.ownerId)[0].participants[0]) == Some(members.myInfo)
    ensures Resolve(request, notaries, members, accounts).Ok? ==>
      var r := Resolve(request, notaries, members, accounts).value;
      && r.notary == notaries[0]
      && r.myKey == members.myInfo.ledgerKeys[0]
      && r.issuer == accounts(request.issuerId)[0]
      && r.issuerKey == r.issuer.participants[0]
      && members.byKey(r.issuerKey) == Some(r.issuerHost)
      && r.owner == accounts(request.ownerId)[0]
      && r.ownerKey == r.owner.participants[0]
      && r.ownerHost == members.myInfo
  {
  }

  /** Each failed lookup ends call() with its own exception: a missing or
      ambiguous account, an issuer key with no host, an owner key with no
      host, and an owner hosted elsewhere. */
  lemma ResolveFailures(request: RedeemTokenRequest, notaries: seq<NotaryInfo>, members: MemberLookup,
                        accounts: AccountQuery)
    requires |notaries| == 1 && |members.myInfo.ledgerKeys| > 0
    ensures var res := Resolve(request, notaries, members, accounts);
      var issuers := accounts(request.issuerId);
      var owners := accounts(request.ownerId);
      && (|issuers| != 1 ==> res == Stop(Thrown(CordaRuntimeException(IssuerNotFound))))
      && (|issuers| == 1 && |issuers[0].participants| == 1 ==>
           (members.byKey(issuers[0].participants[0]).None? ==>
              res == Stop(Thrown(CordaRuntimeException(IssuerHostNotFound))))
           && (members.byKey(issuers[0].participants[0]).Some? ==>
                 && (|owners| != 1 ==> res == Stop(Thrown(CordaRuntimeException(OwnerNotFound))))
                 && (|owners| == 1 && |owners[0].participants| == 1 ==>
                       && (members.byKey(owners[0].participants[0]).None? ==>
                             res == Stop(Thrown(CordaRuntimeException(OwnerHostNotFound))))
                       && (members.byKey(owners[0].participants[0]).Some? &&
                           members.byKey(owners[0].participants[0]).value != members.myInfo ==>
                             res == Stop(Thrown(CordaRuntimeException(OwnerNotHosted)))))))
  {
  }

  /** When the checks before the claim fail, call() ends with their
      exception: token selection is never asked and no transaction is built,
      whatever the claim would have returned. */
  lemma FailsBeforeClaim(request: RedeemTokenRequest, notaries: seq<NotaryInfo>, members: MemberLookup,
                         accounts: AccountQuery, c1: TryClaim, c2: TryClaim, now: Instant)
    requires Resolve(request, notaries, members, accounts).Stop?
    ensures Plan(request, notaries, members, accounts, c1, now) == Plan(request, notaries, members, accounts, c2, now)
    ensures Plan(request, notaries, members, accounts, c1, now).Stop?
    ensures Plan(request, notaries, members, accounts, c1, now).exit.Thrown?
  {
  }

  /** A claim that fails ends call() with the JSON-formatted "Insufficient
      Token Amount" string and builds no transaction; a claim that succeeds
      always leads to a transaction built from exactly the claimed tokens. */
  lemma ClaimDecides(request: RedeemTokenRequest, notaries: seq<NotaryInfo>, members: MemberLookup,
                     accounts: AccountQuery, tryClaim: TryClaim, now: Instant)
    requires Resolve(request, notaries, members, accounts).Ok?
    ensures var r := Resolve(request, notaries, members, accounts).value;
      var claim := tryClaim(ClaimId, Criteria(request, r));
      var p := Plan(request, notaries, members, accounts, tryClaim, now);
      && (claim.None? ==> p == Stop(Returned(InsufficientText)))
      && (claim.Some? ==> p == Ok(Assemble(request, r, members.myInfo, claim.value.claimedTokens, now)))
  {
  }

  // ---- The claim criteria against the observer's pool ----

  /** The criteria select exactly the committed tokens of the requested
      symbol issued by the issuer account and owned by the owner account (by
      hash), at the resolved notary: the observer's pool key and owner filter
      are the criteria's. The claim's target is the requested amount. */
  lemma CriteriaSelectOwnersTokens(request: RedeemTokenRequest, r: Resolved, t: Token, d: DigestService,
                                   notary: MemberName)
    ensures Selects(Criteria(request, r), OnCommit(t, d), notary) <==>
      && t.symbol == request.symbol
      && t.IssuerHash() == r.issuer.accountHash
      && t.OwnerHash() == r.owner.accountHash
      && notary == r.notary.name
    ensures Criteria(request, r).targetAmount == request.amount
  {
  }

  // ---- The transaction ----

  /** The inputs are exactly the claimed state refs, in the claim's order;
      the only command is Redeem and the time window closes one day after
      `now`. */
  lemma InputsAreClaimedRefs(request: RedeemTokenRequest, r: Resolved, myInfo: MemberInfo,
                             claimed: seq<ClaimedToken>, now: Instant)
    ensures var tx := Assemble(request, r, myInfo, claimed, now).transaction;
      && |tx.inputs| == |claimed|
      && (forall i :: 0 <= i < |claimed| ==> tx.inputs[i] == claimed[i].stateRef)
      && tx.commands == [TokenRedeem]
      && tx.timeWindowUntil == now + OneDay
      && tx.notary == r.notary.name
  {
  }

  /** There is one output exactly when the claimed sum exceeds the requested
      amount: a Token of the change, of the same symbol, issuer and owner,
      tagged with the owner's identifier, held by this node's key. Otherwise
      there are no outputs. */
  lemma ChangeOutput(request: RedeemTokenRequest, r: Resolved, myInfo: MemberInfo,
                     claimed: seq<ClaimedToken>, now: Instant)
    ensures var tx := Assemble(request, r, myInfo, claimed, now).transaction;
      var change := ClaimedSum(claimed) - request.amount;
      && (|tx.outputs| == 1 <==> change > 0)
      && (change <= 0 ==> tx.outputs == [])
      && (change > 0 ==>
            && tx.outputs[0].TokenState?
            && var t := tx.outputs[0].token;
            && t.amount == change
            && t.symbol == request.symbol
            && t.issuerAccount == r.issuer
            && t.ownerAccount == r.owner
            && t.tag == r.owner.identifier.text
            && t.Participants() == [r.myKey])
  {
  }

  /** Conservation: when the claim covers the requested amount, what the
      inputs hold is the redeemed amount plus what the outputs hold. */
  lemma {:induction false} Conservation(request: RedeemTokenRequest, r: Resolved, myInfo: MemberInfo,
                                        claimed: seq<ClaimedToken>, now: Instant)
    requires ClaimedSum(claimed) >= request.amount
    ensures ClaimedSum(claimed) ==
      request.amount + SumOf(TokenAmounts(Assemble(request, r, myInfo, claimed, now).transaction.outputs))
  {
    var outputs := Assemble(request, r, myInfo, claimed, now).transaction.outputs;
    if ClaimedSum(claimed) - request.amount > 0 {
      var t := ChangeToken(request, r, claimed).value;
      assert outputs == [TokenState(t)];
      assert TokenAmounts(outputs) == [t.amount] by {
        assert outputs[1..] == [];
      }
      assert SumOf([t.amount]) == t.amount by {
        assert [t.amount][..0] == [];
      }
    } else {
      assert outputs == [];
    }
  }

  /** The change does not depend on the order in which the claim lists its
      tokens: two claims holding the same amounts give the same outputs. */
  lemma ChangeIgnoresClaimOrder(request: RedeemTokenRequest, r: Resolved, myInfo: MemberInfo,
                                c1: seq<ClaimedToken>, c2: seq<ClaimedToken>, now: Instant)
    requires multiset(Amounts(c1)) == multiset(Amounts(c2))
    ensures Assemble(request, r, myInfo, c1, now).transaction.outputs ==
            Assemble(request, r, myInfo, c2, now).transaction.outputs
  {
    SumOfPermutation(Amounts(c1), Amounts(c2));
  }

  /** The signatories are this node's key and the issuer's key, each once,
      this node's key first: one signatory when they coincide, two otherwise. */
  lemma Signatories(request: RedeemTokenRequest, r: Resolved, myInfo: MemberInfo,
                    claimed: seq<ClaimedToken>, now: Instant)
    ensures var keys := Assemble(request, r, myInfo, claimed, now).transaction.signatories;
      && r.myKey in keys && r.issuerKey in keys
      && (forall k :: k in keys ==> k == r.myKey || k == r.issuerKey)
      && NoDuplicates(keys)
      && keys[0] == r.myKey
      && (|keys| == 1 <==> r.myKey == r.issuerKey)
  {
    var keys := Assemble(request, r, myInfo, claimed, now).transaction.signatories;
    assert keys == Distinct([r.myKey, r.issuerKey]);
    DistinctPair(r.myKey, r.issuerKey);
    if r.myKey == r.issuerKey {
      assert keys == [r.myKey];
    } else {
      assert keys == [r.myKey, r.issuerKey];
    }
  }

  /** A session is opened, to the issuer's host, exactly when the issuer is
      hosted on another node. */
  lemma SessionToIssuerHost(request: RedeemTokenRequest, r: Resolved, myInfo: MemberInfo,
                            claimed: seq<ClaimedToken>, now: Instant)
    ensures var sessions := Assemble(request, r, myInfo, claimed, now).sessions;
      && (sessions == [] <==> r.issuerHost == myInfo)
      && (r.issuerHost != myInfo ==> sessions == [FlowSession(r.issuerHost.name)])
  {
  }

  /** The change token goes back into the pool the claim drew from: the same
      criteria select it, and it is fungible with every token they select. */
  lemma ChangeStaysInPool(request: RedeemTokenRequest, r: Resolved, claimed: seq<ClaimedToken>,
                          t: Token, d: DigestService)
    requires ChangeToken(request, r, claimed).Some?
    requires Selects(Criteria(request, r), OnCommit(t, d), r.notary.name)
    ensures var change := ChangeToken(request, r, claimed).value;
      && Selects(Criteria(request, r), OnCommit(change, d), r.notary.name)
      && Fungible(change, t)
  {
  }
}
