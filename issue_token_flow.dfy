/** IssueTokenFlow.call(): resolve the issuer account, insist that it is
    hosted here, resolve the owner account, and build an Issue transaction
    with one new Token of the requested amount for the owner. */
module IssueTokenFlow {
  import opened Outcomes
  import opened Platform
  import opened Accounts
  import opened Tokens
  import opened Ledger
  import opened Collections
  import opened Strings

  datatype IssueTokenRequest = IssueTokenRequest(
    ownerId: string,
    issuerId: string,
    symbol: string,
    amount: int)

  const IssuerNotFound: string := "Issuer Account not found."
  const IssuerHostNotFound: string := "Issuer Host not found."
  const IssuerNotHosted: string := "Issuer Account should be hosted on initiator node."
  const OwnerHostNotFound: string := "Owner Host not found."

  /** What the lookups and checks of call() resolve. */
  datatype Resolved = Resolved(
    notary: NotaryInfo,
    myKey: PublicKey,
    issuer: AccountInfo,
    issuerKey: PublicKey,
    issuerHost: MemberInfo,
    owner: AccountInfo,
    ownerKey: PublicKey,
    ownerHost: MemberInfo)

  /** The lookups and the hosting check, in the order call() makes them. The
      owner query goes through `single()`, not `singleOrNull()`, so a missing
      owner raises Kotlin's exception rather than a message of the flow's. */
  function Resolve(request: IssueTokenRequest, notaries: seq<NotaryInfo>, members: MemberLookup,
                   accounts: AccountQuery): Result<Resolved>
  {
    var notary :- Single(notaries);
    var myKey :- First(members.myInfo.ledgerKeys);
    var issuer :- OrThrow(SingleOrNull(accounts(request.issuerId)), IssuerNotFound);
    var issuerKey :- Single(issuer.participants);
    var issuerHost :- OrThrow(members.byKey(issuerKey), IssuerHostNotFound);
    if issuerHost != members.myInfo then Stop(Thrown(CordaRuntimeException(IssuerNotHosted)))
    else
      var owner :- Single(accounts(request.ownerId));
      var ownerKey :- Single(owner.participants);
      var ownerHost :- OrThrow(members.byKey(ownerKey), OwnerHostNotFound);
      Ok(Resolved(notary, myKey, issuer, issuerKey, issuerHost, owner, ownerKey, ownerHost))
  }

  /** The token to issue: the requested amount of the symbol, issued by the
      issuer account to the owner account, tagged with the owner's
      identifier, held by this node's key. */
  function NewToken(request: IssueTokenRequest, r: Resolved): Token {
    Token(request.symbol, request.amount, r.owner.identifier.text, r.issuer, r.owner, [r.myKey])
  }

  /** The sessions call() opens: one to the owner's host unless that is this
      node. */
  function Sessions(r: Resolved, myInfo: MemberInfo): seq<FlowSession> {
    if r.ownerHost != myInfo then [FlowSession(r.ownerHost.name)] else []
  }

  function SuccessText(t: Token, owner: AccountInfo): string {
    "Successfully Issued New Token(symbol:" + t.symbol + ", amount:" + AmountText(t.amount) + ") To "
      + owner.identifier.text
  }

  /** The builder chain and the sessions. */
  function Assemble(request: IssueTokenRequest, r: Resolved, myInfo: MemberInfo, now: Instant): Submission {
    var token := NewToken(request, r);
    var tx := UtxoTransaction(r.notary.name, [], [TokenState(token)], [TokenIssue], now + OneDay, [r.myKey]);
    Submission(tx, Sessions(r, myInfo), SuccessText(token, r.owner))
  }

  /** call() up to finalize. */
  function Plan(request: IssueTokenRequest, notaries: seq<NotaryInfo>, members: MemberLookup,
                accounts: AccountQuery, now: Instant): Result<Submission>
  {
    var r :- Resolve(request, notaries, members, accounts);
    Ok(Assemble(request, r, members.myInfo, now))
  }

  /** call(), step by step. `submitted` is what was handed to finalize, if
      call() got that far. */
  method Call(request: IssueTokenRequest, notaries: seq<NotaryInfo>, members: MemberLookup,
              accounts: AccountQuery, now: Instant, finalize: Finalizer)
    returns (exit: Exit, submitted: Option<Submission>)
    ensures var p := Plan(request, notaries, members, accounts, now);
      && exit == Finish(p, finalize)
      && submitted == (if p.Ok? then Some(p.value) else None)
  {
    submitted := None;

    var notaryInfo := Single(notaries);
    if notaryInfo.Stop? { return notaryInfo.exit, None; }
    var myKey := First(members.myInfo.ledgerKeys);
    if myKey.Stop? { return myKey.exit, None; }

    var issuerAccountInfo := OrThrow(SingleOrNull(accounts(request.issuerId)), IssuerNotFound);
    if issuerAccountInfo.Stop? { return issuerAccountInfo.exit, None; }
    var issuerKey := Single(issuerAccountInfo.value.participants);
    if issuerKey.Stop? { return issuerKey.exit, None; }
    var issuerHost := OrThrow(members.byKey(issuerKey.value), IssuerHostNotFound);
    if issuerHost.Stop? { return issuerHost.exit, None; }

    if issuerHost.value != members.myInfo {
      return Thrown(CordaRuntimeException(IssuerNotHosted)), None;
    }

    var ownerAccountInfo := Single(accounts(request.ownerId));
    if ownerAccountInfo.Stop? { return ownerAccountInfo.exit, None; }
    var ownerKey := Single(ownerAccountInfo.value.participants);
    if ownerKey.Stop? { return ownerKey.exit, None; }
    var ownerHost := OrThrow(members.byKey(ownerKey.value), OwnerHostNotFound);
    if ownerHost.Stop? { return ownerHost.exit, None; }

    var issuer, owner := issuerAccountInfo.value, ownerAccountInfo.value;
    var newToken := Token(request.symbol, request.amount, owner.identifier.text, issuer, owner, [myKey.value]);
    var transaction := UtxoTransaction(notaryInfo.value.name, [], [TokenState(newToken)], [TokenIssue],
                                       now + OneDay, [myKey.value]);

    var sessions: seq<FlowSession> := [];
    if ownerHost.value != members.myInfo {
      sessions := sessions + [FlowSession(ownerHost.value.name)];
    }

    var successText := "Successfully Issued New Token(symbol:" + newToken.symbol + ", amount:"
      + AmountText(newToken.amount) + ") To " + owner.identifier.text;
    submitted := Some(Submission(transaction, sessions, successText));
    ghost var r := Resolved(notaryInfo.value, myKey.value, issuer, issuerKey.value, issuerHost.value,
                            owner, ownerKey.value, ownerHost.value);
    assert Resolve(request, notaries, members, accounts) == Ok(r);
    assert submitted.value == Assemble(request, r, members.myInfo, now);
    match finalize(transaction, sessions)
    case Finalized => exit := Returned(successText);
    case FinalizeFailed(message) => exit := Returned(FlowFailedText(message));
  }

  // ---- The lookups and the hosting policy ----

  /** The checks pass exactly when there is one notary, this node has a
      ledger key, the issuer query finds exactly one account with exactly one
      participant, whose key is hosted on this very node, and the owner query
      finds exactly one account with exactly one participant, whose key has a
      host. */
  lemma ResolveSucceedsIff(request: IssueTokenRequest, notaries: seq<NotaryInfo>, members: MemberLookup,
                           accounts: AccountQuery)
    ensures Resolve(request, notaries, members, accounts).Ok? <==>
      && |notaries| == 1
      && |members.myInfo.ledgerKeys| > 0
      && |accounts(request.issuerId)| == 1
      && |accounts(request.issuerId)[0].participants| == 1
      && members.byKey(accounts(request.issuerId)[0].participants[0]) == Some(members.myInfo)
      && |accounts(request.ownerId)| == 1
      && |accounts(request.ownerId)[0].participants| == 1
      && members.byKey(accounts(request.ownerId)[0].participants[0]).Some?
    ensures Resolve(request, notaries, members, accounts).Ok? ==>
      var r := Resolve(request, notaries, members, accounts).value;
      && r.notary == notaries[0]
      && r.myKey == members.myInfo.ledgerKeys[0]
      && r.issuer == accounts(request.issuerId)[0]
      && r.issuerKey == r.issuer.participants[0]
      && r.issuerHost == members.myInfo
      && r.owner == accounts(request.ownerId)[0]
      && r.ownerKey == r.owner.participants[0]
      && members.byKey(r.ownerKey) == Some(r.ownerHost)
  {
  }

  /** Each failed lookup ends call() with its own exception; the issuer
      hosting check comes before the owner is even looked up, and an owner
      query that does not find exactly one account raises `single()`'s
      exception. */
  lemma ResolveFailures(request: IssueTokenRequest, notaries: seq<NotaryInfo>, members: MemberLookup,
                        accounts: AccountQuery)
    requires |notaries| == 1 && |members.myInfo.ledgerKeys| > 0
    ensures var res := Resolve(request, notaries, members, accounts);
      var issuers := accounts(request.issuerId);
      var owners := accounts(request.ownerId);
      && (|issuers| != 1 ==> res == Stop(Thrown(CordaRuntimeException(IssuerNotFound))))
      && (|issuers| == 1 && |issuers[0].participants| == 1 ==>
           && (members.byKey(issuers[0].participants[0]).None? ==>
                 res == Stop(Thrown(CordaRuntimeException(IssuerHostNotFound))))
           && (members.byKey(issuers[0].participants[0]).Some? &&
               members.byKey(issuers[0].participants[0]).value != members.myInfo ==>
                 res == Stop(Thrown(CordaRuntimeException(IssuerNotHosted))))
           && (members.byKey(issuers[0].participants[0]) == Some(members.myInfo) ==>
                 && (|owners| == 0 ==> res == Stop(Thrown(NoSuchElementException)))
                 && (|owners| > 1 ==> res == Stop(Thrown(IllegalArgumentException)))
                 && (|owners| == 1 && |owners[0].participants| == 1 &&
                     members.byKey(owners[0].participants[0]).None? ==>
                       res == Stop(Thrown(CordaRuntimeException(OwnerHostNotFound))))))
  {
  }

  /** The issuer hosting policy does not depend on the owner: with the issuer
      hosted elsewhere, call() throws the same exception whatever the owner
      query returns. */
  lemma IssuerPolicyBeforeOwner(request: IssueTokenRequest, notaries: seq<NotaryInfo>, members: MemberLookup,
                                a1: AccountQuery, a2: AccountQuery, now: Instant)
    requires a1(request.issuerId) == a2(request.issuerId)
    requires |notaries| == 1 && |members.myInfo.ledgerKeys| > 0
    requires |a1(request.issuerId)| == 1 && |a1(request.issuerId)[0].participants| == 1
    requires var host := members.byKey(a1(request.issuerId)[0].participants[0]);
      host.Some? && host.value != members.myInfo
    ensures Plan(request, notaries, members, a1, now) == Plan(request, notaries, members, a2, now)
              == Stop(Thrown(CordaRuntimeException(IssuerNotHosted)))
  {
  }

  // ---- The transaction ----

  /** The transaction consumes nothing and creates exactly one state: a Token
      of the requested amount and symbol, from the issuer account to the
      owner account, tagged with the owner's identifier, held by this node's
      key. Its only command is Issue, its only signatory this node's key, and
      its window closes one day after `now`. */
  lemma IssuedTransaction(request: IssueTokenRequest, r: Resolved, myInfo: MemberInfo, now: Instant)
    ensures var tx := Assemble(request, r, myInfo, now).transaction;
      && tx.inputs == []
      && |tx.outputs| == 1 && tx.outputs[0].TokenState?
      && var t := tx.outputs[0].token;
      && t.amount == request.amount
      && t.symbol == request.symbol
      && t.issuerAccount == r.issuer
      && t.ownerAccount == r.owner
      && t.tag == r.owner.identifier.text
      && t.Participants() == [r.myKey]
      && tx.commands == [TokenIssue]
      && tx.signatories == [r.myKey]
      && tx.timeWindowUntil == now + OneDay
      && tx.notary == r.notary.name
  {
  }

  /** What an Issue transaction creates is exactly the requested amount. */
  lemma {:induction false} IssuedAmount(request: IssueTokenRequest, r: Resolved, myInfo: MemberInfo, now: Instant)
    ensures SumOf(TokenAmounts(Assemble(request, r, myInfo, now).transaction.outputs)) == request.amount
  {
    var outputs := Assemble(request, r, myInfo, now).transaction.outputs;
    assert TokenAmounts(outputs) == [request.amount] by {
      assert outputs[1..] == [];
    }
    assert [request.amount][..0] == [];
  }

  /** A session is opened, to the owner's host, exactly when the owner is
      hosted on another node; otherwise there are none. */
  lemma SessionToOwnerHost(request: IssueTokenRequest, r: Resolved, myInfo: MemberInfo, now: Instant)
    ensures var sessions := Assemble(request, r, myInfo, now).sessions;
      && (sessions == [] <==> r.ownerHost == myInfo)
      && (r.ownerHost != myInfo ==> sessions == [FlowSession(r.ownerHost.name)])
  {
  }
}
