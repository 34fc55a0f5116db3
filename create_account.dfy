/** CreateAccount.call(): make a new AccountInfo under a fresh UUID, hashed
    with SHA-256, held by this node's key, and build a Create transaction for
    it, shared with one other member when the request names one. */
module CreateAccount {
  import opened Outcomes
  import opened Platform
  import opened Accounts
  import opened Ledger
  import opened Collections
  import opened Strings

  datatype CreateAccountRequest = CreateAccountRequest(metadata: Option<string>, shareParty: Option<string>)

  const SharePartyNotFound: string := "MemberLookup can't find otherMember specified in flow arguments."

  /** Written as two literals: the verifier reads the characters of a
      concatenation of short literals, which `CreateMessagesDistinct` needs. */
  const CreatedPrefix: string := "Account Has Been Successfully " + "Created With id:"
  const MetadataInfix: string := ", metadata: "

  /** The new account: the fresh UUID, the SHA-256 digest of its text, the
      request's metadata, and this node's key as its only participant. */
  function NewAccount(request: CreateAccountRequest, uuid: Uuid, digest: DigestService, myKey: PublicKey): AccountInfo {
    AccountInfo(uuid, request.metadata, digest(uuid.text, SHA2_256), [myKey])
  }

  /** The sessions call() opens: none without a share party, one to the named
      member with one, and an exception when no member has that name. */
  function ShareSessions(request: CreateAccountRequest, members: MemberLookup): Result<seq<FlowSession>> {
    match request.shareParty
    case None => Ok([])
    case Some(name) =>
      var party :- OrThrow(members.byName(name), SharePartyNotFound);
      Ok([FlowSession(party.name)])
  }

  function SuccessText(request: CreateAccountRequest, uuid: Uuid): string {
    CreatedPrefix + uuid.text + MetadataInfix + NullableText(request.metadata)
  }

  /** The builder chain for the new account. */
  function AccountTransaction(notary: NotaryInfo, account: AccountInfo, myKey: PublicKey, now: Instant): UtxoTransaction {
    UtxoTransaction(notary.name, [], [AccountState(account)], [AccountCreate], now + OneDay, [myKey])
  }

  /** call() up to finalize. The transaction is built before the share party
      is looked up, but an unknown share party still ends call() before
      finalize. */
  function Plan(request: CreateAccountRequest, notaries: seq<NotaryInfo>, members: MemberLookup, uuid: Uuid,
                digest: DigestService, now: Instant): Result<Submission>
  {
    var notary :- Single(notaries);
    var myKey :- First(members.myInfo.ledgerKeys);
    var tx := AccountTransaction(notary, NewAccount(request, uuid, digest, myKey), myKey, now);
    var sessions :- ShareSessions(request, members);
    Ok(Submission(tx, sessions, SuccessText(request, uuid)))
  }

  /** call(), step by step; the fresh UUID and the digest service are
      parameters. `submitted` is what was handed to finalize, if call() got
      that far. */
  method Call(request: CreateAccountRequest, notaries: seq<NotaryInfo>, members: MemberLookup, accountUuid: Uuid,
              digestService: DigestService, now: Instant, finalize: Finalizer)
    returns (exit: Exit, submitted: Option<Submission>)
    ensures var p := Plan(request, notaries, members, accountUuid, digestService, now);
      && exit == Finish(p, finalize)
      && submitted == (if p.Ok? then Some(p.value) else None)
  {
    submitted := None;

    var notaryInfo := Single(notaries);
    if notaryInfo.Stop? { return notaryInfo.exit, None; }
    var myKey := First(members.myInfo.ledgerKeys);
    if myKey.Stop? { return myKey.exit, None; }

    var accountHash := digestService(accountUuid.text, SHA2_256);
    var newAccount := AccountInfo(accountUuid, request.metadata, accountHash, [myKey.value]);
    var transaction := UtxoTransaction(notaryInfo.value.name, [], [AccountState(newAccount)], [AccountCreate],
                                       now + OneDay, [myKey.value]);

    var sessions: seq<FlowSession> := [];
    if request.shareParty.Some? {
      var shareParty := members.byName(request.shareParty.value);
      if shareParty.None? {
        return Thrown(CordaRuntimeException(SharePartyNotFound)), None;
      }
      sessions := sessions + [FlowSession(shareParty.value.name)];
      assert sessions == [FlowSession(shareParty.value.name)];
    }

    var successText := CreatedPrefix + accountUuid.text + MetadataInfix + NullableText(request.metadata);
    submitted := Some(Submission(transaction, sessions, successText));
    assert ShareSessions(request, members) == Ok(sessions);
    assert transaction == AccountTransaction(notaryInfo.value, NewAccount(request, accountUuid, digestService, myKey.value),
                                             myKey.value, now);
    match finalize(transaction, sessions)
    case Finalized => exit := Returned(successText);
    case FinalizeFailed(message) => exit := Returned(FlowFailedText(message));
  }

  /** The new account's identifier is the UUID, its hash is the SHA-256
      digest of the UUID's text, its metadata is the request's, unchanged, and
      its only participant is this node's key. */
  lemma NewAccountFields(request: CreateAccountRequest, uuid: Uuid, digest: DigestService, myKey: PublicKey)
    ensures var a := NewAccount(request, uuid, digest, myKey);
      && a.identifier == uuid
      && a.accountHash == digest(uuid.text, SHA2_256)
      && a.metadata == request.metadata
      && a.participants == [myKey]
  {
  }

  /** The account hash is a function of the identifier alone: accounts made
      under the same UUID have the same hash whatever their metadata or key. */
  lemma HashDependsOnlyOnUuid(r1: CreateAccountRequest, r2: CreateAccountRequest, uuid: Uuid,
                              digest: DigestService, k1: PublicKey, k2: PublicKey)
    ensures NewAccount(r1, uuid, digest, k1).accountHash == NewAccount(r2, uuid, digest, k2).accountHash
  {
  }

  /** call() reaches finalize exactly when there is one notary, this node has
      a ledger key, and the share party, if named, is a known member; the
      transaction then consumes nothing, creates exactly the new account,
      carries the Create command, and is signed by this node's key alone. */
  lemma PlanSucceedsIff(request: CreateAccountRequest, notaries: seq<NotaryInfo>, members: MemberLookup,
                        uuid: Uuid, digest: DigestService, now: Instant)
    ensures var p := Plan(request, notaries, members, uuid, digest, now);
      p.Ok? <==>
        && |notaries| == 1
        && |members.myInfo.ledgerKeys| > 0
        && (request.shareParty.Some? ==> members.byName(request.shareParty.value).Some?)
    ensures var p := Plan(request, notaries, members, uuid, digest, now);
      p.Ok? ==>
        var tx := p.value.transaction;
        var myKey := members.myInfo.ledgerKeys[0];
        && tx.inputs == []
        && tx.outputs == [AccountState(NewAccount(request, uuid, digest, myKey))]
        && tx.commands == [AccountCreate]
        && tx.signatories == [myKey]
        && tx.notary == notaries[0].name
        && tx.timeWindowUntil == now + OneDay
  {
  }

  /** Without a share party there are no sessions; with one that is found,
      exactly one session, to that member; with one that is not found, the
      flow throws and finalize is never reached. */
  lemma ShareSessionsCases(request: CreateAccountRequest, notaries: seq<NotaryInfo>, members: MemberLookup,
                           uuid: Uuid, digest: DigestService, now: Instant)
    requires |notaries| == 1 && |members.myInfo.ledgerKeys| > 0
    ensures var p := Plan(request, notaries, members, uuid, digest, now);
      && (request.shareParty.None? ==> p.Ok? && p.value.sessions == [])
      && (request.shareParty.Some? && members.byName(request.shareParty.value).Some? ==>
            p.Ok? && p.value.sessions == [FlowSession(members.byName(request.shareParty.value).value.name)])
      && (request.shareParty.Some? && members.byName(request.shareParty.value).None? ==>
            p == Stop(Thrown(CordaRuntimeException(SharePartyNotFound))))
  {
  }

  /** The success message names the new account's UUID and then its
      metadata, "null" when there is none. */
  lemma SuccessTextCarriesIdAndMetadata(request: CreateAccountRequest, uuid: Uuid)
    ensures var t := SuccessText(request, uuid);
      var i := |CreatedPrefix|;
      var j := i + |uuid.text| + |MetadataInfix|;
      && |t| == j + |NullableText(request.metadata)|
      && t[i..i + |uuid.text|] == uuid.text
      && t[j..] == NullableText(request.metadata)
      && (request.metadata.None? ==> t[j..] == "null")
  {
  }
}
