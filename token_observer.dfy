/** TokenObserver.onCommit: how each committed Token is entered into the
    platform's token-selection pool. */
module TokenObserver {
  import opened Platform
  import opened Tokens

  /** The pool a token is selected from: its type, issuer hash and symbol. */
  datatype PoolKey = PoolKey(tokenType: string, issuerHash: SecureHash, symbol: string)

  /** The fields a claim may additionally filter on. */
  datatype FilterFields = FilterFields(tag: string, ownerHash: SecureHash)

  datatype UtxoToken = UtxoToken(poolKey: PoolKey, amount: int, filterFields: FilterFields)

  /** The digest service is handed to onCommit but not used. */
  function OnCommit(state: Token, digestService: DigestService): UtxoToken {
    UtxoToken(
      PoolKey(TokenType, state.IssuerHash(), state.symbol),
      state.amount,
      FilterFields(state.tag, state.OwnerHash()))
  }

  /** The pool key is (Token's type name, issuer hash, symbol), the amount is
      the token's amount, and the filter fields are (tag, owner hash). */
  lemma OnCommitFields(t: Token, d: DigestService)
    ensures OnCommit(t, d).poolKey == PoolKey(TokenType, t.issuerAccount.accountHash, t.symbol)
    ensures OnCommit(t, d).amount == t.amount
    ensures OnCommit(t, d).filterFields == FilterFields(t.tag, t.ownerAccount.accountHash)
  {
  }

  /** Two tokens land in the same pool exactly when they are fungible. */
  lemma SamePoolIffFungible(a: Token, b: Token, d: DigestService)
    ensures OnCommit(a, d).poolKey == OnCommit(b, d).poolKey <==> a.IsFungibleWith(FungibleToken(b))
  {
  }

  /** onCommit depends neither on the digest service nor on the token's
      participants, nor on the accounts beyond their hashes. */
  lemma OnCommitIndependence(a: Token, b: Token, d1: DigestService, d2: DigestService)
    requires a.symbol == b.symbol && a.amount == b.amount && a.tag == b.tag
    requires a.IssuerHash() == b.IssuerHash() && a.OwnerHash() == b.OwnerHash()
    ensures OnCommit(a, d1) == OnCommit(b, d2)
  {
  }
}
