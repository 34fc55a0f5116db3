/** The interface of the platform's token selection, as the redeem flow uses
    it: the criteria of a claim, and the tokens a successful claim holds.
    The selection itself (which records are picked, and their exclusive
    reservation) is the platform's and is a parameter of the flow. */
module TokenSelection {
  import opened Outcomes
  import opened Platform
  import opened TokenObserver

  /** TokenClaimCriteria with its optional owner-hash filter. */
  datatype TokenClaimCriteria = TokenClaimCriteria(
    tokenType: string,
    issuerHash: SecureHash,
    notaryX500Name: MemberName,
    symbol: string,
    targetAmount: int,
    ownerHash: Option<SecureHash>)

  datatype ClaimedToken = ClaimedToken(
    stateRef: StateRef,
    tokenType: string,
    issuerHash: SecureHash,
    notaryX500Name: MemberName,
    symbol: string,
    tag: string,
    ownerHash: SecureHash,
    amount: int)

  datatype TokenClaim = TokenClaim(claimedTokens: seq<ClaimedToken>)

  /** The pool a set of criteria selects from. */
  function CriteriaPool(c: TokenClaimCriteria): PoolKey {
    PoolKey(c.tokenType, c.issuerHash, c.symbol)
  }

  /** Whether an observed token, recorded under notary `notary`, is one the
      criteria ask for: same pool, same notary, and the owner-hash filter (when
      set) agrees with the token's filter fields. */
  predicate Selects(c: TokenClaimCriteria, u: UtxoToken, notary: MemberName) {
    && u.poolKey == CriteriaPool(c)
    && notary == c.notaryX500Name
    && (c.ownerHash.Some? ==> u.filterFields.ownerHash == c.ownerHash.value)
  }

  /** A claimed token as the platform reports it for an observed token,
      recorded under `notary` at `ref`: the observer's fields carried over. */
  predicate ClaimedFrom(c: ClaimedToken, u: UtxoToken, ref: StateRef, notary: MemberName) {
    && c.stateRef == ref
    && c.tokenType == u.poolKey.tokenType
    && c.issuerHash == u.poolKey.issuerHash
    && c.symbol == u.poolKey.symbol
    && c.notaryX500Name == notary
    && c.tag == u.filterFields.tag
    && c.ownerHash == u.filterFields.ownerHash
    && c.amount == u.amount
  }

  function Amounts(claimed: seq<ClaimedToken>): (r: seq<int>)
    ensures |r| == |claimed|
    ensures forall i :: 0 <= i < |claimed| ==> r[i] == claimed[i].amount
  {
    seq(|claimed|, i requires 0 <= i < |claimed| => claimed[i].amount)
  }

  /** `claim.claimedTokens.map { it.stateRef }` */
  function StateRefs(claimed: seq<ClaimedToken>): (r: seq<StateRef>)
    ensures |r| == |claimed|
    ensures forall i :: 0 <= i < |claimed| ==> r[i] == claimed[i].stateRef
  {
    seq(|claimed|, i requires 0 <= i < |claimed| => claimed[i].stateRef)
  }
}
