/** The Token state (Token.kt): a quantity of a symbol issued by one account
    and owned by another, and its fungibility predicate. */
module Tokens {
  import opened Platform
  import opened Accounts

  /** `Token.tokenType`: the class name of Token. */
  const TokenType: string := "com.r3.token.fungible.states.Token"

  /** The NumericDecimal wrapper `getQuantity` returns. */
  datatype NumericDecimal = NumericDecimal(value: int)

  datatype Token = Token(
    symbol: string,
    amount: int,
    tag: string,
    issuerAccount: AccountInfo,
    ownerAccount: AccountInfo,
    participants: seq<PublicKey>)
  {
    function Quantity(): NumericDecimal {
      NumericDecimal(amount)
    }

    function Participants(): seq<PublicKey> {
      participants
    }

    function IssuerHash(): SecureHash {
      issuerAccount.accountHash
    }

    function OwnerHash(): SecureHash {
      ownerAccount.accountHash
    }

    /** Fungible with `other` when `other` is a Token of the same issuer (by
        account hash) and the same symbol. */
    predicate IsFungibleWith(other: FungibleState) {
      other.FungibleToken? && other.token.IssuerHash() == IssuerHash() && other.token.symbol == symbol
    }
  }

  /** A FungibleState as `isFungibleWith` receives it: a Token, or a fungible
      state of some other class. */
  datatype FungibleState =
    | FungibleToken(token: Token)
    | OtherFungibleState(stateType: string, quantity: NumericDecimal)

  /** The fungibility group of a token: its symbol and its issuer's hash. */
  datatype Group = Group(symbol: string, issuerHash: SecureHash)

  function GroupOf(t: Token): Group {
    Group(t.symbol, t.IssuerHash())
  }

  predicate Fungible(a: Token, b: Token) {
    a.IsFungibleWith(FungibleToken(b))
  }

  /** The accessors give back what the token was built from: the quantity is
      the amount, the participants are the given list, and the two hashes are
      those of the two accounts. */
  lemma ConstructedToken(symbol: string, amount: int, tag: string, issuer: AccountInfo,
                         owner: AccountInfo, participants: seq<PublicKey>)
    ensures var t := Token(symbol, amount, tag, issuer, owner, participants);
      && t.Quantity() == NumericDecimal(amount)
      && t.Participants() == participants
      && t.IssuerHash() == issuer.accountHash
      && t.OwnerHash() == owner.accountHash
  {
  }

  /** Two tokens are fungible exactly when they are in the same group. */
  lemma FungibleIffSameGroup(a: Token, b: Token)
    ensures Fungible(a, b) <==> GroupOf(a) == GroupOf(b)
  {
  }

  /** A state that is not a Token is fungible with no token. */
  lemma NotFungibleWithOtherStates(t: Token, stateType: string, q: NumericDecimal)
    ensures !t.IsFungibleWith(OtherFungibleState(stateType, q))
  {
  }

  /** Among tokens, fungibility is an equivalence relation. */
  lemma FungibleIsEquivalence()
    ensures forall a :: Fungible(a, a)
    ensures forall a, b :: Fungible(a, b) ==> Fungible(b, a)
    ensures forall a, b, c :: Fungible(a, b) && Fungible(b, c) ==> Fungible(a, c)
  {
  }

  /** Fungibility looks at nothing but the symbol and the issuer's hash:
      changing a token's amount, tag, owner, participants, or any part of the
      issuer account other than its hash, on either side, changes nothing. */
  lemma FungibleIgnoresOtherFields(a: Token, b: Token, a': Token, b': Token)
    requires a'.symbol == a.symbol && a'.IssuerHash() == a.IssuerHash()
    requires b'.symbol == b.symbol && b'.IssuerHash() == b.IssuerHash()
    ensures Fungible(a', b') == Fungible(a, b)
  {
  }
}
