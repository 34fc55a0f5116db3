/** The Corda platform values the flows pass around. Their behaviour belongs
    to the platform; here they are plain values, and the services that
    compute them (member lookup, digests, the clock) are parameters. */
module Platform {
  import opened Outcomes

  datatype PublicKey = PublicKey(encoded: seq<bv8>)

  /** A digest value: the algorithm's name and the digest bytes. */
  datatype SecureHash = SecureHash(algorithm: string, bytes: seq<bv8>)

  /** A java.util.UUID, kept as its canonical text (what `toString()` gives). */
  datatype Uuid = Uuid(text: string)

  /** An X.500 member name. */
  datatype MemberName = MemberName(x500: string)

  /** A member's MemberInfo: its name and ledger keys, which the flows read,
      and the rest of its member and MGM context (serial, status, platform
      version and so on) as key-value pairs. The flows compare whole
      MemberInfo values with `!=`, so two infos with the same name and keys
      but a different context are different hosts. */
  datatype MemberInfo = MemberInfo(name: MemberName, ledgerKeys: seq<PublicKey>, context: map<string, string>)

  datatype NotaryInfo = NotaryInfo(name: MemberName)

  /** The node's MemberLookup service: who this node is, lookup of a member by
      one of its ledger keys, and lookup by an X.500 name given as text (the
      name is parsed and then looked up; either step failing gives None). */
  datatype MemberLookup = MemberLookup(
    myInfo: MemberInfo,
    byKey: PublicKey -> Option<MemberInfo>,
    byName: string -> Option<MemberInfo>)

  datatype DigestAlgorithmName = DigestAlgorithmName(name: string)

  const SHA2_256: DigestAlgorithmName := DigestAlgorithmName("SHA-256")

  /** The DigestService: the digest, under an algorithm, of the UTF-8 bytes of
      a text. Left uninterpreted. */
  type DigestService = (string, DigestAlgorithmName) -> SecureHash

  /** An instant, in nanoseconds since the epoch. */
  type Instant = int

  /** `plus(1, ChronoUnit.DAYS)` */
  const OneDay: int := 86_400 * 1_000_000_000

  /** A reference to an output of a committed transaction. */
  datatype StateRef = StateRef(transactionId: SecureHash, index: nat)

  /** A session opened with `flowMessaging.initiateFlow(name)`. */
  datatype FlowSession = FlowSession(counterparty: MemberName)
}
