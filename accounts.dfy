/** The AccountInfo state: an account's identifier, optional metadata, the
    hash that token states use to refer to it, and its participants. */
module Accounts {
  import opened Outcomes
  import opened Platform

  datatype AccountInfo = AccountInfo(
    identifier: Uuid,
    metadata: Option<string>,
    accountHash: SecureHash,
    participants: seq<PublicKey>)

  /** The named vault query ACCOUNT_INFO_QUERY: the AccountInfo states whose
      identifier is the given text. */
  type AccountQuery = string -> seq<AccountInfo>
}
