/** How the flows fit together: a token issued by IssueTokenFlow is one that
    RedeemTokenFlow's claim asks for, redeeming part of it leaves a change
    token in the same group for the same owner, and every message a flow
    returns tells success from failure. */
module TokenLifecycle {
  import opened Outcomes
  import opened Platform
  import opened Tokens
  import opened TokenObserver
  import opened TokenSelection
  import opened Ledger
  import opened Collections
  import Issue = IssueTokenFlow
  import Redeem = RedeemTokenFlow
  import Create = CreateAccount

  /** The token an Issue transaction creates is selected by the claim
      criteria of a redeem of the same symbol between the same issuer and
      owner accounts at the same notary. */
  lemma IssuedTokenIsClaimable(ir: Issue.IssueTokenRequest, ri: Issue.Resolved,
                               rr: Redeem.RedeemTokenRequest, rd: Redeem.Resolved, d: DigestService)
    requires rd.issuer == ri.issuer && rd.owner == ri.owner && rd.notary == ri.notary
    requires rr.symbol == ir.symbol
    ensures Selects(Redeem.Criteria(rr, rd), OnCommit(Issue.NewToken(ir, ri), d), ri.notary.name)
  {
  }

  /** Issue then redeem: when the claim holds just the issued token and the
      redeemed amount is positive and smaller than the issued one, the Redeem
      transaction consumes that token and creates one change token of the
      difference, fungible with the issued token and owned by the same
      account. */
  lemma {:induction false} IssueThenRedeemPart(ir: Issue.IssueTokenRequest, ri: Issue.Resolved,
                                               rr: Redeem.RedeemTokenRequest, rd: Redeem.Resolved,
                                               myInfo: MemberInfo, c: ClaimedToken, ref: StateRef,
                                               d: DigestService, now: Instant)
    requires rd.issuer == ri.issuer && rd.owner == ri.owner && rd.notary == ri.notary
    requires rr.symbol == ir.symbol
    requires ClaimedFrom(c, OnCommit(Issue.NewToken(ir, ri), d), ref, ri.notary.name)
    requires 0 < rr.amount < ir.amount
    ensures var tx := Redeem.Assemble(rr, rd, myInfo, [c], now).transaction;
      && tx.inputs == [ref]
      && |tx.outputs| == 1 && tx.outputs[0].TokenState?
      && tx.outputs[0].token.amount == ir.amount - rr.amount
      && Fungible(tx.outputs[0].token, Issue.NewToken(ir, ri))
      && tx.outputs[0].token.ownerAccount == Issue.NewToken(ir, ri).ownerAccount
  {
    assert Amounts([c]) == [c.amount];
    assert SumOf([c.amount]) == c.amount by {
      assert [c.amount][..0] == [];
    }
    Redeem.ChangeOutput(rr, rd, myInfo, [c], now);
  }

  /** Every success message differs from every failure message, and from the
      redeem flow's insufficient-amount message: a client can tell from the
      returned text alone whether the transaction was finalised. */
  lemma RedeemMessagesDistinct(rr: Redeem.RedeemTokenRequest, m: Option<string>)
    ensures Redeem.SuccessText(rr) != FlowFailedText(m)
    ensures Redeem.SuccessText(rr) != Redeem.InsufficientText
    ensures FlowFailedText(m) != Redeem.InsufficientText
  {
    assert Redeem.SuccessText(rr)[0] == 'S';
    assert FlowFailedText(m)[0] == 'F';
  }

  lemma IssueMessagesDistinct(t: Token, owner: Accounts.AccountInfo, m: Option<string>)
    ensures Issue.SuccessText(t, owner) != FlowFailedText(m)
  {
    assert Issue.SuccessText(t, owner)[0] == 'S';
    assert FlowFailedText(m)[0] == 'F';
  }

  lemma CreateMessagesDistinct(cr: Create.CreateAccountRequest, uuid: Uuid, m: Option<string>)
    ensures Create.SuccessText(cr, uuid) != FlowFailedText(m)
  {
    assert Create.SuccessText(cr, uuid)[0] == 'A';
    assert FlowFailedText(m)[0] == 'F';
  }
}
