/** `fund_escrow`: the depositor moves the agreed amount into the vault. */
module Fund {
  import opened Numeric
  import opened Wrappers
  import opened Pda
  import opened State
  import opened Errors
  import opened Token
  import opened Ledger

  /**
   * The account layer of `FundEscrow`, in declaration order: `has_one =
   * depositor`, the `Created` status guard, the source account's mint and
   * owner, and the vault's address.
   */
  function Check(w: World, signer: Address, escrow: Address, source: Address, vault: Address): (r: Option<Error>)
    ensures r == None <==>
      && Loaded(w, escrow, source, vault)
      && var e := w.escrows[escrow];
      && signer == e.depositor && e.status == Created
      && w.tokens[source].mint == e.mint && w.tokens[source].owner == signer
      && vault == e.vault
    ensures Loaded(w, escrow, source, vault) && signer != w.escrows[escrow].depositor ==>
      r == Some(UnauthorizedDepositor)
    ensures Loaded(w, escrow, source, vault) && signer == w.escrows[escrow].depositor && w.escrows[escrow].status != Created ==>
      r == Some(InvalidState)
  {
    if !Loaded(w, escrow, source, vault) then Some(AccountNotInitialized)
    else
      var e := w.escrows[escrow];
      if signer != e.depositor then Some(UnauthorizedDepositor)
      else if e.status != Created then Some(InvalidState)
      else if w.tokens[source].mint != e.mint then Some(AccountMismatch)
      else if w.tokens[source].owner != signer then Some(AccountMismatch)
      else if vault != e.vault then Some(AccountMismatch)
      else None
  }

  /** The whole `fund_escrow` transaction. */
  function Apply(w: World, signer: Address, escrow: Address, source: Address, vault: Address): (res: Effect)
    ensures res.outcome.Err? ==> res.world == w
    ensures res.outcome == Ok <==>
      Check(w, signer, escrow, source, vault) == None && Transfer(w.tokens, source, vault, signer, w.escrows[escrow].amount).Success?
    ensures res.outcome == Ok ==>
      && var e := w.escrows[escrow];
      && res.world.slot == w.slot
      && res.world.escrows == w.escrows[escrow := e.(status := Funded, updatedAtSlot := w.slot)]
      && Moved(w.tokens, res.world.tokens, source, vault, e.amount)
  {
    match Check(w, signer, escrow, source, vault)
    case Some(err) => Abort(w, err)
    case None =>
      var e := w.escrows[escrow];
      match Transfer(w.tokens, source, vault, signer, e.amount)
      case Failure(err) => Abort(w, err)
      case Success(tokens) =>
        Effect(Ok, w.(escrows := w.escrows[escrow := e.(status := Funded, updatedAtSlot := w.slot)], tokens := tokens))
  }

  /** A source balance below the agreed amount aborts the whole transaction. */
  lemma ShortSourceAborts(w: World, signer: Address, escrow: Address, source: Address, vault: Address)
    requires Check(w, signer, escrow, source, vault) == None
    requires w.tokens[source].amount < w.escrows[escrow].amount
    ensures Apply(w, signer, escrow, source, vault) == Abort(w, InsufficientFunds)
  {
  }

  /** Funding twice fails the second time with `InvalidState`, and nothing moves. */
  lemma FundTwiceFails(w: World, signer: Address, escrow: Address, source: Address, vault: Address,
                       source': Address, vault': Address)
    requires Apply(w, signer, escrow, source, vault).outcome == Ok
    ensures var w' := Apply(w, signer, escrow, source, vault).world;
            Loaded(w', escrow, source', vault') ==>
              Apply(w', signer, escrow, source', vault') == Abort(w', InvalidState)
  {
  }
}
