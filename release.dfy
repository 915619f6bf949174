/** `release_funds`: the depositor pays the whole vault out to the beneficiary. */
module Release {
  import opened Numeric
  import opened Wrappers
  import opened Pda
  import opened State
  import opened Errors
  import opened Token
  import opened Ledger

  /**
   * The account layer of `ReleaseFunds`: `has_one = depositor`, the `Funded`
   * status guard, the vault's address, and a destination that is the
   * beneficiary's account for the escrow's mint.
   */
  function Check(w: World, signer: Address, escrow: Address, vault: Address, destination: Address): (r: Option<Error>)
    ensures r == None <==>
      && Loaded(w, escrow, vault, destination)
      && var e := w.escrows[escrow];
      && signer == e.depositor && e.status == Funded && vault == e.vault
      && w.tokens[destination].mint == e.mint && w.tokens[destination].owner == e.beneficiary
    ensures Loaded(w, escrow, vault, destination) && signer != w.escrows[escrow].depositor ==>
      r == Some(UnauthorizedDepositor)
    ensures Loaded(w, escrow, vault, destination) && signer == w.escrows[escrow].depositor && w.escrows[escrow].status != Funded ==>
      r == Some(InvalidState)
  {
    if !Loaded(w, escrow, vault, destination) then Some(AccountNotInitialized)
    else
      var e := w.escrows[escrow];
      if signer != e.depositor then Some(UnauthorizedDepositor)
      else if e.status != Funded then Some(InvalidState)
      else if vault != e.vault then Some(AccountMismatch)
      else if w.tokens[destination].mint != e.mint then Some(AccountMismatch)
      else if w.tokens[destination].owner != e.beneficiary then Some(AccountMismatch)
      else None
  }

  /** The whole `release_funds` transaction: it moves `vault.amount`, not `escrow.amount`. */
  function Apply(w: World, signer: Address, escrow: Address, vault: Address, destination: Address): (res: Effect)
    ensures res.outcome.Err? ==> res.world == w
    ensures res.outcome == Ok <==>
      Check(w, signer, escrow, vault, destination) == None
      && Transfer(w.tokens, vault, destination, VaultAuthorityAddress(escrow), w.tokens[vault].amount).Success?
    ensures res.outcome == Ok ==>
      && res.world.slot == w.slot
      && res.world.escrows == w.escrows[escrow := w.escrows[escrow].(status := Released, updatedAtSlot := w.slot)]
      && Moved(w.tokens, res.world.tokens, vault, destination, w.tokens[vault].amount)
    // funds cannot be redirected: they reach an account the beneficiary owns
    ensures res.outcome == Ok ==>
      res.world.tokens[destination].owner == w.escrows[escrow].beneficiary
    ensures res.outcome == Ok && destination != vault ==>
      && res.world.tokens[vault].amount == 0
      && res.world.tokens[destination].amount == w.tokens[destination].amount + w.tokens[vault].amount
  {
    match Check(w, signer, escrow, vault, destination)
    case Some(err) => Abort(w, err)
    case None =>
      var e := w.escrows[escrow];
      match Transfer(w.tokens, vault, destination, VaultAuthorityAddress(escrow), w.tokens[vault].amount)
      case Failure(err) => Abort(w, err)
      case Success(tokens) =>
        Effect(Ok, w.(escrows := w.escrows[escrow := e.(status := Released, updatedAtSlot := w.slot)], tokens := tokens))
  }
}
