/** `cancel_escrow`: the depositor calls off an escrow and gets back whatever the vault holds. */
module Cancel {
  import opened Numeric
  import opened Wrappers
  import opened Pda
  import opened State
  import opened Errors
  import opened Token
  import opened Ledger

  /**
   * The account layer of `CancelEscrow`: `has_one = depositor`, a status of
   * `Created` or `Funded`, the vault's address, and a refund account that
   * the signer owns for the escrow's mint.
   */
  function Check(w: World, signer: Address, escrow: Address, vault: Address, refund: Address): (r: Option<Error>)
    ensures r == None <==>
      && Loaded(w, escrow, vault, refund)
      && var e := w.escrows[escrow];
      && signer == e.depositor && (e.status == Created || e.status == Funded) && vault == e.vault
      && w.tokens[refund].mint == e.mint && w.tokens[refund].owner == signer
    ensures Loaded(w, escrow, vault, refund) && signer != w.escrows[escrow].depositor ==>
      r == Some(UnauthorizedDepositor)
    ensures Loaded(w, escrow, vault, refund) && signer == w.escrows[escrow].depositor
            && w.escrows[escrow].status in {Disputed, Released, Cancelled} ==>
      r == Some(InvalidState)
  {
    if !Loaded(w, escrow, vault, refund) then Some(AccountNotInitialized)
    else
      var e := w.escrows[escrow];
      if signer != e.depositor then Some(UnauthorizedDepositor)
      else if !(e.status == Created || e.status == Funded) then Some(InvalidState)
      else if vault != e.vault then Some(AccountMismatch)
      else if w.tokens[refund].mint != e.mint then Some(AccountMismatch)
      else if w.tokens[refund].owner != signer then Some(AccountMismatch)
      else None
  }

  /** The refund: the whole vault when it holds anything, no transfer at all when it is empty. */
  function Refund(tokens: Accounts, vault: Address, refund: Address, authority: Address): (r: Result<Accounts>)
    requires vault in tokens && refund in tokens
    ensures tokens[vault].amount == 0 ==> r == Success(tokens)
    ensures r.Success? ==> Moved(tokens, r.value, vault, refund, tokens[vault].amount)
    ensures r.Success? && vault != refund ==> r.value[vault].amount == 0
    ensures r.Failure? <==> tokens[vault].amount > 0 && Transfer(tokens, vault, refund, authority, tokens[vault].amount).Failure?
  {
    var amount := tokens[vault].amount;
    if amount > 0 then Transfer(tokens, vault, refund, authority, amount) else Success(tokens)
  }

  /** The whole `cancel_escrow` transaction. */
  function Apply(w: World, signer: Address, escrow: Address, vault: Address, refund: Address): (res: Effect)
    ensures res.outcome.Err? ==> res.world == w
    ensures res.outcome == Ok <==>
      Check(w, signer, escrow, vault, refund) == None && Refund(w.tokens, vault, refund, VaultAuthorityAddress(escrow)).Success?
    ensures res.outcome == Ok ==>
      && res.world.slot == w.slot
      && res.world.escrows == w.escrows[escrow := w.escrows[escrow].(status := Cancelled, updatedAtSlot := w.slot)]
      && Moved(w.tokens, res.world.tokens, vault, refund, w.tokens[vault].amount)
      && res.world.tokens[refund].owner == w.escrows[escrow].depositor
    ensures res.outcome == Ok && refund != vault ==> res.world.tokens[vault].amount == 0
    // an empty vault is never the source of a transfer, so cancelling it cannot fail in the token program
    ensures Check(w, signer, escrow, vault, refund) == None && w.tokens[vault].amount == 0 ==>
      res.outcome == Ok && res.world.tokens == w.tokens
  {
    match Check(w, signer, escrow, vault, refund)
    case Some(err) => Abort(w, err)
    case None =>
      var e := w.escrows[escrow];
      match Refund(w.tokens, vault, refund, VaultAuthorityAddress(escrow))
      case Failure(err) => Abort(w, err)
      case Success(tokens) =>
        Effect(Ok, w.(escrows := w.escrows[escrow := e.(status := Cancelled, updatedAtSlot := w.slot)], tokens := tokens))
  }
}
