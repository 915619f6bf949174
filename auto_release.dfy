/** `auto_release`: anyone may pay the vault out to the beneficiary once the slot is reached. */
module AutoRelease {
  import opened Numeric
  import opened Wrappers
  import opened Pda
  import opened State
  import opened Errors
  import opened Token
  import opened Ledger

  /**
   * The account layer of `AutoRelease`: no identity check at all, the `Funded`
   * status guard, the vault's address, and the beneficiary's account.
   */
  function Check(w: World, escrow: Address, vault: Address, destination: Address): (r: Option<Error>)
    ensures r == None <==>
      && Loaded(w, escrow, vault, destination)
      && var e := w.escrows[escrow];
      && e.status == Funded && vault == e.vault
      && w.tokens[destination].mint == e.mint && w.tokens[destination].owner == e.beneficiary
    ensures Loaded(w, escrow, vault, destination) && w.escrows[escrow].status != Funded ==> r == Some(InvalidState)
  {
    if !Loaded(w, escrow, vault, destination) then Some(AccountNotInitialized)
    else
      var e := w.escrows[escrow];
      if e.status != Funded then Some(InvalidState)
      else if vault != e.vault then Some(AccountMismatch)
      else if w.tokens[destination].mint != e.mint then Some(AccountMismatch)
      else if w.tokens[destination].owner != e.beneficiary then Some(AccountMismatch)
      else None
  }

  /** The release condition, evaluated afresh on every call: enabled and reached. */
  function Ready(e: EscrowAccount, slot: U64): (ready: bool)
    ensures ready <==> var t := AutoReleaseThreshold(e.autoReleaseSlot); t.Some? && slot >= t.value
  {
    e.autoReleaseSlot != AUTO_RELEASE_DISABLED && slot >= e.autoReleaseSlot
  }

  /** The whole `auto_release` transaction; `cranker` is whoever signs. */
  function Apply(w: World, cranker: Address, escrow: Address, vault: Address, destination: Address): (res: Effect)
    ensures res.outcome.Err? ==> res.world == w
    ensures res.outcome == Ok <==>
      && Check(w, escrow, vault, destination) == None
      && Ready(w.escrows[escrow], w.slot)
      && Transfer(w.tokens, vault, destination, VaultAuthorityAddress(escrow), w.tokens[vault].amount).Success?
    // disabled is reported before readiness: a disabled escrow never says "not ready"
    ensures Check(w, escrow, vault, destination) == None && w.escrows[escrow].autoReleaseSlot == 0 ==>
      res.outcome == Err(AutoReleaseDisabled)
    ensures Check(w, escrow, vault, destination) == None && 0 < w.escrows[escrow].autoReleaseSlot && w.slot < w.escrows[escrow].autoReleaseSlot ==>
      res.outcome == Err(AutoReleaseNotReady)
    ensures res.outcome == Ok ==>
      && res.world.slot == w.slot
      && res.world.escrows == w.escrows[escrow := w.escrows[escrow].(status := Released, updatedAtSlot := w.slot)]
      && Moved(w.tokens, res.world.tokens, vault, destination, w.tokens[vault].amount)
      && res.world.tokens[destination].owner == w.escrows[escrow].beneficiary
    ensures res.outcome == Ok && destination != vault ==> res.world.tokens[vault].amount == 0
  {
    match Check(w, escrow, vault, destination)
    case Some(err) => Abort(w, err)
    case None =>
      var e := w.escrows[escrow];
      if e.autoReleaseSlot == AUTO_RELEASE_DISABLED then Abort(w, AutoReleaseDisabled)
      else if w.slot < e.autoReleaseSlot then Abort(w, AutoReleaseNotReady)
      else
        match Transfer(w.tokens, vault, destination, VaultAuthorityAddress(escrow), w.tokens[vault].amount)
        case Failure(err) => Abort(w, err)
        case Success(tokens) =>
          Effect(Ok, w.(escrows := w.escrows[escrow := e.(status := Released, updatedAtSlot := w.slot)], tokens := tokens))
  }

  /** Who cranks makes no difference: the outcome is the same for every signer. */
  lemma Permissionless(w: World, c1: Address, c2: Address, escrow: Address, vault: Address, destination: Address)
    ensures Apply(w, c1, escrow, vault, destination) == Apply(w, c2, escrow, vault, destination)
  {
  }
}
