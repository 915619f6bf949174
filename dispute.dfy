/**
 * `raise_dispute`: a party freezes a funded escrow with a reason;
 * `resolve_dispute`: the arbiter pays the whole vault to one side.
 */
module Dispute {
  import opened Numeric
  import opened Wrappers
  import opened Pda
  import opened State
  import opened Errors
  import opened Token
  import opened Ledger

  /**
   * The account layer of `RaiseDispute`: the `Funded` status guard comes
   * before the party check.
   */
  function RaiseCheck(w: World, party: Address, escrow: Address): (r: Option<Error>)
    ensures r == None <==>
      && escrow in w.escrows
      && w.escrows[escrow].status == Funded
      && (party == w.escrows[escrow].depositor || party == w.escrows[escrow].beneficiary)
    ensures escrow in w.escrows && w.escrows[escrow].status != Funded ==> r == Some(InvalidState)
    ensures escrow in w.escrows && w.escrows[escrow].status == Funded
            && party != w.escrows[escrow].depositor && party != w.escrows[escrow].beneficiary ==>
      r == Some(UnauthorizedParty)
  {
    if escrow !in w.escrows then Some(AccountNotInitialized)
    else
      var e := w.escrows[escrow];
      if e.status != Funded then Some(InvalidState)
      else if party != e.depositor && party != e.beneficiary then Some(UnauthorizedParty)
      else None
  }

  /** The whole `raise_dispute` transaction; `reason` is the UTF-8 bytes of the string. */
  function Raise(w: World, party: Address, escrow: Address, reason: seq<Byte>): (res: Effect)
    ensures res.outcome.Err? ==> res.world == w
    ensures res.outcome == Ok <==> RaiseCheck(w, party, escrow) == None && |reason| <= MAX_REASON_LEN
    ensures RaiseCheck(w, party, escrow) == None && |reason| > MAX_REASON_LEN ==> res.outcome == Err(DisputeReasonTooLong)
    // no tokens move; only status, reason and slot of this record change
    ensures res.world.tokens == w.tokens && res.world.slot == w.slot
    ensures res.outcome == Ok ==>
      res.world.escrows == w.escrows[escrow := w.escrows[escrow].(status := Disputed, disputeReason := reason, updatedAtSlot := w.slot)]
  {
    match RaiseCheck(w, party, escrow)
    case Some(err) => Abort(w, err)
    case None =>
      if |reason| > MAX_REASON_LEN then Abort(w, DisputeReasonTooLong)
      else
        var e := w.escrows[escrow];
        Effect(Ok, w.(escrows := w.escrows[escrow := e.(status := Disputed, disputeReason := reason, updatedAtSlot := w.slot)]))
  }

  predicate ResolveLoaded(w: World, escrow: Address, vault: Address, toBeneficiary: Address, toDepositor: Address)
  {
    escrow in w.escrows && vault in w.tokens && toBeneficiary in w.tokens && toDepositor in w.tokens
  }

  /**
   * The account layer of `ResolveDispute`: `has_one = arbiter`, the `Disputed`
   * status guard, the vault's address, and both payout accounts, whichever
   * one the arbiter picks.
   */
  function ResolveCheck(w: World, arbiter: Address, escrow: Address, vault: Address,
                        toBeneficiary: Address, toDepositor: Address): (r: Option<Error>)
    ensures r == None <==>
      && ResolveLoaded(w, escrow, vault, toBeneficiary, toDepositor)
      && var e := w.escrows[escrow];
      && arbiter == e.arbiter && e.status == Disputed && vault == e.vault
      && w.tokens[toBeneficiary].mint == e.mint && w.tokens[toBeneficiary].owner == e.beneficiary
      && w.tokens[toDepositor].mint == e.mint && w.tokens[toDepositor].owner == e.depositor
    ensures ResolveLoaded(w, escrow, vault, toBeneficiary, toDepositor) && arbiter != w.escrows[escrow].arbiter ==>
      r == Some(UnauthorizedArbiter)
    ensures ResolveLoaded(w, escrow, vault, toBeneficiary, toDepositor) && arbiter == w.escrows[escrow].arbiter
            && w.escrows[escrow].status != Disputed ==>
      r == Some(InvalidState)
  {
    if !ResolveLoaded(w, escrow, vault, toBeneficiary, toDepositor) then Some(AccountNotInitialized)
    else
      var e := w.escrows[escrow];
      if arbiter != e.arbiter then Some(UnauthorizedArbiter)
      else if e.status != Disputed then Some(InvalidState)
      else if vault != e.vault then Some(AccountMismatch)
      else if w.tokens[toBeneficiary].mint != e.mint then Some(AccountMismatch)
      else if w.tokens[toBeneficiary].owner != e.beneficiary then Some(AccountMismatch)
      else if w.tokens[toDepositor].mint != e.mint then Some(AccountMismatch)
      else if w.tokens[toDepositor].owner != e.depositor then Some(AccountMismatch)
      else None
  }

  /** Where the arbiter's ruling sends the vault, and the status it leaves. */
  function Ruling(releaseToBeneficiary: bool, toBeneficiary: Address, toDepositor: Address): (r: (Address, EscrowStatus))
  {
    if releaseToBeneficiary then (toBeneficiary, Released) else (toDepositor, Cancelled)
  }

  /**
   * The ruling ends the escrow: the status is terminal, it is `Released` exactly
   * when the arbiter rules for the beneficiary, and the vault goes to the side
   * that status names.
   */
  lemma RulingPaysWinner(releaseToBeneficiary: bool, toBeneficiary: Address, toDepositor: Address)
    ensures var r := Ruling(releaseToBeneficiary, toBeneficiary, toDepositor);
            && IsTerminal(r.1)
            && (r.1 == Released <==> releaseToBeneficiary)
            && r.0 == (if r.1 == Released then toBeneficiary else toDepositor)
  {
  }

  /**
   * The whole `resolve_dispute` transaction: the vault's whole balance moves,
   * even when it is zero, and the reason is kept.
   */
  function Resolve(w: World, arbiter: Address, escrow: Address, vault: Address,
                   toBeneficiary: Address, toDepositor: Address, releaseToBeneficiary: bool): (res: Effect)
    ensures res.outcome.Err? ==> res.world == w
    ensures res.outcome == Ok <==>
      && ResolveCheck(w, arbiter, escrow, vault, toBeneficiary, toDepositor) == None
      && Transfer(w.tokens, vault, Ruling(releaseToBeneficiary, toBeneficiary, toDepositor).0, VaultAuthorityAddress(escrow), w.tokens[vault].amount).Success?
    ensures res.outcome == Ok ==>
      && var e := w.escrows[escrow];
      && var destination := if releaseToBeneficiary then toBeneficiary else toDepositor;
      && res.world.slot == w.slot
      && res.world.escrows == w.escrows[escrow := e.(status := if releaseToBeneficiary then Released else Cancelled,
                                                     updatedAtSlot := w.slot)]
      && Moved(w.tokens, res.world.tokens, vault, destination, w.tokens[vault].amount)
      && res.world.tokens[destination].owner == (if releaseToBeneficiary then e.beneficiary else e.depositor)
    // resolving never leaves the record disputed
    ensures res.outcome == Ok ==> IsTerminal(res.world.escrows[escrow].status)
  {
    match ResolveCheck(w, arbiter, escrow, vault, toBeneficiary, toDepositor)
    case Some(err) => Abort(w, err)
    case None =>
      var e := w.escrows[escrow];
      var amount := w.tokens[vault].amount;
      var (destination, status) := Ruling(releaseToBeneficiary, toBeneficiary, toDepositor);
      match Transfer(w.tokens, vault, destination, VaultAuthorityAddress(escrow), amount)
      case Failure(err) => Abort(w, err)
      case Success(tokens) =>
        Effect(Ok, w.(escrows := w.escrows[escrow := e.(status := status, updatedAtSlot := w.slot)], tokens := tokens))
  }

  /** A dispute can only be raised on a funded escrow: an unfunded one is refused. */
  lemma UnfundedCannotBeDisputed(w: World, party: Address, escrow: Address, reason: seq<Byte>)
    requires escrow in w.escrows && w.escrows[escrow].status == Created
    ensures Raise(w, party, escrow, reason) == Abort(w, InvalidState)
  {
  }
}
