/** `initialize_escrow`: create the escrow record and its empty vault. */
module Initialize {
  import opened Numeric
  import opened Wrappers
  import opened Pda
  import opened State
  import opened Errors
  import opened Token
  import opened Ledger

  /**
   * The account layer of `InitializeEscrow`: the escrow and the vault must sit
   * at the addresses their seeds derive and must not exist yet (`init`).
   */
  function Check(w: World, depositor: Address, escrow: Address, vault: Address, escrowId: U64): (r: Option<Error>)
    ensures r == None <==>
      && escrow == EscrowAddress(depositor, escrowId) && !InUse(w, escrow)
      && vault == VaultAddress(escrow) && !InUse(w, vault)
    ensures escrow == EscrowAddress(depositor, escrowId) && InUse(w, escrow) ==> r == Some(AccountAlreadyInUse)
  {
    if escrow != EscrowAddress(depositor, escrowId) then Some(ConstraintSeeds)
    else if InUse(w, escrow) then Some(AccountAlreadyInUse)
    else if vault != VaultAddress(escrow) then Some(ConstraintSeeds)
    else if InUse(w, vault) then Some(AccountAlreadyInUse)
    else None
  }

  /** The record `handler` writes, field by field. */
  function NewRecord(depositor: Address, beneficiary: Address, arbiter: Address, mint: Address, vault: Address,
                     escrowId: U64, amount: U64, autoReleaseSlot: Option<U64>, slot: U64): EscrowAccount
  {
    EscrowAccount(
      escrowId := escrowId,
      depositor := depositor,
      beneficiary := beneficiary,
      arbiter := arbiter,
      mint := mint,
      vault := vault,
      amount := amount,
      status := Created,
      autoReleaseSlot := StoredAutoReleaseSlot(autoReleaseSlot),
      createdAtSlot := slot,
      updatedAtSlot := slot,
      disputeReason := [])
  }

  /**
   * A new record starts in the default status with no reason, both stamps at
   * the current slot, and an auto-release slot that reads back as requested
   * (`Some(0)` reads back as disabled).
   */
  lemma NewRecordStartsFresh(depositor: Address, beneficiary: Address, arbiter: Address, mint: Address, vault: Address,
                             escrowId: U64, amount: U64, autoReleaseSlot: Option<U64>, slot: U64)
    ensures var r := NewRecord(depositor, beneficiary, arbiter, mint, vault, escrowId, amount, autoReleaseSlot, slot);
            && r.status == DEFAULT_STATUS && r.disputeReason == []
            && r.createdAtSlot == r.updatedAtSlot == slot
            && AutoReleaseThreshold(r.autoReleaseSlot) == (if autoReleaseSlot == Some(0) then None else autoReleaseSlot)
  {
    AutoReleaseSlotRoundTrip(autoReleaseSlot);
  }

  /** The empty vault `init` creates: the escrow's mint, the vault authority as its owner. */
  function NewVault(escrow: Address, mint: Address): (v: TokenAccount)
    ensures v.amount == 0 && v.mint == mint
    ensures v.owner == VaultAuthorityAddress(escrow) && v.owner != VaultAddress(escrow)
  {
    DerivationsAreNamespaced(Key([]), 0, escrow, escrow);
    TokenAccount(mint, VaultAuthorityAddress(escrow), 0)
  }

  /** The whole `initialize_escrow` transaction. */
  function Apply(w: World, depositor: Address, beneficiary: Address, arbiter: Address, mint: Address,
                 escrow: Address, vault: Address, escrowId: U64, amount: U64, autoReleaseSlot: Option<U64>): (res: Effect)
    ensures res.outcome.Err? ==> res.world == w
    ensures res.outcome == Ok <==> Check(w, depositor, escrow, vault, escrowId) == None && amount > 0
    ensures Check(w, depositor, escrow, vault, escrowId) == None && amount == 0 ==> res.outcome == Err(InvalidAmount)
    ensures res.outcome == Ok ==>
      && res.world.slot == w.slot
      && res.world.escrows.Keys == w.escrows.Keys + {escrow}
      && (forall a :: a in w.escrows ==> res.world.escrows[a] == w.escrows[a])
      && var e := res.world.escrows[escrow];
      && e.escrowId == escrowId && e.depositor == depositor && e.beneficiary == beneficiary
      && e.arbiter == arbiter && e.mint == mint && e.vault == vault && e.amount == amount
      && e.status == Created && e.createdAtSlot == e.updatedAtSlot == w.slot
      && e.autoReleaseSlot == (if autoReleaseSlot.Some? then autoReleaseSlot.value else 0)
      && e.disputeReason == []
    // no token moves: the only change to the token accounts is the new, empty vault
    ensures res.outcome == Ok ==>
      && res.world.tokens.Keys == w.tokens.Keys + {vault}
      && (forall t :: t in w.tokens ==> res.world.tokens[t] == w.tokens[t])
      && res.world.tokens[vault] == TokenAccount(mint, VaultAuthorityAddress(escrow), 0)
  {
    match Check(w, depositor, escrow, vault, escrowId)
    case Some(e) => Abort(w, e)
    case None =>
      if amount == 0 then Abort(w, InvalidAmount)
      else
        var record := NewRecord(depositor, beneficiary, arbiter, mint, vault, escrowId, amount, autoReleaseSlot, w.slot);
        Effect(Ok, w.(escrows := w.escrows[escrow := record], tokens := w.tokens[vault := NewVault(escrow, mint)]))
  }

  /** `init` refuses an existing address: a (depositor, escrow id) pair gets at most one record. */
  lemma SecondInitializeFails(w: World, depositor: Address, beneficiary: Address, arbiter: Address, mint: Address,
                              escrow: Address, vault: Address, escrowId: U64, amount: U64, autoReleaseSlot: Option<U64>,
                              beneficiary': Address, arbiter': Address, mint': Address, vault': Address,
                              amount': U64, autoReleaseSlot': Option<U64>)
    requires Apply(w, depositor, beneficiary, arbiter, mint, escrow, vault, escrowId, amount, autoReleaseSlot).outcome == Ok
    ensures var w' := Apply(w, depositor, beneficiary, arbiter, mint, escrow, vault, escrowId, amount, autoReleaseSlot).world;
            Apply(w', depositor, beneficiary', arbiter', mint', escrow, vault', escrowId, amount', autoReleaseSlot')
              == Abort(w', AccountAlreadyInUse)
  {
  }
}
