/**
 * The program as it runs on the host: the escrow records and token accounts
 * are state that each instruction's handler updates in place.
 */
module Program {
  import opened Numeric
  import opened Wrappers
  import opened Pda
  import opened State
  import opened Errors
  import opened Token
  import opened Ledger
  import I = Initialize
  import F = Fund
  import R = Release
  import D = Dispute
  import C = Cancel
  import A = AutoRelease
  import Invariants

  class EscrowProgram {
    var escrows: map<Address, EscrowAccount>
    var tokens: Accounts
    var slot: U64

    /** The accounts as a value, for the specifications. */
    function Snapshot(): World
      reads this
    {
      World(escrows, tokens, slot)
    }

    /** A host with the given token accounts and no escrow yet. */
    constructor (initialTokens: Accounts, initialSlot: U64)
      ensures Snapshot() == World(map[], initialTokens, initialSlot)
    {
      escrows := map[];
      tokens := initialTokens;
      slot := initialSlot;
    }

    /** The host's clock moves forward to `newSlot` (never back). */
    method AdvanceClock(newSlot: U64)
      modifies this
      ensures Snapshot() == Invariants.Advance(old(Snapshot()), newSlot)
    {
      if slot <= newSlot {
        slot := newSlot;
      }
    }

    /** `token::transfer` signed by `authority`: on failure no balance has changed. */
    method TransferTokens(from: Address, to: Address, authority: Address, amount: U64) returns (r: Outcome)
      requires from in tokens && to in tokens
      modifies this
      ensures escrows == old(escrows) && slot == old(slot)
      ensures r == Ok ==> Transfer(old(tokens), from, to, authority, amount) == Success(tokens)
      ensures r.Err? ==> Transfer(old(tokens), from, to, authority, amount) == Failure(r.error) && tokens == old(tokens)
    {
      var source := tokens[from];
      if source.amount < amount {
        return Err(InsufficientFunds);
      }
      var destination := tokens[to];
      if source.mint != destination.mint {
        return Err(MintMismatch);
      }
      if authority != source.owner {
        return Err(OwnerMismatch);
      }
      if from == to {
        return Ok;
      }
      if destination.amount + amount >= U64_LIMIT {
        return Err(Overflow);
      }
      tokens := tokens[from := source.(amount := source.amount - amount)];
      tokens := tokens[to := destination.(amount := destination.amount + amount)];
      r := Ok;
    }

    method InitializeEscrow(depositor: Address, beneficiary: Address, arbiter: Address, mint: Address,
                            escrow: Address, vault: Address, escrowId: U64, amount: U64,
                            autoReleaseSlot: Option<U64>) returns (r: Outcome)
      modifies this
      ensures Effect(r, Snapshot()) ==
              I.Apply(old(Snapshot()), depositor, beneficiary, arbiter, mint, escrow, vault, escrowId, amount, autoReleaseSlot)
    {
      var guard := I.Check(Snapshot(), depositor, escrow, vault, escrowId);
      if guard.Some? {
        return Err(guard.value);
      }
      if amount == 0 {
        return Err(InvalidAmount);
      }
      var stored := StoredAutoReleaseSlot(autoReleaseSlot);
      var record := EscrowAccount(
        escrowId := escrowId,
        depositor := depositor,
        beneficiary := beneficiary,
        arbiter := arbiter,
        mint := mint,
        vault := vault,
        amount := amount,
        status := Created,
        autoReleaseSlot := stored,
        createdAtSlot := slot,
        updatedAtSlot := slot,
        disputeReason := []);
      tokens := tokens[vault := TokenAccount(mint, VaultAuthorityAddress(escrow), 0)];
      escrows := escrows[escrow := record];
      r := Ok;
    }

    method FundEscrow(signer: Address, escrow: Address, source: Address, vault: Address) returns (r: Outcome)
      modifies this
      ensures Effect(r, Snapshot()) == F.Apply(old(Snapshot()), signer, escrow, source, vault)
    {
      var guard := F.Check(Snapshot(), signer, escrow, source, vault);
      if guard.Some? {
        return Err(guard.value);
      }
      var record := escrows[escrow];
      r := TransferTokens(source, vault, signer, record.amount);
      if r.Err? {
        return;
      }
      record := record.(status := Funded);
      record := record.(updatedAtSlot := slot);
      escrows := escrows[escrow := record];
    }

    method ReleaseFunds(signer: Address, escrow: Address, vault: Address, destination: Address) returns (r: Outcome)
      modifies this
      ensures Effect(r, Snapshot()) == R.Apply(old(Snapshot()), signer, escrow, vault, destination)
    {
      var guard := R.Check(Snapshot(), signer, escrow, vault, destination);
      if guard.Some? {
        return Err(guard.value);
      }
      var record := escrows[escrow];
      var amount := tokens[vault].amount;
      r := TransferTokens(vault, destination, VaultAuthorityAddress(escrow), amount);
      if r.Err? {
        return;
      }
      record := record.(status := Released);
      record := record.(updatedAtSlot := slot);
      escrows := escrows[escrow := record];
    }

    method RaiseDispute(party: Address, escrow: Address, reason: seq<Byte>) returns (r: Outcome)
      modifies this
      ensures Effect(r, Snapshot()) == D.Raise(old(Snapshot()), party, escrow, reason)
    {
      var guard := D.RaiseCheck(Snapshot(), party, escrow);
      if guard.Some? {
        return Err(guard.value);
      }
      if |reason| > MAX_REASON_LEN {
        return Err(DisputeReasonTooLong);
      }
      var record := escrows[escrow];
      record := record.(status := Disputed);
      record := record.(disputeReason := reason);
      record := record.(updatedAtSlot := slot);
      escrows := escrows[escrow := record];
      r := Ok;
    }

    method ResolveDispute(arbiter: Address, escrow: Address, vault: Address, toBeneficiary: Address,
                          toDepositor: Address, releaseToBeneficiary: bool) returns (r: Outcome)
      modifies this
      ensures Effect(r, Snapshot()) ==
              D.Resolve(old(Snapshot()), arbiter, escrow, vault, toBeneficiary, toDepositor, releaseToBeneficiary)
    {
      var guard := D.ResolveCheck(Snapshot(), arbiter, escrow, vault, toBeneficiary, toDepositor);
      if guard.Some? {
        return Err(guard.value);
      }
      var record := escrows[escrow];
      var amount := tokens[vault].amount;
      var destination;
      if releaseToBeneficiary {
        record := record.(status := Released);
        destination := toBeneficiary;
      } else {
        record := record.(status := Cancelled);
        destination := toDepositor;
      }
      r := TransferTokens(vault, destination, VaultAuthorityAddress(escrow), amount);
      if r.Err? {
        return;
      }
      record := record.(updatedAtSlot := slot);
      escrows := escrows[escrow := record];
    }

    method CancelEscrow(signer: Address, escrow: Address, vault: Address, refund: Address) returns (r: Outcome)
      modifies this
      ensures Effect(r, Snapshot()) == C.Apply(old(Snapshot()), signer, escrow, vault, refund)
    {
      var guard := C.Check(Snapshot(), signer, escrow, vault, refund);
      if guard.Some? {
        return Err(guard.value);
      }
      var record := escrows[escrow];
      var vaultAmount := tokens[vault].amount;
      if vaultAmount > 0 {
        r := TransferTokens(vault, refund, VaultAuthorityAddress(escrow), vaultAmount);
        if r.Err? {
          return;
        }
      }
      record := record.(status := Cancelled);
      record := record.(updatedAtSlot := slot);
      escrows := escrows[escrow := record];
      r := Ok;
    }

    method AutoRelease(cranker: Address, escrow: Address, vault: Address, destination: Address) returns (r: Outcome)
      modifies this
      ensures Effect(r, Snapshot()) == A.Apply(old(Snapshot()), cranker, escrow, vault, destination)
    {
      var guard := A.Check(Snapshot(), escrow, vault, destination);
      if guard.Some? {
        return Err(guard.value);
      }
      var record := escrows[escrow];
      if record.autoReleaseSlot <= 0 {
        return Err(AutoReleaseDisabled);
      }
      if slot < record.autoReleaseSlot {
        return Err(AutoReleaseNotReady);
      }
      var amount := tokens[vault].amount;
      r := TransferTokens(vault, destination, VaultAuthorityAddress(escrow), amount);
      if r.Err? {
        return;
      }
      record := record.(status := Released);
      record := record.(updatedAtSlot := slot);
      escrows := escrows[escrow := record];
    }
  }
}
