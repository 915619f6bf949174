/** The escrow record (`EscrowAccount`) and its status. */
module State {
  import opened Numeric
  import opened Wrappers
  import opened Pda

  /** The five states of an escrow. */
  datatype EscrowStatus = Created | Funded | Disputed | Released | Cancelled

  const ALL_STATUSES: seq<EscrowStatus> := [Created, Funded, Disputed, Released, Cancelled]

  /** `impl Default for EscrowStatus` */
  const DEFAULT_STATUS: EscrowStatus := Created

  /** `#[max_len(128)]` on `dispute_reason`, in bytes. */
  const MAX_REASON_LEN: nat := 128

  /** The stored `auto_release_slot` that means "auto-release disabled". */
  const AUTO_RELEASE_DISABLED: U64 := 0

  /** `impl Display for EscrowStatus` */
  function StatusName(s: EscrowStatus): (name: string)
    ensures |name| > 0 && 'A' <= name[0] <= 'Z'
  {
    match s
    case Created => "Created"
    case Funded => "Funded"
    case Disputed => "Disputed"
    case Released => "Released"
    case Cancelled => "Cancelled"
  }

  /** The list of statuses is exhaustive and lists each variant once; the default is `Created`. */
  lemma StatusesAreFive()
    ensures forall s: EscrowStatus :: s in ALL_STATUSES
    ensures |ALL_STATUSES| == 5
    ensures forall i, j :: 0 <= i < j < |ALL_STATUSES| ==> ALL_STATUSES[i] != ALL_STATUSES[j]
    ensures DEFAULT_STATUS == ALL_STATUSES[0]
  {
    forall s: EscrowStatus ensures s in ALL_STATUSES {
      match s
      case Created => assert ALL_STATUSES[0] == s;
      case Funded => assert ALL_STATUSES[1] == s;
      case Disputed => assert ALL_STATUSES[2] == s;
      case Released => assert ALL_STATUSES[3] == s;
      case Cancelled => assert ALL_STATUSES[4] == s;
    }
  }

  /** `Display` writes each status under its own variant name and never two under one. */
  lemma StatusNameInjective(a: EscrowStatus, b: EscrowStatus)
    ensures StatusName(a) == StatusName(b) <==> a == b
    ensures |StatusName(a)| > 0
  {
    if a != b {
      match a
      case Created => assert StatusName(a)[0] == 'C' && (b == Cancelled ==> StatusName(a)[1] != StatusName(b)[1]);
      case Cancelled => assert StatusName(a)[0] == 'C' && (b == Created ==> StatusName(a)[1] != StatusName(b)[1]);
      case _ =>
    }
  }

  /** `Released` and `Cancelled` have no outgoing transition. */
  predicate IsTerminal(s: EscrowStatus)
  {
    s == Released || s == Cancelled
  }

  /** `EscrowAccount`; the two bump fields are left out (see README). */
  datatype EscrowAccount = EscrowAccount(
    escrowId: U64,
    depositor: Address,
    beneficiary: Address,
    arbiter: Address,
    mint: Address,
    vault: Address,
    amount: U64,
    status: EscrowStatus,
    autoReleaseSlot: U64,
    createdAtSlot: U64,
    updatedAtSlot: U64,
    disputeReason: seq<Byte>)

  /** `auto_release_slot.unwrap_or(0)`: how `initialize_escrow` stores its optional slot. */
  function StoredAutoReleaseSlot(requested: Option<U64>): (stored: U64)
    ensures stored == AUTO_RELEASE_DISABLED <==> requested == None || requested == Some(0)
    ensures requested.Some? ==> stored == requested.value
  {
    match requested
    case None => AUTO_RELEASE_DISABLED
    case Some(s) => s
  }

  /** How the stored slot is read back: zero is "disabled", any other value a threshold. */
  function AutoReleaseThreshold(stored: U64): Option<U64>
  {
    if stored == AUTO_RELEASE_DISABLED then None else Some(stored)
  }

  /**
   * Storing and reading back the requested slot gives it back, except that an
   * explicit `Some(0)` reads back as disabled.
   */
  lemma AutoReleaseSlotRoundTrip(requested: Option<U64>)
    ensures AutoReleaseThreshold(StoredAutoReleaseSlot(requested)) ==
            (if requested == Some(0) then None else requested)
  {
  }
}
