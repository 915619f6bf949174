/** The accounts one transaction can see, and what running it produces. */
module Ledger {
  import opened Numeric
  import opened Pda
  import opened State
  import opened Errors
  import opened Token

  /**
   * The escrow records and token accounts at their addresses, and the current
   * slot of the host's clock.
   */
  datatype World = World(escrows: map<Address, EscrowAccount>, tokens: Accounts, slot: U64)

  /** A transaction's outcome and the accounts after it (unchanged when it aborts). */
  datatype Effect = Effect(outcome: Outcome, world: World)

  /** An address that already holds an account of either kind. */
  predicate InUse(w: World, a: Address)
  {
    a in w.escrows || a in w.tokens
  }

  /** The named accounts deserialize: the record and two token accounts exist. */
  predicate Loaded(w: World, escrow: Address, first: Address, second: Address)
  {
    escrow in w.escrows && first in w.tokens && second in w.tokens
  }

  /** Abort: the host discards every tentative write. */
  function Abort(w: World, e: Error): Effect
  {
    Effect(Err(e), w)
  }
}
