/**
 * The three flows the repository's test suite drives, replayed on the model:
 * escrow 1 is released, escrow 2 is disputed and refunded, escrow 3 is
 * cancelled before funding.
 */
module Scenarios {
  import opened Numeric
  import opened Wrappers
  import opened Pda
  import opened State
  import opened Errors
  import opened Token
  import opened Ledger
  import opened Engine

  const DEPOSITOR: Address := Key([1])
  const BENEFICIARY: Address := Key([2])
  const ARBITER: Address := Key([3])
  const MINT: Address := Key([4])
  const DEPOSITOR_TOKEN: Address := Key([5])
  const BENEFICIARY_TOKEN: Address := Key([6])
  const REFUND_TOKEN: Address := Key([7])   // the fresh depositor account the refund goes to
  const AMOUNT: U64 := 1_000_000

  /** The depositor holds 2,000,000 tokens; the other two accounts are empty. */
  function Genesis(): World
  {
    World(map[], map[DEPOSITOR_TOKEN := TokenAccount(MINT, DEPOSITOR, 2_000_000),
                     BENEFICIARY_TOKEN := TokenAccount(MINT, BENEFICIARY, 0),
                     REFUND_TOKEN := TokenAccount(MINT, DEPOSITOR, 0)], 100)
  }

  function EscrowOf(id: U64): Address { EscrowAddress(DEPOSITOR, id) }
  function VaultOf(id: U64): Address { VaultAddress(EscrowOf(id)) }

  function Init(id: U64): Instruction
  {
    InitializeEscrow(DEPOSITOR, BENEFICIARY, ARBITER, MINT, EscrowOf(id), VaultOf(id), id, AMOUNT, None)
  }

  /** Escrow 1: initialize, fund, release; the beneficiary ends with 1,000,000. */
  lemma ReleaseFlow()
    ensures var s1 := Step(Genesis(), Init(1));
            var s2 := Step(s1.world, FundEscrow(DEPOSITOR, EscrowOf(1), DEPOSITOR_TOKEN, VaultOf(1)));
            var s3 := Step(s2.world, ReleaseFunds(DEPOSITOR, EscrowOf(1), VaultOf(1), BENEFICIARY_TOKEN));
            && s1.outcome == Ok && s1.world.escrows[EscrowOf(1)].status == Created
            && s2.outcome == Ok && s2.world.escrows[EscrowOf(1)].status == Funded
            && s2.world.tokens[VaultOf(1)].amount == 1_000_000
            && s3.outcome == Ok && s3.world.escrows[EscrowOf(1)].status == Released
            && s3.world.tokens[BENEFICIARY_TOKEN].amount == 1_000_000
            && s3.world.tokens[VaultOf(1)].amount == 0
  {
    DerivationsAreNamespaced(DEPOSITOR, 1, EscrowOf(1), EscrowOf(1));
  }

  /** Escrow 2: initialize, fund, dispute with a reason, resolve in the depositor's favour. */
  lemma DisputeFlow(reason: seq<Byte>)
    requires reason == Ascii("Service not delivered as agreed")
    ensures var s1 := Step(Genesis(), Init(2));
            var s2 := Step(s1.world, FundEscrow(DEPOSITOR, EscrowOf(2), DEPOSITOR_TOKEN, VaultOf(2)));
            var s3 := Step(s2.world, RaiseDispute(DEPOSITOR, EscrowOf(2), reason));
            var s4 := Step(s3.world, ResolveDispute(ARBITER, EscrowOf(2), VaultOf(2), BENEFICIARY_TOKEN, REFUND_TOKEN, false));
            && s1.outcome == Ok && s2.outcome == Ok
            && s3.outcome == Ok && EscrowOf(2) in s3.world.escrows
            && s3.world.escrows[EscrowOf(2)].status == Disputed
            && s3.world.escrows[EscrowOf(2)].disputeReason == reason
            && s4.outcome == Ok && EscrowOf(2) in s4.world.escrows && REFUND_TOKEN in s4.world.tokens
            && s4.world.escrows[EscrowOf(2)].status == Cancelled
            && s4.world.tokens[REFUND_TOKEN].amount == 1_000_000
            && s4.world.escrows[EscrowOf(2)].disputeReason == reason
  {
    DerivationsAreNamespaced(DEPOSITOR, 2, EscrowOf(2), EscrowOf(2));
  }

  /** Escrow 3: initialize and cancel; the vault stays empty and nothing moves. */
  lemma CancelFlow()
    ensures var s1 := Step(Genesis(), Init(3));
            var s2 := Step(s1.world, CancelEscrow(DEPOSITOR, EscrowOf(3), VaultOf(3), DEPOSITOR_TOKEN));
            && s1.outcome == Ok
            && s2.outcome == Ok && s2.world.escrows[EscrowOf(3)].status == Cancelled
            && s2.world.tokens == s1.world.tokens
            && s2.world.tokens[VaultOf(3)].amount == 0
  {
    DerivationsAreNamespaced(DEPOSITOR, 3, EscrowOf(3), EscrowOf(3));
  }
}
