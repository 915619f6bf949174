/** The program's entry points: one instruction per `#[program]` function, and their dispatch. */
module Engine {
  import opened Numeric
  import opened Wrappers
  import opened Pda
  import opened State
  import opened Errors
  import opened Ledger
  import I = Initialize
  import F = Fund
  import R = Release
  import D = Dispute
  import C = Cancel
  import A = AutoRelease

  /** An instruction with its signer, the accounts it names and its arguments. */
  datatype Instruction =
    | InitializeEscrow(depositor: Address, beneficiary: Address, arbiter: Address, mint: Address,
                       escrow: Address, vault: Address, escrowId: U64, amount: U64, autoReleaseSlot: Option<U64>)
    | FundEscrow(signer: Address, escrow: Address, depositorToken: Address, vault: Address)
    | ReleaseFunds(signer: Address, escrow: Address, vault: Address, beneficiaryToken: Address)
    | RaiseDispute(signer: Address, escrow: Address, reason: seq<Byte>)
    | ResolveDispute(signer: Address, escrow: Address, vault: Address, beneficiaryToken: Address,
                     depositorToken: Address, releaseToBeneficiary: bool)
    | CancelEscrow(signer: Address, escrow: Address, vault: Address, depositorToken: Address)
    | AutoRelease(signer: Address, escrow: Address, vault: Address, beneficiaryToken: Address)

  /** Run one transaction. */
  function Step(w: World, ins: Instruction): (res: Effect)
    ensures res.outcome.Err? ==> res.world == w
    ensures res.world.slot == w.slot
  {
    match ins
    case InitializeEscrow(d, b, arb, m, e, v, id, amt, ars) => I.Apply(w, d, b, arb, m, e, v, id, amt, ars)
    case FundEscrow(s, e, src, v) => F.Apply(w, s, e, src, v)
    case ReleaseFunds(s, e, v, bt) => R.Apply(w, s, e, v, bt)
    case RaiseDispute(s, e, reason) => D.Raise(w, s, e, reason)
    case ResolveDispute(s, e, v, bt, dt, flag) => D.Resolve(w, s, e, v, bt, dt, flag)
    case CancelEscrow(s, e, v, dt) => C.Apply(w, s, e, v, dt)
    case AutoRelease(s, e, v, bt) => A.Apply(w, s, e, v, bt)
  }

  /** The record an instruction other than `initialize_escrow` acts on. */
  function Target(ins: Instruction): Address
  {
    ins.escrow
  }

  /** The token accounts an instruction names besides the escrow's own vault. */
  function UserTokenAccounts(ins: Instruction): set<Address>
  {
    match ins
    case InitializeEscrow(_, _, _, _, _, _, _, _, _) => {}
    case FundEscrow(_, _, src, _) => {src}
    case ReleaseFunds(_, _, _, bt) => {bt}
    case RaiseDispute(_, _, _) => {}
    case ResolveDispute(_, _, _, bt, dt, _) => {bt, dt}
    case CancelEscrow(_, _, _, dt) => {dt}
    case AutoRelease(_, _, _, bt) => {bt}
  }
}
