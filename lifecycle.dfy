/** The state machine the instructions implement, record by record. */
module Lifecycle {
  import opened Numeric
  import opened Pda
  import opened State
  import opened Errors
  import opened Ledger
  import opened Engine
  import opened Invariants
  import opened Wrappers
  import I = Initialize
  import F = Fund
  import R = Release
  import D = Dispute
  import C = Cancel
  import A = AutoRelease

  /**
   * The status changes some instruction can make: fund; release, auto-release
   * or dispute a funded escrow; cancel an unfunded or a funded one; resolve a
   * dispute either way.
   */
  predicate Allowed(from: EscrowStatus, to: EscrowStatus)
  {
    || (from == Created && to == Funded)
    || (from == Created && to == Cancelled)
    || (from == Funded && to == Released)
    || (from == Funded && to == Disputed)
    || (from == Funded && to == Cancelled)
    || (from == Disputed && to == Released)
    || (from == Disputed && to == Cancelled)
  }

  /** No allowed change leaves a terminal status or returns to `Funded` from a dispute. */
  lemma AllowedNeverLeavesTerminal(from: EscrowStatus, to: EscrowStatus)
    requires Allowed(from, to)
    ensures !IsTerminal(from) && to != Created && (from == Disputed ==> IsTerminal(to))
  {
  }

  /**
   * What one transaction may do to an existing record `a`, going from `w` to
   * `w'`: the record stays, its terms stay, its status changes only along
   * `Allowed`, only the record the instruction names changes, its stamp never
   * goes back, and its dispute reason changes only when a dispute is raised on
   * a funded escrow.
   */
  predicate Respects(w: World, w': World, ins: Instruction, a: Address)
    requires a in w.escrows
  {
    && a in w'.escrows
    && SameTerms(w.escrows[a], w'.escrows[a])
    && (w'.escrows[a].status == w.escrows[a].status || Allowed(w.escrows[a].status, w'.escrows[a].status))
    && (a != Target(ins) ==> w'.escrows[a] == w.escrows[a])
    && (w.escrows[a].updatedAtSlot <= w.slot ==> w.escrows[a].updatedAtSlot <= w'.escrows[a].updatedAtSlot)
    && (w'.escrows[a].disputeReason != w.escrows[a].disputeReason ==>
          ins.RaiseDispute? && w.escrows[a].status == Funded && w'.escrows[a].status == Disputed)
  }

  lemma InitializeRespects(w: World, d: Address, b: Address, arb: Address, m: Address,
                           e: Address, v: Address, id: U64, amt: U64, ars: Option<U64>, a: Address)
    requires a in w.escrows
    ensures Respects(w, I.Apply(w, d, b, arb, m, e, v, id, amt, ars).world, InitializeEscrow(d, b, arb, m, e, v, id, amt, ars), a)
  {
    assert InUse(w, a);
  }

  lemma FundRespects(w: World, s: Address, e: Address, src: Address, v: Address, a: Address)
    requires a in w.escrows
    ensures Respects(w, F.Apply(w, s, e, src, v).world, FundEscrow(s, e, src, v), a)
  {
  }

  lemma ReleaseRespects(w: World, s: Address, e: Address, v: Address, bt: Address, a: Address)
    requires a in w.escrows
    ensures Respects(w, R.Apply(w, s, e, v, bt).world, ReleaseFunds(s, e, v, bt), a)
  {
  }

  lemma RaiseRespects(w: World, s: Address, e: Address, reason: seq<Byte>, a: Address)
    requires a in w.escrows
    ensures Respects(w, D.Raise(w, s, e, reason).world, RaiseDispute(s, e, reason), a)
  {
  }

  lemma ResolveRespects(w: World, s: Address, e: Address, v: Address, bt: Address, dt: Address, flag: bool, a: Address)
    requires a in w.escrows
    ensures Respects(w, D.Resolve(w, s, e, v, bt, dt, flag).world, ResolveDispute(s, e, v, bt, dt, flag), a)
  {
  }

  lemma CancelRespects(w: World, s: Address, e: Address, v: Address, dt: Address, a: Address)
    requires a in w.escrows
    ensures Respects(w, C.Apply(w, s, e, v, dt).world, CancelEscrow(s, e, v, dt), a)
  {
  }

  lemma AutoReleaseRespects(w: World, s: Address, e: Address, v: Address, bt: Address, a: Address)
    requires a in w.escrows
    ensures Respects(w, A.Apply(w, s, e, v, bt).world, AutoRelease(s, e, v, bt), a)
  {
  }

  /** Every transaction, on every existing record, keeps to the lifecycle (`Respects`). */
  lemma StepRespectsLifecycle(w: World, ins: Instruction, a: Address)
    requires a in w.escrows
    ensures Respects(w, Step(w, ins).world, ins, a)
  {
    match ins
    case InitializeEscrow(d, b, arb, m, e, v, id, amt, ars) => InitializeRespects(w, d, b, arb, m, e, v, id, amt, ars, a);
    case FundEscrow(s, e, src, v) => FundRespects(w, s, e, src, v, a);
    case ReleaseFunds(s, e, v, bt) => ReleaseRespects(w, s, e, v, bt, a);
    case RaiseDispute(s, e, reason) => RaiseRespects(w, s, e, reason, a);
    case ResolveDispute(s, e, v, bt, dt, flag) => ResolveRespects(w, s, e, v, bt, dt, flag, a);
    case CancelEscrow(s, e, v, dt) => CancelRespects(w, s, e, v, dt, a);
    case AutoRelease(s, e, v, bt) => AutoReleaseRespects(w, s, e, v, bt, a);
  }

  /**
   * `Released` and `Cancelled` are final: no instruction changes such a
   * record, and every instruction that names it fails.
   */
  lemma TerminalIsFinal(w: World, ins: Instruction, a: Address)
    requires a in w.escrows && IsTerminal(w.escrows[a].status)
    ensures a in Step(w, ins).world.escrows && Step(w, ins).world.escrows[a] == w.escrows[a]
    ensures Target(ins) == a ==> Step(w, ins).outcome.Err?
  {
    StepRespectsLifecycle(w, ins, a);
    if Target(ins) == a && ins.InitializeEscrow? {
      assert InUse(w, a);
    }
  }
}
