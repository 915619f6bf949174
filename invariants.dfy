/**
 * What every committed transaction preserves, on the assumption that only
 * this program moves tokens in and out of a vault.
 */
module Invariants {
  import opened Numeric
  import opened Wrappers
  import opened Pda
  import opened State
  import opened Errors
  import opened Token
  import opened Ledger
  import opened Engine
  import I = Initialize
  import F = Fund
  import R = Release
  import D = Dispute
  import C = Cancel
  import A = AutoRelease

  /** The vault holds nothing before funding and after payout, and exactly `amount` in between. */
  function ExpectedVaultBalance(e: EscrowAccount): nat
  {
    if e.status == Funded || e.status == Disputed then e.amount else 0
  }

  /** The invariant of one record stored at address `a`. */
  predicate RecordConsistent(w: World, a: Address)
    requires a in w.escrows
  {
    var e := w.escrows[a];
    && a == EscrowAddress(e.depositor, e.escrowId)
    && e.vault == VaultAddress(a)
    && e.vault in w.tokens
    && w.tokens[e.vault].mint == e.mint
    && w.tokens[e.vault].owner == VaultAuthorityAddress(a)
    && w.tokens[e.vault].amount == ExpectedVaultBalance(e)
    && e.amount > 0
    && |e.disputeReason| <= MAX_REASON_LEN
    && (e.status == Created || e.status == Funded ==> e.disputeReason == [])
    && e.createdAtSlot <= e.updatedAtSlot <= w.slot
  }

  /** Every record is consistent, and no address holds both a record and a token account. */
  predicate Consistent(w: World)
  {
    && (forall a :: a in w.escrows ==> RecordConsistent(w, a))
    && (forall a :: a in w.escrows ==> a !in w.tokens)
  }

  /** `t` is no escrow's vault. */
  predicate NotAVault(w: World, t: Address)
  {
    forall a :: a in w.escrows ==> w.escrows[a].vault != t
  }

  /** The instruction names no vault as a depositor's or beneficiary's token account. */
  predicate NamesNoForeignVault(w: World, ins: Instruction)
  {
    forall t :: t in UserTokenAccounts(ins) ==> NotAVault(w, t)
  }

  /** The fields no instruction changes once a record exists. */
  predicate SameTerms(e1: EscrowAccount, e2: EscrowAccount)
  {
    && e1.escrowId == e2.escrowId && e1.depositor == e2.depositor && e1.beneficiary == e2.beneficiary
    && e1.arbiter == e2.arbiter && e1.mint == e2.mint && e1.vault == e2.vault && e1.amount == e2.amount
    && e1.autoReleaseSlot == e2.autoReleaseSlot && e1.createdAtSlot == e2.createdAtSlot
  }

  /** In a consistent world two records never share a vault. */
  lemma VaultsAreExclusive(w: World, a: Address, b: Address)
    requires Consistent(w) && a in w.escrows && b in w.escrows && a != b
    ensures w.escrows[a].vault != w.escrows[b].vault
  {
    assert RecordConsistent(w, a) && RecordConsistent(w, b);
    DerivationsAreNamespaced(w.escrows[a].depositor, w.escrows[a].escrowId, a, b);
  }

  /** In a consistent world one (depositor, escrow id) pair has at most one record. */
  lemma OneRecordPerPair(w: World, a: Address, b: Address)
    requires Consistent(w) && a in w.escrows && b in w.escrows
    requires w.escrows[a].depositor == w.escrows[b].depositor && w.escrows[a].escrowId == w.escrows[b].escrowId
    ensures a == b
  {
    assert RecordConsistent(w, a) && RecordConsistent(w, b);
  }

  /**
   * Replacing record `a` by `e` and the token accounts by `tokens` keeps the
   * world consistent when the terms stay, the slot is stamped, the vault of
   * `a` holds what the new status expects, and every other vault is untouched.
   */
  lemma {:induction false} UpdatePreserves(w: World, a: Address, e: EscrowAccount, tokens: Accounts)
    requires Consistent(w) && a in w.escrows
    requires SameTerms(w.escrows[a], e) && e.updatedAtSlot == w.slot
    requires |e.disputeReason| <= MAX_REASON_LEN
    requires e.status == Created || e.status == Funded ==> e.disputeReason == []
    requires tokens.Keys == w.tokens.Keys
    requires e.vault in w.tokens && SameAccount(tokens[e.vault], w.tokens[e.vault])
    requires tokens[e.vault].amount == ExpectedVaultBalance(e)
    requires forall b :: b in w.escrows && b != a ==> tokens[w.escrows[b].vault] == w.tokens[w.escrows[b].vault]
    ensures Consistent(w.(escrows := w.escrows[a := e], tokens := tokens))
  {
    var w' := w.(escrows := w.escrows[a := e], tokens := tokens);
    forall b | b in w'.escrows ensures RecordConsistent(w', b) {
      assert RecordConsistent(w, b);
    }
  }

  /** Every other vault differs from `a`'s vault and from the user account `t`. */
  lemma OtherVaultsUntouched(w: World, a: Address, tokens: Accounts, t: Address, amount: nat)
    requires Consistent(w) && a in w.escrows && NotAVault(w, t)
    requires w.escrows[a].vault in w.tokens && t in w.tokens
    requires Moved(w.tokens, tokens, w.escrows[a].vault, t, amount) || Moved(w.tokens, tokens, t, w.escrows[a].vault, amount)
    ensures forall b :: b in w.escrows && b != a ==> tokens[w.escrows[b].vault] == w.tokens[w.escrows[b].vault]
  {
    forall b | b in w.escrows && b != a
      ensures tokens[w.escrows[b].vault] == w.tokens[w.escrows[b].vault]
    {
      VaultsAreExclusive(w, a, b);
      assert RecordConsistent(w, b);
    }
  }

  lemma InitializePreserves(w: World, d: Address, b: Address, arb: Address, m: Address,
                            e: Address, v: Address, id: U64, amt: U64, ars: Option<U64>)
    requires Consistent(w)
    ensures Consistent(I.Apply(w, d, b, arb, m, e, v, id, amt, ars).world)
  {
    var res := I.Apply(w, d, b, arb, m, e, v, id, amt, ars);
    if res.outcome == Ok {
      var w' := res.world;
      DerivationsAreNamespaced(d, id, e, e);
      forall x | x in w'.escrows ensures RecordConsistent(w', x) {
        if x != e {
          assert RecordConsistent(w, x);
        }
      }
    }
  }

  lemma FundPreserves(w: World, s: Address, e: Address, src: Address, v: Address)
    requires Consistent(w) && NotAVault(w, src)
    ensures Consistent(F.Apply(w, s, e, src, v).world)
  {
    var res := F.Apply(w, s, e, src, v);
    if res.outcome == Ok {
      assert RecordConsistent(w, e);
      OtherVaultsUntouched(w, e, res.world.tokens, src, w.escrows[e].amount);
      UpdatePreserves(w, e, res.world.escrows[e], res.world.tokens);
    }
  }

  lemma ReleasePreserves(w: World, s: Address, e: Address, v: Address, bt: Address)
    requires Consistent(w) && NotAVault(w, bt)
    ensures Consistent(R.Apply(w, s, e, v, bt).world)
  {
    var res := R.Apply(w, s, e, v, bt);
    if res.outcome == Ok {
      assert RecordConsistent(w, e);
      OtherVaultsUntouched(w, e, res.world.tokens, bt, w.tokens[v].amount);
      UpdatePreserves(w, e, res.world.escrows[e], res.world.tokens);
    }
  }

  lemma RaisePreserves(w: World, s: Address, e: Address, reason: seq<Byte>)
    requires Consistent(w)
    ensures Consistent(D.Raise(w, s, e, reason).world)
  {
    var res := D.Raise(w, s, e, reason);
    if res.outcome == Ok {
      assert RecordConsistent(w, e);
      UpdatePreserves(w, e, res.world.escrows[e], res.world.tokens);
    }
  }

  lemma ResolvePreserves(w: World, s: Address, e: Address, v: Address, bt: Address, dt: Address, flag: bool)
    requires Consistent(w) && NotAVault(w, if flag then bt else dt)
    ensures Consistent(D.Resolve(w, s, e, v, bt, dt, flag).world)
  {
    var res := D.Resolve(w, s, e, v, bt, dt, flag);
    if res.outcome == Ok {
      assert RecordConsistent(w, e);
      OtherVaultsUntouched(w, e, res.world.tokens, if flag then bt else dt, w.tokens[v].amount);
      UpdatePreserves(w, e, res.world.escrows[e], res.world.tokens);
    }
  }

  lemma CancelPreserves(w: World, s: Address, e: Address, v: Address, dt: Address)
    requires Consistent(w) && NotAVault(w, dt)
    ensures Consistent(C.Apply(w, s, e, v, dt).world)
  {
    var res := C.Apply(w, s, e, v, dt);
    if res.outcome == Ok {
      assert RecordConsistent(w, e);
      OtherVaultsUntouched(w, e, res.world.tokens, dt, w.tokens[v].amount);
      UpdatePreserves(w, e, res.world.escrows[e], res.world.tokens);
    }
  }

  lemma AutoReleasePreserves(w: World, s: Address, e: Address, v: Address, bt: Address)
    requires Consistent(w) && NotAVault(w, bt)
    ensures Consistent(A.Apply(w, s, e, v, bt).world)
  {
    var res := A.Apply(w, s, e, v, bt);
    if res.outcome == Ok {
      assert RecordConsistent(w, e);
      OtherVaultsUntouched(w, e, res.world.tokens, bt, w.tokens[v].amount);
      UpdatePreserves(w, e, res.world.escrows[e], res.world.tokens);
    }
  }

  /**
   * Every transaction keeps the world consistent: in particular a vault holds
   * `amount` exactly while its escrow is `Funded` or `Disputed`, and nothing
   * in every other state.
   */
  lemma StepPreservesConsistent(w: World, ins: Instruction)
    requires Consistent(w) && NamesNoForeignVault(w, ins)
    ensures Consistent(Step(w, ins).world)
  {
    match ins
    case InitializeEscrow(d, b, arb, m, e, v, id, amt, ars) => InitializePreserves(w, d, b, arb, m, e, v, id, amt, ars);
    case FundEscrow(s, e, src, v) => FundPreserves(w, s, e, src, v);
    case ReleaseFunds(s, e, v, bt) => ReleasePreserves(w, s, e, v, bt);
    case RaiseDispute(s, e, reason) => RaisePreserves(w, s, e, reason);
    case ResolveDispute(s, e, v, bt, dt, flag) => ResolvePreserves(w, s, e, v, bt, dt, flag);
    case CancelEscrow(s, e, v, dt) => CancelPreserves(w, s, e, v, dt);
    case AutoRelease(s, e, v, bt) => AutoReleasePreserves(w, s, e, v, bt);
  }

  /**
   * In a consistent world the token program's own checks never refuse a
   * transfer the guards admitted: every vault holds the escrow's mint and is
   * owned by the authority the program signs as.
   */
  lemma TokenChecksPassWhenConsistent(w: World, ins: Instruction)
    requires Consistent(w)
    ensures Step(w, ins).outcome != Err(MintMismatch) && Step(w, ins).outcome != Err(OwnerMismatch)
  {
    if ins.escrow in w.escrows {
      assert RecordConsistent(w, ins.escrow);
    }
  }

  /** The host's clock only moves forward. */
  function Advance(w: World, slot: U64): World
  {
    if w.slot <= slot then w.(slot := slot) else w
  }

  /** What the host does: run a transaction, or move its clock. */
  datatype Event = Transact(ins: Instruction) | Tick(slot: U64)

  function Run(w: World, events: seq<Event>): World
    decreases |events|
  {
    if events == [] then w
    else
      var w' := match events[0]
        case Transact(ins) => Step(w, ins).world
        case Tick(slot) => Advance(w, slot);
      Run(w', events[1..])
  }

  /** No transaction of the run names a vault as a user token account. */
  predicate RunNamesNoForeignVault(w: World, events: seq<Event>)
    decreases |events|
  {
    events != [] ==>
      match events[0]
      case Transact(ins) => NamesNoForeignVault(w, ins) && RunNamesNoForeignVault(Step(w, ins).world, events[1..])
      case Tick(slot) => RunNamesNoForeignVault(Advance(w, slot), events[1..])
  }

  /** Consistency holds after any run of the host from a consistent world. */
  lemma {:induction false} RunPreservesConsistent(w: World, events: seq<Event>)
    requires Consistent(w) && RunNamesNoForeignVault(w, events)
    ensures Consistent(Run(w, events))
    decreases |events|
  {
    if events != [] {
      match events[0]
      case Transact(ins) =>
        StepPreservesConsistent(w, ins);
        RunPreservesConsistent(Step(w, ins).world, events[1..]);
      case Tick(slot) =>
        var w' := Advance(w, slot);
        forall a | a in w'.escrows ensures RecordConsistent(w', a) {
          assert RecordConsistent(w, a);
        }
        RunPreservesConsistent(w', events[1..]);
    }
  }
}
