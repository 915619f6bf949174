/**
 * What the payout guards let through when a beneficiary is an address this
 * program derives. A payout account only has to be owned by the beneficiary
 * and hold the escrow's mint, and a vault is owned by a vault authority, so a
 * beneficiary that is a vault authority makes that vault a valid payout
 * account.
 */
module Hazards {
  import opened Numeric
  import opened Wrappers
  import opened Pda
  import opened State
  import opened Errors
  import opened Token
  import opened Ledger
  import opened Engine
  import opened Invariants
  import opened Lifecycle
  import opened Scenarios
  import F = Fund

  /** The test suite's escrow `id`, with `beneficiary` in place of the usual one. */
  function InitFor(id: U64, beneficiary: Address): Instruction
  {
    InitializeEscrow(DEPOSITOR, beneficiary, ARBITER, MINT, EscrowOf(id), VaultOf(id), id, AMOUNT, None)
  }

  /**
   * In any consistent world: when escrow `a`'s beneficiary is escrow `b`'s
   * vault authority, `b`'s vault passes `a`'s payout-account check, so a
   * release of `a` into it names a vault as a user account. Unless `b`'s
   * vault would overflow, the release commits and leaves `b`'s vault holding
   * `a`'s amount on top of its own: the world is no longer consistent.
   */
  lemma ForeignVaultPayout(w: World, a: Address, b: Address)
    requires Consistent(w) && a in w.escrows && b in w.escrows && a != b
    requires w.escrows[a].status == Funded
    requires w.escrows[a].beneficiary == VaultAuthorityAddress(b)
    requires w.escrows[a].mint == w.escrows[b].mint
    ensures var e := w.escrows[a];
            var f := w.escrows[b];
            var release := ReleaseFunds(e.depositor, a, e.vault, f.vault);
            var r := Step(w, release);
            && !NamesNoForeignVault(w, release)
            && (r.outcome == Ok || r.outcome == Err(Overflow))
            && (r.outcome == Ok ==>
                  && b in r.world.escrows && r.world.escrows[b] == f
                  && f.vault in r.world.tokens
                  && r.world.tokens[f.vault].amount == ExpectedVaultBalance(f) + e.amount
                  && !Consistent(r.world))
  {
    var e := w.escrows[a];
    var f := w.escrows[b];
    assert RecordConsistent(w, a) && RecordConsistent(w, b);
    VaultsAreExclusive(w, a, b);
    var release := ReleaseFunds(e.depositor, a, e.vault, f.vault);
    assert !NotAVault(w, f.vault);
    var r := Step(w, release);
    if r.outcome == Ok {
      assert !RecordConsistent(r.world, b);
    }
  }

  /**
   * In any consistent world: when escrow `a`'s beneficiary is its own vault
   * authority, its own vault passes the payout-account check of
   * `release_funds`, `auto_release` and `resolve_dispute` for the
   * beneficiary. Such a payout is a transfer from the vault to itself: when it
   * commits, the record is `Released`, no balance changes, and the vault
   * still holds the amount, so the world is no longer consistent. The
   * depositor's release of a funded escrow always commits this way.
   */
  lemma OwnVaultPayout(w: World, a: Address, ins: Instruction)
    requires Consistent(w) && a in w.escrows
    requires w.escrows[a].beneficiary == VaultAuthorityAddress(a)
    requires ins.ReleaseFunds? || ins.AutoRelease? || (ins.ResolveDispute? && ins.releaseToBeneficiary)
    requires ins.escrow == a && ins.vault == w.escrows[a].vault && ins.beneficiaryToken == w.escrows[a].vault
    ensures ins.ReleaseFunds? && ins.signer == w.escrows[a].depositor && w.escrows[a].status == Funded ==>
      Step(w, ins).outcome == Ok
    ensures Step(w, ins).outcome == Ok ==>
      && a in Step(w, ins).world.escrows && Step(w, ins).world.escrows[a].status == Released
      && Step(w, ins).world.tokens == w.tokens
      && !Consistent(Step(w, ins).world)
  {
    assert RecordConsistent(w, a);
    var r := Step(w, ins);
    if r.outcome == Ok {
      assert !RecordConsistent(r.world, a);
    }
  }

  /** The addresses of the two escrows and their vaults are all different. */
  lemma TwoEscrowsApart()
    ensures EscrowOf(1) != EscrowOf(2) && VaultOf(1) != VaultOf(2)
    ensures EscrowOf(1) != VaultOf(2) && EscrowOf(2) != VaultOf(1)
    ensures EscrowOf(1) != VaultOf(1) && EscrowOf(2) != VaultOf(2)
  {
    EscrowAddressInjective(DEPOSITOR, 1, DEPOSITOR, 2);
    DerivationsAreNamespaced(DEPOSITOR, 1, EscrowOf(1), EscrowOf(2));
    DerivationsAreNamespaced(DEPOSITOR, 2, EscrowOf(2), EscrowOf(1));
    DerivationsAreNamespaced(DEPOSITOR, 1, EscrowOf(1), EscrowOf(1));
    DerivationsAreNamespaced(DEPOSITOR, 2, EscrowOf(2), EscrowOf(2));
  }

  /** The depositor's funded account, untouched so far. */
  predicate DepositorReady(w: World)
  {
    DEPOSITOR_TOKEN in w.tokens && w.tokens[DEPOSITOR_TOKEN] == TokenAccount(MINT, DEPOSITOR, 2_000_000)
  }

  /** Escrow `id` exists for the test suite's depositor and mint with `status`, and `beneficiary`. */
  predicate Holds(w: World, id: U64, status: EscrowStatus, beneficiary: Address)
  {
    && EscrowOf(id) in w.escrows
    && var e := w.escrows[EscrowOf(id)];
    && e.depositor == DEPOSITOR && e.mint == MINT && e.vault == VaultOf(id) && e.amount == AMOUNT
    && e.status == status && e.beneficiary == beneficiary
  }

  /** A consistent world where escrow 1 pays escrow 2's vault authority; escrow 2 is in `Created`. */
  predicate Crossed(w: World, firstStatus: EscrowStatus)
  {
    && Consistent(w)
    && Holds(w, 1, firstStatus, VaultAuthorityAddress(EscrowOf(2)))
    && Holds(w, 2, Created, BENEFICIARY)
  }

  lemma CrossedStep1(w0: World)
    requires w0 == Genesis()
    ensures Step(w0, Init(2)).outcome == Ok
    ensures var w1 := Step(w0, Init(2)).world;
            Consistent(w1) && DepositorReady(w1) && Holds(w1, 2, Created, BENEFICIARY)
            && w1.escrows.Keys == {EscrowOf(2)} && w1.tokens.Keys == w0.tokens.Keys + {VaultOf(2)}
  {
    DerivationsAreNamespaced(DEPOSITOR, 2, EscrowOf(2), EscrowOf(2));
    StepPreservesConsistent(w0, Init(2));
  }

  lemma CrossedStep2(w1: World)
    requires Consistent(w1) && DepositorReady(w1) && Holds(w1, 2, Created, BENEFICIARY)
    requires w1.escrows.Keys == {EscrowOf(2)} && w1.tokens.Keys == Genesis().tokens.Keys + {VaultOf(2)}
    ensures var ins := InitFor(1, VaultAuthorityAddress(EscrowOf(2)));
            Step(w1, ins).outcome == Ok && Crossed(Step(w1, ins).world, Created) && DepositorReady(Step(w1, ins).world)
  {
    TwoEscrowsApart();
    var ins := InitFor(1, VaultAuthorityAddress(EscrowOf(2)));
    StepPreservesConsistent(w1, ins);
  }

  lemma CrossedStep3(w2: World)
    requires Crossed(w2, Created) && DepositorReady(w2)
    ensures var ins := FundEscrow(DEPOSITOR, EscrowOf(1), DEPOSITOR_TOKEN, VaultOf(1));
            Step(w2, ins).outcome == Ok && Crossed(Step(w2, ins).world, Funded)
  {
    TwoEscrowsApart();
    var ins := FundEscrow(DEPOSITOR, EscrowOf(1), DEPOSITOR_TOKEN, VaultOf(1));
    assert RecordConsistent(w2, EscrowOf(1)) && RecordConsistent(w2, EscrowOf(2));
    assert F.Check(w2, DEPOSITOR, EscrowOf(1), DEPOSITOR_TOKEN, VaultOf(1)) == None;
    assert Transfer(w2.tokens, DEPOSITOR_TOKEN, VaultOf(1), DEPOSITOR, AMOUNT).Success?;
    var r := Step(w2, ins);
    assert r == F.Apply(w2, DEPOSITOR, EscrowOf(1), DEPOSITOR_TOKEN, VaultOf(1));
    assert r.outcome == Ok;
    StepPreservesConsistent(w2, ins);
    assert Holds(r.world, 2, Created, BENEFICIARY);
  }

  /**
   * From the test suite's starting accounts: initialize escrow 2, initialize
   * escrow 1 with escrow 2's vault authority as beneficiary, fund escrow 1,
   * and release it into escrow 2's vault. Every step commits. The world is
   * consistent up to the release and not after it: escrow 2 is still
   * `Created` but its vault holds the amount.
   */
  lemma ForeignVaultRelease(w0: World)
    requires w0 == Genesis()
    ensures var s1 := Step(w0, Init(2));
            var s2 := Step(s1.world, InitFor(1, VaultAuthorityAddress(EscrowOf(2))));
            var s3 := Step(s2.world, FundEscrow(DEPOSITOR, EscrowOf(1), DEPOSITOR_TOKEN, VaultOf(1)));
            var release := ReleaseFunds(DEPOSITOR, EscrowOf(1), VaultOf(1), VaultOf(2));
            var s4 := Step(s3.world, release);
            && s1.outcome == Ok && s2.outcome == Ok && s3.outcome == Ok && s4.outcome == Ok
            && Consistent(s3.world) && !NamesNoForeignVault(s3.world, release)
            && EscrowOf(1) in s4.world.escrows && s4.world.escrows[EscrowOf(1)].status == Released
            && EscrowOf(2) in s4.world.escrows && s4.world.escrows[EscrowOf(2)].status == Created
            && VaultOf(2) in s4.world.tokens && s4.world.tokens[VaultOf(2)].amount == AMOUNT
            && !Consistent(s4.world)
  {
    var s1 := Step(w0, Init(2));
    CrossedStep1(w0);
    var s2 := Step(s1.world, InitFor(1, VaultAuthorityAddress(EscrowOf(2))));
    CrossedStep2(s1.world);
    var s3 := Step(s2.world, FundEscrow(DEPOSITOR, EscrowOf(1), DEPOSITOR_TOKEN, VaultOf(1)));
    CrossedStep3(s2.world);
    TwoEscrowsApart();
    assert RecordConsistent(s3.world, EscrowOf(2));
    ForeignVaultPayout(s3.world, EscrowOf(1), EscrowOf(2));
  }

  /**
   * From the test suite's starting accounts: initialize escrow 1 with its own
   * vault authority as beneficiary, fund it, and release it into its own
   * vault. Every step commits; the escrow ends `Released` with the vault still
   * full, and every later instruction naming it fails, so the tokens stay in
   * the vault.
   */
  lemma OwnVaultRelease(w0: World)
    requires w0 == Genesis()
    ensures var s1 := Step(w0, InitFor(1, VaultAuthorityAddress(EscrowOf(1))));
            var s2 := Step(s1.world, FundEscrow(DEPOSITOR, EscrowOf(1), DEPOSITOR_TOKEN, VaultOf(1)));
            var s3 := Step(s2.world, ReleaseFunds(DEPOSITOR, EscrowOf(1), VaultOf(1), VaultOf(1)));
            && s1.outcome == Ok && s2.outcome == Ok && s3.outcome == Ok
            && EscrowOf(1) in s3.world.escrows && s3.world.escrows[EscrowOf(1)].status == Released
            && VaultOf(1) in s3.world.tokens && s3.world.tokens[VaultOf(1)].amount == AMOUNT
            && !Consistent(s3.world)
            && forall ins :: Target(ins) == EscrowOf(1) ==> Step(s3.world, ins).outcome.Err?
  {
    DerivationsAreNamespaced(DEPOSITOR, 1, EscrowOf(1), EscrowOf(1));
    var ins1 := InitFor(1, VaultAuthorityAddress(EscrowOf(1)));
    var s1 := Step(w0, ins1);
    StepPreservesConsistent(w0, ins1);
    var ins2 := FundEscrow(DEPOSITOR, EscrowOf(1), DEPOSITOR_TOKEN, VaultOf(1));
    var s2 := Step(s1.world, ins2);
    assert s2.outcome == Ok;
    StepPreservesConsistent(s1.world, ins2);
    var ins3 := ReleaseFunds(DEPOSITOR, EscrowOf(1), VaultOf(1), VaultOf(1));
    OwnVaultPayout(s2.world, EscrowOf(1), ins3);
    var s3 := Step(s2.world, ins3);
    forall ins | Target(ins) == EscrowOf(1) ensures Step(s3.world, ins).outcome.Err? {
      TerminalIsFinal(s3.world, ins, EscrowOf(1));
    }
  }
}
