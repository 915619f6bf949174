# Escrow engine: a verified model

This project models the on-chain escrow program `escrow_engine`. The program
is an Anchor program for Solana. Two parties escrow SPL tokens under an
optional arbiter:

- A depositor creates an `EscrowAccount` record at a program-derived address.
  The address is built from `"escrow"`, the depositor's key and an 8-byte
  little-endian escrow id.
- Creating the record also creates a token vault at `["vault", escrow]`. Its
  token authority is the program-derived `["vault_authority", escrow]`.
- The depositor funds the vault with the agreed `amount`.
- The vault is then emptied in one of four ways:
  - the depositor releases it to the beneficiary;
  - anyone releases it once the auto-release slot is reached;
  - the depositor cancels and takes a refund;
  - either party raises a dispute, and the arbiter settles it either way.

Each instruction runs in two stages:

1. Anchor's declarative account guards check identity (`has_one`, signer
   keys), status and token account mint and owner.
2. The handler moves the vault's balance with one `token::transfer` and
   updates the record in place.

A failing guard, `require!` or transfer rolls the whole transaction back.

The model has two layers.

- **Values.** Each instruction is a function `Apply` (or `Raise` / `Resolve`)
  from a `World` to an `Effect`. A `World` holds the records, the token
  accounts and the current slot. An `Effect` holds the outcome and the new
  world. A guard function `Check` checks the accounts in the order Anchor
  does:
  1. every account must exist (deserialization);
  2. then each account's constraints run in declaration order;
  3. `has_one` runs before a field's own `constraint`s;
  4. for `init`, the seeds are checked before the account is created.
- **State.** `Program.EscrowProgram` is a class. Its fields are the record
  map, the token map and the slot. Each handler is a method that updates
  those fields step by step, in the handler's own order. Each method's
  `ensures` says the new state and outcome are exactly the effect of the
  matching function on the old state.

Derived addresses are the datatype `Derived(seeds)`. This makes them
injective by construction, which stands for the host's collision-resistant
hash of the seeds' concatenation. The tag strings and the bytes of
`escrow_id.to_le_bytes()` are modelled exactly. Keys are symbolic: a key is
`Key(bytes)` with no fixed length, and a seed that is an account key is
`Of(address)`, not 32 raw bytes. A structured `Derive` loses nothing against
the host's hash of the flat concatenation: the three seed layouts have fixed
widths (6 + 32 + 8, 5 + 32 and 15 + 32 bytes), so their concatenations are
46, 37 and 47 bytes long. Two different layouts never concatenate to the same
bytes, and within one layout the concatenation determines each seed.

On this model the project proves the following.

- The little-endian id encoding round-trips and is injective.
- The derived addresses are pairwise distinct.
- Every error case and every success effect of each instruction.
- Token conservation for the transfer.
- The status lifecycle. `Released` and `Cancelled` are final.
- A whole-system invariant, kept by every instruction and by any run of this
  program's instructions and clock ticks whose instructions name no escrow's
  vault as a user token account (see "Payouts into a vault" below). The
  invariant assumes that only this program moves tokens in or out of a vault:
  - a vault holds exactly `amount` while its escrow is `Funded` or
    `Disputed`;
  - it holds nothing in every other state;
  - it is owned by the vault authority and has the escrow's mint.
- The repository's three test flows replay: release, dispute then refund,
  and cancel before funding. Each flow starts afresh from the tests' starting
  accounts. The test suite instead runs them in sequence on shared accounts.

The model follows the code on these points:

- `raise_dispute` admits only `Funded`, not `Created`.
- `cancel_escrow` admits `Created` or `Funded` and refunds a non-empty vault.
  The doc comment at `lib.rs:50` speaks of an "unfunded or expired" escrow,
  but the code has no expiry test, and it refunds a funded escrow at any
  time. Where this doc comment and the code differ, the model follows the
  code.
- Auto-release is a separate permissionless instruction. A stored slot of 0
  means "disabled".
- Release, cancel, auto-release and resolve move the vault's actual balance
  (`vault.amount`), not `escrow.amount`.
- Resolve transfers even when that balance is 0.

The SPL token transfer is modelled with its own checks: enough balance, then
matching mints, then an authority that owns the source. In a consistent world
the instructions' guards make the mint and owner checks always pass
(`Invariants.TokenChecksPassWhenConsistent`).

### Payouts into a vault

`initialize_escrow` takes any beneficiary key, and a payout account only has
to hold the escrow's mint and be owned by the beneficiary. A vault is owned by
its vault authority. So when a beneficiary is a vault authority, that vault is
a valid payout account, and the invariant above can break:

- If the beneficiary is another escrow's vault authority, a release pays into
  that other vault. It then holds more than its escrow expects
  (`Hazards.ForeignVaultPayout`, `Hazards.ForeignVaultRelease`).
- If the beneficiary is the escrow's own vault authority, then `release_funds`,
  `auto_release` and `resolve_dispute(true)` may name the vault itself as the
  payout account. The transfer is then from the vault to itself and moves
  nothing. The escrow ends `Released` with the vault still full. No
  instruction accepts a `Released` escrow, so the tokens stay locked
  (`Hazards.OwnVaultPayout`, `Hazards.OwnVaultRelease`).

In the own-vault case the same vault fills two `mut` slots: `vault` and the
payout account. Whether Anchor accepts a mutable
account passed twice depends on its version, and the program does not pin
one. The model accepts it.

The invariant lemmas therefore assume that the instructions name no escrow's
vault as a user token account.

## Model

| member | source | states |
|---|---|---|
| `Numeric.LeRoundTrip` | programs/escrow-engine/src/instructions/initialize.rs:25 | Decoding the `width`-byte little-endian encoding of any `n < 256^width` gives back `n`. |
| `Numeric.LeDecodeRoundTrip` | programs/escrow-engine/src/instructions/initialize.rs:25 | Encoding a decoded byte string at its own width gives back the same bytes. |
| `Numeric.FromLeBound` | programs/escrow-engine/src/instructions/initialize.rs:25 | A decoded k-byte little-endian string is below 256^k. |
| `Numeric.ToLeBytesRoundTrip` | programs/escrow-engine/src/instructions/initialize.rs:25 | `to_le_bytes` on a `u64` gives 8 bytes that decode back to the id. |
| `Numeric.ToLeBytesInjective` | programs/escrow-engine/src/instructions/initialize.rs:25 | Two ids have the same 8-byte encoding exactly when they are equal. |
| `Numeric.ToLeBytesSurjective` | tests/escrow-engine.ts:88-95 | Every 8-byte string, such as the client's `toArrayLike(Buffer, "le", 8)`, is the encoding of exactly one `u64`. |
| `Pda.Ascii` | programs/escrow-engine/src/instructions/initialize.rs:25 | A seed tag's bytes are its characters, one byte each. |
| `Pda.EscrowAddressInjective` | programs/escrow-engine/src/instructions/initialize.rs:21-27 | Two (depositor, escrow id) pairs derive the same escrow address exactly when they are equal. |
| `Pda.SeedLayouts` | programs/escrow-engine/src/instructions/initialize.rs:25-42 | The seed lists of `EscrowSeeds`, `VaultSeeds` and `VaultAuthoritySeeds` concatenate to 46, 37 and 47 bytes. The escrow layout's last seed is 8 bytes that decode back to the id. The other two layouts end in the escrow's key. |
| `Pda.DerivationsAreNamespaced` | programs/escrow-engine/src/instructions/initialize.rs:30-45 | An escrow address, its vault address and its vault authority address are pairwise distinct. Vault and authority addresses determine their escrow. |
| `State.StatusesAreFive` | programs/escrow-engine/src/state.rs:37-55 | The five statuses are all the statuses, with no repeats. The default status is `Created`. |
| `State.StatusName` | programs/escrow-engine/src/state.rs:57-66 | `Display` writes each status as a nonempty word starting with a capital letter. |
| `State.StatusNameInjective` | programs/escrow-engine/src/state.rs:57-66 | `Display` gives each status a nonempty name, and two statuses share a name only if they are equal. |
| `State.StoredAutoReleaseSlot` | programs/escrow-engine/src/instructions/initialize.rs:71 | `unwrap_or(0)`: `Some(s)` is stored as `s` unchecked. The stored value is 0 ("disabled") exactly for `None` or `Some(0)`. |
| `State.AutoReleaseSlotRoundTrip` | programs/escrow-engine/src/state.rs:22-23 | Reading a stored slot back as "disabled or threshold" returns the request, except that `Some(0)` reads back as disabled. |
| `Token.Transfer` | programs/escrow-engine/src/instructions/fund.rs:46 | A transfer succeeds exactly when all of these hold: the source holds at least `amount`; the two accounts share a mint; the authority owns the source; and, for two different accounts, the destination does not overflow `u64`. The errors come in that order: `InsufficientFunds`, `MintMismatch`, `OwnerMismatch`, `Overflow`. On success exactly `amount` moves and every other account is unchanged. A transfer from an account to itself passes the same checks and then moves nothing. |
| `Token.BalanceIgnoresOthers` | programs/escrow-engine/src/instructions/release.rs:56-66 | The total over a set of accounts depends only on those accounts. |
| `Token.TransferConserves` | programs/escrow-engine/src/instructions/release.rs:56-66 | A transfer between two accounts of a set leaves the set's total unchanged. |
| `Token.BalanceGains` | programs/escrow-engine/src/instructions/release.rs:56-66 | When only one account of a set gains `amount`, the total rises by `amount`. |
| `Token.BalanceLoses` | programs/escrow-engine/src/instructions/release.rs:56-66 | When only one account of a set loses `amount`, the total falls by `amount`. |
| `Initialize.Check` | programs/escrow-engine/src/instructions/initialize.rs:21-38 | The escrow must sit at its seeds' address and be unused, and so must the vault. An existing record at the right address gives `AccountAlreadyInUse`. |
| `Initialize.NewRecordStartsFresh` | programs/escrow-engine/src/instructions/initialize.rs:63-74 | The record the handler writes starts in the default status `Created` with an empty reason. Both slot stamps are the current slot. Its auto-release slot reads back as requested, with `Some(0)` read as disabled. |
| `Initialize.NewVault` | programs/escrow-engine/src/instructions/initialize.rs:30-38 | The vault `init` creates is empty and holds the escrow's mint. Its owner is the vault authority, which is not the vault itself. |
| `Initialize.Apply` | programs/escrow-engine/src/instructions/initialize.rs:52-88 | Success requires valid accounts and `amount > 0`; zero gives `InvalidAmount`. Any error changes nothing. On success the record copies the arguments and is `Created`, with `created_at_slot == updated_at_slot ==` the slot and an empty reason. The only token change is a new empty vault with the escrow's mint, owned by the vault authority. |
| `Initialize.SecondInitializeFails` | programs/escrow-engine/src/instructions/initialize.rs:21-27 | After one successful `initialize_escrow`, the same (depositor, id) fails with `AccountAlreadyInUse`. |
| `Fund.Check` | programs/escrow-engine/src/instructions/fund.rs:7-33 | Passes exactly when the signer is the depositor, the status is `Created`, the source has the escrow's mint and the depositor as owner, and the vault is `escrow.vault`. Otherwise gives `UnauthorizedDepositor`, then `InvalidState`. |
| `Fund.Apply` | programs/escrow-engine/src/instructions/fund.rs:35-54 | Succeeds exactly when the guards pass and the transfer of `escrow.amount` from source to vault succeeds. Then status is `Funded`, the slot is stamped and nothing else in the record changes. Any error changes nothing. |
| `Fund.ShortSourceAborts` | programs/escrow-engine/src/instructions/fund.rs:46 | A source balance below `amount` aborts with `InsufficientFunds` and changes nothing. |
| `Fund.FundTwiceFails` | programs/escrow-engine/src/instructions/fund.rs:15 | After a successful fund, a second fund fails with `InvalidState` and moves no tokens. |
| `Release.Check` | programs/escrow-engine/src/instructions/release.rs:7-40 | Passes exactly when the signer is the depositor, the status is `Funded`, the vault is `escrow.vault`, and the destination has the escrow's mint and is owned by the beneficiary. Otherwise gives `UnauthorizedDepositor`, then `InvalidState`. |
| `Release.Apply` | programs/escrow-engine/src/instructions/release.rs:42-79 | Succeeds exactly when the guards pass and moving the whole vault balance to the beneficiary's account succeeds. When the destination is not the vault itself, the vault ends at 0 and the destination gains the vault's old balance. When it is the vault, nothing moves. Either way status is `Released` and the slot is stamped. Any error changes nothing. |
| `AutoRelease.Check` | programs/escrow-engine/src/instructions/auto_release.rs:7-40 | Identity is not checked. Passes exactly when the status is `Funded`, the vault is `escrow.vault`, and the destination has the escrow's mint and is owned by the beneficiary. |
| `AutoRelease.Ready` | programs/escrow-engine/src/instructions/auto_release.rs:46-50 | An escrow is ready exactly when its stored slot reads back as a threshold (it is not 0, "disabled") and the current slot has reached it. |
| `AutoRelease.Apply` | programs/escrow-engine/src/instructions/auto_release.rs:42-84 | A stored slot of 0 gives `AutoReleaseDisabled`, even before the time test. A slot below the threshold gives `AutoReleaseNotReady`. Success is exactly guards, readiness and the transfer. Then the whole vault goes to the beneficiary's account and status is `Released` at the current slot. |
| `AutoRelease.Permissionless` | programs/escrow-engine/src/instructions/auto_release.rs:9-11 | The outcome and effect do not depend on who cranks. |
| `Dispute.RaiseCheck` | programs/escrow-engine/src/instructions/dispute.rs:7-20 | Passes exactly when the status is `Funded` and the signer is the depositor or the beneficiary. Otherwise `InvalidState`, then `UnauthorizedParty`. |
| `Dispute.Raise` | programs/escrow-engine/src/instructions/dispute.rs:22-38 | A reason over 128 bytes gives `DisputeReasonTooLong`. Tokens never move. On success status is `Disputed`, the reason is stored and the slot is stamped. Any error changes nothing. |
| `Dispute.UnfundedCannotBeDisputed` | programs/escrow-engine/src/instructions/dispute.rs:14 | A `Created` escrow cannot be disputed: `InvalidState`, nothing changes. |
| `Dispute.ResolveCheck` | programs/escrow-engine/src/instructions/dispute.rs:40-82 | Passes exactly when the signer is the arbiter, the status is `Disputed`, the vault matches, and both the beneficiary's and the depositor's accounts pass their mint and owner checks, whatever the ruling. Otherwise `UnauthorizedArbiter`, then `InvalidState`. |
| `Dispute.RulingPaysWinner` | programs/escrow-engine/src/instructions/dispute.rs:99-105 | The ruling's status is terminal. It is `Released` exactly when the arbiter rules for the beneficiary. The vault goes to the beneficiary's account when the status is `Released`, and to the depositor's otherwise. |
| `Dispute.Resolve` | programs/escrow-engine/src/instructions/dispute.rs:84-128 | Transfers the whole vault balance, even 0. `true` pays the beneficiary and sets `Released`; `false` pays the depositor and sets `Cancelled`. The reason is kept and the final status is terminal. Any error changes nothing. |
| `Cancel.Check` | programs/escrow-engine/src/instructions/cancel.rs:7-42 | Passes exactly when the signer is the depositor, the status is `Created` or `Funded`, the vault matches, and the refund account has the escrow's mint and is owned by the signer. Otherwise `UnauthorizedDepositor`, then `InvalidState`. |
| `Cancel.Refund` | programs/escrow-engine/src/instructions/cancel.rs:46-69 | An empty vault causes no transfer, and the tokens stay as they were. A successful refund moves the vault's whole balance to the refund account, and the vault ends at 0 unless the refund account is the vault itself. The refund fails exactly when the vault is non-empty and the token transfer fails. |
| `Cancel.Apply` | programs/escrow-engine/src/instructions/cancel.rs:44-77 | A non-empty vault is refunded in full. It ends at 0 unless the refund account is the vault itself, in which case nothing moves. An empty vault moves nothing and succeeds. Status becomes `Cancelled` at the current slot. Any error changes nothing. |
| `Engine.Step` | programs/escrow-engine/src/lib.rs:18-58 | Dispatches the seven instructions. An error leaves the world as it was, and no instruction moves the clock. |
| `Invariants.VaultsAreExclusive` | programs/escrow-engine/src/instructions/initialize.rs:30-38 | In a consistent world two records never share a vault. |
| `Invariants.OneRecordPerPair` | programs/escrow-engine/src/instructions/initialize.rs:21-27 | In a consistent world a (depositor, escrow id) pair has at most one record. |
| `Invariants.UpdatePreserves` | programs/escrow-engine/src/state.rs:5-35 | Rewriting one record keeps the world consistent when: its terms stay; its slot is stamped; its reason fits; its vault holds what the new status expects; other vaults are untouched. |
| `Invariants.OtherVaultsUntouched` | programs/escrow-engine/src/instructions/release.rs:56-66 | A transfer between one escrow's vault and a non-vault account leaves every other escrow's vault as it was. |
| `Invariants.InitializePreserves` | programs/escrow-engine/src/instructions/initialize.rs:52-88 | `initialize_escrow` keeps the world consistent. |
| `Invariants.FundPreserves` | programs/escrow-engine/src/instructions/fund.rs:35-54 | `fund_escrow` keeps the world consistent: a `Funded` vault holds `amount`. |
| `Invariants.ReleasePreserves` | programs/escrow-engine/src/instructions/release.rs:42-79 | When the payout account is not a vault, `release_funds` keeps the world consistent: a `Released` vault holds 0. |
| `Invariants.RaisePreserves` | programs/escrow-engine/src/instructions/dispute.rs:22-38 | `raise_dispute` keeps the world consistent. |
| `Invariants.ResolvePreserves` | programs/escrow-engine/src/instructions/dispute.rs:84-128 | When the account the ruling pays into is not a vault, `resolve_dispute` keeps the world consistent: a resolved vault holds 0. |
| `Invariants.CancelPreserves` | programs/escrow-engine/src/instructions/cancel.rs:44-77 | `cancel_escrow` keeps the world consistent: a `Cancelled` vault holds 0. |
| `Invariants.AutoReleasePreserves` | programs/escrow-engine/src/instructions/auto_release.rs:42-84 | When the payout account is not a vault, `auto_release` keeps the world consistent: a `Released` vault holds 0. |
| `Invariants.StepPreservesConsistent` | programs/escrow-engine/src/state.rs:37-49 | Every transaction that names no escrow's vault as a user token account keeps every vault at `amount` while `Funded` or `Disputed` and at 0 otherwise, with the escrow's mint and the authority as owner. Each record also stays at its derived address, keeps a valid reason and keeps ordered slots. |
| `Invariants.TokenChecksPassWhenConsistent` | programs/escrow-engine/src/instructions/release.rs:32-37 | In a consistent world no instruction fails with the token program's `MintMismatch` or `OwnerMismatch`: the guards already fix the mint and the vault's owner. |
| `Invariants.RunPreservesConsistent` | programs/escrow-engine/src/state.rs:37-49 | Any sequence of clock ticks and of this program's transactions that name no escrow's vault as a user token account, from a consistent world, ends in a consistent world. |
| `Lifecycle.AllowedNeverLeavesTerminal` | programs/escrow-engine/src/state.rs:45-48 | No allowed change starts from `Released` or `Cancelled` or returns to `Created`. A dispute ends only in a terminal status. |
| `Lifecycle.StepRespectsLifecycle` | programs/escrow-engine/src/lib.rs:18-58 | For any transaction and any existing record: the record stays and its terms stay. Its status changes only along the allowed transitions. Only the named record changes. Its stamp never goes back. Its reason changes only when a funded escrow is disputed. |
| `Lifecycle.TerminalIsFinal` | programs/escrow-engine/src/state.rs:45-48 | A `Released` or `Cancelled` record is never changed again, and every instruction naming it fails. |
| `Hazards.ForeignVaultPayout` | programs/escrow-engine/src/instructions/release.rs:32-37 | In a consistent world, when escrow `a`'s beneficiary is escrow `b`'s vault authority, releasing `a` into `b`'s vault names a vault as a user account. When both escrows hold the same mint, it commits unless `b`'s vault would overflow. When it commits, `b`'s record is unchanged, its vault holds `a`'s amount on top of its own, and the world is no longer consistent. |
| `Hazards.OwnVaultPayout` | programs/escrow-engine/src/instructions/release.rs:32-66 | When an escrow's beneficiary is its own vault authority, a release, auto-release or `resolve_dispute(true)` into its own vault that commits leaves it `Released`, changes no balance and breaks consistency. The depositor's release of a funded escrow always commits this way. |
| `Hazards.ForeignVaultRelease` | programs/escrow-engine/src/instructions/initialize.rs:13-14 | From the tests' starting accounts: initialize escrow 2, then escrow 1 with escrow 2's vault authority as beneficiary, fund escrow 1 and release it into escrow 2's vault. Every step commits. The world is consistent before the release and not after: escrow 2 is `Created` but its vault holds the amount. |
| `Hazards.OwnVaultRelease` | programs/escrow-engine/src/instructions/initialize.rs:13-14 | From the tests' starting accounts: initialize escrow 1 with its own vault authority as beneficiary, fund it and release it into its own vault. Every step commits, the escrow is `Released` with the vault still full, and every later instruction naming it fails. |
| `Scenarios.ReleaseFlow` | tests/escrow-engine.ts:108-182 | Initialize, fund and release escrow 1. The vault holds 1,000,000 when funded and ends empty, and the beneficiary receives 1,000,000. |
| `Scenarios.DisputeFlow` | tests/escrow-engine.ts:185-290 | Initialize and fund escrow 2, then dispute it with the test's reason. The arbiter rules for the depositor: status `Cancelled`, refund of 1,000,000. |
| `Scenarios.CancelFlow` | tests/escrow-engine.ts:293-352 | Initialize and cancel escrow 3 before funding. Status is `Cancelled`, the vault is empty, and no tokens moved. |
| `Program.EscrowProgram.constructor` | programs/escrow-engine/src/lib.rs:12-14 | A fresh host holds no records and the given token accounts and slot. |
| `Program.EscrowProgram.AdvanceClock` | programs/escrow-engine/src/instructions/auto_release.rs:44 | Host behaviour, not program code: the host's clock, which `Clock::get()` reads here, moves to a later slot while everything else stays. The clock is the world's `slot` field (see "## Left out"). |
| `Program.EscrowProgram.TransferTokens` | programs/escrow-engine/src/instructions/fund.rs:46 | In-place `token::transfer` signed by the given authority: its checks run in the order of `Token.Transfer`, the new balances are exactly those of `Token.Transfer`, and a failure changes nothing. |
| `Program.EscrowProgram.InitializeEscrow` | programs/escrow-engine/src/instructions/initialize.rs:52-88 | The handler stores the record built from its arguments and the slot, and adds the new empty vault. The resulting outcome and state are exactly those of `Initialize.Apply`. |
| `Program.EscrowProgram.FundEscrow` | programs/escrow-engine/src/instructions/fund.rs:35-54 | Transfer, then status, then stamp: exactly `Fund.Apply`. |
| `Program.EscrowProgram.ReleaseFunds` | programs/escrow-engine/src/instructions/release.rs:42-79 | Exactly `Release.Apply`. |
| `Program.EscrowProgram.RaiseDispute` | programs/escrow-engine/src/instructions/dispute.rs:22-38 | Exactly `Dispute.Raise`. |
| `Program.EscrowProgram.ResolveDispute` | programs/escrow-engine/src/instructions/dispute.rs:84-128 | Status set in the branch before the transfer, then the stamp: exactly `Dispute.Resolve`. |
| `Program.EscrowProgram.CancelEscrow` | programs/escrow-engine/src/instructions/cancel.rs:44-77 | The transfer only when the vault is non-empty: exactly `Cancel.Apply`. |
| `Program.EscrowProgram.AutoRelease` | programs/escrow-engine/src/instructions/auto_release.rs:42-84 | The two `require!`s in order, then the transfer: exactly `AutoRelease.Apply`. |

## Left out

- The `bump` and `vault_authority_bump` fields and the bump search are left out. A derived address is identified by its seeds alone, so the bump adds nothing to the model.
- The host's address hash is left out. `Derive` is injective by construction, which assumes the hash is collision-free. A 32-byte model could not be injective over unbounded seeds.
- Three kinds of checks are left out: signature verification, the `mut` markers, and the type checks of the `Mint`, `Program` and `Sysvar` accounts. The model takes every `mint` argument to be a mint account and every `signer` to have signed. A derived address cannot sign a transaction. The `NotAVault(src)` hypothesis of `Invariants.FundPreserves` and the `NotAVault(dt)` hypothesis of `Invariants.CancelPreserves` exclude only cases in which the depositor is a derived address.
- Token transfers made by other programs or by users are not events of `Invariants.Run`. That includes a plain SPL `transfer` into a vault, which needs only the sender's signature. `Invariants.Consistent` assumes there are none. One such deposit into a `Funded` escrow's vault makes the vault hold more than `amount`, which breaks `Consistent`. The instructions still behave as modelled, because they pay out the vault's actual balance.
- The `vault_authority` account parameter is not a separate input. The model always uses the derived authority, which the `seeds` constraint forces.
- The SPL token program's frozen-account check and its delegate authority are left out. The model has no instruction that freezes an account or approves a delegate.
- Rent, `space` / `InitSpace` and Anchor serialization are left out.
- `msg!` logging is left out.
- The Clock sysvar is the world's `slot` field. `AdvanceClock` and `Invariants.Advance` move it forward.
- `InsufficientVaultBalance` is declared in `Errors.Error`, as in `errors.rs`, but no member produces it: the modelled code never raises it.
- The client CLI (`app/src/cli.ts`) and the network harness of `tests/escrow-engine.ts` are not part of this model. Three of the tests' assertions appear as the `Scenarios` lemmas.
- The `Dispute.Raise` reason is a byte string, measured in bytes as Rust's `String::len` does. UTF-8 decoding is not modelled.
- `Invariants.StepPreservesConsistent` is proved only for instructions that name no escrow's vault as a user token account (`NamesNoForeignVault`). The code does not rule this out when a beneficiary is a vault authority (`Hazards.ForeignVaultRelease`, `Hazards.OwnVaultRelease`).
- `Invariants.ReleasePreserves` assumes the payout account is not an escrow's vault (`NotAVault`). A beneficiary that is a vault authority breaks this (`Hazards.ForeignVaultPayout`, `Hazards.OwnVaultPayout`).
- `Invariants.AutoReleasePreserves` assumes the payout account is not an escrow's vault (`NotAVault`), for the same reason as `release_funds`.
- `Invariants.ResolvePreserves` assumes that the payout account the ruling pays into is not an escrow's vault (`NotAVault`). A beneficiary that is a vault authority breaks this when the arbiter rules for the beneficiary.
- `Invariants.RunPreservesConsistent` assumes every transaction of the run names no escrow's vault as a user token account (`RunNamesNoForeignVault`), for the reasons above.
