/**
 * Addresses and program-derived addresses.
 *
 * A program-derived address is represented by the seeds it is derived from:
 * the host's hash of the seeds is taken to be collision-free, so `Derive` is
 * injective by construction. A seed that is the 32 bytes of an address
 * (`escrow.key().as_ref()`) is represented by that address.
 */
module Pda {
  import opened Numeric

  datatype Address =
    | Key(bytes: seq<Byte>)          // the public key of a keypair (a wallet, a mint, a token account)
    | Derived(seeds: seq<Seed>)      // an address derived from seeds by this program

  datatype Seed =
    | Raw(bytes: seq<Byte>)          // literal bytes
    | Of(address: Address)           // the bytes of an address

  /** The program-derived address for `seeds` (bump search is the host's concern). */
  function Derive(seeds: seq<Seed>): Address
  {
    Derived(seeds)
  }

  /** The bytes of an ASCII string, as `b"..."` writes them. */
  function Ascii(s: string): (bs: seq<Byte>)
    requires forall i :: 0 <= i < |s| ==> s[i] < 128 as char
    ensures |bs| == |s|
  {
    seq(|s|, i requires 0 <= i < |s| => s[i] as int)
  }

  const ESCROW_TAG: seq<Byte> := Ascii("escrow")
  const VAULT_TAG: seq<Byte> := Ascii("vault")
  const VAULT_AUTHORITY_TAG: seq<Byte> := Ascii("vault_authority")

  /** An account key is 32 bytes on the host. */
  const KEY_LEN: nat := 32

  /** The number of bytes the host hashes for `seeds`: their concatenation's length. */
  function SeedsLength(seeds: seq<Seed>): nat
  {
    if |seeds| == 0 then 0
    else (match seeds[0] case Raw(bs) => |bs| case Of(_) => KEY_LEN) + SeedsLength(seeds[1..])
  }

  /** `[b"escrow", depositor.key().as_ref(), escrow_id.to_le_bytes()]` */
  function EscrowSeeds(depositor: Address, escrowId: U64): seq<Seed>
  {
    [Raw(ESCROW_TAG), Of(depositor), Raw(ToLeBytes(escrowId))]
  }

  /** `[b"vault", escrow.key().as_ref()]` */
  function VaultSeeds(escrow: Address): seq<Seed>
  {
    [Raw(VAULT_TAG), Of(escrow)]
  }

  /** `[b"vault_authority", escrow.key().as_ref()]` */
  function VaultAuthoritySeeds(escrow: Address): seq<Seed>
  {
    [Raw(VAULT_AUTHORITY_TAG), Of(escrow)]
  }

  /**
   * The three seed layouts concatenate to 46, 37 and 47 bytes, so no two
   * layouts hash the same bytes; the escrow layout's last seed decodes back to
   * the id, and the other two end in the escrow's key.
   */
  lemma SeedLayouts(depositor: Address, escrowId: U64, escrow: Address)
    ensures SeedsLength(EscrowSeeds(depositor, escrowId)) == 46
    ensures var seeds := EscrowSeeds(depositor, escrowId);
            |seeds| == 3 && seeds[2].Raw? && |seeds[2].bytes| == 8 && FromLe(seeds[2].bytes) == escrowId
    ensures SeedsLength(VaultSeeds(escrow)) == 37 && VaultSeeds(escrow)[1] == Of(escrow)
    ensures SeedsLength(VaultAuthoritySeeds(escrow)) == 47 && VaultAuthoritySeeds(escrow)[1] == Of(escrow)
  {
    ToLeBytesRoundTrip(escrowId);
    var es := EscrowSeeds(depositor, escrowId);
    assert |ESCROW_TAG| == 6 && |VAULT_TAG| == 5 && |VAULT_AUTHORITY_TAG| == 15;
    assert es[1..][1..] == [Raw(ToLeBytes(escrowId))];
    assert SeedsLength(es[1..][1..]) == 8 + SeedsLength([]);
    var vs := VaultSeeds(escrow);
    assert vs[1..] == [Of(escrow)];
    assert SeedsLength(vs[1..]) == KEY_LEN + SeedsLength([]);
    var vas := VaultAuthoritySeeds(escrow);
    assert vas[1..] == [Of(escrow)];
    assert SeedsLength(vas[1..]) == KEY_LEN + SeedsLength([]);
  }

  function EscrowAddress(depositor: Address, escrowId: U64): Address
  {
    Derive(EscrowSeeds(depositor, escrowId))
  }

  function VaultAddress(escrow: Address): Address
  {
    Derive(VaultSeeds(escrow))
  }

  function VaultAuthorityAddress(escrow: Address): Address
  {
    Derive(VaultAuthoritySeeds(escrow))
  }

  /** One escrow address per (depositor, escrow id) pair, and one pair per address. */
  lemma EscrowAddressInjective(d1: Address, id1: U64, d2: Address, id2: U64)
    ensures EscrowAddress(d1, id1) == EscrowAddress(d2, id2) <==> d1 == d2 && id1 == id2
  {
    if EscrowAddress(d1, id1) == EscrowAddress(d2, id2) {
      assert EscrowSeeds(d1, id1)[2] == EscrowSeeds(d2, id2)[2];
      ToLeBytesInjective(id1, id2);
    }
  }

  /**
   * The three derivations are namespaced by their first seed: an escrow, a
   * vault and a vault authority never share an address, and each vault and
   * each vault authority belongs to exactly one escrow address.
   */
  lemma DerivationsAreNamespaced(d: Address, id: U64, e1: Address, e2: Address)
    ensures EscrowAddress(d, id) != VaultAddress(e1)
    ensures EscrowAddress(d, id) != VaultAuthorityAddress(e1)
    ensures VaultAddress(e1) != VaultAuthorityAddress(e2)
    ensures VaultAddress(e1) == VaultAddress(e2) <==> e1 == e2
    ensures VaultAuthorityAddress(e1) == VaultAuthorityAddress(e2) <==> e1 == e2
  {
    assert |VAULT_TAG| != |VAULT_AUTHORITY_TAG|;
    assert VaultSeeds(e1)[0] != VaultAuthoritySeeds(e2)[0];
    if VaultAddress(e1) == VaultAddress(e2) {
      assert VaultSeeds(e1)[1] == VaultSeeds(e2)[1];
    }
    if VaultAuthorityAddress(e1) == VaultAuthorityAddress(e2) {
      assert VaultAuthoritySeeds(e1)[1] == VaultAuthoritySeeds(e2)[1];
    }
  }
}
