/**
 * The token accounts the program reads and the token program's `transfer`,
 * reduced to a move of balance between two accounts.
 */
module Token {
  import opened Numeric
  import opened Pda
  import opened Errors

  datatype TokenAccount = TokenAccount(mint: Address, owner: Address, amount: U64)

  type Accounts = map<Address, TokenAccount>

  /** Two states of one account: same mint, same owner. */
  predicate SameAccount(a: TokenAccount, b: TokenAccount)
  {
    a.mint == b.mint && a.owner == b.owner
  }

  /** `amount` has left `from` and reached `to`; no other balance, owner or mint changed. */
  predicate Moved(before: Accounts, after: Accounts, from: Address, to: Address, amount: nat)
    requires from in before && to in before
  {
    && after.Keys == before.Keys
    && (forall t :: t in before && t != from && t != to ==> after[t] == before[t])
    && (from == to ==> after[from] == before[from])
    && (from != to ==>
          && SameAccount(after[from], before[from]) && after[from].amount + amount == before[from].amount
          && SameAccount(after[to], before[to]) && after[to].amount == before[to].amount + amount)
  }

  /**
   * `token::transfer(ctx, amount)` signed by `authority`, checked in the token
   * program's order: a short source balance, then accounts of two mints, then
   * an authority that does not own the source; a transfer from an account to
   * itself then moves nothing, and otherwise a destination balance that would
   * overflow fails.
   */
  function Transfer(tokens: Accounts, from: Address, to: Address, authority: Address, amount: U64): (r: Result<Accounts>)
    requires from in tokens && to in tokens
    ensures r.Success? <==>
      && amount <= tokens[from].amount
      && tokens[from].mint == tokens[to].mint
      && authority == tokens[from].owner
      && (from == to || tokens[to].amount + amount < U64_LIMIT)
    ensures r.Success? ==> Moved(tokens, r.value, from, to, amount)
    ensures tokens[from].amount < amount ==> r == Failure(InsufficientFunds)
    ensures amount <= tokens[from].amount && tokens[from].mint != tokens[to].mint ==> r == Failure(MintMismatch)
    ensures amount <= tokens[from].amount && tokens[from].mint == tokens[to].mint && authority != tokens[from].owner ==>
      r == Failure(OwnerMismatch)
    ensures r.Failure? && amount <= tokens[from].amount && tokens[from].mint == tokens[to].mint && authority == tokens[from].owner ==>
      r.error == Overflow && from != to
  {
    var src := tokens[from];
    if src.amount < amount then Failure(InsufficientFunds)
    else if src.mint != tokens[to].mint then Failure(MintMismatch)
    else if authority != src.owner then Failure(OwnerMismatch)
    else if from == to then Success(tokens)
    else
      var dst := tokens[to];
      if dst.amount + amount >= U64_LIMIT then Failure(Overflow)
      else Success(tokens[from := src.(amount := src.amount - amount)][to := dst.(amount := dst.amount + amount)])
  }

  /** The total balance of a list of accounts (an absent account holds nothing). */
  function Balance(tokens: Accounts, keys: seq<Address>): nat
  {
    if keys == [] then 0
    else (if keys[0] in tokens then tokens[keys[0]].amount else 0) + Balance(tokens, keys[1..])
  }

  /** Accounts outside `keys` do not count towards their balance. */
  lemma {:induction false} BalanceIgnoresOthers(before: Accounts, after: Accounts, keys: seq<Address>)
    requires forall k :: k in keys ==> (k in before <==> k in after) && (k in before ==> after[k].amount == before[k].amount)
    ensures Balance(after, keys) == Balance(before, keys)
  {
    if keys != [] {
      BalanceIgnoresOthers(before, after, keys[1..]);
    }
  }

  /**
   * A transfer conserves tokens: over any list of distinct accounts that holds
   * both ends, the total balance is the same before and after.
   */
  lemma {:induction false} TransferConserves(before: Accounts, after: Accounts, from: Address, to: Address, amount: nat, keys: seq<Address>)
    requires from in before && to in before
    requires Moved(before, after, from, to, amount)
    requires from in keys && to in keys
    requires forall i, j :: 0 <= i < j < |keys| ==> keys[i] != keys[j]
    ensures Balance(after, keys) == Balance(before, keys)
  {
    var k := keys[0];
    var rest := keys[1..];
    assert forall i, j :: 0 <= i < j < |rest| ==> rest[i] != rest[j] by {
      forall i, j | 0 <= i < j < |rest| ensures rest[i] != rest[j] {
        assert rest[i] == keys[i + 1] && rest[j] == keys[j + 1];
      }
    }
    assert k !in rest by {
      forall i | 0 <= i < |rest| ensures rest[i] != k {
        assert rest[i] == keys[i + 1];
      }
    }
    if from == to {
      BalanceIgnoresOthers(before, after, keys);
    } else if k == from && to in rest {
      BalanceGains(before, after, to, amount, rest);
    } else if k == to && from in rest {
      BalanceLoses(before, after, from, amount, rest);
    } else {
      TransferConserves(before, after, from, to, amount, rest);
    }
  }

  /** Over a list without `from` that holds `to` once, a move adds exactly `amount`. */
  lemma {:induction false} BalanceGains(before: Accounts, after: Accounts, to: Address, amount: nat, keys: seq<Address>)
    requires to in after && to in before && after[to].amount == before[to].amount + amount
    requires forall k :: k in keys && k != to ==> (k in before <==> k in after) && (k in before ==> after[k].amount == before[k].amount)
    requires to in keys
    requires forall i, j :: 0 <= i < j < |keys| ==> keys[i] != keys[j]
    ensures Balance(after, keys) == Balance(before, keys) + amount
  {
    var rest := keys[1..];
    if keys[0] == to {
      assert to !in rest by {
        forall i | 0 <= i < |rest| ensures rest[i] != to {
          assert rest[i] == keys[i + 1];
        }
      }
      BalanceIgnoresOthers(before, after, rest);
    } else {
      assert forall i, j :: 0 <= i < j < |rest| ==> rest[i] != rest[j] by {
        forall i, j | 0 <= i < j < |rest| ensures rest[i] != rest[j] {
          assert rest[i] == keys[i + 1] && rest[j] == keys[j + 1];
        }
      }
      BalanceGains(before, after, to, amount, rest);
    }
  }

  /** Over a list that holds `from` once, a move takes away exactly `amount`. */
  lemma {:induction false} BalanceLoses(before: Accounts, after: Accounts, from: Address, amount: nat, keys: seq<Address>)
    requires from in after && from in before && after[from].amount + amount == before[from].amount
    requires forall k :: k in keys && k != from ==> (k in before <==> k in after) && (k in before ==> after[k].amount == before[k].amount)
    requires from in keys
    requires forall i, j :: 0 <= i < j < |keys| ==> keys[i] != keys[j]
    ensures Balance(after, keys) + amount == Balance(before, keys)
  {
    var rest := keys[1..];
    if keys[0] == from {
      assert from !in rest by {
        forall i | 0 <= i < |rest| ensures rest[i] != from {
          assert rest[i] == keys[i + 1];
        }
      }
      BalanceIgnoresOthers(before, after, rest);
    } else {
      assert forall i, j :: 0 <= i < j < |rest| ==> rest[i] != rest[j] by {
        forall i, j | 0 <= i < j < |rest| ensures rest[i] != rest[j] {
          assert rest[i] == keys[i + 1] && rest[j] == keys[j + 1];
        }
      }
      BalanceLoses(before, after, from, amount, rest);
    }
  }
}
