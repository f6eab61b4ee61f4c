/**
  The token ledger `Erc20Token` of erc20.rs: a fixed total supply, a sparse
  balance table and a sparse allowance table, with the operations of an
  EIP-20 token. The host's caller identity is an explicit `caller`
  parameter; the host's event sink is a ghost log of events.
 */
module Erc20 {
  import opened Amounts

  /** An opaque account identifier; the ledger only compares identifiers. */
  type AccountId = nat

  /** The notifications the ledger emits. */
  datatype Event =
    | Transfer(from: AccountId, to: AccountId, value: Balance)
    | Approval(owner: AccountId, spender: AccountId, value: Balance)

  /**
    `after` is `before` with `value` moved from `from` to `to`: the two
    entries are written (so both are present afterwards), `from` loses
    `value`, `to` gains it, and every other balance is untouched. When
    `from == to` the two changes cancel.
   */
  ghost predicate Moved(before: map<AccountId, Balance>, after: map<AccountId, Balance>,
                        from: AccountId, to: AccountId, value: Balance)
  {
    && after.Keys == before.Keys + {from, to}
    && forall a: AccountId :: GetOrZero(after, a) as int ==
         GetOrZero(before, a) as int
         - (if a == from then value as int else 0)
         + (if a == to then value as int else 0)
  }

  /**
    The credit to `to` (erc20.rs:94) stays within the supply, hence within
    `u128`: after `value` has been taken from `from`, `to` holds at most the
    rest of the total.
   */
  lemma {:induction false} CreditCannotOverflow(m: map<AccountId, Balance>, from: AccountId, to: AccountId, value: Balance)
    requires GetOrZero(m, from) >= value
    ensures GetOrZero(m[from := GetOrZero(m, from) - value], to) as int + value as int <= Sum(m)
  {
    var debited := m[from := GetOrZero(m, from) - value];
    SumUpdate(m, from, GetOrZero(m, from) - value);
    GetAtMostSum(debited, to);
  }

  /** Any move of tokens between two accounts leaves the total of the table unchanged. */
  lemma {:induction false} MovedConserves(before: map<AccountId, Balance>, after: map<AccountId, Balance>,
                                          from: AccountId, to: AccountId, value: Balance)
    requires Moved(before, after, from, to, value)
    ensures Sum(after) == Sum(before)
  {
    var f := GetOrZero(before, from);
    if from == to {
      assert after == before[from := f] by {
        forall a: AccountId | a in after ensures a in before[from := f] && after[a] == before[from := f][a] {
          assert GetOrZero(after, a) as int == GetOrZero(before, a) as int;
        }
      }
      SumUpdate(before, from, f);
    } else {
      assert GetOrZero(after, from) as int == f as int - value as int;
      var debited := before[from := f - value];
      CreditCannotOverflow(before, from, to, value);
      var t := GetOrZero(debited, to);
      assert t == GetOrZero(before, to);
      assert after == debited[to := t + value] by {
        forall a: AccountId | a in after ensures a in debited[to := t + value] && after[a] == debited[to := t + value][a] {
          assert GetOrZero(after, a) as int == GetOrZero(before, a) as int
            - (if a == from then value as int else 0) + (if a == to then value as int else 0);
        }
      }
      SumUpdate(before, from, f - value);
      SumUpdate(debited, to, t + value);
    }
  }

  class Erc20Token {
    var totalSupply: Balance
    var balances: map<AccountId, Balance>
    var allowances: map<(AccountId, AccountId), Balance>
    /** Every event emitted so far, oldest first. */
    ghost var events: seq<Event>

    /** Supply conservation: the balances always add up to the total supply. */
    ghost predicate Valid()
      reads this
    {
      Sum(balances) == totalSupply as int
    }

    /** `new`: the creator holds the whole supply; nobody has an allowance. */
    constructor (caller: AccountId, initialSupply: Balance)
      ensures Valid()
      ensures totalSupply == initialSupply
      ensures balances == map[caller := initialSupply]
      ensures allowances == map[]
      ensures events == []
      ensures BalanceOf(caller) == initialSupply
      ensures forall a: AccountId :: a != caller ==> BalanceOf(a) == 0
      ensures forall o: AccountId, s: AccountId :: Allowance(o, s) == 0
    {
      totalSupply := initialSupply;
      balances := map[caller := initialSupply];
      allowances := map[];
      events := [];
      SumSingleton(caller, initialSupply);
    }

    /** `total_supply`: the fixed supply, which is also the sum of all balances. */
    function TotalSupply(): (r: Balance)
      reads this
      ensures Valid() ==> r as int == Sum(balances)
    {
      totalSupply
    }

    /** `balance_of`: an account never credited holds 0; no balance exceeds the supply. */
    function BalanceOf(account: AccountId): (r: Balance)
      reads this
      ensures account in balances ==> r == balances[account]
      ensures account !in balances ==> r == 0
      ensures Valid() ==> r <= totalSupply
    {
      GetAtMostSum(balances, account);
      GetOrZero(balances, account)
    }

    /** `allowance`: what `spender` may still move out of `owner`'s balance; 0 if never approved. */
    function Allowance(owner: AccountId, spender: AccountId): (r: Balance)
      reads this
      ensures (owner, spender) in allowances ==> r == allowances[(owner, spender)]
      ensures (owner, spender) !in allowances ==> r == 0
    {
      GetOrZero(allowances, (owner, spender))
    }

    /**
      `transfer_internal`: moves `value` from `from` to `to`, refusing a zero
      value or one above `from`'s balance. The credit to `to` cannot
      overflow, because every balance is bounded by the supply.
     */
    method TransferInternal(from: AccountId, to: AccountId, value: Balance) returns (ok: bool)
      requires Valid()
      modifies this
      ensures Valid()
      ensures ok <==> value != 0 && old(BalanceOf(from)) >= value
      ensures ok ==> Moved(old(balances), balances, from, to, value)
      ensures ok ==> events == old(events) + [Event.Transfer(from, to, value)]
      ensures !ok ==> balances == old(balances) && events == old(events)
      ensures from == to ==> forall a: AccountId :: BalanceOf(a) == old(BalanceOf(a))
      ensures totalSupply == old(totalSupply) && allowances == old(allowances)
    {
      var fromBalance := BalanceOf(from);
      if fromBalance < value || value == 0 {
        return false;
      }
      SumUpdate(balances, from, fromBalance - value);
      balances := balances[from := fromBalance - value];

      var toBalance := BalanceOf(to);
      CreditCannotOverflow(old(balances), from, to, value);
      SumUpdate(balances, to, toBalance + value);
      balances := balances[to := toBalance + value];

      events := events + [Event.Transfer(from, to, value)];
      ok := true;
    }

    /** `transfer`: the caller moves `value` of its own balance to `to`. */
    method Transfer(caller: AccountId, to: AccountId, value: Balance) returns (ok: bool)
      requires Valid()
      modifies this
      ensures Valid()
      ensures ok <==> value != 0 && old(BalanceOf(caller)) >= value
      ensures ok ==> Moved(old(balances), balances, caller, to, value)
      ensures ok ==> events == old(events) + [Event.Transfer(caller, to, value)]
      ensures !ok ==> balances == old(balances) && events == old(events)
      ensures totalSupply == old(totalSupply) && allowances == old(allowances)
    {
      ok := TransferInternal(caller, to, value);
    }

    /**
      `approve`: overwrites the caller's allowance for `spender` with `value`,
      whatever it was, and always succeeds.
     */
    method Approve(caller: AccountId, spender: AccountId, value: Balance) returns (ok: bool)
      requires Valid()
      modifies this
      ensures Valid()
      ensures ok
      ensures allowances == old(allowances)[(caller, spender) := value]
      ensures Allowance(caller, spender) == value
      ensures forall o: AccountId, s: AccountId :: (o, s) != (caller, spender) ==> Allowance(o, s) == old(Allowance(o, s))
      ensures events == old(events) + [Event.Approval(caller, spender, value)]
      ensures totalSupply == old(totalSupply) && balances == old(balances)
    {
      allowances := allowances[(caller, spender) := value];
      events := events + [Event.Approval(caller, spender, value)];
      ok := true;
    }

    /**
      `transfer_from`: the caller spends `value` of `from`'s allowance to it,
      moving `value` from `from` to `to`. It fails with nothing changed when
      the allowance is too small or the inner transfer fails; on success the
      allowance shrinks by exactly `value`.
     */
    method TransferFrom(caller: AccountId, from: AccountId, to: AccountId, value: Balance)
      returns (ok: bool)
      requires Valid()
      modifies this
      ensures Valid()
      ensures ok <==> old(Allowance(from, caller)) >= value && value != 0 && old(BalanceOf(from)) >= value
      ensures ok ==> Moved(old(balances), balances, from, to, value)
      ensures ok ==> allowances == old(allowances)[(from, caller) := old(Allowance(from, caller)) - value]
      ensures ok ==> Allowance(from, caller) as int == old(Allowance(from, caller)) as int - value as int
      ensures ok ==> events == old(events) + [Event.Transfer(from, to, value)]
      ensures !ok ==> balances == old(balances) && allowances == old(allowances) && events == old(events)
      ensures forall o: AccountId, s: AccountId :: (o, s) != (from, caller) ==> Allowance(o, s) == old(Allowance(o, s))
      ensures totalSupply == old(totalSupply)
    {
      var allowance := Allowance(from, caller);
      if allowance < value {
        return false;
      }
      var moved := TransferInternal(from, to, value);
      if !moved {
        return false;
      }
      allowances := allowances[(from, caller) := allowance - value];
      ok := true;
    }
  }
}
