# ERC-20 token ledger in Dafny

This project models `Erc20Token`, the token ledger of the ink! smart
contract in `erc20.rs`. The ledger follows the "Methods" section of EIP-20,
the Ethereum token standard. Its state is:

- a total supply, fixed when the ledger is created;
- a sparse balance table `AccountId -> Balance`;
- a sparse allowance table `(owner, spender) -> Balance`.

An absent entry reads as 0. `Balance` is an unsigned 128-bit integer; the
model makes it the newtype `Amounts.u128`, so every stored sum and difference
has to be proved to fit.

Files:

- `amounts.dfy` (module `Amounts`) holds the `u128` type and the get-or-zero
  lookup. It also defines `Sum`, the total of a table, and the lemmas that
  say how writing one entry changes that total.
- `erc20.dfy` (module `Erc20`) holds the class `Erc20Token`. Its fields
  `totalSupply`, `balances` and `allowances` are the contract's storage
  fields. The messages `transfer`, `approve` and `transfer_from`, and the
  private `transfer_internal`, are methods that update the maps in place.
  The getters are functions on the object's state. The object invariant
  `Valid()` is supply conservation: the balances add up to `totalSupply`.
  Every method keeps it and leaves `totalSupply` unchanged.
- `scenarios.dfy` (module `Erc20Scenarios`) holds client methods. They use
  only the ledger's contracts and replay the repository's own test and the
  promised behaviours: approvals overwrite, allowances shrink by exactly
  the amount spent, and failed calls change nothing.

The host supplies the caller's identity (`self.env().caller()`). In the model
it is an explicit first parameter, `caller`, of every state-changing
operation. `AccountId` is modelled as `nat`; the ledger only compares
identifiers. The host's event sink (`emit_event`) is modelled as a ghost log,
`events`. On success each method appends exactly one `Transfer` or
`Approval` event; a failed call appends nothing.

The credit to the recipient on erc20.rs:94 is proved unable to overflow
`u128`. After the debit, the recipient holds at most the rest of the supply
(`CreditCannotOverflow`).

Where the code and its description differ, the model follows the code:

- `balance_of` (erc20.rs:49) reads `self.balance`, a misspelling of the
  `balances` field declared at erc20.rs:10. The model reads `balances`.
- `transfer_internal` rejects a zero-value transfer (erc20.rs:88). EIP-20
  treats such a transfer as a normal one. The model rejects it, as the code
  does.
- The two failure checks at erc20.rs:88 come in the order "balance too
  small, or value zero". Either check failing gives the same result, so
  their order is not observable.
- The test at erc20.rs:110-127 never changes the caller, so as written its
  `transfer_from` at line 124 would be made by alice. `ItWorks` lets
  charlie make that call, which is what the test evidently means.

## Model

| member | source | states |
|---|---|---|
| `Amounts.GetOrZero` | erc20.rs:86 | a table lookup gives the stored entry when the key is present and 0 when it is absent |
| `Amounts.SumRemove` | erc20.rs:91-94 | any single entry can be split off a table's total: total = that entry + total of the rest |
| `Amounts.SumUpdate` | erc20.rs:91-94 | writing `v` under `k` changes the total by `v` minus the old (default 0) value at `k` |
| `Amounts.GetAtMostSum` | erc20.rs:93-94 | no single entry of a table exceeds the table's total |
| `Amounts.SumSingleton` | erc20.rs:33-34 | a table holding only the creator's entry totals that entry |
| `Erc20.CreditCannotOverflow` | erc20.rs:91-94 | after `value` is debited from `from`, the recipient's balance plus `value` is at most the old total, so the addition cannot overflow `u128` |
| `Erc20.MovedConserves` | erc20.rs:91-94 | any table change that debits `from` and credits `to` by the same amount, touching nothing else, keeps the total; this includes `from == to` |
| `Erc20.Erc20Token.constructor` | erc20.rs:31-42 | the supply is `initialSupply`; the creator holds all of it; every other balance and every allowance is 0; no event is emitted; the supply invariant holds |
| `Erc20.Erc20Token.TotalSupply` | erc20.rs:44-46 | the supply returned equals the sum of all balances |
| `Erc20.Erc20Token.BalanceOf` | erc20.rs:48-50 | gives the stored balance, or 0 for an account never credited; a read only; under the invariant it never exceeds the total supply |
| `Erc20.Erc20Token.Allowance` | erc20.rs:82-84 | gives the stored allowance of the pair, or 0 for a pair never approved; a read only |
| `Erc20.Erc20Token.TransferInternal` | erc20.rs:85-102 | succeeds iff `value != 0` and `from`'s balance is at least `value`. On success `from` loses exactly `value`, `to` gains exactly `value`, nothing else changes (net zero when `from == to`), and one `Transfer` event is logged. On failure no balance changes and no event is logged. Supply and allowances never change, and the invariant is kept |
| `Erc20.Erc20Token.Transfer` | erc20.rs:53-56 | the same as `TransferInternal` with the caller as sender |
| `Erc20.Erc20Token.Approve` | erc20.rs:58-68 | always returns true. The caller's allowance for `spender` becomes exactly `value`, replacing the old one. Every other pair and every balance stay unchanged. One `Approval` event is logged |
| `Erc20.Erc20Token.TransferFrom` | erc20.rs:70-80 | succeeds iff the allowance of `(from, caller)` is at least `value`, `value != 0` and `from`'s balance is at least `value`. On success tokens move as in `TransferInternal` and that allowance drops by exactly `value`. On failure balances, allowances and the event log are unchanged. Allowances of other pairs never change |
| `Erc20Scenarios.ItWorks` | erc20.rs:113-125 | create 1000 for alice, transfer 500 to bob, approve charlie for 200, charlie moves the 200: the supply is 1000, alice 300, bob 500, charlie 200, and the allowance is 0 |
| `Erc20Scenarios.ApproveTwice` | erc20.rs:58-68 | after two approvals of the same spender, the allowance is the second value, not the sum |
| `Erc20Scenarios.SpendPartOfAllowance` | erc20.rs:70-80 | spending 40 of an allowance of 100 leaves 60 and moves exactly 40 |
| `Erc20Scenarios.FailedCallsChangeNothing` | erc20.rs:74-89 | a zero transfer, a transfer above the balance and a delegated transfer above the allowance all return false and leave balances and the allowance unchanged |
| `Erc20Scenarios.SelfTransfer` | erc20.rs:91-101 | a transfer to oneself succeeds, logs its event and leaves the balance unchanged |

## Left out

- The ink! attributes and macros (`#[ink::contract]`, `#[ink(storage)]`, `#[ink(message)]`, `#[ink(event)]`, `#[ink(topic)]`) are host plumbing with no ledger logic. The event topics are not modelled.
- The `ink_storage` hash map backend is modelled as Dafny `map`s read through a get-or-zero lookup. Persistence between calls is not modelled.
- `self.env().caller()` is replaced by an explicit `caller` parameter, and the constructor takes the creator as a parameter.
- `self.env().emit_event` is a call into the host. It is modelled only as appending to the ghost `events` log, and delivery is not modelled.
- No operation is concurrent or atomic across calls. The host makes each call one sequential transition, and each method models one such transition.
- The overflow panic of Rust's checked `u128` arithmetic is not modelled. The model proves that the addition on erc20.rs:94 and the subtractions on lines 78 and 91 always fit.
- The broken test lines erc20.rs:122 and erc20.rs:126 are not modelled. Line 122 calls `approve` with the wrong arity and compares a bool with 200. Line 126 expects bob to hold 200, which contradicts the transfer on line 117.
