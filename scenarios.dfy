/**
  Clients of the ledger that use only the contracts of `Erc20Token`: the
  walk-through of the repository's own test, and the behaviours the design
  promises for approvals, delegated transfers and failed calls.
 */
module Erc20Scenarios {
  import opened Amounts
  import opened Erc20

  const ALICE: AccountId := 1
  const BOB: AccountId := 2
  const CHARLIE: AccountId := 3

  /**
    Alice creates 1000 tokens, sends 500 to Bob and lets Charlie spend 200,
    which Charlie then moves to Charlie's own account: the supply stays 1000, Alice is left
    with 300, Charlie holds 200 and the allowance is used up.
   */
  method ItWorks() returns (supply: Balance, alice: Balance, bob: Balance, charlie: Balance, allowance: Balance)
    ensures supply == 1000
    ensures alice == 300 && bob == 500 && charlie == 200
    ensures allowance == 0
  {
    var token := new Erc20Token(ALICE, 1000);
    assert token.TotalSupply() == 1000 && token.BalanceOf(ALICE) == 1000;

    var ok := token.Transfer(ALICE, BOB, 500);
    assert ok;
    assert token.BalanceOf(ALICE) == 500 && token.BalanceOf(BOB) == 500;

    ok := token.Approve(ALICE, CHARLIE, 200);
    assert token.Allowance(ALICE, CHARLIE) == 200;

    ok := token.TransferFrom(CHARLIE, ALICE, CHARLIE, 200);
    assert ok;

    supply := token.TotalSupply();
    alice := token.BalanceOf(ALICE);
    bob := token.BalanceOf(BOB);
    charlie := token.BalanceOf(CHARLIE);
    allowance := token.Allowance(ALICE, CHARLIE);
  }

  /** A second approval replaces the first instead of adding to it. */
  method ApproveTwice(owner: AccountId, spender: AccountId, first: Balance, second: Balance)
    returns (allowance: Balance)
    ensures allowance == second
  {
    var token := new Erc20Token(owner, 0);
    var ok := token.Approve(owner, spender, first);
    ok := token.Approve(owner, spender, second);
    allowance := token.Allowance(owner, spender);
  }

  /** Spending 40 of an allowance of 100 leaves exactly 60. */
  method SpendPartOfAllowance() returns (ok: bool, allowance: Balance, alice: Balance, bob: Balance)
    ensures ok
    ensures allowance == 60
    ensures alice == 960 && bob == 40
  {
    var token := new Erc20Token(ALICE, 1000);
    var approved := token.Approve(ALICE, CHARLIE, 100);
    ok := token.TransferFrom(CHARLIE, ALICE, BOB, 40);
    allowance := token.Allowance(ALICE, CHARLIE);
    alice := token.BalanceOf(ALICE);
    bob := token.BalanceOf(BOB);
  }

  /**
    A zero-value transfer, a transfer beyond the balance and a delegated
    transfer beyond the allowance all fail and leave every balance and the
    allowance as they were.
   */
  method FailedCallsChangeNothing()
    returns (zero: bool, tooMuch: bool, overAllowance: bool, alice: Balance, bob: Balance, allowance: Balance)
    ensures !zero && !tooMuch && !overAllowance
    ensures alice == 1000 && bob == 0 && allowance == 50
  {
    var token := new Erc20Token(ALICE, 1000);
    zero := token.Transfer(ALICE, BOB, 0);
    tooMuch := token.Transfer(ALICE, BOB, 1001);
    var approved := token.Approve(ALICE, CHARLIE, 50);
    overAllowance := token.TransferFrom(CHARLIE, ALICE, BOB, 51);
    alice := token.BalanceOf(ALICE);
    bob := token.BalanceOf(BOB);
    allowance := token.Allowance(ALICE, CHARLIE);
  }

  /** A transfer to oneself succeeds, emits its event and leaves every balance as it was. */
  method SelfTransfer() returns (ok: bool, alice: Balance)
    ensures ok && alice == 1000
  {
    var token := new Erc20Token(ALICE, 1000);
    ok := token.Transfer(ALICE, ALICE, 400);
    assert token.events == [Event.Transfer(ALICE, ALICE, 400)];
    alice := token.BalanceOf(ALICE);
  }
}
