/** The scenarios of test/TestERC.js, one method per test case, each on a
    freshly deployed token (the test redeploys before every case). The
    accounts are parameters standing for `accounts[0]`, `accounts[1]`, ...;
    account 0 deploys. Each method returns what its test case reads back
    and promises, in its postconditions, the values the test asserts. */
module TestERC {
  import opened Balances
  import opened ERC20Token

  /** 'should give the name, symbol, total supply correctly'. */
  method NameSymbolSupply(account0: Addr) returns (name: string, symbol: string, totalSupply: Uint256)
    ensures name == "ERC20Token" && symbol == "ERT"
    ensures totalSupply == 1_000_000 * 1_000_000_000_000_000_000
  {
    var token := new Token(account0);
    name, symbol, totalSupply := token.name, token.symbol, token.totalSupply;
  }

  /** 'should return the correct initial balance of the owner'. */
  method OwnerInitialBalance(account0: Addr) returns (balance: Uint256)
    ensures balance == 1_000_000 * 1_000_000_000_000_000_000
  {
    var token := new Token(account0);
    balance := token.BalanceOf(account0);
  }

  /** 'should transfer token': account 0 sends 1000 base units to account 1. */
  method TransferToken(account0: Addr, account1: Addr) returns (receipt: Result, balance1: Uint256)
    requires account0 != account1
    ensures receipt == Ok(Transfer(account0, account1, 1000))
    ensures balance1 == 1000
  {
    var token := new Token(account0);
    receipt := token.Transfer(account0, account1, 1000);
    balance1 := token.BalanceOf(account1);
  }

  /** 'should not transfer if balance is low': account 1, which holds
      nothing, tries to send 1500 to account 2; the call reverts and
      nothing moves. */
  method TransferWithLowBalance(account0: Addr, account1: Addr, account2: Addr)
    returns (receipt: Result, balance1: Uint256, balance2: Uint256)
    requires account1 != account0 && account2 != account0
    ensures receipt.Err? && Reason(receipt.error) == "not enough tokens for transfer"
    ensures balance1 == 0 && balance2 == 0
  {
    var token := new Token(account0);
    receipt := token.Transfer(account1, account2, 1500);
    balance1 := token.BalanceOf(account1);
    balance2 := token.BalanceOf(account2);
  }

  /** 'should not transfer token if on behalf approval is not given':
      account 3 tries to move 1000 from account 1 without an allowance.
      Account 1 also holds nothing, so the call would fail either check;
      the reason reported is the allowance, which is checked first. */
  method TransferFromWithoutApproval(account0: Addr, account1: Addr, account2: Addr, account3: Addr)
    returns (receipt: Result, balance1: Uint256)
    requires account1 != account0
    ensures receipt.Err? && Reason(receipt.error) == "allowance too low"
    ensures balance1 < 1000
  {
    var token := new Token(account0);
    balance1 := token.BalanceOf(account1);
    receipt := token.TransferFrom(account3, account1, account2, 1000);
  }

  /** 'should transfer tokens using transfer from function if approval is
      given': account 0 sends 1000 to account 1; account 1 approves account
      0 for 1000; account 0 then moves those 1000 from account 1 to
      account 3, spending the whole allowance. */
  method TransferFromWithApproval(account0: Addr, account1: Addr, account3: Addr)
    returns (bal1: Uint256, bal3: Uint256, initialAllow: Uint256, approval: Event, finalAllow: Uint256,
             receipt: Result, afterBalance1: Uint256, afterBalance3: Uint256, afterAllow: Uint256)
    requires account0 != account1 && account0 != account3 && account1 != account3
    ensures bal1 == 1000
    ensures bal3 == 0
    ensures initialAllow == 0
    ensures approval == Approval(account1, account0, 1000) && finalAllow == 1000
    ensures receipt == Ok(Transfer(account1, account3, 1000))
    ensures afterBalance1 == 0 && afterBalance3 == 1000 && afterAllow == 0
  {
    var token := new Token(account0);
    var _ := token.Transfer(account0, account1, 1000);
    bal1 := token.BalanceOf(account1);
    bal3 := token.BalanceOf(account3);
    initialAllow := token.Allowance(account1, account0);
    approval := token.Approve(account1, account0, 1000);
    finalAllow := token.Allowance(account1, account0);
    receipt := token.TransferFrom(account0, account1, account3, 1000);
    afterBalance1 := token.BalanceOf(account1);
    afterBalance3 := token.BalanceOf(account3);
    afterAllow := token.Allowance(account1, account0);
  }
}
