# ERC20Token ledger, modelled in Dafny

This project models the fungible-token contract `ERC20Token` that
`test/TestERC.js` deploys and drives: an ERC-20 style ledger (the
"Methods" and "Events" of EIP-20, the ERC-20 Token Standard) with a fixed
supply of one million tokens of 10^18 base units each, all credited to the
deploying account. Its state is a `balanceOf` table from address to
`uint256` and an `allowances` table from (owner, spender) to `uint256`;
both read an address never written as zero. Three transactions change it:

- `transfer(to, amount)` moves `amount` from the sender to `to`, or
  reverts with "not enough tokens for transfer";
- `approve(spender, amount)` sets (overwrites) what `spender` may take from
  the sender's account;
- `transferFrom(from, to, amount)` lets the sender spend an allowance
  granted by `from`: it reverts with "allowance too low" when the allowance
  is short (checked first, even when the balance is short too), reverts
  when `from`'s balance is short, and otherwise lowers the allowance and
  moves the tokens. The model gives that balance revert the same
  InsufficientBalance error, and so the same message, as `transfer`.

Files:

- `balances.dfy` (module `Balances`): addresses (`Addr`, 160 bits),
  `uint256` amounts, the absent-is-zero lookup `Get`, the sum of a balance
  table, the debit-then-credit step `Move`, and the conservation lemmas.
- `token.dfy` (module `ERC20Token`): the contract as a class `Token` whose
  fields are the two tables, with the constructor and the three
  transactions as methods. `msg.sender` is an explicit `caller` parameter.
  A revert is an `Err` result and leaves both tables exactly as they were;
  a successful call returns the event it emits. The class invariant
  `Valid()` is conservation: all balances add up to `totalSupply`.
- `test_erc.dfy` (module `TestERC`): one client method per test case of
  `test/TestERC.js`, each deploying a fresh token and proving that the
  values the test reads back are the ones it asserts.

The test deploys the token with no arguments (test/TestERC.js:10), so
name, symbol and supply are fixed values, not construction parameters; the
supply is 10^24 base units (`toWei('1000000', 'ether')`,
test/TestERC.js:8).

## Model

| member | source | states |
|---|---|---|
| `ERC20Token.Token.constructor` | test/TestERC.js:8-28 | Deployment sets name "ERC20Token", symbol "ERT", total supply 10^24; the deployer holds the whole supply, every other account and every allowance reads zero, and conservation holds. |
| `Balances.SumSingleton` | test/TestERC.js:22-27 | A table with one account holding `v` sums to `v`: at deployment the deployer's balance equals the total supply. |
| `ERC20Token.Token.BalanceAtMostSupply` | test/TestERC.js:22-27 | While conservation holds, no account's balance exceeds the total supply. |
| `ERC20Token.Token.Transfer` | test/TestERC.js:30-47 | Succeeds exactly when the caller holds at least `amount`; on success the balances become `Move(old, caller, to, amount)`, the event is Transfer(caller, to, amount) and the credit does not overflow; otherwise the error is InsufficientBalance and the balances are unchanged; allowances never change and conservation is kept. |
| `ERC20Token.Token.Approve` | test/TestERC.js:66-77 | Sets allowance (caller, spender) to exactly `amount`, overwriting any earlier value, leaves every other allowance and all balances alone, and returns Approval(caller, spender, amount). |
| `ERC20Token.Token.TransferFrom` | test/TestERC.js:49-95 | Fails with AllowanceTooLow whenever the allowance (from, caller) is below `amount`, whatever the balance; otherwise with InsufficientBalance when `from` holds less; a failure changes neither table; success lowers that allowance by `amount`, moves `amount` from `from` to `to`, returns Transfer(from, to, amount) naming the owner, not the caller, and keeps conservation. |
| `ERC20Token.Token.BalanceOf` | test/TestERC.js:25-34 | The public `balanceOf` getter returns the stored balance of an account, or zero for an account never credited. |
| `ERC20Token.Token.Allowance` | test/TestERC.js:66-77 | The public `allowances` getter returns the stored allowance of (owner, spender), or zero when the owner never approved that spender. |
| `ERC20Token.Reason` | test/TestERC.js:42-53 | Maps InsufficientBalance to "not enough tokens for transfer" and AllowanceTooLow to "allowance too low", and each message to exactly one error. |
| `Balances.Move` | test/TestERC.js:88-92 | Debiting `from` and crediting `to` lowers `from` by `amount` and raises `to` by `amount` (leaves both as they were when `from == to`) and changes no other account. |
| `Balances.MoveConserves` | test/TestERC.js:88-92 | Moving value between accounts leaves the sum of all balances unchanged, so both transfers preserve total supply. |
| `Balances.CreditFits` | test/TestERC.js:31-34 | While the balances sum below 2^256, crediting an account with an amount that another account could pay never overflows a `uint256`. |
| `TestERC.NameSymbolSupply` | test/TestERC.js:13-23 | A fresh token reports name "ERC20Token", symbol "ERT" and total supply 1,000,000 × 10^18. |
| `TestERC.OwnerInitialBalance` | test/TestERC.js:25-28 | A fresh token's deployer holds 1,000,000 × 10^18. |
| `TestERC.TransferToken` | test/TestERC.js:30-40 | A transfer of 1000 from account 0 to account 1 succeeds with Transfer(account0, account1, 1000) and leaves account 1 with 1000. |
| `TestERC.TransferWithLowBalance` | test/TestERC.js:42-47 | Account 1, holding nothing, cannot send 1500: the call reverts with "not enough tokens for transfer" and both accounts still hold nothing. |
| `TestERC.TransferFromWithoutApproval` | test/TestERC.js:49-54 | Without an approval, transferFrom reverts with "allowance too low", even though account 1 also holds less than the amount. |
| `TestERC.TransferFromWithApproval` | test/TestERC.js:56-97 | After 1000 is sent to account 1 and account 1 approves account 0 for 1000, the allowance reads 0 then 1000, the Approval event names owner 1 and spender 0, and transferFrom by account 0 moves 1000 from account 1 to account 3 with Transfer(account1, account3, 1000), leaving account 1 with 0, account 3 with 1000 and the allowance at 0. |

## Left out

- The contract source `ERC20Token.sol` is not part of this model; the behaviour modelled is the one the test file pins down (constructor values, credit and debit effects, the two revert reasons and their order, the emitted events).
- Deployment and transaction plumbing (Truffle artifacts, redeployment before each test, web3 calls and receipts, the test-helper libraries) are replaced by direct calls on a fresh `Token`; each transaction is one atomic step, with no concurrency.
- BN and `toWei` conversions: amounts are plain integers bounded by 2^256.
- Gas, event-log encoding and indexed topics: an event is a plain value returned by the call.
- The `bool` that ERC-20's `transfer`, `approve` and `transferFrom` return on success is not modelled; the call returns its event or its error instead.
- The `name()`, `symbol()` and `totalSupply()` getters are the class's constant fields.
- Balance and allowance tables keep an explicit zero entry where an absent key would also read zero; the getters cannot tell the two apart.
- Move: requires the credit to fit in a `uint256` instead of modelling a revert on overflow; `CreditFits` proves the requirement always holds while conservation does, so no call of the contract can reach that revert.
- TransferFrom: the revert for a balance shortfall (allowance sufficient, balance short) is assumed to be the one `transfer` gives, InsufficientBalance with "not enough tokens for transfer"; no test case exercises it.
