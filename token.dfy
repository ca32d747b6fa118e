/** The ERC20Token contract exercised by test/TestERC.js: an ERC-20 ledger
    with a fixed supply, credited in full to the deploying account, and
    the three state transitions `transfer`, `approve` and `transferFrom`.

    `msg.sender` becomes an explicit `caller` parameter. A revert becomes
    an `Err` result; since a revert rolls back the whole transaction, every
    method leaves both tables exactly as they were when it returns `Err`.
    A successful call returns the event it emits. */
module ERC20Token {
  import opened Balances

  const NAME: string := "ERC20Token"
  const SYMBOL: string := "ERT"

  /** `toWei('1', 'ether')`: one whole token is 10^18 base units. */
  const WEI_PER_TOKEN: nat := 1_000_000_000_000_000_000

  /** One million whole tokens. */
  const INITIAL_SUPPLY: Uint256 := 1_000_000 * WEI_PER_TOKEN

  /** The events the contract emits. */
  datatype Event =
    | Transfer(from: Addr, to: Addr, value: Uint256)
    | Approval(owner: Addr, spender: Addr, value: Uint256)

  /** The two reasons a call reverts. */
  datatype Error = InsufficientBalance | AllowanceTooLow

  /** The revert message of each error; the two messages differ, so a
      caller can tell which check failed. */
  function Reason(e: Error): (msg: string)
    ensures msg == "not enough tokens for transfer" <==> e == InsufficientBalance
    ensures msg == "allowance too low" <==> e == AllowanceTooLow
  {
    match e
    case InsufficientBalance => "not enough tokens for transfer"
    case AllowanceTooLow => "allowance too low"
  }

  /** What a state-changing call returns: the emitted event, or the revert. */
  datatype Result = Ok(event: Event) | Err(error: Error)

  class Token {
    const name: string
    const symbol: string
    const totalSupply: Uint256
    var balanceOf: map<Addr, Uint256>
    var allowances: map<(Addr, Addr), Uint256>

    /** Conservation: the balances of all accounts add up to the fixed supply. */
    ghost predicate Valid()
      reads this
    {
      Sum(balanceOf) == totalSupply
    }

    /** The public `balanceOf` getter: zero for an account never credited. */
    function BalanceOf(account: Addr): (balance: Uint256)
      reads this
      ensures account in balanceOf ==> balance == balanceOf[account]
      ensures account !in balanceOf ==> balance == 0
    {
      Get(balanceOf, account)
    }

    /** The public `allowances` getter: zero when `owner` never approved `spender`. */
    function Allowance(owner: Addr, spender: Addr): (allowed: Uint256)
      reads this
      ensures (owner, spender) in allowances ==> allowed == allowances[(owner, spender)]
      ensures (owner, spender) !in allowances ==> allowed == 0
    {
      Get(allowances, (owner, spender))
    }

    /** Deployment by `deployer`: fixed metadata, the whole supply on the
        deployer's account, nothing anywhere else, no allowances. */
    constructor (deployer: Addr)
      ensures Valid()
      ensures name == NAME && symbol == SYMBOL && totalSupply == INITIAL_SUPPLY
      ensures forall a :: BalanceOf(a) == if a == deployer then INITIAL_SUPPLY else 0
      ensures forall owner, spender :: Allowance(owner, spender) == 0
      ensures balanceOf == map[deployer := INITIAL_SUPPLY] && allowances == map[]
    {
      name := NAME;
      symbol := SYMBOL;
      totalSupply := INITIAL_SUPPLY;
      balanceOf := map[deployer := INITIAL_SUPPLY];
      allowances := map[];
      SumSingleton(deployer, INITIAL_SUPPLY);
    }

    /** No account ever holds more than the total supply. */
    lemma BalanceAtMostSupply(account: Addr)
      requires Valid()
      ensures BalanceOf(account) <= totalSupply
    {
      BalanceAtMostSum(balanceOf, account);
    }

    /** `transfer(to, amount)` sent by `caller`: reverts with
        InsufficientBalance when the caller holds less than `amount`;
        otherwise moves `amount` from the caller to `to` and emits
        Transfer(caller, to, amount). Allowances are never touched. */
    method Transfer(caller: Addr, to: Addr, amount: Uint256) returns (r: Result)
      requires Valid()
      modifies this`balanceOf
      ensures Valid()
      ensures r.Ok? <==> amount <= old(BalanceOf(caller))
      ensures r.Err? ==> r.error == InsufficientBalance && balanceOf == old(balanceOf)
      // the credit to `to` never overflows a uint256
      ensures r.Ok? && caller != to ==> old(BalanceOf(to)) + amount < UINT256_LIMIT
      ensures r.Ok? ==> r.event == Event.Transfer(caller, to, amount)
      ensures r.Ok? ==> balanceOf == Move(old(balanceOf), caller, to, amount)
      ensures allowances == old(allowances)
    {
      if Get(balanceOf, caller) < amount {
        return Err(InsufficientBalance);
      }
      CreditFits(balanceOf, caller, to, amount);
      MoveConserves(balanceOf, caller, to, amount);
      balanceOf := Move(balanceOf, caller, to, amount);
      r := Ok(Event.Transfer(caller, to, amount));
    }

    /** `approve(spender, amount)` sent by `caller`: overwrites (does not
        add to) what `spender` may take from the caller's account, and
        emits Approval(caller, spender, amount). It never reverts. */
    method Approve(caller: Addr, spender: Addr, amount: Uint256) returns (e: Event)
      requires Valid()
      modifies this`allowances
      ensures Valid()
      ensures e == Approval(caller, spender, amount)
      ensures allowances == old(allowances)[(caller, spender) := amount]
      ensures balanceOf == old(balanceOf)
    {
      allowances := allowances[(caller, spender) := amount];
      e := Approval(caller, spender, amount);
    }

    /** `transferFrom(from, to, amount)` sent by `caller`: first reverts with
        AllowanceTooLow when `from` allowed the caller less than `amount`,
        then with InsufficientBalance when `from` holds less than `amount`;
        otherwise spends `amount` of that allowance, moves `amount` from
        `from` to `to` and emits Transfer(from, to, amount). */
    method TransferFrom(caller: Addr, from: Addr, to: Addr, amount: Uint256) returns (r: Result)
      requires Valid()
      modifies this`balanceOf, this`allowances
      ensures Valid()
      ensures r.Ok? <==> amount <= old(Allowance(from, caller)) && amount <= old(BalanceOf(from))
      ensures old(Allowance(from, caller)) < amount ==> r == Err(AllowanceTooLow)
      ensures amount <= old(Allowance(from, caller)) && old(BalanceOf(from)) < amount ==> r == Err(InsufficientBalance)
      ensures r.Err? ==> balanceOf == old(balanceOf) && allowances == old(allowances)
      // the credit to `to` never overflows a uint256
      ensures r.Ok? && from != to ==> old(BalanceOf(to)) + amount < UINT256_LIMIT
      ensures r.Ok? ==> r.event == Event.Transfer(from, to, amount)
      ensures r.Ok? ==> balanceOf == Move(old(balanceOf), from, to, amount)
      ensures r.Ok? ==> allowances == old(allowances)[(from, caller) := old(Allowance(from, caller)) - amount]
    {
      var allowed := Get(allowances, (from, caller));
      if allowed < amount {
        return Err(AllowanceTooLow);
      }
      if Get(balanceOf, from) < amount {
        return Err(InsufficientBalance);
      }
      CreditFits(balanceOf, from, to, amount);
      MoveConserves(balanceOf, from, to, amount);
      allowances := allowances[(from, caller) := allowed - amount];
      balanceOf := Move(balanceOf, from, to, amount);
      r := Ok(Event.Transfer(from, to, amount));
    }
  }
}
