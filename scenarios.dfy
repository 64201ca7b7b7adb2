/**
 * The ledger's test scenarios, each run against a fresh `Ledger` through
 * its methods alone. Every scenario returns what its test observes and
 * states the observed values in its postcondition.
 */
module CreatorTokenScenarios {
  import opened TokenSpec
  import opened CreatorToken

  method AdminMints(admin: Account, alice: Account)
    returns (r: Outcome, balance: int, supply: int)
    ensures r == Ok(true) && balance == 1000 && supply == 1000
  {
    var ledger := new Ledger(admin);
    r := ledger.Mint(admin, alice, 1000);
    balance := ledger.GetBalance(alice);
    supply := ledger.totalSupply;
  }

  method NonAdminCannotMint(admin: Account, alice: Account, bob: Account)
    returns (r: Outcome)
    requires alice != admin
    ensures r == Err(ErrUnauthorized)
  {
    var ledger := new Ledger(admin);
    r := ledger.Mint(alice, bob, 1000);
  }

  method MintOverCapFails(admin: Account, alice: Account) returns (r: Outcome)
    ensures r == Err(ErrSupplyCapExceeded)
  {
    var ledger := new Ledger(admin);
    r := ledger.Mint(admin, alice, 200_000_000_000_000);
  }

  method BurnLowersBalanceAndSupply(admin: Account, alice: Account)
    returns (r: Outcome, balance: int, supply: int)
    ensures r == Ok(true) && balance == 300 && supply == 300
  {
    var ledger := new Ledger(admin);
    var _ := ledger.Mint(admin, alice, 500);
    r := ledger.Burn(alice, 200);
    balance := ledger.GetBalance(alice);
    supply := ledger.totalSupply;
  }

  method BurnOverBalanceFails(admin: Account, alice: Account) returns (r: Outcome)
    ensures r == Err(ErrInsufficientBalance)
  {
    var ledger := new Ledger(admin);
    var _ := ledger.Mint(admin, alice, 500);
    r := ledger.Burn(alice, 600);
  }

  method TransferMovesTokens(admin: Account, alice: Account, bob: Account)
    returns (r: Outcome, aliceBalance: int, bobBalance: int)
    requires alice != bob
    ensures r == Ok(true) && aliceBalance == 300 && bobBalance == 200
  {
    var ledger := new Ledger(admin);
    var _ := ledger.Mint(admin, alice, 500);
    r := ledger.Transfer(alice, bob, 200);
    aliceBalance := ledger.GetBalance(alice);
    bobBalance := ledger.GetBalance(bob);
  }

  method PausedTransferFails(admin: Account, alice: Account, bob: Account)
    returns (r: Outcome)
    ensures r == Err(ErrContractPaused)
  {
    var ledger := new Ledger(admin);
    var _ := ledger.SetPaused(admin, true);
    r := ledger.Transfer(alice, bob, 10);
  }

  method ApproveSetsAllowance(admin: Account, alice: Account, bob: Account)
    returns (r: Outcome, allowance: int)
    ensures r == Ok(true) && allowance == 300
  {
    var ledger := new Ledger(admin);
    r := ledger.Approve(alice, bob, 300);
    allowance := ledger.GetAllowance(alice, bob);
  }

  method TransferFromSpendsAllowance(admin: Account, alice: Account, bob: Account,
                                     dave: Account)
    returns (r: Outcome, aliceBalance: int, bobBalance: int, allowance: int)
    requires alice != bob
    ensures r == Ok(true) && aliceBalance == 400 && bobBalance == 100 && allowance == 100
  {
    var ledger := new Ledger(admin);
    var _ := ledger.Mint(admin, alice, 500);
    var _ := ledger.Approve(alice, dave, 200);
    r := ledger.TransferFrom(dave, alice, bob, 100);
    aliceBalance := ledger.GetBalance(alice);
    bobBalance := ledger.GetBalance(bob);
    allowance := ledger.GetAllowance(alice, dave);
  }

  method TransferFromOverAllowanceFails(admin: Account, alice: Account, bob: Account,
                                        dave: Account)
    returns (r: Outcome)
    ensures r == Err(ErrAllowanceExceeded)
  {
    var ledger := new Ledger(admin);
    var _ := ledger.Mint(admin, alice, 500);
    var _ := ledger.Approve(alice, dave, 100);
    r := ledger.TransferFrom(dave, alice, bob, 200);
  }

  method StakeMovesToStake(admin: Account, alice: Account)
    returns (r: Outcome, balance: int, staked: int)
    ensures r == Ok(true) && balance == 300 && staked == 200
  {
    var ledger := new Ledger(admin);
    var _ := ledger.Mint(admin, alice, 500);
    r := ledger.Stake(alice, 200);
    balance := ledger.GetBalance(alice);
    staked := ledger.GetStakedBalance(alice);
  }

  method UnstakeAfterLock(admin: Account, alice: Account)
    returns (r: Outcome, staked: int, balance: int)
    ensures r == Ok(true) && staked == 100 && balance == 400
  {
    var ledger := new Ledger(admin);
    var _ := ledger.Mint(admin, alice, 500);
    var _ := ledger.Stake(alice, 200);
    ledger.AdvanceBlockHeight(10);
    r := ledger.Unstake(alice, 100);
    staked := ledger.GetStakedBalance(alice);
    balance := ledger.GetBalance(alice);
  }

  method UnstakeDuringLockFails(admin: Account, alice: Account) returns (r: Outcome)
    ensures r == Err(ErrStakeLocked)
  {
    var ledger := new Ledger(admin);
    var _ := ledger.Mint(admin, alice, 500);
    var _ := ledger.Stake(alice, 200);
    r := ledger.Unstake(alice, 100);
  }
}
