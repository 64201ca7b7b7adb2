/**
 * The creator-token ledger as the mutable object it is: one shared object
 * whose methods check their guards and then update its fields in place.
 * Each method is specified by the matching function of `TokenSpec`, applied
 * to the state before the call, and keeps the ledger invariant.
 */
module CreatorToken {
  import opened IntMaps
  import opened TokenSpec
  import TokenProperties

  class Ledger {
    var admin: Account
    var paused: bool
    var totalSupply: int
    var balances: map<Account, int>
    var stakedBalances: map<Account, int>
    var allowances: map<AllowanceKey, int>
    var stakingTimestamps: map<Account, int>
    var blockHeight: int

    /** The ledger's fields as one value. */
    function Snapshot(): (s: TokenSpec.State)
      reads this
    {
      TokenSpec.State(admin, paused, totalSupply, balances, stakedBalances, allowances,
                      stakingTimestamps, blockHeight)
    }

    ghost predicate Valid()
      reads this
    {
      Invariant(Snapshot())
    }

    constructor (admin: Account)
      ensures Snapshot() == Init(admin)
      ensures Valid()
    {
      this.admin := admin;
      paused := false;
      totalSupply := 0;
      balances := map[];
      stakedBalances := map[];
      allowances := map[];
      stakingTimestamps := map[];
      blockHeight := InitialBlockHeight;
    }

    function IsAdmin(caller: Account): (b: bool)
      reads this
      ensures b <==> TokenSpec.IsAdmin(Snapshot(), caller)
    {
      caller == admin
    }

    function GetBalance(account: Account): (r: int)
      reads this
      ensures r == TokenSpec.GetBalance(Snapshot(), account)
      ensures account !in balances ==> r == 0
      ensures Valid() ==> r >= 0
    {
      Get(balances, account)
    }

    function GetStakedBalance(account: Account): (r: int)
      reads this
      ensures r == TokenSpec.GetStakedBalance(Snapshot(), account)
      ensures account !in stakedBalances ==> r == 0
      ensures Valid() ==> r >= 0
    {
      Get(stakedBalances, account)
    }

    function GetAllowance(owner: Account, spender: Account): (r: int)
      reads this
      ensures r == TokenSpec.GetAllowance(Snapshot(), owner, spender)
      ensures AllowanceKey(owner, spender) !in allowances ==> r == 0
      ensures Valid() ==> r >= 0
    {
      Get(allowances, AllowanceKey(owner, spender))
    }

    method SetPaused(caller: Account, pause: bool) returns (r: Outcome)
      modifies this
      ensures Step(r, Snapshot()) == TokenSpec.SetPaused(old(Snapshot()), caller, pause)
      ensures old(Valid()) ==> Valid()
    {
      if !IsAdmin(caller) {
        return Err(ErrUnauthorized);
      }
      paused := pause;
      r := Ok(pause);
    }

    method Mint(caller: Account, recipient: Account, amount: int) returns (r: Outcome)
      modifies this
      ensures Step(r, Snapshot()) == TokenSpec.Mint(old(Snapshot()), caller, recipient, amount)
      ensures old(Valid()) ==> Valid()
    {
      ghost var before := Snapshot();
      if !IsAdmin(caller) {
        return Err(ErrUnauthorized);
      }
      if amount <= 0 {
        return Err(ErrInvalidAmount);
      }
      if totalSupply + amount > MaxSupply {
        return Err(ErrSupplyCapExceeded);
      }
      balances := balances[recipient := Get(balances, recipient) + amount];
      totalSupply := totalSupply + amount;
      r := Ok(true);
      if Invariant(before) {
        TokenProperties.MintPreservesInvariant(before, caller, recipient, amount);
      }
    }

    method Burn(caller: Account, amount: int) returns (r: Outcome)
      modifies this
      ensures Step(r, Snapshot()) == TokenSpec.Burn(old(Snapshot()), caller, amount)
      ensures old(Valid()) ==> Valid()
    {
      ghost var before := Snapshot();
      if paused {
        return Err(ErrContractPaused);
      }
      if amount <= 0 {
        return Err(ErrInvalidAmount);
      }
      var bal := Get(balances, caller);
      if bal < amount {
        return Err(ErrInsufficientBalance);
      }
      balances := balances[caller := bal - amount];
      totalSupply := totalSupply - amount;
      r := Ok(true);
      if Invariant(before) {
        TokenProperties.BurnPreservesInvariant(before, caller, amount);
      }
    }

    method Transfer(caller: Account, recipient: Account, amount: int) returns (r: Outcome)
      modifies this
      ensures Step(r, Snapshot()) == TokenSpec.Transfer(old(Snapshot()), caller, recipient, amount)
      ensures old(Valid()) ==> Valid()
    {
      ghost var before := Snapshot();
      if paused {
        return Err(ErrContractPaused);
      }
      if amount <= 0 {
        return Err(ErrInvalidAmount);
      }
      var bal := Get(balances, caller);
      if bal < amount {
        return Err(ErrInsufficientBalance);
      }
      balances := balances[caller := bal - amount];
      balances := balances[recipient := Get(balances, recipient) + amount];
      r := Ok(true);
      if Invariant(before) {
        TokenProperties.TransferPreservesInvariant(before, caller, recipient, amount);
      }
    }

    method Approve(caller: Account, spender: Account, amount: int) returns (r: Outcome)
      modifies this
      ensures Step(r, Snapshot()) == TokenSpec.Approve(old(Snapshot()), caller, spender, amount)
      ensures old(Valid()) ==> Valid()
    {
      if paused {
        return Err(ErrContractPaused);
      }
      if amount <= 0 {
        return Err(ErrInvalidAmount);
      }
      allowances := allowances[AllowanceKey(caller, spender) := amount];
      r := Ok(true);
    }

    /** Delegated transfer, with negative amounts refused (see `TokenSpec.TransferFrom`). */
    method TransferFrom(caller: Account, owner: Account, recipient: Account, amount: int)
      returns (r: Outcome)
      modifies this
      ensures Step(r, Snapshot()) ==
              TokenSpec.TransferFrom(old(Snapshot()), caller, owner, recipient, amount)
      ensures old(Valid()) ==> Valid()
    {
      ghost var before := Snapshot();
      ghost var expected := TokenSpec.TransferFrom(before, caller, owner, recipient, amount);
      if paused {
        assert expected == Step(Err(ErrContractPaused), before);
        return Err(ErrContractPaused);
      }
      if amount < 0 {
        assert expected == Step(Err(ErrInvalidAmount), before);
        return Err(ErrInvalidAmount);
      }
      var key := AllowanceKey(owner, caller);
      var allowance := Get(allowances, key);
      if allowance < amount {
        assert expected == Step(Err(ErrAllowanceExceeded), before);
        return Err(ErrAllowanceExceeded);
      }
      var ownerBal := Get(balances, owner);
      if ownerBal < amount {
        assert expected == Step(Err(ErrInsufficientBalance), before);
        return Err(ErrInsufficientBalance);
      }
      balances := balances[owner := ownerBal - amount];
      balances := balances[recipient := Get(balances, recipient) + amount];
      allowances := allowances[key := allowance - amount];
      r := Ok(true);
      assert expected == Step(r, Snapshot());
      if Invariant(before) {
        TokenProperties.TransferFromPreservesInvariant(before, caller, owner, recipient, amount);
      }
    }

    method Stake(caller: Account, amount: int) returns (r: Outcome)
      modifies this
      ensures Step(r, Snapshot()) == TokenSpec.Stake(old(Snapshot()), caller, amount)
      ensures old(Valid()) ==> Valid()
    {
      ghost var before := Snapshot();
      if paused {
        return Err(ErrContractPaused);
      }
      if amount <= 0 {
        return Err(ErrInvalidAmount);
      }
      var bal := Get(balances, caller);
      if bal < amount {
        return Err(ErrInsufficientBalance);
      }
      balances := balances[caller := bal - amount];
      stakedBalances := stakedBalances[caller := Get(stakedBalances, caller) + amount];
      stakingTimestamps := stakingTimestamps[caller := blockHeight];
      r := Ok(true);
      if Invariant(before) {
        TokenProperties.StakePreservesInvariant(before, caller, amount);
      }
    }

    method Unstake(caller: Account, amount: int) returns (r: Outcome)
      modifies this
      ensures Step(r, Snapshot()) == TokenSpec.Unstake(old(Snapshot()), caller, amount)
      ensures old(Valid()) ==> Valid()
    {
      ghost var before := Snapshot();
      if paused {
        return Err(ErrContractPaused);
      }
      if amount <= 0 {
        return Err(ErrInvalidAmount);
      }
      var stakeBal := Get(stakedBalances, caller);
      if stakeBal < amount {
        return Err(ErrInsufficientStake);
      }
      var stakeTime := Get(stakingTimestamps, caller);
      if blockHeight - stakeTime < LockPeriod {
        return Err(ErrStakeLocked);
      }
      stakedBalances := stakedBalances[caller := stakeBal - amount];
      balances := balances[caller := Get(balances, caller) + amount];
      r := Ok(true);
      if Invariant(before) {
        TokenProperties.UnstakePreservesInvariant(before, caller, amount);
      }
    }

    /** The environment advances the block height; nothing else changes. */
    method AdvanceBlockHeight(blocks: nat)
      modifies this
      ensures Snapshot() == AdvanceBlocks(old(Snapshot()), blocks)
      ensures old(Valid()) ==> Valid()
    {
      blockHeight := blockHeight + blocks;
    }
  }
}
