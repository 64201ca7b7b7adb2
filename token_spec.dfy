/**
 * The creator-token ledger as a pure state machine.
 *
 * Every operation takes the current ledger state and its arguments and
 * returns a `Step`: the result the caller sees and the state afterwards.
 * Each one runs a fixed sequence of guards, each with its own error code,
 * and only then updates the state; the contracts below state the guard
 * order, that a failure changes nothing, and the exact effect of a success
 * as seen through the three getters.
 */
module TokenSpec {
  import opened IntMaps

  /** An account identifier; the caller arrives already authenticated. */
  type Account = string

  /** Allowances are keyed by the ordered pair (owner, spender). */
  datatype AllowanceKey = AllowanceKey(owner: Account, spender: Account)

  /** What an operation returns: a success value or a numeric error code. */
  datatype Outcome = Ok(value: bool) | Err(code: int)

  const ErrUnauthorized: int := 100
  const ErrInsufficientBalance: int := 101
  const ErrInsufficientStake: int := 102
  const ErrSupplyCapExceeded: int := 103
  const ErrContractPaused: int := 104
  const ErrInvalidAmount: int := 106
  const ErrAllowanceExceeded: int := 107
  const ErrStakeLocked: int := 109

  const MaxSupply: int := 100_000_000_000_000
  /** Blocks that must pass after the last stake before any unstake. */
  const LockPeriod: int := 10
  const InitialBlockHeight: int := 100

  datatype State = State(
    admin: Account,
    paused: bool,
    totalSupply: int,
    balances: map<Account, int>,
    stakedBalances: map<Account, int>,
    allowances: map<AllowanceKey, int>,
    stakingTimestamps: map<Account, int>,
    blockHeight: int)

  datatype Step = Step(outcome: Outcome, state: State)

  /** A fresh ledger: no tokens, no allowances, no stakes, not paused. */
  function Init(admin: Account): (s: State)
    ensures Invariant(s)
    ensures !s.paused && s.totalSupply == 0 && s.blockHeight == InitialBlockHeight
    ensures forall a :: GetBalance(s, a) == 0 && GetStakedBalance(s, a) == 0
    ensures forall o, sp :: GetAllowance(s, o, sp) == 0
    ensures s.admin == admin
    ensures forall a :: StakeTime(s, a) == 0
  {
    State(admin, false, 0, map[], map[], map[], map[], InitialBlockHeight)
  }

  /** Only the one admin account passes the admin check. */
  predicate IsAdmin(s: State, caller: Account): (b: bool)
    ensures b <==> caller == s.admin
  {
    caller == s.admin
  }

  /** The caller's liquid balance: never fails, 0 when unset, never negative in a valid state. */
  function GetBalance(s: State, account: Account): (r: int)
    ensures account in s.balances ==> r == s.balances[account]
    ensures account !in s.balances ==> r == 0
    ensures Invariant(s) ==> r >= 0
  {
    Get(s.balances, account)
  }

  /** The staked balance: never fails, 0 when unset, never negative in a valid state. */
  function GetStakedBalance(s: State, account: Account): (r: int)
    ensures account in s.stakedBalances ==> r == s.stakedBalances[account]
    ensures account !in s.stakedBalances ==> r == 0
    ensures Invariant(s) ==> r >= 0
  {
    Get(s.stakedBalances, account)
  }

  /** The allowance of the pair (owner, spender): 0 when unset, never negative in a valid state. */
  function GetAllowance(s: State, owner: Account, spender: Account): (r: int)
    ensures AllowanceKey(owner, spender) in s.allowances ==>
              r == s.allowances[AllowanceKey(owner, spender)]
    ensures AllowanceKey(owner, spender) !in s.allowances ==> r == 0
    ensures Invariant(s) ==> r >= 0
  {
    Get(s.allowances, AllowanceKey(owner, spender))
  }

  /**
   * The block at which the account last staked, 0 when it never has; in a
   * valid state it is never after the current block, so the elapsed count
   * the lock checks is never negative.
   */
  function StakeTime(s: State, account: Account): (r: int)
    ensures account in s.stakingTimestamps ==> r == s.stakingTimestamps[account]
    ensures account !in s.stakingTimestamps ==> r == 0
    ensures Invariant(s) ==> s.blockHeight - r >= 0
  {
    Get(s.stakingTimestamps, account)
  }

  /**
   * What every reachable state satisfies: the supply is within the cap and
   * equals all liquid plus all staked tokens, no balance, stake or allowance
   * is negative, the block height is not negative, and no stake is dated
   * after the current block.
   */
  ghost predicate Invariant(s: State)
  {
    && 0 <= s.totalSupply <= MaxSupply
    && 0 <= s.blockHeight
    && s.totalSupply == Sum(s.balances) + Sum(s.stakedBalances)
    && NonNegative(s.balances)
    && NonNegative(s.stakedBalances)
    && NonNegative(s.allowances)
    && (forall a :: a in s.stakingTimestamps ==> s.stakingTimestamps[a] <= s.blockHeight)
  }

  function SetPaused(s: State, caller: Account, pause: bool): (r: Step)
    ensures r.outcome.Ok? <==> IsAdmin(s, caller)
    ensures r.outcome.Err? ==> r.outcome.code == ErrUnauthorized && r.state == s
    ensures r.outcome.Ok? ==> r.outcome.value == pause && r.state.paused == pause
    ensures r.state.(paused := s.paused) == s
  {
    if !IsAdmin(s, caller) then Step(Err(ErrUnauthorized), s)
    else Step(Ok(pause), s.(paused := pause))
  }

  /** Issues new tokens; only the admin may, and the pause flag does not apply. */
  function Mint(s: State, caller: Account, recipient: Account, amount: int): (r: Step)
    ensures r.outcome == Err(ErrUnauthorized) <==> !IsAdmin(s, caller)
    ensures r.outcome == Err(ErrInvalidAmount) <==> IsAdmin(s, caller) && amount <= 0
    ensures r.outcome == Err(ErrSupplyCapExceeded) <==>
              IsAdmin(s, caller) && amount > 0 && s.totalSupply + amount > MaxSupply
    ensures r.outcome == Ok(true) <==>
              IsAdmin(s, caller) && amount > 0 && s.totalSupply + amount <= MaxSupply
    ensures r.outcome.Err? ==> r.state == s
    ensures r.outcome.Ok? ==>
              && r.state.totalSupply == s.totalSupply + amount
              && (forall a :: GetBalance(r.state, a) ==
                    GetBalance(s, a) + (if a == recipient then amount else 0))
              && r.state.(balances := s.balances, totalSupply := s.totalSupply) == s
  {
    if !IsAdmin(s, caller) then Step(Err(ErrUnauthorized), s)
    else if amount <= 0 then Step(Err(ErrInvalidAmount), s)
    else if s.totalSupply + amount > MaxSupply then Step(Err(ErrSupplyCapExceeded), s)
    else
      var balances := s.balances[recipient := Get(s.balances, recipient) + amount];
      Step(Ok(true), s.(balances := balances, totalSupply := s.totalSupply + amount))
  }

  /** Destroys tokens from the caller's liquid balance. */
  function Burn(s: State, caller: Account, amount: int): (r: Step)
    ensures r.outcome == Err(ErrContractPaused) <==> s.paused
    ensures r.outcome == Err(ErrInvalidAmount) <==> !s.paused && amount <= 0
    ensures r.outcome == Err(ErrInsufficientBalance) <==>
              !s.paused && amount > 0 && GetBalance(s, caller) < amount
    ensures r.outcome == Ok(true) <==> !s.paused && 0 < amount <= GetBalance(s, caller)
    ensures r.outcome.Err? ==> r.state == s
    ensures r.outcome.Ok? ==>
              && r.state.totalSupply == s.totalSupply - amount
              && (forall a :: GetBalance(r.state, a) ==
                    GetBalance(s, a) - (if a == caller then amount else 0))
              && r.state.(balances := s.balances, totalSupply := s.totalSupply) == s
  {
    if s.paused then Step(Err(ErrContractPaused), s)
    else if amount <= 0 then Step(Err(ErrInvalidAmount), s)
    else
      var bal := Get(s.balances, caller);
      if bal < amount then Step(Err(ErrInsufficientBalance), s)
      else Step(Ok(true), s.(balances := s.balances[caller := bal - amount],
                             totalSupply := s.totalSupply - amount))
  }

  /**
   * Moves tokens from the caller to the recipient. The credit re-reads the
   * recipient's entry after the debit, so a self-transfer changes nothing.
   */
  function Transfer(s: State, caller: Account, recipient: Account, amount: int): (r: Step)
    ensures r.outcome == Err(ErrContractPaused) <==> s.paused
    ensures r.outcome == Err(ErrInvalidAmount) <==> !s.paused && amount <= 0
    ensures r.outcome == Err(ErrInsufficientBalance) <==>
              !s.paused && amount > 0 && GetBalance(s, caller) < amount
    ensures r.outcome == Ok(true) <==> !s.paused && 0 < amount <= GetBalance(s, caller)
    ensures r.outcome.Err? ==> r.state == s
    ensures r.outcome.Ok? ==>
              && (forall a :: GetBalance(r.state, a) ==
                    GetBalance(s, a) - (if a == caller then amount else 0)
                                     + (if a == recipient then amount else 0))
              && r.state.(balances := s.balances) == s
  {
    if s.paused then Step(Err(ErrContractPaused), s)
    else if amount <= 0 then Step(Err(ErrInvalidAmount), s)
    else
      var bal := Get(s.balances, caller);
      if bal < amount then Step(Err(ErrInsufficientBalance), s)
      else
        var debited := s.balances[caller := bal - amount];
        var credited := debited[recipient := Get(debited, recipient) + amount];
        Step(Ok(true), s.(balances := credited))
  }

  /** Sets (never adds to) the spender's allowance over the caller's tokens. */
  function Approve(s: State, caller: Account, spender: Account, amount: int): (r: Step)
    ensures r.outcome == Err(ErrContractPaused) <==> s.paused
    ensures r.outcome == Err(ErrInvalidAmount) <==> !s.paused && amount <= 0
    ensures r.outcome == Ok(true) <==> !s.paused && amount > 0
    ensures r.outcome.Err? ==> r.state == s
    ensures r.outcome.Ok? ==>
              && (forall o, sp :: GetAllowance(r.state, o, sp) ==
                    if o == caller && sp == spender then amount else GetAllowance(s, o, sp))
              && r.state.(allowances := s.allowances) == s
  {
    if s.paused then Step(Err(ErrContractPaused), s)
    else if amount <= 0 then Step(Err(ErrInvalidAmount), s)
    else Step(Ok(true), s.(allowances := s.allowances[AllowanceKey(caller, spender) := amount]))
  }

  /**
   * Delegated transfer exactly as the ledger is written: there is no amount
   * guard, so a negative amount passes both sufficiency checks.
   */
  function TransferFromAsWritten(s: State, caller: Account, owner: Account,
                                 recipient: Account, amount: int): (r: Step)
    ensures r.outcome == Err(ErrContractPaused) <==> s.paused
    ensures r.outcome == Err(ErrAllowanceExceeded) <==>
              !s.paused && GetAllowance(s, owner, caller) < amount
    ensures r.outcome == Err(ErrInsufficientBalance) <==>
              !s.paused && amount <= GetAllowance(s, owner, caller) && GetBalance(s, owner) < amount
    ensures r.outcome == Ok(true) <==>
              !s.paused && amount <= GetAllowance(s, owner, caller) && amount <= GetBalance(s, owner)
    ensures r.outcome.Err? ==> r.state == s
    ensures r.outcome.Ok? ==>
              && (forall a :: GetBalance(r.state, a) ==
                    GetBalance(s, a) - (if a == owner then amount else 0)
                                     + (if a == recipient then amount else 0))
              && (forall o, sp :: GetAllowance(r.state, o, sp) ==
                    GetAllowance(s, o, sp) - (if o == owner && sp == caller then amount else 0))
              && r.state.(balances := s.balances, allowances := s.allowances) == s
  {
    if s.paused then Step(Err(ErrContractPaused), s)
    else
      var key := AllowanceKey(owner, caller);
      var allowance := Get(s.allowances, key);
      if allowance < amount then Step(Err(ErrAllowanceExceeded), s)
      else
        var ownerBal := Get(s.balances, owner);
        if ownerBal < amount then Step(Err(ErrInsufficientBalance), s)
        else
          var debited := s.balances[owner := ownerBal - amount];
          var credited := debited[recipient := Get(debited, recipient) + amount];
          Step(Ok(true), s.(balances := credited,
                            allowances := s.allowances[key := allowance - amount]))
  }

  /**
   * Delegated transfer with negative amounts refused (code 106). A zero
   * amount still passes every check and changes nothing, as written.
   */
  function TransferFrom(s: State, caller: Account, owner: Account,
                        recipient: Account, amount: int): (r: Step)
    ensures r.outcome == Err(ErrContractPaused) <==> s.paused
    ensures r.outcome == Err(ErrInvalidAmount) <==> !s.paused && amount < 0
    ensures r.outcome == Err(ErrAllowanceExceeded) <==>
              !s.paused && amount >= 0 && GetAllowance(s, owner, caller) < amount
    ensures r.outcome == Err(ErrInsufficientBalance) <==>
              !s.paused && 0 <= amount <= GetAllowance(s, owner, caller) && GetBalance(s, owner) < amount
    ensures r.outcome == Ok(true) <==>
              !s.paused && 0 <= amount <= GetAllowance(s, owner, caller) && amount <= GetBalance(s, owner)
    ensures r.outcome.Err? ==> r.state == s
    ensures r.outcome.Ok? ==>
              && 0 <= amount <= GetAllowance(s, owner, caller)
              && (forall a :: GetBalance(r.state, a) ==
                    GetBalance(s, a) - (if a == owner then amount else 0)
                                     + (if a == recipient then amount else 0))
              && (forall o, sp :: GetAllowance(r.state, o, sp) ==
                    GetAllowance(s, o, sp) - (if o == owner && sp == caller then amount else 0))
              && r.state.(balances := s.balances, allowances := s.allowances) == s
  {
    if s.paused then Step(Err(ErrContractPaused), s)
    else if amount < 0 then Step(Err(ErrInvalidAmount), s)
    else TransferFromAsWritten(s, caller, owner, recipient, amount)
  }

  /**
   * Moves liquid tokens into the caller's stake and dates the whole stake
   * at the current block, restarting the lock for all of it.
   */
  function Stake(s: State, caller: Account, amount: int): (r: Step)
    ensures r.outcome == Err(ErrContractPaused) <==> s.paused
    ensures r.outcome == Err(ErrInvalidAmount) <==> !s.paused && amount <= 0
    ensures r.outcome == Err(ErrInsufficientBalance) <==>
              !s.paused && amount > 0 && GetBalance(s, caller) < amount
    ensures r.outcome == Ok(true) <==> !s.paused && 0 < amount <= GetBalance(s, caller)
    ensures r.outcome.Err? ==> r.state == s
    ensures r.outcome.Ok? ==>
              && (forall a :: GetBalance(r.state, a) ==
                    GetBalance(s, a) - (if a == caller then amount else 0))
              && (forall a :: GetStakedBalance(r.state, a) ==
                    GetStakedBalance(s, a) + (if a == caller then amount else 0))
              && r.state.stakingTimestamps == s.stakingTimestamps[caller := s.blockHeight]
              && r.state.(balances := s.balances, stakedBalances := s.stakedBalances,
                          stakingTimestamps := s.stakingTimestamps) == s
  {
    if s.paused then Step(Err(ErrContractPaused), s)
    else if amount <= 0 then Step(Err(ErrInvalidAmount), s)
    else
      var bal := Get(s.balances, caller);
      if bal < amount then Step(Err(ErrInsufficientBalance), s)
      else
        var staked := s.stakedBalances[caller := Get(s.stakedBalances, caller) + amount];
        Step(Ok(true), s.(balances := s.balances[caller := bal - amount],
                          stakedBalances := staked,
                          stakingTimestamps := s.stakingTimestamps[caller := s.blockHeight]))
  }

  /**
   * Moves staked tokens back to the liquid balance once `LockPeriod` blocks
   * have passed since the last stake; the stake's date is left alone.
   */
  function Unstake(s: State, caller: Account, amount: int): (r: Step)
    ensures r.outcome == Err(ErrContractPaused) <==> s.paused
    ensures r.outcome == Err(ErrInvalidAmount) <==> !s.paused && amount <= 0
    ensures r.outcome == Err(ErrInsufficientStake) <==>
              !s.paused && amount > 0 && GetStakedBalance(s, caller) < amount
    ensures r.outcome == Err(ErrStakeLocked) <==>
              !s.paused && 0 < amount <= GetStakedBalance(s, caller)
              && s.blockHeight - StakeTime(s, caller) < LockPeriod
    ensures r.outcome == Ok(true) <==>
              !s.paused && 0 < amount <= GetStakedBalance(s, caller)
              && s.blockHeight - StakeTime(s, caller) >= LockPeriod
    ensures r.outcome.Err? ==> r.state == s
    ensures r.outcome.Ok? ==>
              && (forall a :: GetBalance(r.state, a) ==
                    GetBalance(s, a) + (if a == caller then amount else 0))
              && (forall a :: GetStakedBalance(r.state, a) ==
                    GetStakedBalance(s, a) - (if a == caller then amount else 0))
              && r.state.(balances := s.balances, stakedBalances := s.stakedBalances) == s
  {
    if s.paused then Step(Err(ErrContractPaused), s)
    else if amount <= 0 then Step(Err(ErrInvalidAmount), s)
    else
      var stakeBal := Get(s.stakedBalances, caller);
      if stakeBal < amount then Step(Err(ErrInsufficientStake), s)
      else
        var stakeTime := Get(s.stakingTimestamps, caller);
        if s.blockHeight - stakeTime < LockPeriod then Step(Err(ErrStakeLocked), s)
        else
          var staked := s.stakedBalances[caller := stakeBal - amount];
          Step(Ok(true), s.(stakedBalances := staked,
                            balances := s.balances[caller := Get(s.balances, caller) + amount]))
  }

  /** The environment moves the chain forward; the ledger never does. */
  function AdvanceBlocks(s: State, blocks: nat): (t: State)
    ensures t.blockHeight == s.blockHeight + blocks
    ensures t.(blockHeight := s.blockHeight) == s
  {
    s.(blockHeight := s.blockHeight + blocks)
  }
}
