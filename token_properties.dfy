/**
 * Properties of the ledger that relate several operations or hold across
 * whole runs: the conservation and cap invariant, the pause and admin gates,
 * atomic failure, the staking lock, and the defect in delegated transfer.
 */
module TokenProperties {
  import opened IntMaps
  import opened TokenSpec

  /** One call into the ledger. */
  datatype Op =
    | SetPausedOp(caller: Account, pause: bool)
    | MintOp(caller: Account, recipient: Account, amount: int)
    | BurnOp(caller: Account, amount: int)
    | TransferOp(caller: Account, recipient: Account, amount: int)
    | ApproveOp(caller: Account, spender: Account, amount: int)
    | TransferFromOp(caller: Account, owner: Account, recipient: Account, amount: int)
    | StakeOp(caller: Account, amount: int)
    | UnstakeOp(caller: Account, amount: int)

  function Apply(s: State, op: Op): Step
  {
    match op
    case SetPausedOp(caller, pause) => SetPaused(s, caller, pause)
    case MintOp(caller, recipient, amount) => Mint(s, caller, recipient, amount)
    case BurnOp(caller, amount) => Burn(s, caller, amount)
    case TransferOp(caller, recipient, amount) => Transfer(s, caller, recipient, amount)
    case ApproveOp(caller, spender, amount) => Approve(s, caller, spender, amount)
    case TransferFromOp(caller, owner, recipient, amount) =>
      TransferFrom(s, caller, owner, recipient, amount)
    case StakeOp(caller, amount) => Stake(s, caller, amount)
    case UnstakeOp(caller, amount) => Unstake(s, caller, amount)
  }

  /** What happens between two states: a call, or the chain advancing. */
  datatype Event = Call(op: Op) | Tick(blocks: nat)

  function Run(s: State, events: seq<Event>): State
    decreases |events|
  {
    if events == [] then s
    else
      var next := match events[0]
        case Call(op) => Apply(s, op).state
        case Tick(blocks) => AdvanceBlocks(s, blocks);
      Run(next, events[1..])
  }

  /** No call and no tick changes the admin: it is fixed when the ledger is created. */
  lemma {:induction false} RunKeepsAdmin(s: State, events: seq<Event>)
    ensures Run(s, events).admin == s.admin
    decreases |events|
  {
    if events != [] {
      match events[0]
      case Call(op) => RunKeepsAdmin(Apply(s, op).state, events[1..]);
      case Tick(blocks) => RunKeepsAdmin(AdvanceBlocks(s, blocks), events[1..]);
    }
  }

  /** In every state reachable from a fresh ledger, exactly its initial admin passes the admin check. */
  lemma OnlyInitialAdminIsAdmin(admin: Account, events: seq<Event>, caller: Account)
    ensures IsAdmin(Run(Init(admin), events), caller) <==> caller == admin
  {
    RunKeepsAdmin(Init(admin), events);
  }

  // ---------------------------------------------------------------------
  // Atomic failure, error codes, the admin and pause gates

  /** A call that fails leaves every part of the state as it was. */
  lemma FailureIsAtomic(s: State, op: Op)
    ensures Apply(s, op).outcome.Err? ==> Apply(s, op).state == s
  {
  }

  /** Every failure carries one of the eight codes the ledger defines. */
  lemma ErrorCodesAreDefined(s: State, op: Op)
    ensures Apply(s, op).outcome.Err? ==>
              Apply(s, op).outcome.code in {100, 101, 102, 103, 104, 106, 107, 109}
  {
  }

  /** Only the admin can pause, unpause or mint; anyone else gets 100. */
  lemma AdminGate(s: State, op: Op)
    requires op.SetPausedOp? || op.MintOp?
    ensures Apply(s, op).outcome.Ok? ==> IsAdmin(s, op.caller)
    ensures !IsAdmin(s, op.caller) ==> Apply(s, op) == Step(Err(ErrUnauthorized), s)
  {
  }

  /** While paused, every user operation fails with 104 before any other check. */
  lemma PausedGate(s: State, op: Op)
    requires s.paused && !op.SetPausedOp? && !op.MintOp?
    ensures Apply(s, op) == Step(Err(ErrContractPaused), s)
  {
  }

  /** Minting does not look at the pause flag. */
  lemma MintIgnoresPause(s: State, caller: Account, recipient: Account, amount: int, pause: bool)
    ensures Mint(s.(paused := pause), caller, recipient, amount).outcome
            == Mint(s, caller, recipient, amount).outcome
  {
  }

  // ---------------------------------------------------------------------
  // The invariant: cap, conservation, non-negativity

  lemma MintPreservesInvariant(s: State, caller: Account, recipient: Account, amount: int)
    requires Invariant(s)
    ensures Invariant(Mint(s, caller, recipient, amount).state)
  {
    var r := Mint(s, caller, recipient, amount);
    if r.outcome.Ok? {
      SumUpdate(s.balances, recipient, Get(s.balances, recipient) + amount);
    }
  }

  lemma BurnPreservesInvariant(s: State, caller: Account, amount: int)
    requires Invariant(s)
    ensures Invariant(Burn(s, caller, amount).state)
  {
    var r := Burn(s, caller, amount);
    if r.outcome.Ok? {
      SumUpdate(s.balances, caller, Get(s.balances, caller) - amount);
      SumNonNegative(r.state.balances);
      SumNonNegative(s.stakedBalances);
    }
  }

  lemma TransferPreservesInvariant(s: State, caller: Account, recipient: Account, amount: int)
    requires Invariant(s)
    ensures Invariant(Transfer(s, caller, recipient, amount).state)
  {
    var r := Transfer(s, caller, recipient, amount);
    if r.outcome.Ok? {
      var debited := s.balances[caller := Get(s.balances, caller) - amount];
      SumUpdate(s.balances, caller, Get(s.balances, caller) - amount);
      SumUpdate(debited, recipient, Get(debited, recipient) + amount);
    }
  }

  lemma TransferFromPreservesInvariant(s: State, caller: Account, owner: Account,
                                       recipient: Account, amount: int)
    requires Invariant(s)
    ensures Invariant(TransferFrom(s, caller, owner, recipient, amount).state)
  {
    var r := TransferFrom(s, caller, owner, recipient, amount);
    if r.outcome.Ok? {
      var debited := s.balances[owner := Get(s.balances, owner) - amount];
      SumUpdate(s.balances, owner, Get(s.balances, owner) - amount);
      SumUpdate(debited, recipient, Get(debited, recipient) + amount);
    }
  }

  lemma StakePreservesInvariant(s: State, caller: Account, amount: int)
    requires Invariant(s)
    ensures Invariant(Stake(s, caller, amount).state)
  {
    var r := Stake(s, caller, amount);
    if r.outcome.Ok? {
      SumUpdate(s.balances, caller, Get(s.balances, caller) - amount);
      SumUpdate(s.stakedBalances, caller, Get(s.stakedBalances, caller) + amount);
    }
  }

  lemma UnstakePreservesInvariant(s: State, caller: Account, amount: int)
    requires Invariant(s)
    ensures Invariant(Unstake(s, caller, amount).state)
  {
    var r := Unstake(s, caller, amount);
    if r.outcome.Ok? {
      SumUpdate(s.balances, caller, Get(s.balances, caller) + amount);
      SumUpdate(s.stakedBalances, caller, Get(s.stakedBalances, caller) - amount);
    }
  }

  /** Every call keeps the supply within the cap and equal to all tokens held. */
  lemma ApplyPreservesInvariant(s: State, op: Op)
    requires Invariant(s)
    ensures Invariant(Apply(s, op).state)
  {
    match op
    case SetPausedOp(caller, pause) =>
    case MintOp(caller, recipient, amount) => MintPreservesInvariant(s, caller, recipient, amount);
    case BurnOp(caller, amount) => BurnPreservesInvariant(s, caller, amount);
    case TransferOp(caller, recipient, amount) =>
      TransferPreservesInvariant(s, caller, recipient, amount);
    case ApproveOp(caller, spender, amount) =>
    case TransferFromOp(caller, owner, recipient, amount) =>
      TransferFromPreservesInvariant(s, caller, owner, recipient, amount);
    case StakeOp(caller, amount) => StakePreservesInvariant(s, caller, amount);
    case UnstakeOp(caller, amount) => UnstakePreservesInvariant(s, caller, amount);
  }

  lemma {:induction false} RunPreservesInvariant(s: State, events: seq<Event>)
    requires Invariant(s)
    ensures Invariant(Run(s, events))
    decreases |events|
  {
    if events != [] {
      match events[0]
      case Call(op) =>
        ApplyPreservesInvariant(s, op);
        RunPreservesInvariant(Apply(s, op).state, events[1..]);
      case Tick(blocks) =>
        RunPreservesInvariant(AdvanceBlocks(s, blocks), events[1..]);
    }
  }

  /**
   * In every state reachable from a fresh ledger, the supply never exceeds
   * the cap and equals the sum of all liquid and all staked balances.
   */
  lemma ReachableStatesConserveSupply(admin: Account, events: seq<Event>)
    ensures var s := Run(Init(admin), events);
            && 0 <= s.totalSupply <= MaxSupply
            && s.totalSupply == Sum(s.balances) + Sum(s.stakedBalances)
            && forall a :: GetBalance(s, a) >= 0 && GetStakedBalance(s, a) >= 0
  {
    RunPreservesInvariant(Init(admin), events);
  }

  // ---------------------------------------------------------------------
  // Transfers and the getters

  /** A self-transfer re-reads the debited entry, so the state is unchanged. */
  lemma SelfTransferChangesNothing(s: State, caller: Account, amount: int)
    ensures Transfer(s, caller, caller, amount).state == s
  {
    var r := Transfer(s, caller, caller, amount);
    if r.outcome.Ok? {
      assert r.state.balances == s.balances;
    }
  }

  /** Delegated transfer never spends more than the allowance, which drops by exactly the amount. */
  lemma TransferFromRespectsAllowance(s: State, caller: Account, owner: Account,
                                      recipient: Account, amount: int)
    requires Invariant(s)
    ensures var r := TransferFrom(s, caller, owner, recipient, amount);
            r.outcome.Ok? ==>
              && 0 <= amount <= GetAllowance(s, owner, caller)
              && 0 <= GetAllowance(r.state, owner, caller) == GetAllowance(s, owner, caller) - amount
              && GetBalance(r.state, owner) >= 0 && GetBalance(r.state, recipient) >= 0
  {
    TransferFromPreservesInvariant(s, caller, owner, recipient, amount);
  }

  /**
   * In every state reachable from a fresh ledger, no getter reads a negative
   * value and no stake is dated after the current block.
   */
  lemma ReachableGettersNonNegative(admin: Account, events: seq<Event>)
    ensures var s := Run(Init(admin), events);
            && (forall a :: GetBalance(s, a) >= 0 && GetStakedBalance(s, a) >= 0)
            && (forall o, sp :: GetAllowance(s, o, sp) >= 0)
            && (forall a :: StakeTime(s, a) <= s.blockHeight)
  {
    RunPreservesInvariant(Init(admin), events);
  }

  // ---------------------------------------------------------------------
  // The staking lock

  /**
   * Right after a stake the whole position is locked: an unstake that
   * follows `blocks` blocks later fails with 109 exactly when fewer than
   * `LockPeriod` blocks have passed.
   */
  lemma StakeLocksForLockPeriod(s: State, caller: Account, amount: int, unstakeAmount: int,
                                blocks: nat)
    requires Stake(s, caller, amount).outcome.Ok?
    requires 0 < unstakeAmount <= GetStakedBalance(Stake(s, caller, amount).state, caller)
    ensures var later := AdvanceBlocks(Stake(s, caller, amount).state, blocks);
            Unstake(later, caller, unstakeAmount).outcome
            == if blocks < LockPeriod then Err(ErrStakeLocked) else Ok(true)
  {
    var staked := Stake(s, caller, amount).state;
    assert StakeTime(staked, caller) == s.blockHeight;
  }

  /** Staking more restarts the lock even for tokens whose lock had run out. */
  lemma RestakeRestartsLock(s: State, caller: Account, amount: int, unstakeAmount: int)
    requires s.blockHeight - StakeTime(s, caller) >= LockPeriod
    requires Stake(s, caller, amount).outcome.Ok?
    requires 0 < unstakeAmount <= GetStakedBalance(s, caller)
    ensures Unstake(s, caller, unstakeAmount).outcome == Ok(true)
    ensures Unstake(Stake(s, caller, amount).state, caller, unstakeAmount).outcome
            == Err(ErrStakeLocked)
  {
    var staked := Stake(s, caller, amount).state;
    assert StakeTime(staked, caller) == s.blockHeight;
  }

  /** A partial unstake keeps the stake's date, so the rest can follow without waiting. */
  lemma PartialUnstakeKeepsUnlock(s: State, caller: Account, first: int, second: int)
    requires Unstake(s, caller, first).outcome.Ok?
    requires 0 < second <= GetStakedBalance(s, caller) - first
    ensures var after := Unstake(s, caller, first).state;
            && StakeTime(after, caller) == StakeTime(s, caller)
            && Unstake(after, caller, second).outcome == Ok(true)
  {
  }

  // ---------------------------------------------------------------------
  // The defect in delegated transfer as written

  /**
   * As written, a spender with no allowance at all can move a negative
   * amount: the recipient's balance goes below zero, the owner's rises and
   * the allowance grows, so the invariant no longer holds.
   */
  lemma NegativeTransferFromAsWritten(admin: Account, owner: Account, spender: Account,
                                      recipient: Account)
    requires owner != recipient
    ensures var s := Init(admin);
            var r := TransferFromAsWritten(s, spender, owner, recipient, -5);
            && Invariant(s)
            && r.outcome == Ok(true)
            && GetBalance(r.state, recipient) == -5
            && GetBalance(r.state, owner) == 5
            && GetAllowance(r.state, owner, spender) == 5
            && !Invariant(r.state)
  {
    var r := TransferFromAsWritten(Init(admin), spender, owner, recipient, -5);
    assert r.state.balances[recipient] == -5;
  }

  /** Refusing negative amounts is the only change: on every other input the two agree. */
  lemma TransferFromAgreesOnNonNegativeAmounts(s: State, caller: Account, owner: Account,
                                               recipient: Account, amount: int)
    requires amount >= 0 || s.paused
    ensures TransferFrom(s, caller, owner, recipient, amount)
            == TransferFromAsWritten(s, caller, owner, recipient, amount)
  {
  }

  /**
   * As written, delegated transfer still conserves the sum of liquid
   * balances and leaves the supply and the stakes alone, whatever the
   * amount: what a negative amount breaks is non-negativity, not the sum.
   */
  lemma TransferFromAsWrittenConservesSum(s: State, caller: Account, owner: Account,
                                          recipient: Account, amount: int)
    ensures var r := TransferFromAsWritten(s, caller, owner, recipient, amount);
            && Sum(r.state.balances) == Sum(s.balances)
            && r.state.totalSupply == s.totalSupply
            && r.state.stakedBalances == s.stakedBalances
  {
    var r := TransferFromAsWritten(s, caller, owner, recipient, amount);
    if r.outcome.Ok? {
      var debited := s.balances[owner := Get(s.balances, owner) - amount];
      SumUpdate(s.balances, owner, Get(s.balances, owner) - amount);
      SumUpdate(debited, recipient, Get(debited, recipient) + amount);
    }
  }

  /**
   * After the negative delegated transfer, the owner can burn the tokens it
   * was credited and drive the total supply below zero.
   */
  lemma NegativeTransferFromThenBurn(admin: Account, owner: Account, spender: Account,
                                     recipient: Account)
    requires owner != recipient
    ensures var after := TransferFromAsWritten(Init(admin), spender, owner, recipient, -5).state;
            var burnt := Burn(after, owner, 5);
            && burnt.outcome == Ok(true)
            && burnt.state.totalSupply == -5
  {
    NegativeTransferFromAsWritten(admin, owner, spender, recipient);
  }
}
