# IndieStream creator token: a verified model of the ledger

IndieStream's creator token is a fungible token with a supply cap and
time-locked staking. All of its logic lives in one object, `mockContract`, in
`tests/creator-token.test.ts`, a mock that the test suite drives directly. It
holds:

- an admin account and a pause flag;
- a total supply, capped at `MAX_SUPPLY` = 100 000 000 000 000;
- liquid balances, staked balances and staking timestamps, each keyed by account;
- allowances, keyed by the pair (owner, spender);
- a block height that the environment advances.

Each mutating operation runs a fixed sequence of guards. Each guard returns a
numeric error code (100–109). The state is touched only after all guards pass.

The project has five files:

- `int_maps.dfy` (module `IntMaps`): maps to integers read as "absent means
  zero" (the source's `?? 0n`), and their sums. The sum lemmas leave the order
  of summation open.
- `token_spec.dfy` (module `TokenSpec`): the ledger as a pure state machine.
  Each operation is a function from a `State` and its arguments to a `Step`,
  which holds the outcome (`Ok(bool)` or `Err(code)`) and the new state. Each
  function's postconditions state four things:
  - which error code wins when several guards fail;
  - that a failure changes nothing;
  - the exact effect of a success as seen through the getters;
  - that every other field stays as it was.
- `token_properties.dfy` (module `TokenProperties`): properties that span
  operations or runs:
  - the pause and admin gates, atomic failure, and the defined error codes;
  - the invariant (supply within the cap and equal to all liquid plus staked
    tokens, nothing negative), kept by every call of the model's operation set
    and so true in every state that set reaches. That set (`TokenProperties.Apply`)
    uses the corrected delegated transfer; the one as written breaks the
    invariant (see Findings);
  - the staking-lock rules;
  - the delegated-transfer defect described under Findings.
- `creator_token.dfy` (module `CreatorToken`): class `Ledger`, the shared
  object itself. Its fields are the source's, except `MAX_SUPPLY`, which is the
  module constant `TokenSpec.MaxSupply` rather than a field. Its methods check
  their guards and then update the fields in place. Each method is proved to
  return exactly the outcome, and leave exactly the fields (`Snapshot()`), that
  the matching `TokenSpec` function computes from the fields before the call;
  so every operation is written twice, once as a function and once as a
  method, and the two are proved equal. Each method also keeps `Valid()`, the
  invariant.
- `scenarios.dfy` (module `CreatorTokenScenarios`): the source's thirteen test
  cases, each run on a fresh `Ledger` with the observed values proved.

Accounts are strings. Amounts, balances, the supply and block heights are
unbounded integers, like the source's `bigint`. The caller's identity is a
plain argument. The block height is a field that only the environment step
(`AdvanceBlockHeight`) moves forward.

## Model

| member | source | states |
|---|---|---|
| TokenSpec.Init | tests/creator-token.test.ts:52-61 | a fresh ledger has the given admin, is unpaused, has zero supply and block height 100, every getter and every stake time reads 0, and the invariant holds |
| IntMaps.Get | tests/creator-token.test.ts:77 | the `?? 0n` lookup: the stored value when the key is present, 0 when it is absent, and never negative in a map of non-negative values |
| TokenProperties.RunKeepsAdmin | tests/creator-token.test.ts:52-65 | the admin is set when the ledger is created: no call of any operation and no block advance changes it |
| TokenProperties.OnlyInitialAdminIsAdmin | tests/creator-token.test.ts:63-65 | in every state reachable from a fresh ledger, the admin check passes exactly for the account the ledger was created with |
| TokenSpec.GetBalance | tests/creator-token.test.ts:152-154 | the stored liquid balance, 0 for an unset account, never negative when the invariant holds |
| TokenSpec.GetStakedBalance | tests/creator-token.test.ts:156-158 | the stored staked balance, 0 for an unset account, never negative when the invariant holds |
| TokenSpec.GetAllowance | tests/creator-token.test.ts:160-162 | the allowance stored under the pair (owner, spender), 0 when unset, never negative when the invariant holds |
| TokenSpec.StakeTime | tests/creator-token.test.ts:145 | the account's stake timestamp, 0 when it never staked; when the invariant holds it is not after the current block, so the elapsed count the lock tests is never negative |
| TokenSpec.SetPaused | tests/creator-token.test.ts:67-71 | succeeds iff the caller is the admin, then returns and stores the requested flag; otherwise 100 and no change; nothing but the flag ever changes |
| TokenSpec.Mint | tests/creator-token.test.ts:73-80 | 100 iff the caller is not the admin (whatever the amount), then 106 iff amount <= 0, then 103 iff the cap would be passed, the pause flag playing no part; failure changes nothing; success adds exactly amount to the recipient's balance and to the supply and changes nothing else |
| TokenSpec.Burn | tests/creator-token.test.ts:82-90 | 104 iff paused, then 106 iff amount <= 0, then 101 iff the balance is short; failure changes nothing; success lowers the caller's balance and the supply by exactly amount and changes nothing else |
| TokenSpec.Transfer | tests/creator-token.test.ts:92-100 | 104, then 106, then 101, in that order; failure changes nothing; success changes every balance by minus amount for the caller plus amount for the recipient (so zero net for a self-transfer) and touches nothing else, the supply included |
| TokenSpec.Approve | tests/creator-token.test.ts:102-107 | 104, then 106, with no balance check; success makes the (caller, spender) allowance exactly amount (overwriting it) and leaves every other allowance and all other state unchanged |
| TokenSpec.TransferFromAsWritten | tests/creator-token.test.ts:109-124 | the delegated transfer as written: 104, then 107 iff the allowance is below amount, then 101 iff the owner's balance is; success debits the owner, credits the recipient, sets the (owner, caller) allowance to exactly allowance - amount, and leaves every other allowance and all other state unchanged |
| TokenSpec.TransferFrom | tests/creator-token.test.ts:109-124 | as above, but a negative amount gives 106 after the pause check; success also implies 0 <= amount <= allowance, and every other allowance is unchanged |
| TokenSpec.Stake | tests/creator-token.test.ts:126-138 | 104, then 106, then 101; success moves exactly amount from the caller's liquid balance to its stake, overwrites the caller's timestamp with the current block height, and changes nothing else |
| TokenSpec.Unstake | tests/creator-token.test.ts:140-150 | 104, then 106, then 102 iff the stake is short, then 109 iff fewer than 10 blocks have passed since the stake's timestamp; success moves exactly amount back to the liquid balance and changes nothing else, the timestamp included |
| TokenSpec.AdvanceBlocks | tests/creator-token.test.ts:361 | the environment raises the block height by a non-negative count and changes nothing else |
| TokenProperties.FailureIsAtomic | tests/creator-token.test.ts:67-150 | any call that returns an error leaves the whole state unchanged |
| TokenProperties.ErrorCodesAreDefined | tests/creator-token.test.ts:67-150 | every error is one of 100, 101, 102, 103, 104, 106, 107, 109 |
| TokenProperties.AdminGate | tests/creator-token.test.ts:63-80 | setPaused and mint succeed only for the admin; any other caller gets 100 and no change |
| TokenProperties.PausedGate | tests/creator-token.test.ts:83-141 | while paused, burn, transfer, approve, transferFrom, stake and unstake all return 104 whatever their arguments, and change nothing |
| TokenProperties.MintIgnoresPause | tests/creator-token.test.ts:73-80 | the outcome of mint is the same whether or not the ledger is paused |
| TokenProperties.MintPreservesInvariant | tests/creator-token.test.ts:73-80 | mint keeps the supply within the cap and equal to the sum of liquid plus staked balances |
| TokenProperties.BurnPreservesInvariant | tests/creator-token.test.ts:82-90 | burn keeps the invariant: the supply falls exactly as the balances' sum does and stays non-negative |
| TokenProperties.TransferPreservesInvariant | tests/creator-token.test.ts:92-100 | transfer keeps the sum of balances, and with it the invariant |
| TokenProperties.TransferFromPreservesInvariant | tests/creator-token.test.ts:109-124 | the corrected delegated transfer keeps the invariant, allowances staying non-negative |
| TokenProperties.StakePreservesInvariant | tests/creator-token.test.ts:126-138 | stake keeps liquid plus staked equal to the supply, and no timestamp lies after the current block |
| TokenProperties.UnstakePreservesInvariant | tests/creator-token.test.ts:140-150 | unstake keeps liquid plus staked equal to the supply |
| TokenProperties.ApplyPreservesInvariant | tests/creator-token.test.ts:67-150 | every call of every operation keeps the invariant, the delegated transfer being the corrected one |
| TokenProperties.RunPreservesInvariant | tests/creator-token.test.ts:67-150 | any sequence of calls (delegated transfer corrected) and block advances keeps the invariant |
| TokenProperties.ReachableStatesConserveSupply | tests/creator-token.test.ts:52-163 | in every state reachable from a fresh ledger by the model's operations (delegated transfer corrected): 0 <= totalSupply <= MAX_SUPPLY, totalSupply equals the sum of all balances plus all staked balances, and no balance or stake is negative |
| TokenProperties.SelfTransferChangesNothing | tests/creator-token.test.ts:97-98 | a transfer to oneself leaves the entire state unchanged, because the credit re-reads the debited entry |
| TokenProperties.TransferFromRespectsAllowance | tests/creator-token.test.ts:115-123 | a successful delegated transfer moves no more than the allowance, which then drops by exactly amount and stays non-negative, as do the owner's and recipient's balances |
| TokenProperties.ReachableGettersNonNegative | tests/creator-token.test.ts:152-162 | in every state reachable from a fresh ledger, no balance, stake or allowance reads negative and no stake is dated after the current block |
| TokenProperties.StakeLocksForLockPeriod | tests/creator-token.test.ts:131-146 | after a stake, an unstake `blocks` blocks later fails with 109 iff blocks < 10 and succeeds otherwise, so exactly 10 blocks suffice |
| TokenProperties.RestakeRestartsLock | tests/creator-token.test.ts:136 | staking more re-dates the whole position: tokens that could be unstaked before the new stake are locked (109) right after it |
| TokenProperties.PartialUnstakeKeepsUnlock | tests/creator-token.test.ts:140-150 | a partial unstake keeps the timestamp, so a second unstake of the rest succeeds with no new wait |
| TokenProperties.NegativeTransferFromAsWritten | tests/creator-token.test.ts:115-123 | as written, on a fresh ledger a spender with no allowance can call transferFrom with amount -5; it succeeds, leaves the recipient at -5 and the owner at 5, raises the allowance to 5, and breaks the invariant |
| TokenProperties.TransferFromAgreesOnNonNegativeAmounts | tests/creator-token.test.ts:109-124 | the corrected delegated transfer differs from the one as written only on negative amounts |
| TokenProperties.TransferFromAsWrittenConservesSum | tests/creator-token.test.ts:115-123 | as written, for every amount, the delegated transfer keeps the sum of liquid balances, the supply and the stakes unchanged |
| TokenProperties.NegativeTransferFromThenBurn | tests/creator-token.test.ts:115-123 | after the -5 delegated transfer, the owner's burn of 5 (which passes every guard of burn at :82-90) succeeds and leaves the total supply at -5 |
| CreatorToken.Ledger.constructor | tests/creator-token.test.ts:52-61 | a new ledger holds the initial state and satisfies the invariant |
| CreatorToken.Ledger.IsAdmin | tests/creator-token.test.ts:63-65 | true exactly for the admin account |
| CreatorToken.Ledger.GetBalance | tests/creator-token.test.ts:152-154 | the stored liquid balance, 0 when unset, never negative in a valid ledger |
| CreatorToken.Ledger.GetStakedBalance | tests/creator-token.test.ts:156-158 | the stored staked balance, 0 when unset, never negative in a valid ledger |
| CreatorToken.Ledger.GetAllowance | tests/creator-token.test.ts:160-162 | the allowance stored for (owner, spender), 0 when unset, never negative in a valid ledger |
| CreatorToken.Ledger.SetPaused | tests/creator-token.test.ts:67-71 | outcome and new fields are those of TokenSpec.SetPaused on the old fields; the invariant is kept |
| CreatorToken.Ledger.Mint | tests/creator-token.test.ts:73-80 | outcome and new fields are those of TokenSpec.Mint on the old fields; the invariant is kept |
| CreatorToken.Ledger.Burn | tests/creator-token.test.ts:82-90 | outcome and new fields are those of TokenSpec.Burn on the old fields; the invariant is kept |
| CreatorToken.Ledger.Transfer | tests/creator-token.test.ts:92-100 | outcome and new fields are those of TokenSpec.Transfer on the old fields; the invariant is kept |
| CreatorToken.Ledger.Approve | tests/creator-token.test.ts:102-107 | outcome and new fields are those of TokenSpec.Approve on the old fields; the invariant is kept |
| CreatorToken.Ledger.TransferFrom | tests/creator-token.test.ts:109-124 | outcome and new fields are those of the corrected TokenSpec.TransferFrom on the old fields; the invariant is kept |
| CreatorToken.Ledger.Stake | tests/creator-token.test.ts:126-138 | outcome and new fields are those of TokenSpec.Stake on the old fields; the invariant is kept |
| CreatorToken.Ledger.Unstake | tests/creator-token.test.ts:140-150 | outcome and new fields are those of TokenSpec.Unstake on the old fields; the invariant is kept |
| CreatorToken.Ledger.AdvanceBlockHeight | tests/creator-token.test.ts:361 | the block height rises by the given count and nothing else changes; the invariant is kept |
| CreatorTokenScenarios.AdminMints | tests/creator-token.test.ts:177-188 | the admin mints 1000: success, balance 1000, supply 1000 |
| CreatorTokenScenarios.NonAdminCannotMint | tests/creator-token.test.ts:190-197 | a non-admin mint returns 100 |
| CreatorTokenScenarios.MintOverCapFails | tests/creator-token.test.ts:199-206 | minting 2 * 10^14 returns 103 |
| CreatorTokenScenarios.BurnLowersBalanceAndSupply | tests/creator-token.test.ts:208-223 | mint 500, burn 200: success, balance 300, supply 300 |
| CreatorTokenScenarios.BurnOverBalanceFails | tests/creator-token.test.ts:225-236 | mint 500, burn 600: 101 |
| CreatorTokenScenarios.TransferMovesTokens | tests/creator-token.test.ts:238-256 | mint 500, transfer 200 to another account: success, balances 300 and 200 |
| CreatorTokenScenarios.PausedTransferFails | tests/creator-token.test.ts:258-266 | after the admin pauses, a transfer returns 104 |
| CreatorTokenScenarios.ApproveSetsAllowance | tests/creator-token.test.ts:268-281 | approve 300: success, allowance 300 |
| CreatorTokenScenarios.TransferFromSpendsAllowance | tests/creator-token.test.ts:283-313 | mint 500, approve 200, delegated transfer of 100: success, owner 400, recipient 100, allowance 100 |
| CreatorTokenScenarios.TransferFromOverAllowanceFails | tests/creator-token.test.ts:315-333 | approve 100, delegated transfer of 200: 107 |
| CreatorTokenScenarios.StakeMovesToStake | tests/creator-token.test.ts:335-352 | mint 500, stake 200: success, balance 300, staked 200 |
| CreatorTokenScenarios.UnstakeAfterLock | tests/creator-token.test.ts:354-373 | stake 200, advance 10 blocks, unstake 100: success, staked 100, balance 400 |
| CreatorTokenScenarios.UnstakeDuringLockFails | tests/creator-token.test.ts:375-387 | stake 200, unstake 100 in the same block: 109 |

## Left out

- CreatorToken.Ledger.TransferFrom: this method refuses negative amounts with code 106, which the source does not do. The source's own behaviour is modelled by `TokenSpec.TransferFromAsWritten`; see Findings.
- TokenProperties.Apply: its operation set uses the corrected `TokenSpec.TransferFrom`, so `ApplyPreservesInvariant`, `RunPreservesInvariant` and `ReachableStatesConserveSupply` hold for the ledger with that correction. With the delegated transfer as written, one call from a fresh ledger breaks the invariant (`NegativeTransferFromAsWritten`).
- CreatorToken.Ledger methods: each one promises `old(Valid()) ==> Valid()` rather than assuming `Valid()`. The source's fields are public, so code outside the ledger can break the invariant by writing them directly.
- The allowance key: the source builds it as the string `${owner}_${spender}`. The model uses the pair (owner, spender) instead, so it does not reproduce collisions between account names that contain `_`.
- The block clock: the source's tests advance `blockHeight` by writing the field. `AdvanceBlockHeight` stands in for that write and only moves forward (a `nat` step). A test that set the height backwards is not modelled.
- The test harness (`describe`, `it`, `expect`, `beforeEach`) and the concrete `ST…` address literals. The admin and the other accounts are parameters of the scenarios. The reset in `beforeEach` becomes a fresh `Ledger`.
- Authentication and persistence are not part of this model. The caller is a plain argument.

## Findings

| source | as written | input that shows it | evidently intended | confidence | as-written member | corrected member |
|---|---|---|---|---|---|---|
| tests/creator-token.test.ts:115-123 | `transferFrom` has no amount guard, so a negative amount passes both `allowance < amount` and `ownerBal < amount` | fresh ledger; a spender with no allowance calls transferFrom(owner, recipient, -5), owner different from recipient: the call succeeds, the recipient's balance becomes -5, the owner's 5, and the allowance 5. The sum of balances and the supply are still equal (that part of the invariant holds for every amount); what breaks is non-negativity. The owner can then burn 5, which succeeds and leaves the total supply at -5, below the lower bound of zero (`TransferFromAsWrittenConservesSum`, `NegativeTransferFromThenBurn`) | every other operation that takes an amount refuses out-of-range amounts with 106 (the `amount <= 0n` guards at :75, :84, :94, :104, :128 and :142), and the balances are meant never to go negative: refuse a negative amount with 106 and keep zero as a successful no-op | not executed; high | TokenProperties.NegativeTransferFromAsWritten | TokenProperties.TransferFromPreservesInvariant |
