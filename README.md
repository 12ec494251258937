# loam-sdk core, modelled in Dafny

loam-sdk is a toolkit for writing Soroban smart contracts from composable
"subcontracts". This project models the parts of it that carry behaviour:

- the example contracts under `examples/soroban`: a constant-product liquidity pool, two fungible tokens, a timelock, a single-offer swap, a multisig account with spend limits, atomic swap and multi-swap, and the small counter, status, auth, allocation and cross-contract examples;
- the two test assets under `test/asset` and `test/asset-two`;
- the registry contract under `contracts/registry`, which publishes wasm hashes under versioned names;
- the event filter and the rebuild loop of `loam dev`;
- the storage code generator `from_item` of the subcontract macro crate (`crates/loam-sdk-macro/src/subcontract/storage.rs`);
- the npm launcher's choice of the release binary to download.

Each contract is a Dafny `class` whose fields are the contract's storage
items. An item that may be unset is an `Option`, and a storage map is a
`map`. Each contract method is a Dafny `method` that changes those fields.
A Soroban call that returns an error or traps leaves no trace, so every
method states its whole new state on success and states that nothing
changed on failure. Panics are modelled as the error `Panic` in
`soroban.dfy`:

- `unwrap` on a missing value;
- arithmetic overflow under overflow checks;
- division by zero;
- an explicit message.

Integers are unbounded. `u32` and `i128` bounds are checked where the
source checks them. Rust's `/` truncates toward zero, which `Soroban.Quot`
writes out.

Other token contracts are reached through `token::Client`. They are modelled
by one shared ledger, `Soroban.TokenLedger`, a map from (token, holder) to
balance, together with `Move`, `Credit` and `Debit`. The ledger is
deliberately permissive, like the pool's own view of a token: a transfer
always happens. Only the calling contract's own checks can refuse.

The pure parts are datatypes, functions and lemmas:

- the registry's version arithmetic;
- the storage macro;
- path handling;
- the platform tables.

Each module proves the properties its source promises: round trips,
invariants kept, error conditions in both directions, and the results the
repository's own tests expect (as scenario methods that build an object and
make the calls).

Foreign calls are parameters:

- `require_auth` always succeeds;
- `ed25519_verify` is a `verified` predicate;
- `upload_contract_wasm` is an `upload` function;
- the ledger timestamp and sequence are `now` and `ledger`;
- `os.type()`, `os.arch()`, `os.homedir()`, `path.join`, `to_upper_camel_case`, `std::fs::canonicalize` and the current directory are arguments.

## Model

| member | source | states |
|---|---|---|
| `Soroban.Quot` | examples/soroban/liquidity_pool/src/liquidity_pool.rs:126-127 | Rust's truncating `i128` division: the quotient's magnitude is `Abs(a) / Abs(b)`, it is positive only for operands of the same sign and negative only for operands of opposite signs, it agrees with floor division on non-negative operands, and `q*b <= a < q*b + b` there |
| `Soroban.QuotRemainder` | examples/soroban/liquidity_pool/src/liquidity_pool.rs:126-127 | the remainder `a - q*b` is smaller than the divisor in magnitude and is zero or has the dividend's sign, the defining rule of Rust's `/` |
| `Soroban.QuotBounds` | examples/soroban/liquidity_pool/src/liquidity_pool.rs:126-127 | for `a >= 0, b > 0` the quotient is non-negative and brackets `a` between `q*b` and `(q+1)*b` |
| `Soroban.AddI128` | examples/soroban/token/src/token.rs:66 | `checked_add` succeeds exactly when the sum fits in `i128`, and then yields the sum |
| `Soroban.SubI128` | examples/soroban/ft/src/ft.rs:151 | `checked_sub` succeeds exactly when the difference fits in `i128`, and then yields the difference |
| `Soroban.DivI128` | examples/soroban/liquidity_pool/src/liquidity_pool.rs:126-127 | checked `i128` division fails exactly for a zero divisor or a quotient outside `i128`, and otherwise yields the truncated quotient `Quot(a, b)` |
| `Soroban.MulI128` | examples/soroban/single_offer/src/single_offer.rs:113-116 | `checked_mul` succeeds exactly when the product fits in `i128`, and then yields the product |
| `Soroban.SatSubI128` | examples/soroban/token/src/token.rs:74 | `saturating_sub` is the exact difference when it fits, and is clamped to `i128::MIN` or `i128::MAX` otherwise; the result always fits |
| `Soroban.AddU32` | examples/soroban/cross_contract/contract_a/src/subcontract.rs:20 | `u32::checked_add` succeeds exactly when the sum fits in `u32`, and then yields the sum |
| `Soroban.Isqrt` | examples/soroban/liquidity_pool/src/liquidity_pool.rs:130 | the integer square root: `r*r <= n < (r+1)*(r+1)` |
| `Soroban.IsqrtOfSquare` | examples/soroban/liquidity_pool/src/liquidity_pool.rs:130 | the square root of `n*n` is `n`, so a first deposit of `x` and `x` mints `x` shares |
| `Soroban.Move` | examples/soroban/atomic_swap/src/subcontract.rs:73-81 | the net effect of a successful foreign `token::Client::transfer`, as called there and in liquidity_pool.rs:115-116, timelock.rs:82 and single_offer.rs:135-139: the sender is debited and the receiver credited by the amount, no other holding changes, and a transfer to oneself is taken to change nothing |
| `Soroban.Credit` | examples/soroban/token/src/token.rs:112-116 | minting raises one holding by the amount and leaves every other holding alone |
| `Soroban.Debit` | examples/soroban/token/src/token.rs:103-110 | burning lowers one holding by the amount and leaves every other holding alone |
| `Soroban.TokenLedger.constructor` | examples/soroban/token/src/token.rs:78-80 | a ledger starts with the given balances |
| `LiquidityPool.Div` | examples/soroban/liquidity_pool/src/liquidity_pool.rs:126-127 | `i128` division traps with division by zero on a zero divisor, traps with overflow exactly when the truncating quotient does not fit, and otherwise yields that quotient |
| `LiquidityPool.Mul` | examples/soroban/liquidity_pool/src/liquidity_pool.rs:126 | `i128` multiplication under overflow checks succeeds exactly when the product fits, and then yields it |
| `LiquidityPool.Sub` | examples/soroban/liquidity_pool/src/liquidity_pool.rs:133 | `i128` subtraction under overflow checks succeeds exactly when the difference fits |
| `LiquidityPool.Add` | examples/soroban/liquidity_pool/src/liquidity_pool.rs:176-190 | `i128` addition under overflow checks succeeds exactly when the sum fits |
| `LiquidityPool.DepositAmounts` | examples/soroban/liquidity_pool/src/liquidity_pool.rs:280-305 | an empty pool takes what is offered; a pool with B but no A divides by zero; otherwise one side is taken in full and the other never exceeds what was offered, with the B side checked against `min_b` and, on the A side, the offered amount checked against `min_a`; `MinimumNotSatisfied` and `InvalidAAmount` occur only with reserves present |
| `LiquidityPool.DepositOutcome` | examples/soroban/liquidity_pool/src/liquidity_pool.rs:280-305 | with both reserves positive and the products fitting `i128`: the deposit is priced on the B side exactly when `desired_a*reserve_b < (desired_b+1)*reserve_a`; it fails with `MinimumNotSatisfied` exactly when it is and `desired_a*reserve_b < min_b*reserve_a`, with `InvalidAAmount` exactly when it is not and `desired_a < min_a`, and succeeds otherwise; so the `amount_a > desired_a` test never fires |
| `LiquidityPool.NewTotalShares` | examples/soroban/liquidity_pool/src/liquidity_pool.rs:124-131 | with both reserves positive the new total is at most each side's pro-rata share count; otherwise it is the integer square root of the balance product, and where that product fits it is refused exactly when negative, with a negative-square-root trap |
| `LiquidityPool.NewTotalSharesOutcome` | examples/soroban/liquidity_pool/src/liquidity_pool.rs:124-131 | with both reserves positive and the products fitting `i128`, the new total is exactly the smaller of the two rounded-down pro-rata totals `balance*total_shares / reserve` |
| `LiquidityPool.SellAmount` | examples/soroban/liquidity_pool/src/liquidity_pool.rs:152-155 | when it succeeds, the sell amount is the least integer strictly above `reserve_sell*out*1000 / ((reserve_buy-out)*997)`, so the 0.3% fee is always covered; buying the entire reserve divides by zero |
| `LiquidityPool.SellAmountDefined` | examples/soroban/liquidity_pool/src/liquidity_pool.rs:152-155 | the sell amount is always defined when the pool holds more than `out` of the bought token and the numerator and denominator fit `i128` |
| `LiquidityPool.InvariantFactor` | examples/soroban/liquidity_pool/src/liquidity_pool.rs:176-190 | the fee-adjusted balance is `1000*reserve + 997*delta` when `delta = balance - reserve - out` is positive and `1000*(balance - out)` otherwise; it is always defined for non-negative inputs with `1000*(balance+reserve+out)` in range; it never exceeds `1000*(balance-out)` and is positive when the side keeps a positive balance |
| `LiquidityPool.SwapReserves` | examples/soroban/liquidity_pool/src/liquidity_pool.rs:186-221 | an accepted swap sets the reserves to the balances minus what is paid out, both positive, and its fee-adjusted product is at least the old product scaled by 10^6 |
| `LiquidityPool.SwapOutcome` | examples/soroban/liquidity_pool/src/liquidity_pool.rs:186-221 | where no step overflows, `InvariantViolation` occurs exactly when the fee-adjusted product is below the old one, `NewReservesMustBePositive` exactly when it is not but a new reserve is not positive, and otherwise the swap succeeds |
| `LiquidityPool.WithdrawAmounts` | examples/soroban/liquidity_pool/src/liquidity_pool.rs:247-253 | with no shares issued it divides by zero; an accepted withdrawal meets both minimums and pays each token's pro-rata part of the returned shares, rounded down |
| `LiquidityPool.WithdrawOutcome` | examples/soroban/liquidity_pool/src/liquidity_pool.rs:247-253 | where the products fit `i128`, a withdrawal succeeds exactly when `min_a*total_shares <= balance_a*shares` and likewise for B, and otherwise fails with `MinimumNotSatisfied` |
| `LiquidityPool.DepositAtPoolPrice` | examples/soroban/liquidity_pool/src/liquidity_pool.rs:280-305 | with both reserves positive the deposit keeps the pool price: the side not taken in full is the other side scaled by the reserve ratio, rounded down |
| `LiquidityPool.DepositMayTakeLessThanMinA` | examples/soroban/liquidity_pool/src/liquidity_pool.rs:296-303 | the A-side minimum is compared with the offered amount: offering 10 A with `min_a` 5 into a 1:2 pool takes only 2 A |
| `LiquidityPool.WithdrawWithinBalance` | examples/soroban/liquidity_pool/src/liquidity_pool.rs:247-253 | redeeming at most all shares never pays out more than the pool holds of either token |
| `LiquidityPool.SwapKeepsConstantProduct` | examples/soroban/liquidity_pool/src/liquidity_pool.rs:192-221 | an accepted swap never lowers the product of the reserves |
| `LiquidityPool.Pool.constructor` | examples/soroban/liquidity_pool/src/liquidity_pool.rs:20-29 | the default pool: every address the contract's own, no shares, no reserves |
| `LiquidityPool.Pool.Initialize` | examples/soroban/liquidity_pool/src/liquidity_pool.rs:61-86 | token A must sort strictly before token B, otherwise `InvalidTokenOrder` and nothing changes; on success the token addresses are recorded and shares and reserves start at zero |
| `LiquidityPool.Pool.GetRsrvs` | examples/soroban/liquidity_pool/src/liquidity_pool.rs:275-277 | reports the two stored reserves |
| `LiquidityPool.ShareIdAfterInitialize` | examples/soroban/liquidity_pool/src/liquidity_pool.rs:88-90 | `share_id` reports the pool's own address before `initialize` and the recorded share token after it |
| `LiquidityPool.Pool.Deposit` | examples/soroban/liquidity_pool/src/liquidity_pool.rs:92-140 | rejects non-positive deposit amounts; otherwise moves both amounts in, mints the growth in total shares to the depositor, and makes the reserves equal the pool's balances; any error leaves pool and ledger untouched |
| `LiquidityPool.SwapEffect` | examples/soroban/liquidity_pool/src/liquidity_pool.rs:142-226 | a sell amount that fails or exceeds `in_max` refuses the swap; an accepted swap leaves both reserves positive and, between two distinct tokens and a buyer other than the pool, equal to the pool's new balances, with the buyer holding `out` more of the bought token and the sell amount less of the sold one |
| `LiquidityPool.Pool.Swap` | examples/soroban/liquidity_pool/src/liquidity_pool.rs:142-226 | the method's result, new reserves and new balances are those `SwapEffect` gives for the state before the call; shares and tokens are untouched; any error rolls back |
| `LiquidityPool.WithdrawEffect` | examples/soroban/liquidity_pool/src/liquidity_pool.rs:228-273 | the shares handed in join the pool's; a refusal of `WithdrawAmounts` is the outcome; otherwise the withdrawal succeeds exactly when the new share total and both new reserves fit `i128`, returns the pro-rata amounts and lowers the share total by the burnt shares; with three distinct tokens and a caller other than the pool, the pool ends holding no shares, its reserves equal its new balances, and the caller receives exactly the returned amounts |
| `LiquidityPool.Pool.Withdraw` | examples/soroban/liquidity_pool/src/liquidity_pool.rs:228-273 | the method's result, share total, reserves and balances are those `WithdrawEffect` gives for the state before the call; tokens are untouched; any error rolls back |
| `LiquidityPool.FirstDeposit` | examples/soroban/liquidity_pool/src/test.rs:136-203 | depositing 100 and 100 into a fresh pool leaves the user 900/900 with 100 shares, and the pool 100/100 |
| `LiquidityPool.SwapAfterDeposit` | examples/soroban/liquidity_pool/src/test.rs:205-231 | buying 49 B costs 97 A: user 803/949, pool 197/51 |
| `LiquidityPool.WithdrawAll` | examples/soroban/liquidity_pool/src/test.rs:233-263 | redeeming all 100 shares returns 197 A and 51 B and empties the pool |
| `LiquidityPool.FirstDepositShares` | examples/soroban/liquidity_pool/src/test.rs:198-203 | the first deposit of 100 and 100 mints 100 shares |
| `LiquidityPool.SwapReservesExample` | examples/soroban/liquidity_pool/src/test.rs:228-231 | the test's swap leaves reserves 197 and 51 |
| `LiquidityPool.WithdrawExample` | examples/soroban/liquidity_pool/src/test.rs:234-263 | the test's withdrawal pays 197 and 51 |
| `LiquidityPool.SwapPriceExample` | examples/soroban/liquidity_pool/src/test.rs:205-226 | 49 out of a 100/100 pool costs 97 |
| `LiquidityPool.DepositOfZeroFails` | examples/soroban/liquidity_pool/src/test.rs:266-299 | a zero deposit into an empty pool is refused with `DepositAmountsMustBePositive` |
| `LiquidityPool.SwapIntoOneSidedPoolFails` | examples/soroban/liquidity_pool/src/test.rs:301-337 | after minting 1000 of each token to the user and sending 1 of token B straight to the empty pool, buying 1 of token B would leave reserve B at zero and is refused with `NewReservesMustBePositive` |
| `TokenContract.Token.constructor` | examples/soroban/token/src/token.rs:18-27 | the default token: admin is the contract itself, no name, no balances |
| `TokenContract.Token.Initialize` | examples/soroban/token/src/token.rs:48-56 | succeeds only while the admin is still the contract itself (otherwise "already initialized" and no change); sets admin, decimals, name and symbol |
| `TokenContract.Token.Allowance` | examples/soroban/token/src/token.rs:58-60 | the stored allowance for the pair, 0 when absent |
| `TokenContract.Token.Balance` | examples/soroban/token/src/token.rs:78-80 | the stored balance, 0 when absent |
| `TokenContract.Token.IncreaseAllowance` | examples/soroban/token/src/token.rs:62-68 | fails with "allowance overflow" exactly when the new allowance leaves `i128`; otherwise raises that one allowance |
| `TokenContract.Token.DecreaseAllowance` | examples/soroban/token/src/token.rs:70-76 | lowers that one allowance with saturation; the exact difference whenever it fits |
| `TokenContract.Token.Transfer` | examples/soroban/token/src/token.rs:82-91 | "insufficient balance" when the sender has less than the amount; otherwise moves the amount, and a self-transfer credits the sender by the amount |
| `TokenContract.Token.TransferFrom` | examples/soroban/token/src/token.rs:93-101 | checks the allowance, then the balance; on success moves the amount and lowers the allowance |
| `TokenContract.Token.Burn` | examples/soroban/token/src/token.rs:103-110 | "insufficient balance" when short; otherwise lowers only that balance |
| `TokenContract.Token.Mint` | examples/soroban/token/src/token.rs:112-116 | raises only the receiver's balance; an overflow traps and changes nothing |
| `TokenContract.Token.SetAdmin` | examples/soroban/token/src/token.rs:118-121 | replaces the admin and nothing else |
| `TokenContract.InitializeTwice` | examples/soroban/token/src/token.rs:48-56 | a second `initialize` is refused and the first admin stays |
| `TokenContract.MetadataReadBack` | examples/soroban/token/src/token.rs:123-133 | `decimals`, `name` and `symbol` read 0 and empty before `initialize`, the first call's values after it, and still those after a refused second call |
| `TokenContract.MintApproveTransferFrom` | examples/soroban/token/src/token.rs:93-101 | minting 100, approving 50 and spending 30 leaves 70/30 and an allowance of 20; spending 30 more is refused for allowance |
| `TokenContract.SelfTransferCredits` | examples/soroban/token/src/token.rs:82-91 | a self-transfer of 50 out of 100 leaves 150 |
| `FungibleToken.Token.constructor` | examples/soroban/ft/src/ft.rs:37-43 | the default token: no admin, no metadata, empty maps |
| `FungibleToken.Token.Init` | examples/soroban/ft/src/ft.rs:37-50 | traps when the core admin is unset and changes nothing; otherwise sets admin, name, symbol and decimals, after which `decimals`, `name` and `symbol` return them, and keeps the maps |
| `FungibleToken.Token.Allowance` | examples/soroban/ft/src/ft.rs:54-66 | the stored amount while the ledger is at or before its expiry, 0 after it or when absent |
| `FungibleToken.Token.Approve` | examples/soroban/ft/src/ft.rs:68-82 | refused exactly when a non-zero amount expires before the current ledger; otherwise stores the entry, and the allowance then reads back as the amount |
| `FungibleToken.Token.Balance` | examples/soroban/ft/src/ft.rs:84-86 | the stored balance, 0 when absent |
| `FungibleToken.Token.Transfer` | examples/soroban/ft/src/ft.rs:88-94 | moves the amount with checked arithmetic and no balance check; overflow traps and changes nothing |
| `FungibleToken.Token.DecreaseAllowance` | examples/soroban/ft/src/ft.rs:148-160 | stores the current allowance minus the amount (0 when the subtraction overflows) with expiry `ledger + 1000`; fails only when that expiry overflows `u32` |
| `FungibleToken.Token.IncreaseAllowance` | examples/soroban/ft/src/ft.rs:134-146 | stores the current allowance plus the amount with expiry `ledger + 1000`; overflow of either traps |
| `FungibleToken.Token.TransferFrom` | examples/soroban/ft/src/ft.rs:96-103 | an insufficient allowance silently does nothing; otherwise moves the amount and lowers the allowance, renewing its expiry |
| `FungibleToken.Token.Burn` | examples/soroban/ft/src/ft.rs:105-109 | lowers only that balance with checked arithmetic, with no balance check |
| `FungibleToken.Token.BurnFrom` | examples/soroban/ft/src/ft.rs:111-118 | as `TransferFrom`, but the amount is destroyed |
| `FungibleToken.Token.Decimals` | examples/soroban/ft/src/ft.rs:120-122 | the stored decimals, trapping when unset; `Token.Init` and `MetadataAfterInit` tie it to the decimals given to `ft_init` |
| `FungibleToken.Token.Name` | examples/soroban/ft/src/ft.rs:124-126 | the stored name, trapping when unset; `Token.Init` and `MetadataAfterInit` tie it to the name given to `ft_init` |
| `FungibleToken.Token.Symbol` | examples/soroban/ft/src/ft.rs:128-130 | the stored symbol, trapping when unset; `Token.Init` and `MetadataAfterInit` tie it to the symbol given to `ft_init` |
| `FungibleToken.MetadataAfterInit` | examples/soroban/ft/src/ft.rs:47-50 | reading the decimals of a fresh token traps; `ft_init` without a core admin traps and leaves the name unset; with one, `decimals`, `name` and `symbol` return the values given |
| `FungibleToken.Token.Authorized` | examples/soroban/ft/src/ft.rs:166-168 | true exactly when the address is recorded as authorized |
| `FungibleToken.Token.SetAuthorized` | examples/soroban/ft/src/ft.rs:170-173 | needs an admin; records the flag for that address only, which then reads back |
| `FungibleToken.Token.Mint` | examples/soroban/ft/src/ft.rs:175-179 | needs an admin; raises only the receiver's balance, and an overflow traps |
| `FungibleToken.Token.Clawback` | examples/soroban/ft/src/ft.rs:181-185 | needs an admin; lowers only that balance, and an overflow traps |
| `FungibleToken.Token.SetAdmin` | examples/soroban/ft/src/ft.rs:187-190 | needs an existing admin; replaces it and nothing else |
| `FungibleToken.AllowanceExpires` | examples/soroban/ft/src/ft.rs:54-66 | an allowance reads as 50 at its expiry ledger and as 0 after it; spending it late does nothing |
| `FungibleToken.DecreaseBelowZero` | examples/soroban/ft/src/ft.rs:148-160 | approving 5 and then decreasing the allowance by 8 succeeds and leaves an allowance of -3 |
| `Timelock.CheckTimeBound` | examples/soroban/timelock/src/timelock.rs:43-50 | `Before` holds up to and including the timestamp, `After` from it on |
| `Timelock.Contract.constructor` | examples/soroban/timelock/src/timelock.rs:36-39 | no claimable balance yet |
| `Timelock.Contract.Deposit` | examples/soroban/timelock/src/timelock.rs:65-91 | more than 10 claimants or an existing balance is refused; otherwise records the balance and moves the tokens into the contract |
| `Timelock.Contract.Claim` | examples/soroban/timelock/src/timelock.rs:93-119 | traps with no deposit; refuses an already claimed balance, an unmet time bound or a stranger, in that order; otherwise pays the whole amount to the claimant and zeroes it |
| `Timelock.DepositClaimThenNoMore` | examples/soroban/timelock/src/test.rs:67-263 | a permitted claimant gets the deposit once; a second claim and a second deposit are refused |
| `Timelock.ClaimRefusals` | examples/soroban/timelock/src/test.rs:178-216 | a stranger and an early claim are refused |
| `Timelock.TooManyClaimantsRefused` | examples/soroban/timelock/src/timelock.rs:73-75 | eleven claimants are refused |
| `SingleOffer.SellTokenAmount` | examples/soroban/single_offer/src/single_offer.rs:113-116 | an overflowing product traps as an `unwrap`, a zero buy price divides by zero, a quotient outside `i128` traps with overflow, and otherwise the call succeeds with the truncating quotient |
| `SingleOffer.TradePaysAtMostThePrice` | examples/soroban/single_offer/src/single_offer.rs:113-116 | the buyer never receives more than the offered price ratio allows, rounded down |
| `SingleOffer.Storage.constructor` | examples/soroban/single_offer/src/single_offer.rs:67-97 | no offer yet |
| `SingleOffer.Storage.Create` | examples/soroban/single_offer/src/single_offer.rs:67-97 | refuses a second offer and zero prices; otherwise stores the offer |
| `SingleOffer.Storage.Trade` | examples/soroban/single_offer/src/single_offer.rs:99-142 | refuses below the buyer's minimum; otherwise does the three transfers: buyer to contract, contract to buyer, contract to seller |
| `SingleOffer.Storage.Withdraw` | examples/soroban/single_offer/src/single_offer.rs:144-153 | sends the amount of the token from the contract to the seller |
| `SingleOffer.Storage.UpdatePrice` | examples/soroban/single_offer/src/single_offer.rs:155-165 | refuses zero prices; otherwise changes only the two prices |
| `SingleOffer.Storage.GetOffer` | examples/soroban/single_offer/src/single_offer.rs:167-169 | the stored offer, trapping when none; `OfferReadBack` ties it to `create` and `update_price` |
| `SingleOffer.OfferLifecycle` | examples/soroban/single_offer/src/single_offer.rs:67-142 | a second create is refused, a fair trade goes through with the expected amounts, and a trade below the minimum is refused |
| `SingleOffer.OfferReadBack` | examples/soroban/single_offer/src/single_offer.rs:67-169 | `get_offer` traps before `create`, returns the offer as created after it, and carries the new prices after `update_price` |
| `Account.SignatureCheck` | examples/soroban/account/src/subcontract.rs:136-151 | one signature passes exactly when its key is above the previous key, is a signer, and verifies |
| `Account.AuthenticateOkIff` | examples/soroban/account/src/subcontract.rs:130-154 | authentication passes exactly when the keys strictly increase and every signature is a signer's and verifies |
| `Account.AuthenticateFailureSticks` | examples/soroban/account/src/subcontract.rs:136-146 | the first failing signature decides the error; later signatures do not matter |
| `Account.SpentAmount` | examples/soroban/account/src/subcontract.rs:194-203 | the spent amount is the third argument; a missing one or a non-`i128` one traps |
| `Account.SpendLeft` | examples/soroban/account/src/subcontract.rs:184-191 | the running allowance for a token, falling back to its configured limit |
| `Account.Policy` | examples/soroban/account/src/subcontract.rs:156-213 | refuses contract creation with `InvalidContext` and, without all signatures, calls on the account itself with `NotEnoughSigners`; non-spending calls and tokens outside the policy change nothing; an accepted spending call had a non-negative amount, within what was left unless all signed, lowers that token's allowance by it, and touches no other token |
| `Account.PolicySpendingOutcome` | examples/soroban/account/src/subcontract.rs:193-211 | every outcome of a spending call on a limited token past the self-call check: a missing or non-`i128` amount traps, a negative amount is `NegativeAmount`, an amount above what is left without all signatures is `NotEnoughSigners`, and any other amount is accepted with the allowance lowered by it, trapping only if that subtraction overflows |
| `Account.Policies` | examples/soroban/account/src/subcontract.rs:116-125 | the context loop of `__check_auth`: no contexts change nothing; when it passes, every context is a contract call and none is on the account itself unless all signed, and no token tracked before is dropped |
| `Account.SpendLimitIsCumulative` | examples/soroban/account/src/subcontract.rs:96-127 | across all contexts of one authorization, the amounts spent on a token add up to at most its limit, and the allowance left is the limit minus the total |
| `Account.SpentOnNonNegative` | examples/soroban/account/src/subcontract.rs:194-206 | spending calls with non-negative amounts spend a non-negative total |
| `Account.WithinLimitPasses` | examples/soroban/account/src/subcontract.rs:96-127 | the converse of the cumulative limit: without all signatures, spending calls on a limited token other than the account, with non-negative amounts totalling at most what is left, all pass and leave the allowance lowered by the total |
| `Account.AccountManager.constructor` | examples/soroban/account/src/subcontract.rs:29-35 | no signers, no limits |
| `Account.AccountManager.Init` | examples/soroban/account/src/subcontract.rs:51-58 | adds the signers and records their count |
| `Account.AccountManager.AddLimit` | examples/soroban/account/src/subcontract.rs:60-62 | sets one token's limit and nothing else |
| `Account.AccountManager.Authenticate` | examples/soroban/account/src/subcontract.rs:130-154 | the loop's answer is the signature-by-signature check over all signatures |
| `Account.AccountManager.CheckAuth` | examples/soroban/account/src/subcontract.rs:96-127 | passes exactly when authentication passes and every context satisfies the policy; all signers signed exactly when the signature count equals the signer count |
| `Account.LimitAcrossContexts` | examples/soroban/account/src/subcontract.rs:156-213 | with one of two signatures, transfers of 60 and 50 under a limit of 100 are refused with `NotEnoughSigners`, since the limit is tracked across the contexts of one call; with both signatures they pass |
| `Account.SignaturesRefused` | examples/soroban/account/src/subcontract.rs:129-154 | signatures out of key order are refused with `BadSignatureOrder`, and a key that is not a signer's with `UnknownSigner` |
| `Account.TwoTransfersExceedLimit` | examples/soroban/account/src/subcontract.rs:156-213 | under a limit of 100, transfers of 60 and then 50 leave -10 when all signed, and are refused with `NotEnoughSigners` when not |
| `Account.SignatureOrderExamples` | examples/soroban/account/src/subcontract.rs:129-154 | for signers 1 and 2, the first signature of (2, 1) and of (1, 3) passes, and the second of (1, 3) is refused as unknown |
| `AtomicSwap.SwapOutcome` | examples/soroban/atomic_swap/src/subcontract.rs:27-56 | `NotEnoughTokenB` is checked first, then `NotEnoughTokenA`; the swap succeeds exactly when both minimums are met, both parties authorized their own terms, and the refunds fit in `i128` |
| `AtomicSwap.EscrowIsDirectTransfer` | examples/soroban/atomic_swap/src/subcontract.rs:60-81 | routing through the contract (take `max_spend`, pay `transfer`, refund the rest) leaves every holding as a direct transfer would |
| `AtomicSwap.SwapNetEffect` | examples/soroban/atomic_swap/src/subcontract.rs:52-53 | each party ends up paying exactly the other's minimum and receiving its own; nothing else moves |
| `AtomicSwap.MoveToken` | examples/soroban/atomic_swap/src/subcontract.rs:60-81 | performs the escrowed transfer; an overflowing refund traps with no change |
| `AtomicSwap.Swap` | examples/soroban/atomic_swap/src/subcontract.rs:27-56 | returns `SwapOutcome`; on success the ledger is the two escrowed transfers, on failure unchanged |
| `AtomicSwap.SwapExample` | examples/soroban/atomic_swap/src/subcontract.rs:27-56 | a matching swap settles each side's minimum with nothing left in escrow; a greedy one is refused |
| `AtomicMultiswap.GuardPassesMinimumChecks` | examples/soroban/atomic_multiswap/src/subcontract.rs:54 | a pair that passes the multi-swap guard never fails the swap's own minimum checks |
| `AtomicMultiswap.Attempt` | examples/soroban/atomic_multiswap/src/subcontract.rs:55-65 | `try_swap` with the A offer as first party succeeds exactly when the pair is compatible, each party authorised its own terms (A offering token A, B offering token B) and both refunds fit in `i128` |
| `AtomicMultiswap.FirstMatch` | examples/soroban/atomic_multiswap/src/subcontract.rs:51-71 | finds the first B offer from an index on that settles with the A offer, or shows none does |
| `AtomicMultiswap.Take` | examples/soroban/atomic_multiswap/src/subcontract.rs:51-71 | a settling partner is removed from the B list and nothing else is lost; without a partner the list is unchanged |
| `AtomicMultiswap.TakeIsFirstSettling` | examples/soroban/atomic_multiswap/src/subcontract.rs:51-71 | the partner taken is the first settling offer, removed in place |
| `AtomicMultiswap.Greedy` | examples/soroban/atomic_multiswap/src/subcontract.rs:49-73 | one match decision per A offer |
| `AtomicMultiswap.GreedyConsumesEachOfferOnce` | examples/soroban/atomic_multiswap/src/subcontract.rs:47-73 | the chosen partners and the remaining B offers are together exactly the original B offers: none is used twice or lost |
| `AtomicMultiswap.GreedyPairsSettle` | examples/soroban/atomic_multiswap/src/subcontract.rs:54-69 | every pair matched is one whose swap succeeds |
| `AtomicMultiswap.UnmatchedOffersHaveNoPartnerLeft` | examples/soroban/atomic_multiswap/src/subcontract.rs:49-73 | an A offer left unmatched could not have settled with any B offer still left at the end |
| `AtomicMultiswap.Scan` | examples/soroban/atomic_multiswap/src/subcontract.rs:51-71 | the inner loop takes the first settling offer and settles it on the ledger |
| `AtomicMultiswap.GreedyStep` | examples/soroban/atomic_multiswap/src/subcontract.rs:49-73 | one turn of the outer loop: the next A offer takes the partner the inner scan finds, and the later A offers are matched against the B offers left over |
| `AtomicMultiswap.MultiSwap` | examples/soroban/atomic_multiswap/src/subcontract.rs:38-74 | the two loops compute the greedy matching and settle exactly its pairs |
| `AtomicMultiswap.MultiSwapExample` | examples/soroban/atomic_multiswap/src/subcontract.rs:38-74 | the second B offer is taken by the first A offer, and the second A offer finds no partner |
| `Registry.NextVersion` | contracts/registry/src/registry/wasm.rs:40-48 | the next version applies the requested update, or the default one, to the name's most recent version, or to the default version for a new name |
| `Registry.NewMetadata` | contracts/registry/src/registry/wasm.rs:53-59 | a given repository wins; the initial version gets default metadata; otherwise the previous version's metadata is carried over, and a missing previous version is `NoSuchVersion` |
| `Registry.PublishedWasm.Empty` | contracts/registry/src/metadata/contract.rs:12-17 | an empty registry |
| `Registry.PublishedWasm.New` | contracts/registry/src/metadata/contract.rs:20-25 | a registry recording one author for one name |
| `Registry.PublishedWasm.MostRecentVersion` | contracts/registry/src/metadata/contract.rs:29-33 | succeeds exactly when the name has a version, returning it; otherwise `NoSuchVersion` |
| `Registry.PublishedWasm.SetMostRecentVersion` | contracts/registry/src/metadata/contract.rs:35-37 | records the name's latest version and nothing else |
| `Registry.PublishedWasm.Get` | contracts/registry/src/metadata/contract.rs:39-48 | the requested version's entry, or the latest version's, exactly when it exists; otherwise `NoSuchVersion` |
| `Registry.PublishedWasm.Set` | contracts/registry/src/metadata/contract.rs:50-63 | stores the entry under the given version, or under the latest one; with neither, `NoSuchVersion` |
| `Registry.PublishedWasm.Author` | contracts/registry/src/metadata/contract.rs:65-67 | the recorded author of the name, if any |
| `Registry.PublishedWasm.Fetch` | contracts/registry/src/registry/wasm.rs:12-14 | the requested or latest entry of a name exactly when it exists |
| `Registry.PublishedWasm.CurrentVersion` | contracts/registry/src/registry/wasm.rs:16-18 | the name's latest version exactly when it has one |
| `Registry.PublishedWasm.PublishHash` | contracts/registry/src/registry/wasm.rs:32-66 | refused when another author owns the name; otherwise the next version becomes current and fetching the name yields the published hash; the author map is never written; a refusal changes nothing |
| `Registry.PublishedWasm.Publish` | contracts/registry/src/registry/wasm.rs:20-30 | publishes the hash the upload returns, with the outcome of `PublishHash`: `AlreadyPublished` for another author, `NoSuchVersion` exactly when the author matches but no metadata can be chosen, and otherwise the next version becomes the most recent with the uploaded hash and its metadata stored under it; the author map is never written and a refusal changes nothing |
| `Registry.PublishTwice` | contracts/registry/src/registry/wasm.rs:32-66 | the owner's two publications are both kept, the latest is current, and an intruder is refused |
| `Registry.UnclaimedNameIsOpen` | contracts/registry/src/registry/wasm.rs:32-66 | since `publish_hash` never records the author, a second publisher of a fresh name is accepted too |
| `DevWatch.FileName` | crates/loam-cli/src/commands/dev/mod.rs:51 | the last component of a path when it is a normal name |
| `DevWatch.Extension` | crates/loam-cli/src/commands/dev/mod.rs:66-68 | a name has no extension exactly when it is `..` or has no dot after its first character; otherwise the extension is what follows the last dot |
| `DevWatch.Parent` | crates/loam-cli/src/commands/dev/mod.rs:130-131 | a path's parent is the path without its last component, except for the root |
| `DevWatch.CanonicalizePath` | crates/loam-cli/src/commands/dev/mod.rs:33-44 | an empty path is the working directory, a one-component path is joined onto it, and a longer one is canonicalized, or kept when that fails |
| `DevWatch.TmpExtensionIsSuffix` | crates/loam-cli/src/commands/dev/mod.rs:66-75 | having extension `tmp` in any letter case is having a `.tmp` suffix after a non-empty stem |
| `DevWatch.TemporaryFileExactly` | crates/loam-cli/src/commands/dev/mod.rs:50-76 | `is_temporary_file` on characters: the file name starts with `.`, ends with `~`, starts and ends with `#`, or ends in `.tmp` in any letter case after a non-empty stem |
| `DevWatch.ParentInWatchedDirsIsAny` | crates/loam-cli/src/commands/dev/mod.rs:46-48 | `is_parent_in_watched_dirs` is `any` over the canonicalised watched directories: false for none, and one more directory adds exactly its own match |
| `DevWatch.TemporaryFileExamples` | crates/loam-cli/src/commands/dev/mod.rs:50-76 | swap files, backup files, emacs autosaves and `.tmp` files are temporary |
| `DevWatch.OrdinaryFileExamples` | crates/loam-cli/src/commands/dev/mod.rs:50-76 | ordinary sources, a bare `tmp` and the root are not |
| `DevWatch.ForwardsExactly` | crates/loam-cli/src/commands/dev/mod.rs:117-146 | the watcher closure's filter (`Forwards`): an event is forwarded exactly when it creates, modifies or removes a non-temporary first path that is either outside the `environments.toml` directory, or is that file itself, or sits in a directory also watched |
| `DevWatch.EnvTomlChangeIsForwarded` | crates/loam-cli/src/commands/dev/mod.rs:117-146 | a creation, modification or removal whose first path is `environments.toml` itself, and not an editor file, is always forwarded |
| `DevWatch.TemporaryFirstPathIsDropped` | crates/loam-cli/src/commands/dev/mod.rs:123-126 | an event whose first path is temporary is never forwarded |
| `DevWatch.Cmd.constructor` | crates/loam-cli/src/commands/dev/mod.rs:78-79 | the loop starts from the given build command |
| `DevWatch.Cmd.ClonedBuildCommand` | crates/loam-cli/src/commands/dev/mod.rs:201-206 | fills in environment `development` and profile `debug` only when unset, and returns the updated command |
| `DevWatch.ClonedBuildCommandKeepsSettings` | crates/loam-cli/src/commands/dev/mod.rs:201-206 | the defaults are applied once and stay; given settings are kept |
| `DevWatch.AtMostOneRebuildInFlight` | crates/loam-cli/src/commands/dev/mod.rs:169-199 | rebuilds spawned never exceed finished rebuilds plus one |
| `DevWatch.ChangesDuringRebuildAreDropped` | crates/loam-cli/src/commands/dev/mod.rs:169-199 | any number of changes arriving during a rebuild spawn nothing, and afterwards the loop is idle |
| `DevWatch.RebuildState.constructor` | crates/loam-cli/src/commands/dev/mod.rs:81 | idle, nothing spawned |
| `DevWatch.RebuildState.OnMessage` | crates/loam-cli/src/commands/dev/mod.rs:169-175 | a message spawns a rebuild only when idle, and marks the loop busy |
| `DevWatch.RebuildState.OnRebuildDone` | crates/loam-cli/src/commands/dev/mod.rs:196-197 | a finished rebuild clears the flag |
| `DevWatch.RebuildState.Run` | crates/loam-cli/src/commands/dev/mod.rs:167-181 | running a signal sequence spawns as many rebuilds as the specification counts and ends in its flag state |
| `DevWatch.BurstThenChange` | crates/loam-cli/src/commands/dev/mod.rs:169-199 | a burst yields one rebuild, and a change after it finishes yields a second |
| `StorageMacro.GenerateMapField` | crates/loam-sdk-macro/src/subcontract/storage.rs:85-143 | accepts only the map kind with exactly two angle-bracketed type arguments; the field gains the key wrapper as a third argument and the wrapper converts from the key type |
| `StorageMacro.GenerateStoreField` | crates/loam-sdk-macro/src/subcontract/storage.rs:145-189 | accepts the store kind with at least one type argument, where an empty argument list panics; the field keeps the value type and gains the key wrapper |
| `StorageMacro.FieldToEnumCase` | crates/loam-sdk-macro/src/subcontract/storage.rs:191-196 | the data-key variant of a field is named like its key wrapper, without the `Key` suffix |
| `StorageMacro.GenerateFieldMeaning` | crates/loam-sdk-macro/src/subcontract/storage.rs:26-46 | the per-field closure (`GenerateField`): a field generates code exactly when it is a valid map or store field, with the wrapper named after the field plus `Key`; otherwise it panics only for an empty store argument list |
| `StorageMacro.GenerateFields` | crates/loam-sdk-macro/src/subcontract/storage.rs:36-48 | on success each field's output is what that field alone generates, in order |
| `StorageMacro.FirstInvalid` | crates/loam-sdk-macro/src/subcontract/storage.rs:36-48 | the first invalid field, every one before it valid |
| `StorageMacro.GenerateFieldsFailsAtFirstInvalid` | crates/loam-sdk-macro/src/subcontract/storage.rs:36-48 | generation succeeds exactly when every field is valid, and otherwise fails with the first invalid field's error |
| `StorageMacro.GenerateDataKeyVariants` | crates/loam-sdk-macro/src/subcontract/storage.rs:198-231 | one key variant per field |
| `StorageMacro.DataKeyVariantsFollowFields` | crates/loam-sdk-macro/src/subcontract/storage.rs:198-231 | for valid fields, each variant is the field name in upper camel case, carrying the key type for maps and nothing for stores |
| `StorageMacro.GenerateStorage` | crates/loam-sdk-macro/src/subcontract/storage.rs:16-83 | only named fields are accepted; the output keeps the struct name and has one field, one key variant and one wrapper per input field |
| `StorageMacro.FromItem` | crates/loam-sdk-macro/src/subcontract/storage.rs:6-14 | anything but a struct is refused, and so is a struct without named fields |
| `StorageMacro.FromItemAcceptsValidStructs` | crates/loam-sdk-macro/src/subcontract/storage.rs:6-83 | a struct with named fields expands exactly when all its fields are valid, each keeping its name and storage kind, with its key wrapper last and its key variant named after it |
| `StorageMacro.FooExample` | crates/loam-sdk-macro/src/subcontract/storage.rs:240-289 | `Foo { bar: PersistentMap<String, u64>, baz: PersistentStore<u64> }` expands to the fields, key variants and wrappers of the macro's test |
| `NpmBinary.RustType` | npm/src/getBinary.ts:11-15 | the Rust OS triple part exactly for Darwin, Linux and Windows_NT |
| `NpmBinary.RustArch` | npm/src/getBinary.ts:17-20 | the Rust architecture exactly for x64 and arm64 |
| `NpmBinary.GetPlatform` | npm/src/getBinary.ts:8-31 | succeeds exactly when both the OS and the architecture are known; otherwise the error names both |
| `NpmBinary.PlatformTable` | npm/src/getBinary.ts:11-20 | the six supported pairs (Darwin, Linux and Windows_NT, each on x64 and arm64) map to their Rust vendor-system and architecture names, and an unsupported architecture gets the `Unsupported platform` message |
| `NpmBinary.GithubUrl` | npm/src/getBinary.ts:33-36 | the release URL exists exactly when the platform is supported |
| `NpmBinary.GithubUrlShape` | npm/src/getBinary.ts:33-36 | the URL is, in order: the releases-page prefix ending in `loam-cli-v`, the version, `/loam-cli-v`, the version again, `-`, the Rust architecture, `-`, the Rust vendor and system, and `.tar.gz` |
| `NpmBinary.Urls` | npm/src/getBinary.ts:45-49 | the GitHub URL is always last, preceded by `LOAM_ARTIFACT_URL` exactly when that is set and non-empty |
| `NpmBinary.NodeProcess.constructor` | npm/src/getBinary.ts:38 | the process starts with the given environment |
| `NpmBinary.NodeProcess.GetBinary` | npm/src/getBinary.ts:38-52 | sets `LOAM_BINARY_PATH` to `~/.loam/loam` unless `LOAM_BIN_PATH` is set, even when it then throws; throws exactly for an unsupported platform; otherwise names the binary with the download URLs |
| `NpmBinary.ReleaseUrlExample` | npm/src/getBinary.ts:33-36 | the Linux x64 URL for version 0.1.0 |
| `NpmBinary.MirrorFirstExample` | npm/src/getBinary.ts:45-49 | a configured artifact URL is tried first |
| `NpmBinary.UnsupportedExample` | npm/src/getBinary.ts:27-30 | SunOS is refused with `Unsupported platform: SunOS x64`, and the binary path is still set |
| `ErrorsCounter.Answers` | examples/soroban/errors/src/counter.rs:21-32 | one answer per call |
| `ErrorsCounter.AnswersFrom` | examples/soroban/errors/src/counter.rs:21-32 | from a count within the cap, the calls count on to `MAX` and then answer `LimitReached` |
| `ErrorsCounter.FreshCounterCaps` | examples/soroban/errors/src/test.rs:14-19 | a fresh counter answers 1 to 5 and then `LimitReached` |
| `ErrorsCounter.Counter.constructor` | examples/soroban/errors/src/counter.rs:11-16 | unset count |
| `ErrorsCounter.Counter.Increment` | examples/soroban/errors/src/counter.rs:21-32 | the next answer of the sequence; stores it on success, keeps the count on `LimitReached`, and never stores above `MAX` |
| `ErrorsCounter.FiveThenLimit` | examples/soroban/errors/src/test.rs:14-19 | five successes and then the limit, with 5 stored |
| `EventsCounter.Published` | examples/soroban/events/src/counter.rs:20-35 | at most one event per call |
| `EventsCounter.PublishedInOrder` | examples/soroban/events/src/counter.rs:20-35 | below the `u32` bound each call publishes exactly one `COUNTER increment` event carrying the next count |
| `EventsCounter.Counter.constructor` | examples/soroban/events/src/counter.rs:10 | unset count, empty log |
| `EventsCounter.Counter.Increment` | examples/soroban/events/src/counter.rs:20-35 | returns and stores the next count and appends its event; an overflow traps and publishes nothing |
| `EventsCounter.ThreeIncrements` | examples/soroban/events/src/test.rs:12-35 | three calls return 1, 2, 3 and leave three events carrying them |
| `IncrementCounter.Returns` | examples/soroban/increment/src/counter.rs:18-23 | one answer per call |
| `IncrementCounter.ReturnsCountOn` | examples/soroban/increment/src/counter.rs:18-23 | successive calls count on by one |
| `IncrementCounter.ReturnsAtBound` | examples/soroban/increment/src/counter.rs:18-23 | at `u32::MAX` every further call traps |
| `IncrementCounter.Counter.constructor` | examples/soroban/increment/src/counter.rs:8 | unset count |
| `IncrementCounter.Counter.Increment` | examples/soroban/increment/src/counter.rs:18-23 | the next answer of the sequence, stored as well as returned |
| `IncrementCounter.ThreeIncrements` | examples/soroban/increment/src/test.rs:15-17 | three calls return 1, 2, 3 |
| `IncrementInit.Counter.constructor` | examples/soroban/increment-init/src/counter.rs:10 | unset count |
| `IncrementInit.Counter.Init` | examples/soroban/increment-init/src/counter.rs:29-31 | stores the given count, replacing any earlier one |
| `IncrementInit.Counter.Increment` | examples/soroban/increment-init/src/counter.rs:22-27 | traps before `init`, traps at `u32::MAX`, otherwise stores and returns the next count |
| `IncrementInit.InitThenIncrement` | examples/soroban/increment-init/src/counter.rs:22-31 | without `init` the call traps; after `init(n)` it returns `n + 1` |
| `IncrementInit.InitOverwrites` | examples/soroban/increment-init/src/counter.rs:29-31 | a second `init` replaces the count |
| `CustomTypes.Replay` | examples/soroban/custom_types/src/subcontract.rs:26-32 | an empty series of increments leaves the state as it is |
| `CustomTypes.ReplayAddsUp` | examples/soroban/custom_types/src/subcontract.rs:26-32 | after a series of increments the count is the start plus their sum and the last increment is recorded |
| `CustomTypes.SumNonNegative` | examples/soroban/custom_types/src/subcontract.rs:26-32 | `u32` increments never lower the count |
| `CustomTypes.Inc.constructor` | examples/soroban/custom_types/src/subcontract.rs:12 | no state stored |
| `CustomTypes.Inc.GetState` | examples/soroban/custom_types/src/subcontract.rs:34-36 | the stored state, or the default zero state |
| `CustomTypes.Inc.Increment` | examples/soroban/custom_types/src/subcontract.rs:26-32 | adds the increment to the count, records it as the last one, and returns the new count; an overflow traps |
| `CustomTypes.OneThenTen` | examples/soroban/custom_types/src/test.rs:12-20 | increments of 1 and 10 return 1 and 11 and leave state (11, 10) |
| `AuthCounter.Step` | examples/soroban/auth/src/subcontract.rs:18-26 | a call adds its value to its user's counter only; others are untouched |
| `AuthCounter.ReplayAccumulates` | examples/soroban/auth/src/subcontract.rs:18-26 | each user's counter ends as its start plus the sum of that user's values |
| `AuthCounter.TotalNonNegative` | examples/soroban/auth/src/subcontract.rs:18-26 | `u32` values never lower a counter |
| `AuthCounter.ReplayLeavesBystanders` | examples/soroban/auth/src/subcontract.rs:18-26 | a user who makes no call keeps their counter |
| `AuthCounter.IncrementContract.constructor` | examples/soroban/auth/src/subcontract.rs:10 | no counters |
| `AuthCounter.IncrementContract.Increment` | examples/soroban/auth/src/subcontract.rs:18-26 | applies one step for the user and returns the user's new counter |
| `AuthCounter.TwoUsers` | examples/soroban/auth/src/subcontract.rs:18-26 | two users' counters grow independently |
| `StatusMessage.Board.constructor` | examples/soroban/status_message/src/status_message.rs:12 | no messages |
| `StatusMessage.Board.MessagesGet` | examples/soroban/status_message/src/status_message.rs:29-31 | an author's message exactly when one is stored |
| `StatusMessage.Board.MessagesSet` | examples/soroban/status_message/src/status_message.rs:33-36 | stores the author's message, replacing theirs only |
| `StatusMessage.PostThenRepost` | examples/soroban/status_message/src/test.rs:23-39 | a message reads back, and a repost replaces it |
| `DeployerContract.Contract.constructor` | examples/soroban/deployer/contract/src/contract.rs:11 | nothing stored |
| `DeployerContract.Contract.Value` | examples/soroban/deployer/contract/src/contract.rs:24-26 | the stored value, 0 before `init` |
| `DeployerContract.Contract.Init` | examples/soroban/deployer/contract/src/contract.rs:20-22 | stores the value, and it reads back |
| `DeployerContract.InitTwice` | examples/soroban/deployer/contract/src/contract.rs:20-26 | 0 before `init`, then the last value stored |
| `SimpleAccount.CheckAuth` | examples/soroban/simple_account/src/subcontract.rs:33-50 | passes exactly when there is one signature, an owner is set and the signature verifies against the owner; the signature count is checked first |
| `SimpleAccount.SimpleAccountManager.constructor` | examples/soroban/simple_account/src/subcontract.rs:10 | no owner |
| `SimpleAccount.SimpleAccountManager.Init` | examples/soroban/simple_account/src/subcontract.rs:24-30 | sets the owner once; a second call is `OwnerAlreadySet` and changes nothing |
| `SimpleAccount.OwnerIsFixed` | examples/soroban/simple_account/src/subcontract.rs:24-50 | a second `init` is refused; one signature passes exactly when it verifies against the first owner; two signatures are refused by count |
| `AllocSum.TriangleClosedForm` | examples/soroban/alloc/src/subcontract.rs:20-30 | the sum of 0 to n-1 is n(n-1)/2 |
| `AllocSum.TriangleMonotone` | examples/soroban/alloc/src/subcontract.rs:20-30 | the sum grows with `count` |
| `AllocSum.SumFitsIff` | examples/soroban/alloc/src/subcontract.rs:26 | the sum fits in `u32` exactly when `count <= 92682` |
| `AllocSum.Sum` | examples/soroban/alloc/src/subcontract.rs:20-30 | builds the vector 0..count and adds it up with checked addition: the sum 0 + ... + (count-1), or `Overflow` exactly when that leaves `u32` |
| `AllocSum.SmallSums` | examples/soroban/alloc/src/test.rs:13-15 | sums for 0, 1, 2 and 5 are 0, 0, 1 and 10 |
| `ContractA.Add` | examples/soroban/cross_contract/contract_a/src/subcontract.rs:19-21 | the sum exactly when it fits in `u32`, `Overflow` otherwise |
| `ContractA.AddSymmetric` | examples/soroban/cross_contract/contract_a/src/subcontract.rs:19-21 | argument order does not matter |
| `ContractC.Pow2` | examples/soroban/cross_contract/contract_c/src/subcontract.rs:25 | powers of two are positive |
| `ContractC.CheckedShr` | examples/soroban/cross_contract/contract_c/src/subcontract.rs:25 | a shift succeeds exactly for shift amounts below 32 and divides by the power of two |
| `ContractC.AddWith` | examples/soroban/cross_contract/contract_c/src/subcontract.rs:17-27 | an overflowing inner `add` traps the caller; the outer sum overflows exactly when 2(x+y) leaves `u32`; otherwise the result is (x+y)/2 |
| `ContractC.AddWithExamples` | examples/soroban/cross_contract/contract_c/src/subcontract.rs:17-27 | 3 and 4 give 3; a doubled sum beyond `u32` is `Overflow`; an overflowing inner `add` traps |
| `TestAsset.Token.constructor` | test/asset/src/lib.rs:17-30 | all items unset |
| `TestAsset.Token.InitItems` | test/asset/src/lib.rs:33-38 | sets name, symbol and decimals, and nothing else |
| `TestAsset.Token.Init` | test/asset/src/lib.rs:42-44 | the same as the associated `init`: balances are kept |
| `TestAsset.Token.Name` | test/asset/src/lib.rs:46-48 | the name exactly when set |
| `TestAsset.Token.SetBalance` | test/asset/src/lib.rs:50-53 | sets one address's balance and nothing else |
| `TestAsset.InitKeepsBalances` | test/asset/src/lib.rs:33-53 | no name before `init`, the name after it, and earlier balances survive |
| `TestAssetTwo.Token.constructor` | test/asset-two/src/lib.rs:32-43 | empty name and symbol, zero decimals, empty maps |
| `TestAssetTwo.Token.Init` | test/asset-two/src/lib.rs:46-55 | replaces the whole token: new metadata and empty maps |
| `TestAssetTwo.Token.Name` | test/asset-two/src/lib.rs:63-65 | always some name |
| `TestAssetTwo.Token.SetBalance` | test/asset-two/src/lib.rs:67-70 | sets one address's balance and nothing else |
| `TestAssetTwo.InitClearsBalances` | test/asset-two/src/lib.rs:46-70 | the name is empty before `init`, and `init` clears earlier balances |

## Left out

- Other contracts' behaviour behind `token::Client`: transfers, mints and burns always succeed on the shared ledger. A real token can refuse, for example on an insufficient balance. That refusal would roll back the whole call, which the model does not show.
- `Soroban.Move`: a foreign self-transfer through `token::Client` is taken to change nothing. This repository's own `examples/soroban/token/src/token.rs:82-91` credits the sender instead (see `TokenContract.SelfTransferCredits`).
- `require_auth` and `require_auth_for_args` always succeed. Only the atomic swap's authorization is a parameter (`signed`), because its arguments matter there.
- `ed25519_verify` is the `verified` predicate. A failed verification traps in the source, and the model reports it as an error.
- The pool's share-token deployment, and `examples/soroban/liquidity_pool/src/token.rs`: the share token is an address given to `initialize`.
- Version arithmetic in the registry is abstract. `Version`, `Update`, `update`, the default version and the initial version are parameters (`VersionScheme`), because the version crate is not part of this model.
- Contract events and logging are left out, except the events counter, whose event log is the point of that example.
- The dev loop's concurrency is left out: the channel, the watcher thread, the one-second debounce sleep, the build itself, Ctrl-C and the error printing. The flag protocol is modelled as a sequence of signals.
- Changes that arrive during a rebuild are dropped by the loop as written: the flag is set during the build and cleared afterwards without a re-run. The model follows the code, and `DevWatch.ChangesDuringRebuildAreDropped` states the consequence. No follow-up rebuild is modelled.
- `Binary.create` and the download, install and run of the npm launcher. `getBinary` stops at the name and the URL list.
- `path.join`, `os.homedir`, `os.type` and `os.arch` are parameters, as are `std::fs::canonicalize` and the working directory.
- The exported `#[loamstorage]` attribute in `crates/loam-sdk-macro/src/lib.rs:131-215` has its own inline generator, which accepts only `PersistentMap` and `PersistentStore` fields. That generator is not part of this model; the model follows `from_item` in `subcontract/storage.rs`, which also accepts the instance and temporary kinds.
- `to_upper_camel_case` is a parameter of the storage macro. The generated token streams are datatypes that record what is generated, not Rust syntax.
- `ContractC.AddWith`: the contract id passed to `add_with` is taken to name a deployed `ContractA`. A call to any other contract is not modelled.
- `IncrementInit.InitThenIncrement`: the increment-init example's test calls `increment` without `init`; the code unwraps a missing item there, and the model traps as the code does.
- `crates/loam-soroban-sdk/src/loam_storage.rs` and `lib.rs` (the storage item types) are modelled by `Option` and `map` fields. The old `crates/loam-sdk-macro/src/storage.rs`, the macro crate's `lib.rs`, `dev/docker.rs`, `write_cargo.py`, and the examples with no behaviour beyond constants are not part of this model: `hello_world`, `logging`, `ttl`, `calculator`, `contract_b` and the deployer's `deployer`.
- `Registry.PublishedWasm.New`: line 21 of `contracts/registry/src/metadata/contract.rs` calls `with_stellar_asset` on an undefined `serialized_asset`, with no semicolon. It has no effect on the registry's state, and the model leaves it out.
- Storage time-to-live extension and instance bumps are left out, because they do not change any value the contracts read.
