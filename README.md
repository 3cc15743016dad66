# hydro-solana-dex core, modelled in Dafny

This project models five pieces of the hydro-solana-dex repository and proves properties of them:

- **Account loader** (`sdks/hydra-ts/src/utils/account-loader/index.ts`). It has three parts:
  - `key` and `info` are pure composition: a key (given, or produced by a getter) and a parser read one account record from a snapshot of the ledger.
  - `onChange` and `stream` are callback-driven. Their promises are replaced by an explicit, ordered trace of events. A pure step function gives the effect of each event on the closure state (`fetchingInfo`, the listener `id`, what was emitted, what was unregistered). A class with one method per event performs the same update on its fields.
  - The race between the one-shot fetch and the push subscription is proved as a law over any trace: the stream emits the fetch result only when it arrives before the first non-null push, then every non-null push in order, and nothing after the consumer unsubscribes. The unsubscription and the teardown's later `key()` settling are separate events, so the id the teardown unregisters is the one held when that `key()` settles.
- **`Account`** (`sdks/hydra-ts/src/types/account.ts`). Covers:
  - mandatory versus optional key resolution;
  - `info`;
  - `bal`, which parses the decimal balance text with `BigInt`. A round trip is proved: the decimal text of any integer parses back to it;
  - `onChange`, whose registration and disposal wait on one shared promise. It is proved never to leak its listener, although every disposer call unregisters again.
- **Fee arithmetic** (`sdks/hydra-math-rs/src/programs/liquidity_pools/fees.rs`). `calculate_fee` is modelled over explicit u128/u64 ranges, with its zero case, its overflow case and the truncating `as u64` cast. Its unit tests are proved. Further facts are proved. At a rate of at most one, any fee returned for u128 operands never exceeds the amount. On u64 operands no overflow is possible, and at a rate of at most one with a non-zero numerator the fee is the exact, untruncated floor quotient.
- **Swap instruction** (`programs/hydra-liquidity-pools/src/instructions/swap.rs`). Covers:
  - the validators `check_slippage`, `check_mint_addresses` and `post_transfer_checks`;
  - `handle`. It selects the direction, checks slippage before any transfer, makes the two transfers in order, and checks the vaults against the calculator's result.
  - Token accounts are a map from address to (mint, amount). SPL transfers are balance updates on that map. The swap calculator is a function parameter returning the four amounts the instruction reads.
  - `handle` is implemented as a method with the source's sequential `if` blocks and early returns. It is proved equal to a pure definition, and the properties are lemmas about that definition.
- **Sign-magnitude arithmetic and the integer square root** (`libs/math/hmm/tests/hydra_math_tests.rs`). The implementation file is not part of this model, so these are specifications pinned by the tests:
  - `signed_addition` and `signed_mul` over (magnitude, is negative), proved to agree with integer addition and multiplication;
  - `sqrt` as the rounded-to-nearest root, proved unique and shown to give every tested value, including `sqrt(u128::MAX) = 2^64`.

Files:
- `wrappers.dfy` holds Option and Result.
- `ledger.dfy` holds keys, account records, snapshots and parsers.
- `ints.dfy` holds the u64/u128 ranges and a few arithmetic lemmas.
- `account_loader.dfy`, `account_stream.dfy`, `account.dfy`, `fees.dfy`, `swap.dfy` and `hmm_math.dfy` hold the five pieces.

### Where the code and the design intent differ

A reader would expect a loader subscription never to leak, and its disposal to be idempotent and final. The code does not fully deliver this, and the model follows the code:

- `AccountLoader.onChange`:
  - Its disposer waits on a fresh `getKey()` promise, not on the registration's promise. If that promise settles first, `id` is still undefined and nothing is unregistered. The listener registered afterwards keeps delivering changes (`OnChangeDisposeBeforeRegistrationKeepsListener`).
  - With a concrete key, `getKey` returns `Promise.resolve(key)`, and such promises settle in call order: the registration's settles first, so this leak needs a getter whose later call settles before an earlier one.
  - Calling the disposer twice unregisters the id twice.
- `stream`: the teardown also waits on a fresh `key()`. If it settles before the subscription returns, `removeAccountChangeListener(undefined)` is called and the later listener stays registered (`StreamTeardownBeforeSubscribeKeepsListener`). As with `onChange`, this needs a getter whose later call settles before an earlier one. Emissions after the unsubscription are still dropped, because the observable's subscriber is closed at once (`StreamUnsubscribeIsFinal`).
- `Account.onChange`: it chains both the registration and the disposer on the same `resolvedKey` promise, so every disposal runs after registration and removes the listener (`AccountOnChangeDisposeAlwaysRemoves`). Disposal is not idempotent: each disposer call unregisters the same id again.

## Model

| member | source | states |
|---|---|---|
| Ledger.Decode | sdks/hydra-ts/src/utils/account-loader/index.ts:28 | the decoded record carries `parser(raw)` as `data` and every other field of the raw record unchanged |
| AccountLoader.GetKey | sdks/hydra-ts/src/utils/account-loader/index.ts:17-18 | no ensures: a concrete key is returned as it is and a getter yields what it settles to; AccountLoader.Key characterises it |
| AccountLoader.Key | sdks/hydra-ts/src/utils/account-loader/index.ts:17-32 | a loader built from a concrete key returns exactly that key; a getter's loader returns what the getter settles to |
| AccountLoader.Info | sdks/hydra-ts/src/utils/account-loader/index.ts:20-29 | fails with an undefined key exactly when the key is undefined; fails with "info couldnt be fetched" exactly when the account is absent; otherwise returns the fetched record with only `data` replaced by the parsed value |
| AccountLoader.ChangeStep | sdks/hydra-ts/src/utils/account-loader/index.ts:43-58 | no ensures: the effect of one `onChange` callback on the closure; the AccountLoader.OnChange lemmas characterise it |
| AccountLoader.ChangeRun | sdks/hydra-ts/src/utils/account-loader/index.ts:37-60 | no ensures: the closure after a trace of callbacks; the AccountLoader.OnChange lemmas characterise it |
| AccountLoader.OnChangeForwardsEachChange | sdks/hydra-ts/src/utils/account-loader/index.ts:43-52 | after the key resolves and the listener is registered, every change reaches the callback as `accountParser(raw)`, in order |
| AccountLoader.OnChangeUndefinedKeyRegistersNothing | sdks/hydra-ts/src/utils/account-loader/index.ts:43-44 | with an undefined key no listener is registered, nothing is delivered and nothing is removed, whatever events follow |
| AccountLoader.OnChangeDisposeWithoutIdRemovesNothing | sdks/hydra-ts/src/utils/account-loader/index.ts:54-58 | the disposer unregisters nothing while `id` is undefined |
| AccountLoader.OnChangeDisposeRemovesListener | sdks/hydra-ts/src/utils/account-loader/index.ts:54-58 | disposed after registration: the assigned id is unregistered and later changes are not delivered |
| AccountLoader.OnChangeDisposeBeforeRegistrationKeepsListener | sdks/hydra-ts/src/utils/account-loader/index.ts:43-59 | when the disposer's fresh `getKey()` settles before the registration's, nothing is unregistered and the listener keeps delivering every change |
| AccountLoader.ChangeSubscription.OnKeyResolved | sdks/hydra-ts/src/utils/account-loader/index.ts:43-52 | the closure state becomes the step of a key-resolved event: `id` is assigned only for a defined key |
| AccountLoader.ChangeSubscription.OnChanged | sdks/hydra-ts/src/utils/account-loader/index.ts:47-49 | the closure state becomes the step of a change event: the parsed record is delivered only while registered |
| AccountLoader.ChangeSubscription.OnDisposerKeyResolved | sdks/hydra-ts/src/utils/account-loader/index.ts:54-59 | the closure state becomes the step of the disposer's callback: the id is unregistered only if one was assigned |
| AccountLoader.PDA | sdks/hydra-ts/src/utils/account-loader/index.ts:143-153 | the loader's key is the derived address, and `info` fails exactly when no account sits at that address |
| AccountLoader.AssociatedToken | sdks/hydra-ts/src/utils/account-loader/index.ts:137-141 | the loader's key is the wallet's associated token address for the mint |
| AccountLoader.PDAReadsDerivedAddress | sdks/hydra-ts/src/utils/account-loader/index.ts:143-153 | a derived-address loader reads exactly what a loader given the derived key reads |
| AccountStream.StreamStep | sdks/hydra-ts/src/utils/account-loader/index.ts:63-101 | no ensures: the effect of one callback of `stream` on the closure; AccountStream.RunFromEmissions and the Stream lemmas characterise it |
| AccountStream.RunFrom | sdks/hydra-ts/src/utils/account-loader/index.ts:62-102 | no ensures: the closure after a trace of callbacks; AccountStream.RunFromEmissions characterises it |
| AccountStream.Run | sdks/hydra-ts/src/utils/account-loader/index.ts:61-103 | no ensures: the closure of a fresh subscription after a trace; AccountStream.StreamEmitsFetchThenPushes characterises it |
| AccountStream.RunFromEmissions | sdks/hydra-ts/src/utils/account-loader/index.ts:61-103 | from any state, the emissions are: unchanged when closed; otherwise the earlier ones, then (while `fetchingInfo` holds) the fetch results before the first non-null push, then every non-null push, all up to the first unsubscription |
| AccountStream.StreamEmitsFetchThenPushes | sdks/hydra-ts/src/utils/account-loader/index.ts:63-95 | the race law: for any trace, the stream emits the fetch results that come before the first non-null push, then every non-null push in order, and nothing after the unsubscription |
| AccountStream.StreamFetchFirstIsEmittedFirst | sdks/hydra-ts/src/utils/account-loader/index.ts:64-75 | a fetch result arriving before any push or unsubscription is the first emission, followed by every later non-null push |
| AccountStream.StreamPushFirstDropsFetch | sdks/hydra-ts/src/utils/account-loader/index.ts:69-91 | a non-null push arriving first is the first emission, and no fetch result is ever emitted afterwards |
| AccountStream.StreamFetchAfterPushIsDropped | sdks/hydra-ts/src/utils/account-loader/index.ts:69-86 | a fetch result after a non-null push leaves the whole state as if it had never arrived |
| AccountStream.StreamIgnoresNullPush | sdks/hydra-ts/src/utils/account-loader/index.ts:85 | a null push leaves the whole state as if it had never arrived |
| AccountStream.StreamSwallowsFetchError | sdks/hydra-ts/src/utils/account-loader/index.ts:76-78 | a failed fetch leaves the whole state as if it had never happened |
| AccountStream.StreamUnsubscribeIsFinal | sdks/hydra-ts/src/utils/account-loader/index.ts:62-101 | after the first unsubscription the subscriber is closed and nothing more is emitted |
| AccountStream.StreamTeardownRemovesOnce | sdks/hydra-ts/src/utils/account-loader/index.ts:97-101 | the teardown unregisters exactly once, passing the id held when its `key()` settles, and nothing is unregistered before or after |
| AccountStream.StreamTeardownSeesLaterId | sdks/hydra-ts/src/utils/account-loader/index.ts:64-101 | on the trace [Unsubscribe, FetchOk(raw), Subscribed(i), TeardownKeyResolved] from a fresh subscription, the fetch result is dropped and `i`, assigned after the unsubscription, is the id unregistered (the general fact is StreamTeardownRemovesOnce) |
| AccountStream.StreamTeardownBeforeSubscribeKeepsListener | sdks/hydra-ts/src/utils/account-loader/index.ts:79-101 | on the trace [Unsubscribe, TeardownKeyResolved, Subscribed(i)] from a fresh subscription, the teardown unregisters `undefined` and `i` stays registered |
| AccountStream.StreamTeardownAfterSubscribeRemovesId | sdks/hydra-ts/src/utils/account-loader/index.ts:79-101 | on the trace [Subscribed(i), Unsubscribe, TeardownKeyResolved] from a fresh subscription, the teardown unregisters `i` |
| AccountStream.Stream.OnFetchOk | sdks/hydra-ts/src/utils/account-loader/index.ts:64-75 | the state becomes the step of a fetch result: emitted only while `fetchingInfo` holds and the subscriber is open |
| AccountStream.Stream.OnFetchErr | sdks/hydra-ts/src/utils/account-loader/index.ts:76-78 | a rejected fetch changes nothing |
| AccountStream.Stream.OnSubscribed | sdks/hydra-ts/src/utils/account-loader/index.ts:81-82 | the state becomes the step of the subscription returning: `id` is assigned |
| AccountStream.Stream.OnPush | sdks/hydra-ts/src/utils/account-loader/index.ts:84-93 | the state becomes the step of a push: a non-null record clears `fetchingInfo` and is emitted parsed while the subscriber is open |
| AccountStream.Stream.OnUnsubscribe | sdks/hydra-ts/src/utils/account-loader/index.ts:97-98 | the state becomes the step of an unsubscription: the subscriber closes and, the first time only, the teardown's `key()` is pending |
| AccountStream.Stream.OnTeardownKeyResolved | sdks/hydra-ts/src/utils/account-loader/index.ts:98-100 | the state becomes the step of the teardown's `key()` settling: a pending teardown unregisters the current `id` |
| Account.Key | sdks/hydra-ts/src/types/account.ts:12-20 | an optional read returns the settled key as it is; a mandatory read fails exactly when the key is undefined, with "Key was undefined after await" |
| Account.Info | sdks/hydra-ts/src/types/account.ts:21-24 | an undefined key fails; a defined key returns the account record, or null when no account exists |
| Account.ParseBigInt | sdks/hydra-ts/src/types/account.ts:33 | only a syntax error can fail, and a string of decimal digits parses to its value |
| Account.DecimalDigits | sdks/hydra-ts/src/types/account.ts:33 | the decimal text of a natural number is a non-empty digit string whose value is that number |
| Account.BigIntRoundTrip | sdks/hydra-ts/src/types/account.ts:33 | `BigInt` reads back the decimal text of every integer exactly |
| Account.Bal | sdks/hydra-ts/src/types/account.ts:26-34 | an undefined key fails; a key with no token account fails; otherwise the result is the parse of the reported amount text |
| Account.BalReadsDecimalAmount | sdks/hydra-ts/src/types/account.ts:26-34 | a balance reported as the decimal text of `n` reads as `n` |
| Account.ListenStep | sdks/hydra-ts/src/types/account.ts:42-52 | no ensures: the effect of one event on the `onChange` closure; Account.AccountOnChangeDisposeAlwaysRemoves and the other onChange lemmas characterise it |
| Account.ListenRun | sdks/hydra-ts/src/types/account.ts:36-53 | no ensures: the closure after a trace of events; Account.AccountOnChangeDisposeAlwaysRemoves characterises it |
| Account.AccountOnChangeDisposeAlwaysRemoves | sdks/hydra-ts/src/types/account.ts:42-52 | whether the disposer is called before or after the key settles, every call unregisters the one registered id, so the listener never leaks |
| Account.AccountOnChangeNeedsKey | sdks/hydra-ts/src/types/account.ts:42-46 | with an undefined key nothing is ever registered, delivered or unregistered |
| Account.AccountOnChangeForwardsEachChange | sdks/hydra-ts/src/types/account.ts:45 | once registered, the callback receives every raw change in order |
| Account.Listener.OnKeySettled | sdks/hydra-ts/src/types/account.ts:43-48 | the state becomes the step of `resolvedKey` settling: register on a defined key, then run the queued disposer callbacks against the new id |
| Account.Listener.OnChanged | sdks/hydra-ts/src/types/account.ts:45 | the state becomes the step of a change: delivered only while registered |
| Account.Listener.OnDisposeCalled | sdks/hydra-ts/src/types/account.ts:47-52 | the state becomes the step of a disposer call: queued before settlement, otherwise the assigned id is unregistered |
| Ints.AsU64 | sdks/hydra-math-rs/src/programs/liquidity_pools/fees.rs:14 | `as u64` keeps the low 64 bits and is the identity on values that fit |
| Fees.CheckedMul | sdks/hydra-math-rs/src/programs/liquidity_pools/fees.rs:11 | fails exactly when the product exceeds u128, and otherwise is the product |
| Fees.CheckedDiv | sdks/hydra-math-rs/src/programs/liquidity_pools/fees.rs:12 | fails exactly on a zero divisor, and otherwise is the floor quotient |
| Fees.CalculateFee | sdks/hydra-math-rs/src/programs/liquidity_pools/fees.rs:1-15 | a zero numerator or denominator gives 0; otherwise the result is None exactly when the product overflows u128, and is the floor quotient modulo 2^64 when it exists |
| Fees.CalculateFeeTests | sdks/hydra-math-rs/src/programs/liquidity_pools/fees.rs:21-61 | the six unit-test values hold |
| Fees.FeeDefinedForU64Operands | sdks/hydra-math-rs/src/programs/liquidity_pools/fees.rs:10-12 | with a u64 amount and numerator the product cannot overflow, so a fee is always returned |
| Fees.FeeAtMostAmountU128 | sdks/hydra-math-rs/src/programs/liquidity_pools/fees.rs:1-15 | on u128 operands at a rate of at most one, any fee returned does not exceed the amount |
| Fees.FeeAtMostAmount | sdks/hydra-math-rs/src/programs/liquidity_pools/fees.rs:10-14 | at a rate of at most one on u64 operands, the fee is the exact floor of amount × numerator / denominator, it is not truncated, and it never exceeds the amount |
| Fees.FeeCastTruncates | sdks/hydra-math-rs/src/programs/liquidity_pools/fees.rs:14 | the quotients 2^64 (from `CalculateFee(2^64, 1, 1)`) and 2^64 + 7 (from `CalculateFee(2^64 + 7, 3, 3)`) come back as 0 and 7; the general law is the `% 2^64` in Fees.CalculateFee's ensures |
| Swap.CheckSlippage | programs/hydra-liquidity-pools/src/instructions/swap.rs:311-333 | Ok exactly when the output reaches the minimum and the input does not exceed `amount_in`; otherwise `SlippageExceeded` |
| Swap.HandleSlippageDependsOnlyOnOut | programs/hydra-liquidity-pools/src/instructions/swap.rs:220-248 | with the transfer-in amount equal to `amount_in`, the check passes exactly when the output reaches the minimum |
| Swap.CheckMintAddresses | programs/hydra-liquidity-pools/src/instructions/swap.rs:155-181 | Ok exactly when both the to-mint and the from-mint are each one of the pool's two mints; otherwise `InvalidMintAddress` |
| Swap.CheckMintAddressesAllowsSameMint | programs/hydra-liquidity-pools/src/instructions/swap.rs:155-181 | the check does not require the two mints to differ |
| Swap.PostTransferChecks | programs/hydra-liquidity-pools/src/instructions/swap.rs:79-103 | Ok exactly when the x vault holds `x_new_up` and the y vault holds `y_new_up`; otherwise `InvalidVaultToSwapResultAmounts` |
| Swap.TokenTransfer | programs/hydra-liquidity-pools/src/instructions/swap.rs:252-265 | fails exactly on a missing account, insufficient funds or a destination overflow; otherwise debits the source, credits the destination, keeps every mint, and leaves all other accounts unchanged |
| Swap.Input | programs/hydra-liquidity-pools/src/instructions/swap.rs:184-216 | no ensures: the calculator input read from the two vaults and the pool state |
| Swap.Leg | programs/hydra-liquidity-pools/src/instructions/swap.rs:240-265 | keeps every account address and every mint; Swap.LegSlippageFirst and Swap.LegMovesBalances characterise the rest |
| Swap.Branch | programs/hydra-liquidity-pools/src/instructions/swap.rs:232-302 | keeps every account address; Swap.HandleXToY and Swap.HandleYToX characterise the rest |
| Swap.HandleExecution | programs/hydra-liquidity-pools/src/instructions/swap.rs:183-308 | keeps every account address; the Swap.Handle lemmas characterise the rest |
| Swap.LegSlippageFirst | programs/hydra-liquidity-pools/src/instructions/swap.rs:243-256 | a failed slippage check returns `SlippageExceeded` with no token moved |
| Swap.LegMovesBalances | programs/hydra-liquidity-pools/src/instructions/swap.rs:243-265 | over four distinct accounts a leg succeeds exactly when slippage passes and both transfers are covered; it then moves `amount_in` into the vault and the output to the user, keeps the total, and touches nothing else |
| Swap.HandleRejectsXWithoutY | programs/hydra-liquidity-pools/src/instructions/swap.rs:233-238 | from-mint x with a to-mint other than y returns `InvalidMintAddress` before any transfer |
| Swap.HandleRejectsYWithoutX | programs/hydra-liquidity-pools/src/instructions/swap.rs:269-274 | from-mint y with a to-mint other than x returns `InvalidMintAddress` before any transfer |
| Swap.HandleXToY | programs/hydra-liquidity-pools/src/instructions/swap.rs:232-305 | an x-to-y swap is the x-to-y leg paying out `delta_y_down`, followed by the vault check against the x-to-y result |
| Swap.HandleYToX | programs/hydra-liquidity-pools/src/instructions/swap.rs:268-305 | a y-to-x swap is the y-to-x leg paying out `delta_x_down` from the x vault, followed by the vault check against the y-to-x result |
| Swap.HandleUnknownMintChecksDefault | programs/hydra-liquidity-pools/src/instructions/swap.rs:218-305 | a from-mint matching neither pool mint moves nothing, and the default result is checked, so the swap succeeds only when both vaults are empty |
| Swap.HandleSuccessMatchesResult | programs/hydra-liquidity-pools/src/instructions/swap.rs:240-305 | a successful x-to-y swap met the minimum output and leaves the vaults holding exactly the calculator's new amounts |
| Swap.SwapInstruction.Transfer | programs/hydra-liquidity-pools/src/instructions/swap.rs:252-256 | the accounts become the transfer's result on success and stay as they were on failure |
| Swap.SwapInstruction.Handle | programs/hydra-liquidity-pools/src/instructions/swap.rs:183-308 | the sequential implementation returns the outcome and leaves the accounts exactly as the pure definition of `handle` says |
| HmmMath.SignedAddition | libs/math/hmm/tests/hydra_math_tests.rs:142-239 | the result stands for the integer sum; equal signs add the magnitudes and keep the sign; opposite signs give the difference with the sign of the larger magnitude; an exact cancellation is non-negative zero |
| HmmMath.SignedAdditionTests | libs/math/hmm/tests/hydra_math_tests.rs:142-239 | the eight test cases hold |
| HmmMath.SignedAdditionCommutes | libs/math/hmm/tests/hydra_math_tests.rs:168-214 | operand order does not matter, signed zeros included |
| HmmMath.SignedMul | libs/math/hmm/tests/hydra_math_tests.rs:241-290 | the result stands for the integer product of the operands, and it is marked negative exactly when one operand is |
| HmmMath.SignedMulTests | libs/math/hmm/tests/hydra_math_tests.rs:241-290 | the four test cases hold |
| HmmMath.SignedMulCommutes | libs/math/hmm/tests/hydra_math_tests.rs:255-277 | operand order does not matter |
| HmmMath.RoundedSqrtUnique | libs/math/hmm/tests/hydra_math_tests.rs:34-50 | at most one number is the rounded square root of a given value |
| HmmMath.Sqrt | libs/math/hmm/tests/hydra_math_tests.rs:34-50 | the result is the square root rounded to the nearest integer |
| HmmMath.SqrtIsTheRoundedRoot | libs/math/hmm/tests/hydra_math_tests.rs:34-50 | any rounded root is the value `sqrt` returns |
| HmmMath.SqrtOfSquare | libs/math/hmm/tests/hydra_math_tests.rs:37-46 | every perfect square gets its exact root |
| HmmMath.SqrtPerfectSquareTests | libs/math/hmm/tests/hydra_math_tests.rs:37-46 | the three tested perfect squares give their tested roots |
| HmmMath.SqrtOfU128Max | libs/math/hmm/tests/hydra_math_tests.rs:48-49 | `sqrt(u128::MAX)` is 2^64, one more than the floor root |

## Left out

- Network, clocks and promise scheduling: the connection's `getAccountInfo`, `onAccountChange` and `getTokenAccountBalance` are a snapshot map, handed-out ids and an event trace. Which orders of events are possible is not modelled; every trace is allowed.
- The stream: the fetch result's own `await key()` is folded into its FetchOk event, so a fetch whose `key()` settles after a push is not told apart from one arriving after it.
- The stream's push handler clears `fetchingInfo` on arrival but calls `next` only after its own `await key()`. Both are folded into the Push event: a push whose `key()` settles after the unsubscription, or two pushes whose `key()` calls settle out of order, are not modelled.
- RxJS machinery and `console.log` are left out. Only their effect is kept: a closed subscriber ignores `next`, and teardown runs once.
- The stream with an undefined key is left out: `pubkey` is a defined key. With an undefined key the source's fetch rejects and its `onAccountChange(undefined)` throws inside a `then`.
- Parser exceptions are left out: `accountParser` is a total function.
- The optional `commitment` argument of `info`, `onChange` and `stream` (index.ts:20, 37, 61), and of `Account.info`, `bal` and `onChange`, is dropped. The snapshot map stands for the ledger at one commitment level. `stream` passes `commitment` to its fetch (index.ts:64) but not to its `onAccountChange` (index.ts:82-94), so the fetch and the pushes may be read at different levels. The race law does not tell these apart.
- AccountLoader.Key: each `getKey()` call is assumed to settle to the same value. A getter that returns different keys on different calls is not modelled.
- AccountLoader.GetKey / Account.Key: a getter or key promise that rejects is not modelled. This covers a rejecting `ctx.utils.getPDA` or `findAssociatedTokenAddress` (index.ts:139, 150) and a rejecting `_key` promise (account.ts:14). In the code, `key()`, `info()` and `bal()` then reject with that error; `onChange` registers no listener, and `stream` swallows the failed fetch and never subscribes. The key sources settle either to a key or to undefined. The event traces still cover the listener side, because those events simply never occur.
- `parser()` and `ctx()` only return the closure's arguments; they are not modelled.
- `Token`, `Mint`, `PDAToken` and `PDAMint` are the same `Loader` with a different parser:
  - `TokenAccount.Parser` and `TokenMint.Parser` are not part of this model.
  - `withBalance` and `withBump` are not part of this model; only the loader they wrap is.
  - `ctx.utils.getPDA` and `findAssociatedTokenAddress` are function parameters.
- Account.ParseBigInt: the leading and trailing whitespace and the `0x`/`0o`/`0b` prefixes that JavaScript's `BigInt` also accepts are not modelled. The RPC's amount text never contains them.
- Swap:
  - The `Swap` account-constraint struct and its seeds, the CPI contexts, signer seeds and `msg!` logging are left out.
  - The swap calculator and `Decimal` are not part of this model. The calculator is a function of the vault amounts, pool parameters, oracle price and amount; its decimal scale of 6 is not modelled.
  - `check_mint_addresses` is not called from `handle` in this file. It is modelled on its own.
- Swap.TokenTransfer: the SPL token program's own checks on transfer authority, frozen accounts and matching mints are not modelled. Only missing accounts, insufficient funds and destination overflow fail.
- Swap.HandleExecution: the accounts it returns are the state as the instruction leaves it, including the first transfer when the second one fails. The Solana runtime discards all of an instruction's writes when it returns an error; that rollback is not modelled.
- Swap.HandleSuccessMatchesResult, Swap.HandleXToY and Swap.HandleYToX are stated for pools whose two mints differ. With equal mints both direction blocks of `handle` run, which the general definition covers.
- HmmMath: magnitudes are natural numbers. The U256 fixed-point representation of `PreciseNumber` and the rounding of its multiplication are not modelled. The `log`, `checked_pow_fraction` and precise-storage tests use approximate comparisons and are left out.
- HmmMath.Sqrt: the tests are equally consistent with a ceiling square root; both agree on every tested value. Rounding to nearest is the reading chosen.
- HmmMath.SignedAddition: the tests pin only -1 + 1 for cancellation. That 1 + -1 also yields non-negative zero is a generalisation of that one case. Negative zero as an operand is also a reading: `-0 + -0` is taken as `(0, negative)`, following the equal-signs rule.
- HmmMath.SignedMul: the tests pin no zero operand. The sign rule is read as applying to zero too, so `-0 × 3` is `(0, negative)`; the integer value is zero either way.
- Swap.HandleUnknownMintChecksDefault: `SwapResult::default()` is taken to give zero for all four amounts that `handle` reads through `x_new_up()` and the other accessors. The `Decimal` accessors are not part of this model.
- `main.ts`, the staking SDK, the UI pages and the integration tests are outside the modelled core.
