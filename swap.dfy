/**
 * The control logic of the liquidity pool's `swap` instruction: direction selection,
 * slippage and mint validation, the two token transfers, and the check of the vault
 * balances against the swap calculator's result. Token transfers are balance updates on
 * a map of token accounts; the swap calculator is an opaque function of its inputs.
 */
module Swap {
  import opened Wrappers
  import opened Ints
  import opened Ledger

  datatype ErrorCode = InvalidMintAddress | SlippageExceeded | InvalidVaultToSwapResultAmounts | TransferFailed

  /** Anchor's `Result<()>`. */
  datatype Outcome = Success | Failure(code: ErrorCode)

  /** The fields of the pool's state account that the swap reads. */
  datatype PoolState = PoolState(
    tokenXMint: PublicKey,
    tokenYMint: PublicKey,
    compensationParameter: nat,
    swapFeeNumerator: U64,
    swapFeeDenominator: U64)

  /** An SPL token account: its mint and its balance. */
  datatype TokenAccount = TokenAccount(mint: PublicKey, amount: U64)

  type Accounts = map<PublicKey, TokenAccount>

  /** The four amounts of a swap calculator's result that the instruction reads. */
  datatype SwapResult = SwapResult(deltaXDown: U64, deltaYDown: U64, xNewUp: U64, yNewUp: U64)

  /** `SwapResult::default()`. */
  const DefaultResult := SwapResult(0, 0, 0, 0)

  /** What the swap calculator is built from: vault amounts, pool parameters, the oracle price (always 0 here) and the input amount. */
  datatype CalcInput = CalcInput(
    x0: U64,
    y0: U64,
    compensationParameter: nat,
    oraclePrice: nat,
    swapFeeNumerator: U64,
    swapFeeDenominator: U64,
    amountIn: U64)

  /** The instruction's context: the pool, the four token accounts by address, and the calculator's two directions. */
  datatype SwapContext = SwapContext(
    pool: PoolState,
    userFromToken: PublicKey,
    userToToken: PublicKey,
    tokenXVault: PublicKey,
    tokenYVault: PublicKey,
    swapXToY: CalcInput -> SwapResult,
    swapYToX: CalcInput -> SwapResult)

  /** The four token accounts the instruction names are loaded. */
  predicate Loaded(ctx: SwapContext, accts: Accounts)
  {
    ctx.userFromToken in accts && ctx.userToToken in accts && ctx.tokenXVault in accts && ctx.tokenYVault in accts
  }

  /** `check_slippage`: the output must reach the minimum and the input must not exceed `amount_in`. */
  function CheckSlippage(amountIn: U64, minimumAmountOut: U64, transferInAmount: U64, transferOutAmount: U64): (r: Outcome)
    ensures r == Success <==> minimumAmountOut <= transferOutAmount && transferInAmount <= amountIn
    ensures r != Success ==> r == Failure(SlippageExceeded)
  {
    if transferOutAmount < minimumAmountOut then Failure(SlippageExceeded)
    else if transferInAmount > amountIn then Failure(SlippageExceeded)
    else Success
  }

  /** `check_mint_addresses`: each of the user's two mints must be one of the pool's two mints. */
  function CheckMintAddresses(pool: PoolState, userFromMint: PublicKey, userToMint: PublicKey): (r: Outcome)
    ensures r == Success <==>
      (userToMint == pool.tokenXMint || userToMint == pool.tokenYMint)
      && (userFromMint == pool.tokenXMint || userFromMint == pool.tokenYMint)
    ensures r != Success ==> r == Failure(InvalidMintAddress)
  {
    var userToTokenValid := userToMint == pool.tokenXMint || userToMint == pool.tokenYMint;
    var userFromTokenValid := userFromMint == pool.tokenXMint || userFromMint == pool.tokenYMint;
    if !(userToTokenValid && userFromTokenValid) then Failure(InvalidMintAddress) else Success
  }

  /** `post_transfer_checks`, given the reloaded vault amounts. */
  function PostTransferChecks(xVaultAmount: U64, yVaultAmount: U64, result: SwapResult): (r: Outcome)
    ensures r == Success <==> xVaultAmount == result.xNewUp && yVaultAmount == result.yNewUp
    ensures r != Success ==> r == Failure(InvalidVaultToSwapResultAmounts)
  {
    if result.xNewUp != xVaultAmount then Failure(InvalidVaultToSwapResultAmounts)
    else if result.yNewUp != yVaultAmount then Failure(InvalidVaultToSwapResultAmounts)
    else Success
  }

  /**
   * `token::transfer`: debits the source and credits the destination. It fails on a
   * missing account, insufficient funds or a destination overflow; a transfer to the
   * source itself changes nothing.
   */
  function TokenTransfer(accts: Accounts, from: PublicKey, to: PublicKey, amount: U64): (r: Result<Accounts, ErrorCode>)
    ensures r.Err? <==>
      from !in accts || to !in accts || accts[from].amount < amount
      || (from != to && accts[to].amount + amount > U64_MAX)
    ensures r.Err? ==> r.error == TransferFailed
    ensures r.Ok? ==>
      && r.value.Keys == accts.Keys
      && (forall k :: k in accts && k != from && k != to ==> r.value[k] == accts[k])
      && (forall k :: k in accts ==> r.value[k].mint == accts[k].mint)
      && (from == to ==> r.value == accts)
      && (from != to ==>
            && r.value[from].amount == accts[from].amount - amount
            && r.value[to].amount == accts[to].amount + amount)
  {
    if from !in accts || to !in accts || accts[from].amount < amount then Err(TransferFailed)
    else if from == to then Ok(accts)
    else if accts[to].amount + amount > U64_MAX then Err(TransferFailed)
    else
      var debited := accts[from := accts[from].(amount := accts[from].amount - amount)];
      Ok(debited[to := accts[to].(amount := accts[to].amount + amount)])
  }

  /** What an instruction returns, with the token accounts as it leaves them. */
  datatype Execution = Execution(outcome: Outcome, accounts: Accounts)

  /**
   * One direction's work once its mints are confirmed: the slippage check, then
   * `amount_in` from the user to the vault receiving it, then `out` from the other
   * vault to the user. A failure stops at once, keeping the transfers already made.
   */
  function Leg(accts: Accounts, userFrom: PublicKey, vaultIn: PublicKey, vaultOut: PublicKey, userTo: PublicKey,
               amountIn: U64, minimumAmountOut: U64, out: U64): (r: Execution)
    ensures r.accounts.Keys == accts.Keys
    ensures forall k :: k in accts ==> r.accounts[k].mint == accts[k].mint
  {
    var slippage := CheckSlippage(amountIn, minimumAmountOut, amountIn, out);
    if slippage != Success then Execution(slippage, accts)
    else
      match TokenTransfer(accts, userFrom, vaultIn, amountIn)
      case Err(e) => Execution(Failure(e), accts)
      case Ok(afterIn) =>
        match TokenTransfer(afterIn, vaultOut, userTo, out)
        case Err(e) => Execution(Failure(e), afterIn)
        case Ok(afterOut) => Execution(Success, afterOut)
  }

  datatype Direction = XToY | YToX

  function SourceMint(pool: PoolState, d: Direction): PublicKey
  {
    if d == XToY then pool.tokenXMint else pool.tokenYMint
  }

  function TargetMint(pool: PoolState, d: Direction): PublicKey
  {
    if d == XToY then pool.tokenYMint else pool.tokenXMint
  }

  function SourceVault(ctx: SwapContext, d: Direction): PublicKey
  {
    if d == XToY then ctx.tokenXVault else ctx.tokenYVault
  }

  function TargetVault(ctx: SwapContext, d: Direction): PublicKey
  {
    if d == XToY then ctx.tokenYVault else ctx.tokenXVault
  }

  function Calculate(ctx: SwapContext, d: Direction, input: CalcInput): SwapResult
  {
    if d == XToY then ctx.swapXToY(input) else ctx.swapYToX(input)
  }

  /** The amount paid out: `delta_y_down` from x to y, `delta_x_down` from y to x. */
  function DeltaOut(result: SwapResult, d: Direction): U64
  {
    if d == XToY then result.deltaYDown else result.deltaXDown
  }

  /** The calculator's input, read from the vaults as loaded before any transfer. */
  function Input(ctx: SwapContext, accts: Accounts, amountIn: U64): CalcInput
    requires Loaded(ctx, accts)
  {
    CalcInput(accts[ctx.tokenXVault].amount, accts[ctx.tokenYVault].amount,
              ctx.pool.compensationParameter, 0,
              ctx.pool.swapFeeNumerator, ctx.pool.swapFeeDenominator, amountIn)
  }

  /** Where `handle` stands after a direction block: still running with its `result`, or returned with an error. */
  datatype Progress = Running(accounts: Accounts, result: SwapResult) | Stopped(error: ErrorCode, accounts: Accounts)

  /** One `if` block of `handle`: it runs when the user's from-mint is the direction's source mint. */
  function Branch(ctx: SwapContext, d: Direction, fromMint: PublicKey, toMint: PublicKey, input: CalcInput,
                  amountIn: U64, minimumAmountOut: U64, p: Progress): (r: Progress)
    ensures r.accounts.Keys == p.accounts.Keys
  {
    if p.Stopped? || fromMint != SourceMint(ctx.pool, d) then p
    else if toMint != TargetMint(ctx.pool, d) then Stopped(InvalidMintAddress, p.accounts)
    else
      var result := Calculate(ctx, d, input);
      var leg := Leg(p.accounts, ctx.userFromToken, SourceVault(ctx, d), TargetVault(ctx, d), ctx.userToToken,
                     amountIn, minimumAmountOut, DeltaOut(result, d));
      if leg.outcome.Success? then Running(leg.accounts, result) else Stopped(leg.outcome.code, leg.accounts)
  }

  /** `handle`: the x-to-y block, then the y-to-x block, then the post-transfer checks on the reloaded vaults. */
  function HandleExecution(ctx: SwapContext, accts: Accounts, amountIn: U64, minimumAmountOut: U64): (r: Execution)
    requires Loaded(ctx, accts)
    ensures r.accounts.Keys == accts.Keys
  {
    var fromMint := accts[ctx.userFromToken].mint;
    var toMint := accts[ctx.userToToken].mint;
    var input := Input(ctx, accts, amountIn);
    var afterX := Branch(ctx, XToY, fromMint, toMint, input, amountIn, minimumAmountOut, Running(accts, DefaultResult));
    var afterY := Branch(ctx, YToX, fromMint, toMint, input, amountIn, minimumAmountOut, afterX);
    match afterY
    case Stopped(e, a) => Execution(Failure(e), a)
    case Running(a, result) =>
      Execution(PostTransferChecks(a[ctx.tokenXVault].amount, a[ctx.tokenYVault].amount, result), a)
  }

  /** In `handle` the transfer-in amount is `amount_in` itself, so only the output can fail the slippage check. */
  lemma HandleSlippageDependsOnlyOnOut(amountIn: U64, minimumAmountOut: U64, out: U64)
    ensures CheckSlippage(amountIn, minimumAmountOut, amountIn, out) == Success <==> minimumAmountOut <= out
  {
  }

  /** `check_mint_addresses` accepts a swap whose two sides use the same pool mint. */
  lemma CheckMintAddressesAllowsSameMint(pool: PoolState)
    ensures CheckMintAddresses(pool, pool.tokenXMint, pool.tokenXMint) == Success
    ensures CheckMintAddresses(pool, pool.tokenYMint, pool.tokenYMint) == Success
  {
  }

  /** A failed slippage check moves no tokens. */
  lemma LegSlippageFirst(accts: Accounts, userFrom: PublicKey, vaultIn: PublicKey, vaultOut: PublicKey, userTo: PublicKey,
                         amountIn: U64, minimumAmountOut: U64, out: U64)
    requires out < minimumAmountOut
    ensures Leg(accts, userFrom, vaultIn, vaultOut, userTo, amountIn, minimumAmountOut, out)
         == Execution(Failure(SlippageExceeded), accts)
  {
  }

  /**
   * A leg over four distinct accounts succeeds exactly when the slippage check passes and
   * both transfers are covered and do not overflow; it then moves `amount_in` into the
   * vault and `out` to the user, keeps the total of the four balances, and touches nothing else.
   */
  lemma LegMovesBalances(accts: Accounts, userFrom: PublicKey, vaultIn: PublicKey, vaultOut: PublicKey, userTo: PublicKey,
                         amountIn: U64, minimumAmountOut: U64, out: U64)
    requires userFrom in accts && vaultIn in accts && vaultOut in accts && userTo in accts
    requires userFrom != vaultIn && userFrom != vaultOut && userFrom != userTo
    requires vaultIn != vaultOut && vaultIn != userTo && vaultOut != userTo
    ensures var r := Leg(accts, userFrom, vaultIn, vaultOut, userTo, amountIn, minimumAmountOut, out);
      && (r.outcome == Success <==>
            && minimumAmountOut <= out
            && amountIn <= accts[userFrom].amount && accts[vaultIn].amount + amountIn <= U64_MAX
            && out <= accts[vaultOut].amount && accts[userTo].amount + out <= U64_MAX)
      && (r.outcome == Success ==>
            && r.accounts[userFrom].amount == accts[userFrom].amount - amountIn
            && r.accounts[vaultIn].amount == accts[vaultIn].amount + amountIn
            && r.accounts[vaultOut].amount == accts[vaultOut].amount - out
            && r.accounts[userTo].amount == accts[userTo].amount + out
            && r.accounts[userFrom].amount + r.accounts[vaultIn].amount
               + r.accounts[vaultOut].amount + r.accounts[userTo].amount
               == accts[userFrom].amount + accts[vaultIn].amount + accts[vaultOut].amount + accts[userTo].amount
            && (forall k :: k in accts && k !in {userFrom, vaultIn, vaultOut, userTo} ==> r.accounts[k] == accts[k]))
  {
    if minimumAmountOut <= out {
      var first := TokenTransfer(accts, userFrom, vaultIn, amountIn);
      if first.Ok? {
        var afterIn := first.value;
        assert afterIn[vaultOut] == accts[vaultOut] && afterIn[userTo] == accts[userTo];
      }
    }
  }

  /** If the from-mint is x but the to-mint is not y, `handle` returns `InvalidMintAddress` before any transfer. */
  lemma HandleRejectsXWithoutY(ctx: SwapContext, accts: Accounts, amountIn: U64, minimumAmountOut: U64)
    requires Loaded(ctx, accts)
    requires accts[ctx.userFromToken].mint == ctx.pool.tokenXMint
    requires accts[ctx.userToToken].mint != ctx.pool.tokenYMint
    ensures HandleExecution(ctx, accts, amountIn, minimumAmountOut) == Execution(Failure(InvalidMintAddress), accts)
  {
  }

  /** If the from-mint is y but the to-mint is not x, `handle` returns `InvalidMintAddress` before any transfer. */
  lemma HandleRejectsYWithoutX(ctx: SwapContext, accts: Accounts, amountIn: U64, minimumAmountOut: U64)
    requires Loaded(ctx, accts)
    requires accts[ctx.userFromToken].mint == ctx.pool.tokenYMint
    requires accts[ctx.userToToken].mint != ctx.pool.tokenXMint
    ensures HandleExecution(ctx, accts, amountIn, minimumAmountOut) == Execution(Failure(InvalidMintAddress), accts)
  {
  }

  /**
   * An x-to-y swap in a pool whose two mints differ: slippage, then the two transfers of
   * the x-to-y leg, then the vaults are checked against the x-to-y result; the y-to-x
   * block does not run.
   */
  lemma HandleXToY(ctx: SwapContext, accts: Accounts, amountIn: U64, minimumAmountOut: U64)
    requires Loaded(ctx, accts)
    requires ctx.pool.tokenXMint != ctx.pool.tokenYMint
    requires accts[ctx.userFromToken].mint == ctx.pool.tokenXMint
    requires accts[ctx.userToToken].mint == ctx.pool.tokenYMint
    ensures var result := ctx.swapXToY(Input(ctx, accts, amountIn));
      var leg := Leg(accts, ctx.userFromToken, ctx.tokenXVault, ctx.tokenYVault, ctx.userToToken,
                     amountIn, minimumAmountOut, result.deltaYDown);
      HandleExecution(ctx, accts, amountIn, minimumAmountOut)
      == if leg.outcome.Success?
         then Execution(PostTransferChecks(leg.accounts[ctx.tokenXVault].amount, leg.accounts[ctx.tokenYVault].amount, result), leg.accounts)
         else leg
  {
  }

  /** A y-to-x swap mirrors the x-to-y one, paying out `delta_x_down` from the x vault. */
  lemma HandleYToX(ctx: SwapContext, accts: Accounts, amountIn: U64, minimumAmountOut: U64)
    requires Loaded(ctx, accts)
    requires ctx.pool.tokenXMint != ctx.pool.tokenYMint
    requires accts[ctx.userFromToken].mint == ctx.pool.tokenYMint
    requires accts[ctx.userToToken].mint == ctx.pool.tokenXMint
    ensures var result := ctx.swapYToX(Input(ctx, accts, amountIn));
      var leg := Leg(accts, ctx.userFromToken, ctx.tokenYVault, ctx.tokenXVault, ctx.userToToken,
                     amountIn, minimumAmountOut, result.deltaXDown);
      HandleExecution(ctx, accts, amountIn, minimumAmountOut)
      == if leg.outcome.Success?
         then Execution(PostTransferChecks(leg.accounts[ctx.tokenXVault].amount, leg.accounts[ctx.tokenYVault].amount, result), leg.accounts)
         else leg
  {
  }

  /**
   * A from-mint that is neither pool mint issues no transfer: the default result is
   * checked against the vaults, so the instruction succeeds only when both vaults are empty.
   */
  lemma HandleUnknownMintChecksDefault(ctx: SwapContext, accts: Accounts, amountIn: U64, minimumAmountOut: U64)
    requires Loaded(ctx, accts)
    requires accts[ctx.userFromToken].mint != ctx.pool.tokenXMint
    requires accts[ctx.userFromToken].mint != ctx.pool.tokenYMint
    ensures HandleExecution(ctx, accts, amountIn, minimumAmountOut).accounts == accts
    ensures HandleExecution(ctx, accts, amountIn, minimumAmountOut).outcome
         == PostTransferChecks(accts[ctx.tokenXVault].amount, accts[ctx.tokenYVault].amount, DefaultResult)
    ensures HandleExecution(ctx, accts, amountIn, minimumAmountOut).outcome == Success
        <==> accts[ctx.tokenXVault].amount == 0 && accts[ctx.tokenYVault].amount == 0
  {
  }

  /** A successful x-to-y swap leaves the vaults holding exactly the calculator's new amounts. */
  lemma HandleSuccessMatchesResult(ctx: SwapContext, accts: Accounts, amountIn: U64, minimumAmountOut: U64)
    requires Loaded(ctx, accts)
    requires ctx.pool.tokenXMint != ctx.pool.tokenYMint
    requires accts[ctx.userFromToken].mint == ctx.pool.tokenXMint
    requires HandleExecution(ctx, accts, amountIn, minimumAmountOut).outcome == Success
    ensures var r := HandleExecution(ctx, accts, amountIn, minimumAmountOut);
      var result := ctx.swapXToY(Input(ctx, accts, amountIn));
      && minimumAmountOut <= result.deltaYDown
      && r.accounts[ctx.tokenXVault].amount == result.xNewUp
      && r.accounts[ctx.tokenYVault].amount == result.yNewUp
  {
    if accts[ctx.userToToken].mint == ctx.pool.tokenYMint {
      HandleXToY(ctx, accts, amountIn, minimumAmountOut);
    } else {
      HandleRejectsXWithoutY(ctx, accts, amountIn, minimumAmountOut);
    }
  }

  /** The `swap` instruction over a mutable set of token accounts. */
  class SwapInstruction {
    const ctx: SwapContext
    var accounts: Accounts

    constructor(ctx: SwapContext, accounts: Accounts)
      ensures this.ctx == ctx && this.accounts == accounts
    {
      this.ctx := ctx;
      this.accounts := accounts;
    }

    /** A `token::transfer` CPI; on failure the accounts are left as they were. */
    method Transfer(from: PublicKey, to: PublicKey, amount: U64) returns (o: Outcome)
      modifies this
      ensures match TokenTransfer(old(accounts), from, to, amount)
              case Ok(a) => o == Success && accounts == a
              case Err(e) => o == Failure(e) && accounts == old(accounts)
    {
      match TokenTransfer(accounts, from, to, amount)
      case Ok(a) =>
        accounts := a;
        o := Success;
      case Err(e) =>
        o := Failure(e);
    }

    /** `handle(amount_in, minimum_amount_out)`. */
    method Handle(amountIn: U64, minimumAmountOut: U64) returns (o: Outcome)
      requires Loaded(ctx, accounts)
      modifies this
      ensures Execution(o, accounts) == HandleExecution(ctx, old(accounts), amountIn, minimumAmountOut)
    {
      ghost var start := accounts;
      var fromMint := accounts[ctx.userFromToken].mint;
      var toMint := accounts[ctx.userToToken].mint;
      var input := Input(ctx, accounts, amountIn);
      var result := DefaultResult;
      var transferInAmount := amountIn;
      var transferOutAmount: U64 := 0;
      ghost var afterX := Branch(ctx, XToY, fromMint, toMint, input, amountIn, minimumAmountOut, Running(start, DefaultResult));

      if fromMint == ctx.pool.tokenXMint {
        if toMint != ctx.pool.tokenYMint {
          return Failure(InvalidMintAddress);
        }
        result := ctx.swapXToY(input);
        transferOutAmount := result.deltaYDown;
        o := CheckSlippage(amountIn, minimumAmountOut, transferInAmount, transferOutAmount);
        if o.Failure? {
          return;
        }
        o := Transfer(ctx.userFromToken, ctx.tokenXVault, transferInAmount);
        if o.Failure? {
          return;
        }
        o := Transfer(ctx.tokenYVault, ctx.userToToken, transferOutAmount);
        if o.Failure? {
          return;
        }
      }
      assert afterX == Running(accounts, result);

      if fromMint == ctx.pool.tokenYMint {
        if toMint != ctx.pool.tokenXMint {
          return Failure(InvalidMintAddress);
        }
        result := ctx.swapYToX(input);
        transferOutAmount := result.deltaXDown;
        o := CheckSlippage(amountIn, minimumAmountOut, transferInAmount, transferOutAmount);
        if o.Failure? {
          return;
        }
        o := Transfer(ctx.userFromToken, ctx.tokenYVault, transferInAmount);
        if o.Failure? {
          return;
        }
        o := Transfer(ctx.tokenXVault, ctx.userToToken, transferOutAmount);
        if o.Failure? {
          return;
        }
      }

      o := PostTransferChecks(accounts[ctx.tokenXVault].amount, accounts[ctx.tokenYVault].amount, result);
    }
  }
}
