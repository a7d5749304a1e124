/** Account valuation against the fMint protocol: balances of collateral and
    debt tokens, token prices from the price oracle, token values, and the
    account snapshot. Each function is a fixed sequence of fallible calls into
    contract bindings; the replies those bindings give are inputs. */
module FMint {
  import opened Go
  import opened Abi

  /** The kind of a DeFi token as the caller names it. The Go type is an
      integer, so values other than the two known kinds can be passed. */
  datatype TokenType = Collateral | Debt | OtherType

  /** A binding call that returns `(*big.Int, error)`: a value, a nil value
      with no error, or an error (with a nil value). */
  datatype Reply = Value(v: nat) | Nil | Failed(e: Error)

  /** The answers of the external collaborators at the instant of the query. */
  datatype Chain = Chain(
    tokenList: Result<seq<Address>>,                   // DefiTokenList()
    minter: Outcome,                                   // fMintMinterContract()
    collateralBalance: (Address, Address) -> Reply,    // CollateralBalance(owner, token)
    debtBalance: (Address, Address) -> Reply,          // DebtBalance(owner, token)
    oracle: Outcome,                                   // priceOracleProxyContract()
    getPrice: Address -> Reply,                        // GetPrice(token)
    collateralValueOf: Address -> Reply,               // CollateralValueOf(owner)
    debtValueOf: Address -> Reply)                     // DebtValueOf(owner)

  /** The external calls, as recorded in a trace. */
  datatype Call =
    | DefiTokenList
    | MinterContract
    | CollateralBalance(owner: Address, token: Address)
    | DebtBalance(owner: Address, token: Address)
    | PriceOracle
    | GetPrice(token: Address)
    | CollateralValueOf(owner: Address)
    | DebtValueOf(owner: Address)

  /** The joined collateral and debt values of an account. */
  datatype Totals = Totals(collateral: nat, debt: nat)

  /** `types.FMintAccount`: the account's valuation snapshot. */
  datatype FMintAccount = FMintAccount(
    address: Address,
    collateralList: seq<Address>,
    debtList: seq<Address>,
    collateralValue: nat,
    debtValue: nat)

  /** The soft-zero reading of a balance or price reply: a nil value reads as
      zero, passing on whatever error came with it. */
  function Soft(reply: Reply): (r: Ret<nat>)
    ensures r.err.Some? <==> reply.Failed?
    ensures reply.Failed? ==> r.err == Some(reply.e)
    ensures reply.Value? ==> r == Ret(reply.v, None)
    ensures !reply.Value? ==> r.val == 0
  {
    match reply
    case Value(v) => Ret(v, None)
    case Nil => Ret(0, None)
    case Failed(e) => Ret(0, Some(e))
  }

  /** `FMintTokenBalance`: the owner's balance of `token`, taken from the
      collateral or the debt ledger of the minter contract by token type. */
  function TokenBalance(chain: Chain, owner: Address, token: Address, tp: TokenType): (r: Traced<Ret<nat>, Call>)
    ensures |r.calls| >= 1 && r.calls[0] == MinterContract
    ensures chain.minter.Fail? ==>
              r == Traced(Ret(0, Some(chain.minter.error)), [MinterContract])
    ensures chain.minter.Pass? && tp == Collateral ==>
              r.calls == [MinterContract, CollateralBalance(owner, token)] &&
              r.out == Soft(chain.collateralBalance(owner, token))
    ensures chain.minter.Pass? && tp == Debt ==>
              r.calls == [MinterContract, DebtBalance(owner, token)] &&
              r.out == Soft(chain.debtBalance(owner, token))
    ensures chain.minter.Pass? && tp == OtherType ==>
              r == Traced(Ret(0, None), [MinterContract])
    ensures r.out.err.Some? ==> r.out.val == 0
    ensures PriceOracle !in r.calls
  {
    match chain.minter
    case Fail(e) => Traced(Ret(0, Some(e)), [MinterContract])
    case Pass =>
      match tp
      case Collateral =>
        Traced(Soft(chain.collateralBalance(owner, token)), [MinterContract, CollateralBalance(owner, token)])
      case Debt =>
        Traced(Soft(chain.debtBalance(owner, token)), [MinterContract, DebtBalance(owner, token)])
      case OtherType =>
        Traced(Ret(0, None), [MinterContract])
  }

  /** `FMintTokenPrice`: the token's price from the price oracle; a nil price
      is zero with no error. */
  function TokenPrice(chain: Chain, token: Address): (r: Traced<Ret<nat>, Call>)
    ensures chain.oracle.Fail? ==>
              r == Traced(Ret(0, Some(chain.oracle.error)), [PriceOracle])
    ensures chain.oracle.Pass? ==> r.calls == [PriceOracle, GetPrice(token)]
    ensures chain.oracle.Pass? && chain.getPrice(token).Failed? ==>
              r.out == Ret(0, Some(chain.getPrice(token).e))
    ensures chain.oracle.Pass? && chain.getPrice(token).Nil? ==> r.out == Ret(0, None)
    ensures chain.oracle.Pass? && chain.getPrice(token).Value? ==>
              r.out == Ret(chain.getPrice(token).v, None)
  {
    match chain.oracle
    case Fail(e) => Traced(Ret(0, Some(e)), [PriceOracle])
    case Pass => Traced(Soft(chain.getPrice(token)), [PriceOracle, GetPrice(token)])
  }

  /** `FMintTokenValue`: price times balance. The first error, balance before
      price, aborts with a zero value; a balance error skips the price lookup. */
  function TokenValue(chain: Chain, owner: Address, token: Address, tp: TokenType): (r: Traced<Ret<nat>, Call>)
    ensures var b, p := TokenBalance(chain, owner, token, tp).out, TokenPrice(chain, token).out;
            && r.out.err == (if b.err.Some? then b.err else p.err)
            && (r.out.err.Some? ==> r.out.val == 0)
            && (r.out.err.None? ==> r.out.val == p.val * b.val)
    ensures TokenBalance(chain, owner, token, tp).out.err.Some? ==>
              r.calls == TokenBalance(chain, owner, token, tp).calls && PriceOracle !in r.calls
    ensures TokenBalance(chain, owner, token, tp).out.err.None? ==>
              r.calls == TokenBalance(chain, owner, token, tp).calls + TokenPrice(chain, token).calls
  {
    var balance := TokenBalance(chain, owner, token, tp);
    if balance.out.err.Some? then
      Traced(Ret(0, balance.out.err), balance.calls)
    else
      var price := TokenPrice(chain, token);
      if price.out.err.Some? then
        Traced(Ret(0, price.out.err), balance.calls + price.calls)
      else
        Traced(Ret(price.out.val * balance.out.val, None), balance.calls + price.calls)
  }

  /** `fMintAccountValue`: the joined collateral and debt values, fetched in
      the order contract, collateral, debt; the first error aborts with two
      zeros. A nil value with no error is dereferenced when the pair is
      returned, which panics. */
  function AccountValue(chain: Chain, owner: Address): (r: Traced<Exit<Ret<Totals>>, Call>)
    ensures r.calls <= [MinterContract, CollateralValueOf(owner), DebtValueOf(owner)]
    ensures r.out.Return? && r.out.value.err.Some? ==> r.out.value.val == Totals(0, 0)
    ensures chain.minter.Fail? ==>
              r == Traced(Return(Ret(Totals(0, 0), Some(chain.minter.error))), [MinterContract])
    ensures chain.minter.Pass? && chain.collateralValueOf(owner).Failed? ==>
              r.out == Return(Ret(Totals(0, 0), Some(chain.collateralValueOf(owner).e))) &&
              r.calls == [MinterContract, CollateralValueOf(owner)]
    ensures chain.minter.Pass? && !chain.collateralValueOf(owner).Failed? ==>
              r.calls == [MinterContract, CollateralValueOf(owner), DebtValueOf(owner)]
    ensures chain.minter.Pass? && !chain.collateralValueOf(owner).Failed? && chain.debtValueOf(owner).Failed? ==>
              r.out == Return(Ret(Totals(0, 0), Some(chain.debtValueOf(owner).e)))
    ensures r.out.Panic? <==>
              && chain.minter.Pass?
              && !chain.collateralValueOf(owner).Failed? && !chain.debtValueOf(owner).Failed?
              && (chain.collateralValueOf(owner).Nil? || chain.debtValueOf(owner).Nil?)
    ensures r.out.Return? && r.out.value.err.None? ==>
              && chain.collateralValueOf(owner) == Value(r.out.value.val.collateral)
              && chain.debtValueOf(owner) == Value(r.out.value.val.debt)
    ensures chain.minter.Pass? && chain.collateralValueOf(owner).Value? && chain.debtValueOf(owner).Value? ==>
              r.out == Return(Ret(Totals(chain.collateralValueOf(owner).v, chain.debtValueOf(owner).v), None))
  {
    match chain.minter
    case Fail(e) => Traced(Return(Ret(Totals(0, 0), Some(e))), [MinterContract])
    case Pass =>
      var c := chain.collateralValueOf(owner);
      if c.Failed? then
        Traced(Return(Ret(Totals(0, 0), Some(c.e))), [MinterContract, CollateralValueOf(owner)])
      else
        var d := chain.debtValueOf(owner);
        var calls := [MinterContract, CollateralValueOf(owner), DebtValueOf(owner)];
        if d.Failed? then Traced(Return(Ret(Totals(0, 0), Some(d.e))), calls)
        else if c.Nil? || d.Nil? then Traced(Panic, calls)
        else Traced(Return(Ret(Totals(c.v, d.v), None)), calls)
  }

  /** `FMintAccount`: the token list, then the joined values; either failure
      returns no account and that error. Debt tokens are the collateral list. */
  function Account(chain: Chain, owner: Address): (r: Traced<Exit<Ret<Option<FMintAccount>>>, Call>)
    ensures |r.calls| >= 1 && r.calls[0] == DefiTokenList
    ensures chain.tokenList.Err? ==>
              r == Traced(Return(Ret(None, Some(chain.tokenList.error))), [DefiTokenList])
    ensures chain.tokenList.Ok? ==> r.calls == [DefiTokenList] + AccountValue(chain, owner).calls
    ensures r.out.Panic? <==> chain.tokenList.Ok? && AccountValue(chain, owner).out.Panic?
    ensures r.out.Return? ==> (r.out.value.val.Some? <==> r.out.value.err.None?)
    ensures chain.tokenList.Ok? && AccountValue(chain, owner).out.Return? &&
            AccountValue(chain, owner).out.value.err.Some? ==>
              r.out == Return(Ret(None, AccountValue(chain, owner).out.value.err))
    ensures r.out.Return? && r.out.value.val.Some? ==>
              var a, t := r.out.value.val.value, AccountValue(chain, owner).out.value.val;
              && chain.tokenList.Ok? && AccountValue(chain, owner).out.Return?
              && a.address == owner
              && a.collateralList == chain.tokenList.value && a.debtList == a.collateralList
              && a.collateralValue == t.collateral && a.debtValue == t.debt
    ensures chain.tokenList.Ok? && AccountValue(chain, owner).out.Return? &&
            AccountValue(chain, owner).out.value.err.None? ==>
              r.out.Return? && r.out.value.err.None?
  {
    match chain.tokenList
    case Err(e) => Traced(Return(Ret(None, Some(e))), [DefiTokenList])
    case Ok(list) =>
      var value := AccountValue(chain, owner);
      var calls := [DefiTokenList] + value.calls;
      match value.out
      case Panic => Traced(Panic, calls)
      case Return(Ret(totals, err)) =>
        if err.Some? then Traced(Return(Ret(None, err)), calls)
        else Traced(Return(Ret(Some(FMintAccount(owner, list, list, totals.collateral, totals.debt)), None)), calls)
  }

  /** End to end: with every collaborator answering, a token's value is the
      exact product of the oracle's price and the ledger's balance. */
  lemma TokenValueOfReplies(chain: Chain, owner: Address, token: Address, tp: TokenType, balance: nat, price: nat)
    requires chain.minter.Pass? && chain.oracle.Pass?
    requires tp == Collateral ==> chain.collateralBalance(owner, token) == Value(balance)
    requires tp == Debt ==> chain.debtBalance(owner, token) == Value(balance)
    requires tp == OtherType ==> balance == 0
    requires chain.getPrice(token) == Value(price)
    ensures TokenValue(chain, owner, token, tp).out == Ret(price * balance, None)
  {
  }

  /** Soft zero: a nil balance or a nil price, or an unknown token type, gives
      a zero value; the error, if any, is the first hard failure. */
  lemma TokenValueSoftZero(chain: Chain, owner: Address, token: Address, tp: TokenType)
    requires chain.minter.Pass?
    requires || tp == OtherType
             || (tp == Collateral && chain.collateralBalance(owner, token).Nil?)
             || (tp == Debt && chain.debtBalance(owner, token).Nil?)
             || (chain.oracle.Pass? && chain.getPrice(token).Nil?)
    ensures TokenValue(chain, owner, token, tp).out.val == 0
  {
  }

  /** End to end: with every collaborator answering, the snapshot holds the
      owner, the token list twice, and the two joined values, after exactly
      four calls. */
  lemma AccountOfReplies(chain: Chain, owner: Address, list: seq<Address>, collateral: nat, debt: nat)
    requires chain.tokenList == Ok(list) && chain.minter.Pass?
    requires chain.collateralValueOf(owner) == Value(collateral)
    requires chain.debtValueOf(owner) == Value(debt)
    ensures Account(chain, owner) ==
              Traced(Return(Ret(Some(FMintAccount(owner, list, list, collateral, debt)), None)),
                     [DefiTokenList, MinterContract, CollateralValueOf(owner), DebtValueOf(owner)])
  {
  }
}
