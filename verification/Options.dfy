/** Option contracts, quotes and strategies (services/options/schemas.py). */
module Options {
  import opened Basics

  datatype OptionType = Call | Put

  datatype OptionSide = BuyToOpen | SellToOpen | BuyToClose | SellToClose

  /** Dates are whole seconds since an epoch. */
  datatype OptionContract = OptionContract(
    symbol: string, underlying: string, optionType: OptionType, strike: PosReal, expiration: int)

  datatype OptionQuote = OptionQuote(
    symbol: string, strike: PosReal, bid: Option<real>, ask: Option<real>, last: Option<real>, delta: Option<real>)

  datatype OptionChain = OptionChain(expiration: int, calls: seq<OptionQuote>, puts: seq<OptionQuote>)

  datatype OptionLeg = OptionLeg(
    contract: OptionContract, side: OptionSide, quantity: Pos, theoretical: real, delta: Option<real>)

  datatype OptionStrategy = OptionStrategy(
    name: string, underlying: string, legs: seq<OptionLeg>,
    netCredit: Option<real>, maxLoss: Option<real>, maxProfit: Option<real>,
    breakEven: seq<real>, probabilityOfProfit: Option<real>, daysToExpiration: Option<int>)
  {
    predicate DefinedRisk() { maxLoss.Some? && maxLoss.value >= 0.0 }
  }
}
