/** The broker's portfolio: the cash balance and the quantity held per symbol,
    in insertion order. */
module PortfolioDto {
  datatype Portfolio = Portfolio(cash: real, positions: seq<(string, real)>)
}
