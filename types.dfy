/** The record shapes of the fund catalogue (packages/frontend/src/types/rmf.ts). */
module Types {

  datatype Option<+T> = None | Some(value: T)

  /** One fund as the frontend holds it. Numbers are reals; the four trailing
      metrics are optional and unused by the engine. */
  datatype Fund = Fund(
    id: string,
    name: string,
    fundCode: string,
    company: string,
    nav: real,
    navDate: string,
    expenseRatio: real,
    return1Y: real,
    return3Y: real,
    return5Y: real,
    risk: string,
    category: string,
    minInvestment: real,
    managementFee: real,
    trusteeFee: real,
    custodianFee: real,
    totalExpenseRatio: real,
    benchmark: string,
    inceptionDate: string,
    fundSize: real,
    dividendYield: Option<real>,
    volatility: Option<real>,
    sharpeRatio: Option<real>,
    maxDrawdown: Option<real>)

  /** Filter criteria: every field may be absent. A present field whose value
      is falsy in JavaScript ('' or 0) imposes no constraint either. */
  datatype FilterOption = FilterOption(
    category: Option<string>,
    company: Option<string>,
    risk: Option<string>,
    minInvestment: Option<real>)

  const NoFilters := FilterOption(None, None, None, None)

  /** The ten keys of RMFComparisonCriteria, plus any other string the
      sort engine may be handed at run time. */
  datatype SortKey =
    | ExpenseRatio | Return1Y | Return3Y | Return5Y | Risk
    | FundSize | ManagementFee | MinInvestment | Name | Company
    | Unrecognised(key: string)

  datatype SortDirection = Asc | Desc

  datatype SortOption = SortOption(displayLabel: string, value: SortKey, direction: SortDirection)

  /** The three normalised components of a value score, shown on a fund's
      radar chart. */
  datatype Radar = Radar(pastNorm: real, sharpeNorm: real, drawdownNorm: real)
}
