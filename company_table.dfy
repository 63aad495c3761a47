/**
 * The affected-companies table: a search over ticker and company name, sorted by impact
 * (largest first) or by ticker (ascending), with the header click that switches the order.
 */
module CompanyTable {
  import Text
  import Lists

  /** One row; `impact` is the model's exact stand-in for the floating-point score. */
  datatype Company = Company(ticker: string, company: string, impact: real, change: string)

  datatype SortMode = ByImpact | ByTicker

  /** The search: ticker or company name contains the term, ignoring case. */
  predicate Matches(c: Company, searchTerm: string) {
    || Text.Contains(Text.Lower(c.ticker), Text.Lower(searchTerm))
    || Text.Contains(Text.Lower(c.company), Text.Lower(searchTerm))
  }

  /** The comparator: `b.impact - a.impact` by impact, `a.ticker.localeCompare(b.ticker)` by ticker. */
  function Before(sortBy: SortMode): (Company, Company) -> bool {
    match sortBy
    case ByImpact => (a: Company, b: Company) => a.impact >= b.impact
    case ByTicker => (a: Company, b: Company) => Text.StrLe(a.ticker, b.ticker)
  }

  /** The search as the predicate `filter` receives. */
  function SearchFilter(searchTerm: string): Company -> bool {
    (c: Company) => Matches(c, searchTerm)
  }

  /** `filtered`. */
  function Filtered(companies: seq<Company>, searchTerm: string, sortBy: SortMode): seq<Company> {
    Lists.Sort(Lists.Filter(companies, SearchFilter(searchTerm)), Before(sortBy))
  }

  lemma BeforeIsTotalPreorder(sortBy: SortMode)
    ensures Lists.TotalPreorder(Before(sortBy))
  {
    if sortBy == ByTicker {
      forall a: Company, b: Company ensures Text.StrLe(a.ticker, b.ticker) || Text.StrLe(b.ticker, a.ticker) {
        Text.StrLeTotal(a.ticker, b.ticker);
      }
      forall a: Company, b: Company, c: Company | Text.StrLe(a.ticker, b.ticker) && Text.StrLe(b.ticker, c.ticker)
        ensures Text.StrLe(a.ticker, c.ticker)
      {
        Text.StrLeTransitive(a.ticker, b.ticker, c.ticker);
      }
    }
  }

  /** Rows are in non-increasing impact order, or in ascending ticker order. */
  ghost predicate InOrder(rows: seq<Company>, sortBy: SortMode) {
    match sortBy
    case ByImpact => forall i, j :: 0 <= i < j < |rows| ==> rows[i].impact >= rows[j].impact
    case ByTicker => forall i, j :: 0 <= i < j < |rows| ==> Text.StrLe(rows[i].ticker, rows[j].ticker)
  }

  /**
   * A company is shown, as often as it is given, exactly when it matches the search;
   * the rows come in the chosen order.
   */
  lemma FilteredSpec(companies: seq<Company>, searchTerm: string, sortBy: SortMode)
    ensures var rows := Filtered(companies, searchTerm, sortBy);
      && (forall c :: multiset(rows)[c] == if Matches(c, searchTerm) then multiset(companies)[c] else 0)
      && InOrder(rows, sortBy)
  {
    BeforeIsTotalPreorder(sortBy);
    Lists.FilterCounts(companies, SearchFilter(searchTerm));
    Lists.SortSorted(Lists.Filter(companies, SearchFilter(searchTerm)), Before(sortBy));
  }

  /** An empty search shows every company. */
  lemma EmptySearchShowsAll(companies: seq<Company>, sortBy: SortMode)
    ensures multiset(Filtered(companies, "", sortBy)) == multiset(companies)
  {
    forall c: Company ensures Matches(c, "") {
      assert Text.OccursAt(Text.Lower(c.ticker), Text.Lower(""), 0);
    }
    FilteredSpec(companies, "", sortBy);
  }

  /** The header click. */
  function ToggledSort(sortBy: SortMode): (r: SortMode)
    ensures r != sortBy
  {
    if sortBy == ByImpact then ByTicker else ByImpact
  }

  /** Two header clicks restore the order. */
  lemma ToggleTwiceRestores(sortBy: SortMode)
    ensures ToggledSort(ToggledSort(sortBy)) == sortBy
  {
  }

  /** The impact cell's colour and sign. */
  datatype ImpactCell = ImpactCell(colour: string, prefix: string)

  function ImpactCellOf(impact: real): (cell: ImpactCell)
    ensures cell.prefix == "+" <==> impact > 0.0
    ensures cell.prefix == "" <==> impact <= 0.0
    ensures cell.colour == "text-green-600" <==> impact > 0.0
    ensures cell.colour == "text-red-600" <==> impact <= 0.0
  {
    if impact > 0.0 then ImpactCell("text-green-600", "+") else ImpactCell("text-red-600", "")
  }

  /** The table's own state. */
  class CompanyTableView {
    var searchTerm: string
    var sortBy: SortMode

    constructor ()
      ensures searchTerm == "" && sortBy == ByImpact
    {
      searchTerm := "";
      sortBy := ByImpact;
    }

    function Rows(companies: seq<Company>): seq<Company>
      reads this
    {
      Filtered(companies, searchTerm, sortBy)
    }

    method SetSearchTerm(term: string)
      modifies this
      ensures searchTerm == term && sortBy == old(sortBy)
    {
      searchTerm := term;
    }

    method ClickImpactHeader()
      modifies this
      ensures sortBy == ToggledSort(old(sortBy)) && searchTerm == old(searchTerm)
    {
      sortBy := if sortBy == ByImpact then ByTicker else ByImpact;
    }
  }
}
