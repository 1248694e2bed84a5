/** get_companies: the listing of all exchanges, narrowed to the stocks
    listed on HOSE, without the organisation-name columns. */
module Companies {
  import opened Outcomes
  import opened Seqs
  import opened Files
  import opened Tables

  /** One listing row, with the columns the filter and the drop touch. */
  datatype ListingRow = ListingRow(symbol: string, exchange: string, kind: string,
                                   organShortName: string, organName: string)

  /** A row of the companies reference table. */
  datatype Company = Company(symbol: string, exchange: string, kind: string)

  /** The row filter: exchange 'HSX' and type 'STOCK'. */
  predicate IsHsxStock(row: ListingRow)
  {
    row.exchange == "HSX" && row.kind == "STOCK"
  }

  function DropOrganNames(row: ListingRow): Company
  {
    Company(row.symbol, row.exchange, row.kind)
  }

  /** The companies table: every HSX stock row, in listing order, each as
      often as the listing has it, and no other row. */
  function HsxStocks(rows: seq<ListingRow>): (r: seq<ListingRow>)
    ensures IsSubsequence(r, rows)
    ensures forall row :: row in r ==> IsHsxStock(row)
    ensures forall row :: IsHsxStock(row) ==> multiset(r)[row] == multiset(rows)[row]
  {
    Filter(rows, IsHsxStock)
  }

  function Companies(rows: seq<ListingRow>): (r: seq<Company>)
    ensures |r| == |HsxStocks(rows)|
    ensures forall i :: 0 <= i < |r| ==> r[i] == DropOrganNames(HsxStocks(rows)[i])
  {
    var kept := HsxStocks(rows);
    seq(|kept|, i requires 0 <= i < |kept| => DropOrganNames(kept[i]))
  }

  const CompaniesHeader: string := "symbol,exchange,type"

  function CompanyLine(c: Company): string
  {
    CsvLine([c.symbol, c.exchange, c.kind])
  }

  function CompanyLines(cs: seq<Company>): (r: seq<string>)
    ensures |r| == |cs|
    ensures forall i :: 0 <= i < |cs| ==> r[i] == CompanyLine(cs[i])
  {
    seq(|cs|, i requires 0 <= i < |cs| => CompanyLine(cs[i]))
  }

  /** get_companies with the provider's listing as `listing`: on success the
      companies file is rewritten and the table returned; on failure one
      line is logged and the table is empty. */
  method GetCompanies(disk: Disk, listing: Outcome<seq<ListingRow>>, filePath: Path, errPath: Path,
                      stamp: string) returns (companies: seq<Company>)
    modifies disk
    ensures listing.Ok? ==>
      && companies == Companies(listing.value)
      && disk.files == AfterCsvOverwrite(old(disk.files), filePath, CompaniesHeader, CompanyLines(companies))
    ensures listing.Raise? ==>
      && companies == []
      && disk.files == AfterLogError(old(disk.files), errPath, stamp, "Error fetching companies: " + listing.error)
  {
    match listing {
      case Ok(rows) =>
        companies := Companies(rows);
        disk.WriteCsv(filePath, CompaniesHeader, CompanyLines(companies));
      case Raise(e) =>
        disk.LogError(errPath, stamp, "Error fetching companies: " + e);
        companies := [];
    }
  }

  /** A row survives the filter exactly when it is an HSX stock. */
  lemma FilterKeepsExactlyHsxStocks(rows: seq<ListingRow>, row: ListingRow)
    ensures row in HsxStocks(rows) <==> row in rows && IsHsxStock(row)
  {
    var r := HsxStocks(rows);
    assert row in r <==> row in multiset(r);
    assert row in rows <==> row in multiset(rows);
  }
}
