/** The accounts table's filters (components/tables/accounts-table.tsx): an
    ARR band, a health band, a renewal month, a segment and an AI maturity, each
    "all" or a value, applied to every row with Array.prototype.filter. */
module AccountsTable {
  import opened Text
  import DD = DashboardData

  datatype AccountRow = AccountRow(
    id: string,
    name: string,
    segment: string,
    arr: real,
    renewalDate: string,
    aiMaturity: string,
    healthScore: real)

  /** inArrBand: "0-50" is below 50,000, "50-150" up to 150,000, "150+" the rest; "all" and an
      unknown band let every value through. */
  predicate InArrBand(arr: real, band: string)
  {
    if band == "all" then true
    else if band == "0-50" then arr < 50000.0
    else if band == "50-150" then arr >= 50000.0 && arr < 150000.0
    else if band == "150+" then arr >= 150000.0
    else true
  }

  /** inHealthBand: "0-59" is below 60, "60-74" up to 75, "75-100" the rest; "all" and an unknown
      band let every score through. */
  predicate InHealthBand(score: real, band: string)
  {
    if band == "all" then true
    else if band == "0-59" then score < 60.0
    else if band == "60-74" then score >= 60.0 && score < 75.0
    else if band == "75-100" then score >= 75.0
    else true
  }

  /** Exactly one of the three ARR bands holds for every value; other band names hold for all. */
  lemma ArrBandsPartition(arr: real, band: string)
    ensures InArrBand(arr, "0-50") || InArrBand(arr, "50-150") || InArrBand(arr, "150+")
    ensures !(InArrBand(arr, "0-50") && InArrBand(arr, "50-150"))
    ensures !(InArrBand(arr, "0-50") && InArrBand(arr, "150+"))
    ensures !(InArrBand(arr, "50-150") && InArrBand(arr, "150+"))
    ensures band !in {"0-50", "50-150", "150+"} ==> InArrBand(arr, band)
  {
  }

  /** The three health bands are the dashboard's health bands: risk, watch and healthy. */
  lemma HealthBandsMatchDashboard(score: real, band: string)
    ensures InHealthBand(score, "0-59") <==> DD.ToHealthBand(score) == DD.Risk
    ensures InHealthBand(score, "60-74") <==> DD.ToHealthBand(score) == DD.Watch
    ensures InHealthBand(score, "75-100") <==> DD.ToHealthBand(score) == DD.Healthy
    ensures band !in {"0-59", "60-74", "75-100"} ==> InHealthBand(score, band)
  {
  }

  /** The month of a yyyy-MM-dd date: characters 5 and 6. */
  function RenewalMonth(renewalDate: string): (month: string)
    ensures |renewalDate| >= 7 ==> month == renewalDate[5..7]
    ensures |renewalDate| <= 5 ==> month == ""
  {
    Slice(renewalDate, 5, 7)
  }

  datatype Filters = Filters(arrBand: string, healthBand: string, renewalMonth: string, segment: string, aiMaturity: string)

  const AllFilters: Filters := Filters("all", "all", "all", "all", "all")

  /** The row test of the filter callback. */
  predicate Keep(row: AccountRow, f: Filters)
  {
    && InArrBand(row.arr, f.arrBand)
    && InHealthBand(row.healthScore, f.healthBand)
    && (f.renewalMonth == "all" || f.renewalMonth == RenewalMonth(row.renewalDate))
    && (f.segment == "all" || row.segment == f.segment)
    && (f.aiMaturity == "all" || row.aiMaturity == f.aiMaturity)
  }

  /** The filtered rows. */
  function Filtered(data: seq<AccountRow>, f: Filters): (r: seq<AccountRow>)
    ensures |r| <= |data|
  {
    if |data| == 0 then []
    else Filtered(data[..|data| - 1], f) + (if Keep(data[|data| - 1], f) then [data[|data| - 1]] else [])
  }

  /** The filtered rows are exactly the rows of the data that the callback keeps. */
  lemma {:induction false} FilteredMembers(data: seq<AccountRow>, f: Filters)
    ensures forall row :: row in Filtered(data, f) <==> row in data && Keep(row, f)
  {
    if |data| > 0 {
      var init := data[..|data| - 1];
      FilteredMembers(init, f);
      assert data == init + [data[|data| - 1]];
    }
  }

  /** `a` can be obtained from `b` by deleting elements. */
  predicate IsSubsequence<T(==)>(a: seq<T>, b: seq<T>)
    decreases |b|
  {
    if |a| == 0 then true
    else if |b| == 0 then false
    else if a[|a| - 1] == b[|b| - 1] then IsSubsequence(a[..|a| - 1], b[..|b| - 1])
    else IsSubsequence(a, b[..|b| - 1])
  }

  /** Filtering only deletes rows: what is left keeps the data's order. */
  lemma {:induction false} FilteredIsSubsequence(data: seq<AccountRow>, f: Filters)
    ensures IsSubsequence(Filtered(data, f), data)
  {
    if |data| > 0 {
      var init := data[..|data| - 1];
      var r := Filtered(data, f);
      FilteredIsSubsequence(init, f);
      if Keep(data[|data| - 1], f) {
        assert r[..|r| - 1] == Filtered(init, f);
      } else if |r| > 0 {
        assert r == Filtered(init, f);
        FilteredMembers(init, f);
        assert r[|r| - 1] in r && Keep(r[|r| - 1], f);
        assert r[|r| - 1] != data[|data| - 1];
        assert IsSubsequence(r, init);
      }
    }
  }

  /** When the callback keeps every row, filtering gives back the data. */
  lemma {:induction false} FilteredKeepsAllKept(data: seq<AccountRow>, f: Filters)
    requires forall i :: 0 <= i < |data| ==> Keep(data[i], f)
    ensures Filtered(data, f) == data
  {
    if |data| > 0 {
      var init := data[..|data| - 1];
      assert forall i :: 0 <= i < |init| ==> init[i] == data[i];
      FilteredKeepsAllKept(init, f);
      assert init + [data[|data| - 1]] == data;
    }
  }

  /** With every filter at "all" the table shows every row. */
  lemma AllFiltersKeepAll(data: seq<AccountRow>)
    ensures Filtered(data, AllFilters) == data
  {
    forall i | 0 <= i < |data|
      ensures Keep(data[i], AllFilters)
    {
    }
    FilteredKeepsAllKept(data, AllFilters);
  }

  /** A month filter keeps exactly the rows renewing in that month. */
  lemma MonthFilter(data: seq<AccountRow>, month: string, row: AccountRow)
    requires month != "all"
    requires |row.renewalDate| == 10
    ensures row in Filtered(data, AllFilters.(renewalMonth := month))
      <==> row in data && row.renewalDate[5..7] == month
  {
    FilteredMembers(data, AllFilters.(renewalMonth := month));
  }
}
