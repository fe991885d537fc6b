/** The year-by-year table: ten rows a page, a page cursor moved by the
    Previous/Next controls, and the cells that hide non-positive flows. */
module CorpusTable {
  import opened JsValues

  const RowsPerPage: nat := 10

  /** Math.ceil(n / 10). */
  function TotalPages(n: nat): (t: nat)
    ensures t == 0 <==> n == 0
    ensures (t - 1) * RowsPerPage < n <= t * RowsPerPage
  {
    (n + RowsPerPage - 1) / RowsPerPage
  }

  /** `data.slice((p - 1) * 10, p * 10)`: empty once the start is past the end. */
  function PageSlice<T>(data: seq<T>, page: nat): (s: seq<T>)
    requires page >= 1
    ensures |s| <= RowsPerPage
    ensures 1 <= page <= TotalPages(|data|) ==>
      s == data[(page - 1) * RowsPerPage .. MinNat(page * RowsPerPage, |data|)] && |s| >= 1
    ensures page > TotalPages(|data|) ==> s == []
  {
    var startIndex := (page - 1) * RowsPerPage;
    var endIndex := startIndex + RowsPerPage;
    if startIndex >= |data| then [] else data[startIndex .. MinNat(endIndex, |data|)]
  }

  /** Pages 1 to k, concatenated in order. */
  function PagesUpTo<T>(data: seq<T>, k: nat): seq<T> {
    if k == 0 then [] else PagesUpTo(data, k - 1) + PageSlice(data, k)
  }

  lemma {:induction false} PagesUpToIsPrefix<T>(data: seq<T>, k: nat)
    ensures PagesUpTo(data, k) == data[..MinNat(k * RowsPerPage, |data|)]
  {
    if k > 0 {
      PagesUpToIsPrefix(data, k - 1);
      var prev, cur := MinNat((k - 1) * RowsPerPage, |data|), MinNat(k * RowsPerPage, |data|);
      if (k - 1) * RowsPerPage >= |data| {
        assert PageSlice(data, k) == [];
        assert prev == cur == |data|;
      } else {
        assert prev == (k - 1) * RowsPerPage <= cur;
        assert PageSlice(data, k) == data[prev .. cur];
        assert data[..prev] + data[prev .. cur] == data[..cur];
      }
    }
  }

  /** The pages partition the data: read in order they give it back. */
  lemma PagesPartitionData<T>(data: seq<T>)
    ensures PagesUpTo(data, TotalPages(|data|)) == data
  {
    PagesUpToIsPrefix(data, TotalPages(|data|));
  }

  /** Previous: one page back, never below page 1. */
  function PreviousPage(page: int): (p: int)
    ensures p >= 1 && page - 1 <= p
    ensures page >= 1 ==> p <= page
  {
    if page - 1 >= 1 then page - 1 else 1
  }

  /** Next: one page on, never past the last page. */
  function NextPage(page: int, totalPages: int): (p: int)
    ensures p <= totalPages && p <= page + 1
    ensures page <= totalPages ==> page <= p
  {
    if page + 1 <= totalPages then page + 1 else totalPages
  }

  /** Each control is disabled exactly where pressing it would change nothing. */
  lemma DisabledExactlyAtTheEnds(page: int, totalPages: int)
    requires 1 <= page <= totalPages
    ensures page == 1 <==> PreviousPage(page) == page
    ensures page == totalPages <==> NextPage(page, totalPages) == page
  {
  }

  /** The footer text 'Showing first to last of n entries', shown only when
      there is more than one page. */
  datatype ShowingRange = ShowingRange(first: int, last: int, total: nat)

  function Showing<T>(data: seq<T>, page: nat): (r: Option<ShowingRange>)
    requires page >= 1
    ensures r.Some? <==> |data| > RowsPerPage
    ensures r.Some? && page <= TotalPages(|data|) ==>
      r.value.first == (page - 1) * RowsPerPage + 1 && r.value.last - r.value.first + 1 == |PageSlice(data, page)|
  {
    var n := |data|;
    var startIndex := (page - 1) * RowsPerPage;
    var endIndex := startIndex + RowsPerPage;
    if TotalPages(n) > 1 then Some(ShowingRange(startIndex + 1, MinNat(endIndex, n), n)) else None
  }

  /** What the component renders: the no-data card for missing or empty data. */
  datatype View<T> = NoData | Table(rows: seq<T>, controls: bool)

  function Render<T>(data: Option<seq<T>>, page: nat): (v: View<T>)
    requires page >= 1
    ensures v.NoData? <==> data.None? || |data.value| == 0
    ensures v.Table? ==> v.rows == PageSlice(data.value, page) && (v.controls <==> |data.value| > RowsPerPage)
  {
    if data.None? || |data.value| == 0 then NoData
    else Table(PageSlice(data.value, page), TotalPages(|data.value|) > 1)
  }

  /** The SIP and SWP cells: an amount when positive, '-' otherwise. */
  datatype FlowCell = Amount(x: real) | DashCell

  function FlowCellOf(x: real): (c: FlowCell)
    ensures c == DashCell <==> x <= 0.0
    ensures c.Amount? ==> c.x == x
  {
    if x > 0.0 then Amount(x) else DashCell
  }

  /** The table's page cursor over its data. */
  class Pager<T> {
    const data: seq<T>
    var currentPage: int

    predicate Valid()
      reads this
    {
      1 <= currentPage && (|data| > 0 ==> currentPage <= TotalPages(|data|))
    }

    constructor(data: seq<T>)
      ensures this.data == data && currentPage == 1 && Valid()
    {
      this.data := data;
      currentPage := 1;
    }

    /** The rows of the current page. */
    function CurrentRows(): (rows: seq<T>)
      reads this
      requires Valid()
      ensures |data| > 0 ==> 1 <= |rows| <= RowsPerPage
    {
      PageSlice(data, currentPage)
    }

    /** The Previous handler; the controls exist only for more than one page. */
    method Previous()
      requires Valid() && TotalPages(|data|) > 1
      modifies this
      ensures Valid()
      ensures currentPage == PreviousPage(old(currentPage))
    {
      currentPage := if currentPage - 1 >= 1 then currentPage - 1 else 1;
    }

    /** The Next handler; the controls exist only for more than one page. */
    method Next()
      requires Valid() && TotalPages(|data|) > 1
      modifies this
      ensures Valid()
      ensures currentPage == NextPage(old(currentPage), TotalPages(|data|))
    {
      var totalPages := TotalPages(|data|);
      currentPage := if currentPage + 1 <= totalPages then currentPage + 1 else totalPages;
    }
  }
}
