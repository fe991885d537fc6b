/** The asset leaderboard: the table sorted on a copy of the asset list by
    the chosen column and direction, the header clicks that choose them,
    and the row that is expanded. */
module AssetLeaderboard {
  import opened JsValues
  import opened AssetMetrics

  /** The four sortable columns. */
  datatype SortKey = RealReturnScore | Volatility | MaxDrawdown | SuitabilityScore

  datatype SortOrder = Desc | Asc

  /** `a.metrics[sortBy]`. */
  function MetricOf(a: AssetClass, key: SortKey): real {
    match key
    case RealReturnScore => a.metrics.realReturnScore
    case Volatility => a.metrics.volatility
    case MaxDrawdown => a.metrics.maxDrawdown
    case SuitabilityScore => a.metrics.suitabilityScore
  }

  /** `a` may come before `b`: the comparator `bValue - aValue` (descending)
      or `aValue - bValue` (ascending) is not positive. */
  predicate Precedes(a: AssetClass, b: AssetClass, key: SortKey, order: SortOrder) {
    Rank(a, key, order) <= Rank(b, key, order)
  }

  /** The metric, negated for a descending sort, so that both directions
      sort on a non-decreasing rank. */
  function Rank(a: AssetClass, key: SortKey, order: SortOrder): (r: real)
    ensures order == Desc ==> r == -MetricOf(a, key)
    ensures order == Asc ==> r == MetricOf(a, key)
  {
    if order == Desc then -MetricOf(a, key) else MetricOf(a, key)
  }

  predicate SortedBy(s: seq<AssetClass>, key: SortKey, order: SortOrder) {
    forall p, q :: 0 <= p < q < |s| ==> Precedes(s[p], s[q], key, order)
  }

  /** The comparator is total: when `a` may not come first, `b` may. */
  lemma PrecedesTotal(a: AssetClass, b: AssetClass, key: SortKey, order: SortOrder)
    ensures !Precedes(a, b, key, order) ==> Precedes(b, a, key, order)
  {
  }

  lemma PrecedesTransitive(a: AssetClass, b: AssetClass, c: AssetClass, key: SortKey, order: SortOrder)
    requires Precedes(a, b, key, order) && Precedes(b, c, key, order)
    ensures Precedes(a, c, key, order)
  {
  }

  /** Exchanges two cells; the contents stay the same multiset. */
  method Swap(a: array<AssetClass>, i: nat, j: nat)
    requires i < a.Length && j < a.Length
    modifies a
    ensures a[i] == old(a[j]) && a[j] == old(a[i])
    ensures forall k :: 0 <= k < a.Length && k != i && k != j ==> a[k] == old(a[k])
    ensures multiset(a[..]) == multiset(old(a[..]))
  {
    a[i], a[j] := a[j], a[i];
  }

  /** One insertion step: the element at `i` is swapped backwards until it
      meets one that may precede it, which extends the sorted prefix by one. */
  method InsertAt(a: array<AssetClass>, i: nat, key: SortKey, order: SortOrder)
    requires i < a.Length
    requires forall p, q :: 0 <= p < q < i ==> Precedes(a[p], a[q], key, order)
    modifies a
    ensures forall p, q :: 0 <= p < q <= i ==> Precedes(a[p], a[q], key, order)
    ensures multiset(a[..]) == multiset(old(a[..]))
  {
    var j := i;
    while j > 0 && !Precedes(a[j - 1], a[j], key, order)
      invariant 0 <= j <= i
      invariant multiset(a[..]) == multiset(old(a[..]))
      invariant forall p, q :: 0 <= p < q <= i && p != j && q != j ==> Precedes(a[p], a[q], key, order)
      invariant forall q :: j < q <= i ==> Precedes(a[j], a[q], key, order)
    {
      PrecedesTotal(a[j - 1], a[j], key, order);
      Swap(a, j - 1, j);
      j := j - 1;
    }
    forall p | 0 <= p < j
      ensures Precedes(a[p], a[j], key, order)
    {
      if p < j - 1 {
        PrecedesTransitive(a[p], a[j - 1], a[j], key, order);
      }
    }
  }

  /** sortedAssets: `[...assetClasses].sort(...)`. The input is copied into
      a fresh array that is sorted in place, so the caller's list is left
      alone; the result holds the same assets, ordered by the column. */
  method SortedAssets(assets: seq<AssetClass>, key: SortKey, order: SortOrder) returns (sorted: seq<AssetClass>)
    ensures multiset(sorted) == multiset(assets)
    ensures SortedBy(sorted, key, order)
  {
    var a := new AssetClass[|assets|](k requires 0 <= k < |assets| => assets[k]);
    assert a[..] == assets;
    for i := 0 to a.Length
      invariant multiset(a[..]) == multiset(assets)
      invariant forall p, q :: 0 <= p < q < i ==> Precedes(a[p], a[q], key, order)
    {
      InsertAt(a, i, key, order);
    }
    sorted := a[..];
  }

  /** The leaderboard's state: column, direction and expanded row. */
  datatype SortState = SortState(sortBy: SortKey, sortOrder: SortOrder)

  function Flip(order: SortOrder): (r: SortOrder)
    ensures r != order
  {
    if order == Desc then Asc else Desc
  }

  /** handleSort: the current column flips the direction; another column
      becomes current and sorts descending. */
  function SortClicked(s: SortState, column: SortKey): (r: SortState)
    ensures r.sortBy == column
    ensures column == s.sortBy ==> r.sortOrder != s.sortOrder
    ensures column != s.sortBy ==> r.sortOrder == Desc
  {
    if s.sortBy == column then s.(sortOrder := Flip(s.sortOrder)) else SortState(column, Desc)
  }

  /** Clicking the same header twice restores the direction. */
  lemma SortClickedTwice(s: SortState, column: SortKey)
    requires column == s.sortBy
    ensures SortClicked(SortClicked(s, column), column) == s
  {
  }

  /** A new column always starts descending, whatever came before. */
  lemma NewColumnStartsDescending(s: SortState, t: SortState, column: SortKey)
    requires column != s.sortBy && column != t.sortBy
    ensures SortClicked(s, column) == SortClicked(t, column)
  {
  }

  /** toggleRowExpansion: the expanded row closes, any other row opens in
      its place. The state holds at most one row. */
  function RowToggled(expanded: Option<int>, id: int): (r: Option<int>)
    ensures r.Some? ==> r.value == id
    ensures r.None? <==> expanded == Some(id)
  {
    if expanded == Some(id) then None else Some(id)
  }

  /** Toggling a row twice from closed, or from open, restores the state. */
  lemma RowToggledTwice(expanded: Option<int>, id: int)
    requires expanded.None? || expanded == Some(id)
    ensures RowToggled(RowToggled(expanded, id), id) == expanded
  {
  }

  class Leaderboard {
    var sortBy: SortKey
    var sortOrder: SortOrder
    var expandedRow: Option<int>

    /** Sorted by suitability, descending, nothing expanded. */
    constructor()
      ensures sortBy == SuitabilityScore && sortOrder == Desc && expandedRow.None?
    {
      sortBy := SuitabilityScore;
      sortOrder := Desc;
      expandedRow := None;
    }

    method HandleSort(column: SortKey)
      modifies this
      ensures SortState(sortBy, sortOrder) == SortClicked(SortState(old(sortBy), old(sortOrder)), column)
      ensures expandedRow == old(expandedRow)
    {
      if sortBy == column {
        sortOrder := if sortOrder == Desc then Asc else Desc;
      } else {
        sortBy := column;
        sortOrder := Desc;
      }
    }

    method ToggleRowExpansion(assetId: int)
      modifies this
      ensures expandedRow == RowToggled(old(expandedRow), assetId)
      ensures sortBy == old(sortBy) && sortOrder == old(sortOrder)
    {
      expandedRow := if expandedRow == Some(assetId) then None else Some(assetId);
    }

    /** The rows the table shows for the current state. */
    method Rows() returns (rows: seq<AssetClass>)
      ensures multiset(rows) == multiset(AssetClasses)
      ensures SortedBy(rows, sortBy, sortOrder)
    {
      rows := SortedAssets(AssetClasses, sortBy, sortOrder);
    }
  }
}
