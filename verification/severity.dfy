/**
 * The severity ordering of the card list: the `indicators` rank table, the
 * comparator handed to `Array.prototype.sort`, and the in-place sort.
 */
module Severity {
  import opened Wrappers
  import opened Cards

  /** The rank table: info 0, warning 1, critical 2, error 3; any other indicator has no entry. */
  function IndicatorRank(indicator: string): (rank: Option<nat>)
    ensures rank.Some? <==> indicator == "info" || indicator == "warning" || indicator == "critical" || indicator == "error"
    ensures rank.Some? ==> rank.value <= 3
    ensures indicator == "error" ==> rank == Some(3)
    ensures indicator == "info" ==> rank == Some(0)
  {
    if indicator == "info" then Some(0)
    else if indicator == "warning" then Some(1)
    else if indicator == "critical" then Some(2)
    else if indicator == "error" then Some(3)
    else None
  }

  /** The indicator that the rank table maps to each rank. */
  function RankIndicator(rank: nat): string
    requires rank <= 3
  {
    ["info", "warning", "critical", "error"][rank]
  }

  /** The rank table is a bijection between the four indicators and the ranks 0 to 3. */
  lemma RankTableRoundTrip(indicator: string, rank: nat)
    ensures IndicatorRank(indicator) == Some(rank) <==> rank <= 3 && RankIndicator(rank) == indicator
  {
  }

  /**
   * The comparator `(b, a) => indicators[a.indicator] - indicators[b.indicator]`
   * applied to `(x, y)`; `None` stands for the `NaN` it yields when an indicator
   * is not in the table.
   */
  function Comparator(x: Card, y: Card): (d: Option<int>)
    ensures d.Some? <==> IndicatorRank(x.indicator).Some? && IndicatorRank(y.indicator).Some?
    ensures d.Some? ==> (d.value < 0 <==> IndicatorRank(x.indicator).value > IndicatorRank(y.indicator).value)
    ensures d.Some? ==> (d.value == 0 <==> x.indicator == y.indicator)
  {
    match (IndicatorRank(x.indicator), IndicatorRank(y.indicator))
    case (Some(rx), Some(ry)) => Some(ry as int - rx as int)
    case _ => None
  }

  /** The rank given to an indicator outside the table: below every known one. */
  const UnknownRank := -1

  /** The key the sort orders by: the table's rank, or `UnknownRank` for an unknown indicator. */
  function SortKey(c: Card): (k: int)
    ensures UnknownRank <= k <= 3
    ensures k == UnknownRank <==> IndicatorRank(c.indicator).None?
    ensures IndicatorRank(c.indicator).Some? ==> k == IndicatorRank(c.indicator).value
  {
    match IndicatorRank(c.indicator)
    case Some(r) => r
    case None => UnknownRank
  }

  /** Wherever the comparator is defined, it orders two cards as their sort keys do. */
  lemma SortKeyAgreesWithComparator(x: Card, y: Card)
    requires Comparator(x, y).Some?
    ensures Comparator(x, y).value < 0 <==> SortKey(x) > SortKey(y)
    ensures Comparator(x, y).value == 0 <==> SortKey(x) == SortKey(y)
    ensures Comparator(x, y).value > 0 <==> SortKey(x) < SortKey(y)
  {
  }

  /** Highest severity first: sort keys never increase along the sequence. */
  predicate SortedBySeverity(s: seq<Card>)
  {
    forall i, j :: 0 <= i < j < |s| ==> SortKey(s[i]) >= SortKey(s[j])
  }

  /** In a sorted sequence a card of strictly higher severity comes strictly earlier. */
  lemma HigherSeverityComesFirst(s: seq<Card>, i: nat, j: nat)
    requires SortedBySeverity(s)
    requires i < |s| && j < |s|
    requires SortKey(s[i]) > SortKey(s[j])
    ensures i < j
  {
  }

  /** Exchanges two elements of an array. */
  method Exchange(a: array<Card>, i: nat, j: nat)
    requires i < a.Length && j < a.Length
    modifies a
    ensures a[..] == old(a[..])[i := old(a[j])][j := old(a[i])]
    ensures multiset(a[..]) == multiset(old(a[..]))
  {
    a[i], a[j] := a[j], a[i];
  }

  /**
   * Sorts the cards in place, highest severity first, as the card list does
   * before rendering. The order among cards of equal rank is not specified.
   */
  method SortBySeverity(a: array<Card>)
    modifies a
    ensures SortedBySeverity(a[..])
    ensures multiset(a[..]) == multiset(old(a[..]))
  {
    var i := 0;
    while i < a.Length
      invariant 0 <= i <= a.Length
      invariant forall p, q :: 0 <= p < q < i ==> SortKey(a[p]) >= SortKey(a[q])
      invariant forall p, q :: 0 <= p < i <= q < a.Length ==> SortKey(a[p]) >= SortKey(a[q])
      invariant multiset(a[..]) == multiset(old(a[..]))
    {
      var m := i;
      var j := i + 1;
      while j < a.Length
        invariant i <= m < a.Length
        invariant i < j <= a.Length
        invariant forall q :: i <= q < j ==> SortKey(a[m]) >= SortKey(a[q])
      {
        if SortKey(a[j]) > SortKey(a[m]) {
          m := j;
        }
        j := j + 1;
      }
      Exchange(a, i, m);
      i := i + 1;
    }
  }
}
