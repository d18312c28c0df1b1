/**
 * The dashboard's route ranking: the list of at most seven entries built by pushing one
 * entry per route, and the rank badges of its rows.
 */
module SalesCard {
  import opened Wrappers
  import opened Seqs

  datatype RankingRoute = RankingRoute(departureStation: string, arrivalStation: string, ticketCount: int)

  /** One line of the list. */
  datatype RankingItem = RankingItem(title: string, total: int)

  /** At most this many routes are listed. */
  const MaxRanked := 7
  /** This many leading ranks are highlighted. */
  const Highlighted := 3

  function Min(a: int, b: int): int {
    if a <= b then a else b
  }

  /** The title of a route: departure, an arrow, arrival. */
  function TitleOf(r: RankingRoute): string {
    r.departureStation + " \U{2192} " + r.arrivalStation
  }

  function ItemOf(r: RankingRoute): RankingItem {
    RankingItem(TitleOf(r), r.ticketCount)
  }

  /** The list the card shows for the request's data and loading flag. */
  function RankingList(data: Option<seq<RankingRoute>>, loading: bool): seq<RankingItem> {
    if data.Some? && !loading then Map(data.value[..Min(MaxRanked, |data.value|)], ItemOf) else []
  }

  /** The list is empty unless the data is present and not loading; then it holds one entry
      per route of the first seven, in order, titled `dep → arr` with the route's ticket
      count. */
  lemma RankingListSpec(data: Option<seq<RankingRoute>>, loading: bool)
    ensures data.None? || loading ==> RankingList(data, loading) == []
    ensures data.Some? && !loading ==>
      var l := RankingList(data, loading);
      |l| == Min(MaxRanked, |data.value|) && |l| <= MaxRanked
      && forall i :: 0 <= i < |l| ==>
        l[i].title == data.value[i].departureStation + " \U{2192} " + data.value[i].arrivalStation
        && l[i].total == data.value[i].ticketCount
  {
  }

  /** Routes after the seventh never change the list. */
  lemma LaterRoutesIgnored(routes: seq<RankingRoute>, more: seq<RankingRoute>)
    requires |routes| >= MaxRanked
    ensures RankingList(Some(routes + more), false) == RankingList(Some(routes), false)
  {
    assert (routes + more)[..MaxRanked] == routes[..MaxRanked];
  }

  /** `rankingListData`: start empty and push one entry per route of `slice(0, 7)`. */
  method BuildRankingList(data: Option<seq<RankingRoute>>, loading: bool) returns (list: seq<RankingItem>)
    ensures list == RankingList(data, loading)
  {
    list := [];
    if data.Some? && !loading {
      var routes := data.value[..Min(MaxRanked, |data.value|)];
      var i := 0;
      while i < |routes|
        invariant 0 <= i <= |routes|
        invariant |list| == i
        invariant forall j :: 0 <= j < i ==> list[j] == ItemOf(routes[j])
      {
        list := list + [RankingItem(TitleOf(routes[i]), routes[i].ticketCount)];
        i := i + 1;
      }
    }
  }

  /** The number badge of row `i`. */
  datatype RankBadge = RankBadge(number: int, highlighted: bool)

  function BadgeOf(i: int): RankBadge {
    RankBadge(i + 1, i < Highlighted)
  }

  function Badges(list: seq<RankingItem>): seq<RankBadge> {
    seq(|list|, i => BadgeOf(i))
  }

  /** Row `i` shows rank `i + 1`; exactly the first three rows (or all rows of a shorter
      list) are highlighted. */
  lemma BadgesSpec(list: seq<RankingItem>)
    ensures |Badges(list)| == |list|
    ensures forall i :: 0 <= i < |list| ==>
      Badges(list)[i].number == i + 1 && (Badges(list)[i].highlighted <==> i < Highlighted)
    ensures |IndicesWhere(Badges(list), (b: RankBadge) => b.highlighted)| == Min(Highlighted, |list|)
  {
    var b := Badges(list);
    var p := (x: RankBadge) => x.highlighted;
    var m := Min(Highlighted, |list|);
    var prefix := b[..m];
    assert IndicesWhere(b, p) == IndicesWhere(prefix, p);
    FilterAll(prefix, p);
    FilterLengthCountsIndices(prefix, p);
  }
}
