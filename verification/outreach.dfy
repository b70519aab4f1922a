/** The Outreach Pipeline page: one Kanban column per status in a fixed
    order, the per-column counts and empty markers, and the four stat tiles. */
module OutreachPipeline {
  import opened Options
  import opened Records
  import opened Lists
  import Percent

  /** `statusColumns`, left to right. */
  const StatusColumns: seq<OutreachStatus> := [Planned, Contacted, FollowUp, Success, Rejected]

  /** `item => item.status === s` */
  function InStatus(s: OutreachStatus): OutreachItem -> bool {
    (item: OutreachItem) => item.status == s
  }

  /** `i => i.backlinkAcquired` */
  function Backlinked(item: OutreachItem): bool {
    item.backlinkAcquired
  }

  /** `columns.reduce((acc, status) => { acc[status] = items.filter(...); return acc }, {})` */
  function BuildColumns(columns: seq<OutreachStatus>, items: seq<OutreachItem>)
    : (grouped: map<OutreachStatus, seq<OutreachItem>>)
    ensures grouped.Keys == set s | s in columns
    ensures forall s :: s in grouped ==> grouped[s] == Filter(items, InStatus(s))
  {
    if |columns| == 0 then map[]
    else
      var s := columns[|columns| - 1];
      BuildColumns(columns[..|columns| - 1], items)[s := Filter(items, InStatus(s))]
  }

  /** `groupedItems` */
  function GroupedItems(items: seq<OutreachItem>): map<OutreachStatus, seq<OutreachItem>> {
    BuildColumns(StatusColumns, items)
  }

  /** Every status has a column, holding exactly the items in that status,
      in list order. */
  lemma ColumnsComplete(items: seq<OutreachItem>, s: OutreachStatus)
    ensures s in GroupedItems(items)
    ensures IsSubseq(GroupedItems(items)[s], items)
    ensures forall i :: 0 <= i < |GroupedItems(items)[s]| ==> GroupedItems(items)[s][i].status == s
    ensures |GroupedItems(items)[s]| == |set i: nat | i < |items| && items[i].status == s|
  {
    StatusHasColumn(s);
    FilterIsSubseq(items, InStatus(s));
    FilterLengthCountsIndices(items, InStatus(s));
    assert Indices(items, InStatus(s)) == set i: nat | i < |items| && items[i].status == s;
  }

  /** The board has a column for every status, and for nothing else. */
  lemma StatusHasColumn(s: OutreachStatus)
    ensures s in StatusColumns
    ensures |StatusColumns| == 5
  {
    match s
    case Planned => assert StatusColumns[0] == s;
    case Contacted => assert StatusColumns[1] == s;
    case FollowUp => assert StatusColumns[2] == s;
    case Success => assert StatusColumns[3] == s;
    case Rejected => assert StatusColumns[4] == s;
  }

  /** Each item appears in the column of its status, as often as in the
      list, and in no other column. */
  lemma ColumnsPartition(items: seq<OutreachItem>, s: OutreachStatus, x: OutreachItem)
    ensures s in GroupedItems(items)
    ensures multiset(GroupedItems(items)[s])[x] == if x.status == s then multiset(items)[x] else 0
  {
    ColumnsComplete(items, s);
    FilterMultiset(items, InStatus(s), x);
  }

  /** The sum of the column lengths. */
  function ColumnTotal(grouped: map<OutreachStatus, seq<OutreachItem>>, columns: seq<OutreachStatus>): nat {
    if |columns| == 0 then 0
    else ColumnTotal(grouped, columns[..|columns| - 1]) + ColumnCount(grouped, columns[|columns| - 1])
  }

  /** The board shows every item exactly once. */
  lemma ColumnsCoverAll(items: seq<OutreachItem>)
    ensures ColumnTotal(GroupedItems(items), StatusColumns) == |items|
  {
    var g := GroupedItems(items);
    ColumnTotalOfFive(g);
    ColumnIsFilter(items, Planned);
    ColumnIsFilter(items, Contacted);
    ColumnIsFilter(items, FollowUp);
    ColumnIsFilter(items, Success);
    ColumnIsFilter(items, Rejected);
    StatusCountsTotal(items);
  }

  /** A column header counts the items in that column's status. */
  lemma ColumnIsFilter(items: seq<OutreachItem>, s: OutreachStatus)
    ensures ColumnCount(GroupedItems(items), s) == |Filter(items, InStatus(s))|
    ensures ColumnCount(GroupedItems(items), s) == |set i: nat | i < |items| && items[i].status == s|
  {
    StatusHasColumn(s);
    FilterLengthCountsIndices(items, InStatus(s));
    assert Indices(items, InStatus(s)) == set i: nat | i < |items| && items[i].status == s;
  }

  /** The total over the five columns, written out. */
  lemma {:induction false} ColumnTotalOfFive(g: map<OutreachStatus, seq<OutreachItem>>)
    ensures ColumnTotal(g, StatusColumns)
      == ColumnCount(g, Planned) + ColumnCount(g, Contacted) + ColumnCount(g, FollowUp)
       + ColumnCount(g, Success) + ColumnCount(g, Rejected)
  {
    var c1: seq<OutreachStatus> := [Planned];
    var c2 := c1 + [Contacted];
    var c3 := c2 + [FollowUp];
    var c4 := c3 + [Success];
    assert StatusColumns == c4 + [Rejected];
    assert c1[..0] == [] && c2[..1] == c1 && c3[..2] == c2 && c4[..3] == c3;
    assert (c4 + [Rejected])[..4] == c4;
    assert ColumnTotal(g, StatusColumns) == ColumnTotal(g, c4) + ColumnCount(g, Rejected);
    assert ColumnTotal(g, c4) == ColumnTotal(g, c3) + ColumnCount(g, Success);
    assert ColumnTotal(g, c3) == ColumnTotal(g, c2) + ColumnCount(g, FollowUp);
    assert ColumnTotal(g, c2) == ColumnTotal(g, c1) + ColumnCount(g, Contacted);
    assert ColumnTotal(g, c1) == ColumnCount(g, Planned);
  }

  /** The five status filters split any list. */
  lemma {:induction false} StatusCountsTotal(items: seq<OutreachItem>)
    ensures |Filter(items, InStatus(Planned))| + |Filter(items, InStatus(Contacted))|
      + |Filter(items, InStatus(FollowUp))| + |Filter(items, InStatus(Success))|
      + |Filter(items, InStatus(Rejected))| == |items|
  {
    if |items| > 0 {
      StatusCountsTotal(items[..|items| - 1]);
    }
  }

  /** `groupedItems[status]?.length || 0` */
  function ColumnCount(grouped: map<OutreachStatus, seq<OutreachItem>>, s: OutreachStatus): nat {
    if s in grouped then |grouped[s]| else 0
  }

  /** `!groupedItems[status] || groupedItems[status].length === 0` */
  predicate ShowsNoItems(grouped: map<OutreachStatus, seq<OutreachItem>>, s: OutreachStatus) {
    s !in grouped || |grouped[s]| == 0
  }

  /** A column says "No items" exactly when no item has its status, and its
      header count is then zero. */
  lemma NoItemsExactly(items: seq<OutreachItem>, s: OutreachStatus)
    ensures ShowsNoItems(GroupedItems(items), s) <==> forall i :: 0 <= i < |items| ==> items[i].status != s
    ensures ShowsNoItems(GroupedItems(items), s) <==> ColumnCount(GroupedItems(items), s) == 0
  {
    ColumnsComplete(items, s);
    if forall i :: 0 <= i < |items| ==> items[i].status != s {
      FilterNone(items, InStatus(s));
    } else {
      var i :| 0 <= i < |items| && items[i].status == s;
      FilterMultiset(items, InStatus(s), items[i]);
    }
  }

  /** The four stat tiles; `successRate` is `None` where the page shows
      `NaN%`. */
  datatype Stats = Stats(total: nat, successRate: Option<nat>, backlinks: nat, pendingFollowUp: nat)

  function PipelineStats(items: seq<OutreachItem>): (st: Stats)
    ensures st.total == |items|
    ensures st.successRate.None? <==> |items| == 0
    ensures st.successRate.Some? ==> st.successRate.value <= 100
    ensures st.backlinks == |set i: nat | i < |items| && items[i].backlinkAcquired|
    ensures st.backlinks <= st.total
  {
    var success := |Filter(items, InStatus(Success))|;
    var backlinks := Filter(items, Backlinked);
    FilterLengthCountsIndices(items, Backlinked);
    assert Indices(items, Backlinked) == set i: nat | i < |items| && items[i].backlinkAcquired;
    var rate := Percent.RoundPercent(success, |items|);
    assert rate.Some? ==> rate.value <= 100 by {
      if |items| > 0 {
        Percent.RoundPercentBounded(success, |items|);
      }
    }
    Stats(|items|, rate, |backlinks|,
      |Filter(items, InStatus(FollowUp))|)
  }

  /** The pending tile agrees with the Follow-up column's header, and the
      success rate is the Success column's share of the list. */
  lemma StatsMatchBoard(items: seq<OutreachItem>)
    ensures PipelineStats(items).pendingFollowUp == ColumnCount(GroupedItems(items), FollowUp)
    ensures PipelineStats(items).successRate
      == Percent.RoundPercent(ColumnCount(GroupedItems(items), Success), |items|)
  {
    ColumnsComplete(items, FollowUp);
    ColumnsComplete(items, Success);
  }
}
