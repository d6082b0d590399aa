/** The "subscriptions by plan" admin report: its columns and cells, the two
    IN lists of the query that fetches the plans, and the pie chart of the
    leading plans. Running the query is the database's business: the model
    takes its result as a function of the query's filter lists. */
module PlanReport {
  import opened PhpStrings

  /** One row of the query result: a plan (a product) and how many current subscriptions use it. */
  datatype PlanRow = PlanRow(planId: int, planName: string, subCount: int)

  /** The parts of the plan query that the code assembles: the texts of its two IN lists. */
  datatype PlanQuery = PlanQuery(productTypeList: string, statusList: string)

  /** A list-table column: its key and its title. */
  datatype Column = Column(key: string, title: string)

  /** A cell as `column_default` returns it: the host's edit link for the plan, the count, or nothing. */
  datatype Cell = EditLink(planName: string, planId: int) | Count(n: int) | Blank

  /** One legend line of the chart: a colour swatch and the plan's name. */
  datatype LegendEntry = LegendEntry(color: string, planName: string)

  /** One slice of the pie chart. */
  datatype SeriesEntry = SeriesEntry(seriesLabel: string, data: int, color: string)

  /** The chart palette. */
  const ChartColors: seq<string> := [
    "#33a02c", "#1f78b4", "#6a3d9a", "#e31a1c", "#ff7f00", "#b15928",
    "#a6cee3", "#b2df8a", "#fb9a99", "#ffff99", "#fdbf6f", "#cab2d6"
  ]

  /** How many leading plans the chart shows. */
  const ChartSize: nat := 12

  /** The allow-lists before their filters run. */
  const DefaultProductTypes: seq<string> := ["subscription", "variable-subscription"]
  const DefaultActiveStatuses: seq<string> := ["active", "pending-cancel"]

  function Min(a: int, b: int): int {
    if a < b then a else b
  }

  /** `get_columns`: the plan name, then the count of current customers. */
  function GetColumns(): (columns: seq<Column>)
    ensures |columns| == 2
    ensures columns[0].key == "plan_name" && columns[1].key == "sub_count"
  {
    [Column("plan_name", "Plan"), Column("sub_count", "Current Customers")]
  }

  /** `column_default`: the cell of one row in one column; exactly the report's
      own columns have content. */
  function ColumnDefault(row: PlanRow, columnName: string): (cell: Cell)
    ensures columnName == "plan_name" ==> cell == EditLink(row.planName, row.planId)
    ensures columnName == "sub_count" ==> cell == Count(row.subCount)
    ensures cell != Blank <==> exists c :: c in GetColumns() && c.key == columnName
  {
    assert GetColumns()[0] in GetColumns() && GetColumns()[1] in GetColumns();
    match columnName
    case "plan_name" => EditLink(row.planName, row.planId)
    case "sub_count" => Count(row.subCount)
    case _ => Blank
  }

  /** Each value single-quoted, after the prefix. */
  function Quoted(prefix: string, values: seq<string>): (r: seq<string>)
    ensures |r| == |values|
    ensures forall i :: 0 <= i < |values| ==> r[i] == "'" + prefix + values[i] + "'"
  {
    if values == [] then [] else ["'" + prefix + values[0] + "'"] + Quoted(prefix, values[1..])
  }

  /** The text of an IN list as the query builds it: a quote and the prefix, the values
      joined by a closing quote, a comma, an opening quote and the prefix, and a closing quote.
      For a non-empty list this is each value prefixed, quoted and comma-separated, in order. */
  function InList(prefix: string, values: seq<string>): (list: string)
    ensures values != [] ==> list == Join(",", Quoted(prefix, values))
    ensures values == [] ==> list == "'" + prefix + "'"
  {
    InListIsQuotedJoin(prefix, values);
    "'" + prefix + Join("','" + prefix, values) + "'"
  }

  lemma {:induction false} InListIsQuotedJoin(prefix: string, values: seq<string>)
    ensures values != [] ==> "'" + prefix + Join("','" + prefix, values) + "'" == Join(",", Quoted(prefix, values))
  {
    if |values| > 1 {
      var sep, q, rest := "','" + prefix, Quoted(prefix, values), values[1..];
      InListIsQuotedJoin(prefix, rest);
      assert q[1..] == Quoted(prefix, rest);
      assert Join(sep, values) == values[0] + sep + Join(sep, rest);
      assert Join(",", q) == q[0] + "," + Join(",", Quoted(prefix, rest));
      assert sep == "'" + "," + "'" + prefix;
    }
  }

  /** The IN list of two values. */
  lemma InListOfTwo(prefix: string, a: string, b: string)
    ensures InList(prefix, [a, b]) == "'" + prefix + a + "','" + prefix + b + "'"
  {
    var sep := "','" + prefix;
    assert [a, b][1..] == [b];
    assert Join(sep, [a, b]) == a + sep + b;
  }

  /** With the default allow-lists the query keeps the two subscription product types ... */
  lemma DefaultProductTypeList()
    ensures InList("", DefaultProductTypes) == "'subscription','variable-subscription'"
  {
    InListOfTwo("", "subscription", "variable-subscription");
    ProductTypeListLiteral();
  }

  lemma ProductTypeListLiteral()
    ensures "'" + "" + "subscription" + "','" + "" + "variable-subscription" + "'" == "'subscription','variable-subscription'"
  {
  }

  /** ... and the subscriptions that are active or pending cancellation. */
  lemma DefaultStatusList()
    ensures InList("wc-", DefaultActiveStatuses) == "'wc-active','wc-pending-cancel'"
  {
    InListOfTwo("wc-", "active", "pending-cancel");
    StatusListLiteral();
  }

  lemma StatusListLiteral()
    ensures "'" + "wc-" + "active" + "','" + "wc-" + "pending-cancel" + "'" == "'wc-active','wc-pending-cancel'"
  {
  }

  /** The report object. `items` is what the list table shows; `prepare_items` sets it.
      `columnHeaders` holds the visible columns of the list table's headers. */
  class SubscriptionByPlanReport {
    var items: seq<PlanRow>
    var columnHeaders: seq<Column>

    constructor ()
      ensures items == [] && columnHeaders == []
    {
      items := [];
      columnHeaders := [];
    }

    /** `prepare_items`: the column headers, then the rows of the plan query whose IN lists
        are built from the (already filtered) product types and active statuses; statuses
        get the `wc-` prefix of stored order statuses. */
    method PrepareItems(productTypes: seq<string>, activeStatuses: seq<string>,
                        getResults: PlanQuery -> seq<PlanRow>)
      modifies this
      ensures columnHeaders == GetColumns()
      ensures items == getResults(PlanQuery(InList("", productTypes), InList("wc-", activeStatuses)))
    {
      columnHeaders := GetColumns();
      var query := PlanQuery(InList("", productTypes), InList("wc-", activeStatuses));
      items := getResults(query);
    }

    /** `plan_breakdown_chart`: the legend and the pie series for the first twelve plans,
        entry `i` coloured with palette entry `i`. */
    method PlanBreakdownChart() returns (legend: seq<LegendEntry>, series: seq<SeriesEntry>)
      ensures |legend| == |series| == Min(ChartSize, |items|)
      ensures forall i :: 0 <= i < |legend| ==> legend[i] == LegendEntry(ChartColors[i], items[i].planName)
      ensures forall i :: 0 <= i < |series| ==> series[i] == SeriesEntry(items[i].planName, items[i].subCount, ChartColors[i])
    {
      var plans := items[..Min(ChartSize, |items|)];
      legend := [];
      var i := 0;
      while i < |plans|
        invariant 0 <= i <= |plans|
        invariant |legend| == i
        invariant forall k :: 0 <= k < i ==> legend[k] == LegendEntry(ChartColors[k], plans[k].planName)
      {
        legend := legend + [LegendEntry(ChartColors[i], plans[i].planName)];
        i := i + 1;
      }
      series := [];
      i := 0;
      while i < |plans|
        invariant 0 <= i <= |plans|
        invariant |series| == i
        invariant forall k :: 0 <= k < i ==> series[k] == SeriesEntry(plans[k].planName, plans[k].subCount, ChartColors[k])
      {
        series := series + [SeriesEntry(plans[i].planName, plans[i].subCount, ChartColors[i])];
        i := i + 1;
      }
    }
  }

  /** The twelve palette colours are pairwise different, so no two chart entries share a colour. */
  lemma PaletteDistinct()
    ensures |ChartColors| == ChartSize
    ensures forall i, j :: 0 <= i < j < |ChartColors| ==> ChartColors[i] != ChartColors[j]
  {
  }
}
