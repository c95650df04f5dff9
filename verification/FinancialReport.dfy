/** The completed-order report: one figure per order, one summary, one row per day. */
module FinancialReport {
  import opened Outcomes
  import opened Rounding
  import opened Sums

  /** One position of an order; knownCost is the product's recorded purchase price. */
  datatype Item = Item(service: bool, totalPrice: real, knownCost: Option<real>, quantity: real)

  datatype Order = Order(day: string, grandTotal: real, items: seq<Item>)

  /** The unrounded figures of one order. */
  datatype Figures = Figures(revenue: real, labour: real, parts: real, cost: real) {
    function Profit(): real {
      labour + (parts - cost)
    }
  }

  /** The rounded row that the report keeps for one order. */
  datatype Row = Row(day: string, revenue: int, labour: int, parts: int, profit: int)

  datatype DayEntry = DayEntry(revenue: int, labour: int, parts: int, profit: int, orderCount: int)

  datatype Summary = Summary(
    totalRevenue: int,
    totalLabourRevenue: int,
    totalPartsRevenue: int,
    totalPartsCost: int,
    netProfit: int)

  // ---- One order ---------------------------------------------------------------------------

  function Cost(item: Item): real {
    if item.service then 0.0
    else if item.knownCost.Some? then item.knownCost.value * item.quantity
    else item.totalPrice * 0.75
  }

  function ItemColumn(items: seq<Item>, f: Item -> real): seq<real> {
    seq(|items|, k requires 0 <= k < |items| => f(items[k]))
  }

  function LabourPart(): Item -> real {
    (item: Item) => if item.service then item.totalPrice else 0.0
  }

  function PartsPart(): Item -> real {
    (item: Item) => if item.service then 0.0 else item.totalPrice
  }

  function CostPart(): Item -> real {
    (item: Item) => Cost(item)
  }

  function Price(): Item -> real {
    (item: Item) => item.totalPrice
  }

  function FiguresOf(order: Order): Figures {
    var labour := Total(ItemColumn(order.items, LabourPart()));
    var parts := Total(ItemColumn(order.items, PartsPart()));
    var cost := Total(ItemColumn(order.items, CostPart()));
    Figures(if order.grandTotal != 0.0 then order.grandTotal else labour + parts, labour, parts, cost)
  }

  lemma ColumnGrows(items: seq<Item>, k: nat, f: Item -> real)
    requires k < |items|
    ensures Total(ItemColumn(items[..k + 1], f)) == Total(ItemColumn(items[..k], f)) + f(items[k])
  {
    var longer := ItemColumn(items[..k + 1], f);
    assert longer[..k] == ItemColumn(items[..k], f);
  }

  method AccumulateItems(order: Order) returns (figures: Figures)
    ensures figures == FiguresOf(order)
  {
    var orderLabour, orderParts, orderPartsCost := 0.0, 0.0, 0.0;
    for k := 0 to |order.items|
      invariant orderLabour == Total(ItemColumn(order.items[..k], LabourPart()))
      invariant orderParts == Total(ItemColumn(order.items[..k], PartsPart()))
      invariant orderPartsCost == Total(ItemColumn(order.items[..k], CostPart()))
    {
      var item := order.items[k];
      ColumnGrows(order.items, k, LabourPart());
      ColumnGrows(order.items, k, PartsPart());
      ColumnGrows(order.items, k, CostPart());
      if item.service {
        orderLabour := orderLabour + item.totalPrice;
      } else {
        orderParts := orderParts + item.totalPrice;
        if item.knownCost.Some? {
          orderPartsCost := orderPartsCost + item.knownCost.value * item.quantity;
        } else {
          orderPartsCost := orderPartsCost + item.totalPrice * 0.75;
        }
      }
    }
    assert order.items[..|order.items|] == order.items;
    var orderGrandTotal := if order.grandTotal != 0.0 then order.grandTotal else orderLabour + orderParts;
    figures := Figures(orderGrandTotal, orderLabour, orderParts, orderPartsCost);
  }

  /** The figures of an order grow item by item: a service adds its price to the labour and costs nothing;
      any other item adds its price to the parts, and to the cost its purchase price times its quantity
      or, when none is recorded, three quarters of its price. */
  lemma OneMoreItem(order: Order, item: Item)
    ensures var before, after := FiguresOf(order), FiguresOf(order.(items := order.items + [item]));
      && (item.service ==>
        after.labour == before.labour + item.totalPrice && after.parts == before.parts && after.cost == before.cost)
      && (!item.service ==> after.labour == before.labour && after.parts == before.parts + item.totalPrice)
      && (!item.service && item.knownCost.Some? ==>
        after.cost == before.cost + item.knownCost.value * item.quantity)
      && (!item.service && item.knownCost.None? ==> 4.0 * (after.cost - before.cost) == 3.0 * item.totalPrice)
      && after.revenue == if order.grandTotal == 0.0 then after.labour + after.parts else order.grandTotal
  {
    var items := order.items + [item];
    assert items[..|order.items|] == order.items && items[..|order.items| + 1] == items;
    ColumnGrows(items, |order.items|, LabourPart());
    ColumnGrows(items, |order.items|, PartsPart());
    ColumnGrows(items, |order.items|, CostPart());
  }

  lemma NoItems(day: string, grandTotal: real)
    ensures FiguresOf(Order(day, grandTotal, [])) == Figures(grandTotal, 0.0, 0.0, 0.0)
  {
  }

  /** An order of which no purchase price is recorded makes a profit of its labour and a quarter of
      its parts. */
  lemma {:induction false} EstimatedProfit(order: Order)
    requires forall k :: 0 <= k < |order.items| ==> order.items[k].knownCost.None?
    ensures var f := FiguresOf(order); f.Profit() == f.labour + f.parts / 4.0
    decreases |order.items|
  {
    if order.items == [] {
      NoItems(order.day, order.grandTotal);
    } else {
      var n := |order.items| - 1;
      var front := order.(items := order.items[..n]);
      EstimatedProfit(front);
      OneMoreItem(front, order.items[n]);
      assert front.items + [order.items[n]] == order.items;
    }
  }

  /** Labour and parts split an order's items without loss. */
  lemma {:induction false} ItemsSplit(items: seq<Item>)
    ensures Total(ItemColumn(items, LabourPart())) + Total(ItemColumn(items, PartsPart()))
         == Total(ItemColumn(items, Price()))
  {
    if items != [] {
      var n := |items| - 1;
      ItemsSplit(items[..n]);
      assert items[..n + 1] == items;
      ColumnGrows(items, n, LabourPart());
      ColumnGrows(items, n, PartsPart());
      ColumnGrows(items, n, Price());
    }
  }

  // ---- All orders ----------------------------------------------------------------------------

  function RowOf(order: Order): Row {
    var f := FiguresOf(order);
    Row(order.day, Round(f.revenue), Round(f.labour), Round(f.parts), Round(f.Profit()))
  }

  function Rows(orders: seq<Order>): seq<Row> {
    seq(|orders|, k requires 0 <= k < |orders| => RowOf(orders[k]))
  }

  function Column(orders: seq<Order>, f: Figures -> real): seq<real> {
    seq(|orders|, k requires 0 <= k < |orders| => f(FiguresOf(orders[k])))
  }

  function RevenueOf(): Figures -> real {
    (f: Figures) => f.revenue
  }

  function LabourOf(): Figures -> real {
    (f: Figures) => f.labour
  }

  function PartsOf(): Figures -> real {
    (f: Figures) => f.parts
  }

  function CostOf(): Figures -> real {
    (f: Figures) => f.cost
  }

  function ProfitOf(): Figures -> real {
    (f: Figures) => f.Profit()
  }

  function SummaryOf(orders: seq<Order>): Summary {
    Summary(
      Round(Total(Column(orders, RevenueOf()))),
      Round(Total(Column(orders, LabourOf()))),
      Round(Total(Column(orders, PartsOf()))),
      Round(Total(Column(orders, CostOf()))),
      Round(Total(Column(orders, ProfitOf()))))
  }

  /** The row of each order and the summary, column by column: each figure rounded once, halves up. */
  lemma RowsAndSummary(orders: seq<Order>, figures: seq<Figures>)
    requires |figures| == |orders| && forall k :: 0 <= k < |orders| ==> figures[k] == FiguresOf(orders[k])
    ensures forall k :: 0 <= k < |orders| ==> var f := figures[k];
      Rows(orders)[k] == Row(orders[k].day, (f.revenue + 0.5).Floor, (f.labour + 0.5).Floor, (f.parts + 0.5).Floor,
                             (f.labour + f.parts - f.cost + 0.5).Floor)
    ensures var labour, parts, cost := Total(seq(|figures|, k requires 0 <= k < |figures| => figures[k].labour)),
        Total(seq(|figures|, k requires 0 <= k < |figures| => figures[k].parts)),
        Total(seq(|figures|, k requires 0 <= k < |figures| => figures[k].cost));
      SummaryOf(orders) == Summary(
        (Total(seq(|figures|, k requires 0 <= k < |figures| => figures[k].revenue)) + 0.5).Floor,
        (labour + 0.5).Floor, (parts + 0.5).Floor, (cost + 0.5).Floor, (labour + parts - cost + 0.5).Floor)
  {
    assert Column(orders, RevenueOf()) == seq(|figures|, k requires 0 <= k < |figures| => figures[k].revenue);
    assert Column(orders, LabourOf()) == seq(|figures|, k requires 0 <= k < |figures| => figures[k].labour);
    assert Column(orders, PartsOf()) == seq(|figures|, k requires 0 <= k < |figures| => figures[k].parts);
    assert Column(orders, CostOf()) == seq(|figures|, k requires 0 <= k < |figures| => figures[k].cost);
    NetProfitIsSumOfProfits(orders);
  }

  lemma OrdersGrow(orders: seq<Order>, k: nat, f: Figures -> real)
    requires k < |orders|
    ensures Total(Column(orders[..k + 1], f)) == Total(Column(orders[..k], f)) + f(FiguresOf(orders[k]))
  {
    assert Column(orders[..k + 1], f)[..k] == Column(orders[..k], f);
  }

  /** The net profit computed from the three totals is the sum of the orders' profits. */
  lemma {:induction false} NetProfitIsSumOfProfits(orders: seq<Order>)
    ensures Total(Column(orders, LabourOf())) + (Total(Column(orders, PartsOf())) - Total(Column(orders, CostOf())))
         == Total(Column(orders, ProfitOf()))
  {
    if orders != [] {
      var n := |orders| - 1;
      NetProfitIsSumOfProfits(orders[..n]);
      assert orders[..n + 1] == orders;
      OrdersGrow(orders, n, LabourOf());
      OrdersGrow(orders, n, PartsOf());
      OrdersGrow(orders, n, CostOf());
      OrdersGrow(orders, n, ProfitOf());
    }
  }

  lemma RowsGrow(orders: seq<Order>, k: nat)
    requires k < |orders|
    ensures Rows(orders[..k + 1]) == Rows(orders[..k]) + [RowOf(orders[k])]
  {
  }

  /** The four running totals after the orders so far. */
  ghost predicate TotalsOf(orders: seq<Order>, revenue: real, labour: real, parts: real, cost: real) {
    && revenue == Total(Column(orders, RevenueOf()))
    && labour == Total(Column(orders, LabourOf()))
    && parts == Total(Column(orders, PartsOf()))
    && cost == Total(Column(orders, CostOf()))
  }

  lemma TotalsGrow(orders: seq<Order>, k: nat, revenue: real, labour: real, parts: real, cost: real)
    requires k < |orders| && TotalsOf(orders[..k], revenue, labour, parts, cost)
    ensures var f := FiguresOf(orders[k]);
      TotalsOf(orders[..k + 1], revenue + f.revenue, labour + f.labour, parts + f.parts, cost + f.cost)
  {
    OrdersGrow(orders, k, RevenueOf());
    OrdersGrow(orders, k, LabourOf());
    OrdersGrow(orders, k, PartsOf());
    OrdersGrow(orders, k, CostOf());
  }

  method ProcessOrders(orders: seq<Order>) returns (rows: seq<Row>, summary: Summary)
    ensures rows == Rows(orders)
    ensures summary == SummaryOf(orders)
  {
    rows := [];
    var totalRevenue, totalLabourRevenue, totalPartsRevenue, totalPartsCost := 0.0, 0.0, 0.0, 0.0;
    for k := 0 to |orders|
      invariant rows == Rows(orders[..k])
      invariant TotalsOf(orders[..k], totalRevenue, totalLabourRevenue, totalPartsRevenue, totalPartsCost)
    {
      var order := orders[k];
      var f := AccumulateItems(order);
      RowsGrow(orders, k);
      TotalsGrow(orders, k, totalRevenue, totalLabourRevenue, totalPartsRevenue, totalPartsCost);
      var estimatedProfit := f.labour + (f.parts - f.cost);
      totalLabourRevenue := totalLabourRevenue + f.labour;
      totalPartsRevenue := totalPartsRevenue + f.parts;
      totalPartsCost := totalPartsCost + f.cost;
      totalRevenue := totalRevenue + f.revenue;
      rows := rows + [Row(order.day, Round(f.revenue), Round(f.labour), Round(f.parts), Round(estimatedProfit))];
    }
    assert orders[..|orders|] == orders;
    NetProfitIsSumOfProfits(orders);
    var netProfit := totalLabourRevenue + (totalPartsRevenue - totalPartsCost);
    summary := Summary(Round(totalRevenue), Round(totalLabourRevenue), Round(totalPartsRevenue), Round(totalPartsCost),
                       Round(netProfit));
  }

  // ---- Grouping by day -------------------------------------------------------------------------

  function Revenue(): Row -> int {
    (row: Row) => row.revenue
  }

  function Labour(): Row -> int {
    (row: Row) => row.labour
  }

  function Parts(): Row -> int {
    (row: Row) => row.parts
  }

  function Profit(): Row -> int {
    (row: Row) => row.profit
  }

  function One(): Row -> int {
    (_: Row) => 1
  }

  /** A column restricted to one day. */
  function On(day: string, f: Row -> int): Row -> int {
    (row: Row) => if row.day == day then f(row) else 0
  }

  function EntryOf(rows: seq<Row>, day: string): DayEntry {
    DayEntry(
      SumBy(rows, On(day, Revenue())),
      SumBy(rows, On(day, Labour())),
      SumBy(rows, On(day, Parts())),
      SumBy(rows, On(day, Profit())),
      SumBy(rows, On(day, One())))
  }

  ghost predicate HasDay(rows: seq<Row>, day: string) {
    exists k :: 0 <= k < |rows| && rows[k].day == day
  }

  lemma EntryGrows(rows: seq<Row>, row: Row, day: string)
    ensures var before := EntryOf(rows, day);
      EntryOf(rows + [row], day) ==
        if row.day == day
        then DayEntry(before.revenue + row.revenue, before.labour + row.labour, before.parts + row.parts,
                      before.profit + row.profit, before.orderCount + 1)
        else before
  {
    SumAppend(rows, row, On(day, Revenue()));
    SumAppend(rows, row, On(day, Labour()));
    SumAppend(rows, row, On(day, Parts()));
    SumAppend(rows, row, On(day, Profit()));
    SumAppend(rows, row, On(day, One()));
  }

  lemma HasDayGrows(rows: seq<Row>, row: Row, day: string)
    ensures HasDay(rows + [row], day) <==> HasDay(rows, day) || row.day == day
  {
    if HasDay(rows, day) {
      var k :| 0 <= k < |rows| && rows[k].day == day;
      assert (rows + [row])[k].day == day;
    }
    assert (rows + [row])[|rows|].day == row.day;
  }

  lemma {:induction false} AbsentDayIsEmpty(rows: seq<Row>, day: string)
    requires !HasDay(rows, day)
    ensures EntryOf(rows, day) == DayEntry(0, 0, 0, 0, 0)
  {
    if rows != [] {
      var front, last := rows[..|rows| - 1], rows[|rows| - 1];
      assert front + [last] == rows;
      HasDayGrows(front, last, day);
      AbsentDayIsEmpty(front, day);
      EntryGrows(front, last, day);
    }
  }

  /** The grouping holds exactly the days that occur, each with its own column sums. */
  ghost predicate Grouped(daily: map<string, DayEntry>, rows: seq<Row>) {
    && (forall day :: day in daily <==> HasDay(rows, day))
    && (forall day :: day in daily ==> daily[day] == EntryOf(rows, day))
  }

  lemma GroupedGrows(daily: map<string, DayEntry>, rows: seq<Row>, row: Row)
    requires Grouped(daily, rows)
    ensures Grouped(daily[row.day := EntryOf(rows + [row], row.day)], rows + [row])
  {
    var after := daily[row.day := EntryOf(rows + [row], row.day)];
    forall day
      ensures day in after <==> HasDay(rows + [row], day)
    {
      HasDayGrows(rows, row, day);
    }
    forall day | day in after
      ensures after[day] == EntryOf(rows + [row], day)
    {
      EntryGrows(rows, row, day);
    }
  }

  function EntryFor(daily: map<string, DayEntry>, day: string): DayEntry {
    if day in daily then daily[day] else DayEntry(0, 0, 0, 0, 0)
  }

  lemma DayUpdated(daily: map<string, DayEntry>, rows: seq<Row>, row: Row)
    requires Grouped(daily, rows)
    ensures var entry := EntryFor(daily, row.day);
      EntryOf(rows + [row], row.day)
        == DayEntry(entry.revenue + row.revenue, entry.labour + row.labour, entry.parts + row.parts,
                    entry.profit + row.profit, entry.orderCount + 1)
  {
    if row.day !in daily {
      AbsentDayIsEmpty(rows, row.day);
    }
    EntryGrows(rows, row, row.day);
  }

  method GroupByDay(rows: seq<Row>) returns (daily: map<string, DayEntry>)
    ensures Grouped(daily, rows)
  {
    daily := map[];
    for k := 0 to |rows|
      invariant Grouped(daily, rows[..k])
    {
      var row := rows[k];
      var entry := EntryFor(daily, row.day);
      DayUpdated(daily, rows[..k], row);
      GroupedGrows(daily, rows[..k], row);
      assert rows[..k] + [row] == rows[..k + 1];
      entry := DayEntry(entry.revenue + row.revenue, entry.labour + row.labour, entry.parts + row.parts,
                        entry.profit + row.profit, entry.orderCount + 1);
      daily := daily[row.day := entry];
    }
    assert rows[..|rows|] == rows;
  }

  // ---- What the report conserves ------------------------------------------------------------------

  /** A listing of the grouped days, in whatever order: each exactly once. */
  ghost predicate Lists(days: seq<string>, rows: seq<Row>) {
    && (forall i, j :: 0 <= i < j < |days| ==> days[i] != days[j])
    && (forall k :: 0 <= k < |rows| ==> rows[k].day in days)
  }

  function DayColumn(rows: seq<Row>, f: Row -> int): string -> int {
    (day: string) => SumBy(rows, On(day, f))
  }

  function Share(row: Row, f: Row -> int): string -> int {
    (day: string) => if row.day == day then f(row) else 0
  }

  /** A row counts on its own day and on no other. */
  lemma {:induction false} ShareOnce(days: seq<string>, row: Row, f: Row -> int)
    requires forall i, j :: 0 <= i < j < |days| ==> days[i] != days[j]
    requires row.day in days
    ensures SumBy(days, Share(row, f)) == f(row)
  {
    var last := |days| - 1;
    if days[last] == row.day {
      SumZero(days[..last], Share(row, f));
    } else {
      ShareOnce(days[..last], row, f);
    }
  }

  /** Summing day by day and summing order by order agree, for every column. */
  lemma {:induction false} GroupingConserves(days: seq<string>, rows: seq<Row>, f: Row -> int)
    requires Lists(days, rows)
    ensures SumBy(days, DayColumn(rows, f)) == SumBy(rows, f)
  {
    if rows == [] {
      SumZero(days, DayColumn(rows, f));
    } else {
      var front, last := rows[..|rows| - 1], rows[|rows| - 1];
      GroupingConserves(days, front, f);
      ShareOnce(days, last, f);
      SumSplit(days, DayColumn(rows, f), DayColumn(front, f), Share(last, f));
    }
  }

  lemma {:induction false} CountIsLength(rows: seq<Row>)
    ensures SumBy(rows, One()) == |rows|
  {
    if rows != [] {
      CountIsLength(rows[..|rows| - 1]);
    }
  }

  lemma {:induction false} RowsSumIsRoundedTotal(orders: seq<Order>)
    ensures SumBy(Rows(orders), Revenue()) == RoundedTotal(Column(orders, RevenueOf()))
    ensures SumBy(Rows(orders), Profit()) == RoundedTotal(Column(orders, ProfitOf()))
  {
    if orders != [] {
      var n := |orders| - 1;
      RowsSumIsRoundedTotal(orders[..n]);
      assert Rows(orders)[..n] == Rows(orders[..n]);
      assert Column(orders, RevenueOf())[..n] == Column(orders[..n], RevenueOf());
      assert Column(orders, ProfitOf())[..n] == Column(orders[..n], ProfitOf());
    }
  }

  /** The daily rows lose no order and no revenue, and their revenue and profit differ from the
      summary's by less than (n + 1) / 2 for n orders. */
  lemma ReportConserves(orders: seq<Order>, days: seq<string>)
    requires Lists(days, Rows(orders))
    ensures SumBy(days, DayColumn(Rows(orders), One())) == |orders|
    ensures SumBy(days, DayColumn(Rows(orders), Revenue())) == SumBy(Rows(orders), Revenue())
    ensures 2 * Abs(SumBy(days, DayColumn(Rows(orders), Revenue())) - SummaryOf(orders).totalRevenue) < |orders| + 1
    ensures 2 * Abs(SumBy(days, DayColumn(Rows(orders), Profit())) - SummaryOf(orders).netProfit) < |orders| + 1
  {
    DailyCounts(days, Rows(orders));
    DailyAgainstSummary(orders, days);
  }

  lemma DailyCounts(days: seq<string>, rows: seq<Row>)
    requires Lists(days, rows)
    ensures SumBy(days, DayColumn(rows, One())) == |rows|
    ensures SumBy(days, DayColumn(rows, Revenue())) == SumBy(rows, Revenue())
  {
    GroupingConserves(days, rows, One());
    GroupingConserves(days, rows, Revenue());
    CountIsLength(rows);
  }

  lemma DailyAgainstSummary(orders: seq<Order>, days: seq<string>)
    requires Lists(days, Rows(orders))
    ensures 2 * Abs(SumBy(days, DayColumn(Rows(orders), Revenue())) - SummaryOf(orders).totalRevenue) < |orders| + 1
    ensures 2 * Abs(SumBy(days, DayColumn(Rows(orders), Profit())) - SummaryOf(orders).netProfit) < |orders| + 1
  {
    GroupingConserves(days, Rows(orders), Revenue());
    GroupingConserves(days, Rows(orders), Profit());
    RowsAgainstSummary(orders);
  }

  lemma RowsAgainstSummary(orders: seq<Order>)
    ensures 2 * Abs(SumBy(Rows(orders), Revenue()) - SummaryOf(orders).totalRevenue) < |orders| + 1
    ensures 2 * Abs(SumBy(Rows(orders), Profit()) - SummaryOf(orders).netProfit) < |orders| + 1
  {
    RowsSumIsRoundedTotal(orders);
    RoundOnceGap(Column(orders, RevenueOf()));
    RoundOnceGap(Column(orders, ProfitOf()));
  }

  /** n orders of half a lira on one day. */
  function HalfOrders(n: nat): seq<Order> {
    seq(n, _ => Order("2026-01-05", 0.5, []))
  }

  /** The bound is attained: n such orders show n on their day and n - n / 2 in the summary. */
  lemma ReportGapIsTight(n: nat)
    ensures SumBy(Rows(HalfOrders(n)), Revenue()) == n
    ensures SummaryOf(HalfOrders(n)).totalRevenue == n - n / 2
  {
    var orders := HalfOrders(n);
    assert FiguresOf(Order("2026-01-05", 0.5, [])).revenue == 0.5;
    forall k | 0 <= k < n
      ensures Column(orders, RevenueOf())[k] == 0.5
    {
      assert orders[k] == Order("2026-01-05", 0.5, []);
    }
    assert Column(orders, RevenueOf()) == Halves(n);
    RowsSumIsRoundedTotal(orders);
    RoundOnceGapIsTight(n);
    HalfRoundsUp(n);
  }
}
