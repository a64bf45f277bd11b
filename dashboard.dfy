/** The dashboard slice: the server's summary payload projected into the
    statistics cards and the two sales lists the home page shows. */
module Dashboard {
  import opened Js

  /** Money amounts and percentages are copied from the payload and never
      computed with, so the model only needs them as values. */
  type Amount = real
  type Percent = real

  /** A count this period and last period, and the server's percent change. */
  datatype Comparison = Comparison(current: int, previous: int, percentChange: Percent)

  datatype PayloadStats = PayloadStats(products: Comparison, orders: Comparison, usersPercentChange: Percent)

  datatype MonthRevenue = MonthRevenue(month: string, revenue: Amount)

  datatype PayloadSale = PayloadSale(
    id: Option<string>,
    customerName: string,
    customerEmail: string,
    amount: Amount,
    date: string)

  /** The body of the dashboard request. */
  datatype DashboardPayload = DashboardPayload(
    totalRevenue: Amount,
    revenueChange: Percent,
    stats: PayloadStats,
    activeUsers: int,
    newUsers: int,
    monthlyRevenue: seq<MonthRevenue>,
    recentSales: seq<PayloadSale>)

  datatype RevenueStat = RevenueStat(value: Amount, percentChange: Percent)
  datatype CountStat = CountStat(value: int, change: int, percentChange: Percent)
  datatype UserStat = UserStat(value: int, newUsers: int, percentChange: Percent)
  datatype Stats = Stats(totalRevenue: RevenueStat, products: CountStat, orders: CountStat, users: UserStat)

  datatype MonthlySale = MonthlySale(month: string, sales: Amount)

  /** A sale's id: the server's when it sent a truthy one, otherwise one made
      up on the client (a random string, which the model does not choose). */
  datatype SaleId = Given(id: string) | Generated

  datatype RecentSale = RecentSale(
    id: SaleId,
    customerName: string,
    customerEmail: string,
    amount: Amount,
    date: string)

  /** The whole state of the dashboard slice. */
  datatype DashboardSlice = DashboardSlice(
    isLoading: bool,
    stats: Stats,
    monthlySales: seq<MonthlySale>,
    recentSales: seq<RecentSale>,
    error: Option<string>)

  function InitialDashboard(): DashboardSlice {
    DashboardSlice(
      false,
      Stats(RevenueStat(0.0, 0.0), CountStat(0, 0, 0.0), CountStat(0, 0, 0.0), UserStat(0, 0, 0.0)),
      [], [], None)
  }

  /** A count card: this period's count and its difference from last period. */
  function CountStatOf(c: Comparison): CountStat {
    CountStat(c.current, c.current - c.previous, c.percentChange)
  }

  /** The statistics cards built from the payload. */
  function StatsOf(data: DashboardPayload): Stats {
    Stats(
      RevenueStat(data.totalRevenue, data.revenueChange),
      CountStatOf(data.stats.products),
      CountStatOf(data.stats.orders),
      UserStat(data.activeUsers, data.newUsers, data.stats.usersPercentChange))
  }

  /** `monthlyRevenue.map(item => ({ month, sales: item.revenue }))`. */
  function MonthlySales(items: seq<MonthRevenue>): (r: seq<MonthlySale>)
    ensures |r| == |items|
    ensures forall k :: 0 <= k < |r| ==> r[k].month == items[k].month && r[k].sales == items[k].revenue
  {
    if items == [] then [] else [MonthlySale(items[0].month, items[0].revenue)] + MonthlySales(items[1..])
  }

  /** The sale's own id when it is truthy, a generated one otherwise. */
  function SaleIdOf(id: Option<string>): SaleId {
    if Truthy(id) then Given(id.value) else Generated
  }

  /** `recentSales.map(...)`: every sale, in order, with its fields copied. */
  function RecentSales(sales: seq<PayloadSale>): (r: seq<RecentSale>)
    ensures |r| == |sales|
    ensures forall k :: 0 <= k < |r| ==>
      && r[k].customerName == sales[k].customerName
      && r[k].customerEmail == sales[k].customerEmail
      && r[k].amount == sales[k].amount
      && r[k].date == sales[k].date
    ensures forall k :: 0 <= k < |r| && Truthy(sales[k].id) ==> r[k].id == Given(sales[k].id.value)
    ensures forall k :: 0 <= k < |r| ==> (r[k].id == Generated <==> !Truthy(sales[k].id))
  {
    if sales == [] then []
    else
      var s := sales[0];
      [RecentSale(SaleIdOf(s.id), s.customerName, s.customerEmail, s.amount, s.date)] + RecentSales(sales[1..])
  }

  function FetchDashboardPending(s: DashboardSlice): (r: DashboardSlice)
    ensures r.isLoading && r.error.None?
    ensures r.(isLoading := s.isLoading, error := s.error) == s
  {
    s.(isLoading := true, error := None)
  }

  /** The fulfilled reducer: statistics and both lists are replaced wholesale
      from the payload; the error is left as it was. */
  function FetchDashboardFulfilled(s: DashboardSlice, data: DashboardPayload): (r: DashboardSlice)
    ensures !r.isLoading && r.error == s.error
    ensures r.stats.products.value == data.stats.products.current
    ensures r.stats.products.change == data.stats.products.current - data.stats.products.previous
    ensures r.stats.orders.value == data.stats.orders.current
    ensures r.stats.orders.change == data.stats.orders.current - data.stats.orders.previous
    ensures r.stats.totalRevenue == RevenueStat(data.totalRevenue, data.revenueChange)
    ensures r.stats.users == UserStat(data.activeUsers, data.newUsers, data.stats.usersPercentChange)
    ensures r.stats.products.percentChange == data.stats.products.percentChange
    ensures r.stats.orders.percentChange == data.stats.orders.percentChange
    ensures |r.monthlySales| == |data.monthlyRevenue|
    ensures forall k :: 0 <= k < |r.monthlySales| ==>
      r.monthlySales[k] == MonthlySale(data.monthlyRevenue[k].month, data.monthlyRevenue[k].revenue)
    ensures |r.recentSales| == |data.recentSales|
    ensures forall k :: 0 <= k < |r.recentSales| && Truthy(data.recentSales[k].id) ==>
      r.recentSales[k] == RecentSale(Given(data.recentSales[k].id.value), data.recentSales[k].customerName,
                                     data.recentSales[k].customerEmail, data.recentSales[k].amount, data.recentSales[k].date)
    ensures forall k :: 0 <= k < |r.recentSales| && !Truthy(data.recentSales[k].id) ==>
      r.recentSales[k] == RecentSale(Generated, data.recentSales[k].customerName,
                                     data.recentSales[k].customerEmail, data.recentSales[k].amount, data.recentSales[k].date)
  {
    s.(isLoading := false,
       stats := StatsOf(data),
       monthlySales := MonthlySales(data.monthlyRevenue),
       recentSales := RecentSales(data.recentSales))
  }

  function FetchDashboardRejected(s: DashboardSlice, payload: Option<string>): (r: DashboardSlice)
    ensures !r.isLoading && r.error == payload
    ensures r.(isLoading := s.isLoading, error := s.error) == s
  {
    s.(isLoading := false, error := payload)
  }
  /** A request cycle ends with loading off; a successful one leaves no
      error, a failed one leaves exactly the rejection payload and the cards
      as they were (zero, and no sales, when it was the first request). */
  lemma RequestCycleSettles(s: DashboardSlice, data: DashboardPayload, payload: Option<string>)
    ensures var r := FetchDashboardFulfilled(FetchDashboardPending(s), data); !r.isLoading && r.error.None?
    ensures var r := FetchDashboardRejected(FetchDashboardPending(s), payload); !r.isLoading && r.error == payload
    ensures FetchDashboardRejected(FetchDashboardPending(s), payload).stats == s.stats
    ensures var r := FetchDashboardRejected(FetchDashboardPending(InitialDashboard()), payload);
      r.stats.orders.value == 0 && r.monthlySales == [] && r.recentSales == []
  {
  }

  /** The revenue the payload reports across its months. */
  function RevenueTotal(items: seq<MonthRevenue>): Amount {
    if items == [] then 0.0 else items[0].revenue + RevenueTotal(items[1..])
  }

  /** The sales the chart shows across its months. */
  function SalesTotal(sales: seq<MonthlySale>): Amount {
    if sales == [] then 0.0 else sales[0].sales + SalesTotal(sales[1..])
  }

  /** The chart shows exactly the revenue the payload reports. */
  lemma {:induction false} MonthlySalesKeepTotal(items: seq<MonthRevenue>)
    ensures SalesTotal(MonthlySales(items)) == RevenueTotal(items)
  {
    if items != [] {
      MonthlySalesKeepTotal(items[1..]);
    }
  }
}
