/** The dashboard read model: two counters that start at zero and change only
    by addition. */
module DashboardRepository {

  /** The read repository's two private counters. */
  datatype DashboardReadRepo = DashboardReadRepo(ticketsSold: int, revenue: int)

  /** The object `getDashboard` returns. */
  datatype DashboardView = DashboardView(ticketsSold: int, revenue: int)

  /** A freshly constructed read repository. */
  function Init(): (d: DashboardReadRepo)
    ensures d.ticketsSold == 0 && d.revenue == 0
  {
    DashboardReadRepo(0, 0)
  }

  /** `incrementTicketsSold(count)`. */
  function IncrementTicketsSold(d: DashboardReadRepo, count: int): (d': DashboardReadRepo)
    ensures d'.ticketsSold - d.ticketsSold == count
    ensures d'.revenue == d.revenue
  {
    d.(ticketsSold := d.ticketsSold + count)
  }

  /** `incrementRevenue(amount)`. */
  function IncrementRevenue(d: DashboardReadRepo, amount: int): (d': DashboardReadRepo)
    ensures d'.revenue - d.revenue == amount
    ensures d'.ticketsSold == d.ticketsSold
  {
    d.(revenue := d.revenue + amount)
  }

  /** `getDashboard`: a snapshot of both counters. */
  function GetDashboard(d: DashboardReadRepo): (v: DashboardView)
    ensures v.ticketsSold == d.ticketsSold && v.revenue == d.revenue
  {
    DashboardView(d.ticketsSold, d.revenue)
  }

  /** Increments compose additively: two increments by `a` then `b` are one
      increment by `a + b`, increments of different counters commute, and an
      increment by zero changes nothing. */
  lemma IncrementsCompose(d: DashboardReadRepo, a: int, b: int)
    ensures IncrementTicketsSold(IncrementTicketsSold(d, a), b) == IncrementTicketsSold(d, a + b)
    ensures IncrementRevenue(IncrementRevenue(d, a), b) == IncrementRevenue(d, a + b)
    ensures IncrementRevenue(IncrementTicketsSold(d, a), b)
      == IncrementTicketsSold(IncrementRevenue(d, b), a)
    ensures IncrementTicketsSold(d, 0) == d && IncrementRevenue(d, 0) == d
  {
  }

  /** One call to an increment method, as recorded in a call history. */
  datatype Increment = TicketsSold(count: int) | Revenue(amount: int)

  /** The read repository after a history of increment calls, in order. */
  function ApplyAll(d: DashboardReadRepo, calls: seq<Increment>): (d': DashboardReadRepo)
    decreases |calls|
  {
    if |calls| == 0 then d
    else
      var next := match calls[0]
        case TicketsSold(c) => IncrementTicketsSold(d, c)
        case Revenue(a) => IncrementRevenue(d, a);
      ApplyAll(next, calls[1..])
  }

  /** Sum of the `count` arguments in a call history. */
  function TicketsAdded(calls: seq<Increment>): (total: int)
    decreases |calls|
  {
    if |calls| == 0 then 0
    else (if calls[0].TicketsSold? then calls[0].count else 0) + TicketsAdded(calls[1..])
  }

  /** Sum of the `amount` arguments in a call history. */
  function RevenueAdded(calls: seq<Increment>): (total: int)
    decreases |calls|
  {
    if |calls| == 0 then 0
    else (if calls[0].Revenue? then calls[0].amount else 0) + RevenueAdded(calls[1..])
  }

  /** The counters only ever change by addition: after any history of
      increment calls each counter has grown by exactly the sum of the
      arguments passed to its own increment method. */
  lemma {:induction false} ApplyAllAdds(d: DashboardReadRepo, calls: seq<Increment>)
    ensures ApplyAll(d, calls).ticketsSold == d.ticketsSold + TicketsAdded(calls)
    ensures ApplyAll(d, calls).revenue == d.revenue + RevenueAdded(calls)
    decreases |calls|
  {
    if |calls| > 0 {
      var next := match calls[0]
        case TicketsSold(c) => IncrementTicketsSold(d, c)
        case Revenue(a) => IncrementRevenue(d, a);
      ApplyAllAdds(next, calls[1..]);
    }
  }

  /** The dashboard a fresh read repository reports after any history of
      increment calls is the pair of argument sums. */
  lemma DashboardAfterCalls(calls: seq<Increment>)
    ensures GetDashboard(ApplyAll(Init(), calls))
      == DashboardView(TicketsAdded(calls), RevenueAdded(calls))
  {
    ApplyAllAdds(Init(), calls);
  }
}
