/** The booking event handlers: the created-handler feeds the dashboard read
    model, the deleted-handler only logs. */
module BookingEvents {
  import opened DashboardRepository

  /** `BookingCreatedEvent`: a value whose fields are fixed at construction. */
  datatype BookingCreatedEvent = BookingCreatedEvent(
    bookingId: int, customerName: string, date: string, seatNumber: string, price: int)

  /** The payload of a `booking.deleted` event. */
  datatype BookingDeletedPayload = BookingDeletedPayload(bookingId: int)

  /** `BookingCreatedHandler.handle`: one ticket, then the event's price. */
  function HandleBookingCreated(d: DashboardReadRepo, e: BookingCreatedEvent): (d': DashboardReadRepo)
    ensures d'.ticketsSold == d.ticketsSold + 1
    ensures d'.revenue == d.revenue + e.price
  {
    IncrementRevenue(IncrementTicketsSold(d, 1), e.price)
  }

  /** `BookingEventsHandler.handleBookingDeleted`: it only writes a log line,
      so the dashboard it leaves behind is the one it was given. */
  function HandleBookingDeleted(d: DashboardReadRepo, p: BookingDeletedPayload): (d': DashboardReadRepo)
    ensures d'.ticketsSold == d.ticketsSold && d'.revenue == d.revenue
  {
    d
  }

  /** The created-handler's effect expressed as the increment calls it makes. */
  lemma HandleCreatedIsIncrements(d: DashboardReadRepo, e: BookingCreatedEvent)
    ensures HandleBookingCreated(d, e) == ApplyAll(d, [TicketsSold(1), Revenue(e.price)])
  {
    var calls := [TicketsSold(1), Revenue(e.price)];
    var d1 := IncrementTicketsSold(d, 1);
    assert calls[1..] == [Revenue(e.price)];
    assert [Revenue(e.price)][1..] == [];
    assert ApplyAll(d1, [Revenue(e.price)]) == ApplyAll(IncrementRevenue(d1, e.price), []);
  }

  /** One handler invocation: a created event or a deleted payload. */
  datatype HandlerCall = OnCreated(created: BookingCreatedEvent) | OnDeleted(deleted: BookingDeletedPayload)

  /** The dashboard after a sequence of handler invocations, in order. */
  function HandleAll(d: DashboardReadRepo, calls: seq<HandlerCall>): (d': DashboardReadRepo)
    decreases |calls|
  {
    if |calls| == 0 then d
    else
      var next := match calls[0]
        case OnCreated(e) => HandleBookingCreated(d, e)
        case OnDeleted(p) => HandleBookingDeleted(d, p);
      HandleAll(next, calls[1..])
  }

  /** Number of created events among the invocations. */
  function CreatedCount(calls: seq<HandlerCall>): (n: nat)
    decreases |calls|
  {
    if |calls| == 0 then 0
    else (if calls[0].OnCreated? then 1 else 0) + CreatedCount(calls[1..])
  }

  /** Sum of the prices of the created events among the invocations. */
  function CreatedPrices(calls: seq<HandlerCall>): (total: int)
    decreases |calls|
  {
    if |calls| == 0 then 0
    else (if calls[0].OnCreated? then calls[0].created.price else 0) + CreatedPrices(calls[1..])
  }

  /** After any sequence of handler invocations each counter has grown by what
      the created events contributed and nothing else: deleted events never
      move either counter. */
  lemma {:induction false} HandleAllTotals(d: DashboardReadRepo, calls: seq<HandlerCall>)
    ensures HandleAll(d, calls).ticketsSold == d.ticketsSold + CreatedCount(calls)
    ensures HandleAll(d, calls).revenue == d.revenue + CreatedPrices(calls)
    decreases |calls|
  {
    if |calls| > 0 {
      var next := match calls[0]
        case OnCreated(e) => HandleBookingCreated(d, e)
        case OnDeleted(p) => HandleBookingDeleted(d, p);
      HandleAllTotals(next, calls[1..]);
    }
  }

  /** Starting from a fresh dashboard, handling created events e1..en yields
      `ticketsSold = n` and `revenue` = the sum of their prices. */
  lemma DashboardAfterCreatedEvents(events: seq<BookingCreatedEvent>)
    ensures GetDashboard(HandleAll(Init(), seq(|events|, i requires 0 <= i < |events| => OnCreated(events[i]))))
      == DashboardView(|events|, PriceSum(events))
  {
    var calls := seq(|events|, i requires 0 <= i < |events| => OnCreated(events[i]));
    HandleAllTotals(Init(), calls);
    CreatedOnly(events);
  }

  /** Sum of the prices of a sequence of created events. */
  function PriceSum(events: seq<BookingCreatedEvent>): (total: int)
    decreases |events|
  {
    if |events| == 0 then 0 else events[0].price + PriceSum(events[1..])
  }

  /** A stream of created events only: its count is its length and its
      price total is `PriceSum`. */
  lemma {:induction false} CreatedOnly(events: seq<BookingCreatedEvent>)
    ensures CreatedCount(seq(|events|, i requires 0 <= i < |events| => OnCreated(events[i]))) == |events|
    ensures CreatedPrices(seq(|events|, i requires 0 <= i < |events| => OnCreated(events[i]))) == PriceSum(events)
    decreases |events|
  {
    if |events| > 0 {
      var calls := seq(|events|, i requires 0 <= i < |events| => OnCreated(events[i]));
      CreatedOnly(events[1..]);
      assert calls[1..] == seq(|events[1..]|, i requires 0 <= i < |events[1..]| => OnCreated(events[1..][i]));
    }
  }

  /** A deleted event anywhere in a stream of handler calls does not change
      the dashboard the stream ends with. */
  lemma {:induction false} DeletedIsTransparent(
    d: DashboardReadRepo, pre: seq<HandlerCall>, p: BookingDeletedPayload, post: seq<HandlerCall>)
    ensures HandleAll(d, pre + [OnDeleted(p)] + post) == HandleAll(d, pre + post)
    decreases |pre|
  {
    if |pre| == 0 {
      assert pre + [OnDeleted(p)] + post == [OnDeleted(p)] + post;
      assert ([OnDeleted(p)] + post)[1..] == post;
      assert pre + post == post;
    } else {
      var next := match pre[0]
        case OnCreated(e) => HandleBookingCreated(d, e)
        case OnDeleted(q) => HandleBookingDeleted(d, q);
      DeletedIsTransparent(next, pre[1..], p, post);
      assert (pre + [OnDeleted(p)] + post)[1..] == pre[1..] + [OnDeleted(p)] + post;
      assert (pre + post)[1..] == pre[1..] + post;
    }
  }
}
