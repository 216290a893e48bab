# Booking store and dashboard read model

A Dafny model of the core of a small NestJS booking backend. The core has two parts:

- **Booking ledger.** `BookingRepository` is an in-memory array of bookings plus an id counter that starts at 1. `BookingService.createBooking` puts a guard in front of it. The guard rejects an empty customer name, an empty date, or fewer than one seat with a `BadRequestException`. A request that passes the guard becomes one appended record.
- **Dashboard read model.** `DashboardReadRepo` holds two counters, `ticketsSold` and `revenue`. They start at zero and change only by addition. `BookingCreatedHandler` adds one ticket and the event's price. The `booking.deleted` handler only logs.

The model is functional. Each class's private fields become an immutable record (`Repository`, `DashboardReadRepo`). Each method becomes a pure function from the state before to the state after (together with the returned value, if there is one). A thrown exception becomes the `Failure` arm of a `Result`, and the state is returned unchanged next to it. Runs of calls are modelled by folds (`CreateAll`, `ProcessAll`, `ApplyAll`, `HandleAll`). The lemmas about those folds state the properties that involve several calls.

Modules follow the source files:

| module | file |
|---|---|
| `BookingRepository` | `booking_repository.dfy` (src/booking/repository/booking.repository.ts) |
| `BookingService` | `booking_service.dfy` (src/booking/service/booking.service.ts) |
| `DashboardRepository` | `dashboard_repository.dfy` (src/booking/repository/booking-dashboard.repository.ts) |
| `BookingEvents` | `booking_events.dfy` (src/booking/events/booking.event.ts) |

The entity file `src/booking/entities/booking.entities.ts` is not part of this model. The `Booking` shape comes from the record the service builds: `id`, `customerName`, `date`, `seats`. It has no price.

What the code does not have, the model does not have either:

- There is no delete operation on the store and no tombstone flag.
- There is no per-date report.
- The service never emits `BookingCreatedEvent`, and bookings carry no price.
- The deleted-handler does not decrement the dashboard. `HandleAllTotals` states this precisely: a deleted event never moves either counter.

## Model

| member | source | states |
|---|---|---|
| BookingRepository.Init | src/booking/repository/booking.repository.ts:5-6 | A new repository is empty and satisfies the invariant: the i-th booking has id i+1 and the counter is one more than the number of bookings. |
| BookingRepository.Create | src/booking/repository/booking.repository.ts:8-12 | The returned booking has the counter's old value as its id and the draft's fields verbatim. The counter grows by exactly 1. Exactly one record is appended at the end, it equals the returned booking, and every earlier record is unchanged. The invariant is preserved, and the new id is larger than every stored id. |
| BookingRepository.FindAll | src/booking/repository/booking.repository.ts:14-16 | Returns every stored booking in insertion order. Under the invariant it returns `idCounter - 1` bookings whose ids are 1, 2, 3, ... in order. |
| BookingRepository.ValidIdsOrdered | src/booking/repository/booking.repository.ts:5-10 | Under the invariant, stored ids are strictly increasing (so unique) and all lie in `[1, idCounter)`, so the next id is fresh. |
| BookingRepository.FirstIdIsOne | src/booking/repository/booking.repository.ts:6-9 | The first booking created on a fresh repository gets id 1 and is the only stored booking. |
| BookingRepository.CreateAllNumbers | src/booking/repository/booking.repository.ts:6-11 | A run of `create` calls returns the drafts stamped with consecutive ids starting at the counter. It appends them, in call order, after the existing records, and advances the counter by the number of calls. |
| BookingRepository.CreateAllFreshIds | src/booking/repository/booking.repository.ts:6-10 | An id is never handed out twice. The ids returned by a run of `create` calls are strictly increasing and differ from every id already stored, and the invariant still holds afterwards. |
| BookingRepository.FindAllAfterCreates | src/booking/repository/booking.repository.ts:5-16 | From a fresh repository, `findAll` after any run of creates lists exactly the drafts, in order, numbered 1, 2, 3, ... |
| BookingService.CreateBooking | src/booking/service/booking.service.ts:11-26 | Fails with `BadRequestException("Invalid booking data")` if and only if the name is empty, the date is empty, or `seats < 1`. On failure the repository is unchanged. On success exactly one record is appended. That record is the returned booking: the input's name, date and seats plus the repository's next id. The counter grows by 1, and the repository invariant is preserved. |
| BookingService.GetAllBookings | src/booking/service/booking.service.ts:28-30 | Returns exactly the repository's `findAll` result. Under the invariant it returns `idCounter - 1` bookings. |
| BookingService.ProcessAllStoresAccepted | src/booking/service/booking.service.ts:13-25 | After any run of create requests, the repository holds its old records followed by exactly the accepted requests, in request order, with consecutive ids from the counter on. Rejected requests leave no trace. |
| BookingService.ListAfterRequests | src/booking/service/booking.service.ts:11-30 | From a fresh repository, the list query after any run of requests returns the accepted requests numbered 1, 2, 3, ... |
| BookingService.RejectedLeavesRepository | src/booking/service/booking.service.ts:13-15 | A rejected request anywhere in a run (`pre + [dto] + post`), from any starting repository, has no effect on the final repository: the run ends as `pre + post` does. |
| BookingService.ThreeRequestsExample | src/booking/service/booking.service.ts:11-30 | Concrete run: a request with an empty name is rejected, and the two valid requests around it get ids 1 and 2 with their fields copied. |
| DashboardRepository.Init | src/booking/repository/booking-dashboard.repository.ts:5-6 | Both counters are zero on construction. |
| DashboardRepository.IncrementTicketsSold | src/booking/repository/booking-dashboard.repository.ts:8-10 | `ticketsSold` grows by exactly `count` and `revenue` is unchanged. |
| DashboardRepository.IncrementRevenue | src/booking/repository/booking-dashboard.repository.ts:12-14 | `revenue` grows by exactly `amount` and `ticketsSold` is unchanged. |
| DashboardRepository.GetDashboard | src/booking/repository/booking-dashboard.repository.ts:16-21 | Returns the current pair `(ticketsSold, revenue)`. |
| DashboardRepository.IncrementsCompose | src/booking/repository/booking-dashboard.repository.ts:8-14 | Incrementing by `a` then by `b` equals incrementing once by `a + b`, for each counter. Increments of the two counters commute, and an increment by zero leaves the read model unchanged. |
| DashboardRepository.ApplyAllAdds | src/booking/repository/booking-dashboard.repository.ts:5-14 | After any history of increment calls, each counter has grown by exactly the sum of the arguments passed to its own increment method. |
| DashboardRepository.DashboardAfterCalls | src/booking/repository/booking-dashboard.repository.ts:5-21 | From a fresh read model, `getDashboard` after any history of increments reports the two argument sums. |
| BookingEvents.HandleBookingCreated | src/booking/events/booking.event.ts:31-35 | Handling a created event increases `ticketsSold` by exactly 1 and `revenue` by exactly the event's price. |
| BookingEvents.HandleBookingDeleted | src/booking/events/booking.event.ts:8-13 | Handling a deleted event leaves both counters unchanged. |
| BookingEvents.HandleCreatedIsIncrements | src/booking/events/booking.event.ts:31-35 | The created-handler's effect is the same as the two calls `incrementTicketsSold(1)` then `incrementRevenue(price)`. |
| BookingEvents.HandleAllTotals | src/booking/events/booking.event.ts:8-35 | After any interleaving of created and deleted handler calls, `ticketsSold` has grown by the number of created events and `revenue` by the sum of their prices. Deleted events contribute nothing. |
| BookingEvents.DashboardAfterCreatedEvents | src/booking/events/booking.event.ts:31-35 | From a fresh dashboard, handling created events e1..en yields `ticketsSold = n` and `revenue` equal to the sum of their prices. |
| BookingEvents.DeletedIsTransparent | src/booking/events/booking.event.ts:8-13 | A deleted event anywhere in a stream of handler calls (`pre + [deleted] + post`), from any starting dashboard, does not change the resulting dashboard. |

## Left out

- Controllers, Nest modules and dependency injection (`booking.controller.ts`, `booking.module.ts`, `app.module.ts`) are HTTP routing and wiring.
- `DashboardService.getDashboardData` is a one-line pass-through to `getDashboard`.
- The class-validator decorators on `CreateBookingDto` are left out because they run inside a foreign library. Only the explicit guard in `createBooking` is modelled.
- `new Date(dto.date)` is modelled as an opaque `BookingDate` that wraps the request's date text. It has no calendar semantics, and an unparseable date is stored the same way as any other date.
- Seats are narrowed from JavaScript `number` to an integer, and names and dates to strings. Seats, prices, counts and ids are unbounded integers instead of floating-point `number`s. As a result, some values are not modelled:
  - `NaN` seats (or `undefined`, through `undefined < 1`) pass the guard at booking.service.ts:13 because the comparison is false, and the booking is stored. The model has no such value.
  - Fractional seats such as 1.5 also pass the guard and are stored.
  - `null` or `undefined` names and dates are rejected by the guard in the source. Here they have no counterpart.
- `console.log`, the commented-out email and activity calls, and the Promise/async machinery are left out. The dashboard methods are plain sequential updates, because no `await` separates a counter's read from its write.
- BookingEvents.HandleBookingCreated: is one atomic step, although `handle` awaits between its two increments (booking.event.ts:33-34). Another handler or a `getDashboard` call can run in between and see the ticket counted but not yet its revenue. That intermediate snapshot is not modelled. Final totals do not depend on the interleaving: `HandleCreatedIsIncrements` turns the handler into its two increment calls, and `ApplyAllAdds` shows that any history of increment calls adds up to the same argument sums.
- Event dispatch through the CQRS and event-emitter libraries is left out. No dispatcher code exists in the core, and the service never publishes events, so only each handler's effect is modelled. The handler-call sequences in `HandleAll` are given as inputs.
- The read-only fields of `BookingCreatedEvent` need no lemma. The event is an immutable datatype value, so a handler cannot alter it.
- Aliasing is not modelled, because the model works on values.
  - `findAll` returns the live internal array, so a caller could mutate repository state through it.
  - `create` returns the very object it pushes (booking.repository.ts:9-11), so a caller could change a stored record through the returned booking.
