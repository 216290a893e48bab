/** The booking service: the create command's input guard and record
    construction over the repository, and the list query. */
module BookingService {
  import opened BookingRepository

  /** The request body of a create command. `seats` is an integer here. */
  datatype CreateBookingDto = CreateBookingDto(customerName: string, date: string, seats: int)

  /** The HTTP error the guard throws. */
  datatype HttpError = BadRequestException(message: string)

  datatype Result<+T> = Success(value: T) | Failure(error: HttpError)

  /** The repository after a command together with what the command returned
      or threw. */
  datatype Reply<+T> = Reply(repo: Repository, result: Result<T>)

  const InvalidBookingData: string := "Invalid booking data"

  /** The guard `!customerName || !date || seats < 1`: an empty string is
      falsy, so a name or date is rejected exactly when it is empty. */
  predicate Rejected(dto: CreateBookingDto)
  {
    dto.customerName == "" || dto.date == "" || dto.seats < 1
  }

  /** The record the service builds from an accepted request. */
  function DraftOf(dto: CreateBookingDto): BookingDraft
  {
    BookingDraft(dto.customerName, BookingDate(dto.date), dto.seats)
  }

  /** `createBooking`: reject a bad request before touching the repository,
      otherwise hand the built record to the repository and return what it
      created. */
  function CreateBooking(repo: Repository, dto: CreateBookingDto): (out: Reply<Booking>)
    ensures out.result.Failure? <==> (dto.customerName == [] || dto.date == [] || dto.seats < 1)
    ensures out.result.Failure? ==> out.repo == repo
    ensures out.result.Failure? ==> out.result.error == BadRequestException("Invalid booking data")
    ensures out.result.Success? ==>
      && out.repo.bookings == repo.bookings + [out.result.value]
      && out.repo.idCounter == repo.idCounter + 1
      && out.result.value.id == repo.idCounter
      && out.result.value.customerName == dto.customerName
      && out.result.value.date == BookingDate(dto.date)
      && out.result.value.seats == dto.seats
    ensures Valid(repo) ==> Valid(out.repo)
  {
    if Rejected(dto) then
      Reply(repo, Failure(BadRequestException(InvalidBookingData)))
    else
      var c := Create(repo, DraftOf(dto));
      Reply(c.repo, Success(c.booking))
  }

  /** `getAllBookings`: exactly what the repository's `findAll` returns. */
  function GetAllBookings(repo: Repository): (bs: seq<Booking>)
    ensures bs == FindAll(repo)
    ensures Valid(repo) ==> |bs| == repo.idCounter - 1
  {
    FindAll(repo)
  }

  /** The repository after a run of create requests, failed ones included. */
  function ProcessAll(repo: Repository, dtos: seq<CreateBookingDto>): (after: Repository)
    decreases |dtos|
  {
    if |dtos| == 0 then repo
    else ProcessAll(CreateBooking(repo, dtos[0]).repo, dtos[1..])
  }

  /** The records built from the requests the guard lets through, in order. */
  function AcceptedDrafts(dtos: seq<CreateBookingDto>): (ds: seq<BookingDraft>)
    decreases |dtos|
  {
    if |dtos| == 0 then []
    else if Rejected(dtos[0]) then AcceptedDrafts(dtos[1..])
    else [DraftOf(dtos[0])] + AcceptedDrafts(dtos[1..])
  }

  /** A run of create requests stores exactly the accepted requests, in
      request order, numbered on from the counter; rejected requests leave
      no trace. */
  lemma {:induction false} ProcessAllStoresAccepted(repo: Repository, dtos: seq<CreateBookingDto>)
    ensures ProcessAll(repo, dtos).bookings
      == repo.bookings + Numbered(AcceptedDrafts(dtos), repo.idCounter)
    ensures ProcessAll(repo, dtos).idCounter == repo.idCounter + |AcceptedDrafts(dtos)|
    decreases |dtos|
  {
    if |dtos| > 0 {
      var out := CreateBooking(repo, dtos[0]);
      ProcessAllStoresAccepted(out.repo, dtos[1..]);
      var rest := AcceptedDrafts(dtos[1..]);
      if !Rejected(dtos[0]) {
        var b := WithId(DraftOf(dtos[0]), repo.idCounter);
        assert [b] + Numbered(rest, repo.idCounter + 1)
          == Numbered([DraftOf(dtos[0])] + rest, repo.idCounter);
      }
    }
  }

  /** From a fresh repository, the list query after any run of create
      requests returns the accepted requests numbered 1, 2, 3, ... */
  lemma ListAfterRequests(dtos: seq<CreateBookingDto>)
    ensures GetAllBookings(ProcessAll(Init(), dtos)) == Numbered(AcceptedDrafts(dtos), 1)
  {
    ProcessAllStoresAccepted(Init(), dtos);
  }

  /** A rejected request anywhere in a run of requests has no effect on the
      repository the run ends with. */
  lemma {:induction false} RejectedLeavesRepository(
    repo: Repository, pre: seq<CreateBookingDto>, dto: CreateBookingDto, post: seq<CreateBookingDto>)
    requires Rejected(dto)
    ensures ProcessAll(repo, pre + [dto] + post) == ProcessAll(repo, pre + post)
    decreases |pre|
  {
    if |pre| == 0 {
      assert pre + [dto] + post == [dto] + post;
      assert ([dto] + post)[1..] == post;
      assert pre + post == post;
    } else {
      var next := CreateBooking(repo, pre[0]).repo;
      RejectedLeavesRepository(next, pre[1..], dto, post);
      assert (pre + [dto] + post)[1..] == pre[1..] + [dto] + post;
      assert (pre + post)[1..] == pre[1..] + post;
    }
  }

  /** Two good requests around one with an empty name: the bad one is
      rejected and the good ones get ids 1 and 2. */
  lemma ThreeRequestsExample()
    ensures
      var alice := CreateBookingDto("Alice", "2025-08-15", 2);
      var bob := CreateBookingDto("Bob", "2025-08-15", 1);
      var nameless := CreateBookingDto("", "2025-01-01", 1);
      && CreateBooking(Init(), nameless).result.Failure?
      && GetAllBookings(ProcessAll(Init(), [alice, nameless, bob]))
        == [Booking(1, "Alice", BookingDate("2025-08-15"), 2),
            Booking(2, "Bob", BookingDate("2025-08-15"), 1)]
  {
    var alice := CreateBookingDto("Alice", "2025-08-15", 2);
    var bob := CreateBookingDto("Bob", "2025-08-15", 1);
    var nameless := CreateBookingDto("", "2025-01-01", 1);
    var dtos := [alice, nameless, bob];
    ListAfterRequests(dtos);
    assert dtos[1..] == [nameless, bob];
    assert dtos[1..][1..] == [bob];
    assert [bob][1..] == [];
    assert AcceptedDrafts([bob]) == [DraftOf(bob)];
    assert AcceptedDrafts([nameless, bob]) == [DraftOf(bob)];
    assert AcceptedDrafts(dtos) == [DraftOf(alice), DraftOf(bob)];
  }
}
