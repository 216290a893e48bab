/** The in-memory booking ledger: an append-only sequence of bookings and an id
    counter that starts at 1 and hands out each id exactly once. */
module BookingRepository {

  /** The value `new Date(text)` yields. It is held opaquely: the model gives
      dates no calendar meaning, only the text they were built from. */
  datatype BookingDate = BookingDate(text: string)

  /** A stored booking: the fields the service builds plus the assigned id. */
  datatype Booking = Booking(id: int, customerName: string, date: BookingDate, seats: int)

  /** `Omit<Booking, 'id'>`: what a caller hands to `create`. */
  datatype BookingDraft = BookingDraft(customerName: string, date: BookingDate, seats: int)

  /** The repository's two private fields. */
  datatype Repository = Repository(bookings: seq<Booking>, idCounter: int)

  /** The result of `create`: the repository afterwards and the booking returned. */
  datatype Created = Created(repo: Repository, booking: Booking)

  /** A draft stamped with an id, the spread `{ id, ...booking }`. */
  function WithId(d: BookingDraft, id: int): (b: Booking)
  {
    Booking(id, d.customerName, d.date, d.seats)
  }

  /** The repository invariant: the i-th stored booking has id i + 1, so the
      number of stored bookings is always `idCounter - 1`. */
  ghost predicate Valid(r: Repository)
  {
    && r.idCounter == |r.bookings| + 1
    && forall i :: 0 <= i < |r.bookings| ==> r.bookings[i].id == i + 1
  }

  /** Ids in a stored sequence are strictly increasing (hence unique). */
  ghost predicate StrictlyIncreasingIds(bs: seq<Booking>)
  {
    forall i, j :: 0 <= i < j < |bs| ==> bs[i].id < bs[j].id
  }

  /** A freshly constructed repository. */
  function Init(): (r: Repository)
    ensures Valid(r)
    ensures |r.bookings| == 0
  {
    Repository([], 1)
  }

  /** `create`: stamp the draft with the current counter, bump the counter,
      append the new booking and return it. */
  function Create(r: Repository, d: BookingDraft): (c: Created)
    ensures c.booking.id == r.idCounter
    ensures c.booking.customerName == d.customerName
    ensures c.booking.date == d.date && c.booking.seats == d.seats
    ensures c.repo.idCounter == r.idCounter + 1
    ensures |c.repo.bookings| == |r.bookings| + 1
    ensures c.repo.bookings[..|r.bookings|] == r.bookings
    ensures c.repo.bookings[|r.bookings|] == c.booking
    ensures Valid(r) ==> Valid(c.repo)
    ensures Valid(r) ==> forall b :: b in r.bookings ==> b.id < c.booking.id
  {
    var b := WithId(d, r.idCounter);
    Created(Repository(r.bookings + [b], r.idCounter + 1), b)
  }

  /** `findAll`: every stored booking, in insertion order. */
  function FindAll(r: Repository): (bs: seq<Booking>)
    ensures |bs| == |r.bookings|
    ensures forall i :: 0 <= i < |bs| ==> bs[i] == r.bookings[i]
    ensures Valid(r) ==> |bs| == r.idCounter - 1
    ensures Valid(r) ==> forall i :: 0 <= i < |bs| ==> bs[i].id == i + 1
  {
    r.bookings
  }

  /** In a valid repository the stored ids are strictly increasing, and every
      one of them is below the counter, so the next id is fresh. */
  lemma ValidIdsOrdered(r: Repository)
    requires Valid(r)
    ensures StrictlyIncreasingIds(r.bookings)
    ensures forall b :: b in r.bookings ==> 1 <= b.id < r.idCounter
  {
  }

  /** The first booking created on a fresh repository gets id 1. */
  lemma FirstIdIsOne(d: BookingDraft)
    ensures Create(Init(), d).booking.id == 1
    ensures FindAll(Create(Init(), d).repo) == [Create(Init(), d).booking]
  {
  }

  /** Several `create` calls in a row, returning the final repository and the
      bookings returned, in call order. */
  function CreateAll(r: Repository, ds: seq<BookingDraft>): (res: (Repository, seq<Booking>))
    decreases |ds|
  {
    if |ds| == 0 then (r, [])
    else
      var c := Create(r, ds[0]);
      var rest := CreateAll(c.repo, ds[1..]);
      (rest.0, [c.booking] + rest.1)
  }

  /** The drafts stamped with consecutive ids starting at `first`. */
  function Numbered(ds: seq<BookingDraft>, first: int): (bs: seq<Booking>)
  {
    seq(|ds|, i requires 0 <= i < |ds| => WithId(ds[i], first + i))
  }

  /** A run of `create` calls hands out consecutive fresh ids: the returned
      bookings are the drafts numbered from the counter on, they are appended
      in order after everything already stored, and the counter advances by
      the number of calls. */
  lemma {:induction false} CreateAllNumbers(r: Repository, ds: seq<BookingDraft>)
    ensures CreateAll(r, ds).1 == Numbered(ds, r.idCounter)
    ensures CreateAll(r, ds).0.bookings == r.bookings + CreateAll(r, ds).1
    ensures CreateAll(r, ds).0.idCounter == r.idCounter + |ds|
    decreases |ds|
  {
    if |ds| > 0 {
      var c := Create(r, ds[0]);
      CreateAllNumbers(c.repo, ds[1..]);
      var rest := CreateAll(c.repo, ds[1..]);
      assert rest.1 == Numbered(ds[1..], r.idCounter + 1);
      assert [c.booking] + rest.1 == Numbered(ds, r.idCounter);
      assert rest.0.bookings == r.bookings + ([c.booking] + rest.1);
    }
  }

  /** No id is ever handed out twice: the ids a run of `create` calls returns
      are strictly increasing and differ from every id already stored, and the
      repository stays valid. */
  lemma {:induction false} CreateAllFreshIds(r: Repository, ds: seq<BookingDraft>)
    requires Valid(r)
    ensures Valid(CreateAll(r, ds).0)
    ensures StrictlyIncreasingIds(CreateAll(r, ds).1)
    ensures forall b, b' :: b in r.bookings && b' in CreateAll(r, ds).1 ==> b.id != b'.id
  {
    CreateAllNumbers(r, ds);
    var res := CreateAll(r, ds);
    var issued := res.1;
    assert issued == Numbered(ds, r.idCounter);
    assert forall k :: 0 <= k < |issued| ==> issued[k].id == r.idCounter + k;
    forall b, b' | b in r.bookings && b' in issued
      ensures b.id < b'.id
    {
      var j :| 0 <= j < |r.bookings| && r.bookings[j] == b;
      var k :| 0 <= k < |issued| && issued[k] == b';
    }
    var final := res.0;
    forall i | 0 <= i < |final.bookings|
      ensures final.bookings[i].id == i + 1
    {
      if i >= |r.bookings| {
        assert final.bookings[i] == issued[i - |r.bookings|];
      } else {
        assert final.bookings[i] == r.bookings[i];
      }
    }
  }

  /** Starting from a fresh repository, `findAll` after any run of `create`
      calls lists exactly the drafts, in call order, numbered 1, 2, 3, ... */
  lemma FindAllAfterCreates(ds: seq<BookingDraft>)
    ensures FindAll(CreateAll(Init(), ds).0) == Numbered(ds, 1)
  {
    CreateAllNumbers(Init(), ds);
  }
}
