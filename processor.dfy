/**
 * The desk-booking processor: it rejects a missing request, hands one booking
 * built from the request to the repository, and returns a result echoing the
 * request. The repository is the processor's only collaborator and its only
 * state; it is fixed when the processor is constructed.
 */
module Processor {
  import opened Wrappers
  import opened Domain

  /**
   * The repository the processor saves to. Its behaviour behind `Save` is not
   * part of this model; what matters to the processor is the sequence of
   * bookings it has been handed, which `saved` records in call order.
   */
  class DeskBookingRepository {
    ghost var saved: seq<DeskBooking>

    constructor ()
      ensures saved == []
    {
      saved := [];
    }

    method Save(booking: DeskBooking)
      modifies this
      ensures saved == old(saved) + [booking]
    {
      saved := saved + [booking];
    }
  }

  /**
   * What `BookDesk` gives back for a request: the argument-null error naming
   * `request` when there is none, and otherwise a result echoing it. It depends
   * on the request alone, never on the repository.
   */
  function Outcome(request: Option<DeskBookingRequest>): (r: Result<DeskBookingResult, Error>)
    ensures r.Failure? <==> request.None?
    ensures request.None? ==> r.error == ArgumentNull("request")
    ensures request.Some? ==> ResultEchoes(request.value, r.value)
  {
    match request
    case None => Failure(ArgumentNull("request"))
    case Some(req) => Success(ResultFor(req))
  }

  /**
   * The bookings `BookDesk` hands to `Save`, in order: none for a missing
   * request, exactly one echoing the request otherwise.
   */
  function SavedBy(request: Option<DeskBookingRequest>): (bookings: seq<DeskBooking>)
    ensures |bookings| == if request.Some? then 1 else 0
    ensures request.Some? ==> BookingEchoes(request.value, bookings[0])
  {
    match request
    case None => []
    case Some(req) => [BookingFor(req)]
  }

  /** For a present request, the saved booking and the returned result agree on every copied value. */
  lemma SavedAgreesWithOutcome(request: Option<DeskBookingRequest>)
    requires request.Some?
    ensures |SavedBy(request)| == 1 && Outcome(request).Success?
    ensures Agree(SavedBy(request)[0], Outcome(request).value)
  {
  }

  /** A booking is saved exactly when no error is returned. */
  lemma SavesIffSucceeds(request: Option<DeskBookingRequest>)
    ensures SavedBy(request) != [] <==> Outcome(request).Success?
  {
  }

  class DeskBookingProcessor {
    /** Set once by the constructor and never reassigned. */
    const repository: DeskBookingRepository

    constructor (deskBookingRepository: DeskBookingRepository)
      ensures repository == deskBookingRepository
    {
      repository := deskBookingRepository;
    }

    /**
     * Books a desk: a missing request fails before the repository is touched;
     * a present one is saved once and echoed back.
     */
    method BookDesk(request: Option<DeskBookingRequest>) returns (r: Result<DeskBookingResult, Error>)
      modifies repository
      ensures r == Outcome(request)
      ensures repository.saved == old(repository.saved) + SavedBy(request)
      ensures request.None? ==> unchanged(repository)
    {
      if request.None? {
        return Failure(ArgumentNull("request"));
      }
      var req := request.value;
      repository.Save(BookingFor(req));
      r := Success(ResultFor(req));
    }
  }

  /** The bookings saved by a run of `BookDesk` calls on one processor, in call order. */
  function SavedByAll(requests: seq<Option<DeskBookingRequest>>): seq<DeskBooking>
  {
    if requests == [] then [] else SavedBy(requests[0]) + SavedByAll(requests[1..])
  }

  /** The present requests among a run of calls, in call order. */
  function Present(requests: seq<Option<DeskBookingRequest>>): seq<DeskBookingRequest>
  {
    if requests == [] then []
    else (if requests[0].Some? then [requests[0].value] else []) + Present(requests[1..])
  }

  /** Splitting a run of calls in two splits what it saves in two: earlier entries are never disturbed. */
  lemma {:induction false} SavedByAllAppend(a: seq<Option<DeskBookingRequest>>, b: seq<Option<DeskBookingRequest>>)
    ensures SavedByAll(a + b) == SavedByAll(a) + SavedByAll(b)
  {
    if a == [] {
      assert a + b == b;
    } else {
      assert (a + b)[1..] == a[1..] + b;
      SavedByAllAppend(a[1..], b);
    }
  }

  /**
   * A run of calls saves one booking per present request, in the order of the
   * calls, each echoing its own request; missing requests save nothing.
   */
  lemma {:induction false} SavedByAllMatchesPresent(requests: seq<Option<DeskBookingRequest>>)
    ensures |SavedByAll(requests)| == |Present(requests)| <= |requests|
    ensures forall i :: 0 <= i < |SavedByAll(requests)| ==>
              BookingEchoes(Present(requests)[i], SavedByAll(requests)[i])
  {
    if requests != [] {
      SavedByAllMatchesPresent(requests[1..]);
      var head := SavedBy(requests[0]);
      var rest := SavedByAll(requests[1..]);
      assert SavedByAll(requests) == head + rest;
      forall i | 0 <= i < |SavedByAll(requests)|
        ensures BookingEchoes(Present(requests)[i], SavedByAll(requests)[i])
      {
        if i >= |head| {
          assert SavedByAll(requests)[i] == rest[i - |head|];
          assert Present(requests)[i] == Present(requests[1..])[i - |head|];
        }
      }
    }
  }
}
