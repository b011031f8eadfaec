/**
 * Clients of the processor: what a caller can conclude from the contracts
 * alone, for one processor reused across calls.
 */
module Scenarios {
  import opened Wrappers
  import opened Domain
  import opened Processor

  /**
   * Calls `BookDesk` on one processor once per request, in order. The
   * repository's log grows by exactly the bookings of the present requests,
   * and each call's outcome is the one it would have on its own.
   */
  method BookAll(processor: DeskBookingProcessor, requests: seq<Option<DeskBookingRequest>>)
    returns (outcomes: seq<Result<DeskBookingResult, Error>>)
    modifies processor.repository
    ensures processor.repository.saved == old(processor.repository.saved) + SavedByAll(requests)
    ensures |outcomes| == |requests|
    ensures forall i :: 0 <= i < |requests| ==> outcomes[i] == Outcome(requests[i])
  {
    outcomes := [];
    var i := 0;
    while i < |requests|
      invariant 0 <= i <= |requests|
      invariant processor.repository.saved == old(processor.repository.saved) + SavedByAll(requests[..i])
      invariant |outcomes| == i
      invariant forall k :: 0 <= k < i ==> outcomes[k] == Outcome(requests[k])
    {
      var outcome := processor.BookDesk(requests[i]);
      SavedByAllAppend(requests[..i], [requests[i]]);
      assert requests[..i + 1] == requests[..i] + [requests[i]];
      outcomes := outcomes + [outcome];
      i := i + 1;
    }
    assert requests[..i] == requests;
  }

  /** The request used throughout the processor's tests, booked, refused and booked again. */
  method BookingScenario()
  {
    var request := DeskBookingRequest("Stephen", "Gowen", "sjgowen@gmail.com", Date(2022, 4, 30));
    var repository := new DeskBookingRepository();
    var processor := new DeskBookingProcessor(repository);

    var result := processor.BookDesk(Some(request));
    assert result.Success?;
    assert result.value.firstName == "Stephen" && result.value.email == "sjgowen@gmail.com";
    assert result.value.date == Date(2022, 4, 30);
    assert |repository.saved| == 1;
    assert repository.saved[0].lastName == "Gowen";

    var failed := processor.BookDesk(None);
    assert failed == Failure(ArgumentNull("request"));
    assert |repository.saved| == 1;

    var again := processor.BookDesk(Some(request));
    assert again == result;
    SavedByAllAppend([Some(request), None], [Some(request)]);
    assert repository.saved == SavedByAll([Some(request), None, Some(request)]);
    assert repository.saved == [BookingFor(request), BookingFor(request)];
  }
}
