# DeskBooker booking processor

A model of `DeskBookingProcessor`, the core of DeskBooker. A caller passes a
desk-booking request: a first name, a last name, an email and a date. The
processor does three things:

- it rejects a missing (null) request with an argument-null error naming the
  parameter `request`;
- otherwise it builds a `DeskBooking` from the request's four values and hands it
  once to the repository's `Save`;
- it returns a new `DeskBookingResult` that echoes the same four values.

The processor's only field is the repository. The constructor sets it and
nothing reassigns it.

Layout:

- `wrappers.dfy` (`Wrappers`): `Option`, where `None` stands for a null
  reference, and `Result`, whose `Failure` stands for a thrown exception.
- `domain.dfy` (`Domain`): the request, booking, result and error records. It
  also holds the two copying functions and the predicates saying that a record
  echoes a request.
- `processor.dfy` (`Processor`): the repository stand-in, the processor class
  and `BookDesk`. It also holds the functions that specify what `BookDesk`
  returns and what it saves, and the lemmas about runs of several calls on one
  processor.
- `scenarios.dfy` (`Scenarios`): clients of the processor. `BookAll` reuses one
  processor for a run of calls. `BookingScenario` uses the request from the
  tests in DeskBooker.Core.Tests/Processor/DeskBookingProcessorTests.cs:20-79.
  From the contracts alone it derives what those tests expect: the echoed
  values, one save, the error name, no save on null, and the log after repeated
  calls.

The repository is modelled as a class. Its ghost field `saved` records every
booking passed to `Save`, in call order. That is what the mocked repository in
the tests observes.

`BookDesk` does no desk-availability lookup and picks no desk. It sets no
result code, no desk id and no booking id. It always saves, and it copies only
the four values. The model has none of those other features either.

## Model

| member | source | states |
|---|---|---|
| `Domain.BookingFor` | DeskBooker.Core/Processor/DeskBookingProcessor.cs:23-29 | the booking built for Save has the request's first name, last name, email and date |
| `Domain.ResultFor` | DeskBooker.Core/Processor/DeskBookingProcessor.cs:31-37 | the returned result has the request's first name, last name, email and date |
| `Domain.BookingForIsTheEcho` | DeskBooker.Core.Tests/Processor/DeskBookingProcessorTests.cs:73-77 | a booking passes the test's four equality checks if and only if it is the one the processor builds |
| `Domain.ResultForIsTheEcho` | DeskBooker.Core.Tests/Processor/DeskBookingProcessorTests.cs:36-40 | a result passes the test's four equality checks if and only if it is the one the processor builds |
| `Domain.BookingAgreesWithResult` | DeskBooker.Core/Processor/DeskBookingProcessor.cs:23-37 | the saved booking and the returned result agree on all four copied values |
| `Domain.BookingForInjective` | DeskBooker.Core/Processor/DeskBookingProcessor.cs:23-29 | building the booking loses nothing: different requests give different bookings |
| `Processor.Outcome` | DeskBooker.Core/Processor/DeskBookingProcessor.cs:16-38 | BookDesk fails exactly when the request is null; the error is argument-null with parameter name "request"; otherwise the result echoes the request; the outcome depends on the request alone |
| `Processor.SavedBy` | DeskBooker.Core/Processor/DeskBookingProcessor.cs:18-29 | a null request saves nothing; a present one saves exactly one booking, which echoes the request |
| `Processor.SavedAgreesWithOutcome` | DeskBooker.Core/Processor/DeskBookingProcessor.cs:23-37 | for a present request, the one saved booking and the returned result agree on every copied value |
| `Processor.SavesIffSucceeds` | DeskBooker.Core/Processor/DeskBookingProcessor.cs:18-31 | a booking is saved if and only if BookDesk returns a result rather than failing |
| `Processor.DeskBookingRepository.constructor` | DeskBooker.Core.Tests/Processor/DeskBookingProcessorTests.cs:14-17 | a fresh repository has recorded no saves |
| `Processor.DeskBookingRepository.Save` | DeskBooker.Core.Tests/Processor/DeskBookingProcessorTests.cs:63-67 | Save records the booking it is handed after all earlier ones |
| `Processor.DeskBookingProcessor.constructor` | DeskBooker.Core/Processor/DeskBookingProcessor.cs:9-14 | the processor keeps the repository it is given; the field is constant afterwards |
| `Processor.DeskBookingProcessor.BookDesk` | DeskBooker.Core/Processor/DeskBookingProcessor.cs:16-38 | returns Outcome(request); the repository's log grows by exactly SavedBy(request), so earlier entries are kept; on a null request the repository is untouched |
| `Processor.SavedByAllAppend` | DeskBooker.Core/Processor/DeskBookingProcessor.cs:18-29 | the bookings saved by a run of requests split with the run: those of the first part, then those of the second; this is the step that ties each further `BookDesk` call to the log in `Scenarios.BookAll` |
| `Processor.SavedByAllMatchesPresent` | DeskBooker.Core/Processor/DeskBookingProcessor.cs:18-29 | the bookings saved for a run of requests are one per non-null request, in request order, each echoing its own request |
| `Scenarios.BookAll` | DeskBooker.Core/Processor/DeskBookingProcessor.cs:9-38 | a run of `BookDesk` calls on one processor, whose repository field never changes, extends the repository's log by exactly `SavedByAll(requests)` and leaves earlier entries unchanged; each call's outcome is `Outcome` of its own request |

## Left out

- Desk availability, first-desk selection, result codes, desk ids and booking ids: `BookDesk` has none of these, so the model has none either.
- Exceptions thrown by `Save`: the model's repository cannot fail. In the code such an exception would propagate out of `BookDesk` before any result is returned.
- Object identity: requests, bookings and results are values. So the model does not capture that the result is a freshly allocated object, or that the caller may alias or mutate the request.
- The date: the code copies a `DateTime` without inspecting it. The model keeps it as a (year, month, day) triple. Time of day and `Kind` are not represented, and there is no calendar validation.
- Null references other than the request:
  - The constructor stores the repository without a null check. So `new DeskBookingProcessor(null)` succeeds, and a later `BookDesk` with a non-null request fails with a null-reference error at the `Save` call. The model's repository type cannot be null, so it leaves out that failure.
  - The code copies null `FirstName`, `LastName` or `Email` values as they are. The model's strings cannot be null.
- The concrete `IDeskBookingRepository` implementation and any persistence are not part of this model; the repository is only a recorder of `Save` calls.
- `DeskBookingRequestProcessor` is not modelled. It is a second class that the tests exercise with the same echo and null-check expectations.
