/**
 * The records exchanged by the desk-booking processor: the incoming request,
 * the booking handed to the repository, and the result returned to the caller.
 * All three carry the same four values; the processor only ever copies them.
 */
module Domain {

  /** A calendar day. The processor never inspects it, only copies it. */
  datatype Date = Date(year: int, month: int, day: int)

  /** What a caller asks for: who wants a desk, and on which day. */
  datatype DeskBookingRequest = DeskBookingRequest(
    firstName: string, lastName: string, email: string, date: Date)

  /** The record handed to the repository to be persisted. */
  datatype DeskBooking = DeskBooking(
    firstName: string, lastName: string, email: string, date: Date)

  /** What the processor returns to its caller. */
  datatype DeskBookingResult = DeskBookingResult(
    firstName: string, lastName: string, email: string, date: Date)

  /** The exception raised for a missing argument, carrying the parameter's name. */
  datatype Error = ArgumentNull(paramName: string)

  /** The booking carries the request's first name, last name, email and date. */
  predicate BookingEchoes(request: DeskBookingRequest, booking: DeskBooking) {
    && booking.firstName == request.firstName
    && booking.lastName == request.lastName
    && booking.email == request.email
    && booking.date == request.date
  }

  /** The result carries the request's first name, last name, email and date. */
  predicate ResultEchoes(request: DeskBookingRequest, result: DeskBookingResult) {
    && result.firstName == request.firstName
    && result.lastName == request.lastName
    && result.email == request.email
    && result.date == request.date
  }

  /** A booking and a result agree on all four copied values. */
  predicate Agree(booking: DeskBooking, result: DeskBookingResult) {
    && booking.firstName == result.firstName
    && booking.lastName == result.lastName
    && booking.email == result.email
    && booking.date == result.date
  }

  /** The booking the processor builds from a request before saving it. */
  function BookingFor(request: DeskBookingRequest): (booking: DeskBooking)
    ensures BookingEchoes(request, booking)
  {
    DeskBooking(request.firstName, request.lastName, request.email, request.date)
  }

  /** The result the processor builds from a request. */
  function ResultFor(request: DeskBookingRequest): (result: DeskBookingResult)
    ensures ResultEchoes(request, result)
  {
    DeskBookingResult(request.firstName, request.lastName, request.email, request.date)
  }

  /** Copying is the only way to echo a request: the built booking is the one echoing booking. */
  lemma BookingForIsTheEcho(request: DeskBookingRequest, booking: DeskBooking)
    ensures BookingEchoes(request, booking) <==> booking == BookingFor(request)
  {
  }

  /** Likewise, the built result is the one result that echoes the request. */
  lemma ResultForIsTheEcho(request: DeskBookingRequest, result: DeskBookingResult)
    ensures ResultEchoes(request, result) <==> result == ResultFor(request)
  {
  }

  /** The booking and the result built from one request agree with each other. */
  lemma BookingAgreesWithResult(request: DeskBookingRequest)
    ensures Agree(BookingFor(request), ResultFor(request))
  {
  }

  /**
   * Two requests that give the same booking were the same request. This holds
   * because a request carries exactly the four values the booking copies.
   */
  lemma BookingForInjective(r1: DeskBookingRequest, r2: DeskBookingRequest)
    ensures BookingFor(r1) == BookingFor(r2) <==> r1 == r2
  {
  }
}
