/** Rows of the service-booking table, shared by the payment and the services controllers. */
module Records {
  import opened Common

  datatype BookingStatus = BookingPending | InProgress | Completed | BookingCancelled

  /** The columns of a service booking that the modelled handlers read or write. */
  datatype ServiceBooking = ServiceBooking(status: BookingStatus, afterImageUrl: Option<string>)

  /** Prisma's parsing of a status string into the booking-status enum. */
  function BookingStatusNamed(name: string): (r: Option<BookingStatus>)
    ensures r.Some? <==> name in {"PENDING", "IN_PROGRESS", "COMPLETED", "CANCELLED"}
    ensures r == Some(BookingPending) <==> name == "PENDING"
    ensures r == Some(InProgress) <==> name == "IN_PROGRESS"
    ensures r == Some(Completed) <==> name == "COMPLETED"
    ensures r == Some(BookingCancelled) <==> name == "CANCELLED"
  {
    if name == "PENDING" then Some(BookingPending)
    else if name == "IN_PROGRESS" then Some(InProgress)
    else if name == "COMPLETED" then Some(Completed)
    else if name == "CANCELLED" then Some(BookingCancelled)
    else None
  }
}
