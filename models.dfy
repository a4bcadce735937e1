/** The persisted ticket row (QueueServer.Core/Models/Ticket.cs). Clock
    readings are ticks (DateTime.MinValue is 0) and the service day is a day
    number; both come from the caller. */
module Models {
  import opened Common
  import opened Shared

  datatype Ticket = Ticket(
    id: int,                     // assigned by the store when the row is added
    ticketNumber: string,        // the number shown to operators
    sequence: int,               // daily issue order
    date: int,                   // the service day
    status: TicketStatus,
    createdAt: nat,
    calledAt: Option<nat>,
    servingStartAt: Option<nat>,
    completedAt: Option<nat>,
    counterNumber: Option<int>,  // the counter that called the ticket
    lastRecallCount: int)
}
