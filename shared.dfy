/** The contract shared by server and clients: the ticket status enumeration
    (Shared/Enums/TicketStatus.cs) and the hub event names
    (Shared/Contracts/HubEvents.cs). */
module Shared {
  import opened Common

  /** The lifecycle status of a ticket, in declaration order. */
  datatype TicketStatus = Waiting | Calling | Serving | Done | NoShow | Canceled {

    /** The member's name, as the JSON string-enum converter writes it. */
    function Name(): string {
      match this
      case Waiting => "WAITING"
      case Calling => "CALLING"
      case Serving => "SERVING"
      case Done => "DONE"
      case NoShow => "NO_SHOW"
      case Canceled => "CANCELED"
    }

    /** The member's underlying integer value: its position in the declaration. */
    function Ordinal(): (k: nat)
      ensures k < 6
    {
      match this
      case Waiting => 0
      case Calling => 1
      case Serving => 2
      case Done => 3
      case NoShow => 4
      case Canceled => 5
    }
  }

  /** Decodes a name written by Name(); any other text is not a status. */
  function StatusFromName(name: string): (r: Option<TicketStatus>)
    ensures r.Some? ==> r.value.Name() == name
  {
    if name == "WAITING" then Some(Waiting)
    else if name == "CALLING" then Some(Calling)
    else if name == "SERVING" then Some(Serving)
    else if name == "DONE" then Some(Done)
    else if name == "NO_SHOW" then Some(NoShow)
    else if name == "CANCELED" then Some(Canceled)
    else None
  }

  /** Statuses travel by name: decoding the name gives the status back. */
  lemma StatusNameRoundTrip(s: TicketStatus)
    ensures StatusFromName(s.Name()) == Some(s)
  {
    match s
    case Waiting =>
    case Calling =>
    case Serving =>
    case Done =>
    case NoShow =>
    case Canceled =>
  }

  // Hub event names.
  const TicketCreatedEvent: string := "TicketCreated"
  const TicketUpdatedEvent: string := "TicketUpdated"
  const TicketCalledEvent: string := "TicketCalled"
  const SettingsChangedEvent: string := "SettingsChanged"
}
