/** The HTTP endpoints of the queue server (QueueServer.Api/Program.cs) and the
    hub broadcasts they make (QueueServer.Api/Utils/HubBroadcaster.cs). Each
    handler calls the service and then, unless the answer is 404, appends one
    event to the log of broadcasts every client receives. */
module Api {
  import opened Common
  import opened Shared
  import opened Models
  import Settings
  import Tickets

  /** One broadcast: the event name and its payload. `recall` is true only on
      the payload of the recall endpoint, which carries `Recall = true`. */
  datatype HubEvent =
    | TicketCreated(id: int, ticketNumber: string)
    | TicketUpdated(id: int, status: TicketStatus)
    | TicketCalled(id: int, ticketNumber: string, counterNumber: Option<int>, recall: bool)
    | SettingsChanged(updates: map<string, string>)
  {
    function Name(): string {
      match this
      case TicketCreated(_, _) => TicketCreatedEvent
      case TicketUpdated(_, _) => TicketUpdatedEvent
      case TicketCalled(_, _, _, _) => TicketCalledEvent
      case SettingsChanged(_) => SettingsChangedEvent
    }
  }

  /** How the hub names the properties of a payload on the wire. */
  datatype NamingPolicy = CamelCase | AsDeclared

  /** The hub is registered with AddSignalR() and no JSON protocol options, so
      payloads go out with the default camel-case property names. */
  const HubNaming: NamingPolicy := CamelCase

  /** A property name as written: camel case lower-cases the first letter. This
      is the .NET policy for every name whose second letter is lower case,
      which all the payload names here are. */
  function PropertyName(declared: string, policy: NamingPolicy): (r: string)
    ensures |r| == |declared|
    ensures policy == AsDeclared ==> r == declared
    ensures policy == CamelCase && declared != [] ==>
      r[1..] == declared[1..] && r[0] == ToLowerAscii(declared[0])
    ensures policy == CamelCase && declared != [] && 'A' <= declared[0] <= 'Z' ==> r != declared
  {
    if policy == CamelCase && declared != [] then [ToLowerAscii(declared[0])] + declared[1..] else declared
  }

  /** The JSON object of a TicketCalled broadcast: the anonymous object
      { Id, TicketNumber, CounterNumber } and, on a recall, Recall = true. A null
      counter is written as JSON null. */
  function CalledBody(e: HubEvent, policy: NamingPolicy): (r: map<string, JsonValue>)
    requires e.TicketCalled?
    ensures r.Keys == {PropertyName("Id", policy), PropertyName("TicketNumber", policy),
                       PropertyName("CounterNumber", policy)}
                      + (if e.recall then {PropertyName("Recall", policy)} else {})
    ensures r[PropertyName("Id", policy)] == JNumber(e.id)
    ensures r[PropertyName("TicketNumber", policy)] == JString(e.ticketNumber)
    ensures r[PropertyName("CounterNumber", policy)] ==
      (if e.counterNumber.Some? then JNumber(e.counterNumber.value) else JNull)
    ensures e.recall ==> r[PropertyName("Recall", policy)] == JBool(true)
  {
    var body := map[PropertyName("Id", policy) := JNumber(e.id),
                     PropertyName("TicketNumber", policy) := JString(e.ticketNumber),
                     PropertyName("CounterNumber", policy) :=
                       if e.counterNumber.Some? then JNumber(e.counterNumber.value) else JNull];
    if e.recall then body[PropertyName("Recall", policy) := JBool(true)] else body
  }

  /** The HTTP answer: 200 with a body, 200 without one, or 404. */
  datatype Response =
    | OkTicket(ticket: Ticket)
    | OkTickets(tickets: seq<Ticket>)
    | OkSettings(settings: map<string, string>)
    | OkEmpty
    | NotFound

  /** A ticket broadcast names a stored ticket by its id and, when it carries a
      number, carries that ticket's number. */
  ghost predicate Names(e: HubEvent, tickets: seq<Ticket>) {
    !e.SettingsChanged? ==>
      1 <= e.id <= |tickets| && tickets[e.id - 1].id == e.id
      && (e.TicketCreated? || e.TicketCalled? ==> tickets[e.id - 1].ticketNumber == e.ticketNumber)
  }

  /** Every broadcast so far names a stored ticket. */
  ghost predicate EventsName(events: seq<HubEvent>, tickets: seq<Ticket>) {
    forall i :: 0 <= i < |events| ==> Names(events[i], tickets)
  }

  /** Logging one more event that names a stored ticket keeps the log consistent. */
  lemma EventsNameAppend(events: seq<HubEvent>, tickets: seq<Ticket>, e: HubEvent)
    requires EventsName(events, tickets) && Names(e, tickets)
    ensures EventsName(events + [e], tickets)
  {
    forall i | 0 <= i < |events + [e]| ensures Names((events + [e])[i], tickets) {
      if i < |events| { assert (events + [e])[i] == events[i]; }
    }
  }

  /** The event log stays consistent when the store grows or a ticket changes
      status: ids and numbers are never reassigned. */
  lemma EventsNameKept(events: seq<HubEvent>, before: seq<Ticket>, after: seq<Ticket>)
    requires EventsName(events, before)
    requires Tickets.KeepsIdentities(before, after)
    ensures EventsName(events, after)
  {
    forall i | 0 <= i < |events| ensures Names(events[i], after) {
      if !events[i].SettingsChanged? {
        assert Tickets.SameIdentity(before[events[i].id - 1], after[events[i].id - 1]);
      }
    }
  }

  /** The loop of PUT /api/settings: SetValue for each pair, in whatever order
      the dictionary enumerates them. */
  method ApplyUpdates(s: Settings.SettingsService, updates: map<string, string>)
    modifies s
    ensures s.store == old(s.store) + updates
  {
    var remaining := updates.Keys;
    while remaining != {}
      invariant remaining <= updates.Keys
      invariant s.store == old(s.store) + (map k | k in updates.Keys - remaining :: updates[k])
      decreases remaining
    {
      var k :| k in remaining;
      s.SetValue(k, updates[k]);
      remaining := remaining - {k};
    }
    assert (map k | k in updates.Keys - remaining :: updates[k]) == updates;
  }

  class QueueApi {
    const service: Tickets.TicketService
    const settings: Settings.SettingsService
    var events: seq<HubEvent>

    ghost predicate Valid()
      reads this, service
    {
      service.settings == settings && service.Valid() && EventsName(events, service.tickets)
    }

    /** Start-up over the database as found: the settings store gets its
        defaults, the ticket rows are kept as they are. */
    constructor (initialSettings: map<string, string>, initialTickets: seq<Ticket>)
      requires Tickets.StoreInvariant(initialTickets)
      ensures Valid() && fresh(service) && fresh(settings)
      ensures settings.store == Settings.WithDefaults(initialSettings)
      ensures service.tickets == initialTickets && events == []
    {
      var store := new Settings.SettingsService(initialSettings);
      store.EnsureDefaults();
      settings := store;
      service := new Tickets.TicketService(store, initialTickets);
      events := [];
    }

    /** POST /api/tickets: a new WAITING ticket, broadcast as TicketCreated. */
    method PostTicket(today: int, now: nat) returns (resp: Response)
      requires Valid()
      modifies this, service
      ensures Valid()
      ensures resp.OkTicket? && service.tickets == old(service.tickets) + [resp.ticket]
      ensures resp.ticket.status == Waiting && resp.ticket.date == today
      ensures resp.ticket.sequence == Tickets.NextSequence(old(service.tickets), today)
      ensures resp.ticket.ticketNumber ==
        Tickets.PrefixedNumber(settings.GetValue("Prefix").GetOr("A"), resp.ticket.sequence)
      ensures events == old(events) + [TicketCreated(resp.ticket.id, resp.ticket.ticketNumber)]
    {
      var t := service.CreateTicket(today, now);
      EventsNameKept(events, old(service.tickets), service.tickets);
      EventsNameAppend(events, service.tickets, TicketCreated(t.id, t.ticketNumber));
      events := events + [TicketCreated(t.id, t.ticketNumber)];
      resp := OkTicket(t);
    }

    /** POST /api/queue/next/{counter}: calls the next ticket, broadcast as TicketCalled. */
    method PostNext(counter: int, today: int, now: nat) returns (resp: Response)
      requires Valid()
      modifies this, service
      ensures Valid()
      ensures resp.OkTicket? && resp.ticket.status == Calling
      ensures resp.ticket.counterNumber == Some(counter) && resp.ticket.calledAt == Some(now)
      ensures old(service.FirstWaiting(today)).Some? ==>
        var w := old(service.FirstWaiting(today)).value;
        resp.ticket == Tickets.Called(w, counter, now)
        && service.tickets == old(service.tickets)[w.id - 1 := resp.ticket]
      ensures old(service.FirstWaiting(today)).None? ==>
        var n := Tickets.NextSequence(old(service.tickets), today);
        resp.ticket == Tickets.Called(Tickets.Issued(|old(service.tickets)| + 1, Tickets.BareNumber(n), n, today, now), counter, now)
        && service.tickets == old(service.tickets) + [resp.ticket]
      ensures events == old(events) +
        [TicketCalled(resp.ticket.id, resp.ticket.ticketNumber, Some(counter), false)]
    {
      var t := service.CallNext(counter, today, now);
      EventsNameKept(events, old(service.tickets), service.tickets);
      EventsNameAppend(events, service.tickets, TicketCalled(t.id, t.ticketNumber, t.counterNumber, false));
      events := events + [TicketCalled(t.id, t.ticketNumber, t.counterNumber, false)];
      resp := OkTicket(t);
    }

    /** POST /api/tickets/{id}/recall: 404 for an unknown id; otherwise the ticket
        after Recalled, broadcast as a TicketCalled with Recall set, whether or
        not its status allowed the recall. */
    method PostRecall(id: int, now: nat) returns (resp: Response)
      requires Valid()
      modifies this, service
      ensures Valid()
      ensures resp.NotFound? <==> old(service.Find(id)).None?
      ensures resp.NotFound? ==> service.tickets == old(service.tickets) && events == old(events)
      ensures resp.OkTicket? ==>
        resp.ticket == Tickets.Recalled(old(service.Find(id)).value, now)
        && service.tickets == old(service.tickets)[id - 1 := resp.ticket]
        && events == old(events) +
          [TicketCalled(id, resp.ticket.ticketNumber, resp.ticket.counterNumber, true)]
    {
      var r := service.Recall(id, now);
      if r.None? {
        resp := NotFound;
      } else {
        EventsNameKept(events, old(service.tickets), service.tickets);
        EventsNameAppend(events, service.tickets, TicketCalled(r.value.id, r.value.ticketNumber, r.value.counterNumber, true));
        events := events + [TicketCalled(r.value.id, r.value.ticketNumber, r.value.counterNumber, true)];
        resp := OkTicket(r.value);
      }
    }

    /** POST /api/tickets/{id}/serveStart: 404 for an unknown id; otherwise TicketUpdated. */
    method PostServeStart(id: int, now: nat) returns (resp: Response)
      requires Valid()
      modifies this, service
      ensures Valid()
      ensures resp.NotFound? <==> old(service.Find(id)).None?
      ensures resp.NotFound? ==> service.tickets == old(service.tickets) && events == old(events)
      ensures resp.OkTicket? ==>
        resp.ticket == Tickets.ServingStarted(old(service.Find(id)).value, now)
        && service.tickets == old(service.tickets)[id - 1 := resp.ticket]
        && events == old(events) + [TicketUpdated(id, resp.ticket.status)]
    {
      var r := service.StartServing(id, now);
      if r.None? {
        resp := NotFound;
      } else {
        EventsNameKept(events, old(service.tickets), service.tickets);
        EventsNameAppend(events, service.tickets, TicketUpdated(r.value.id, r.value.status));
        events := events + [TicketUpdated(r.value.id, r.value.status)];
        resp := OkTicket(r.value);
      }
    }

    /** POST /api/tickets/{id}/complete: 404 for an unknown id; otherwise TicketUpdated. */
    method PostComplete(id: int, now: nat) returns (resp: Response)
      requires Valid()
      modifies this, service
      ensures Valid()
      ensures resp.NotFound? <==> old(service.Find(id)).None?
      ensures resp.NotFound? ==> service.tickets == old(service.tickets) && events == old(events)
      ensures resp.OkTicket? ==>
        resp.ticket == Tickets.Completed(old(service.Find(id)).value, now)
        && service.tickets == old(service.tickets)[id - 1 := resp.ticket]
        && events == old(events) + [TicketUpdated(id, resp.ticket.status)]
    {
      var r := service.Complete(id, now);
      if r.None? {
        resp := NotFound;
      } else {
        EventsNameKept(events, old(service.tickets), service.tickets);
        EventsNameAppend(events, service.tickets, TicketUpdated(r.value.id, r.value.status));
        events := events + [TicketUpdated(r.value.id, r.value.status)];
        resp := OkTicket(r.value);
      }
    }

    /** POST /api/tickets/{id}/skip: 404 for an unknown id; otherwise TicketUpdated. */
    method PostSkip(id: int) returns (resp: Response)
      requires Valid()
      modifies this, service
      ensures Valid()
      ensures resp.NotFound? <==> old(service.Find(id)).None?
      ensures resp.NotFound? ==> service.tickets == old(service.tickets) && events == old(events)
      ensures resp.OkTicket? ==>
        resp.ticket == Tickets.Skipped(old(service.Find(id)).value)
        && service.tickets == old(service.tickets)[id - 1 := resp.ticket]
        && events == old(events) + [TicketUpdated(id, resp.ticket.status)]
    {
      var r := service.Skip(id);
      if r.None? {
        resp := NotFound;
      } else {
        EventsNameKept(events, old(service.tickets), service.tickets);
        EventsNameAppend(events, service.tickets, TicketUpdated(r.value.id, r.value.status));
        events := events + [TicketUpdated(r.value.id, r.value.status)];
        resp := OkTicket(r.value);
      }
    }

    /** GET /api/tickets/today: today's tickets, ascending by sequence. */
    function GetToday(today: int): (r: Response)
      reads this, service
      requires Valid()
      ensures r.OkTickets? && AscendingBy(r.tickets, Tickets.BySequence)
      ensures forall t :: t in r.tickets <==> t in service.tickets && t.date == today
    {
      OkTickets(service.GetTodayTickets(today))
    }

    /** GET /api/settings: every stored setting. */
    function GetSettings(): (r: Response)
      reads this, settings
      ensures r.OkSettings?
      ensures forall k :: k in r.settings <==> settings.GetValue(k).Some?
      ensures forall k :: k in r.settings ==> settings.GetValue(k) == Some(r.settings[k])
    {
      OkSettings(settings.GetAll())
    }

    /** PUT /api/settings: upserts every pair, then broadcasts the whole
        dictionary as one SettingsChanged. */
    method PutSettings(updates: map<string, string>) returns (resp: Response)
      requires Valid()
      modifies this, settings
      ensures Valid() && resp == OkEmpty
      ensures settings.store == old(settings.store) + updates
      ensures service.tickets == old(service.tickets)
      ensures events == old(events) + [SettingsChanged(updates)]
    {
      ApplyUpdates(settings, updates);
      events := events + [SettingsChanged(updates)];
      resp := OkEmpty;
    }
  }
}
