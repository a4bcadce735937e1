/** How the server's answers and broadcasts look to the two clients: the ticket
    list as the teller and the display decode it, and TicketCalled broadcasts as
    the display's handler reads them. */
module EndToEnd {
  import opened Common
  import opened Shared
  import opened Models
  import Tickets
  import Api
  import Display
  import Teller

  /** A ticket serialised with string enums, as the teller decodes it. */
  function ToTellerDto(t: Ticket): Teller.TicketDto {
    Teller.TicketDto(t.id, t.ticketNumber, t.status.Name(), t.counterNumber, t.calledAt, t.completedAt)
  }

  /** A ticket serialised with string enums, as the display decodes it. */
  function ToDisplayDto(t: Ticket): Display.TicketDto {
    Display.TicketDto(t.id, t.ticketNumber, t.status.Name(), t.counterNumber, t.calledAt)
  }

  /** The teller's top five, taken from GET /api/tickets/today, are exactly the
      server's GetWaiting(5). */
  lemma TellerWaitingMatchesServer(svc: Tickets.TicketService, today: int)
    requires svc.Valid()
    ensures Teller.WaitingTop(MapSeq(svc.GetTodayTickets(today), ToTellerDto))
         == MapSeq(svc.GetWaiting(Teller.WaitingShown, today), ToTellerDto)
  {
    var all := svc.GetTodayTickets(today);
    var isWaiting := (t: Ticket) => t.status == Waiting;
    forall x ensures isWaiting(x) == Teller.IsWaiting(ToTellerDto(x)) {
      StatusNameRoundTrip(x.status);
    }
    FilterMapSeq(all, ToTellerDto, Teller.IsWaiting, isWaiting);
    var w := Filter(all, isWaiting);
    FilterAscending(all, isWaiting, Tickets.BySequence);
    AscendingUnique(w, svc.WaitingList(today), Tickets.BySequence);
    TakeMapSeq(w, ToTellerDto, Teller.WaitingShown);
  }

  /** A stored ticket's number is never blank: it ends with the digits of its sequence. */
  lemma StoredNumberNotBlank(t: Ticket)
    requires Tickets.NumberEndsWithSequence(t) && t.sequence >= 0
    ensures !IsNullOrWhiteSpace(Some(t.ticketNumber))
  {
    var d := IntToString(t.sequence);
    var s := t.ticketNumber;
    assert s[|s| - |d|..][|d| - 1] == d[|d| - 1];
    DigitNotBlank(s, |s| - 1);
  }

  lemma DigitNotBlank(s: string, k: int)
    requires 0 <= k < |s| && IsDigit(s[k])
    ensures !IsNullOrWhiteSpace(Some(s))
  {
    assert !IsWhiteSpace(s[k]);
  }

  /** As written, the hub camel-cases the payload, so the display's
      case-sensitive lookup of "TicketNumber" finds nothing: every live
      TicketCalled broadcast is dropped and no call is ever announced. */
  lemma DisplayDropsEveryLiveCall(e: Api.HubEvent)
    requires e.TicketCalled?
    ensures "TicketNumber" !in Api.CalledBody(e, Api.HubNaming)
    ensures Display.AcceptCalled(Api.CalledBody(e, Api.HubNaming)).None?
  {
    assert Api.PropertyName("TicketNumber", Api.HubNaming)[0] == 't';
    assert "TicketNumber" != Api.PropertyName("TicketNumber", Api.HubNaming);
  }

  /** With the property names kept as declared, the display acts on every call
      broadcast of a called ticket: it shows the ticket's number at the
      ticket's counter. */
  lemma DisplayAcceptsCall(store: seq<Ticket>, t: Ticket, recall: bool)
    requires Tickets.StoreInvariant(store) && Tickets.NumbersShaped(store)
    requires t in store && t.status != Waiting
    ensures t.counterNumber.Some?
    ensures Display.AcceptCalled(Api.CalledBody(Api.TicketCalled(t.id, t.ticketNumber, t.counterNumber, recall), Api.AsDeclared))
         == Some((t.ticketNumber, t.counterNumber.value))
  {
    var i :| 0 <= i < |store| && store[i] == t;
    StoredNumberNotBlank(t);
  }

  /** A recall of a ticket that was never called broadcasts a null counter; the
      display's handler throws reading it and drops the event, whatever the
      property names. */
  lemma DisplayDropsRecallOfWaiting(t: Ticket, now: nat, policy: Api.NamingPolicy)
    requires Tickets.Wellformed(t) && t.status == Waiting
    ensures Tickets.Recalled(t, now) == t
    ensures var r := Tickets.Recalled(t, now);
      Display.AcceptCalled(Api.CalledBody(Api.TicketCalled(r.id, r.ticketNumber, r.counterNumber, true), policy)).None?
  {
    var body := Api.CalledBody(Api.TicketCalled(t.id, t.ticketNumber, t.counterNumber, true), policy);
    if policy == Api.AsDeclared {
      assert body["CounterNumber"] == JNull;
    } else {
      DisplayDropsEveryLiveCall(Api.TicketCalled(t.id, t.ticketNumber, t.counterNumber, true));
    }
  }

  /** The display's initial active ticket, read from GET /api/tickets/today, is
      CALLING and has the latest call time among today's CALLING tickets. */
  lemma DisplayInitialActiveIsLatestCall(svc: Tickets.TicketService, today: int)
    requires svc.Valid()
    ensures var r := Display.LatestCalling(MapSeq(svc.GetTodayTickets(today), ToDisplayDto));
      (r.None? <==> forall t :: t in svc.tickets && t.date == today ==> t.status != Calling)
      && (r.Some? ==>
            exists t :: t in svc.tickets && t.date == today && t.status == Calling
              && r.value == ToDisplayDto(t)
              && forall u :: u in svc.tickets && u.date == today && u.status == Calling ==>
                   u.calledAt.GetOr(0) <= t.calledAt.GetOr(0))
  {
    LatestCallingOfList(svc.GetTodayTickets(today));
  }

  /** The same over any ticket list the display decodes. */
  lemma LatestCallingOfList(all: seq<Ticket>)
    ensures var r := Display.LatestCalling(MapSeq(all, ToDisplayDto));
      (r.None? <==> forall t :: t in all ==> t.status != Calling)
      && (r.Some? ==>
            exists t :: t in all && t.status == Calling && r.value == ToDisplayDto(t)
              && forall u :: u in all && u.status == Calling ==> u.calledAt.GetOr(0) <= t.calledAt.GetOr(0))
  {
    var dtos := MapSeq(all, ToDisplayDto);
    forall t ensures (ToDisplayDto(t).status == "CALLING") == (t.status == Calling) {
      StatusNameRoundTrip(t.status);
    }
    forall t | t in all ensures ToDisplayDto(t) in dtos {
      var k :| 0 <= k < |all| && all[k] == t;
      assert dtos[k] == ToDisplayDto(t);
    }
    var r := Display.LatestCalling(dtos);
    if r.Some? {
      var k :| 0 <= k < |dtos| && dtos[k] == r.value;
      assert all[k] in all && all[k].status == Calling;
    }
  }
}
