/** The teller client's selection logic (TellerApp.Wpf/MainWindow.xaml.cs): the
    selected counter, the waiting top five, the active ticket of the counter
    and the one-key settings payloads it sends. */
module Teller {
  import opened Common

  /** The ticket as the teller reads it from GET /api/tickets/today. */
  datatype TicketDto = TicketDto(
    id: int,
    ticketNumber: string,
    status: string,
    counterNumber: Option<int>,
    calledAt: Option<nat>,
    completedAt: Option<nat>)

  /** How many waiting tickets the teller lists. */
  const WaitingShown: int := 5

  /** The counter chosen in the combo box: the selected item's text when it parses,
      otherwise counter 1. `selection` is null when no item is selected or its
      content is null. */
  function GetSelectedCounter(selection: Option<string>): (r: int)
    ensures selection.Some? && TryParseInt(selection.value).Some? ==> r == TryParseInt(selection.value).value
    ensures !(selection.Some? && TryParseInt(selection.value).Some?) ==> r == 1
    ensures r >= 0
  {
    if selection.Some? && TryParseInt(selection.value).Some? then TryParseInt(selection.value).value else 1
  }

  /** An item labelled with a counter's number selects that counter. */
  lemma SelectedCounterRoundTrip(counter: int)
    requires 0 <= counter <= Int32Max
    ensures GetSelectedCounter(Some(IntToString(counter))) == counter
  {
    TryParseIntToString(counter);
  }

  predicate IsWaiting(t: TicketDto) { t.status == "WAITING" }

  /** Where(Status == "WAITING").Take(5): the first five waiting tickets in list order. */
  function WaitingTop(tickets: seq<TicketDto>): (r: seq<TicketDto>)
    ensures |r| <= WaitingShown
    ensures forall t :: t in r ==> t in tickets && IsWaiting(t)
    ensures r <= Filter(tickets, IsWaiting)
    ensures |Filter(tickets, IsWaiting)| >= WaitingShown ==> |r| == WaitingShown
    ensures |Filter(tickets, IsWaiting)| < WaitingShown ==> r == Filter(tickets, IsWaiting)
  {
    Take(Filter(tickets, IsWaiting), WaitingShown)
  }

  /** CALLING or SERVING at this counter; a null counter matches no counter. */
  predicate IsActiveAt(t: TicketDto, counter: int) {
    (t.status == "CALLING" || t.status == "SERVING") && t.counterNumber == Some(counter)
  }

  /** FirstOrDefault in list order, which is sequence order, not call time. */
  function ActiveFor(tickets: seq<TicketDto>, counter: int): (r: Option<TicketDto>)
    ensures r.None? <==> forall t :: t in tickets ==> !IsActiveAt(t, counter)
    ensures r.Some? ==> IsActiveAt(r.value, counter)
    ensures r.Some? ==>
      exists i :: 0 <= i < |tickets| && tickets[i] == r.value
        && forall j :: 0 <= j < i ==> !IsActiveAt(tickets[j], counter)
  {
    var p := (t: TicketDto) => IsActiveAt(t, counter);
    match FirstIndex(tickets, p)
    case None =>
      assert forall t :: t in tickets ==> !p(t) by {
        forall t | t in tickets ensures !p(t) {
          var k :| 0 <= k < |tickets| && tickets[k] == t;
        }
      }
      None
    case Some(i) => Some(tickets[i])
  }

  /** What the teller window shows after a refresh. */
  datatype TellerView = TellerView(waiting: seq<TicketDto>, activeText: string, activeStatus: string)

  /** RefreshTickets: the waiting list, and the active ticket's number and status,
      or "-" and "" when the selected counter has none. */
  function RefreshView(tickets: seq<TicketDto>, selection: Option<string>): (v: TellerView)
    ensures v.waiting == WaitingTop(tickets)
    ensures ActiveFor(tickets, GetSelectedCounter(selection)).None? ==> v.activeText == "-" && v.activeStatus == ""
    ensures ActiveFor(tickets, GetSelectedCounter(selection)).Some? ==>
      var t := ActiveFor(tickets, GetSelectedCounter(selection)).value;
      v.activeText == t.ticketNumber && v.activeStatus == t.status
  {
    var active := ActiveFor(tickets, GetSelectedCounter(selection));
    TellerView(
      WaitingTop(tickets),
      if active.Some? then active.value.ticketNumber else "-",
      if active.Some? then active.value.status else "")
  }

  /** The body of the PUT a single-setting button sends: the Save Prefix
      button sends key "Prefix", the Save Running Text button "RunningText". */
  function SingleKeyPayload(key: string, text: string): (m: map<string, string>)
    ensures m.Keys == {key} && m[key] == text
  {
    map[key := text]
  }

  /** Saving one key changes that key and no other. */
  lemma SinglePayloadUpsert(store: map<string, string>, key: string, text: string)
    ensures (store + SingleKeyPayload(key, text))[key] == text
    ensures forall k :: k != key ==> (k in store + SingleKeyPayload(key, text) <==> k in store)
    ensures forall k :: k != key && k in store ==> (store + SingleKeyPayload(key, text))[k] == store[k]
  {
  }
}
