/** The display client's logic (DisplayApp.Wpf/MainWindow.xaml.cs): status
    normalisation of the ticket list, sequence extraction from a ticket number,
    the active-ticket texts, the bounded recent-calls list, the spoken sentence,
    the choice of the initial active ticket and the filter on TicketCalled
    payloads. */
module Display {
  import opened Common
  import opened Shared
  import NumberToBahasa
  import Tickets

  /** The ticket as the display reads it from GET /api/tickets/today. */
  datatype TicketDto = TicketDto(
    id: int,
    ticketNumber: string,
    status: string,
    counterNumber: Option<int>,
    calledAt: Option<nat>)

  // ---------------------------------------------------------------------
  // Status normalisation

  /** A status sent as its number "0".."5" becomes its name; any other text stays. */
  function NormalizeStatus(status: string): (r: string)
    ensures StatusFromName(status).Some? ==> r == status
    ensures r != status ==>
      StatusFromName(r).Some? && status == IntToString(StatusFromName(r).value.Ordinal())
  {
    if status == "0" then "WAITING"
    else if status == "1" then "CALLING"
    else if status == "2" then "SERVING"
    else if status == "3" then "DONE"
    else if status == "4" then "NO_SHOW"
    else if status == "5" then "CANCELED"
    else status
  }

  /** Normalising twice is normalising once. */
  lemma NormalizeStatusIdempotent(status: string)
    ensures NormalizeStatus(NormalizeStatus(status)) == NormalizeStatus(status)
  {
  }

  /** A status written as its underlying number is normalised to its name. */
  lemma NormalizeStatusOrdinal(st: TicketStatus)
    ensures NormalizeStatus(IntToString(st.Ordinal())) == st.Name()
  {
    assert IntToString(st.Ordinal()) == [DigitChar(st.Ordinal())];
  }

  /** Rewrites every DTO's status in place. */
  method NormalizeStatuses(tickets: array<TicketDto>)
    modifies tickets
    ensures forall i :: 0 <= i < tickets.Length ==>
      tickets[i] == old(tickets[i]).(status := NormalizeStatus(old(tickets[i]).status))
  {
    for i := 0 to tickets.Length
      invariant forall j :: 0 <= j < i ==>
        tickets[j] == old(tickets[j]).(status := NormalizeStatus(old(tickets[j]).status))
      invariant forall j :: i <= j < tickets.Length ==> tickets[j] == old(tickets[j])
    {
      tickets[i] := tickets[i].(status := NormalizeStatus(tickets[i].status));
    }
  }

  // ---------------------------------------------------------------------
  // Sequence extraction

  /** The second part after splitting on '-' and '_' when it parses; otherwise all
      the digits of the number taken together; otherwise failure with 0. */
  function TryExtractSequence(ticketNumber: string): (r: TryInt)
    ensures r.success ==> 0 <= r.value <= Int32Max && HasDigit(ticketNumber)
    ensures !r.success ==> r.value == 0
    ensures !r.success <==>
      !(|SplitTicketNumber(ticketNumber)| >= 2 && TryParseInt(SplitTicketNumber(ticketNumber)[1]).Some?)
      && TryParseInt(DigitsOf(ticketNumber)).None?
    ensures |SplitTicketNumber(ticketNumber)| >= 2 && TryParseInt(SplitTicketNumber(ticketNumber)[1]).Some? ==>
      r == TryInt(true, TryParseInt(SplitTicketNumber(ticketNumber)[1]).value)
    ensures r.success && !(|SplitTicketNumber(ticketNumber)| >= 2 && TryParseInt(SplitTicketNumber(ticketNumber)[1]).Some?) ==>
      TryParseInt(DigitsOf(ticketNumber)) == Some(r.value)
  {
    var parts := SplitTicketNumber(ticketNumber);
    if |parts| >= 2 && TryParseInt(parts[1]).Some? then
      assert HasDigit(ticketNumber) by {
        var c := parts[1][0];
        var k :| 0 <= k < |ticketNumber| && ticketNumber[k] == c;
        assert IsDigit(ticketNumber[k]);
      }
      TryInt(true, TryParseInt(parts[1]).value)
    else
      var digits := DigitsOf(ticketNumber);
      if TryParseInt(digits).Some? then TryInt(true, TryParseInt(digits).value)
      else TryInt(false, 0)
  }

  /** "prefix-n" gives n back when the prefix holds no separator. */
  lemma ExtractPrefixedNumber(prefix: string, n: int)
    requires NoSeparator(prefix) && 0 <= n <= Int32Max
    ensures SplitTicketNumber(Tickets.PrefixedNumber(prefix, n)) == [prefix, IntToString(n)]
    ensures TryExtractSequence(Tickets.PrefixedNumber(prefix, n)) == TryInt(true, n)
  {
    var d := IntToString(n);
    DigitsHaveNoSeparator(d);
    assert Tickets.PrefixedNumber(prefix, n) == prefix + ['-'] + d;
    SplitAfterPiece(prefix, '-', d);
    SplitWithoutSeparator(d);
    TryParseIntToString(n);
  }

  /** The bare number n, as call-next writes it, gives n back through the digit fallback. */
  lemma ExtractBareNumber(n: int)
    requires 0 <= n <= Int32Max
    ensures SplitTicketNumber(Tickets.BareNumber(n)) == [IntToString(n)]
    ensures TryExtractSequence(Tickets.BareNumber(n)) == TryInt(true, n)
  {
    var d := IntToString(n);
    DigitsHaveNoSeparator(d);
    SplitWithoutSeparator(d);
    TryParseIntToString(n);
  }

  lemma DigitsHaveNoSeparator(d: string)
    requires AllDigits(d)
    ensures NoSeparator(d)
  {
    forall i | 0 <= i < |d| ensures !IsSeparator(d[i]) {
      assert IsDigit(d[i]);
    }
  }

  /** Where the strict parser succeeds, extraction agrees with it. */
  lemma StrictParserAgrees(ticketNumber: string)
    requires NumberToBahasa.TryParseSequenceFromTicketNumber(ticketNumber).success
    ensures TryExtractSequence(ticketNumber) == NumberToBahasa.TryParseSequenceFromTicketNumber(ticketNumber)
  {
  }

  /** The strict parser has no digit fallback: it rejects every bare number that
      extraction reads. */
  lemma StrictParserRejectsBareNumber(n: int)
    requires 0 <= n <= Int32Max
    ensures !NumberToBahasa.TryParseSequenceFromTicketNumber(Tickets.BareNumber(n)).success
    ensures TryExtractSequence(Tickets.BareNumber(n)).success
  {
    ExtractBareNumber(n);
  }

  // ---------------------------------------------------------------------
  // Texts

  /** The number as the display shows it: the extracted sequence, or the raw text. */
  function DisplayedNumber(ticketNumber: string): (r: string)
    ensures TryExtractSequence(ticketNumber).success ==> AllDigits(r) && |r| > 0
    ensures TryExtractSequence(ticketNumber).success ==>
      TryParseInt(r) == Some(TryExtractSequence(ticketNumber).value)
    ensures !TryExtractSequence(ticketNumber).success ==> r == ticketNumber
  {
    var e := TryExtractSequence(ticketNumber);
    if e.success then
      TryParseIntToString(e.value);
      IntToString(e.value)
    else ticketNumber
  }

  /** Both server formats show as the bare sequence. */
  lemma DisplayedNumberIsSequence(prefix: string, n: int)
    requires NoSeparator(prefix) && 0 <= n <= Int32Max
    ensures DisplayedNumber(Tickets.PrefixedNumber(prefix, n)) == IntToString(n)
    ensures DisplayedNumber(Tickets.BareNumber(n)) == IntToString(n)
  {
    ExtractPrefixedNumber(prefix, n);
    ExtractBareNumber(n);
  }

  /** The counter line of the active panel. */
  function CounterText(counter: int): string {
    "Ke Loket " + IntToString(counter)
  }

  /** A nullable int interpolated into a string: null prints as nothing. */
  function OptionalIntText(n: Option<int>): string {
    match n
    case Some(v) => IntToString(v)
    case None => ""
  }

  /** One line of the recent-calls list. */
  function RecentCallText(ticketNumber: string, counter: Option<int>): string {
    "Nomor " + DisplayedNumber(ticketNumber) + " Loket " + OptionalIntText(counter)
  }

  /** The spoken form of the number: first part, a space and the sequence when
      extraction succeeds; otherwise the raw number. */
  function Verbal(ticketNumber: string): string {
    var e := TryExtractSequence(ticketNumber);
    if e.success then SplitTicketNumber(ticketNumber)[0] + " " + IntToString(e.value) else ticketNumber
  }

  /** The sentence handed to the speech synthesiser. */
  function SpokenSentence(ticketNumber: string, counter: int): string {
    "Nomor antrian " + Verbal(ticketNumber) + ", silakan ke loket " + IntToString(counter) + "."
  }

  /** "A-12" is spoken "A 12". */
  lemma VerbalPrefixed(prefix: string, n: int)
    requires NoSeparator(prefix) && 0 <= n <= Int32Max
    ensures Verbal(Tickets.PrefixedNumber(prefix, n)) == prefix + " " + IntToString(n)
  {
    ExtractPrefixedNumber(prefix, n);
  }

  /** The bare "12" of an auto-created ticket is spoken "12 12": the first part is
      the whole number and the extracted sequence follows it. */
  lemma VerbalBare(n: int)
    requires 0 <= n <= Int32Max
    ensures Verbal(Tickets.BareNumber(n)) == IntToString(n) + " " + IntToString(n)
  {
    ExtractBareNumber(n);
  }

  // ---------------------------------------------------------------------
  // Recent calls

  predicate NoAdjacentDuplicates(s: seq<string>) {
    forall i :: 0 <= i < |s| - 1 ==> s[i] != s[i + 1]
  }

  /** The list after AddRecentCall: unchanged when `text` is already at the head;
      otherwise `text` first, followed by the previous entries, cut to three. */
  function RecentAfter(recent: seq<string>, text: string): (r: seq<string>)
    ensures |r| > 0 && r[0] == text
    ensures |recent| > 0 && recent[0] == text ==> r == recent
    ensures !(|recent| > 0 && recent[0] == text) ==> r[1..] <= recent && |r| == Min(3, |recent| + 1)
    ensures |recent| <= 3 ==> |r| <= 3
    ensures NoAdjacentDuplicates(recent) ==> NoAdjacentDuplicates(r)
  {
    if |recent| > 0 && recent[0] == text then recent
    else
      var r := Take([text] + recent, 3);
      assert r[1..] <= recent;
      r
  }

  /** Announcing the same text twice in a row adds one line. */
  lemma RecentAfterIdempotent(recent: seq<string>, text: string)
    ensures RecentAfter(RecentAfter(recent, text), text) == RecentAfter(recent, text)
  {
  }

  // ---------------------------------------------------------------------
  // Initial active ticket

  /** CalledAt ?? DateTime.MinValue */
  function CalledKey(t: TicketDto): int {
    t.calledAt.GetOr(0)
  }

  /** The first CALLING ticket with the latest call time (a stable descending sort). */
  function LatestCalling(tickets: seq<TicketDto>): (r: Option<TicketDto>)
    ensures r.None? <==> forall t :: t in tickets ==> t.status != "CALLING"
    ensures r.Some? ==> r.value in tickets && r.value.status == "CALLING"
    ensures r.Some? ==> forall t :: t in tickets && t.status == "CALLING" ==> CalledKey(t) <= CalledKey(r.value)
  {
    var calling := Filter(tickets, (t: TicketDto) => t.status == "CALLING");
    assert calling == [] <==> forall t :: t in tickets ==> t.status != "CALLING" by {
      if calling != [] { assert calling[0] in calling; }
    }
    LatestBy(calling, CalledKey)
  }

  // ---------------------------------------------------------------------
  // TicketCalled payloads

  /** A property read that either yields a value or throws. */
  datatype Read<T> = Got(value: T) | Throws

  /** GetPropertyOrNull(name)?.GetString() on a payload object: the lookup is
      case-sensitive; a missing property or JSON null reads as null, a string
      as itself, and any other kind throws. */
  function StringOrNull(o: map<string, JsonValue>, name: string): Read<Option<string>> {
    if name !in o || o[name] == JNull then Got(None)
    else if o[name].JString? then Got(Some(o[name].str))
    else Throws
  }

  /** GetPropertyOrNull(name)?.GetInt32() ?? 0: a missing property reads as 0, a
      number as itself, and any other kind, JSON null included, throws. */
  function Int32OrZero(o: map<string, JsonValue>, name: string): Read<int> {
    if name !in o then Got(0)
    else if o[name].JNumber? then Got(o[name].num)
    else Throws
  }

  /** What the TicketCalled handler passes on from a payload object: the number
      and the counter when the number is a non-blank string and the counter is
      missing or a number; nothing otherwise (a throw is caught and logged). */
  function AcceptCalled(o: map<string, JsonValue>): (r: Option<(string, int)>)
    ensures r.Some? <==>
      "TicketNumber" in o && o["TicketNumber"].JString?
      && !IsNullOrWhiteSpace(Some(o["TicketNumber"].str))
      && ("CounterNumber" !in o || o["CounterNumber"].JNumber?)
    ensures r.Some? ==> r.value.0 == o["TicketNumber"].str
    ensures r.Some? ==> r.value.1 == (if "CounterNumber" in o then o["CounterNumber"].num else 0)
  {
    var number := StringOrNull(o, "TicketNumber");
    var counter := Int32OrZero(o, "CounterNumber");
    if number.Throws? || counter.Throws? || IsNullOrWhiteSpace(number.value) then None
    else Some((number.value.value, counter.value))
  }

  // ---------------------------------------------------------------------
  // The window

  class DisplayWindow {
    var recentCalls: seq<string>
    var activeNumberText: string
    var activeCounterText: string

    /** At most three recent calls, no line repeated twice in a row. */
    ghost predicate Valid()
      reads this
    {
      |recentCalls| <= 3 && NoAdjacentDuplicates(recentCalls)
    }

    constructor ()
      ensures Valid() && recentCalls == [] && activeNumberText == "" && activeCounterText == ""
    {
      recentCalls := [];
      activeNumberText := "";
      activeCounterText := "";
    }

    method SetActive(ticketNumber: string, counter: int)
      modifies this
      ensures activeNumberText == DisplayedNumber(ticketNumber)
      ensures activeCounterText == CounterText(counter)
      ensures recentCalls == old(recentCalls)
    {
      activeNumberText := DisplayedNumber(ticketNumber);
      activeCounterText := CounterText(counter);
    }

    method AddRecentCall(ticketNumber: string, counter: Option<int>)
      modifies this
      ensures recentCalls == RecentAfter(old(recentCalls), RecentCallText(ticketNumber, counter))
      ensures activeNumberText == old(activeNumberText) && activeCounterText == old(activeCounterText)
    {
      var text := RecentCallText(ticketNumber, counter);
      if |recentCalls| > 0 && recentCalls[0] == text {
        return;
      }
      recentCalls := [text] + recentCalls;
      while |recentCalls| > 3
        invariant recentCalls == ([text] + old(recentCalls))[..|recentCalls|]
        invariant |recentCalls| >= Min(3, |old(recentCalls)| + 1)
        invariant activeNumberText == old(activeNumberText) && activeCounterText == old(activeCounterText)
        decreases |recentCalls|
      {
        recentCalls := recentCalls[..|recentCalls| - 1];
      }
    }

    /** A call arrives: the active panel shows it, the recent list records it,
        and the sentence to speak is returned. */
    method OnTicketCalled(ticketNumber: string, counter: int) returns (sentence: string)
      requires Valid()
      modifies this
      ensures Valid()
      ensures activeNumberText == DisplayedNumber(ticketNumber) && activeCounterText == CounterText(counter)
      ensures recentCalls == RecentAfter(old(recentCalls), RecentCallText(ticketNumber, Some(counter)))
      ensures sentence == SpokenSentence(ticketNumber, counter)
    {
      SetActive(ticketNumber, counter);
      AddRecentCall(ticketNumber, Some(counter));
      sentence := SpokenSentence(ticketNumber, counter);
    }

    /** The TicketCalled handler: a payload the filter drops changes nothing. */
    method HandleTicketCalled(p: map<string, JsonValue>) returns (sentence: Option<string>)
      requires Valid()
      modifies this
      ensures Valid()
      ensures AcceptCalled(p).None? ==> sentence.None? && unchanged(this)
      ensures AcceptCalled(p).Some? ==>
        var (number, counter) := AcceptCalled(p).value;
        sentence == Some(SpokenSentence(number, counter))
        && activeNumberText == DisplayedNumber(number) && activeCounterText == CounterText(counter)
        && recentCalls == RecentAfter(old(recentCalls), RecentCallText(number, Some(counter)))
    {
      var accepted := AcceptCalled(p);
      if accepted.None? {
        sentence := None;
      } else {
        var s := OnTicketCalled(accepted.value.0, accepted.value.1);
        sentence := Some(s);
      }
    }

    /** Start-up: normalise today's list and show the latest CALLING ticket, if any. */
    method LoadInitialActive(tickets: array<TicketDto>)
      requires Valid()
      modifies this, tickets
      ensures Valid()
      ensures forall i :: 0 <= i < tickets.Length ==>
        tickets[i] == old(tickets[i]).(status := NormalizeStatus(old(tickets[i]).status))
      ensures LatestCalling(tickets[..]).None? ==> unchanged(this)
      ensures LatestCalling(tickets[..]).Some? ==>
        var t := LatestCalling(tickets[..]).value;
        activeNumberText == DisplayedNumber(t.ticketNumber)
        && activeCounterText == CounterText(t.counterNumber.GetOr(0))
        && recentCalls == RecentAfter(old(recentCalls), RecentCallText(t.ticketNumber, t.counterNumber))
    {
      NormalizeStatuses(tickets);
      var latest := LatestCalling(tickets[..]);
      if latest.Some? {
        SetActive(latest.value.ticketNumber, latest.value.counterNumber.GetOr(0));
        AddRecentCall(latest.value.ticketNumber, latest.value.counterNumber);
      }
    }
  }
}
