/** The ticket lifecycle service (QueueServer.Core/Services/TicketService.cs):
    the daily sequence allocator, the two ticket-number formats, call-next,
    the guarded transitions and the queries for the current day. The Tickets
    table is a sequence in insertion order; a ticket's id is its position
    plus one, as the store assigns row ids to rows it never deletes. */
module Tickets {
  import opened Common
  import opened Shared
  import opened Models
  import Settings

  // ---------------------------------------------------------------------
  // Daily sequence allocation

  /** MaxAsync over the sequences of the tickets dated `date`; null when there are none. */
  function MaxSequenceOn(store: seq<Ticket>, date: int): (m: Option<int>)
    ensures m.None? <==> forall t :: t in store ==> t.date != date
    ensures m.Some? ==> forall t :: t in store && t.date == date ==> t.sequence <= m.value
    ensures m.Some? ==> exists t :: t in store && t.date == date && t.sequence == m.value
    decreases |store|
  {
    if store == [] then None
    else
      var init := store[..|store| - 1];
      var last := store[|store| - 1];
      assert store == init + [last];
      var m := MaxSequenceOn(init, date);
      if last.date != date then m
      else if m.Some? && m.value >= last.sequence then m
      else Some(last.sequence)
  }

  /** The sequence the next ticket of `date` receives: the day's largest plus one, or 1. */
  function NextSequence(store: seq<Ticket>, date: int): (n: int)
    ensures forall t :: t in store && t.date == date ==> t.sequence < n
    ensures (forall t :: t in store ==> t.date != date) ==> n == 1
    ensures (forall t :: t in store ==> t.sequence >= 1) ==>
      n >= 1 && (n == 1 <==> forall t :: t in store ==> t.date != date)
  {
    MaxSequenceOn(store, date).GetOr(0) + 1
  }

  // ---------------------------------------------------------------------
  // Ticket numbers

  /** The number CreateTicketAsync gives: prefix, a dash, the sequence without leading zeros. */
  function PrefixedNumber(prefix: string, sequence: int): string {
    prefix + "-" + IntToString(sequence)
  }

  /** The number CallNextAsync gives a ticket it creates itself: the bare sequence. */
  function BareNumber(sequence: int): string {
    IntToString(sequence)
  }

  /** The ticket number ends with the decimal sequence, standing alone or after a dash. */
  ghost predicate NumberEndsWithSequence(t: Ticket) {
    var d := IntToString(t.sequence);
    var s := t.ticketNumber;
    |d| <= |s| && s[|s| - |d|..] == d && (|d| == |s| || s[|s| - |d| - 1] == '-')
  }

  /** Both formats end with the sequence. */
  lemma NumberFormatsEndWithSequence(t: Ticket, prefix: string)
    requires t.ticketNumber == PrefixedNumber(prefix, t.sequence) || t.ticketNumber == BareNumber(t.sequence)
    ensures NumberEndsWithSequence(t)
  {
    var d := IntToString(t.sequence);
    if t.ticketNumber == PrefixedNumber(prefix, t.sequence) {
      assert t.ticketNumber == (prefix + "-") + d;
    }
  }

  /** Two ticket numbers that end with non-negative sequences are equal only when
      the sequences are: a number never stands for two sequences. */
  lemma {:induction false} SameNumberSameSequence(a: Ticket, b: Ticket)
    requires NumberEndsWithSequence(a) && NumberEndsWithSequence(b)
    requires a.sequence >= 0 && b.sequence >= 0
    requires a.ticketNumber == b.ticketNumber
    ensures a.sequence == b.sequence
  {
    var s := a.ticketNumber;
    var da, db := IntToString(a.sequence), IntToString(b.sequence);
    // a shorter one would need a dash inside the longer one, which holds only digits
    if |da| < |db| {
      assert false;
    } else if |db| < |da| {
      assert false;
    }
    IntToStringInjective(a.sequence, b.sequence);
  }

  // ---------------------------------------------------------------------
  // The ticket state machine

  /** The lifecycle's edges: call, recall (also from NO_SHOW), start serving,
      complete and skip. */
  predicate Transition(from: TicketStatus, to: TicketStatus) {
    match (from, to)
    case (Waiting, Calling) => true
    case (Calling, Calling) => true
    case (NoShow, Calling) => true
    case (Calling, Serving) => true
    case (Serving, Done) => true
    case (Calling, NoShow) => true
    case _ => false
  }

  /** What no transition changes: the identity, number, sequence, day and creation time. */
  predicate SameIdentity(a: Ticket, b: Ticket) {
    a.id == b.id && a.ticketNumber == b.ticketNumber && a.sequence == b.sequence
    && a.date == b.date && a.createdAt == b.createdAt
  }

  /** `after` extends `before` position by position without changing any identity. */
  predicate KeepsIdentities(before: seq<Ticket>, after: seq<Ticket>) {
    |before| <= |after| && forall i :: 0 <= i < |before| ==> SameIdentity(before[i], after[i])
  }

  /** Replacing one ticket by a successor with the same identity keeps every identity. */
  lemma UpdateKeepsIdentities(before: seq<Ticket>, k: int, t: Ticket)
    requires 0 <= k < |before| && SameIdentity(before[k], t)
    ensures KeepsIdentities(before, before[k := t])
  {
  }

  /** Appending keeps every identity. */
  lemma AppendKeepsIdentities(before: seq<Ticket>, t: Ticket)
    ensures KeepsIdentities(before, before + [t])
  {
  }

  /** The fields of a ticket agree with its status: a waiting ticket was never
      called, every other one carries the counter and time of its call, the
      serving and completion times are set exactly when those steps happened,
      and no operation of the service cancels a ticket. */
  ghost predicate Wellformed(t: Ticket) {
    && t.sequence >= 1
    && t.lastRecallCount >= 0
    && t.status != Canceled
    && (t.status == Waiting ==> t.counterNumber.None? && t.calledAt.None? && t.lastRecallCount == 0)
    && (t.status != Waiting ==> t.counterNumber.Some? && t.calledAt.Some?)
    && (t.servingStartAt.Some? <==> t.status == Serving || t.status == Done)
    && (t.completedAt.Some? <==> t.status == Done)
  }

  /** A new row as the service builds it: WAITING, nothing called yet. */
  function Issued(id: int, ticketNumber: string, sequence: int, date: int, now: nat): (t: Ticket)
    ensures t.status == Waiting && t.lastRecallCount == 0
    ensures t.counterNumber.None? && t.calledAt.None? && t.servingStartAt.None? && t.completedAt.None?
    ensures sequence >= 1 ==> Wellformed(t)
  {
    Ticket(id, ticketNumber, sequence, date, Waiting, now, None, None, None, None, 0)
  }

  /** Call: CALLING at `counter`, called now. */
  function Called(t: Ticket, counter: int, now: nat): (r: Ticket)
    ensures SameIdentity(t, r) && r.lastRecallCount == t.lastRecallCount
    ensures r.status == Calling && r.counterNumber == Some(counter) && r.calledAt == Some(now)
    ensures r.servingStartAt == t.servingStartAt && r.completedAt == t.completedAt
    ensures t.status == Waiting ==> Transition(t.status, r.status)
    ensures t.status == Waiting && Wellformed(t) ==> Wellformed(r)
  {
    t.(status := Calling, counterNumber := Some(counter), calledAt := Some(now))
  }

  /** Recall: from CALLING or NO_SHOW back to CALLING with a fresh call time and
      one more recall; the counter stays. From any other status nothing changes. */
  function Recalled(t: Ticket, now: nat): (r: Ticket)
    ensures SameIdentity(t, r) && r.counterNumber == t.counterNumber
    ensures r == t || Transition(t.status, r.status)
    ensures r.status == Calling <==> t.status == Calling || t.status == NoShow
    ensures r.status == Calling ==> r.calledAt == Some(now) && r.lastRecallCount == t.lastRecallCount + 1
    ensures r.servingStartAt == t.servingStartAt && r.completedAt == t.completedAt
    ensures r.status != Calling ==> r == t
    ensures Wellformed(t) ==> Wellformed(r)
  {
    if t.status == Calling || t.status == NoShow then
      t.(status := Calling, calledAt := Some(now), lastRecallCount := t.lastRecallCount + 1)
    else t
  }

  /** Start serving: CALLING to SERVING, serving start now; otherwise nothing changes. */
  function ServingStarted(t: Ticket, now: nat): (r: Ticket)
    ensures SameIdentity(t, r) && r.counterNumber == t.counterNumber
    ensures r == t || Transition(t.status, r.status)
    ensures r != t <==> t.status == Calling
    ensures r != t ==> r.status == Serving && r.servingStartAt == Some(now)
    ensures r.calledAt == t.calledAt && r.lastRecallCount == t.lastRecallCount && r.completedAt == t.completedAt
    ensures Wellformed(t) ==> Wellformed(r)
  {
    if t.status == Calling then t.(status := Serving, servingStartAt := Some(now)) else t
  }

  /** Complete: SERVING to DONE, completed now; otherwise nothing changes. */
  function Completed(t: Ticket, now: nat): (r: Ticket)
    ensures SameIdentity(t, r) && r.counterNumber == t.counterNumber
    ensures r == t || Transition(t.status, r.status)
    ensures r != t <==> t.status == Serving
    ensures r != t ==> r.status == Done && r.completedAt == Some(now)
    ensures r.calledAt == t.calledAt && r.lastRecallCount == t.lastRecallCount && r.servingStartAt == t.servingStartAt
    ensures Wellformed(t) ==> Wellformed(r)
  {
    if t.status == Serving then t.(status := Done, completedAt := Some(now)) else t
  }

  /** Skip: CALLING to NO_SHOW; otherwise nothing changes. */
  function Skipped(t: Ticket): (r: Ticket)
    ensures SameIdentity(t, r) && r.counterNumber == t.counterNumber
    ensures r == t || Transition(t.status, r.status)
    ensures r != t <==> t.status == Calling
    ensures r != t ==> r.status == NoShow
    ensures r.calledAt == t.calledAt && r.lastRecallCount == t.lastRecallCount
    ensures r.servingStartAt == t.servingStartAt && r.completedAt == t.completedAt
    ensures Wellformed(t) ==> Wellformed(r)
  {
    if t.status == Calling then t.(status := NoShow) else t
  }

  /** DONE (and CANCELED) are terminal: no operation changes such a ticket. */
  lemma TerminalStatuses(t: Ticket, now: nat)
    requires t.status == Done || t.status == Canceled
    ensures Recalled(t, now) == t && ServingStarted(t, now) == t
    ensures Completed(t, now) == t && Skipped(t) == t
    ensures forall s :: !Transition(t.status, s)
  {
  }

  // ---------------------------------------------------------------------
  // The store

  /** Same-day tickets ascend by sequence in insertion order. */
  ghost predicate DailyAscending(store: seq<Ticket>) {
    forall i, j :: 0 <= i < j < |store| && store[i].date == store[j].date ==>
      store[i].sequence < store[j].sequence
  }

  /** How many tickets of `store` are dated `date`. */
  function CountOn(store: seq<Ticket>, date: int): (n: nat)
    ensures n <= |store|
    decreases |store|
  {
    if store == [] then 0
    else CountOn(store[..|store| - 1], date) + (if store[|store| - 1].date == date then 1 else 0)
  }

  /** Gapless per day: the k-th ticket of a day, in insertion order, has
      sequence k (stated from the last row back; ContiguousAt gives it row by row). */
  ghost predicate DailyContiguous(store: seq<Ticket>)
    decreases |store|
  {
    store == [] ||
      (DailyContiguous(store[..|store| - 1]) &&
       store[|store| - 1].sequence == CountOn(store, store[|store| - 1].date))
  }

  /** Ids are positions, every ticket is well formed, and each day's sequences
      run 1, 2, 3, ... in insertion order. */
  ghost predicate StoreInvariant(store: seq<Ticket>) {
    && (forall i :: 0 <= i < |store| ==> store[i].id == i + 1)
    && (forall i :: 0 <= i < |store| ==> Wellformed(store[i]))
    && DailyAscending(store)
    && DailyContiguous(store)
  }

  /** Every number ends with its sequence, as both formats the service writes do. */
  ghost predicate NumbersShaped(store: seq<Ticket>) {
    forall i :: 0 <= i < |store| ==> NumberEndsWithSequence(store[i])
  }

  function BySequence(t: Ticket): int { t.sequence }

  /** A ticket in the store sits at the position its id names. */
  lemma IdLocates(store: seq<Ticket>, t: Ticket)
    requires StoreInvariant(store) && t in store
    ensures 1 <= t.id <= |store| && store[t.id - 1] == t
  {
    var i :| 0 <= i < |store| && store[i] == t;
  }

  /** The tickets of one day, in store order, ascend by sequence. */
  lemma {:induction false} DayAscending(store: seq<Ticket>, p: Ticket -> bool, date: int)
    requires DailyAscending(store)
    requires forall t :: p(t) ==> t.date == date
    ensures AscendingBy(Filter(store, p), BySequence)
    decreases |store|
  {
    if store != [] {
      var tail := store[1..];
      assert DailyAscending(tail) by {
        forall i, j | 0 <= i < j < |tail| && tail[i].date == tail[j].date
          ensures tail[i].sequence < tail[j].sequence
        {
          assert tail[i] == store[i + 1] && tail[j] == store[j + 1];
        }
      }
      DayAscending(tail, p, date);
      var rest := Filter(tail, p);
      if p(store[0]) {
        var r := [store[0]] + rest;
        forall i, j | 0 <= i < j < |r| ensures BySequence(r[i]) < BySequence(r[j]) {
          if i == 0 {
            assert r[j] in tail;
            var k :| 0 <= k < |tail| && tail[k] == r[j];
            assert store[k + 1] == r[j];
          } else {
            assert r[i] == rest[i - 1] && r[j] == rest[j - 1];
          }
        }
      }
    }
  }

  /** The first entry of the ascending waiting list is today's lowest waiting sequence and sits at its id. */
  lemma HeadOfWaiting(store: seq<Ticket>, w: seq<Ticket>, today: int)
    requires forall i :: 0 <= i < |store| ==> store[i].id == i + 1
    requires AscendingBy(w, BySequence) && w != []
    requires forall t :: t in w <==> t in store && t.date == today && t.status == Waiting
    ensures 1 <= w[0].id <= |store| && store[w[0].id - 1] == w[0]
    ensures w[0].date == today && w[0].status == Waiting
    ensures forall t :: t in store && t.date == today && t.status == Waiting ==> w[0].sequence <= t.sequence
  {
    assert w[0] in w;
    var k :| 0 <= k < |store| && store[k] == w[0];
    AscendingTail(w, BySequence);
    forall t | t in store && t.date == today && t.status == Waiting ensures w[0].sequence <= t.sequence {
      assert t == w[0] || t in w[1..];
      assert BySequence(w[0]) <= BySequence(t);
    }
  }

  /** Ticket numbers are unique within a day. */
  lemma NumbersUniquePerDay(store: seq<Ticket>, i: nat, j: nat)
    requires StoreInvariant(store) && NumbersShaped(store) && i < |store| && j < |store|
    requires store[i].date == store[j].date && store[i].ticketNumber == store[j].ticketNumber
    ensures i == j
  {
    SameNumberSameSequence(store[i], store[j]);
  }

  /** A prefix of a gapless store is gapless. */
  lemma {:induction false} ContiguousPrefix(store: seq<Ticket>, n: nat)
    requires DailyContiguous(store) && n <= |store|
    ensures DailyContiguous(store[..n])
    decreases |store|
  {
    if n < |store| {
      assert store[..|store| - 1][..n] == store[..n];
      ContiguousPrefix(store[..|store| - 1], n);
    } else {
      assert store[..n] == store;
    }
  }

  /** Row by row: the ticket at position i is the day's CountOn(store[..i + 1])-th. */
  lemma ContiguousAt(store: seq<Ticket>, i: nat)
    requires DailyContiguous(store) && i < |store|
    ensures store[i].sequence == CountOn(store[..i + 1], store[i].date)
  {
    ContiguousPrefix(store, i + 1);
    assert store[..i + 1][..i] == store[..i];
  }

  /** In a gapless store the day's largest sequence is the day's ticket count. */
  lemma {:induction false} MaxIsCount(store: seq<Ticket>, date: int)
    requires DailyContiguous(store)
    ensures MaxSequenceOn(store, date).GetOr(0) == CountOn(store, date)
    decreases |store|
  {
    if store != [] {
      MaxIsCount(store[..|store| - 1], date);
    }
  }

  /** The allocator continues each day's count: the next sequence is one more
      than the number of tickets the day already has. */
  lemma NextSequenceIsCount(store: seq<Ticket>, date: int)
    requires DailyContiguous(store)
    ensures NextSequence(store, date) == CountOn(store, date) + 1
  {
    MaxIsCount(store, date);
  }

  /** Two stores whose tickets have the same days position by position count the same per day. */
  lemma {:induction false} CountSameDates(a: seq<Ticket>, b: seq<Ticket>, date: int)
    requires |a| == |b| && forall i :: 0 <= i < |a| ==> a[i].date == b[i].date
    ensures CountOn(a, date) == CountOn(b, date)
    decreases |a|
  {
    if a != [] {
      CountSameDates(a[..|a| - 1], b[..|b| - 1], date);
    }
  }

  /** Replacing a ticket by one of the same day and sequence keeps the store gapless. */
  lemma {:induction false} UpdateContiguous(store: seq<Ticket>, k: nat, r: Ticket)
    requires DailyContiguous(store) && k < |store|
    requires r.date == store[k].date && r.sequence == store[k].sequence
    ensures DailyContiguous(store[k := r])
    decreases |store|
  {
    var s := store[k := r];
    var n := |store| - 1;
    CountSameDates(store, s, s[n].date);
    if k == n {
      assert s[..n] == store[..n];
    } else {
      assert s[..n] == store[..n][k := r];
      UpdateContiguous(store[..n], k, r);
    }
  }

  /** Appending a ticket with the day's next sequence keeps the store gapless. */
  lemma AppendContiguous(store: seq<Ticket>, t: Ticket)
    requires DailyContiguous(store)
    requires t.sequence == NextSequence(store, t.date)
    ensures DailyContiguous(store + [t])
  {
    NextSequenceIsCount(store, t.date);
    var s := store + [t];
    assert s[..|s| - 1] == store;
  }

  /** Replacing one ticket by a well-formed successor with the same identity keeps the invariant. */
  lemma UpdatePreserves(store: seq<Ticket>, k: nat, r: Ticket)
    requires StoreInvariant(store) && k < |store|
    requires SameIdentity(store[k], r) && Wellformed(r)
    ensures StoreInvariant(store[k := r])
  {
    UpdateContiguous(store, k, r);
  }

  /** Appending a well-formed ticket with the next id and the day's next sequence keeps the invariant. */
  lemma AppendPreserves(store: seq<Ticket>, t: Ticket)
    requires StoreInvariant(store) && Wellformed(t)
    requires t.id == |store| + 1 && t.sequence == NextSequence(store, t.date)
    ensures StoreInvariant(store + [t])
  {
    AppendRows(store, t);
    AppendAscending(store, t);
    AppendContiguous(store, t);
  }

  lemma AppendRows(store: seq<Ticket>, t: Ticket)
    requires forall i :: 0 <= i < |store| ==> store[i].id == i + 1
    requires forall i :: 0 <= i < |store| ==> Wellformed(store[i])
    requires t.id == |store| + 1 && Wellformed(t)
    ensures forall i :: 0 <= i < |store + [t]| ==> (store + [t])[i].id == i + 1
    ensures forall i :: 0 <= i < |store + [t]| ==> Wellformed((store + [t])[i])
  {
    var s := store + [t];
    forall i | 0 <= i < |s| ensures s[i].id == i + 1 && Wellformed(s[i]) {
      if i < |store| { assert s[i] == store[i]; } else { assert s[i] == t; }
    }
  }

  lemma AppendAscending(store: seq<Ticket>, t: Ticket)
    requires DailyAscending(store)
    requires t.sequence == NextSequence(store, t.date)
    ensures DailyAscending(store + [t])
  {
    var s := store + [t];
    forall i, j | 0 <= i < j < |s| && s[i].date == s[j].date ensures s[i].sequence < s[j].sequence {
      if j == |store| {
        assert s[i] in store;
      } else {
        assert s[i] == store[i] && s[j] == store[j];
      }
    }
  }

  /** One row rewritten in place: the invariant, the identities and the number shapes all carry over. */
  lemma UpdateStep(store: seq<Ticket>, k: nat, r: Ticket)
    requires StoreInvariant(store) && k < |store|
    requires SameIdentity(store[k], r) && Wellformed(r)
    ensures StoreInvariant(store[k := r]) && KeepsIdentities(store, store[k := r])
    ensures NumbersShaped(store) ==> NumbersShaped(store[k := r])
  {
    UpdatePreserves(store, k, r);
    UpdateKeepsIdentities(store, k, r);
    if NumbersShaped(store) { ShapesKept(store, store[k := r]); }
  }

  /** One row appended: the invariant, the identities and the number shapes all carry over. */
  lemma AppendStep(store: seq<Ticket>, t: Ticket)
    requires StoreInvariant(store) && Wellformed(t) && NumberEndsWithSequence(t)
    requires t.id == |store| + 1 && t.sequence == NextSequence(store, t.date)
    ensures StoreInvariant(store + [t]) && KeepsIdentities(store, store + [t])
    ensures NumbersShaped(store) ==> NumbersShaped(store + [t])
  {
    AppendPreserves(store, t);
    AppendKeepsIdentities(store, t);
    if NumbersShaped(store) { AppendShaped(store, t); }
  }

  lemma AppendShaped(store: seq<Ticket>, t: Ticket)
    requires NumbersShaped(store) && NumberEndsWithSequence(t)
    ensures NumbersShaped(store + [t])
  {
    var s := store + [t];
    forall i | 0 <= i < |s| ensures NumberEndsWithSequence(s[i]) {
      if i < |store| { assert s[i] == store[i]; } else { assert s[i] == t; }
    }
  }

  /** The number shapes survive any change that keeps identities, given that
      every appended ticket has one. */
  lemma ShapesKept(before: seq<Ticket>, after: seq<Ticket>)
    requires NumbersShaped(before) && KeepsIdentities(before, after)
    requires forall i :: |before| <= i < |after| ==> NumberEndsWithSequence(after[i])
    ensures NumbersShaped(after)
  {
    forall i | 0 <= i < |after| ensures NumberEndsWithSequence(after[i]) {
      if i < |before| {
        assert SameIdentity(before[i], after[i]);
      }
    }
  }

  // ---------------------------------------------------------------------
  // The service

  class TicketService {
    const settings: Settings.SettingsService
    var tickets: seq<Ticket>

    ghost predicate Valid()
      reads this
    {
      StoreInvariant(tickets)
    }

    /** Opens the service over the rows already in the database, which satisfy
        the invariant every operation keeps. */
    constructor (settings: Settings.SettingsService, initial: seq<Ticket>)
      requires StoreInvariant(initial)
      ensures this.settings == settings && tickets == initial && Valid()
    {
      this.settings := settings;
      tickets := initial;
    }

    /** The ticket with this id, or null. */
    function Find(id: int): (r: Option<Ticket>)
      reads this
      requires Valid()
      ensures r.Some? <==> exists t :: t in tickets && t.id == id
      ensures r.Some? ==> 1 <= id <= |tickets| && r.value == tickets[id - 1] && r.value.id == id
    {
      if 1 <= id <= |tickets| then Some(tickets[id - 1])
      else
        assert forall t :: t in tickets ==> t.id != id by {
          forall t | t in tickets ensures t.id != id { IdLocates(tickets, t); }
        }
        None
    }

    /** Creates a WAITING ticket for `today` with the day's next sequence and the
        number `prefix-n`, the prefix being the Prefix setting or "A". */
    method CreateTicket(today: int, now: nat) returns (t: Ticket)
      requires Valid()
      modifies this
      ensures Valid()
      ensures NumbersShaped(old(tickets)) ==> NumbersShaped(tickets)
      ensures KeepsIdentities(old(tickets), tickets)
      ensures 1 <= t.id <= |tickets| && tickets[t.id - 1] == t
      ensures tickets == old(tickets) + [t]
      ensures t.id == |old(tickets)| + 1 && t.date == today && t.createdAt == now
      ensures t.sequence == NextSequence(old(tickets), today)
      ensures t.ticketNumber == PrefixedNumber(settings.GetValue("Prefix").GetOr("A"), t.sequence)
      ensures t.status == Waiting && t.counterNumber.None? && t.calledAt.None?
    {
      var prefix := settings.GetValue("Prefix").GetOr("A");
      var next := NextSequence(tickets, today);
      t := Issued(|tickets| + 1, PrefixedNumber(prefix, next), next, today, now);
      NumberFormatsEndWithSequence(t, prefix);
      AppendStep(tickets, t);
      tickets := tickets + [t];
    }

    /** Today's WAITING tickets, ascending by sequence. */
    function WaitingList(today: int): (r: seq<Ticket>)
      reads this
      requires Valid()
      ensures AscendingBy(r, BySequence)
      ensures forall t :: t in r <==> t in tickets && t.date == today && t.status == Waiting
    {
      DayAscending(tickets, (t: Ticket) => t.date == today && t.status == Waiting, today);
      Filter(tickets, (t: Ticket) => t.date == today && t.status == Waiting)
    }

    /** The WAITING ticket of `today` with the smallest sequence (OrderBy, FirstOrDefault). */
    function FirstWaiting(today: int): (r: Option<Ticket>)
      reads this
      requires Valid()
      ensures r.None? <==> forall t :: t in tickets ==> !(t.date == today && t.status == Waiting)
      ensures r.Some? ==> 1 <= r.value.id <= |tickets| && tickets[r.value.id - 1] == r.value
      ensures r.Some? ==> r.value.date == today && r.value.status == Waiting
      ensures r.Some? ==> forall t :: t in tickets && t.date == today && t.status == Waiting ==>
        r.value.sequence <= t.sequence
    {
      var waiting := WaitingList(today);
      if waiting == [] then None
      else
        HeadOfWaiting(tickets, waiting, today);
        Some(waiting[0])
    }

    /** Calls the lowest WAITING ticket of `today` to `counter`; when none is
        waiting, first adds one with the day's next sequence and the bare number. */
    method CallNext(counter: int, today: int, now: nat) returns (t: Ticket)
      requires Valid()
      modifies this
      ensures Valid()
      ensures NumbersShaped(old(tickets)) ==> NumbersShaped(tickets)
      ensures KeepsIdentities(old(tickets), tickets)
      ensures 1 <= t.id <= |tickets| && tickets[t.id - 1] == t
      ensures old(FirstWaiting(today)).Some? ==>
        var w := old(FirstWaiting(today)).value;
        t == Called(w, counter, now) && tickets == old(tickets)[w.id - 1 := t]
      ensures old(FirstWaiting(today)).None? ==>
        var n := NextSequence(old(tickets), today);
        t == Called(Issued(|old(tickets)| + 1, BareNumber(n), n, today, now), counter, now)
        && tickets == old(tickets) + [t]
      ensures t.status == Calling && t.counterNumber == Some(counter) && t.calledAt == Some(now)
      ensures t.date == today
    {
      var waiting := FirstWaiting(today);
      if waiting.Some? {
        var w := waiting.value;
        t := Called(w, counter, now);
        UpdateStep(tickets, w.id - 1, t);
        tickets := tickets[w.id - 1 := t];
      } else {
        var n := NextSequence(tickets, today);
        var issued := Issued(|tickets| + 1, BareNumber(n), n, today, now);
        NumberFormatsEndWithSequence(issued, "");
        t := Called(issued, counter, now);
        AppendStep(tickets, t);
        tickets := tickets + [t];
      }
    }

    /** Writes back a changed ticket: the row `id` becomes `t`. */
    method Replace(id: int, t: Ticket)
      requires Valid() && 1 <= id <= |tickets|
      requires SameIdentity(tickets[id - 1], t) && Wellformed(t)
      modifies this
      ensures Valid() && KeepsIdentities(old(tickets), tickets)
      ensures NumbersShaped(old(tickets)) ==> NumbersShaped(tickets)
      ensures tickets == old(tickets)[id - 1 := t]
    {
      UpdateStep(tickets, id - 1, t);
      tickets := tickets[id - 1 := t];
    }

    /** Recalls ticket `id`; null for an unknown id. */
    method Recall(id: int, now: nat) returns (r: Option<Ticket>)
      requires Valid()
      modifies this
      ensures Valid()
      ensures NumbersShaped(old(tickets)) ==> NumbersShaped(tickets)
      ensures KeepsIdentities(old(tickets), tickets)
      ensures r.Some? ==> r.value.id == id && 1 <= id <= |tickets| && tickets[id - 1] == r.value
      ensures old(Find(id)).None? ==> r.None? && tickets == old(tickets)
      ensures old(Find(id)).Some? ==>
        r == Some(Recalled(old(Find(id)).value, now)) && tickets == old(tickets)[id - 1 := r.value]
    {
      var found := Find(id);
      if found.None? {
        r := None;
      } else {
        var t := Recalled(found.value, now);
        Replace(id, t);
        r := Some(t);
      }
    }

    /** Starts serving ticket `id`; null for an unknown id. */
    method StartServing(id: int, now: nat) returns (r: Option<Ticket>)
      requires Valid()
      modifies this
      ensures Valid()
      ensures NumbersShaped(old(tickets)) ==> NumbersShaped(tickets)
      ensures KeepsIdentities(old(tickets), tickets)
      ensures r.Some? ==> r.value.id == id && 1 <= id <= |tickets| && tickets[id - 1] == r.value
      ensures old(Find(id)).None? ==> r.None? && tickets == old(tickets)
      ensures old(Find(id)).Some? ==>
        r == Some(ServingStarted(old(Find(id)).value, now)) && tickets == old(tickets)[id - 1 := r.value]
    {
      var found := Find(id);
      if found.None? {
        r := None;
      } else {
        var t := ServingStarted(found.value, now);
        Replace(id, t);
        r := Some(t);
      }
    }

    /** Completes ticket `id`; null for an unknown id. */
    method Complete(id: int, now: nat) returns (r: Option<Ticket>)
      requires Valid()
      modifies this
      ensures Valid()
      ensures NumbersShaped(old(tickets)) ==> NumbersShaped(tickets)
      ensures KeepsIdentities(old(tickets), tickets)
      ensures r.Some? ==> r.value.id == id && 1 <= id <= |tickets| && tickets[id - 1] == r.value
      ensures old(Find(id)).None? ==> r.None? && tickets == old(tickets)
      ensures old(Find(id)).Some? ==>
        r == Some(Completed(old(Find(id)).value, now)) && tickets == old(tickets)[id - 1 := r.value]
    {
      var found := Find(id);
      if found.None? {
        r := None;
      } else {
        var t := Completed(found.value, now);
        Replace(id, t);
        r := Some(t);
      }
    }

    /** Skips ticket `id` (no-show); null for an unknown id. */
    method Skip(id: int) returns (r: Option<Ticket>)
      requires Valid()
      modifies this
      ensures Valid()
      ensures NumbersShaped(old(tickets)) ==> NumbersShaped(tickets)
      ensures KeepsIdentities(old(tickets), tickets)
      ensures r.Some? ==> r.value.id == id && 1 <= id <= |tickets| && tickets[id - 1] == r.value
      ensures old(Find(id)).None? ==> r.None? && tickets == old(tickets)
      ensures old(Find(id)).Some? ==>
        r == Some(Skipped(old(Find(id)).value)) && tickets == old(tickets)[id - 1 := r.value]
    {
      var found := Find(id);
      if found.None? {
        r := None;
      } else {
        var t := Skipped(found.value);
        Replace(id, t);
        r := Some(t);
      }
    }

    /** At most `take` of today's WAITING tickets, the lowest sequences first. The
        query becomes SQLite LIMIT, where a negative limit means no limit, so a
        negative `take` gives every waiting ticket. */
    function GetWaiting(take: int, today: int): (r: seq<Ticket>)
      reads this
      requires Valid()
      ensures AscendingBy(r, BySequence)
      ensures forall t :: t in r ==> t in tickets && t.date == today && t.status == Waiting
      ensures take == 0 ==> r == []
      ensures take >= 0 ==> |r| <= take
      ensures take < 0 ==> forall t :: t in tickets && t.date == today && t.status == Waiting ==> t in r
      ensures forall t :: t in tickets && t.date == today && t.status == Waiting && t !in r ==>
        |r| == take && forall u :: u in r ==> u.sequence < t.sequence
    {
      if take < 0 then
        WaitingList(today)
      else
        TakeAscending(WaitingList(today), take, BySequence);
        Take(WaitingList(today), take)
    }

    /** A CALLING or SERVING ticket of today at `counter` with the latest call time;
        a ticket never called sorts below every call time. */
    function GetActiveCalling(counter: int, today: int): (r: Option<Ticket>)
      reads this
      ensures r.None? <==> forall t :: t in tickets ==> !IsActiveAt(t, counter, today)
      ensures r.Some? ==> r.value in tickets && IsActiveAt(r.value, counter, today)
      ensures r.Some? ==> forall t :: t in tickets && IsActiveAt(t, counter, today) ==>
        CallTimeKey(t) <= CallTimeKey(r.value)
    {
      LatestBy(Filter(tickets, (t: Ticket) => IsActiveAt(t, counter, today)), CallTimeKey)
    }

    /** All of today's tickets, ascending by sequence. */
    function GetTodayTickets(today: int): (r: seq<Ticket>)
      reads this
      requires Valid()
      ensures AscendingBy(r, BySequence)
      ensures forall t :: t in r ==> t in tickets && t.date == today
      ensures forall t :: t in tickets && t.date == today ==> t in r
    {
      DayAscending(tickets, (t: Ticket) => t.date == today, today);
      Filter(tickets, (t: Ticket) => t.date == today)
    }

    /** Stores a new ticket-number prefix in the Prefix setting. */
    method UpdatePrefix(prefix: string)
      modifies settings
      ensures settings.store == old(settings.store)["Prefix" := prefix]
      ensures settings.GetValue("Prefix") == Some(prefix)
    {
      settings.SetValue("Prefix", prefix);
    }
  }

  /** ORDER BY Sequence has one answer: any listing of today's tickets that
      ascends by sequence is the one GetTodayTickets returns. */
  lemma TodayListingIsOrdered(svc: TicketService, today: int, list: seq<Ticket>)
    requires svc.Valid()
    requires AscendingBy(list, BySequence)
    requires forall t :: t in list <==> t in svc.tickets && t.date == today
    ensures list == svc.GetTodayTickets(today)
  {
    AscendingUnique(list, svc.GetTodayTickets(today), BySequence);
  }

  predicate IsActiveAt(t: Ticket, counter: int, today: int) {
    t.date == today && (t.status == Calling || t.status == Serving) && t.counterNumber == Some(counter)
  }

  /** ORDER BY CalledAt DESC puts a null call time last. */
  function CallTimeKey(t: Ticket): int {
    match t.calledAt
    case None => -1
    case Some(c) => c
  }
}
