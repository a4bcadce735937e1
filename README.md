# loket — a verified model of the queue core

This project models, in Dafny, the core of the "loket" counter-queue system:

- the server's ticket lifecycle service;
- its key/value settings store;
- the HTTP endpoints and the hub broadcast each one makes;
- the selection and text logic of the two clients, the display wall and the teller console.

It then proves what that code promises.

Sources of state and their models:

- **Ticket store.** The Tickets table becomes a `seq<Ticket>` held by the class `Tickets.TicketService`. A ticket's id is its position plus one.
- **Settings table.** Becomes a `map<string, string>` held by `Settings.SettingsService`.
- **Hub.** The broadcasts become an append-only event log in `Api.QueueApi`.
- **Clock.** The current day and the current time are parameters (`today`, `now`). Times are ticks, with DateTime.MinValue as 0.

Files:

| file | models |
|---|---|
| `common.dfy` | nullable values, int.ToString / int.TryParse on ASCII digits, Split('-', '_'), whitespace and ASCII case helpers, and the LINQ operators the queries use |
| `shared.dfy` | the `TicketStatus` enumeration with its names and underlying numbers, and the hub event names |
| `models.dfy` | the persisted `Ticket` row |
| `settings_service.dfy` | the defaults, EnsureDefaults, GetValue, SetValue (upsert) and GetAll |
| `ticket_service.dfy` | the daily sequence allocator, the two ticket-number formats, the state machine, the store invariant, the service class and its queries |
| `api.dfy` | the endpoint handlers and the event log |
| `display_window.dfy` | the display's status normalisation, sequence extraction, texts, recent-calls list, initial active ticket and TicketCalled filter |
| `number_to_bahasa.dfy` | Indonesian number words and the strict sequence parser |
| `teller_window.dfy` | the teller's counter selection, waiting top five, active ticket and one-key settings payloads |
| `teller_settings_window.dfy` | the teller settings dialog's load mapping, Save payload and close decision |
| `end_to_end.dfy` | what the clients see of the server's answers and broadcasts |

The store invariant is `Tickets.StoreInvariant`. Every method of `Tickets.TicketService` and `Api.QueueApi` keeps it. It has four parts:

- ids are positions;
- every ticket is well formed for its status;
- tickets of the same day ascend by sequence in insertion order;
- each day is gapless: the k-th ticket of a day, in insertion order, has sequence k (`Tickets.DailyContiguous`).

Because of the third part, the sequence-ordered queries are plain filters of the store. `Tickets.TodayListingIsOrdered` shows that any listing sorted by sequence equals that filter. Because of the fourth, the allocator's next sequence is the day's ticket count plus one (`Tickets.NextSequenceIsCount`).

A second property, `Tickets.NumbersShaped`, says every number ends with its sequence, as both formats the service writes do. It is kept apart from the invariant so that the service can open over rows written in an older format. Every operation keeps it when it holds.

## Model

| member | source | states |
|---|---|---|
| Tickets.MaxSequenceOn | QueueServer.Core/Services/TicketService.cs:27 | null exactly when no ticket is dated that day; otherwise the value bounds every sequence of the day and is one of them |
| Tickets.NextSequence | QueueServer.Core/Services/TicketService.cs:26-28 | the new sequence is larger than every sequence of the day; it is 1 exactly when the day has no ticket yet |
| Tickets.NumberFormatsEndWithSequence | QueueServer.Core/Services/TicketService.cs:34 | both the `prefix-n` and the bare `n` formats end with the decimal sequence, alone or after a dash |
| Tickets.SameNumberSameSequence | QueueServer.Core/Services/TicketService.cs:34 | two numbers that end with their sequences are equal only when the sequences are |
| Tickets.NumbersUniquePerDay | QueueServer.Core/Services/TicketService.cs:26-34 | in a store that keeps the invariant and whose numbers end with their sequences, two tickets of the same day with the same number are the same row |
| Tickets.Issued | QueueServer.Core/Services/TicketService.cs:29-36 | a new row is WAITING with no counter, no call, no serving or completion time and no recall, and is well formed when its sequence is positive |
| Tickets.Called | QueueServer.Core/Services/TicketService.cs:70-72 | CALLING at the counter, called now; identity, recall count, serving start and completion time kept; WAITING to CALLING is a lifecycle edge and keeps the ticket well formed |
| Tickets.Recalled | QueueServer.Core/Services/TicketService.cs:82-90 | from CALLING or NO_SHOW: CALLING, called now, one more recall, same counter; from any other status: the ticket unchanged; serving start and completion time always kept; keeps well-formedness |
| Tickets.ServingStarted | QueueServer.Core/Services/TicketService.cs:97-104 | changes the ticket exactly when it is CALLING, to SERVING with serving start now; call time, recall count, completion time, identity and counter kept; keeps well-formedness |
| Tickets.Completed | QueueServer.Core/Services/TicketService.cs:111-118 | changes the ticket exactly when it is SERVING, to DONE with completion time now; call time, recall count, serving start, identity and counter kept; keeps well-formedness |
| Tickets.Skipped | QueueServer.Core/Services/TicketService.cs:125-131 | changes the ticket exactly when it is CALLING, to NO_SHOW; call time, recall count, serving start, completion time, identity and counter kept; keeps well-formedness |
| Tickets.TerminalStatuses | QueueServer.Core/Services/TicketService.cs:82-131 | no operation changes a DONE or CANCELED ticket, and no lifecycle edge leaves those statuses |
| Tickets.UpdateKeepsIdentities | QueueServer.Core/Services/TicketService.cs:70-73 | writing back a changed ticket with the same identity keeps every ticket's id, number, sequence, day and creation time |
| Tickets.AppendKeepsIdentities | QueueServer.Core/Services/TicketService.cs:37-38 | adding a row keeps the identities of all existing rows |
| Tickets.IdLocates | QueueServer.Core/Services/TicketService.cs:80 | a stored ticket sits at the position its id names, which is how FindAsync finds it |
| Tickets.DayAscending | QueueServer.Core/Services/TicketService.cs:150-155 | the tickets of one day, taken in store order, ascend by sequence |
| Tickets.UpdatePreserves | QueueServer.Core/Services/TicketService.cs:70-73 | replacing a ticket by a well-formed successor with the same identity keeps the store invariant, gaplessness included |
| Tickets.AppendPreserves | QueueServer.Core/Services/TicketService.cs:29-38 | appending a well-formed ticket with the next id and the day's next sequence keeps the store invariant, gaplessness included |
| Tickets.AppendRows | QueueServer.Core/Services/TicketService.cs:37-38 | after an append every id is still its position and every row is well formed |
| Tickets.ContiguousPrefix | QueueServer.Core/Services/TicketService.cs:26-28 | every prefix of a gapless store is gapless |
| Tickets.ContiguousAt | QueueServer.Core/Services/TicketService.cs:26-28 | in a gapless store, the ticket at each position has as sequence the number of tickets of its day up to and including it |
| Tickets.MaxIsCount | QueueServer.Core/Services/TicketService.cs:27 | in a gapless store, the day's largest sequence (0 for none) is the day's ticket count |
| Tickets.NextSequenceIsCount | QueueServer.Core/Services/TicketService.cs:26-28 | in a gapless store, the allocator gives one more than the number of tickets the day already has |
| Tickets.CountSameDates | QueueServer.Core/Services/TicketService.cs:26-28 | stores with the same days position by position count the same tickets per day |
| Tickets.UpdateContiguous | QueueServer.Core/Services/TicketService.cs:70-73 | replacing a ticket by one with the same day and sequence keeps the store gapless |
| Tickets.AppendContiguous | QueueServer.Core/Services/TicketService.cs:26-38 | appending a ticket with the day's next sequence keeps the store gapless |
| Tickets.ShapesKept | QueueServer.Core/Services/TicketService.cs:70-73 | numbers keep ending with their sequences across any change that keeps identities and appends only such numbers |
| Tickets.AppendShaped | QueueServer.Core/Services/TicketService.cs:34-38 | appending a number that ends with its sequence keeps every number so |
| Tickets.UpdateStep | QueueServer.Core/Services/TicketService.cs:70-73 | one row rewritten with the same identity keeps the invariant, every identity and the number shapes |
| Tickets.AppendStep | QueueServer.Core/Services/TicketService.cs:29-38 | one row appended with the next id and the day's next sequence keeps the invariant, every identity and the number shapes |
| Tickets.AppendAscending | QueueServer.Core/Services/TicketService.cs:26-38 | a row with the day's next sequence keeps same-day tickets ascending |
| Tickets.TicketService.constructor | QueueServer.Core/Services/TicketService.cs:14-19 | the service opens over the rows already stored, unchanged, provided they keep the invariant |
| Tickets.TicketService.Find | QueueServer.Core/Services/TicketService.cs:80-81 | the ticket with that id, or null exactly when no stored ticket has it |
| Tickets.TicketService.CreateTicket | QueueServer.Core/Services/TicketService.cs:23-41 | exactly one WAITING ticket is appended, dated today, with the next id, the day's next sequence and the number `prefix-n`, where the prefix is the Prefix setting or "A"; the invariant and the number shapes hold and no existing identity changes |
| Tickets.TicketService.WaitingList | QueueServer.Core/Services/TicketService.cs:48-50 | exactly today's WAITING tickets, ascending by sequence |
| Tickets.TicketService.FirstWaiting | QueueServer.Core/Services/TicketService.cs:48-51 | null exactly when nothing is waiting today; otherwise today's WAITING ticket with the smallest sequence, at the position its id names |
| Tickets.HeadOfWaiting | QueueServer.Core/Services/TicketService.cs:50-51 | the first of a day's WAITING tickets in sequence order has the smallest waiting sequence and sits where its id names |
| Tickets.TicketService.CallNext | QueueServer.Core/Services/TicketService.cs:43-76 | the lowest waiting ticket of today becomes CALLING at the counter, called now, and only its row changes; with none waiting, one ticket numbered with the bare next sequence is appended and called; a ticket is always returned; the invariant and the number shapes hold |
| Tickets.TicketService.Replace | QueueServer.Core/Services/TicketService.cs:87 | SaveChangesAsync for one tracked ticket: that row becomes the new value, and the invariant and the number shapes hold |
| Tickets.TicketService.Recall | QueueServer.Core/Services/TicketService.cs:78-91 | null and no change for an unknown id; otherwise the row becomes the recalled ticket and is returned |
| Tickets.TicketService.StartServing | QueueServer.Core/Services/TicketService.cs:93-105 | null and no change for an unknown id; otherwise the row becomes the started ticket and is returned |
| Tickets.TicketService.Complete | QueueServer.Core/Services/TicketService.cs:107-119 | null and no change for an unknown id; otherwise the row becomes the completed ticket and is returned |
| Tickets.TicketService.Skip | QueueServer.Core/Services/TicketService.cs:121-132 | null and no change for an unknown id; otherwise the row becomes the skipped ticket and is returned |
| Tickets.TicketService.GetWaiting | QueueServer.Core/Services/TicketService.cs:134-139 | today's WAITING tickets ascending by sequence: none for take 0, at most `take` for a positive take, all of them for a negative take (SQLite LIMIT); any waiting ticket left out has a larger sequence than all returned, and is left out only when `take` were returned |
| Tickets.TicketService.GetActiveCalling | QueueServer.Core/Services/TicketService.cs:141-148 | null exactly when no ticket of today is CALLING or SERVING at that counter; otherwise such a ticket whose call time no other one exceeds, with a missing call time lowest |
| Tickets.TicketService.GetTodayTickets | QueueServer.Core/Services/TicketService.cs:150-155 | exactly today's tickets, ascending by sequence |
| Tickets.TicketService.UpdatePrefix | QueueServer.Core/Services/TicketService.cs:157-161 | the Prefix setting now holds the new prefix and nothing else changes |
| Tickets.TodayListingIsOrdered | QueueServer.Core/Services/TicketService.cs:153-154 | any listing of today's tickets that ascends by sequence is the list GetTodayTickets returns |
| Shared.TicketStatus.Ordinal | Shared/Enums/TicketStatus.cs:6-14 | every member's underlying value is below six, the member count |
| Shared.StatusFromName | Shared/Enums/TicketStatus.cs:6-14 | decoding a name gives a status whose name it is |
| Shared.StatusNameRoundTrip | Shared/Enums/TicketStatus.cs:6-14 | every status's name decodes to that status |
| Settings.AddMissing | QueueServer.Core/Services/SettingsService.cs:26-30 | keeps every stored key and value, adds every entry's key, and adds nothing but entries |
| Settings.AddMissingIdempotent | QueueServer.Core/Services/SettingsService.cs:26-31 | adding missing entries twice is adding them once |
| Settings.AddMissingGrows | QueueServer.Core/Services/SettingsService.cs:28 | entries whose keys are already present change nothing |
| Settings.AddMissingValue | QueueServer.Core/Services/SettingsService.cs:29 | with distinct keys, a missing key gets its own entry's value |
| Settings.WithDefaultsIdempotent | QueueServer.Core/Services/SettingsService.cs:24-32 | running EnsureDefaults a second time leaves the store unchanged |
| Settings.WithDefaultsKeepsValues | QueueServer.Core/Services/SettingsService.cs:28 | EnsureDefaults never overwrites a stored value |
| Settings.WithDefaultsAddsMissing | QueueServer.Core/Services/SettingsService.cs:10-20 | each missing default key gets its default value |
| Settings.DefaultKeysListed | QueueServer.Core/Services/SettingsService.cs:10-20 | the eight default keys are exactly the keys of the default list |
| Settings.WithDefaultsKeys | QueueServer.Core/Services/SettingsService.cs:10-20 | afterwards all eight default keys are present, and every new key is one of them |
| Settings.SettingsService.constructor | QueueServer.Core/Services/SettingsService.cs:22 | the service starts over the given table |
| Settings.SettingsService.EnsureDefaults | QueueServer.Core/Services/SettingsService.cs:24-32 | the loop leaves the store equal to the store with defaults added where missing |
| Settings.SettingsService.GetValue | QueueServer.Core/Services/SettingsService.cs:34-38 | null exactly for an absent key, the stored value otherwise |
| Settings.SettingsService.SetValue | QueueServer.Core/Services/SettingsService.cs:40-49 | upsert: afterwards the key reads the new value and every other key reads as before |
| Settings.SettingsService.GetAll | QueueServer.Core/Services/SettingsService.cs:51-52 | exactly the stored keys, each with the value GetValue reads |
| Api.EventsNameAppend | QueueServer.Api/Utils/HubBroadcaster.cs:15-25 | appending a broadcast that names a stored ticket keeps the log consistent with the store |
| Api.EventsNameKept | QueueServer.Core/Services/TicketService.cs:70-73 | the log stays consistent when tickets change status or rows are added, since ids and numbers are never reassigned |
| Api.ApplyUpdates | QueueServer.Api/Program.cs:110-114 | after the loop the store is the old store overridden by every pair of the request |
| Api.PropertyName | QueueServer.Api/Program.cs:21 | as declared keeps the name; camel case lower-cases the first letter, keeps the rest, and so changes every name that starts with a capital |
| Api.CalledBody | QueueServer.Api/Program.cs:60 | the object has exactly the properties Id, TicketNumber, CounterNumber and, on a recall, Recall, named by the policy, holding the event's values, a missing counter as JSON null |
| Api.QueueApi.constructor | QueueServer.Api/Program.cs:36-44 | start-up: the settings store holds the defaults where missing, the stored ticket rows are kept as they are, and the event log is empty |
| Api.QueueApi.PostTicket | QueueServer.Api/Program.cs:49-54 | one ticket created as CreateTicket states and exactly one TicketCreated event with its id and number |
| Api.QueueApi.PostNext | QueueServer.Api/Program.cs:56-62 | always 200 with the called ticket; only the lowest waiting ticket's row changes, or, with none waiting, one called ticket with the bare next number is appended; exactly one TicketCalled event with its id, number and counter |
| Api.QueueApi.PostRecall | QueueServer.Api/Program.cs:64-70 | 404 and no event exactly for an unknown id; otherwise only that row becomes the recalled ticket, which is returned with one TicketCalled event marked as a recall, even when the status made the recall a no-op |
| Api.QueueApi.PostServeStart | QueueServer.Api/Program.cs:72-78 | 404 and no event exactly for an unknown id; otherwise only that row becomes the started ticket, which is returned with one TicketUpdated event with id and status |
| Api.QueueApi.PostComplete | QueueServer.Api/Program.cs:80-86 | 404 and no event exactly for an unknown id; otherwise only that row becomes the completed ticket, which is returned with one TicketUpdated event with id and status |
| Api.QueueApi.PostSkip | QueueServer.Api/Program.cs:88-94 | 404 and no event exactly for an unknown id; otherwise only that row becomes the skipped ticket, which is returned with one TicketUpdated event with id and status |
| Api.QueueApi.GetToday | QueueServer.Api/Program.cs:96-100 | 200 with exactly today's tickets, ascending by sequence |
| Api.QueueApi.GetSettings | QueueServer.Api/Program.cs:102-106 | 200 with exactly the stored settings |
| Api.QueueApi.PutSettings | QueueServer.Api/Program.cs:108-117 | every pair upserted, tickets untouched, and exactly one SettingsChanged event carrying the whole request |
| Common.TryParseInt | DisplayApp.Wpf/MainWindow.xaml.cs:224 | a success is a non-empty digit string whose value is within int range, and that value is returned |
| Common.ParseNatToString | DisplayApp.Wpf/MainWindow.xaml.cs:213-215 | parsing a number's decimal text gives the number back |
| Common.TryParseIntToString | DisplayApp.Wpf/MainWindow.xaml.cs:213-215 | int.TryParse of n.ToString() is n for every non-negative int |
| Common.IntToStringInjective | QueueServer.Core/Services/TicketService.cs:34 | different numbers have different decimal texts |
| Common.DigitsOf | DisplayApp.Wpf/MainWindow.xaml.cs:229 | only digits, no longer than the input, non-empty exactly when the input has a digit, and the whole input when it is all digits |
| Common.DigitsOfConcat | DisplayApp.Wpf/MainWindow.xaml.cs:229 | the digits of a concatenation are the digits of each part in order; a single character gives itself when it is a digit and nothing otherwise |
| Common.SplitTicketNumber | DisplayApp.Wpf/MainWindow.xaml.cs:223 | at least one part; no part holds a separator; every character of a part comes from the input |
| Common.SplitAfterPiece | DisplayApp.Wpf/MainWindow.xaml.cs:223 | a separator-free piece, a separator and the rest split into the piece followed by the rest's parts |
| Common.SplitWithoutSeparator | DisplayApp.Wpf/MainWindow.xaml.cs:223 | a string with no separator is one part |
| Common.Filter | QueueServer.Core/Services/TicketService.cs:137 | Where: no longer than the input, and holding exactly the input's members that satisfy the predicate |
| Common.Take | QueueServer.Core/Services/TicketService.cs:138 | Take: a prefix of length min(n, length), empty for n at most 0 |
| Common.TakeAscending | QueueServer.Core/Services/TicketService.cs:138 | Take of an ascending list ascends, and anything it drops sorts above everything it keeps |
| Common.AscendingTail | QueueServer.Core/Services/TicketService.cs:50-51 | the head of an ascending list is its smallest member |
| Common.AscendingUnique | QueueServer.Core/Services/TicketService.cs:154 | two ascending lists with the same members are equal |
| Common.FilterAscending | QueueServer.Core/Services/TicketService.cs:137 | filtering keeps a list ascending |
| Common.FilterMapSeq | TellerApp.Wpf/MainWindow.xaml.cs:60-63 | filtering after converting each element equals converting after filtering with the matching predicate |
| Common.FirstIndex | TellerApp.Wpf/MainWindow.xaml.cs:67-68 | FirstOrDefault: the first index whose element satisfies the predicate, or none exactly when no element does |
| Common.FirstMaxIndex | DisplayApp.Wpf/MainWindow.xaml.cs:109-110 | a stable descending sort's first element: the first index whose key is the greatest |
| Common.LatestBy | QueueServer.Core/Services/TicketService.cs:147 | OrderByDescending then FirstOrDefault: a member with the greatest key, or none exactly for an empty list |
| Display.NormalizeStatus | DisplayApp.Wpf/MainWindow.xaml.cs:128-137 | a status name stays as it is; a changed text was the decimal underlying number of the status whose name it becomes |
| Display.NormalizeStatusIdempotent | DisplayApp.Wpf/MainWindow.xaml.cs:124-139 | normalising twice is normalising once |
| Display.NormalizeStatusOrdinal | DisplayApp.Wpf/MainWindow.xaml.cs:130-135 | each status sent as its underlying number comes out as its name |
| Display.NormalizeStatuses | DisplayApp.Wpf/MainWindow.xaml.cs:124-139 | every element's status is normalised in place and nothing else changes |
| Display.TryExtractSequence | DisplayApp.Wpf/MainWindow.xaml.cs:220-236 | the second part's value when there is one and it parses; otherwise the value of all the digits taken together when they parse; otherwise failure with 0; a success lies within int range and the number holds a digit |
| Display.ExtractPrefixedNumber | DisplayApp.Wpf/MainWindow.xaml.cs:223-228 | `prefix-n` with a separator-free prefix splits into the prefix and n and gives n back |
| Display.ExtractBareNumber | DisplayApp.Wpf/MainWindow.xaml.cs:229-234 | the bare n is one part and gives n back through the digit fallback |
| Display.StrictParserAgrees | DisplayApp.Wpf/NumberToBahasa.cs:7-14 | whenever the strict parser succeeds, extraction returns the same value |
| Display.StrictParserRejectsBareNumber | DisplayApp.Wpf/NumberToBahasa.cs:10-13 | the strict parser rejects every bare number that extraction reads |
| Display.DisplayedNumber | DisplayApp.Wpf/MainWindow.xaml.cs:213-215 | when extraction succeeds, a non-empty digit text that parses back to the extracted sequence; the raw number otherwise |
| Display.DisplayedNumberIsSequence | DisplayApp.Wpf/MainWindow.xaml.cs:213-215 | both server number formats show as the bare sequence |
| Display.VerbalPrefixed | DisplayApp.Wpf/MainWindow.xaml.cs:317-322 | `A-12` is spoken as `A 12` |
| Display.VerbalBare | DisplayApp.Wpf/MainWindow.xaml.cs:317-322 | the bare `12` is spoken as `12 12` |
| Display.RecentAfter | DisplayApp.Wpf/MainWindow.xaml.cs:199-209 | the text heads the list; unchanged when it already did; otherwise followed by the previous entries cut to three in all; no line repeated twice in a row |
| Display.RecentAfterIdempotent | DisplayApp.Wpf/MainWindow.xaml.cs:203-204 | announcing the same line twice in a row adds it once |
| Display.LatestCalling | DisplayApp.Wpf/MainWindow.xaml.cs:107-110 | none exactly when nothing is CALLING; otherwise a CALLING ticket whose call time no other exceeds, with a missing call time lowest |
| Display.AcceptCalled | DisplayApp.Wpf/MainWindow.xaml.cs:152-170 | a payload passes exactly when it has a string property named exactly "TicketNumber" that is not blank and "CounterNumber" is missing or a number; it passes with that number and that counter, or 0 when the counter is missing |
| Display.DisplayWindow.constructor | DisplayApp.Wpf/MainWindow.xaml.cs:28 | an empty recent list, which keeps the list invariant |
| Display.DisplayWindow.SetActive | DisplayApp.Wpf/MainWindow.xaml.cs:211-218 | the panel shows the displayed number and "Ke Loket n"; the recent list is untouched |
| Display.DisplayWindow.AddRecentCall | DisplayApp.Wpf/MainWindow.xaml.cs:199-209 | the insert-and-trim loop leaves the list as RecentAfter states |
| Display.DisplayWindow.OnTicketCalled | DisplayApp.Wpf/MainWindow.xaml.cs:185-197 | panel set, line recorded, at most three lines kept, and the sentence "Nomor antrian …, silakan ke loket n." returned |
| Display.DisplayWindow.HandleTicketCalled | DisplayApp.Wpf/MainWindow.xaml.cs:148-176 | a dropped payload changes nothing; an accepted one sets the panel to its number and counter, records the line and returns the sentence |
| Display.DisplayWindow.LoadInitialActive | DisplayApp.Wpf/MainWindow.xaml.cs:100-122 | the list is normalised; with no CALLING ticket nothing is shown; otherwise the latest call is shown and recorded |
| NumberToBahasa.TryParseSequenceFromTicketNumber | DisplayApp.Wpf/NumberToBahasa.cs:7-14 | true exactly when there is more than one part and the second parses; that value on success, 0 on failure |
| NumberToBahasa.ToWords | DisplayApp.Wpf/NumberToBahasa.cs:16-23 | 0 to 10 give their word, any other number its decimal text |
| NumberToBahasa.LoketToWords | DisplayApp.Wpf/NumberToBahasa.cs:25-29 | a counter is spoken as ToWords speaks it |
| NumberToBahasa.FromWords | DisplayApp.Wpf/NumberToBahasa.cs:16-23 | the inverse reading: whatever it returns, ToWords writes the text it read |
| NumberToBahasa.FromToWords | DisplayApp.Wpf/NumberToBahasa.cs:16-23 | every non-negative int is read back from its words |
| NumberToBahasa.ToWordsInjective | DisplayApp.Wpf/NumberToBahasa.cs:19-22 | different numbers are spoken differently |
| NumberToBahasa.NotAWord | DisplayApp.Wpf/NumberToBahasa.cs:19-22 | a decimal text is never one of the words |
| NumberToBahasa.WordsDistinct | DisplayApp.Wpf/NumberToBahasa.cs:19 | the eleven words are pairwise different |
| NumberToBahasa.DigitsCanonical | DisplayApp.Wpf/NumberToBahasa.cs:22 | a digit string of value 10 or more is that value's text unless it has a leading zero |
| NumberToBahasa.CanonicalDigits | DisplayApp.Wpf/NumberToBahasa.cs:22 | two digit strings with the same value and no leading zero are equal |
| NumberToBahasa.LeadingDigitPositive | DisplayApp.Wpf/NumberToBahasa.cs:22 | a digit string with a non-zero first digit has a positive value |
| Teller.GetSelectedCounter | TellerApp.Wpf/MainWindow.xaml.cs:79-85 | the selected item's number when it parses, otherwise 1 |
| Teller.SelectedCounterRoundTrip | TellerApp.Wpf/MainWindow.xaml.cs:79-85 | an item labelled with a counter's number selects that counter |
| Teller.WaitingTop | TellerApp.Wpf/MainWindow.xaml.cs:63 | at most five tickets, all WAITING, the first ones of the waiting tickets in list order; five whenever at least five wait |
| Teller.ActiveFor | TellerApp.Wpf/MainWindow.xaml.cs:66-68 | none exactly when no ticket is CALLING or SERVING at the counter; otherwise the first such ticket in list order |
| Teller.RefreshView | TellerApp.Wpf/MainWindow.xaml.cs:56-77 | the waiting top five, and the active ticket's number and status, or "-" and "" |
| Teller.SingleKeyPayload | TellerApp.Wpf/MainWindow.xaml.cs:188-212 | a body with the single key (Prefix or RunningText) holding the text |
| Teller.SinglePayloadUpsert | TellerApp.Wpf/MainWindow.xaml.cs:188-212 | saving one key sets that key and leaves every other key as it was |
| TellerSettings.Lookup | TellerApp.Wpf/SettingsWindow.xaml.cs:23-25 | TryGetValue: null exactly for a missing key |
| TellerSettings.LoadForm | TellerApp.Wpf/SettingsWindow.xaml.cs:22-29 | a missing text is shown as ""; the check box is ticked exactly when ShowVideo is "true" in any case |
| TellerSettings.BoolText | TellerApp.Wpf/SettingsWindow.xaml.cs:57 | the lower-case words "true" and "false" |
| TellerSettings.SavePayload | TellerApp.Wpf/SettingsWindow.xaml.cs:53-58 | exactly the keys RunningText, VideoPath and ShowVideo, a null text sent as "" |
| TellerSettings.ShowVideoRoundTrip | TellerApp.Wpf/SettingsWindow.xaml.cs:29-57 | the check box reads back as it was saved |
| TellerSettings.SaveLoadRoundTrip | TellerApp.Wpf/SettingsWindow.xaml.cs:22-58 | saving and reloading the dialog gives the form back, whatever else the store holds |
| TellerSettings.SaveResult | TellerApp.Wpf/SettingsWindow.xaml.cs:60-68 | DialogResult is true and the window closes exactly when the PUT succeeds |
| EndToEnd.TellerWaitingMatchesServer | TellerApp.Wpf/MainWindow.xaml.cs:60-63 | the teller's top five, taken from today's list, are exactly the server's GetWaiting(5) |
| EndToEnd.StoredNumberNotBlank | DisplayApp.Wpf/MainWindow.xaml.cs:167 | a stored ticket's number is never blank |
| EndToEnd.DisplayDropsEveryLiveCall | DisplayApp.Wpf/MainWindow.xaml.cs:157-158 | with the hub's camel-case names, no TicketCalled payload has a "TicketNumber" property, so the display drops every one |
| EndToEnd.DisplayAcceptsCall | DisplayApp.Wpf/MainWindow.xaml.cs:157-158 | with the payload properties named as declared, the display accepts every call broadcast of a called ticket and shows its number at its counter |
| EndToEnd.DisplayDropsRecallOfWaiting | QueueServer.Api/Program.cs:64-70 | recalling a WAITING ticket changes nothing and broadcasts a null counter, which the display drops under either naming |
| EndToEnd.DisplayInitialActiveIsLatestCall | DisplayApp.Wpf/MainWindow.xaml.cs:104-110 | the display's initial ticket is one of today's CALLING tickets with the latest call time, and none exactly when none is CALLING |
| EndToEnd.LatestCallingOfList | DisplayApp.Wpf/MainWindow.xaml.cs:105-110 | over any decoded ticket list: none exactly when nothing is CALLING, otherwise the DTO of a CALLING ticket with the latest call time |

## Left out

- Persistence: Entity Framework, SQLite, migrations and SaveChangesAsync are left out. The tables are a sequence and a map held in memory. Ids are positions because rows are never deleted.
- Concurrency: CreateTicketAsync reads the day's maximum and then inserts. Two requests at once could get the same sequence. The model is sequential and claims uniqueness only for sequential calls.
- Aliasing: the EF-tracked `Ticket` object is a value here. A changed ticket is written back to its row, so sharing the object between callers is not modelled.
- Transport: SignalR, HubBroadcaster's SendAsync and the HTTP clients are left out.
  - A broadcast is an entry in an event log.
  - The teller and the display receive an already-decoded ticket list.
  - A TicketCalled payload is a JSON object, with the property names the hub writes.
- Display payloads: only the JsonElement branch of the TicketCalled handler is modelled. The `dynamic` branch and payloads that are not JSON objects are left out.
- Display.AcceptCalled: reads any JSON number as the counter. GetInt32 would throw on a number outside int range, but the hub only writes C# ints.
- Api.PropertyName: models the .NET camel-case policy only for names whose second letter is lower case, which covers every payload name here.
- Clocks: DateTime.Now, UtcNow and DateOnly.FromDateTime become the `today` and `now` parameters.
- Logging is left out.
- Audio and UI are left out:
  - the chime and the speech synthesiser (only the sentence is kept);
  - the clock, marquee and flash animation;
  - the logo, video and file checks;
  - MessageBox and the Escape key.
- Settings loading in the clients is left out: the display's LoadSettings, the teller's LoadSettingsAsync and the SettingsChanged handlers.
- Teller buttons: the call, recall, serve, complete and skip handlers only post to the endpoints modelled in `Api`, so they are not modelled separately.
- Dependency injection and host start-up are left out. Only EnsureDefaults at start-up is modelled.
- `Ticket.Notes` is not modelled: no operation reads or writes it.
- Parsing: int.TryParse is modelled on ASCII decimal digits within int range. Signs, surrounding whitespace, culture and Unicode digits are left out.
- Tickets.TicketService.constructor: requires that the rows found in the database keep the store invariant, which every operation keeps from an empty database. Rows written some other way are outside what the model promises.
- Tickets.TicketService.constructor: does not assume that stored numbers end with their sequences (`Tickets.NumbersShaped`). Numbers with leading zeros from an older format, such as "A-023", do not. Operations keep the property when it holds, and only `Tickets.NumbersUniquePerDay` and `EndToEnd.DisplayAcceptsCall` rely on it.
- Api.QueueApi.constructor: places the same requirement on the stored rows.
- Tickets.TicketService.CreateTicket: does not model the 32-bit overflow of the sequence after int.MaxValue tickets in a day.
- Tickets.TicketService.Recall: does not model the 32-bit overflow of LastRecallCount.
- Tickets.TicketService.GetActiveCalling: does not say which of several tickets with the same latest call time comes first. SQL ORDER BY DESC leaves that order to the database. The model returns the first in store order.
- Display.LatestCalling: does not state which of several CALLING tickets with the same call time is taken. The model keeps the stable sort's first, but the contract states only that the call time is maximal.
- Api.QueueApi.PostNext: has no 404 branch. CallNext always returns a ticket, so the NotFound branch of the handler can never run.
- Tickets.TicketService.CallNext: the prefix it reads on the auto-create path is never used, so the read is not modelled.

### Where the code and the design description differ (the model follows the code)

- **Call-next with nothing waiting.** The design describes a "nothing to call" outcome. The code instead creates a ticket with a bare number and calls it.
- **Transitions that do not apply.** The design says only a successful call or recall is broadcast. The endpoints broadcast after every known id, even when the status guard left the ticket unchanged.
- **The recall flag.** The design gives every call event an isRecall field. Only the recall endpoint sends `Recall`; call-next's payload has no such field.
- **CANCELED.** The design says WAITING can move to CANCELED. No code path does, so CANCELED occurs only as a terminal status.
- **Ticket numbers.** The ticket class documents numbers like "A-023". The code writes the sequence without leading zeros.

## Findings

| source | as written | input that shows it | evidently intended | confidence | as-written member | corrected member |
|---|---|---|---|---|---|---|
| QueueServer.Api/Program.cs:21 | AddSignalR() keeps the default JSON protocol, which camel-cases property names, so TicketCalled goes out as ticketNumber and counterNumber; the display looks up "TicketNumber" and "CounterNumber" with the case-sensitive TryGetProperty (DisplayApp.Wpf/MainWindow.xaml.cs:157-158) | any call: POST /api/queue/next/1 sends an object with ticketNumber, and the display finds no TicketNumber, reads null and drops the event | the display announces every call, which needs the names kept as declared (or a case-insensitive lookup) | not executed | EndToEnd.DisplayDropsEveryLiveCall | EndToEnd.DisplayAcceptsCall |
