# Tournament e-mail eligibility and de-duplication, in Dafny

This project models the core of a tournament e-mail service. The service decides which
tournaments get which e-mails, who receives them, and how it avoids sending the same e-mail
twice on the same day. The core has four parts, each with its own Dafny module:

- **The sent-email ledger** (`EmailTracking`). This is the list `sentEmails` from the tracking
  file. Every entry carries a key `${tournamentId}-${emailType}-${YYYY-MM-DD}`.
  - `Ledger` is a class whose field `sentEmails` is the list. The methods `HasEmailBeenSent`,
    `MarkEmailAsSent`, `CleanupOldEntries`, `GetAllSentEmails` and `ClearAllTracking` update or
    read it.
  - Each method is proved against a function on the whole store: `Sent`, `Mark` or `Cleanup`.
  - Lemmas about those functions cover the following: the key names the UTC day, marking is
    idempotent and keeps one entry per key, and cleanup is an order-preserving filter.
  - "Today" is an explicit `now`. The key's date is the UTC calendar day of `now`, as
    `toISOString()` writes it (`Calendar.IsoDate`, proved to determine the day exactly).
  - The store also counts file saves, so the "save only when something changed" behaviour is
    part of every contract.
- **Tournament eligibility filters** (`Tournaments`, `Reminders.FilterStartingIn8Hours`). These
  are the `upcoming` and `startingToday` filters and the ±30-minute window around "eight hours
  from now".
  - Each reads the start time from the text before the first comma of `full_name`.
  - Date parsing is a parameter `parse: string -> Option<int>`, where `None` stands for an
    Invalid Date. The local calendar day used by `isToday` is a parameter `localDay`.
- **The reminder run** (`Reminders`). This is `sendTournamentReminders` and its per-tournament
  loop. The loop does the following in order:
  - checks the ledger;
  - fetches the participants;
  - assigns languages in place, on an array;
  - keeps only `@mailinator.com` addresses;
  - attempts one send per recipient, tolerating failures;
  - records the tournament;
  - keeps the three counters.

  Each imperative method is proved equal to a specification function (`RemindOne`,
  `RemindAll`, `RemindersRun`), and `ReminderProperties` proves what those functions promise.
- **The new-tournament alert run** (`NewTournaments`). This is `sendNewTournamentNotifications`:
  it builds the unique mailinator e-mail list and sends one consolidated alert per tournament
  not yet alerted today. The ledger is written only after an accepted send. `NotifyRun` and
  `NotifyAll` specify the methods, and `NewTournamentProperties` proves the accounting.

The outside world enters as inputs of a run:

- the fetched tournament list, with `None` when the fetch throws;
- the participant request, for each tournament id;
- the registrations list;
- the date parser;
- the e-mail transport. It is an oracle `sendOk: nat -> bool` that says whether the k-th
  `sendEmail` call of the run is accepted.

Every run returns a `RunResult`: the ledger afterwards, the outcome and the list of `sendEmail`
calls (recipient and tournament).

Two details of the code that the model keeps as they are:

- `upcoming` compares the registration dates and the start with `now` strictly, and reads no
  enable flag (`src/services/tournamentService.js:41`).
- Ledger keys carry the UTC date of `toISOString()`, so "already sent today" means the same UTC
  day (`src/services/emailTrackingService.js:36`).

## Model

| member | source | states |
|---|---|---|
| EmailTracking.Ledger.constructor | src/services/emailTrackingService.js:9-19 | with no tracking file the ledger starts with no entries and no saves |
| EmailTracking.EmailKeyNamesDay | src/services/emailTrackingService.js:35-38 | two keys for the same tournament and e-mail type are equal exactly when the two instants fall on the same UTC day |
| Calendar.IsoDateNamesDay | src/services/emailTrackingService.js:36 | the `YYYY-MM-DD` text of two instants is the same if and only if they lie on the same UTC day |
| Calendar.UtcDate | src/services/emailTrackingService.js:36 | a real calendar date: the month lies in 1..12, the day is at least 1 and at most the length of that month in that year, and the date is the instant's day counted from 1970-01-01 |
| EmailTracking.HasKey | src/services/emailTrackingService.js:47 | true if and only if some entry carries the key |
| EmailTracking.Ledger.HasEmailBeenSent | src/services/emailTrackingService.js:43-48 | true if and only if some stored entry's key is the one built from the tournament id, the type and today's UTC date |
| EmailTracking.Ledger.MarkEmailAsSent | src/services/emailTrackingService.js:53-71 | the new state is `Mark` of the old; afterwards the e-mail counts as sent today; at most one entry per key is kept |
| EmailTracking.MarkRecords | src/services/emailTrackingService.js:53-71 | after marking, the e-mail counts as sent at every instant of the same day; earlier entries are an unchanged prefix; one entry is appended exactly when the key was absent, else nothing changes; the file is saved exactly when an entry was appended |
| EmailTracking.MarkOnlyTouchesItsKey | src/services/emailTrackingService.js:57-66 | marking does not change whether any other key is present |
| EmailTracking.MarkIdempotent | src/services/emailTrackingService.js:57-70 | a second mark on the same day, with any details, leaves the entries and the save count as the first one left them |
| EmailTracking.MarkTwiceOneRecord | src/services/emailTrackingService.js:57-59 | two same-day marks of one tournament and type leave exactly one entry with that key |
| EmailTracking.MarkPreservesUniqueKeys | src/services/emailTrackingService.js:57-66 | marking keeps every key on at most one entry |
| EmailTracking.MarkForgottenNextDay | src/services/emailTrackingService.js:35-48 | a mark made on one day does not change whether the tournament counts as sent on any other day, so it becomes eligible again the next day |
| EmailTracking.Ledger.CleanupOldEntries | src/services/emailTrackingService.js:76-92 | the new state is `Cleanup` of the old; key uniqueness is preserved |
| EmailTracking.CleanupKeepsRecent | src/services/emailTrackingService.js:76-91 | the kept entries are an order-preserving subsequence holding exactly those whose `sentAt` is later than now minus seven days; the file is saved once exactly when something was removed |
| EmailTracking.CleanupIdempotent | src/services/emailTrackingService.js:82-89 | a second cleanup at the same instant removes nothing and does not save |
| EmailTracking.CleanupPreservesUniqueKeys | src/services/emailTrackingService.js:82-85 | cleanup keeps every key on at most one entry |
| EmailTracking.CleanupKeepsToday | src/services/emailTrackingService.js:82-85 | an entry written today survives a cleanup run today |
| EmailTracking.Ledger.GetAllSentEmails | src/services/emailTrackingService.js:97-99 | returns the stored entries |
| EmailTracking.Ledger.ClearAllTracking | src/services/emailTrackingService.js:104-107 | the list becomes empty with one save, and no tournament counts as sent for any type on any day |
| JsValues.FirstSegment | src/services/tournamentService.js:30 | the text before the first comma: a comma-free prefix that is the whole string or is followed by a comma |
| Tournaments.FilterTournaments | src/services/tournamentService.js:22-59 | a tournament is `upcoming` if and only if all three dates parse and registration-open < now < registration-close and now < start, all strictly; it is `startingToday` if and only if its start parses, falls on today's local day and now < start < now + 8 h |
| Tournaments.NoStartExcluded | src/services/tournamentService.js:27-52 | a tournament whose `full_name` is missing, not a string, empty before its first comma or not a valid date is in neither list |
| Tournaments.FilterTournamentsInOrder | src/services/tournamentService.js:26-56 | both lists are order-preserving subsequences of the input that select exactly the positions satisfying their predicate |
| Tournaments.FetchParticipants | src/services/tournamentService.js:61-78 | a falsy id fails with an invalid-argument error; otherwise the result is the request's list, or the upstream-unavailable error when there is none |
| Tournaments.EmptyIdMakesNoRequest | src/services/tournamentService.js:62-64 | with a falsy id the outcome does not depend on the request at all |
| Reminders.FilterStartingIn8Hours | src/services/reminderService.js:159-211 | a tournament passes if and only if `full_name` is a non-empty string whose first segment parses to a start within 30 minutes of now + 8 h, bounds included; an unparseable start is excluded |
| Reminders.FilterStartingIn8HoursInOrder | src/services/reminderService.js:164-210 | the result is an order-preserving subsequence of the input that selects exactly the positions inside the window, so its length is the number of such positions |
| Reminders.LanguageForCases | src/services/reminderService.js:70-86 | Arabic exactly for a two-letter "ar" in any letter case; a throw exactly for a truthy non-string identifier; English otherwise, including a missing one |
| Reminders.WithLanguages | src/services/reminderService.js:70-86 | defined if and only if no identifier throws; then each participant is unchanged except for its mapped language |
| Reminders.AssignLanguages | src/services/reminderService.js:70-86 | on the array in place: succeeds if and only if `WithLanguages` is defined, leaving exactly its records |
| JsValues.Lower | src/services/reminderService.js:90 | same length, and each character lower-cased |
| Reminders.MailinatorParticipants | src/services/reminderService.js:89-91 | throws if and only if some truthy e-mail is not a string; otherwise keeps exactly the participants whose lower-cased e-mail ends in `@mailinator.com` |
| Reminders.MailinatorParticipantsInOrder | src/services/reminderService.js:89-91 | when the filter does not throw, the recipients are an order-preserving subsequence of the participants that selects exactly the matching positions, so the number left out is the number of non-matching positions |
| Reminders.Attempts | src/services/reminderService.js:110-130 | with the subject helper bound, one call per recipient in order, to its address and about the tournament, counting the accepted ones; without it, no call and nothing counted |
| Reminders.SendReminderEmails | src/services/reminderService.js:110-130 | the loop's count and call log are those of `Attempts` |
| Reminders.RemindTournament | src/services/reminderService.js:39-145 | the ledger and counters after one tournament are those of `RemindOne` |
| Reminders.RemindParticipantsOf | src/services/reminderService.js:69-139 | the ledger and counters after the language pass and the rest are those of `RemindParticipants` |
| Reminders.RemindRecipientsOf | src/services/reminderService.js:88-139 | the ledger and counters after the filter and the sends are those of `RemindRecipients` |
| Reminders.DeliverTo | src/services/reminderService.js:109-139 | the ledger and counters after the sends and the record are those of `Deliver` |
| Reminders.SendTournamentReminders | src/services/reminderService.js:6-156 | the ledger, the outcome and the calls of a run are those of `RemindersRun` |
| ReminderProperties.RemindOneLedger | src/services/reminderService.js:56-137 | one tournament only appends to the ledger, at most one record, today's reminder for that tournament, and never both skips and records; key uniqueness is preserved |
| ReminderProperties.RemindRecipientsLedger | src/services/reminderService.js:88-137 | after the languages are assigned, the pass appends at most today's record for the tournament and never counts a skip |
| ReminderProperties.DeliverLedger | src/services/reminderService.js:132-137 | after the sends, whatever their outcome, exactly one record is appended when the tournament had none today and nothing changes otherwise; the record holds the recipient count and the accepted sends, and keys stay unique |
| ReminderProperties.RemindRecipientsCalls | src/services/reminderService.js:88-139 | new calls are about the tournament and go to mailinator addresses; a pass that sends records; `emailsSent` grows by the accepted calls only |
| ReminderProperties.DeliverCalls | src/services/reminderService.js:109-139 | one call per recipient, and a failed send does not stop later ones; `emailsSent` grows by the accepted calls and never by more than the recipient count; the tournament is recorded if it was not already |
| ReminderProperties.AttemptsReachMailinator | src/services/reminderService.js:111-121 | every attempt to mailinator recipients goes to a mailinator address about the tournament |
| ReminderProperties.RemindOneCalls | src/services/reminderService.js:39-145 | a tournament that gets calls was not yet reminded today and gains exactly one record; calls go to mailinator addresses about it; `emailsSent` counts the accepted ones |
| ReminderProperties.RecordedTournamentSkipped | src/services/reminderService.js:56-61 | a tournament already reminded today only raises `emailsSkipped`; the participant request and the transport are not consulted, and the ledger is unchanged |
| ReminderProperties.NoParticipantsNoRecord | src/services/reminderService.js:63-67 | a failed or empty participant fetch changes neither ledger nor counters |
| ReminderProperties.RemindRecipientsFiltered | src/services/reminderService.js:89-98 | `participantsFiltered` grows by exactly the participants the filter leaves out; with no mailinator recipient there is no send and no record; a throwing filter abandons the tournament |
| ReminderProperties.RemindAllLedger | src/services/reminderService.js:38-146 | over the loop the ledger only grows by today's records of tournaments in the list, and skips plus records never exceed the number of tournaments |
| ReminderProperties.RemindAllCounts | src/services/reminderService.js:38-146 | over the loop the call log only grows, and `emailsSent` is exactly the number of accepted calls, or zero calls and zero sent when the subject helper is missing |
| ReminderProperties.RemindAllCalls | src/services/reminderService.js:38-146 | every call of the loop goes to a mailinator address, about a tournament of the list that was not reminded before the loop and is recorded by it |
| ReminderProperties.RemindersRunLedger | src/services/reminderService.js:6-156 | a run cleans the ledger and then only appends today's records of due tournaments; skipped plus recorded is at most the number due; a run that throws or finds nothing due only cleans |
| ReminderProperties.RemindersRunCalls | src/services/reminderService.js:6-156 | every call of a run goes to a mailinator address about a due tournament, and the reported `emailsSent` is the number of accepted calls |
| ReminderProperties.RunSkipsRecorded | src/services/reminderService.js:56-61 | no call of a run is about a tournament the cleaned ledger already records for today |
| ReminderProperties.CalledMeansRecorded | src/services/reminderService.js:132-137 | every tournament a run sent about is recorded, and still counts as sent after a cleanup later the same day |
| ReminderProperties.SameDayRerunRepeatsNoReminder | src/services/reminderService.js:10-137 | a second run on the same day never calls about a tournament the first run called about |
| ReminderProperties.AsWrittenRemindsNobody | src/services/reminderService.js:115 | as written (subject helper not exported) a run makes no `sendEmail` call and reports zero sent |
| ReminderProperties.AsWrittenExample | src/services/reminderService.js:110-137 | as written, one due tournament with one mailinator participant completes with zero sent, no call, and still one ledger record |
| ReminderProperties.CorrectedExample | src/services/reminderService.js:110-139 | with the subject helper bound, the same input makes one call to the participant and reports one e-mail sent |
| NewTournaments.EmailsOf | src/services/newTournamentNotificationService.js:29 | the e-mail of every registration, in order |
| NewTournaments.MailinatorEmails | src/services/newTournamentNotificationService.js:27-31 | throws if and only if some truthy e-mail is not a string; otherwise holds exactly the string e-mails containing "mailinator" after lower-casing, without repeats |
| NewTournaments.MailinatorEmailsFirstOccurrences | src/services/newTournamentNotificationService.js:27-31 | the list is an order-preserving subsequence of the e-mails, selecting exactly the first occurrence of each matching string |
| NewTournaments.NotifyTournament | src/services/newTournamentNotificationService.js:45-90 | the ledger and counters after one tournament are those of `NotifyOne` |
| NewTournaments.SendNewTournamentNotifications | src/services/newTournamentNotificationService.js:6-101 | the ledger, the outcome and the calls of a run are those of `NotifyRun` |
| NewTournamentProperties.NotifyOneSkips | src/services/newTournamentNotificationService.js:47-51 | a tournament alerted today only raises `emailsSkipped`: no send and no record |
| NewTournamentProperties.NotifyOneSends | src/services/newTournamentNotificationService.js:73-85 | a tournament not alerted today gets exactly one call to the fixed no-reply address; only an accepted send records it and counts it |
| NewTournamentProperties.NotifyOneCalls | src/services/newTournamentNotificationService.js:46-90 | one tournament gives either one call to the no-reply address about it or one skip, and `emailsSent` counts accepted calls |
| NewTournamentProperties.NotifyOneLedger | src/services/newTournamentNotificationService.js:73-85 | the ledger grows by exactly as many records as e-mails counted sent, each today's alert for the tournament |
| NewTournamentProperties.NotifyAllCalls | src/services/newTournamentNotificationService.js:44-91 | over the loop calls plus skips equal the number of tournaments; every call goes to the no-reply address about a listed tournament; `emailsSent` is the number of accepted calls |
| NewTournamentProperties.NotifyAllLedger | src/services/newTournamentNotificationService.js:44-91 | over the loop the ledger only grows, by one of today's alert records per e-mail counted sent |
| NewTournamentProperties.NotifyAllPreservesUniqueKeys | src/services/newTournamentNotificationService.js:44-91 | the loop keeps every key on at most one entry |
| NewTournamentProperties.NotifyRunAccounting | src/services/newTournamentNotificationService.js:6-101 | every call goes to the no-reply address; a completed run has calls plus skips equal to the recent tournaments and reports the accepted calls as sent; a run that does not complete makes no call |
| NewTournamentProperties.NotifyRunLedger | src/services/newTournamentNotificationService.js:6-101 | a run cleans the ledger and then appends one record per e-mail sent; a run that does not complete only cleans; key uniqueness is preserved |
| NewTournamentProperties.NoRecentIgnoresRegistrations | src/services/newTournamentNotificationService.js:16-19 | with no recent tournament the run ends before the registrations matter, with no send and no record |
| NewTournamentProperties.NoMailinatorUsersNoAlert | src/services/newTournamentNotificationService.js:33-36 | with no mailinator registration a run makes no call, and one with recent tournaments ends with nothing to send |
| NewTournamentProperties.AsWrittenNotifyThrows | src/services/newTournamentNotificationService.js:13-24 | as written (helpers not exported) every run throws after the cleanup, with no call and no record |
| NewTournamentProperties.AsWrittenNotifyExample | src/services/newTournamentNotificationService.js:14 | as written, one recent tournament and one mailinator user still end in a throw with an untouched ledger |
| NewTournamentProperties.CorrectedNotifyExample | src/services/newTournamentNotificationService.js:44-95 | with the helpers bound, the same input sends one alert to the no-reply address and reports one sent, none skipped |

## Left out

- File I/O of the tracking file (`loadTrackingData`, `saveTrackingData`). The list is a field, and a save is a counter. A missing or corrupt file reading as empty, and a failed write, are not modelled.
- Console logging, the hard-coded debug lookups of one tournament name, and the timing printouts. They have no effect on the outcome.
- HTTP requests (`fetchAllTournaments`, the participant request, the registrations request). Their results are inputs of a run, with `None` for a request that throws. A response that is present but not an array is not modelled.
- The e-mail transport and the HTML templates. `sendEmail` is the oracle `sendOk`, and message bodies and subjects are not modelled. The missing subject helper is the boolean `subjectBound`, and the missing tournament helpers are `helpersBound` (see Findings).
- `filterRecentTournaments` has no definition in the code. It is an input function `recent`.
- The clock. Each run takes one instant `now`, while the code calls `new Date()` several times, so a run that crosses midnight is not modelled.
- Date parsing and time zones. `parseISO` and `new Date(text)` are the parameter `parse`. `isToday` is the parameter `localDay`.
- EmailTracking.Ledger.CleanupOldEntries: the cutoff is a fixed 7 × 24 h before `now`. The code steps seven local calendar days back, which differs by an hour across a daylight-saving change.
- EmailTracking.Ledger.MarkEmailAsSent: the extra details are restricted to the fields the callers pass, so an `additionalInfo` that overwrites the key fields is not modelled.
- JsValues.Lower: lower-cases ASCII letters only. Other letters of `toLowerCase` are kept as they are, which only matters for addresses and codes with non-ASCII letters.
- Concurrent runs from the scheduler and the HTTP triggers, and the route and controller layer.
- `null` elements in the tournament, participant or registration arrays. Their property reads throw in the code, but a record of the model is never null.
- Times are whole milliseconds (`int`). Fractional or non-finite JavaScript numbers are not modelled.

## Findings

| source | as written | input that shows it | evidently intended | confidence | as-written member | corrected member |
|---|---|---|---|---|---|---|
| src/services/reminderService.js:115 | `getReminderEmailSubject` is imported but not exported by `src/templates/reminderTemplate.js:51`, so the call throws inside the per-participant `try`. No reminder reaches `sendEmail`, yet the tournament is recorded as reminded for the day. | one tournament starting in eight hours, with one participant `a@mailinator.com` and a transport that accepts everything: the run completes with 0 sent, no call and one ledger record | the participant receives one reminder and the run reports 1 sent | not executed | ReminderProperties.AsWrittenExample | ReminderProperties.CorrectedExample |
| src/services/newTournamentNotificationService.js:14 | `filterRecentTournaments` and `fetchAllRegistrations` (line 24) are called but are not exported by `src/services/tournamentService.js:80-84`. Every run throws right after the cleanup. | one recent tournament and one registration `mailinator`, with a transport that accepts everything: the run throws, with no call and no record | one consolidated alert to `noreply@tgcesports.gg`, and the run reports 1 sent and 0 skipped | not executed | NewTournamentProperties.AsWrittenNotifyExample | NewTournamentProperties.CorrectedNotifyExample |
