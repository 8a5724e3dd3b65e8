# ClasseViva for Home Assistant: the poll, diff and cache core

This project is a Dafny model of the ClasseViva custom integration for Home
Assistant. ClasseViva is the Spaggiari school register. The model covers five
parts of the integration:

- the REST client (`ClasseVivaAPI`): login, token refresh, the five list
  endpoints and attachment download;
- the update coordinator (`ClasseVivaCoordinator`): one update cycle fetches
  every collection, flags agenda entries that mention the student, fires a Home
  Assistant event for each entry whose id the previous cycle did not see, and
  replaces the seen-id sets;
- the attachment cache (`DidacticsStorage`): files under
  `www/classeviva_didactics/<item id>/`, stamped with a `.cv_ts` marker and
  evicted after 60 days;
- the five sensors' states and attributes;
- the agenda calendar entity.

Modules:

- `Wrappers`: `Option` and `Result`.
- `Text`: ASCII lower-casing, substring search, digit stripping, decimal
  numerals, joining, and code-point string order.
- `Seqs`: filter (`Keep`) and `Map` over sequences.
- `Sorting`: Python's stable `sorted`, modelled as a stable insertion sort, and
  prefixes of the sorted result.
- `Records`: the JSON records the server returns, reduced to the keys the
  integration reads, and the didactics tree flattened in visiting order.
- `Storage`, `Api`, `Coordinator`, `Sensor` and `Calendar`: one module for each
  core source file.

Modelling choices:

- **State.** Objects whose fields change are classes: `DidacticsStorage`,
  `ClasseVivaApi` and `ClasseVivaCoordinator`. Each method is proved equal to a
  pure function of the old state, and the properties are lemmas about those
  functions. The Home Assistant event bus is the `bus` field, the sequence of
  events fired so far. The loops of the source are `while` loops with
  invariants.
- **Environment as input.** The HTTP session is a scripted server: a sequence
  of replies and a log of requests. The file system is a map from names to
  nodes. The clock is a parameter `now`, in microseconds. `parse_datetime` is a
  parameter `parse`.

## Model

| member | source | states |
|---|---|---|
| Text.Contains | custom_components/classeviva/coordinator.py:162 | Python's substring test is true exactly when some position of the text starts a copy of the needle |
| Text.DigitsIdempotent | custom_components/classeviva/api.py:55 | stripping the non-digits from the login ident twice is the same as once |
| Text.FixedRoundTrip | custom_components/classeviva/api.py:103-105 | a zero-padded field of width w reads back as the number when the number has at most w digits |
| Text.LexLessTotal | custom_components/classeviva/sensor.py:105 | Python's string order is total: two distinct strings are ordered one way or the other |
| Text.LexLessTransitive | custom_components/classeviva/sensor.py:271-274 | Python's string order is transitive, so sorting by a string key is well defined |
| Records.OrElse | custom_components/classeviva/coordinator.py:176-180 | `a or b or default` yields a when it is present and non-empty, else b under the same test, else the default; it is never empty |
| Storage.HasContentIn | custom_components/classeviva/storage.py:53-56 | Ok(true) exactly when the item directory exists and holds a file other than the marker; an error exactly when the entry is not a directory |
| Storage.Listing | custom_components/classeviva/storage.py:80-82 | a directory listing contains every content file and nothing else except the marker |
| Storage.ServedAtSingleFile | custom_components/classeviva/storage.py:85-90 | a directory holding a single file is served at `/local/classeviva_didactics/<id>/<name>` |
| Storage.SaveThenHasContent | custom_components/classeviva/storage.py:58-73 | saving into an item returns the path `<id>/<name>`; afterwards the item has content, and that file holds exactly the saved bytes |
| Storage.SaveFreshThenLocate | custom_components/classeviva/storage.py:58-90 | after the first save of an item, its local URL is the URL of the saved file |
| Storage.ResaveOverwrites | custom_components/classeviva/storage.py:70-72 | saving the same name again overwrites the bytes and restamps the marker with the later instant |
| Storage.SaveLeavesOthers | custom_components/classeviva/storage.py:68-72 | a save changes no other entry of the storage root |
| Storage.StaleIds | custom_components/classeviva/storage.py:101-116 | only item directories are candidates for removal |
| Storage.Cleanup | custom_components/classeviva/storage.py:92-119 | a missing root removes nothing; an entry survives exactly when it is not an item directory saved before the cutoff; survivors are unchanged; the count is at most the number of item directories |
| Storage.CleanupCountsRemoved | custom_components/classeviva/storage.py:95-119 | the returned count is exactly the number of root entries removed, so a directory whose marker does not parse is neither removed nor counted |
| Storage.CleanupKeepsStrays | custom_components/classeviva/storage.py:102-103 | an entry that is not a directory is never removed |
| Storage.CleanupSkipsUnparseable | custom_components/classeviva/storage.py:105-118 | a directory whose marker does not parse is skipped and kept |
| Storage.CleanupEmptyRoot | custom_components/classeviva/storage.py:97-101 | an empty root removes nothing |
| Storage.CleanupKeepsRecentSave | custom_components/classeviva/storage.py:99-112 | an item saved at the cleanup instant survives it |
| Storage.CleanupRemovesOld | custom_components/classeviva/storage.py:106-116 | an item stamped before the cutoff is removed and counted |
| Storage.CleanupIdempotent | custom_components/classeviva/storage.py:92-119 | a second cleanup at the same instant removes nothing and changes nothing |
| Storage.DidacticsStorage.constructor | custom_components/classeviva/storage.py:32-40 | the root directory exists afterwards and keeps whatever was already on disk |
| Storage.DidacticsStorage.SaveContent | custom_components/classeviva/storage.py:58-73 | the new root and the result are those of `Save` on the old root |
| Storage.DidacticsStorage.GetContentPath | custom_components/classeviva/storage.py:75-83 | the error listing raises; None exactly when no content file is cached; otherwise the path of one of the item's content files |
| Storage.DidacticsStorage.LocalUrl | custom_components/classeviva/storage.py:85-90 | the error listing raises, None when nothing is cached, otherwise the URL of a cached file of the item |
| Storage.DidacticsStorage.CleanupOldContent | custom_components/classeviva/storage.py:92-119 | the new root and the count are those of `Cleanup` on the old root |
| Api.FmtDate | custom_components/classeviva/api.py:103-105 | `%Y%m%d` is all digits |
| Api.NatTextIsFixed | custom_components/classeviva/api.py:105 | for a year of four digits, `str` and the zero-padded field agree |
| Api.FmtDateRoundTrip | custom_components/classeviva/api.py:103-105 | a valid date is eight digits, and reading back the year, month and day gives the date |
| Api.FmtDateInjective | custom_components/classeviva/api.py:103-105 | distinct valid dates format differently |
| Api.GradesOf | custom_components/classeviva/api.py:111-114 | the `grades` list, or [] when the key is absent |
| Api.AbsencesOf | custom_components/classeviva/api.py:116-119 | the `events` list, or [] when the key is absent |
| Api.AgendaOf | custom_components/classeviva/api.py:121-126 | the `agenda` list, or [] when the key is absent |
| Api.DidacticsOf | custom_components/classeviva/api.py:128-132 | the misspelt `didacticts` key wins over `didactics`, then [] |
| Api.NoticeboardOf | custom_components/classeviva/api.py:134-137 | the `items` list, or [] when the key is absent |
| Api.LoginStep | custom_components/classeviva/api.py:33-63 | posts the credentials once; fails with AuthenticationFailed exactly when the reply's error mentions "authentication failed", leaving the session as it was; on success stores the token, the digits of the ident and both names, and returns them |
| Api.Call | custom_components/classeviva/api.py:79-101 | appends requests to the log; a successful result is never an expired-token reply, and the last request was sent with the session then current |
| Api.CallAnswers | custom_components/classeviva/api.py:79-101 | a call consumes a prefix of the scripted replies (the remaining script is a suffix of the old one), and a payload it returns is the body of the last reply it consumed |
| Api.Download | custom_components/classeviva/api.py:139-158 | consumes a prefix of the replies; returned bytes are the raw body of the attachment reply that answered the last request |
| Api.LoginConsumes | custom_components/classeviva/api.py:44-49 | a login consumes a prefix of the replies |
| Api.LoginKeepsIdentDigits | custom_components/classeviva/api.py:54-63 | an ident made of a non-digit prefix and a student number (as "S12345") is stored and returned as that number, with the reply's token and names |
| Api.CallPassesThrough | custom_components/classeviva/api.py:79-89 | a reply that is not an expired token is returned as it is, after one request |
| Api.RetryIsUnbounded | custom_components/classeviva/api.py:85-87 | n expired-token replies, each followed by an accepted login, take 2n+1 requests, and the final payload is returned |
| Api.DownloadAttachment | custom_components/classeviva/api.py:145-149 | a 200 reply whose Content-Type does not mention JSON yields its raw bytes after one request |
| Api.DownloadUnavailable | custom_components/classeviva/api.py:150-158 | a reply that is neither an attachment nor an expired token yields None |
| Api.ClasseVivaApi.constructor | custom_components/classeviva/api.py:20-27 | a fresh client holds the credentials, an empty session, the server and an empty request log |
| Api.ClasseVivaApi.Exchange | custom_components/classeviva/api.py:44-48 | one request sent and answered by the next scripted reply |
| Api.ClasseVivaApi.Login | custom_components/classeviva/api.py:33-63 | the new client state and result are those of `LoginStep` |
| Api.ClasseVivaApi.Issue | custom_components/classeviva/api.py:79-101 | the new client state and result are those of `Call`; the retry is a recursive call, as in the source |
| Api.ClasseVivaApi.Grades | custom_components/classeviva/api.py:111-114 | `GET grades`, then `GradesOf` |
| Api.ClasseVivaApi.Absences | custom_components/classeviva/api.py:116-119 | `GET absences/details`, then `AbsencesOf` |
| Api.ClasseVivaApi.Agenda | custom_components/classeviva/api.py:121-126 | `GET agenda/all/<begin>/<end>` with both dates formatted, then `AgendaOf` |
| Api.ClasseVivaApi.Didactics | custom_components/classeviva/api.py:128-132 | `GET didactics`, then `DidacticsOf` |
| Api.ClasseVivaApi.Noticeboard | custom_components/classeviva/api.py:134-137 | `GET noticeboard`, then `NoticeboardOf` |
| Api.ClasseVivaApi.DownloadDidacticContent | custom_components/classeviva/api.py:139-158 | the new client state and result are those of `Download` |
| Coordinator.IsStudentRelevant | custom_components/classeviva/coordinator.py:152-162 | never relevant for an empty surname; otherwise relevant exactly when the lower-cased surname occurs in the lower-cased notes |
| Coordinator.VerbatimSurnameIsRelevant | custom_components/classeviva/coordinator.py:159-162 | notes that contain the surname verbatim are relevant |
| Coordinator.ShortNotesAreNotRelevant | custom_components/classeviva/coordinator.py:161-162 | notes shorter than the surname are never relevant |
| Coordinator.EntryInTree | custom_components/classeviva/coordinator.py:82-84 | the flattened tree holds exactly the items at some teacher, folder and position |
| Coordinator.DidacticsIdsOfTree | custom_components/classeviva/coordinator.py:80-86 | the seen didactics ids are exactly the `itemId or contentId` of the items in the tree |
| Coordinator.ItemEventsOfFolder | custom_components/classeviva/coordinator.py:92-103 | within one folder, the events are those of the unseen items, in item order |
| Coordinator.CycleInOrder | custom_components/classeviva/coordinator.py:221-225 | firing the four kinds one after another appends the cycle's events |
| Coordinator.FirstPollIsSilent | custom_components/classeviva/coordinator.py:219-225 | with nothing seen, a cycle fires nothing |
| Coordinator.UnseenItemsFireOnce | custom_components/classeviva/coordinator.py:88-103 | each item occurrence whose identity was not seen fires exactly one event; a seen one fires none |
| Coordinator.UnseenNoticesFireOnce | custom_components/classeviva/coordinator.py:105-118 | each unseen notice occurrence fires one event; a seen one fires none |
| Coordinator.UnseenAgendaFiresOnce | custom_components/classeviva/coordinator.py:120-134 | each unseen agenda occurrence fires one event; a seen one fires none |
| Coordinator.StudentEventsAreNewAndRelevant | custom_components/classeviva/coordinator.py:136-150 | a student event fires exactly for occurrences that are unseen and marked relevant, so never more often than agenda events |
| Coordinator.RepeatPollIsSilent | custom_components/classeviva/coordinator.py:221-230 | polling again what the last cycle fetched fires nothing |
| Coordinator.EmptyFetchKeepsFirstPoll | custom_components/classeviva/coordinator.py:228-230 | a cycle that fetched nothing leaves the next cycle a first poll |
| Coordinator.FileName | custom_components/classeviva/coordinator.py:176-180 | `displayName or itemName`, else `item_<id>`; never empty |
| Coordinator.DownloadStep | custom_components/classeviva/coordinator.py:168-185 | a pass already ended is unchanged; a fault comes only from the cache check of an item with an identity; the cache changes only for an item with an identity and no content; an item with no identity, or one already cached, is skipped and leaves the client, cache and fault as they were |
| Coordinator.DownloadPassAppend | custom_components/classeviva/coordinator.py:166-168 | the pass over two runs of items is the pass over the first, then over the second |
| Coordinator.FaultEndsPass | custom_components/classeviva/coordinator.py:170 | once the cache check has raised, the rest of the pass does nothing |
| Coordinator.SaveKeepsContent | custom_components/classeviva/coordinator.py:181 | a save never takes content away from an item |
| Coordinator.DownloadPassKeepsCached | custom_components/classeviva/coordinator.py:164-185 | what was cached before the pass is still cached after it |
| Coordinator.DownloadCachesFresh | custom_components/classeviva/coordinator.py:169-181 | an uncached item whose download yields bytes is cached under its file name, holding those bytes |
| Coordinator.DownloadFailureIsSwallowed | custom_components/classeviva/coordinator.py:173-185 | a failed or empty download leaves the cache alone, and the pass goes on |
| Coordinator.AttachedSingleFile | custom_components/classeviva/coordinator.py:192-194 | an item whose directory holds one file gets that file's URL and is otherwise unchanged |
| Coordinator.ClasseVivaCoordinator.constructor | custom_components/classeviva/coordinator.py:46-59 | all seen sets are empty, no events have been fired, and the storage is rooted at the existing disk |
| Coordinator.ClasseVivaCoordinator.CleanupStorage | custom_components/classeviva/coordinator.py:65-74 | the new root and the count are those of `Cleanup` |
| Coordinator.ClasseVivaCoordinator.AnnotateRelevance | custom_components/classeviva/coordinator.py:212-217 | updates the agenda array in place: each entry's relevance flag is set and nothing else changes |
| Coordinator.ClasseVivaCoordinator.FireNewDidactics | custom_components/classeviva/coordinator.py:88-103 | appends to the bus one event per unseen item of the tree, in visiting order |
| Coordinator.ClasseVivaCoordinator.FireFolderDidactics | custom_components/classeviva/coordinator.py:91-103 | the same for the folders of one teacher |
| Coordinator.ClasseVivaCoordinator.FireItemDidactics | custom_components/classeviva/coordinator.py:92-103 | the same for the items of one folder |
| Coordinator.ClasseVivaCoordinator.FireNewNoticeboard | custom_components/classeviva/coordinator.py:105-118 | appends one event per unseen notice, in order |
| Coordinator.ClasseVivaCoordinator.FireNewAgenda | custom_components/classeviva/coordinator.py:120-134 | appends one event per unseen agenda entry, in order |
| Coordinator.ClasseVivaCoordinator.FireStudentAgendaEvents | custom_components/classeviva/coordinator.py:136-150 | appends one event per unseen relevant agenda entry, in order |
| Coordinator.ClasseVivaCoordinator.FireNewContent | custom_components/classeviva/coordinator.py:221-225 | appends nothing on a first poll, otherwise the four kinds of event in firing order |
| Coordinator.ClasseVivaCoordinator.DownloadNewDidactics | custom_components/classeviva/coordinator.py:164-185 | the client and cache end as the download pass over the tree leaves them; the fault is the one that ended it |
| Coordinator.ClasseVivaCoordinator.DownloadFolders | custom_components/classeviva/coordinator.py:167-185 | the same for the folders of one teacher |
| Coordinator.ClasseVivaCoordinator.DownloadItems | custom_components/classeviva/coordinator.py:168-185 | the same for the items of one folder, stopping at a fault |
| Coordinator.ClasseVivaCoordinator.DownloadItem | custom_components/classeviva/coordinator.py:169-185 | one item: the new client, cache and fault are those of `DownloadStep` |
| Coordinator.ClasseVivaCoordinator.AttachItemUrls | custom_components/classeviva/coordinator.py:191-194 | fails exactly when some item with an identity has a non-directory entry; otherwise each item with an identity gets its served URL and nothing else changes |
| Coordinator.ClasseVivaCoordinator.AttachFolderUrls | custom_components/classeviva/coordinator.py:190-194 | the same for the folders of one teacher |
| Coordinator.ClasseVivaCoordinator.AttachLocalUrls | custom_components/classeviva/coordinator.py:187-194 | the same for the whole tree |
| Coordinator.ClasseVivaCoordinator.FetchAll | custom_components/classeviva/coordinator.py:202-210 | the five requests in order; the first failure fails the fetch |
| Coordinator.ClasseVivaCoordinator.RecordFetch | custom_components/classeviva/coordinator.py:212-230 | the agenda is annotated; the cycle's events are appended; the seen sets become the fetched ids |
| Coordinator.ClasseVivaCoordinator.SyncCache | custom_components/classeviva/coordinator.py:233-239 | download pass, then 60-day cleanup, then URL annotation; a fault from the cache check ends the cycle |
| Coordinator.ClasseVivaCoordinator.AsyncUpdateData | custom_components/classeviva/coordinator.py:200-247 | a failed fetch fails the update and changes neither the bus, the seen sets nor the cache; otherwise it fires the cycle's events, replaces the seen sets, downloads, evicts and annotates, and returns the fetched collections |
| Sensor.UniqueId | custom_components/classeviva/sensor.py:59 | `<entry id>_<key>` |
| Sensor.UniqueIdInjective | custom_components/classeviva/sensor.py:59 | two keys of one entry give the same id exactly when they are the same key |
| Sensor.SensorIdsDistinct | custom_components/classeviva/sensor.py:59 | the five sensors of an entry have distinct ids |
| Sensor.RecentGrades | custom_components/classeviva/sensor.py:105 | ten grades, or all of them when there are fewer |
| Sensor.RecentGradeRows | custom_components/classeviva/sensor.py:101-116 | at most ten rows |
| Sensor.NewerFirstOrders | custom_components/classeviva/sensor.py:105 | newest-first by date string is a strict weak order |
| Sensor.RecentGradesAreNewest | custom_components/classeviva/sensor.py:105 | the recent grades come from the input, newest first, and no grade left out is newer than one kept |
| Sensor.UnjustifiedCount | custom_components/classeviva/sensor.py:135-139 | at most the number of absences |
| Sensor.AbsenceAttributes | custom_components/classeviva/sensor.py:141-155 | one row per absence; the total is the number of absences and is at least the unjustified count |
| Sensor.NoUnjustifiedIffAllJustified | custom_components/classeviva/sensor.py:139 | the count is 0 exactly when every absence counts as justified (a missing flag counts as justified) |
| Sensor.AllUnjustifiedIffCountIsTotal | custom_components/classeviva/sensor.py:139 | the count equals the total exactly when every absence is unjustified |
| Sensor.UnreadCount | custom_components/classeviva/sensor.py:181-183 | at most the number of notices |
| Sensor.NoticeRows | custom_components/classeviva/sensor.py:184-194 | one row per notice; a row is read exactly when the notice does not count as unread |
| Sensor.AllUnreadIffCountIsTotal | custom_components/classeviva/sensor.py:174-183 | the unread count equals the state exactly when every notice is unread |
| Sensor.FolderTotalCountsEntries | custom_components/classeviva/sensor.py:219-220 | the per-folder item counts add up to the items of a teacher |
| Sensor.ItemTotalCountsEntries | custom_components/classeviva/sensor.py:216-221 | the state counts every item of the tree |
| Sensor.DidacticsCount | custom_components/classeviva/sensor.py:214-221 | the nested loop's count is the number of items in the tree |
| Sensor.RowItemTotalAppend | custom_components/classeviva/sensor.py:236 | the `items` totals of two runs of folder rows add up |
| Sensor.FolderRowsTotal | custom_components/classeviva/sensor.py:230-239 | the `items` fields of one teacher's folder rows add up to that teacher's items |
| Sensor.FolderRowsAgreeWithItemRows | custom_components/classeviva/sensor.py:223-251 | the `items` fields of the folder rows add up to the number of item rows |
| Sensor.ItemRowsOfFolder | custom_components/classeviva/sensor.py:240-250 | a folder's item rows can be read off the items themselves |
| Sensor.DidacticsAttributes | custom_components/classeviva/sensor.py:223-251 | the two lists the loops build are the folder rows and item rows of the tree, and their sizes agree with the item count |
| Sensor.EarlierFirstOrders | custom_components/classeviva/sensor.py:271-274 | earliest-first by begin string is a strict weak order |
| Sensor.AgendaLabel | custom_components/classeviva/sensor.py:278 | `notes or subjectDesc or "Event"`; never empty |
| Sensor.NextAgendaValue | custom_components/classeviva/sensor.py:268-278 | None exactly when the agenda is empty |
| Sensor.NextAgendaIsEarliest | custom_components/classeviva/sensor.py:268-278 | the state is the label of the first event with the earliest begin |
| Sensor.UpcomingEvents | custom_components/classeviva/sensor.py:300-311 | ten events, or all of them when there are fewer |
| Sensor.UpcomingRows | custom_components/classeviva/sensor.py:300-312 | at most ten rows |
| Sensor.NextEventRow | custom_components/classeviva/sensor.py:282-310 | none exactly for an empty agenda, else begin, end, subject, author, type, full-day and relevance of the first event by begin: the first `upcoming_events` row without its notes |
| Sensor.UpcomingAreEarliest | custom_components/classeviva/sensor.py:280-313 | the upcoming events come from the agenda in ascending begin order; none left out begins earlier than one listed; the first is the one the state shows |
| Calendar.Summary | custom_components/classeviva/calendar.py:75-80 | `notes or subjectDesc or evtCode or "Event"`; never empty |
| Calendar.RawToEvent | custom_components/classeviva/calendar.py:57-91 | no event exactly when a begin or end is missing, empty or does not parse; otherwise it starts at the begin and ends strictly later, at the end when that is later, else one hour after the start |
| Calendar.CollectUpcoming | custom_components/classeviva/calendar.py:101-106 | the loop collects exactly the records whose begin parses and is not before now, each paired with its parsed begin, in agenda order |
| Calendar.UpcomingPairsAt | custom_components/classeviva/calendar.py:101-106 | each collected pair holds an upcoming record of the agenda and its parsed begin, position by position |
| Calendar.NextEvent | custom_components/classeviva/calendar.py:97-112 | the loop and sort compute `NextEventOf` |
| Calendar.UpcomingNeedsBegin | custom_components/classeviva/calendar.py:103-105 | with a parser that rejects "", a record is upcoming exactly when its begin is present, parses and is not before now |
| Calendar.UpcomingIffSomeUpcoming | custom_components/classeviva/calendar.py:101-109 | some record is upcoming exactly when the upcoming list is non-empty; with none there is no event |
| Calendar.NextEventIsEarliest | custom_components/classeviva/calendar.py:101-112 | the event is the conversion of an upcoming record that begins no later than any other, and strictly earlier than those listed before it |
| Calendar.EarliestUpcoming | custom_components/classeviva/calendar.py:101-112 | names the position of the converted record among the upcoming ones: it begins no later than any of them and strictly earlier than those before it |
| Calendar.InRangeEvent | custom_components/classeviva/calendar.py:123-134 | a record contributes only when its begin lies in the range, and then its converted event |
| Calendar.RangeEvents | custom_components/classeviva/calendar.py:114-135 | at most one event per record; each starts within the range and ends after it starts |
| Calendar.RangeEventsExact | custom_components/classeviva/calendar.py:114-135 | an event is listed exactly when some record of the agenda contributes it |
| Calendar.AsyncGetEvents | custom_components/classeviva/calendar.py:114-135 | the loop computes `RangeEvents` |

Where the code and its own documentation disagree, the model follows the code.
The docstring of `download_didactic_content` says the client "re-authenticates
once". The code (api.py:85-87 and 155-157) logs in again and repeats the
request on every expired-token reply, with no bound. `Api.RetryIsUnbounded`
states that behaviour.

Two settings live in `const.py`, which is not part of this model:
`DIDACTICS_STORAGE_SUBDIR` is taken to be `classeviva_didactics`, as the
docstrings say, and `DIDACTICS_MAX_AGE_DAYS` is taken to be 60.

## Left out

- The Grades sensor's average: it is an average of floats rounded to two places
  (sensor.py:88-99), and floating point is not modelled.
- Text.Lower: lower-cases ASCII letters only. Python's `str.lower` also folds
  accented and other non-ASCII letters.
- Text.Digits: treats only the ASCII digits 0-9 as digits. Python's `\D` also
  keeps other Unicode decimal digits.
- Api.FmtDate: prints a year below 1000 without zero padding, as glibc's
  `strftime("%Y")` does, so the text is then shorter than eight digits. C
  libraries that pad the year are not modelled. Api.FmtDateRoundTrip and
  Api.FmtDateInjective require a year of at least 1000.
- A JSON `null` and a missing key are both `None`. Where Python crashes on a
  null, the model does not. Where Python accepts a null that the model reads
  as a missing key, the model differs the other way: see the Api.LoginAssign,
  Sensor.IsUnjustified, Sensor.NoticeRowOf and Calendar.Description lines
  below. The crashes not modelled are:
  - `.lower()` on a null `error`;
  - sorting with a null date among strings;
  - `get(key, default)` returning the null.
- Api.LoginAssign: a login reply whose `token`, `firstName` or `lastName` is
  a JSON null fails with `MissingKey` in the model. Python (api.py:54-57)
  indexes the key, stores None and completes the login. So Api.LoginStep fails
  where Python succeeds, and Api.Call and Api.Download then abandon a
  token-refresh retry that Python completes.
- Sensor.IsUnjustified: a null `isJustified` counts as justified in the model.
  Python's `not a.get("isJustified", True)` (sensor.py:139) counts it as
  unjustified. A missing flag counts as justified in both.
- Sensor.NoticeRowOf: a null `readStatus` shows a row's `read` as false.
  Python's `i.get("readStatus", False)` (sensor.py:190) shows None. Both count
  the notice as unread, so Sensor.NoticeRows and Sensor.UnreadCount are
  unaffected except for that attribute value.
- Calendar.Description: a null `authorName`, `subjectDesc` or `notes` prints
  as "" in the model. The f-string at calendar.py:87-89 prints "None".
- Non-string JSON values where strings are expected are not modelled, for
  example a numeric `error` field.
- Storage paths: `pathlib` normalisation, nested sub-directories inside an item
  directory, and file names that are not plain entry names are not modelled. A
  save to such a name fails (`PlainName`).
- The whole update cycle uses one clock reading, `now`, for saving and
  cleanup. The agenda window (`now` to `now` plus 30 days) is taken as two
  dates given to the cycle.
- HTTP headers, aiohttp sessions, timeouts and network failures are not
  modelled. The server is a script of replies; when the script runs out, the
  result is a transport error.
- Home Assistant's entity machinery is not modelled: device info, icons, unit
  and state classes, logging, `__init__.py` set-up, `config_flow.py`, and the
  event payload keys. Each event is a datatype constructor carrying the same
  fields.
- The unique id is proved distinct only among one entry's sensors. Collisions
  between config entries are not modelled.
- `parse_datetime` and the removal of time zones are not modelled. Both appear
  as the `parse` parameter, with naive instants as integers. The theorems hold
  for every `parse`. The real function returns None on "", and only with such
  a `parse` is a record with no begin never upcoming
  (Calendar.UpcomingNeedsBegin). Comparing an aware
  instant with a naive one, which raises in Python, is not modelled.
- Python's recursion limit on the unbounded token-refresh retry is not
  modelled.
- Coordinator.ClasseVivaCoordinator.AttachLocalUrls: returns the annotated
  tree as a new value. The Python code updates the item dicts in place, so an
  error part-way leaves the earlier items annotated; the model does not
  capture that partial update or the aliasing.
- Calendar.NextEvent: sorts with the stable `Sort` function rather than an
  in-place `list.sort`. Order and stability are the same.
- Sensor.RecentGradeRows: states only the row count. Which grades the rows
  show is stated by Sensor.RecentGradesAreNewest.
- Sensor.UpcomingRows: states only the row count. Which events the rows show
  is stated by Sensor.UpcomingAreEarliest.
