/**
 * The poll-diff-and-cache engine (`ClasseVivaCoordinator`). One update
 * cycle fetches the five collections, or fails as a whole; then it marks
 * agenda entries that mention the student's surname, fires an event for
 * every fetched entry whose id was not seen in the previous cycle (unless
 * nothing had ever been seen), replaces the seen-id sets, downloads
 * uncached attachments, evicts old ones and annotates the didactic items
 * with the URL of their cached copy.
 *
 * The Home Assistant event bus is the sequence of events fired so far.
 */
module Coordinator {
  import opened Wrappers
  import opened Text
  import opened Seqs
  import opened Records
  import opened Storage
  import opened Api

  /** How many days ahead the agenda is requested for. */
  const AgendaLookaheadDays := 30

  datatype Event =
    | NewDidactics(teacher: Option<string>, folder: Option<string>, itemName: Option<string>, shareDate: Option<string>)
    | NewNotice(title: Option<string>, author: Option<string>, category: Option<string>, begin: Option<string>)
    | NewAgenda(notes: Option<string>, author: Option<string>, subject: Option<string>, begin: Option<string>, end: Option<string>)
    | StudentAgenda(notes: Option<string>, author: Option<string>, subject: Option<string>, begin: Option<string>, end: Option<string>)

  /** The event type each kind of event is fired under. */
  function EventType(e: Event): string {
    match e
    case NewDidactics(_, _, _, _) => "classeviva_new_didactics"
    case NewNotice(_, _, _, _) => "classeviva_new_noticeboard"
    case NewAgenda(_, _, _, _, _) => "classeviva_new_agenda"
    case StudentAgenda(_, _, _, _, _) => "classeviva_student_agenda_event"
  }

  /** What a successful cycle returns: the five collections, annotated. */
  datatype Snapshot = Snapshot(
    grades: seq<Grade>,
    absences: seq<Absence>,
    agenda: seq<AgendaEvent>,
    didactics: seq<Teacher>,
    noticeboard: seq<Notice>)

  /** `UpdateFailed` from a failed fetch, or an OS error the cache raised afterwards. */
  datatype UpdateError = UpdateFailed(cause: ApiError) | StorageFault(fault: FsError)

  // ---------------------------------------------------------------------
  // Relevance
  // ---------------------------------------------------------------------

  /**
   * `_is_student_relevant`: never for an empty surname; otherwise the
   * surname occurs in the notes (missing notes read as ""), ignoring case.
   */
  function IsStudentRelevant(notes: Option<string>, surname: string): (r: bool)
    ensures surname == "" ==> !r
    ensures surname != "" ==> (r <==> exists i :: OccursAt(Lower(notes.GetOr("")), Lower(surname), i))
  {
    surname != "" && ContainsIgnoringCase(notes.GetOr(""), surname)
  }

  /** A surname written in the notes exactly as given makes the entry relevant. */
  lemma VerbatimSurnameIsRelevant(notes: string, surname: string, i: int)
    requires surname != "" && OccursAt(notes, surname, i)
    ensures IsStudentRelevant(Some(notes), surname)
  {
    var ln, ls := Lower(notes), Lower(surname);
    assert ln[i..i + |surname|] == ls by {
      forall k | 0 <= k < |surname|
        ensures ln[i..i + |surname|][k] == ls[k]
      {
        assert notes[i..i + |surname|][k] == surname[k];
      }
    }
    assert OccursAt(ln, ls, i);
  }

  /** Notes that are too short to hold the surname are never relevant. */
  lemma ShortNotesAreNotRelevant(notes: Option<string>, surname: string)
    requires |notes.GetOr("")| < |surname|
    ensures !IsStudentRelevant(notes, surname)
  {
  }

  /** Every agenda entry marked with its relevance to the student. */
  function Annotated(agenda: seq<AgendaEvent>, surname: string): seq<AgendaEvent> {
    seq(|agenda|, i requires 0 <= i < |agenda| => agenda[i].(studentRelevant := Some(IsStudentRelevant(agenda[i].notes, surname))))
  }

  /** The surname the cycle matches against: the client's last name, or "". */
  function Surname(c: Client): string {
    OrText(c.session.lastName, Some("")).GetOr("")
  }

  // ---------------------------------------------------------------------
  // Seen ids and new-content events
  // ---------------------------------------------------------------------

  /** `_collect_didactics_ids`: the identity of every didactic item. */
  function DidacticsIds(teachers: seq<Teacher>): set<Option<int>> {
    set e | e in Entries(teachers) :: ItemKey(e.item)
  }

  function NoticeIds(noticeboard: seq<Notice>): set<Option<int>> {
    set n | n in noticeboard :: n.pubId
  }

  function AgendaIds(agenda: seq<AgendaEvent>): set<Option<int>> {
    set a | a in agenda :: a.evtId
  }

  /** An entry is in the flattened tree exactly when some teacher, folder and position hold it. */
  lemma {:induction false} EntryInTree(teachers: seq<Teacher>, e: Entry)
    ensures e in Entries(teachers) <==>
      exists t, f, i :: 0 <= t < |teachers| && 0 <= f < |teachers[t].folders| && 0 <= i < |teachers[t].folders[f].agendaItems|
        && e == Entry(teachers[t].teacherName, teachers[t].folders[f].folderName, teachers[t].folders[f].agendaItems[i])
    decreases |teachers|
  {
    if teachers != [] {
      var n := |teachers| - 1;
      var tn, folders := teachers[n].teacherName, teachers[n].folders;
      assert teachers[..n + 1] == teachers;
      EntriesStep(teachers, n);
      EntryInTree(teachers[..n], e);
      EntryInFolders(tn, folders, e);
    }
  }

  lemma {:induction false} EntryInFolders(tn: Option<string>, folders: seq<Folder>, e: Entry)
    ensures e in FolderEntries(tn, folders) <==>
      exists f, i :: 0 <= f < |folders| && 0 <= i < |folders[f].agendaItems|
        && e == Entry(tn, folders[f].folderName, folders[f].agendaItems[i])
    decreases |folders|
  {
    if folders != [] {
      var n := |folders| - 1;
      assert folders[..n + 1] == folders;
      FolderEntriesStep(tn, folders, n);
      EntryInFolders(tn, folders[..n], e);
    }
  }

  /** The seen didactic ids are exactly the identities of the items at every teacher, folder and position. */
  lemma DidacticsIdsOfTree(teachers: seq<Teacher>, k: Option<int>)
    ensures k in DidacticsIds(teachers) <==>
      exists t, f, i :: 0 <= t < |teachers| && 0 <= f < |teachers[t].folders| && 0 <= i < |teachers[t].folders[f].agendaItems|
        && ItemKey(teachers[t].folders[f].agendaItems[i]) == k
  {
    if k in DidacticsIds(teachers) {
      var e :| e in Entries(teachers) && ItemKey(e.item) == k;
      EntryInTree(teachers, e);
    }
    if exists t, f, i :: 0 <= t < |teachers| && 0 <= f < |teachers[t].folders| && 0 <= i < |teachers[t].folders[f].agendaItems|
        && ItemKey(teachers[t].folders[f].agendaItems[i]) == k {
      var t, f, i :| 0 <= t < |teachers| && 0 <= f < |teachers[t].folders| && 0 <= i < |teachers[t].folders[f].agendaItems|
        && ItemKey(teachers[t].folders[f].agendaItems[i]) == k;
      EntryInTree(teachers, Entry(teachers[t].teacherName, teachers[t].folders[f].folderName, teachers[t].folders[f].agendaItems[i]));
    }
  }

  function UnseenItem(seen: set<Option<int>>): Entry -> bool {
    (e: Entry) => ItemKey(e.item) !in seen
  }

  function UnseenNotice(seen: set<Option<int>>): Notice -> bool {
    (n: Notice) => n.pubId !in seen
  }

  function UnseenAgenda(seen: set<Option<int>>): AgendaEvent -> bool {
    (a: AgendaEvent) => a.evtId !in seen
  }

  /** New and marked relevant (`student_relevant` truthy). */
  function UnseenRelevant(seen: set<Option<int>>): AgendaEvent -> bool {
    (a: AgendaEvent) => a.evtId !in seen && a.studentRelevant == Some(true)
  }

  function DidacticsEvent(e: Entry): Event {
    NewDidactics(e.teacherName, e.folderName, ItemLabel(e.item), e.item.shareDt)
  }

  function NoticeEvent(n: Notice): Event {
    NewNotice(n.cntTitle, n.cntAuthor, n.cntCategory, n.evtBegin)
  }

  function AgendaNotice(a: AgendaEvent): Event {
    NewAgenda(a.notes, a.authorName, a.subjectDesc, a.evtDatetimeBegin, a.evtDatetimeEnd)
  }

  function StudentEvent(a: AgendaEvent): Event {
    StudentAgenda(a.notes, a.authorName, a.subjectDesc, a.evtDatetimeBegin, a.evtDatetimeEnd)
  }

  /** `_fire_new_didactics`: one event per item occurrence whose identity was not seen. */
  function DidacticsEvents(seen: set<Option<int>>, teachers: seq<Teacher>): seq<Event> {
    Map(Keep(Entries(teachers), UnseenItem(seen)), DidacticsEvent)
  }

  /** `_fire_new_noticeboard`. */
  function NoticeEvents(seen: set<Option<int>>, noticeboard: seq<Notice>): seq<Event> {
    Map(Keep(noticeboard, UnseenNotice(seen)), NoticeEvent)
  }

  /** `_fire_new_agenda`. */
  function AgendaEvents(seen: set<Option<int>>, agenda: seq<AgendaEvent>): seq<Event> {
    Map(Keep(agenda, UnseenAgenda(seen)), AgendaNotice)
  }

  /** `_fire_student_agenda_events`. */
  function StudentEvents(seen: set<Option<int>>, agenda: seq<AgendaEvent>): seq<Event> {
    Map(Keep(agenda, UnseenRelevant(seen)), StudentEvent)
  }

  /** Unseen, judged on the item alone. */
  function UnseenKey(seen: set<Option<int>>): Item -> bool {
    (item: Item) => ItemKey(item) !in seen
  }

  /** The didactics event of an item of folder `fn` of teacher `tn`. */
  function ItemEvent(tn: Option<string>, fn: Option<string>): Item -> Event {
    (item: Item) => DidacticsEvent(Entry(tn, fn, item))
  }

  /** Within one folder the events can be read off the items themselves. */
  lemma {:induction false} ItemEventsOfFolder(seen: set<Option<int>>, tn: Option<string>, fn: Option<string>, items: seq<Item>)
    ensures Map(Keep(ItemEntries(tn, fn, items), UnseenItem(seen)), DidacticsEvent)
         == Map(Keep(items, UnseenKey(seen)), ItemEvent(tn, fn))
    decreases |items|
  {
    if items != [] {
      var n := |items| - 1;
      var e := Entry(tn, fn, items[n]);
      ItemEventsOfFolder(seen, tn, fn, items[..n]);
      assert ItemEntries(tn, fn, items) == ItemEntries(tn, fn, items[..n]) + [e];
      MapKeepSnoc(ItemEntries(tn, fn, items[..n]), e, UnseenItem(seen), DidacticsEvent);
      MapKeepPrefix(items, n, UnseenKey(seen), ItemEvent(tn, fn));
      assert items[..n + 1] == items;
    }
  }

  /** One more folder visited by the folder loop of `_fire_new_didactics`. */
  lemma FireFolderStep(seen: set<Option<int>>, tn: Option<string>, folders: seq<Folder>, f: nat,
                       bus0: seq<Event>, before: seq<Event>, after: seq<Event>)
    requires f < |folders|
    requires before == bus0 + Map(Keep(FolderEntries(tn, folders[..f]), UnseenItem(seen)), DidacticsEvent)
    requires after == before + Map(Keep(folders[f].agendaItems, UnseenKey(seen)), ItemEvent(tn, folders[f].folderName))
    ensures after == bus0 + Map(Keep(FolderEntries(tn, folders[..f + 1]), UnseenItem(seen)), DidacticsEvent)
  {
    var fn, items := folders[f].folderName, folders[f].agendaItems;
    var done, more := FolderEntries(tn, folders[..f]), ItemEntries(tn, fn, items);
    ItemEventsOfFolder(seen, tn, fn, items);
    FolderEntriesStep(tn, folders, f);
    MapKeepAppend(done, more, UnseenItem(seen), DidacticsEvent);
    AppendAssoc(bus0, Map(Keep(done, UnseenItem(seen)), DidacticsEvent), Map(Keep(more, UnseenItem(seen)), DidacticsEvent));
  }

  /** One more teacher visited by the teacher loop of `_fire_new_didactics`. */
  lemma FireTeacherStep(seen: set<Option<int>>, teachers: seq<Teacher>, t: nat,
                        bus0: seq<Event>, before: seq<Event>, after: seq<Event>)
    requires t < |teachers|
    requires before == bus0 + Map(Keep(Entries(teachers[..t]), UnseenItem(seen)), DidacticsEvent)
    requires after == before + Map(Keep(FolderEntries(teachers[t].teacherName, teachers[t].folders), UnseenItem(seen)), DidacticsEvent)
    ensures after == bus0 + Map(Keep(Entries(teachers[..t + 1]), UnseenItem(seen)), DidacticsEvent)
  {
    var done, more := Entries(teachers[..t]), FolderEntries(teachers[t].teacherName, teachers[t].folders);
    EntriesStep(teachers, t);
    MapKeepAppend(done, more, UnseenItem(seen), DidacticsEvent);
    AppendAssoc(bus0, Map(Keep(done, UnseenItem(seen)), DidacticsEvent), Map(Keep(more, UnseenItem(seen)), DidacticsEvent));
  }

  /** Nothing was ever seen: the cycle treats its fetch as the first one. */
  predicate FirstPoll(sd: set<Option<int>>, sn: set<Option<int>>, sa: set<Option<int>>) {
    sd == {} && sn == {} && sa == {}
  }

  /** The events one cycle fires, in firing order. */
  function CycleEvents(sd: set<Option<int>>, sn: set<Option<int>>, sa: set<Option<int>>,
                       didactics: seq<Teacher>, noticeboard: seq<Notice>, agenda: seq<AgendaEvent>): seq<Event> {
    if FirstPoll(sd, sn, sa) then []
    else DidacticsEvents(sd, didactics) + NoticeEvents(sn, noticeboard) + AgendaEvents(sa, agenda) + StudentEvents(sa, agenda)
  }
  /** Firing the four kinds one after the other appends the cycle's events. */
  lemma CycleInOrder(sd: set<Option<int>>, sn: set<Option<int>>, sa: set<Option<int>>,
                     didactics: seq<Teacher>, noticeboard: seq<Notice>, agenda: seq<AgendaEvent>,
                     b0: seq<Event>, b1: seq<Event>, b2: seq<Event>, b3: seq<Event>, b4: seq<Event>)
    requires !FirstPoll(sd, sn, sa)
    requires b1 == b0 + DidacticsEvents(sd, didactics)
    requires b2 == b1 + NoticeEvents(sn, noticeboard)
    requires b3 == b2 + AgendaEvents(sa, agenda)
    requires b4 == b3 + StudentEvents(sa, agenda)
    ensures b4 == b0 + CycleEvents(sd, sn, sa, didactics, noticeboard, agenda)
  {
    AppendFour(b0, DidacticsEvents(sd, didactics), NoticeEvents(sn, noticeboard),
               AgendaEvents(sa, agenda), StudentEvents(sa, agenda));
  }


  /** The first poll after a restart fires nothing, whatever it fetched. */
  lemma FirstPollIsSilent(didactics: seq<Teacher>, noticeboard: seq<Notice>, agenda: seq<AgendaEvent>)
    ensures CycleEvents({}, {}, {}, didactics, noticeboard, agenda) == []
  {
  }

  /**
   * Each fetched item occurrence whose identity was not seen fires exactly
   * one didactics event, and an item whose identity was seen fires none.
   */
  lemma UnseenItemsFireOnce(seen: set<Option<int>>, teachers: seq<Teacher>, e: Entry)
    ensures multiset(Keep(Entries(teachers), UnseenItem(seen)))[e] ==
      if ItemKey(e.item) in seen then 0 else multiset(Entries(teachers))[e]
    ensures |DidacticsEvents(seen, teachers)| == |Keep(Entries(teachers), UnseenItem(seen))|
  {
    KeepCount(Entries(teachers), UnseenItem(seen), e);
  }

  /** Likewise one noticeboard event per unseen notice occurrence. */
  lemma UnseenNoticesFireOnce(seen: set<Option<int>>, noticeboard: seq<Notice>, n: Notice)
    ensures multiset(Keep(noticeboard, UnseenNotice(seen)))[n] ==
      if n.pubId in seen then 0 else multiset(noticeboard)[n]
  {
    KeepCount(noticeboard, UnseenNotice(seen), n);
  }

  /** Likewise one agenda event per unseen agenda occurrence. */
  lemma UnseenAgendaFiresOnce(seen: set<Option<int>>, agenda: seq<AgendaEvent>, a: AgendaEvent)
    ensures multiset(Keep(agenda, UnseenAgenda(seen)))[a] ==
      if a.evtId in seen then 0 else multiset(agenda)[a]
  {
    KeepCount(agenda, UnseenAgenda(seen), a);
  }

  /**
   * A student-agenda event fires exactly for the occurrences that are both
   * new and marked relevant, so never more often than new-agenda events.
   */
  lemma StudentEventsAreNewAndRelevant(seen: set<Option<int>>, agenda: seq<AgendaEvent>, a: AgendaEvent)
    ensures multiset(Keep(agenda, UnseenRelevant(seen)))[a] ==
      if a.evtId !in seen && a.studentRelevant == Some(true) then multiset(agenda)[a] else 0
    ensures |StudentEvents(seen, agenda)| <= |AgendaEvents(seen, agenda)|
  {
    KeepCount(agenda, UnseenRelevant(seen), a);
    KeepMonotone(agenda, UnseenRelevant(seen), UnseenAgenda(seen));
  }

  /** Polling again what the previous cycle fetched fires nothing. */
  lemma RepeatPollIsSilent(didactics: seq<Teacher>, noticeboard: seq<Notice>, agenda: seq<AgendaEvent>)
    ensures CycleEvents(DidacticsIds(didactics), NoticeIds(noticeboard), AgendaIds(agenda), didactics, noticeboard, agenda) == []
  {
    var es := Entries(didactics);
    assert forall i :: 0 <= i < |es| ==> ItemKey(es[i].item) in DidacticsIds(didactics);
    KeepNone(es, UnseenItem(DidacticsIds(didactics)));
    assert forall i :: 0 <= i < |noticeboard| ==> noticeboard[i].pubId in NoticeIds(noticeboard);
    KeepNone(noticeboard, UnseenNotice(NoticeIds(noticeboard)));
    assert forall i :: 0 <= i < |agenda| ==> agenda[i].evtId in AgendaIds(agenda);
    KeepNone(agenda, UnseenAgenda(AgendaIds(agenda)));
    KeepNone(agenda, UnseenRelevant(AgendaIds(agenda)));
  }

  /** A cycle that fetched nothing leaves every seen set empty, so the next cycle is again a first poll. */
  lemma EmptyFetchKeepsFirstPoll()
    ensures FirstPoll(DidacticsIds([]), NoticeIds([]), AgendaIds([]))
  {
  }

  // ---------------------------------------------------------------------
  // The download pass
  // ---------------------------------------------------------------------

  /** The client and cache as the download pass leaves them, and the OS error that ended it, if any. */
  datatype Pass = Pass(client: Client, root: Tree, fault: Option<FsError>)

  /** The name an attachment is saved under: `displayName or itemName or "item_<id>"`. */
  function FileName(item: Item, key: int): (r: string)
    ensures r != ""
    ensures ItemLabel(item).Some? && ItemLabel(item).value != "" ==> r == ItemLabel(item).value
    ensures !(ItemLabel(item).Some? && ItemLabel(item).value != "") ==> r == "item_" + IntText(key)
  {
    OrElse(item.displayName, item.itemName, "item_" + IntText(key))
  }

  /**
   * One item of `_download_new_didactics`: skipped without an identity or
   * when cached; otherwise downloaded by `contentId or itemId` and saved
   * when the download is non-empty. A failed download or save is swallowed;
   * an error from `has_content` ends the pass.
   */
  function DownloadStep(p: Pass, e: Entry, now: int): (r: Pass)
    ensures p.fault.Some? ==> r == p
    ensures r.fault.Some? && p.fault.None? ==>
      ItemKey(e.item).Some? && HasContentIn(p.root, IdText(ItemKey(e.item))) == Err(r.fault.value)
    ensures r.root != p.root ==>
      ItemKey(e.item).Some? && HasContentIn(p.root, IdText(ItemKey(e.item))) == Ok(false)
    ensures ItemKey(e.item).None? || HasContentIn(p.root, IdText(ItemKey(e.item))) == Ok(true) ==> r == p
  {
    var key := ItemKey(e.item);
    if p.fault.Some? || key.None? then p
    else match HasContentIn(p.root, IdText(key))
      case Err(err) => p.(fault := Some(err))
      case Ok(cached) =>
        if cached then p
        else
          var (c1, d) := Download(p.client, DownloadKey(e.item));
          if d.Err? || d.value.None? || d.value.value == [] then p.(client := c1)
          else p.(client := c1, root := Save(p.root, IdText(key), FileName(e.item, key.value), d.value.value, now).0)
  }

  /** The download pass over the items in visiting order. */
  function DownloadPass(p: Pass, es: seq<Entry>, now: int): Pass {
    if es == [] then p else DownloadStep(DownloadPass(p, es[..|es| - 1], now), es[|es| - 1], now)
  }

  lemma DownloadPassSnoc(p: Pass, es: seq<Entry>, e: Entry, now: int)
    ensures DownloadPass(p, es + [e], now) == DownloadStep(DownloadPass(p, es, now), e, now)
  {
    assert (es + [e])[..|es + [e]| - 1] == es;
  }

  lemma {:induction false} DownloadPassAppend(p: Pass, a: seq<Entry>, b: seq<Entry>, now: int)
    ensures DownloadPass(p, a + b, now) == DownloadPass(DownloadPass(p, a, now), b, now)
    decreases |b|
  {
    if b == [] {
      assert a + b == a;
    } else {
      var b' := b[..|b| - 1];
      assert a + b == (a + b') + [b[|b| - 1]];
      DownloadPassSnoc(p, a + b', b[|b| - 1], now);
      DownloadPassAppend(p, a, b', now);
    }
  }

  /** Once `has_content` has raised, the rest of the pass does nothing. */
  lemma {:induction false} FaultEndsPass(p: Pass, es: seq<Entry>, now: int)
    requires p.fault.Some?
    ensures DownloadPass(p, es, now) == p
    decreases |es|
  {
    if es != [] {
      FaultEndsPass(p, es[..|es| - 1], now);
    }
  }

  /** One more item visited by the item loop of `_download_new_didactics`. */
  lemma DownloadItemStep(p0: Pass, tn: Option<string>, fn: Option<string>, items: seq<Item>, i: nat, now: int,
                         before: Pass, after: Pass)
    requires i < |items|
    requires before == DownloadPass(p0, ItemEntries(tn, fn, items[..i]), now)
    requires after == DownloadStep(before, Entry(tn, fn, items[i]), now)
    ensures after == DownloadPass(p0, ItemEntries(tn, fn, items[..i + 1]), now)
  {
    assert ItemEntries(tn, fn, items[..i + 1]) == ItemEntries(tn, fn, items[..i]) + [Entry(tn, fn, items[i])];
    DownloadPassSnoc(p0, ItemEntries(tn, fn, items[..i]), Entry(tn, fn, items[i]), now);
  }

  /** A fault raised at item `i` is the outcome of the whole folder. */
  lemma DownloadItemFault(p0: Pass, tn: Option<string>, fn: Option<string>, items: seq<Item>, i: nat, now: int)
    requires i < |items|
    requires DownloadPass(p0, ItemEntries(tn, fn, items[..i + 1]), now).fault.Some?
    ensures DownloadPass(p0, ItemEntries(tn, fn, items), now) == DownloadPass(p0, ItemEntries(tn, fn, items[..i + 1]), now)
  {
    assert items == items[..i + 1] + items[i + 1..];
    ItemEntriesAppend(tn, fn, items[..i + 1], items[i + 1..]);
    DownloadPassAppend(p0, ItemEntries(tn, fn, items[..i + 1]), ItemEntries(tn, fn, items[i + 1..]), now);
    FaultEndsPass(DownloadPass(p0, ItemEntries(tn, fn, items[..i + 1]), now), ItemEntries(tn, fn, items[i + 1..]), now);
  }

  /** A save never takes content away from an item that has some. */
  lemma SaveKeepsContent(t: Tree, id: string, name: string, data: seq<bv8>, now: int, other: string)
    requires HasContentIn(t, other) == Ok(true)
    ensures HasContentIn(Save(t, id, name, data, now).0, other) == Ok(true)
  {
    var t' := Save(t, id, name, data, now).0;
    var n :| n in t.value[other].files;
    if other == id && PlainName(name) {
      assert n in t'.value[other].files;
    }
  }

  /** The pass never takes content away: what was cached stays cached. */
  lemma {:induction false} DownloadPassKeepsCached(p: Pass, es: seq<Entry>, now: int, id: string)
    requires HasContentIn(p.root, id) == Ok(true)
    ensures HasContentIn(DownloadPass(p, es, now).root, id) == Ok(true)
    decreases |es|
  {
    if es != [] {
      var q := DownloadPass(p, es[..|es| - 1], now);
      DownloadPassKeepsCached(p, es[..|es| - 1], now, id);
      var e := es[|es| - 1];
      var key := ItemKey(e.item);
      if q.fault.None? && key.Some? && HasContentIn(q.root, IdText(key)) == Ok(false) {
        var d := Download(q.client, DownloadKey(e.item)).1;
        if d.Ok? && d.value.Some? && d.value.value != [] {
          SaveKeepsContent(q.root, IdText(key), FileName(e.item, key.value), d.value.value, now, id);
        }
      }
    }
  }

  /**
   * An uncached item whose download yields bytes is cached afterwards, under
   * its file name, holding those bytes.
   */
  lemma DownloadCachesFresh(p: Pass, e: Entry, now: int)
    requires p.fault.None? && ItemKey(e.item).Some?
    requires HasContentIn(p.root, IdText(ItemKey(e.item))) == Ok(false)
    requires var d := Download(p.client, DownloadKey(e.item)).1; d.Ok? && d.value.Some? && d.value.value != []
    requires PlainName(FileName(e.item, ItemKey(e.item).value)) && FileName(e.item, ItemKey(e.item).value) != TsFile
    ensures var id := IdText(ItemKey(e.item));
            var r := DownloadStep(p, e, now);
            && r.fault.None?
            && HasContentIn(r.root, id) == Ok(true)
            && Contents(r.root, id).Ok?
            && Contents(r.root, id).value[FileName(e.item, ItemKey(e.item).value)] == Download(p.client, DownloadKey(e.item)).1.value.value
  {
    var key := ItemKey(e.item);
    var d := Download(p.client, DownloadKey(e.item)).1;
    SaveThenHasContent(p.root, IdText(key), FileName(e.item, key.value), d.value.value, now);
  }

  /** A failed or empty download leaves the cache as it was and the pass going. */
  lemma DownloadFailureIsSwallowed(p: Pass, e: Entry, now: int)
    requires p.fault.None? && ItemKey(e.item).Some?
    requires HasContentIn(p.root, IdText(ItemKey(e.item))) == Ok(false)
    requires var d := Download(p.client, DownloadKey(e.item)).1; d.Err? || d.value.None? || d.value.value == []
    ensures DownloadStep(p, e, now) == p.(client := Download(p.client, DownloadKey(e.item)).0)
  {
  }

  // ---------------------------------------------------------------------
  // Local URLs
  // ---------------------------------------------------------------------

  /** An item with an identity whose cache entry is not a directory: `local_url` raises for it. */
  predicate Unservable(t: Tree, item: Item) {
    ItemKey(item).Some? && Contents(t, IdText(ItemKey(item))).Err?
  }

  /** `item'` is `item` with its `local_url` set from the cache, when it has an identity. */
  ghost predicate Attached(t: Tree, item: Item, item': Item) {
    if ItemKey(item).None? then item' == item
    else exists u :: ServedAt(t, IdText(ItemKey(item)), Ok(u)) && item' == item.(localUrl := u)
  }

  ghost predicate AttachedItems(t: Tree, items: seq<Item>, items': seq<Item>) {
    |items'| == |items| && forall i :: 0 <= i < |items| ==> Attached(t, items[i], items'[i])
  }

  ghost predicate AttachedFolders(t: Tree, folders: seq<Folder>, folders': seq<Folder>) {
    && |folders'| == |folders|
    && forall f :: 0 <= f < |folders| ==>
         folders'[f] == folders[f].(agendaItems := folders'[f].agendaItems)
         && AttachedItems(t, folders[f].agendaItems, folders'[f].agendaItems)
  }

  ghost predicate AttachedTeachers(t: Tree, teachers: seq<Teacher>, teachers': seq<Teacher>) {
    && |teachers'| == |teachers|
    && forall k :: 0 <= k < |teachers| ==>
         teachers'[k] == teachers[k].(folders := teachers'[k].folders)
         && AttachedFolders(t, teachers[k].folders, teachers'[k].folders)
  }

  predicate ItemsUnservable(t: Tree, items: seq<Item>) {
    exists i :: 0 <= i < |items| && Unservable(t, items[i])
  }

  predicate FoldersUnservable(t: Tree, folders: seq<Folder>) {
    exists f :: 0 <= f < |folders| && ItemsUnservable(t, folders[f].agendaItems)
  }

  predicate TeachersUnservable(t: Tree, teachers: seq<Teacher>) {
    exists k :: 0 <= k < |teachers| && FoldersUnservable(t, teachers[k].folders)
  }

  /** A single cached file is the URL `_attach_local_urls` writes into the item. */
  lemma AttachedSingleFile(t: Tree, item: Item, item': Item, name: string, data: seq<bv8>)
    requires ItemKey(item).Some? && Contents(t, IdText(ItemKey(item))) == Ok(map[name := data])
    requires Attached(t, item, item')
    ensures item'.localUrl == Some(UrlPrefix + IdText(ItemKey(item)) + "/" + name)
    ensures item' == item.(localUrl := item'.localUrl)
  {
    var u :| ServedAt(t, IdText(ItemKey(item)), Ok(u)) && item' == item.(localUrl := u);
    ServedAtSingleFile(t, IdText(ItemKey(item)), name, data, Ok(u));
  }

  // ---------------------------------------------------------------------
  // Fetching
  // ---------------------------------------------------------------------

  /** The fetch phase: the five requests in order; the first failure fails it. */
  function Fetch(c: Client, from: Date, to: Date): (Client, Result<Snapshot, ApiError>) {
    var (c1, g) := Call(c, GET, ["grades"]);
    if g.Err? then (c1, Err(g.error)) else
    var (c2, a) := Call(c1, GET, ["absences", "details"]);
    if a.Err? then (c2, Err(a.error)) else
    var (c3, ag) := Call(c2, GET, ["agenda", "all", FmtDate(from), FmtDate(to)]);
    if ag.Err? then (c3, Err(ag.error)) else
    var (c4, d) := Call(c3, GET, ["didactics"]);
    if d.Err? then (c4, Err(d.error)) else
    var (c5, n) := Call(c4, GET, ["noticeboard"]);
    if n.Err? then (c5, Err(n.error)) else
    (c5, Ok(Snapshot(GradesOf(g.value), AbsencesOf(a.value), AgendaOf(ag.value), DidacticsOf(d.value), NoticeboardOf(n.value))))
  }

  // ---------------------------------------------------------------------
  // The coordinator object
  // ---------------------------------------------------------------------

  class ClasseVivaCoordinator {
    const api: ClasseVivaApi
    const storage: DidacticsStorage
    var seenDidactics: set<Option<int>>
    var seenNoticeboard: set<Option<int>>
    var seenAgenda: set<Option<int>>
    /** The events fired on the Home Assistant bus so far. */
    var bus: seq<Event>

    /** A coordinator over `api`, with a cache opened over `disk` and nothing seen yet. */
    constructor(api: ClasseVivaApi, disk: Tree)
      ensures this.api == api && fresh(storage) && storage.root == Some(disk.GetOr(map[]))
      ensures seenDidactics == {} && seenNoticeboard == {} && seenAgenda == {} && bus == []
    {
      this.api := api;
      storage := new DidacticsStorage(disk);
      seenDidactics, seenNoticeboard, seenAgenda := {}, {}, {};
      bus := [];
    }

    /** `cleanup_storage(maxAgeDays)`; the integration passes 60 days by default. */
    method CleanupStorage(maxAgeDays: int, now: int) returns (removed: nat)
      modifies storage
      ensures (storage.root, removed) == Cleanup(old(storage.root), maxAgeDays, now)
    {
      removed := storage.CleanupOldContent(maxAgeDays, now);
    }

    /** The relevance annotation of the update cycle, made in place. */
    static method AnnotateRelevance(agenda: array<AgendaEvent>, surname: string)
      modifies agenda
      ensures agenda[..] == Annotated(old(agenda[..]), surname)
    {
      var i := 0;
      while i < agenda.Length
        invariant 0 <= i <= agenda.Length
        invariant forall j :: 0 <= j < i ==>
          agenda[j] == old(agenda[j]).(studentRelevant := Some(IsStudentRelevant(old(agenda[j]).notes, surname)))
        invariant forall j :: i <= j < agenda.Length ==> agenda[j] == old(agenda[j])
      {
        agenda[i] := agenda[i].(studentRelevant := Some(IsStudentRelevant(agenda[i].notes, surname)));
        i := i + 1;
      }
    }

    /** `_fire_new_didactics`. */
    method FireNewDidactics(teachers: seq<Teacher>)
      modifies this`bus
      ensures bus == old(bus) + DidacticsEvents(seenDidactics, teachers)
    {
      ghost var bus0 := bus;
      var t := 0;
      while t < |teachers|
        invariant 0 <= t <= |teachers|
        invariant bus == bus0 + Map(Keep(Entries(teachers[..t]), UnseenItem(seenDidactics)), DidacticsEvent)
      {
        ghost var before := bus;
        FireFolderDidactics(teachers[t].teacherName, teachers[t].folders);
        FireTeacherStep(seenDidactics, teachers, t, bus0, before, bus);
        t := t + 1;
      }
      assert teachers[..t] == teachers;
    }

    /** The folder loop of `_fire_new_didactics`, for one teacher. */
    method FireFolderDidactics(tn: Option<string>, folders: seq<Folder>)
      modifies this`bus
      ensures bus == old(bus) + Map(Keep(FolderEntries(tn, folders), UnseenItem(seenDidactics)), DidacticsEvent)
    {
      ghost var bus0 := bus;
      var f := 0;
      while f < |folders|
        invariant 0 <= f <= |folders|
        invariant bus == bus0 + Map(Keep(FolderEntries(tn, folders[..f]), UnseenItem(seenDidactics)), DidacticsEvent)
      {
        ghost var before := bus;
        FireItemDidactics(tn, folders[f].folderName, folders[f].agendaItems);
        FireFolderStep(seenDidactics, tn, folders, f, bus0, before, bus);
        f := f + 1;
      }
      assert folders[..f] == folders;
    }

    /** The item loop of `_fire_new_didactics`, for one folder. */
    method FireItemDidactics(tn: Option<string>, fn: Option<string>, items: seq<Item>)
      modifies this`bus
      ensures bus == old(bus) + Map(Keep(items, UnseenKey(seenDidactics)), ItemEvent(tn, fn))
    {
      ghost var bus0 := bus;
      var seen := seenDidactics;
      var i := 0;
      while i < |items|
        invariant 0 <= i <= |items|
        invariant bus == bus0 + Map(Keep(items[..i], UnseenKey(seen)), ItemEvent(tn, fn))
      {
        ghost var before := bus;
        assert UnseenKey(seen)(items[i]) == (ItemKey(items[i]) !in seen);
        if ItemKey(items[i]) !in seen {
          assert ItemEvent(tn, fn)(items[i]) == DidacticsEvent(Entry(tn, fn, items[i]));
          bus := bus + [DidacticsEvent(Entry(tn, fn, items[i]))];
        }
        AccumulateKept(items, i, UnseenKey(seen), ItemEvent(tn, fn), bus0, before, bus);
        i := i + 1;
      }
      assert items[..i] == items;
    }

    /** `_fire_new_noticeboard`. */
    method FireNewNoticeboard(noticeboard: seq<Notice>)
      modifies this`bus
      ensures bus == old(bus) + NoticeEvents(seenNoticeboard, noticeboard)
    {
      ghost var bus0 := bus;
      var seen := seenNoticeboard;
      var i := 0;
      while i < |noticeboard|
        invariant 0 <= i <= |noticeboard|
        invariant bus == bus0 + Map(Keep(noticeboard[..i], UnseenNotice(seen)), NoticeEvent)
      {
        ghost var before := bus;
        assert UnseenNotice(seen)(noticeboard[i]) == (noticeboard[i].pubId !in seen);
        if noticeboard[i].pubId !in seen {
          bus := bus + [NoticeEvent(noticeboard[i])];
        }
        AccumulateKept(noticeboard, i, UnseenNotice(seen), NoticeEvent, bus0, before, bus);
        i := i + 1;
      }
      assert noticeboard[..|noticeboard|] == noticeboard;
    }

    /** `_fire_new_agenda`. */
    method FireNewAgenda(agenda: seq<AgendaEvent>)
      modifies this`bus
      ensures bus == old(bus) + AgendaEvents(seenAgenda, agenda)
    {
      ghost var bus0 := bus;
      var seen := seenAgenda;
      var i := 0;
      while i < |agenda|
        invariant 0 <= i <= |agenda|
        invariant bus == bus0 + Map(Keep(agenda[..i], UnseenAgenda(seen)), AgendaNotice)
      {
        ghost var before := bus;
        assert UnseenAgenda(seen)(agenda[i]) == (agenda[i].evtId !in seen);
        if agenda[i].evtId !in seen {
          bus := bus + [AgendaNotice(agenda[i])];
        }
        AccumulateKept(agenda, i, UnseenAgenda(seen), AgendaNotice, bus0, before, bus);
        i := i + 1;
      }
      assert agenda[..|agenda|] == agenda;
    }

    /** `_fire_student_agenda_events`. */
    method FireStudentAgendaEvents(agenda: seq<AgendaEvent>)
      modifies this`bus
      ensures bus == old(bus) + StudentEvents(seenAgenda, agenda)
    {
      ghost var bus0 := bus;
      var seen := seenAgenda;
      var i := 0;
      while i < |agenda|
        invariant 0 <= i <= |agenda|
        invariant bus == bus0 + Map(Keep(agenda[..i], UnseenRelevant(seen)), StudentEvent)
      {
        ghost var before := bus;
        assert UnseenRelevant(seen)(agenda[i]) == (agenda[i].evtId !in seen && agenda[i].studentRelevant == Some(true));
        if agenda[i].evtId !in seen && agenda[i].studentRelevant == Some(true) {
          bus := bus + [StudentEvent(agenda[i])];
        }
        AccumulateKept(agenda, i, UnseenRelevant(seen), StudentEvent, bus0, before, bus);
        i := i + 1;
      }
      assert agenda[..|agenda|] == agenda;
    }

    /**
     * `_download_new_didactics`: the pass over every item; an error from
     * `has_content` leaves the method at once and is returned.
     */
    method DownloadNewDidactics(teachers: seq<Teacher>, now: int) returns (fault: Option<FsError>)
      modifies api, storage
      ensures var p := DownloadPass(Pass(old(api.State()), old(storage.root), None), Entries(teachers), now);
              api.State() == p.client && storage.root == p.root && fault == p.fault
    {
      ghost var p0 := Pass(api.State(), storage.root, None);
      var t := 0;
      while t < |teachers|
        invariant 0 <= t <= |teachers|
        invariant DownloadPass(p0, Entries(teachers[..t]), now) == Pass(api.State(), storage.root, None)
      {
        ghost var done := Entries(teachers[..t]);
        ghost var before := Pass(api.State(), storage.root, None);
        var tn, folders := teachers[t].teacherName, teachers[t].folders;
        fault := DownloadFolders(tn, folders, now);
        EntriesStep(teachers, t);
        DownloadPassAppend(p0, done, FolderEntries(tn, folders), now);
        if fault.Some? {
          EntriesAround(teachers, t);
          DownloadPassAppend(p0, done + FolderEntries(tn, folders), Entries(teachers[t + 1..]), now);
          FaultEndsPass(DownloadPass(before, FolderEntries(tn, folders), now), Entries(teachers[t + 1..]), now);
          return;
        }
        t := t + 1;
      }
      assert teachers[..t] == teachers;
      fault := None;
    }

    /** The folder loop of `_download_new_didactics`, for one teacher. */
    method DownloadFolders(tn: Option<string>, folders: seq<Folder>, now: int) returns (fault: Option<FsError>)
      modifies api, storage
      ensures var p := DownloadPass(Pass(old(api.State()), old(storage.root), None), FolderEntries(tn, folders), now);
              api.State() == p.client && storage.root == p.root && fault == p.fault
    {
      ghost var p0 := Pass(api.State(), storage.root, None);
      var f := 0;
      while f < |folders|
        invariant 0 <= f <= |folders|
        invariant DownloadPass(p0, FolderEntries(tn, folders[..f]), now) == Pass(api.State(), storage.root, None)
      {
        ghost var done := FolderEntries(tn, folders[..f]);
        ghost var before := Pass(api.State(), storage.root, None);
        var fn, items := folders[f].folderName, folders[f].agendaItems;
        fault := DownloadItems(tn, fn, items, now);
        FolderEntriesStep(tn, folders, f);
        DownloadPassAppend(p0, done, ItemEntries(tn, fn, items), now);
        if fault.Some? {
          FolderEntriesAround(tn, folders, f);
          DownloadPassAppend(p0, done + ItemEntries(tn, fn, items), FolderEntries(tn, folders[f + 1..]), now);
          FaultEndsPass(DownloadPass(before, ItemEntries(tn, fn, items), now), FolderEntries(tn, folders[f + 1..]), now);
          return;
        }
        f := f + 1;
      }
      assert folders[..f] == folders;
      fault := None;
    }

    /**
     * The item loop of `_download_new_didactics`, for one folder: an error
     * from `has_content` leaves the loop at once and is returned.
     */
    method DownloadItems(tn: Option<string>, fn: Option<string>, items: seq<Item>, now: int) returns (fault: Option<FsError>)
      modifies api, storage
      ensures var p := DownloadPass(Pass(old(api.State()), old(storage.root), None), ItemEntries(tn, fn, items), now);
              api.State() == p.client && storage.root == p.root && fault == p.fault
    {
      ghost var p0 := Pass(api.State(), storage.root, None);
      var i := 0;
      while i < |items|
        invariant 0 <= i <= |items|
        invariant DownloadPass(p0, ItemEntries(tn, fn, items[..i]), now) == Pass(api.State(), storage.root, None)
      {
        ghost var before := Pass(api.State(), storage.root, None);
        fault := DownloadItem(Entry(tn, fn, items[i]), now);
        DownloadItemStep(p0, tn, fn, items, i, now, before, Pass(api.State(), storage.root, fault));
        if fault.Some? {
          DownloadItemFault(p0, tn, fn, items, i, now);
          return;
        }
        i := i + 1;
      }
      assert items[..i] == items;
      fault := None;
    }

    /** The body of the item loop of `_download_new_didactics`, for one item. */
    method DownloadItem(e: Entry, now: int) returns (fault: Option<FsError>)
      modifies api, storage
      ensures Pass(api.State(), storage.root, fault) == DownloadStep(Pass(old(api.State()), old(storage.root), None), e, now)
    {
      var item := e.item;
      var key := ItemKey(item);
      fault := None;
      if key.Some? {
        var cached := storage.HasContent(IdText(key));
        if cached.Err? {
          fault := Some(cached.error);
          return;
        }
        if !cached.value {
          var data := api.DownloadDidacticContent(DownloadKey(item));
          if data.Ok? && data.value.Some? && data.value.value != [] {
            var _ := storage.SaveContent(IdText(key), FileName(item, key.value), data.value.value, now);
          }
        }
      }
    }

    /** The innermost loop of `_attach_local_urls`. */
    method AttachItemUrls(items: seq<Item>) returns (r: Result<seq<Item>, FsError>)
      ensures r.Err? <==> ItemsUnservable(storage.root, items)
      ensures r.Ok? ==> AttachedItems(storage.root, items, r.value)
    {
      var out: seq<Item> := [];
      var i := 0;
      while i < |items|
        invariant 0 <= i <= |items| && |out| == i
        invariant forall j :: 0 <= j < i ==> Attached(storage.root, items[j], out[j]) && !Unservable(storage.root, items[j])
      {
        var key := ItemKey(items[i]);
        if key.Some? {
          var u := storage.LocalUrl(IdText(key));
          if u.Err? {
            return Err(u.error);
          }
          out := out + [items[i].(localUrl := u.value)];
        } else {
          out := out + [items[i]];
        }
        i := i + 1;
      }
      return Ok(out);
    }

    /** The folder loop of `_attach_local_urls`. */
    method AttachFolderUrls(folders: seq<Folder>) returns (r: Result<seq<Folder>, FsError>)
      ensures r.Err? <==> FoldersUnservable(storage.root, folders)
      ensures r.Ok? ==> AttachedFolders(storage.root, folders, r.value)
    {
      var out: seq<Folder> := [];
      var f := 0;
      while f < |folders|
        invariant 0 <= f <= |folders| && |out| == f
        invariant forall g :: 0 <= g < f ==>
          out[g] == folders[g].(agendaItems := out[g].agendaItems)
          && AttachedItems(storage.root, folders[g].agendaItems, out[g].agendaItems)
          && !ItemsUnservable(storage.root, folders[g].agendaItems)
      {
        var items := AttachItemUrls(folders[f].agendaItems);
        if items.Err? {
          return Err(items.error);
        }
        out := out + [folders[f].(agendaItems := items.value)];
        f := f + 1;
      }
      return Ok(out);
    }

    /** `_attach_local_urls`: every item with an identity gets the URL of its cached file. */
    method AttachLocalUrls(teachers: seq<Teacher>) returns (r: Result<seq<Teacher>, FsError>)
      ensures r.Err? <==> TeachersUnservable(storage.root, teachers)
      ensures r.Ok? ==> AttachedTeachers(storage.root, teachers, r.value)
    {
      var out: seq<Teacher> := [];
      var k := 0;
      while k < |teachers|
        invariant 0 <= k <= |teachers| && |out| == k
        invariant forall g :: 0 <= g < k ==>
          out[g] == teachers[g].(folders := out[g].folders)
          && AttachedFolders(storage.root, teachers[g].folders, out[g].folders)
          && !FoldersUnservable(storage.root, teachers[g].folders)
      {
        var folders := AttachFolderUrls(teachers[k].folders);
        if folders.Err? {
          return Err(folders.error);
        }
        out := out + [teachers[k].(folders := folders.value)];
        k := k + 1;
      }
      return Ok(out);
    }

    /** The fetch phase of `_async_update_data`. */
    method FetchAll(from: Date, to: Date) returns (r: Result<Snapshot, ApiError>)
      modifies api
      ensures (api.State(), r) == Fetch(old(api.State()), from, to)
    {
      var grades := api.Grades();
      if grades.Err? { return Err(grades.error); }
      var absences := api.Absences();
      if absences.Err? { return Err(absences.error); }
      var agenda := api.Agenda(from, to);
      if agenda.Err? { return Err(agenda.error); }
      var didactics := api.Didactics();
      if didactics.Err? { return Err(didactics.error); }
      var noticeboard := api.Noticeboard();
      if noticeboard.Err? { return Err(noticeboard.error); }
      r := Ok(Snapshot(grades.value, absences.value, agenda.value, didactics.value, noticeboard.value));
    }

    /** The event step of `_async_update_data`: nothing on the first poll, else the four kinds in order. */
    method FireNewContent(didactics: seq<Teacher>, noticeboard: seq<Notice>, agenda: seq<AgendaEvent>)
      modifies this`bus
      ensures bus == old(bus) + CycleEvents(seenDidactics, seenNoticeboard, seenAgenda, didactics, noticeboard, agenda)
    {
      if seenDidactics != {} || seenNoticeboard != {} || seenAgenda != {} {
        ghost var b0 := bus;
        FireNewDidactics(didactics);
        ghost var b1 := bus;
        FireNewNoticeboard(noticeboard);
        ghost var b2 := bus;
        FireNewAgenda(agenda);
        ghost var b3 := bus;
        FireStudentAgendaEvents(agenda);
        CycleInOrder(seenDidactics, seenNoticeboard, seenAgenda, didactics, noticeboard, agenda, b0, b1, b2, b3, bus);
      }
    }

    /**
     * The middle of `_async_update_data` after a successful fetch: mark the
     * agenda, fire the events (unless nothing was ever seen) and replace the
     * seen sets with this fetch's ids.
     */
    method RecordFetch(f: Snapshot) returns (agenda: seq<AgendaEvent>)
      modifies this`bus, this`seenDidactics, this`seenNoticeboard, this`seenAgenda
      ensures agenda == Annotated(f.agenda, Surname(api.State()))
      ensures bus == old(bus) + CycleEvents(old(seenDidactics), old(seenNoticeboard), old(seenAgenda), f.didactics, f.noticeboard, agenda)
      ensures seenDidactics == DidacticsIds(f.didactics)
      ensures seenNoticeboard == NoticeIds(f.noticeboard)
      ensures seenAgenda == AgendaIds(agenda)
    {
      var surname := if api.lastName.Some? && api.lastName.value != "" then api.lastName.value else "";
      var arr := new AgendaEvent[|f.agenda|](i requires 0 <= i < |f.agenda| => f.agenda[i]);
      assert arr[..] == f.agenda;
      AnnotateRelevance(arr, surname);
      agenda := arr[..];

      FireNewContent(f.didactics, f.noticeboard, agenda);

      seenDidactics := DidacticsIds(f.didactics);
      seenNoticeboard := NoticeIds(f.noticeboard);
      seenAgenda := AgendaIds(agenda);
    }

    /**
     * The end of `_async_update_data`: download what is not cached, evict
     * after 60 days, and annotate the items with their URLs.
     */
    method SyncCache(didactics: seq<Teacher>, now: int) returns (r: Result<seq<Teacher>, FsError>)
      modifies api, storage
      ensures var p := DownloadPass(Pass(old(api.State()), old(storage.root), None), Entries(didactics), now);
        && api.State() == p.client
        && (p.fault.Some? ==> r == Err(p.fault.value) && storage.root == p.root)
        && (p.fault.None? ==>
              && storage.root == Cleanup(p.root, DefaultMaxAgeDays, now).0
              && (r.Err? <==> TeachersUnservable(storage.root, didactics))
              && (r.Ok? ==> AttachedTeachers(storage.root, didactics, r.value)))
    {
      var fault := DownloadNewDidactics(didactics, now);
      if fault.Some? {
        return Err(fault.value);
      }
      var _ := CleanupStorage(DefaultMaxAgeDays, now);
      r := AttachLocalUrls(didactics);
    }

    /**
     * `_async_update_data`, the clock reading `now` and the agenda requested
     * from `from` to `to`.
     */
    method AsyncUpdateData(now: int, from: Date, to: Date) returns (r: Result<Snapshot, UpdateError>)
      modifies this, api, storage
      ensures var (c1, fetched) := Fetch(old(api.State()), from, to);
        fetched.Err? ==>
          && r == Err(UpdateFailed(fetched.error))
          && api.State() == c1 && storage.root == old(storage.root) && bus == old(bus)
          && seenDidactics == old(seenDidactics) && seenNoticeboard == old(seenNoticeboard) && seenAgenda == old(seenAgenda)
      ensures var (c1, fetched) := Fetch(old(api.State()), from, to);
        fetched.Ok? ==>
          var f := fetched.value;
          var agenda := Annotated(f.agenda, Surname(c1));
          && bus == old(bus) + CycleEvents(old(seenDidactics), old(seenNoticeboard), old(seenAgenda), f.didactics, f.noticeboard, agenda)
          && seenDidactics == DidacticsIds(f.didactics)
          && seenNoticeboard == NoticeIds(f.noticeboard)
          && seenAgenda == AgendaIds(agenda)
          && var p := DownloadPass(Pass(c1, old(storage.root), None), Entries(f.didactics), now);
          && api.State() == p.client
          && (p.fault.Some? ==> r == Err(StorageFault(p.fault.value)) && storage.root == p.root)
          && (p.fault.None? ==>
                && storage.root == Cleanup(p.root, DefaultMaxAgeDays, now).0
                && (r.Err? <==> TeachersUnservable(storage.root, f.didactics))
                && (r.Ok? ==>
                      && r.value == Snapshot(f.grades, f.absences, agenda, r.value.didactics, f.noticeboard)
                      && AttachedTeachers(storage.root, f.didactics, r.value.didactics)))
    {
      var fetched := FetchAll(from, to);
      if fetched.Err? {
        return Err(UpdateFailed(fetched.error));
      }
      var f := fetched.value;
      var agenda := RecordFetch(f);
      var didactics := SyncCache(f.didactics, now);
      if didactics.Err? {
        return Err(StorageFault(didactics.error));
      }
      r := Ok(Snapshot(f.grades, f.absences, agenda, didactics.value, f.noticeboard));
    }
  }
}
