/**
 * The values the sensor entities derive from the coordinator's snapshot:
 * the unique id of each entity, the recent-grades list, the unjustified
 * absence count, the noticeboard counts, the didactics count and listing,
 * and the next-agenda value and upcoming list.
 */
module Sensor {
  import opened Wrappers
  import opened Text
  import opened Seqs
  import opened Sorting
  import opened Records

  // ---------------------------------------------------------------------
  // Entity identity
  // ---------------------------------------------------------------------

  /** `_attr_unique_id` of a sensor: the config entry id, an underscore, the sensor's key. */
  function UniqueId(entryId: string, key: string): (r: string)
    ensures |r| == |entryId| + 1 + |key|
    ensures r[..|entryId|] == entryId && r[|entryId|] == '_' && r[|entryId| + 1..] == key
  {
    entryId + "_" + key
  }

  /** The keys of the five sensors of one account. */
  const SensorKeys: seq<string> := ["grades", "absences", "noticeboard", "didactics", "next_agenda"]

  /** Within one account, different keys give different unique ids. */
  lemma UniqueIdInjective(entryId: string, k1: string, k2: string)
    ensures UniqueId(entryId, k1) == UniqueId(entryId, k2) <==> k1 == k2
  {
    if UniqueId(entryId, k1) == UniqueId(entryId, k2) {
      assert k1 == UniqueId(entryId, k1)[|entryId| + 1..];
    }
  }

  /** The five sensors of one account never share a unique id. */
  lemma SensorIdsDistinct(entryId: string)
    ensures forall i, j :: 0 <= i < j < |SensorKeys| ==> UniqueId(entryId, SensorKeys[i]) != UniqueId(entryId, SensorKeys[j])
  {
    forall i, j | 0 <= i < j < |SensorKeys|
      ensures UniqueId(entryId, SensorKeys[i]) != UniqueId(entryId, SensorKeys[j])
    {
      UniqueIdInjective(entryId, SensorKeys[i], SensorKeys[j]);
    }
  }

  // ---------------------------------------------------------------------
  // Grades: the ten most recent
  // ---------------------------------------------------------------------

  /** The sort key `g.get("evtDate", "")`. */
  function DateKey(g: Grade): string {
    g.evtDate.GetOr("")
  }

  /** `reverse=True` on the date key: a later date comes first. */
  function NewerFirst(): (Grade, Grade) -> bool {
    (a: Grade, b: Grade) => LexLess(DateKey(b), DateKey(a))
  }

  /** How many grades the attributes list. */
  const RecentLimit := 10

  /** `sorted(grades, key=evtDate, reverse=True)[:10]`. */
  function RecentGrades(grades: seq<Grade>): (r: seq<Grade>)
    ensures |r| == if |grades| < RecentLimit then |grades| else RecentLimit
  {
    Take(Sort(grades, NewerFirst()), RecentLimit)
  }

  datatype GradeRow = GradeRow(date: Option<string>, subject: Option<string>, value: Option<string>, notes: Option<string>)

  function GradeRowOf(g: Grade): GradeRow {
    GradeRow(g.evtDate, g.subjectDesc, g.displayValue, g.notesForFamily)
  }

  /** The `recent_grades` attribute. */
  function RecentGradeRows(grades: seq<Grade>): (r: seq<GradeRow>)
    ensures |r| <= RecentLimit
  {
    Map(RecentGrades(grades), GradeRowOf)
  }

  /** Code-point order on a key is a strict weak order on the records keyed by it. */
  lemma NewerFirstOrders()
    ensures StrictWeakOrder(NewerFirst())
  {
    var lt := NewerFirst();
    forall a: Grade ensures !lt(a, a) {
      LexLessIrreflexive(DateKey(a));
    }
    forall a: Grade, b: Grade, c: Grade | lt(a, b) && lt(b, c) ensures lt(a, c) {
      LexLessTransitive(DateKey(c), DateKey(b), DateKey(a));
    }
    forall a: Grade, b: Grade, c: Grade | lt(a, c) ensures lt(a, b) || lt(b, c) {
      LexLessTotal(DateKey(a), DateKey(b));
      if LexLess(DateKey(a), DateKey(b)) {
        LexLessTransitive(DateKey(c), DateKey(a), DateKey(b));
      }
    }
  }

  /**
   * The recent grades are grades of the input, newest first, and no grade
   * left out is strictly newer than one that was kept.
   */
  lemma RecentGradesAreNewest(grades: seq<Grade>)
    ensures multiset(RecentGrades(grades)) <= multiset(grades)
    ensures forall i, j :: 0 <= i < j < |RecentGrades(grades)| ==>
      !LexLess(DateKey(RecentGrades(grades)[i]), DateKey(RecentGrades(grades)[j]))
    ensures forall g, i :: multiset(RecentGrades(grades))[g] < multiset(grades)[g] && 0 <= i < |RecentGrades(grades)| ==>
      !LexLess(DateKey(RecentGrades(grades)[i]), DateKey(g))
  {
    NewerFirstOrders();
    SortSorted(grades, NewerFirst());
    TakeOfSorted(Sort(grades, NewerFirst()), NewerFirst(), RecentLimit);
  }

  // ---------------------------------------------------------------------
  // Absences
  // ---------------------------------------------------------------------

  /** `not a.get("isJustified", True)`: a missing flag counts as justified. */
  predicate IsUnjustified(a: Absence) {
    a.isJustified == Some(false)
  }

  function UnjustifiedOf(): Absence -> bool {
    (a: Absence) => IsUnjustified(a)
  }

  /** The absences sensor's state. */
  function UnjustifiedCount(absences: seq<Absence>): (n: nat)
    ensures n <= |absences|
  {
    |Keep(absences, UnjustifiedOf())|
  }

  datatype AbsenceRow = AbsenceRow(date: Option<string>, kind: Option<string>, justified: Option<bool>, reason: Option<string>)

  function AbsenceRowOf(a: Absence): AbsenceRow {
    AbsenceRow(a.evtDate, a.evtCode, a.isJustified, a.justifReasonDesc)
  }

  /** The absences sensor's attributes: one row per absence, and `total_absences`. */
  function AbsenceAttributes(absences: seq<Absence>): (r: (seq<AbsenceRow>, nat))
    ensures |r.0| == r.1 == |absences|
    ensures UnjustifiedCount(absences) <= r.1
  {
    (Map(absences, AbsenceRowOf), |absences|)
  }

  /** The count is zero exactly when no absence is flagged unjustified. */
  lemma NoUnjustifiedIffAllJustified(absences: seq<Absence>)
    ensures UnjustifiedCount(absences) == 0 <==> forall i :: 0 <= i < |absences| ==> !IsUnjustified(absences[i])
  {
    if forall i :: 0 <= i < |absences| ==> !IsUnjustified(absences[i]) {
      KeepNone(absences, UnjustifiedOf());
    } else {
      var i :| 0 <= i < |absences| && IsUnjustified(absences[i]);
      KeepCount(absences, UnjustifiedOf(), absences[i]);
      assert absences[i] in multiset(absences);
    }
  }

  /** The count equals the total exactly when every absence is flagged unjustified. */
  lemma AllUnjustifiedIffCountIsTotal(absences: seq<Absence>)
    ensures UnjustifiedCount(absences) == |absences| <==> forall i :: 0 <= i < |absences| ==> IsUnjustified(absences[i])
  {
    if forall i :: 0 <= i < |absences| ==> IsUnjustified(absences[i]) {
      KeepAll(absences, UnjustifiedOf());
    } else {
      var i :| 0 <= i < |absences| && !IsUnjustified(absences[i]);
      KeepDropsRejected(absences, UnjustifiedOf(), i);
    }
  }

  // ---------------------------------------------------------------------
  // Noticeboard
  // ---------------------------------------------------------------------

  /** The noticeboard sensor's state: the number of notices. */
  function NoticeCount(items: seq<Notice>): nat {
    |items|
  }

  /** `not i.get("readStatus", False)`: a missing flag counts as unread. */
  predicate IsUnread(n: Notice) {
    n.readStatus != Some(true)
  }

  function UnreadOf(): Notice -> bool {
    (n: Notice) => IsUnread(n)
  }

  /** `unread_count`. */
  function UnreadCount(items: seq<Notice>): (r: nat)
    ensures r <= NoticeCount(items)
  {
    |Keep(items, UnreadOf())|
  }

  datatype NoticeRow = NoticeRow(title: Option<string>, author: Option<string>, category: Option<string>,
                                 begin: Option<string>, read: bool, hasAttachment: bool)

  function NoticeRowOf(n: Notice): NoticeRow {
    NoticeRow(n.cntTitle, n.cntAuthor, n.cntCategory, n.evtBegin, n.readStatus.GetOr(false), n.attachments > 0)
  }

  /** The `notices` attribute: one row per notice, a row shown as read exactly when it is not unread. */
  function NoticeRows(items: seq<Notice>): (r: seq<NoticeRow>)
    ensures |r| == NoticeCount(items)
    ensures forall i :: 0 <= i < |items| ==> (r[i].read <==> !IsUnread(items[i]))
  {
    Map(items, NoticeRowOf)
  }

  /** Every notice is unread exactly when the unread count is the whole board. */
  lemma AllUnreadIffCountIsTotal(items: seq<Notice>)
    ensures UnreadCount(items) == NoticeCount(items) <==> forall i :: 0 <= i < |items| ==> IsUnread(items[i])
  {
    if forall i :: 0 <= i < |items| ==> IsUnread(items[i]) {
      KeepAll(items, UnreadOf());
    } else {
      var i :| 0 <= i < |items| && !IsUnread(items[i]);
      KeepDropsRejected(items, UnreadOf(), i);
    }
  }

  // ---------------------------------------------------------------------
  // Didactics
  // ---------------------------------------------------------------------

  /** Sum of `len(agendaItems)` over the folders. */
  function FolderTotal(folders: seq<Folder>): nat {
    if folders == [] then 0 else FolderTotal(folders[..|folders| - 1]) + |folders[|folders| - 1].agendaItems|
  }

  /** Sum over teachers and their folders of `len(agendaItems)`. */
  function ItemTotal(teachers: seq<Teacher>): nat {
    if teachers == [] then 0 else ItemTotal(teachers[..|teachers| - 1]) + FolderTotal(teachers[|teachers| - 1].folders)
  }

  lemma {:induction false} FolderTotalCountsEntries(tn: Option<string>, folders: seq<Folder>)
    ensures FolderTotal(folders) == |FolderEntries(tn, folders)|
    decreases |folders|
  {
    if folders != [] {
      FolderTotalCountsEntries(tn, folders[..|folders| - 1]);
    }
  }

  /** The sum the sensor computes is the number of leaves of the tree. */
  lemma {:induction false} ItemTotalCountsEntries(teachers: seq<Teacher>)
    ensures ItemTotal(teachers) == |Entries(teachers)|
    decreases |teachers|
  {
    if teachers != [] {
      var t := teachers[|teachers| - 1];
      ItemTotalCountsEntries(teachers[..|teachers| - 1]);
      FolderTotalCountsEntries(t.teacherName, t.folders);
    }
  }

  /** The didactics sensor's state: nested loops adding up the folder sizes. */
  method DidacticsCount(teachers: seq<Teacher>) returns (count: nat)
    ensures count == ItemTotal(teachers)
    ensures count == |Entries(teachers)|
  {
    count := 0;
    var t := 0;
    while t < |teachers|
      invariant 0 <= t <= |teachers|
      invariant count == ItemTotal(teachers[..t])
    {
      var folders := teachers[t].folders;
      ghost var base := count;
      var f := 0;
      while f < |folders|
        invariant 0 <= f <= |folders|
        invariant count == base + FolderTotal(folders[..f])
      {
        assert folders[..f + 1][..f] == folders[..f];
        count := count + |folders[f].agendaItems|;
        f := f + 1;
      }
      assert folders[..f] == folders;
      assert teachers[..t + 1][..t] == teachers[..t];
      t := t + 1;
    }
    assert teachers[..t] == teachers;
    ItemTotalCountsEntries(teachers);
  }

  datatype FolderRow = FolderRow(teacher: Option<string>, folder: Option<string>, items: nat, lastUpdated: Option<string>)

  datatype ItemRow = ItemRow(teacher: Option<string>, folder: Option<string>, itemId: Option<int>,
                             name: Option<string>, shareDate: Option<string>, localUrl: Option<string>)

  function FolderRowIn(tn: Option<string>): Folder -> FolderRow {
    (f: Folder) => FolderRow(tn, f.folderName, |f.agendaItems|, f.lastShareDt)
  }

  function ItemRowOf(e: Entry): ItemRow {
    ItemRow(e.teacherName, e.folderName, ItemKey(e.item), ItemLabel(e.item), e.item.shareDt, e.item.localUrl)
  }

  function ItemRowIn(tn: Option<string>, fn: Option<string>): Item -> ItemRow {
    (item: Item) => ItemRowOf(Entry(tn, fn, item))
  }

  /** The `folders` attribute: one row per folder, teacher by teacher. */
  function FolderRows(teachers: seq<Teacher>): seq<FolderRow> {
    if teachers == [] then []
    else
      var t := teachers[|teachers| - 1];
      FolderRows(teachers[..|teachers| - 1]) + Map(t.folders, FolderRowIn(t.teacherName))
  }

  /** The `items` attribute: one row per leaf of the tree. */
  function ItemRows(teachers: seq<Teacher>): seq<ItemRow> {
    Map(Entries(teachers), ItemRowOf)
  }

  /** Sum of the `items` fields of folder rows. */
  function RowItemTotal(rows: seq<FolderRow>): nat {
    if rows == [] then 0 else RowItemTotal(rows[..|rows| - 1]) + rows[|rows| - 1].items
  }

  lemma {:induction false} RowItemTotalAppend(a: seq<FolderRow>, b: seq<FolderRow>)
    ensures RowItemTotal(a + b) == RowItemTotal(a) + RowItemTotal(b)
    decreases |b|
  {
    if b == [] {
      assert a + b == a;
    } else {
      assert (a + b)[..|a + b| - 1] == a + b[..|b| - 1];
      RowItemTotalAppend(a, b[..|b| - 1]);
    }
  }

  lemma {:induction false} FolderRowsTotal(tn: Option<string>, folders: seq<Folder>)
    ensures RowItemTotal(Map(folders, FolderRowIn(tn))) == FolderTotal(folders)
    decreases |folders|
  {
    if folders != [] {
      var init := folders[..|folders| - 1];
      FolderRowsTotal(tn, init);
      assert Map(folders, FolderRowIn(tn)) == Map(init, FolderRowIn(tn)) + [FolderRowIn(tn)(folders[|folders| - 1])];
    }
  }

  /** The folder rows' item counts add up to the number of item rows. */
  lemma {:induction false} FolderRowsAgreeWithItemRows(teachers: seq<Teacher>)
    ensures RowItemTotal(FolderRows(teachers)) == |ItemRows(teachers)|
    decreases |teachers|
  {
    if teachers != [] {
      var init, t := teachers[..|teachers| - 1], teachers[|teachers| - 1];
      FolderRowsAgreeWithItemRows(init);
      RowItemTotalAppend(FolderRows(init), Map(t.folders, FolderRowIn(t.teacherName)));
      FolderRowsTotal(t.teacherName, t.folders);
      FolderTotalCountsEntries(t.teacherName, t.folders);
      ItemTotalCountsEntries(init);
    }
  }

  /** Within one folder the item rows can be read off the items themselves. */
  lemma {:induction false} ItemRowsOfFolder(tn: Option<string>, fn: Option<string>, items: seq<Item>)
    ensures Map(ItemEntries(tn, fn, items), ItemRowOf) == Map(items, ItemRowIn(tn, fn))
  {
  }

  /** One more folder visited by the middle loop of the attributes listing. */
  lemma AttributesFolderStep(tn: Option<string>, folders: seq<Folder>, f: nat,
                             itemsStart: seq<ItemRow>, itemsBefore: seq<ItemRow>, itemsAfter: seq<ItemRow>,
                             foldersStart: seq<FolderRow>, foldersBefore: seq<FolderRow>, foldersAfter: seq<FolderRow>)
    requires f < |folders|
    requires itemsBefore == itemsStart + Map(FolderEntries(tn, folders[..f]), ItemRowOf)
    requires itemsAfter == itemsBefore + Map(folders[f].agendaItems, ItemRowIn(tn, folders[f].folderName))
    requires foldersBefore == foldersStart + Map(folders[..f], FolderRowIn(tn))
    requires foldersAfter == foldersBefore + [FolderRowIn(tn)(folders[f])]
    ensures itemsAfter == itemsStart + Map(FolderEntries(tn, folders[..f + 1]), ItemRowOf)
    ensures foldersAfter == foldersStart + Map(folders[..f + 1], FolderRowIn(tn))
  {
    var fn, items := folders[f].folderName, folders[f].agendaItems;
    var done, more := FolderEntries(tn, folders[..f]), ItemEntries(tn, fn, items);
    ItemRowsOfFolder(tn, fn, items);
    FolderEntriesStep(tn, folders, f);
    MapAppend(done, more, ItemRowOf);
    AppendAssoc(itemsStart, Map(done, ItemRowOf), Map(more, ItemRowOf));
    assert folders[..f + 1] == folders[..f] + [folders[f]];
    MapSnoc(folders[..f], folders[f], FolderRowIn(tn));
    AppendAssoc(foldersStart, Map(folders[..f], FolderRowIn(tn)), [FolderRowIn(tn)(folders[f])]);
  }

  /** One more teacher visited by the outer loop of the attributes listing. */
  lemma AttributesTeacherStep(teachers: seq<Teacher>, t: nat,
                              itemsBefore: seq<ItemRow>, itemsAfter: seq<ItemRow>,
                              foldersBefore: seq<FolderRow>, foldersAfter: seq<FolderRow>)
    requires t < |teachers|
    requires itemsBefore == ItemRows(teachers[..t])
    requires itemsAfter == itemsBefore + Map(FolderEntries(teachers[t].teacherName, teachers[t].folders), ItemRowOf)
    requires foldersBefore == FolderRows(teachers[..t])
    requires foldersAfter == foldersBefore + Map(teachers[t].folders, FolderRowIn(teachers[t].teacherName))
    ensures itemsAfter == ItemRows(teachers[..t + 1])
    ensures foldersAfter == FolderRows(teachers[..t + 1])
  {
    EntriesStep(teachers, t);
    MapAppend(Entries(teachers[..t]), FolderEntries(teachers[t].teacherName, teachers[t].folders), ItemRowOf);
    assert teachers[..t + 1][..t] == teachers[..t];
  }

  /** One more item visited by the inner loop: the rows so far map the visited prefix. */
  lemma AccumulateMapped<T, U>(s: seq<T>, i: nat, f: T -> U, start: seq<U>, before: seq<U>, after: seq<U>)
    requires i < |s|
    requires before == start + Map(s[..i], f)
    requires after == before + [f(s[i])]
    ensures after == start + Map(s[..i + 1], f)
  {
    assert s[..i + 1] == s[..i] + [s[i]];
    MapSnoc(s[..i], s[i], f);
  }

  /**
   * The didactics sensor's attributes: nested loops appending a row per
   * folder and a row per item.
   */
  method DidacticsAttributes(teachers: seq<Teacher>) returns (folderRows: seq<FolderRow>, itemRows: seq<ItemRow>)
    ensures folderRows == FolderRows(teachers)
    ensures itemRows == ItemRows(teachers)
    ensures |itemRows| == ItemTotal(teachers) == RowItemTotal(folderRows)
  {
    folderRows, itemRows := [], [];
    var t := 0;
    while t < |teachers|
      invariant 0 <= t <= |teachers|
      invariant folderRows == FolderRows(teachers[..t])
      invariant itemRows == ItemRows(teachers[..t])
    {
      ghost var itemsT, foldersT := itemRows, folderRows;
      var tn, folders := teachers[t].teacherName, teachers[t].folders;
      var f := 0;
      while f < |folders|
        invariant 0 <= f <= |folders|
        invariant itemRows == itemsT + Map(FolderEntries(tn, folders[..f]), ItemRowOf)
        invariant folderRows == foldersT + Map(folders[..f], FolderRowIn(tn))
      {
        ghost var itemsF, foldersF := itemRows, folderRows;
        var fn, items := folders[f].folderName, folders[f].agendaItems;
        folderRows := folderRows + [FolderRow(tn, fn, |items|, folders[f].lastShareDt)];
        var i := 0;
        while i < |items|
          invariant 0 <= i <= |items|
          invariant itemRows == itemsF + Map(items[..i], ItemRowIn(tn, fn))
        {
          ghost var before := itemRows;
          var item := items[i];
          itemRows := itemRows + [ItemRow(tn, fn, ItemKey(item), ItemLabel(item), item.shareDt, item.localUrl)];
          AccumulateMapped(items, i, ItemRowIn(tn, fn), itemsF, before, itemRows);
          i := i + 1;
        }
        assert items[..i] == items;
        AttributesFolderStep(tn, folders, f, itemsT, itemsF, itemRows, foldersT, foldersF, folderRows);
        f := f + 1;
      }
      assert folders[..f] == folders;
      AttributesTeacherStep(teachers, t, itemsT, itemRows, foldersT, folderRows);
      t := t + 1;
    }
    assert teachers[..t] == teachers;
    ItemTotalCountsEntries(teachers);
    FolderRowsAgreeWithItemRows(teachers);
  }

  // ---------------------------------------------------------------------
  // Next agenda event
  // ---------------------------------------------------------------------

  /** The sort key `e.get("evtDatetimeBegin", "")`. */
  function BeginKey(e: AgendaEvent): string {
    e.evtDatetimeBegin.GetOr("")
  }

  function EarlierFirst(): (AgendaEvent, AgendaEvent) -> bool {
    (a: AgendaEvent, b: AgendaEvent) => LexLess(BeginKey(a), BeginKey(b))
  }

  lemma EarlierFirstOrders()
    ensures StrictWeakOrder(EarlierFirst())
  {
    var lt := EarlierFirst();
    forall a: AgendaEvent ensures !lt(a, a) {
      LexLessIrreflexive(BeginKey(a));
    }
    forall a: AgendaEvent, b: AgendaEvent, c: AgendaEvent | lt(a, b) && lt(b, c) ensures lt(a, c) {
      LexLessTransitive(BeginKey(a), BeginKey(b), BeginKey(c));
    }
    forall a: AgendaEvent, b: AgendaEvent, c: AgendaEvent | lt(a, c) ensures lt(a, b) || lt(b, c) {
      LexLessTotal(BeginKey(a), BeginKey(b));
      if LexLess(BeginKey(b), BeginKey(a)) {
        LexLessTransitive(BeginKey(b), BeginKey(a), BeginKey(c));
      }
    }
  }

  /** `notes or subjectDesc or "Event"`. */
  function AgendaLabel(e: AgendaEvent): (r: string)
    ensures r != ""
  {
    OrElse(e.notes, e.subjectDesc, "Event")
  }

  /** The next-agenda sensor's state, from the head of the agenda sorted by begin. */
  function NextAgendaValue(agenda: seq<AgendaEvent>): (r: Option<string>)
    ensures r.None? <==> agenda == []
  {
    var events := Sort(agenda, EarlierFirst());
    if events == [] then None else Some(AgendaLabel(events[0]))
  }

  /**
   * The value is the label of the first event with the earliest begin: no
   * event begins before it, and every event listed before it begins later.
   */
  lemma NextAgendaIsEarliest(agenda: seq<AgendaEvent>)
    requires agenda != []
    ensures var k := FirstMin(agenda, EarlierFirst());
      && NextAgendaValue(agenda) == Some(AgendaLabel(agenda[k]))
      && (forall j :: 0 <= j < |agenda| ==> !LexLess(BeginKey(agenda[j]), BeginKey(agenda[k])))
      && (forall j :: 0 <= j < k ==> LexLess(BeginKey(agenda[k]), BeginKey(agenda[j])))
  {
    EarlierFirstOrders();
    SortHead(agenda, EarlierFirst());
    FirstMinIsFirstMinimal(agenda, EarlierFirst());
  }

  datatype AgendaRow = AgendaRow(begin: Option<string>, end: Option<string>, subject: Option<string>, notes: Option<string>,
                                 author: Option<string>, kind: Option<string>, fullDay: Option<bool>, studentRelevant: bool)

  function AgendaRowOf(e: AgendaEvent): AgendaRow {
    AgendaRow(e.evtDatetimeBegin, e.evtDatetimeEnd, e.subjectDesc, e.notes, e.authorName, e.evtCode, e.isFullDay,
              e.studentRelevant.GetOr(false))
  }

  /** How many events `upcoming_events` lists. */
  const UpcomingLimit := 10

  /** The events `upcoming_events` lists: the first ten by begin. */
  function UpcomingEvents(agenda: seq<AgendaEvent>): (r: seq<AgendaEvent>)
    ensures |r| == if |agenda| < UpcomingLimit then |agenda| else UpcomingLimit
  {
    Take(Sort(agenda, EarlierFirst()), UpcomingLimit)
  }

  /** The `upcoming_events` attribute. */
  function UpcomingRows(agenda: seq<AgendaEvent>): (r: seq<AgendaRow>)
    ensures |r| <= UpcomingLimit
  {
    Map(UpcomingEvents(agenda), AgendaRowOf)
  }

  /** The next event's attributes: those of an `upcoming_events` row except `notes`. */
  datatype NextRow = NextRow(begin: Option<string>, end: Option<string>, subject: Option<string>,
                             author: Option<string>, kind: Option<string>, fullDay: Option<bool>, studentRelevant: bool)

  function NextRowOf(e: AgendaEvent): NextRow {
    NextRow(e.evtDatetimeBegin, e.evtDatetimeEnd, e.subjectDesc, e.authorName, e.evtCode, e.isFullDay,
            e.studentRelevant.GetOr(false))
  }

  /**
   * The next event's attributes: none (an empty dict) for an empty agenda,
   * else those of the head, agreeing field by field with the first
   * `upcoming_events` row, which alone also carries the notes.
   */
  function NextEventRow(agenda: seq<AgendaEvent>): (r: Option<NextRow>)
    ensures r.None? <==> agenda == []
    ensures r.Some? ==> r.value == NextRowOf(UpcomingEvents(agenda)[0])
    ensures r.Some? ==> var u := UpcomingRows(agenda)[0];
      r.value == NextRow(u.begin, u.end, u.subject, u.author, u.kind, u.fullDay, u.studentRelevant)
  {
    var events := Sort(agenda, EarlierFirst());
    if events == [] then None else Some(NextRowOf(events[0]))
  }

  /**
   * The upcoming events are agenda events in ascending begin order, led by
   * the event the state shows, and none left out begins before one listed.
   */
  lemma UpcomingAreEarliest(agenda: seq<AgendaEvent>)
    ensures multiset(UpcomingEvents(agenda)) <= multiset(agenda)
    ensures forall i, j :: 0 <= i < j < |UpcomingEvents(agenda)| ==>
      !LexLess(BeginKey(UpcomingEvents(agenda)[j]), BeginKey(UpcomingEvents(agenda)[i]))
    ensures forall e, i :: multiset(UpcomingEvents(agenda))[e] < multiset(agenda)[e] && 0 <= i < |UpcomingEvents(agenda)| ==>
      !LexLess(BeginKey(e), BeginKey(UpcomingEvents(agenda)[i]))
    ensures agenda != [] ==> NextAgendaValue(agenda) == Some(AgendaLabel(UpcomingEvents(agenda)[0]))
  {
    EarlierFirstOrders();
    SortSorted(agenda, EarlierFirst());
    TakeOfSorted(Sort(agenda, EarlierFirst()), EarlierFirst(), UpcomingLimit);
  }
}
