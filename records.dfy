/**
 * The JSON records the remote API returns, reduced to the keys the
 * integration reads. A key the server may omit is an `Option`; a JSON flag
 * that is present is represented by its Python truthiness. The nested
 * didactics payload is a teacher -> folder -> item tree; a missing
 * `folders` or `agendaItems` key reads as an empty list everywhere in the
 * integration, so it is represented as one.
 */
module Records {
  import opened Wrappers
  import opened Text
  import opened Seqs

  datatype Grade = Grade(
    evtId: Option<int>,
    evtDate: Option<string>,
    subjectDesc: Option<string>,
    displayValue: Option<string>,
    notesForFamily: Option<string>)

  datatype Absence = Absence(
    evtDate: Option<string>,
    evtCode: Option<string>,
    isJustified: Option<bool>,
    justifReasonDesc: Option<string>)

  /** An agenda entry; `studentRelevant` is the annotation the coordinator adds. */
  datatype AgendaEvent = AgendaEvent(
    evtId: Option<int>,
    evtCode: Option<string>,
    evtDatetimeBegin: Option<string>,
    evtDatetimeEnd: Option<string>,
    isFullDay: Option<bool>,
    notes: Option<string>,
    authorName: Option<string>,
    subjectDesc: Option<string>,
    studentRelevant: Option<bool>)

  /** A noticeboard notice; `attachments` is the length of its attachment list (0 when absent). */
  datatype Notice = Notice(
    pubId: Option<int>,
    cntTitle: Option<string>,
    cntAuthor: Option<string>,
    cntCategory: Option<string>,
    evtBegin: Option<string>,
    readStatus: Option<bool>,
    attachments: nat)

  /** A didactic item; `localUrl` is the annotation the coordinator adds. */
  datatype Item = Item(
    itemId: Option<int>,
    contentId: Option<int>,
    displayName: Option<string>,
    itemName: Option<string>,
    shareDt: Option<string>,
    localUrl: Option<string>)

  datatype Folder = Folder(folderName: Option<string>, lastShareDt: Option<string>, agendaItems: seq<Item>)

  datatype Teacher = Teacher(teacherName: Option<string>, folders: seq<Folder>)

  // ---------------------------------------------------------------------
  // Python's `a or b`
  // ---------------------------------------------------------------------

  /** `a or b` on optional strings: `a` unless it is None or empty. */
  function OrText(a: Option<string>, b: Option<string>): Option<string> {
    if a.Some? && a.value != "" then a else b
  }

  /** `a or b` on optional integers: `a` unless it is None or zero. */
  function OrId(a: Option<int>, b: Option<int>): Option<int> {
    if a.Some? && a.value != 0 then a else b
  }

  /** `a or b or default` on optional strings, with a non-empty default: never empty. */
  function OrElse(a: Option<string>, b: Option<string>, default: string): (r: string)
    requires default != ""
    ensures r != ""
    ensures a.Some? && a.value != "" ==> r == a.value
    ensures !(a.Some? && a.value != "") && b.Some? && b.value != "" ==> r == b.value
    ensures !(a.Some? && a.value != "") && !(b.Some? && b.value != "") ==> r == default
  {
    var o := OrText(a, b);
    if o.Some? && o.value != "" then o.value else default
  }

  /** `str(x)` of an optional integer: Python prints None as "None". */
  function IdText(x: Option<int>): string {
    match x
    case None => "None"
    case Some(n) => IntText(n)
  }

  /** The identity the coordinator gives an item: `itemId or contentId`. */
  function ItemKey(item: Item): Option<int> {
    OrId(item.itemId, item.contentId)
  }

  /** The id the coordinator requests a download for: `contentId or itemId`. */
  function DownloadKey(item: Item): Option<int> {
    OrId(item.contentId, item.itemId)
  }

  /** The item's name: `displayName or itemName`. */
  function ItemLabel(item: Item): Option<string> {
    OrText(item.displayName, item.itemName)
  }

  // ---------------------------------------------------------------------
  // The didactics tree, flattened in the order the nested loops visit it
  // ---------------------------------------------------------------------

  /** A leaf item together with the names of the teacher and folder above it. */
  datatype Entry = Entry(teacherName: Option<string>, folderName: Option<string>, item: Item)

  function ItemEntries(tn: Option<string>, fn: Option<string>, items: seq<Item>): (r: seq<Entry>)
    ensures |r| == |items|
    ensures forall i :: 0 <= i < |items| ==> r[i] == Entry(tn, fn, items[i])
  {
    if items == [] then []
    else ItemEntries(tn, fn, items[..|items| - 1]) + [Entry(tn, fn, items[|items| - 1])]
  }

  function FolderEntries(tn: Option<string>, folders: seq<Folder>): seq<Entry> {
    if folders == [] then []
    else
      var f := folders[|folders| - 1];
      FolderEntries(tn, folders[..|folders| - 1]) + ItemEntries(tn, f.folderName, f.agendaItems)
  }

  /** Every leaf of the tree, teacher by teacher, folder by folder, item by item. */
  function Entries(teachers: seq<Teacher>): seq<Entry> {
    if teachers == [] then []
    else
      var t := teachers[|teachers| - 1];
      Entries(teachers[..|teachers| - 1]) + FolderEntries(t.teacherName, t.folders)
  }

  lemma {:induction false} ItemEntriesAppend(tn: Option<string>, fn: Option<string>, a: seq<Item>, b: seq<Item>)
    ensures ItemEntries(tn, fn, a + b) == ItemEntries(tn, fn, a) + ItemEntries(tn, fn, b)
  {
  }

  lemma {:induction false} FolderEntriesAppend(tn: Option<string>, a: seq<Folder>, b: seq<Folder>)
    ensures FolderEntries(tn, a + b) == FolderEntries(tn, a) + FolderEntries(tn, b)
    decreases |b|
  {
    if b == [] {
      assert a + b == a;
    } else {
      var b', f := b[..|b| - 1], b[|b| - 1];
      assert (a + b)[..|a + b| - 1] == a + b' && (a + b)[|a + b| - 1] == f;
      var items := ItemEntries(tn, f.folderName, f.agendaItems);
      FolderEntriesAppend(tn, a, b');
      AppendAssoc(FolderEntries(tn, a), FolderEntries(tn, b'), items);
    }
  }

  lemma {:induction false} EntriesAppend(a: seq<Teacher>, b: seq<Teacher>)
    ensures Entries(a + b) == Entries(a) + Entries(b)
    decreases |b|
  {
    if b == [] {
      assert a + b == a;
    } else {
      var b', t := b[..|b| - 1], b[|b| - 1];
      assert (a + b)[..|a + b| - 1] == a + b' && (a + b)[|a + b| - 1] == t;
      var leaves := FolderEntries(t.teacherName, t.folders);
      EntriesAppend(a, b');
      AppendAssoc(Entries(a), Entries(b'), leaves);
    }
  }

  /** Extending the visited folders by one adds that folder's items. */
  lemma FolderEntriesStep(tn: Option<string>, folders: seq<Folder>, f: nat)
    requires f < |folders|
    ensures FolderEntries(tn, folders[..f + 1])
         == FolderEntries(tn, folders[..f]) + ItemEntries(tn, folders[f].folderName, folders[f].agendaItems)
  {
    assert folders[..f + 1][..f] == folders[..f];
  }

  /** Extending the visited teachers by one adds that teacher's items. */
  lemma EntriesStep(teachers: seq<Teacher>, t: nat)
    requires t < |teachers|
    ensures Entries(teachers[..t + 1])
         == Entries(teachers[..t]) + FolderEntries(teachers[t].teacherName, teachers[t].folders)
  {
    assert teachers[..t + 1][..t] == teachers[..t];
  }

  lemma EntriesAround(teachers: seq<Teacher>, t: nat)
    requires t < |teachers|
    ensures Entries(teachers)
         == Entries(teachers[..t]) + FolderEntries(teachers[t].teacherName, teachers[t].folders) + Entries(teachers[t + 1..])
  {
    assert teachers == teachers[..t + 1] + teachers[t + 1..];
    EntriesAppend(teachers[..t + 1], teachers[t + 1..]);
    EntriesStep(teachers, t);
  }

  lemma FolderEntriesAround(tn: Option<string>, folders: seq<Folder>, f: nat)
    requires f < |folders|
    ensures FolderEntries(tn, folders)
         == FolderEntries(tn, folders[..f]) + ItemEntries(tn, folders[f].folderName, folders[f].agendaItems)
            + FolderEntries(tn, folders[f + 1..])
  {
    assert folders == folders[..f + 1] + folders[f + 1..];
    FolderEntriesAppend(tn, folders[..f + 1], folders[f + 1..]);
    FolderEntriesStep(tn, folders, f);
  }
}
