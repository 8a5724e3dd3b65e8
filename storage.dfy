/**
 * The attachment cache (`DidacticsStorage`): downloaded didactic files kept
 * under `<www>/classeviva_didactics/<item id>/<file name>`, each item
 * directory stamped by a hidden marker file `.cv_ts` holding the instant it
 * was last saved, and evicted by age.
 *
 * The file system below the storage root is a map from entry name to node;
 * an item directory maps file names to bytes, and its marker is kept apart
 * from the content files. Instants are integers (microseconds, UTC); the
 * marker either parses to an instant or holds text that does not parse.
 */
module Storage {
  import opened Wrappers

  /** The name of the marker file recording when an item was last saved. */
  const TsFile := ".cv_ts"

  /** The storage root's name below the served `www` directory. */
  const StorageSubdir := "classeviva_didactics"

  /** The URL prefix under which the `www` directory is served. */
  const UrlPrefix := "/local/" + StorageSubdir + "/"

  const MicrosPerDay := 86_400_000_000

  /** `cleanup_old_content`'s default retention, in days. */
  const DefaultMaxAgeDays := 60

  type Bytes = seq<bv8>

  /** The content files of an item directory; the marker is never one of them. */
  type Files = m: map<string, Bytes> | TsFile !in m witness map[]

  /** The state of an item directory's marker file. */
  datatype Marker = NoMarker | Stamp(at: int) | Garbage

  /** An entry of the storage root: an item directory, or any other kind of file. */
  datatype Node = Stray | ItemDir(files: Files, marker: Marker, mtime: int)

  /** The storage root's entries, or None when the root directory does not exist. */
  type Tree = Option<map<string, Node>>

  /** A stored file: `<root>/<itemId>/<name>`. */
  datatype Path = Path(itemId: string, name: string)

  /** The OS errors the cache operations can raise. */
  datatype FsError = NotADirectory | FileExists | WriteFailed

  // ---------------------------------------------------------------------
  // Queries
  // ---------------------------------------------------------------------

  /**
   * The content files cached for `id`: none when there is no such entry,
   * an error when the entry is not a directory (listing it raises).
   */
  function Contents(t: Tree, id: string): Result<Files, FsError> {
    if t.None? || id !in t.value then Ok(map[])
    else match t.value[id]
      case Stray => Err(NotADirectory)
      case ItemDir(files, _, _) => Ok(files)
  }

  /** `has_content`: the item directory exists and lists some entry other than the marker. */
  function HasContentIn(t: Tree, id: string): (r: Result<bool, FsError>)
    ensures r == Ok(true) <==>
      t.Some? && id in t.value && t.value[id].ItemDir? && exists name :: name in t.value[id].files
    ensures r.Err? <==> t.Some? && id in t.value && t.value[id].Stray?
  {
    match Contents(t, id)
    case Err(e) => Err(e)
    case Ok(files) =>
      assert files != map[] ==> exists name :: name in files by {
        if files != map[] {
          var name :| name in files.Keys;
        }
      }
      Ok(files != map[])
  }

  /** The names a listing of an item directory yields: its content files and the marker, if any. */
  function Listing(files: Files, marker: Marker): (names: set<string>)
    ensures files.Keys <= names
    ensures forall n :: n in names && n != TsFile ==> n in files
  {
    files.Keys + (if marker.NoMarker? then {} else {TsFile})
  }

  /** The URL a cached file is served at. */
  function UrlOf(id: string, name: string): string {
    UrlPrefix + id + "/" + name
  }

  /**
   * What `local_url(id)` may return: the error listing raises, None when no
   * content is cached, and otherwise the URL of one of the cached files.
   */
  ghost predicate ServedAt(t: Tree, id: string, u: Result<Option<string>, FsError>) {
    match Contents(t, id)
    case Err(e) => u == Err(e)
    case Ok(files) =>
      && u.Ok?
      && (u.value.None? <==> files == map[])
      && (u.value.Some? ==> exists name :: name in files && u.value.value == UrlOf(id, name))
  }

  /** A directory holding a single file serves exactly that file's URL. */
  lemma ServedAtSingleFile(t: Tree, id: string, name: string, data: Bytes, u: Result<Option<string>, FsError>)
    requires Contents(t, id) == Ok(map[name := data])
    requires ServedAt(t, id, u)
    ensures u == Ok(Some(UrlOf(id, name)))
  {
    var files := map[name := data];
    assert name in files;
    var n :| n in files && u.value.value == UrlOf(id, n);
  }

  // ---------------------------------------------------------------------
  // Saving
  // ---------------------------------------------------------------------

  /**
   * A name that `<dir> / name` resolves to a plain entry of the directory;
   * writing to any other name fails (it is the directory itself, its parent,
   * lies in a missing sub-directory, or holds a NUL byte).
   */
  predicate PlainName(name: string) {
    name != "" && name != "." && name != ".." && '/' !in name && '\0' !in name
  }

  /**
   * `save_content(id, name, data)` at instant `now`: the new tree and the
   * returned path or error. The item directory (and the root) is created
   * first; then the file is written and the marker rewritten with `now`.
   * The directory's modification time moves to `now` when an entry is added.
   */
  function Save(t: Tree, id: string, name: string, data: Bytes, now: int): (Tree, Result<Path, FsError>) {
    var entries := t.GetOr(map[]);
    if id in entries && entries[id].Stray? then
      (t, Err(FileExists))
    else
      var dir := if id in entries then entries[id] else ItemDir(map[], NoMarker, now);
      if !PlainName(name) then
        (Some(entries[id := dir]), Err(WriteFailed))
      else
        var files: Files := if name == TsFile then dir.files else dir.files[name := data];
        var grew := files.Keys != dir.files.Keys || dir.marker.NoMarker?;
        (Some(entries[id := ItemDir(files, Stamp(now), if grew then now else dir.mtime)]), Ok(Path(id, name)))
  }

  /** After a successful save of a content file, the item has content and the file holds `data`. */
  lemma SaveThenHasContent(t: Tree, id: string, name: string, data: Bytes, now: int)
    requires Contents(t, id).Ok? && PlainName(name) && name != TsFile
    ensures Save(t, id, name, data, now).1 == Ok(Path(id, name))
    ensures HasContentIn(Save(t, id, name, data, now).0, id) == Ok(true)
    ensures Contents(Save(t, id, name, data, now).0, id) == Ok(Contents(t, id).value[name := data])
  {
    var t' := Save(t, id, name, data, now).0;
    assert name in t'.value[id].files;
  }

  /**
   * Saving under a new id caches exactly that one file, stamped `now`, and
   * its URL is `/local/classeviva_didactics/<id>/<name>`.
   */
  lemma SaveFreshThenLocate(t: Tree, id: string, name: string, data: Bytes, now: int, u: Result<Option<string>, FsError>)
    requires Contents(t, id) == Ok(map[]) && PlainName(name) && name != TsFile
    requires ServedAt(Save(t, id, name, data, now).0, id, u)
    ensures Contents(Save(t, id, name, data, now).0, id) == Ok(map[name := data])
    ensures u == Ok(Some(UrlPrefix + id + "/" + name))
  {
    SaveThenHasContent(t, id, name, data, now);
    ServedAtSingleFile(Save(t, id, name, data, now).0, id, name, data, u);
  }

  /**
   * Saving twice under the same id and name keeps the second bytes, and the
   * marker holds the second instant, so with a clock that does not run
   * backwards the saved instant never decreases.
   */
  lemma ResaveOverwrites(t: Tree, id: string, name: string, d1: Bytes, d2: Bytes, now1: int, now2: int)
    requires Contents(t, id).Ok? && PlainName(name) && name != TsFile
    requires now1 <= now2
    ensures var t1 := Save(t, id, name, d1, now1).0;
            var t2 := Save(t1, id, name, d2, now2).0;
            && Contents(t2, id) == Ok(Contents(t, id).value[name := d2])
            && t1.Some? && t2.Some? && t1.value[id].marker == Stamp(now1) && t2.value[id].marker == Stamp(now2)
            && t1.value[id].marker.at <= t2.value[id].marker.at
  {
    var t1 := Save(t, id, name, d1, now1).0;
    SaveThenHasContent(t, id, name, d1, now1);
    SaveThenHasContent(t1, id, name, d2, now2);
    assert Contents(t, id).value[name := d1][name := d2] == Contents(t, id).value[name := d2];
  }

  /** A save touches no entry of the root but the item's own. */
  lemma SaveLeavesOthers(t: Tree, id: string, name: string, data: Bytes, now: int, other: string)
    requires t.Some? && other != id
    ensures var t' := Save(t, id, name, data, now).0;
            t'.Some? && (other in t'.value <==> other in t.value) && (other in t.value ==> t'.value[other] == t.value[other])
  {
  }

  // ---------------------------------------------------------------------
  // Eviction
  // ---------------------------------------------------------------------

  /**
   * The instant an item directory counts as saved at: the marker's instant,
   * the directory's modification time when there is no marker, and None
   * when the marker does not parse (reading it raises).
   */
  function SavedAt(node: Node): Option<int>
    requires node.ItemDir?
  {
    match node.marker
    case Stamp(at) => Some(at)
    case NoMarker => Some(node.mtime)
    case Garbage => None
  }

  /** `now - timedelta(days=maxAgeDays)`. */
  function Cutoff(now: int, maxAgeDays: int): int {
    now - maxAgeDays * MicrosPerDay
  }

  /** An item directory saved strictly before the cutoff. */
  predicate Stale(node: Node, cutoff: int) {
    node.ItemDir? && SavedAt(node).Some? && SavedAt(node).value < cutoff
  }

  /** The names of the root's item directories. */
  function DirIds(entries: map<string, Node>): set<string> {
    set id | id in entries && entries[id].ItemDir?
  }

  function StaleIds(entries: map<string, Node>, cutoff: int): (s: set<string>)
    ensures s <= DirIds(entries)
  {
    set id | id in entries && Stale(entries[id], cutoff)
  }

  lemma {:induction false} SubsetCard<T>(a: set<T>, b: set<T>)
    requires a <= b
    ensures |a| <= |b|
    decreases |b|
  {
    if a != {} {
      var x :| x in a;
      SubsetCard(a - {x}, b - {x});
    }
  }

  /**
   * `cleanup_old_content(maxAgeDays)` at instant `now`: the tree without its
   * stale item directories, and how many were removed (0 when the root does
   * not exist).
   */
  function Cleanup(t: Tree, maxAgeDays: int, now: int): (r: (Tree, nat))
    ensures t.None? ==> r == (t, 0)
    ensures t.Some? ==> r.0.Some? && r.1 <= |DirIds(t.value)|
    ensures t.Some? ==> forall id :: id in r.0.value <==> id in t.value && !Stale(t.value[id], Cutoff(now, maxAgeDays))
    ensures t.Some? ==> forall id :: id in r.0.value ==> r.0.value[id] == t.value[id]
  {
    if t.None? then (t, 0)
    else
      var gone := StaleIds(t.value, Cutoff(now, maxAgeDays));
      SubsetCard(gone, DirIds(t.value));
      (Some(t.value - gone), |gone|)
  }

  /** The count a cleanup returns is exactly the number of root entries it removed. */
  lemma CleanupCountsRemoved(t: Tree, maxAgeDays: int, now: int)
    requires t.Some?
    ensures var r := Cleanup(t, maxAgeDays, now);
      r.1 == |t.value.Keys - r.0.value.Keys|
  {
    var gone := StaleIds(t.value, Cutoff(now, maxAgeDays));
    assert t.value.Keys - (t.value - gone).Keys == gone;
  }

  /** Only directories are removed: other entries of the root survive any cleanup. */
  lemma CleanupKeepsStrays(t: Tree, maxAgeDays: int, now: int, id: string)
    requires t.Some? && id in t.value && t.value[id].Stray?
    ensures id in Cleanup(t, maxAgeDays, now).0.value
  {
  }

  /** A directory whose marker does not parse is skipped: never removed. */
  lemma CleanupSkipsUnparseable(t: Tree, maxAgeDays: int, now: int, id: string)
    requires t.Some? && id in t.value && t.value[id].ItemDir? && t.value[id].marker.Garbage?
    ensures id in Cleanup(t, maxAgeDays, now).0.value
  {
  }

  /** An empty root yields 0 removals. */
  lemma CleanupEmptyRoot(maxAgeDays: int, now: int)
    ensures Cleanup(Some(map[]), maxAgeDays, now) == (Some(map[]), 0)
  {
  }

  /** An item saved at `now` survives a cleanup run at `now` with a non-negative age. */
  lemma CleanupKeepsRecentSave(t: Tree, id: string, name: string, data: Bytes, now: int, maxAgeDays: nat)
    requires Contents(t, id).Ok? && PlainName(name)
    ensures var t' := Save(t, id, name, data, now).0;
            id in Cleanup(t', maxAgeDays, now).0.value
  {
  }

  /** An item whose marker is older than `maxAgeDays` days is removed. */
  lemma CleanupRemovesOld(t: Tree, id: string, files: Files, mtime: int, now: int, maxAgeDays: int)
    requires t.Some? && id in t.value && t.value[id] == ItemDir(files, Stamp(Cutoff(now, maxAgeDays) - 1), mtime)
    ensures id !in Cleanup(t, maxAgeDays, now).0.value
    ensures Cleanup(t, maxAgeDays, now).1 >= 1
  {
    var gone := StaleIds(t.value, Cutoff(now, maxAgeDays));
    assert id in gone;
  }

  /** A second cleanup at the same instant removes nothing and changes nothing. */
  lemma CleanupIdempotent(t: Tree, maxAgeDays: int, now: int)
    ensures var t1 := Cleanup(t, maxAgeDays, now).0;
            Cleanup(t1, maxAgeDays, now) == (t1, 0)
  {
    if t.Some? {
      var t1 := Cleanup(t, maxAgeDays, now).0;
      var cutoff := Cutoff(now, maxAgeDays);
      assert StaleIds(t1.value, cutoff) == {};
      assert t1.value - {} == t1.value;
    }
  }

  // ---------------------------------------------------------------------
  // The cache object
  // ---------------------------------------------------------------------

  class DidacticsStorage {
    /** The storage root `<www>/classeviva_didactics` and everything below it. */
    var root: Tree

    /** Opens the cache over what is already on disk, creating the root if missing. */
    constructor(disk: Tree)
      ensures root == Some(disk.GetOr(map[]))
    {
      root := Some(disk.GetOr(map[]));
    }

    /** `has_content(id)`. */
    function HasContent(id: string): Result<bool, FsError>
      reads this
    {
      HasContentIn(root, id)
    }

    /** `save_content(id, name, data)`, the clock reading `now`. */
    method SaveContent(id: string, name: string, data: Bytes, now: int) returns (r: Result<Path, FsError>)
      modifies this
      ensures (root, r) == Save(old(root), id, name, data, now)
    {
      var entries := if root.Some? then root.value else map[];
      if id in entries && entries[id].Stray? {
        return Err(FileExists);
      }
      var dir := if id in entries then entries[id] else ItemDir(map[], NoMarker, now);
      root := Some(entries[id := dir]);
      if !PlainName(name) {
        return Err(WriteFailed);
      }
      var files: Files := dir.files;
      if name != TsFile {
        files := files[name := data];
      }
      var mtime := if files.Keys != dir.files.Keys || dir.marker.NoMarker? then now else dir.mtime;
      root := Some(entries[id := ItemDir(files, Stamp(now), mtime)]);
      r := Ok(Path(id, name));
    }

    /**
     * `get_content_path(id)`: the first listed entry that is not the marker.
     * The listing order is the file system's, so any content file may come first.
     */
    method GetContentPath(id: string) returns (r: Result<Option<Path>, FsError>)
      ensures Contents(root, id).Err? ==> r == Err(Contents(root, id).error)
      ensures Contents(root, id).Ok? ==> r.Ok? && (r.value.None? <==> Contents(root, id).value == map[])
      ensures r.Ok? && r.value.Some? ==>
        Contents(root, id).Ok? && r.value.value.itemId == id && r.value.value.name in Contents(root, id).value
    {
      if root.None? || id !in root.value {
        return Ok(None);
      }
      var node := root.value[id];
      if node.Stray? {
        return Err(NotADirectory);
      }
      var listing := Listing(node.files, node.marker);
      var pending := listing;
      while pending != {}
        invariant pending <= listing
        invariant forall n :: n in listing && n !in pending ==> n == TsFile
        decreases pending
      {
        var f :| f in pending;
        if f != TsFile {
          return Ok(Some(Path(id, f)));
        }
        pending := pending - {f};
      }
      assert forall n :: n in node.files ==> n in listing && n != TsFile;
      return Ok(None);
    }

    /** `local_url(id)`: the URL of the file `get_content_path` finds. */
    method LocalUrl(id: string) returns (r: Result<Option<string>, FsError>)
      ensures ServedAt(root, id, r)
    {
      var p := GetContentPath(id);
      match p
      case Err(e) => r := Err(e);
      case Ok(None) => r := Ok(None);
      case Ok(Some(path)) => r := Ok(Some(UrlPrefix + id + "/" + path.name));
    }

    /** `cleanup_old_content(maxAgeDays)`, the clock reading `now`. */
    method CleanupOldContent(maxAgeDays: int, now: int) returns (removed: nat)
      modifies this
      ensures (root, removed) == Cleanup(old(root), maxAgeDays, now)
    {
      if root.None? {
        return 0;
      }
      var cutoff := now - maxAgeDays * MicrosPerDay;
      var entries := root.value;
      var pending := entries.Keys;
      removed := 0;
      ghost var gone: set<string> := {};
      assert entries - gone == entries;
      while pending != {}
        invariant pending <= entries.Keys
        invariant gone == set id | id in entries && id !in pending && Stale(entries[id], cutoff)
        invariant root == Some(entries - gone)
        invariant removed == |gone|
        decreases pending
      {
        var id :| id in pending;
        var node := entries[id];
        if node.ItemDir? {
          var saved := SavedAt(node);
          if saved.Some? && saved.value < cutoff {
            assert (entries - gone) - {id} == entries - (gone + {id});
            root := Some(root.value - {id});
            removed := removed + 1;
            gone := gone + {id};
          }
        }
        pending := pending - {id};
      }
      assert gone == StaleIds(entries, cutoff);
    }
  }
}
